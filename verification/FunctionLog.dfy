/**
 The function execution log: a queue of timestamped parts, bounded by the number of completions it
 holds, that consumers read by cursor and wait on when there is nothing newer.

 A cursor is a non-negative double; only the order and the next double above a value matter, so it
 is modelled by its rank among them.
 */
module FunctionLog {
  import opened Common

  type Cursor = nat

  datatype UdfType = Query | Mutation | Action | HttpAction

  datatype Part =
    | Progress(id: nat, lines: seq<string>)
    | Completion(id: nat, udfType: UdfType, lines: seq<string>)

  datatype Entry = Entry(time: Cursor, part: Part)

  /** A consumer that found nothing newer than its cursor. */
  datatype Waiter = Waiter(consumer: nat, cursor: Cursor)

  datatype Log = Log(entries: seq<Entry>, completions: nat, waiters: seq<Waiter>)

  function Completions(entries: seq<Entry>): nat {
    if entries == [] then 0
    else (if entries[0].part.Completion? then 1 else 0) + Completions(entries[1..])
  }

  predicate Increasing(entries: seq<Entry>) {
    forall i, j :: 0 <= i < j < |entries| ==> entries[i].time < entries[j].time
  }

  ghost predicate Valid(l: Log) {
    l.completions == Completions(l.entries) && Increasing(l.entries)
  }

  /** The clock, or the next cursor above the last entry if the clock is not above it. */
  function NextTime(entries: seq<Entry>, clock: Cursor): Cursor {
    if entries != [] && entries[|entries| - 1].time + 1 > clock then entries[|entries| - 1].time + 1 else clock
  }

  function Push(l: Log, part: Part, clock: Cursor): Log {
    l.(entries := l.entries + [Entry(NextTime(l.entries, clock), part)],
       completions := l.completions + if part.Completion? then 1 else 0)
  }

  /** How many entries go from the front until at most `max` completions are left. */
  function Evicted(entries: seq<Entry>, max: nat): (k: nat)
    ensures k <= |entries|
  {
    if Completions(entries) <= max || entries == [] then 0 else 1 + Evicted(entries[1..], max)
  }

  function Logged(l: Log, part: Part, clock: Cursor, max: nat): Log {
    var pushed := Push(l, part, clock);
    if part.Progress? then pushed.(waiters := [])
    else
      var rest := pushed.entries[Evicted(pushed.entries, max)..];
      Log(rest, Completions(rest), [])
  }

  /** How many entries a consumer at `cursor` has passed. */
  function Passed(entries: seq<Entry>, cursor: Cursor): (k: nat)
    ensures k <= |entries|
  {
    if entries == [] || entries[0].time > cursor then 0 else 1 + Passed(entries[1..], cursor)
  }

  // ------------------------------------------------------------------ entries and cursors

  /** The least cursor that is not before the clock and above all entries. */
  ghost predicate LeastAbove(entries: seq<Entry>, clock: Cursor, t: Cursor) {
    clock <= t && AllBelow(entries, t) && forall x: Cursor :: clock <= x && AllBelow(entries, x) ==> t <= x
  }

  ghost predicate AllBelow(entries: seq<Entry>, t: Cursor) {
    forall e :: e in entries ==> e.time < t
  }

  lemma NextTimeIsLeast(entries: seq<Entry>, clock: Cursor)
    requires Increasing(entries)
    ensures LeastAbove(entries, clock, NextTime(entries, clock))
  {
    if entries != [] {
      var last := entries[|entries| - 1];
      assert last in entries;
      assert forall e :: e in entries ==> e.time <= last.time;
      assert forall x: Cursor :: AllBelow(entries, x) ==> last.time < x;
    }
  }

  lemma {:induction false} CompletionsSplit(a: seq<Entry>, b: seq<Entry>)
    ensures Completions(a + b) == Completions(a) + Completions(b)
  {
    if a == [] {
      assert a + b == b;
    } else {
      CompletionsSplit(a[1..], b);
      assert (a + b)[1..] == a[1..] + b;
    }
  }

  /** The entries passed are the ones at or below the cursor. */
  lemma {:induction false} PassedSplits(entries: seq<Entry>, cursor: Cursor)
    requires Increasing(entries)
    ensures forall i :: 0 <= i < |entries| ==> (i < Passed(entries, cursor) <==> entries[i].time <= cursor)
  {
    if entries != [] && entries[0].time <= cursor {
      PassedSplits(entries[1..], cursor);
      assert forall i :: 1 <= i < |entries| ==> entries[i] == entries[1..][i - 1];
    }
  }

  /** Eviction drops the shortest prefix that leaves at most `max` completions, and it ends in one. */
  lemma {:induction false} EvictsShortestPrefix(entries: seq<Entry>, max: nat)
    ensures var k := Evicted(entries, max);
            && Completions(entries[k..]) == (if Completions(entries) < max then Completions(entries) else max)
            && (k > 0 ==> entries[k - 1].part.Completion? && Completions(entries[k - 1..]) == max + 1)
  {
    var k := Evicted(entries, max);
    if k == 0 {
      assert entries[k..] == entries;
    } else {
      EvictsShortestPrefix(entries[1..], max);
      assert entries[k..] == entries[1..][k - 1..];
      if k == 1 {
        assert entries[0..] == entries && entries[1..][0..] == entries[1..];
      } else {
        assert entries[k - 1..] == entries[1..][k - 2..];
      }
    }
  }

  lemma PushIncreasing(entries: seq<Entry>, part: Part, clock: Cursor)
    requires Increasing(entries)
    ensures Increasing(entries + [Entry(NextTime(entries, clock), part)])
  {
  }

  lemma SuffixIncreasing(entries: seq<Entry>, k: nat)
    requires Increasing(entries) && k <= |entries|
    ensures Increasing(entries[k..])
  {
  }

  /** The newest entry survives whenever any completion may be kept. */
  lemma NewestSurvives(entries: seq<Entry>, max: nat)
    requires max > 0 && entries != [] && entries[|entries| - 1].part.Completion?
    ensures Evicted(entries, max) < |entries|
  {
    var n := |entries|;
    EvictsShortestPrefix(entries, max);
    CompletionsSplit(entries[..n - 1], [entries[n - 1]]);
    assert entries == entries[..n - 1] + [entries[n - 1]];
    assert entries[n..] == [];
  }

  lemma LoggedValid(l: Log, part: Part, clock: Cursor, max: nat)
    requires Valid(l)
    ensures Valid(Logged(l, part, clock, max))
  {
    PushIncreasing(l.entries, part, clock);
    CompletionsSplit(l.entries, [Entry(NextTime(l.entries, clock), part)]);
    var pushed := Push(l, part, clock);
    SuffixIncreasing(pushed.entries, Evicted(pushed.entries, max));
  }

  // ------------------------------------------------------------------ the shared state

  /** The log behind its lock.  `max` is MAX_UDF_EXECUTION. */
  class Inner {
    const max: nat
    var entries: seq<Entry>
    var completions: nat
    var waiters: seq<Waiter>

    function Model(): Log
      reads this
    {
      Log(entries, completions, waiters)
    }

    constructor (max: nat)
      ensures this.max == max && Model() == Log([], 0, []) && Valid(Model())
    {
      this.max := max;
      entries, completions, waiters := [], 0, [];
    }

    /** Drops entries from the front; the loop ends because the counter counts the log. */
    method Evict()
      requires completions == Completions(entries)
      modifies this`entries, this`completions
      ensures entries == old(entries)[Evicted(old(entries), max)..] && completions == Completions(entries)
    {
      ghost var k := 0;
      while completions > max
        invariant completions == Completions(entries)
        invariant k <= |old(entries)| && entries == old(entries)[k..]
        invariant Evicted(old(entries), max) == k + Evicted(entries, max)
        decreases |entries|
      {
        if entries[0].part.Completion? {
          completions := completions - 1;
        }
        entries := entries[1..];
        k := k + 1;
      }
    }

    /** A clock before the epoch fails and changes nothing. */
    method LogExecution(part: Part, clock: Option<Cursor>) returns (ok: bool)
      requires part.Completion? && Valid(Model())
      modifies this
      ensures ok == clock.Some? && Valid(Model())
      ensures Model() == if ok then Logged(old(Model()), part, clock.value, max) else old(Model())
      ensures ok ==> exists t: Cursor, k: nat ::
                && LeastAbove(old(entries), clock.value, t)
                && KeepsNewest(old(entries) + [Entry(t, part)], k, max)
                && entries == (old(entries) + [Entry(t, part)])[k..]
      ensures ok ==> waiters == []
    {
      if clock.None? {
        return false;
      }
      NextTimeIsLeast(entries, clock.value);
      EvictsShortestPrefix(entries + [Entry(NextTime(entries, clock.value), part)], max);
      CompletionsSplit(entries, [Entry(NextTime(entries, clock.value), part)]);
      LoggedValid(Model(), part, clock.value, max);
      entries := entries + [Entry(NextTime(entries, clock.value), part)];
      completions := completions + 1;
      Evict();
      waiters := [];
      ok := true;
    }

    method LogProgress(part: Part, clock: Option<Cursor>) returns (ok: bool)
      requires part.Progress? && Valid(Model())
      modifies this
      ensures ok == clock.Some? && Valid(Model())
      ensures Model() == if ok then Logged(old(Model()), part, clock.value, max) else old(Model())
      ensures ok ==> exists t: Cursor ::
                LeastAbove(old(entries), clock.value, t) && entries == old(entries) + [Entry(t, part)]
      ensures ok ==> waiters == []
    {
      if clock.None? {
        return false;
      }
      NextTimeIsLeast(entries, clock.value);
      LoggedValid(Model(), part, clock.value, max);
      entries := entries + [Entry(NextTime(entries, clock.value), part)];
      waiters := [];
      ok := true;
    }

    /** One turn of a consumer's loop: what is newer than its cursor, or a place among the waiters. */
    method StreamParts(consumer: nat, cursor: Cursor) returns (found: seq<Part>, next: Cursor)
      requires Valid(Model())
      modifies this`waiters
      ensures found == Newer(entries, cursor)
      ensures Delivers(entries, cursor, found, |entries| - |found|)
      ensures found == [] <==> forall i :: 0 <= i < |entries| ==> entries[i].time <= cursor
      ensures found == [] ==> next == cursor && waiters == old(waiters) + [Waiter(consumer, cursor)]
      ensures found != [] ==> next == entries[|entries| - 1].time && waiters == old(waiters)
    {
      StreamFacts(entries, cursor);
      found := Read(entries, cursor);
      if found == [] {
        waiters := waiters + [Waiter(consumer, cursor)];
        next := cursor;
      } else {
        next := entries[|entries| - 1].time;
      }
    }
  }

  /** The entries after the cursor, as they are sent. */
  method Read(entries: seq<Entry>, cursor: Cursor) returns (found: seq<Part>)
    ensures found == Newer(entries, cursor)
  {
    found := Send(entries[Passed(entries, cursor)..]);
  }

  method Send(newer: seq<Entry>) returns (found: seq<Part>)
    ensures found == Stripped(newer)
  {
    found := [];
    for i := 0 to |newer|
      invariant found == Stripped(newer[..i])
    {
      found := found + [Strip(newer[i].part)];
      assert newer[..i + 1] == newer[..i] + [newer[i]];
    }
    assert newer[..|newer|] == newer;
  }

  /** How a part goes out: unchanged, except that the completion of an action has no lines. */
  ghost predicate SentAs(p: Part, q: Part) {
    match p
    case Progress(_, _) => q == p
    case Completion(id, udfType, lines) =>
      q == Completion(id, udfType, match udfType case Query => lines case Mutation => lines case _ => [])
  }

  /** Exactly the entries after the cursor are sent, in order; they start at `first`. */
  ghost predicate Delivers(entries: seq<Entry>, cursor: Cursor, found: seq<Part>, first: int) {
    && 0 <= first && |found| + first == |entries|
    && (forall i :: 0 <= i < first ==> entries[i].time <= cursor)
    && var newer := entries[first..];
       forall i :: 0 <= i < |newer| ==> newer[i].time > cursor && SentAs(newer[i].part, found[i])
  }

  lemma NewerDelivers(entries: seq<Entry>, cursor: Cursor)
    requires Increasing(entries)
    ensures Delivers(entries, cursor, Newer(entries, cursor), |entries| - |Newer(entries, cursor)|)
    ensures |Newer(entries, cursor)| == |entries| - Passed(entries, cursor)
  {
    PassedSplits(entries, cursor);
    var first := Passed(entries, cursor);
    var newer := entries[first..];
    forall i | 0 <= i < |newer| ensures newer[i].time > cursor && SentAs(newer[i].part, Newer(entries, cursor)[i]) {
      assert newer[i] == entries[first + i];
    }
  }

  lemma StreamFacts(entries: seq<Entry>, cursor: Cursor)
    requires Increasing(entries)
    ensures
      var found := Newer(entries, cursor);
      && Delivers(entries, cursor, found, |entries| - |found|)
      && (found == [] <==> forall i :: 0 <= i < |entries| ==> entries[i].time <= cursor)
      && (found != [] ==> entries != [])
  {
    NewerDelivers(entries, cursor);
    PassedSplits(entries, cursor);
    var found := Newer(entries, cursor);
    if found != [] {
      assert entries[|entries| - |found|].time > cursor;
    }
  }

  /** Index `k` is the least that leaves at most `max` completions. */
  ghost predicate KeepsNewest(entries: seq<Entry>, k: nat, max: nat) {
    && k <= |entries| && Completions(entries[k..]) <= max
    && (k > 0 ==> Completions(entries[k - 1..]) > max)
  }

  /** Actions send their lines as progress, so their completions go out without them. */
  function Strip(p: Part): Part {
    if p.Completion? && (p.udfType == Action || p.udfType == HttpAction) then p.(lines := []) else p
  }

  function Stripped(entries: seq<Entry>): (ps: seq<Part>)
    ensures |ps| == |entries| && forall i :: 0 <= i < |entries| ==> ps[i] == Strip(entries[i].part)
  {
    seq(|entries|, i requires 0 <= i < |entries| => Strip(entries[i].part))
  }

  function Newer(entries: seq<Entry>, cursor: Cursor): seq<Part> {
    Stripped(entries[Passed(entries, cursor)..])
  }

  // ------------------------------------------------------------------ every run

  /** A consumer: where it started, where it is, which appended parts it got, how many it decided on. */
  datatype Reader = Reader(start: Cursor, cursor: Cursor, got: seq<nat>, pos: nat)

  datatype History = History(max: nat, log: Log, appended: seq<Entry>, readers: seq<Reader>)

  datatype Event = Append(part: Part, clock: Cursor) | Poll(r: nat)

  predicate Initial(h: History) {
    && h.log == Log([], 0, []) && h.appended == []
    && forall r :: 0 <= r < |h.readers| ==> h.readers[r] == Reader(h.readers[r].start, h.readers[r].start, [], 0)
  }

  function AppendStep(h: History, part: Part, clock: Cursor): History {
    h.(log := Logged(h.log, part, clock, h.max), appended := h.appended + [Entry(NextTime(h.log.entries, clock), part)])
  }

  function Range(lo: nat, hi: nat): (s: seq<nat>)
    requires lo <= hi
    ensures |s| == hi - lo && forall i :: 0 <= i < |s| ==> s[i] == lo + i
  {
    seq(hi - lo, i requires 0 <= i => lo + i)
  }

  /** The reader gets the newer parts of the log, named by when they were appended. */
  function PollReader(h: History, r: Reader): Reader
    requires |h.log.entries| <= |h.appended|
  {
    var es := h.log.entries;
    var first := Passed(es, r.cursor);
    if first == |es| then r
    else
      Reader(r.start, es[|es| - 1].time,
             r.got + Range(|h.appended| - |es| + first, |h.appended|), |h.appended|)
  }

  function PollStep(h: History, r: nat): History
    requires |h.log.entries| <= |h.appended| && r < |h.readers|
  {
    var es := h.log.entries;
    if Passed(es, h.readers[r].cursor) == |es| then
      h.(log := h.log.(waiters := h.log.waiters + [Waiter(r, h.readers[r].cursor)]))
    else h.(readers := h.readers[r := PollReader(h, h.readers[r])])
  }

  predicate Legal(h: History, e: Event) {
    e.Append? || (e.r < |h.readers| && |h.log.entries| <= |h.appended|)
  }

  function Step(h: History, e: Event): History
    requires Legal(h, e)
  {
    match e
    case Append(part, clock) => AppendStep(h, part, clock)
    case Poll(r) => PollStep(h, r)
  }

  predicate LegalRun(h: History, es: seq<Event>)
    decreases |es|
  {
    es == [] || (Legal(h, es[0]) && LegalRun(Step(h, es[0]), es[1..]))
  }

  function Run(h: History, es: seq<Event>): History
    requires LegalRun(h, es)
    decreases |es|
  {
    if es == [] then h else Run(Step(h, es[0]), es[1..])
  }

  // ------------------------------------------------------------------ what holds for every bound

  function Dropped(h: History): int {
    |h.appended| - |h.log.entries|
  }

  /** The log is the tail of what was appended; a waiter has nothing to read. */
  ghost predicate TailOk(h: History) {
    && Valid(h.log)
    && 0 <= Dropped(h) && h.appended[Dropped(h)..] == h.log.entries
    && forall w, i :: 0 <= w < |h.log.waiters| && 0 <= i < |h.log.entries| ==>
        h.log.entries[i].time <= h.log.waiters[w].cursor
  }

  lemma TailAppend(h: History, part: Part, clock: Cursor)
    requires TailOk(h)
    ensures TailOk(AppendStep(h, part, clock)) && Dropped(h) <= Dropped(AppendStep(h, part, clock))
  {
    LoggedValid(h.log, part, clock, h.max);
    var h' := AppendStep(h, part, clock);
    var pushed := Push(h.log, part, clock);
    assert h'.appended[Dropped(h)..] == pushed.entries;
    if part.Completion? {
      var k := Evicted(pushed.entries, h.max);
      assert h'.appended[Dropped(h) + k..] == pushed.entries[k..];
    }
  }

  lemma TailPoll(h: History, r: nat)
    requires TailOk(h) && Legal(h, Poll(r))
    ensures TailOk(PollStep(h, r))
  {
    PassedSplits(h.log.entries, h.readers[r].cursor);
    var h' := PollStep(h, r);
    assert h'.log.entries == h.log.entries && h'.appended == h.appended;
  }

  lemma TailStep(h: History, e: Event)
    requires TailOk(h) && Legal(h, e)
    ensures TailOk(Step(h, e))
  {
    match e
    case Append(part, clock) => TailAppend(h, part, clock);
    case Poll(r) => TailPoll(h, r);
  }

  lemma {:induction false} TailRun(h: History, es: seq<Event>)
    requires TailOk(h) && LegalRun(h, es)
    ensures TailOk(Run(h, es))
    decreases |es|
  {
    if es != [] {
      TailStep(h, es[0]);
      TailRun(Step(h, es[0]), es[1..]);
    }
  }

  /** Whatever the bound, nobody waits while there is something newer in the log. */
  lemma WaitersHaveNothing(h: History, es: seq<Event>, w: nat, i: nat)
    requires Initial(h) && LegalRun(h, es)
    requires w < |Run(h, es).log.waiters| && i < |Run(h, es).log.entries|
    ensures Run(h, es).log.entries[i].time <= Run(h, es).log.waiters[w].cursor
  {
    TailRun(h, es);
  }

  // ------------------------------------------------------------------ what holds for a positive bound

  /** Cursors never repeat, even across evictions, because the newest entry stays. */
  ghost predicate NewestKept(h: History) {
    TailOk(h) && Increasing(h.appended) && (h.appended != [] ==> h.log.entries != [])
  }

  predicate Got(r: Reader, i: nat) {
    i in r.got
  }

  /** In order, once each, nothing older than the start, nothing skipped that is still in the log. */
  ghost predicate GotOk(h: History, r: Reader)
    requires r.pos <= |h.appended|
  {
    && (forall i, j :: 0 <= i < j < |r.got| ==> r.got[i] < r.got[j])
    && (forall i :: 0 <= i < |r.got| ==> r.got[i] < r.pos && h.appended[r.got[i]].time > r.start)
    && (forall i {:trigger Got(r, i)} :: 0 <= i < r.pos && h.appended[i].time > r.start ==> Got(r, i) || i < Dropped(h))
  }

  ghost predicate ReaderOk(h: History, r: Reader) {
    && r.pos <= |h.appended|
    && r.start <= r.cursor && r.cursor == (if r.pos == 0 then r.start else h.appended[r.pos - 1].time)
    && GotOk(h, r)
  }

  ghost predicate Inv(h: History) {
    h.max > 0 && NewestKept(h) && forall r :: 0 <= r < |h.readers| ==> ReaderOk(h, h.readers[r])
  }

  lemma InitialInv(h: History)
    requires Initial(h) && h.max > 0
    ensures Inv(h)
  {
  }

  /** The newest entry is in the log, so the next cursor is above everything appended. */
  lemma AppendedIncrease(h: History, part: Part, clock: Cursor)
    requires NewestKept(h)
    ensures Increasing(AppendStep(h, part, clock).appended)
  {
    var n := |h.appended|;
    if n > 0 {
      assert h.appended[n - 1] == h.log.entries[|h.log.entries| - 1];
      assert NextTime(h.appended, clock) == NextTime(h.log.entries, clock);
    }
    PushIncreasing(h.appended, part, clock);
  }

  lemma NewestAppend(h: History, part: Part, clock: Cursor)
    requires h.max > 0 && NewestKept(h)
    ensures NewestKept(AppendStep(h, part, clock))
  {
    TailAppend(h, part, clock);
    AppendedIncrease(h, part, clock);
    if part.Completion? {
      NewestSurvives(Push(h.log, part, clock).entries, h.max);
    }
  }

  lemma ReaderAppend(h: History, part: Part, clock: Cursor, r: Reader)
    requires TailOk(h) && ReaderOk(h, r)
    ensures ReaderOk(AppendStep(h, part, clock), r)
  {
  }

  /** From `first` on, everything is new to the reader; before it, nothing in the log is. */
  ghost predicate SplitsAt(h: History, r: Reader, first: nat) {
    && first <= |h.appended|
    && (forall i :: first <= i < |h.appended| ==> i >= r.pos && h.appended[i].time > r.start)
    && (forall i :: 0 <= i < first && Dropped(h) <= i ==> i < r.pos || h.appended[i].time <= r.start)
  }

  /** What a poll brings: the appended parts after the reader's cursor that are still there. */
  lemma PollGets(h: History, r: Reader)
    requires NewestKept(h) && ReaderOk(h, r)
    ensures SplitsAt(h, r, Dropped(h) + Passed(h.log.entries, r.cursor))
  {
    PassedSplits(h.log.entries, r.cursor);
    assert forall i :: Dropped(h) <= i < |h.appended| ==> h.appended[i] == h.log.entries[i - Dropped(h)];
  }

  lemma InRange(lo: nat, hi: nat, i: nat)
    requires lo <= i < hi
    ensures i in Range(lo, hi)
  {
    assert Range(lo, hi)[i - lo] == i;
  }

  lemma GotGrows(h: History, r: Reader, first: nat, cursor: Cursor)
    requires r.pos <= |h.appended| && GotOk(h, r) && SplitsAt(h, r, first)
    ensures GotOk(h, Reader(r.start, cursor, r.got + Range(first, |h.appended|), |h.appended|))
  {
    var n := |h.appended|;
    var r' := Reader(r.start, cursor, r.got + Range(first, n), n);
    forall i | 0 <= i < n && h.appended[i].time > r.start ensures Got(r', i) || i < Dropped(h) {
      if first <= i {
        InRange(first, n, i);
      }
      assert Got(r, i) ==> Got(r', i);
    }
  }

  /** The newest entry of the log is the newest one appended. */
  lemma NewestTime(h: History)
    requires NewestKept(h) && h.appended != []
    ensures h.log.entries != [] && h.log.entries[|h.log.entries| - 1] == h.appended[|h.appended| - 1]
  {
  }

  lemma PollMoves(h: History, r: Reader)
    requires Passed(h.log.entries, r.cursor) < |h.log.entries| <= |h.appended|
    requires h.log.entries[|h.log.entries| - 1] == h.appended[|h.appended| - 1]
    ensures var n := |h.appended|;
            PollReader(h, r) ==
            Reader(r.start, h.appended[n - 1].time, r.got + Range(Dropped(h) + Passed(h.log.entries, r.cursor), n), n)
  {
  }

  lemma ReaderPoll(h: History, r: Reader)
    requires NewestKept(h) && ReaderOk(h, r) && Passed(h.log.entries, r.cursor) < |h.log.entries|
    ensures ReaderOk(h, PollReader(h, r))
  {
    PollGets(h, r);
    NewestTime(h);
    ReaderPolls(h, r);
  }

  lemma ReaderPolls(h: History, r: Reader)
    requires Passed(h.log.entries, r.cursor) < |h.log.entries| <= |h.appended|
    requires ReaderOk(h, r) && SplitsAt(h, r, Dropped(h) + Passed(h.log.entries, r.cursor))
    requires h.log.entries[|h.log.entries| - 1] == h.appended[|h.appended| - 1]
    ensures ReaderOk(h, PollReader(h, r))
  {
    PollMoves(h, r);
    ReaderMoves(h, r, Dropped(h) + Passed(h.log.entries, r.cursor));
  }

  lemma ReaderMoves(h: History, r: Reader, first: nat)
    requires ReaderOk(h, r) && SplitsAt(h, r, first) && first < |h.appended|
    ensures var n := |h.appended|;
            ReaderOk(h, Reader(r.start, h.appended[n - 1].time, r.got + Range(first, n), n))
  {
    GotGrows(h, r, first, h.appended[|h.appended| - 1].time);
  }

  lemma ReaderSame(h: History, h': History, r: Reader)
    requires ReaderOk(h, r) && h'.appended == h.appended && h'.log.entries == h.log.entries
    ensures ReaderOk(h', r)
  {
  }

  lemma InvAppend(h: History, part: Part, clock: Cursor)
    requires Inv(h)
    ensures Inv(AppendStep(h, part, clock))
  {
    NewestAppend(h, part, clock);
    forall r | 0 <= r < |h.readers| ensures ReaderOk(AppendStep(h, part, clock), h.readers[r]) {
      ReaderAppend(h, part, clock, h.readers[r]);
    }
  }

  lemma InvPoll(h: History, r: nat)
    requires Inv(h) && Legal(h, Poll(r))
    ensures Inv(PollStep(h, r))
  {
    TailPoll(h, r);
    var h' := PollStep(h, r);
    if Passed(h.log.entries, h.readers[r].cursor) < |h.log.entries| {
      ReaderPoll(h, h.readers[r]);
    }
    forall q | 0 <= q < |h'.readers| ensures ReaderOk(h', h'.readers[q]) {
      assert ReaderOk(h, h.readers[q]);
      ReaderSame(h, h', h'.readers[q]);
    }
  }

  lemma InvStep(h: History, e: Event)
    requires Inv(h) && Legal(h, e)
    ensures Inv(Step(h, e))
  {
    match e
    case Append(part, clock) => InvAppend(h, part, clock);
    case Poll(r) => InvPoll(h, r);
  }

  lemma {:induction false} InvRun(h: History, es: seq<Event>)
    requires Inv(h) && LegalRun(h, es)
    ensures Inv(Run(h, es))
    decreases |es|
  {
    if es != [] {
      InvStep(h, es[0]);
      InvRun(Step(h, es[0]), es[1..]);
    }
  }

  /** With room for a completion, no cursor is ever given twice, whatever the clock does. */
  lemma CursorsIncrease(h: History, es: seq<Event>)
    requires Initial(h) && h.max > 0 && LegalRun(h, es)
    ensures Increasing(Run(h, es).appended)
  {
    InitialInv(h);
    InvRun(h, es);
  }

  /** Nothing was ever appended that the consumer has not decided on, apart from what it skips as old. */
  ghost predicate UpToDate(h: History, r: Reader) {
    forall i :: r.pos <= i < |h.appended| ==> h.appended[i].time <= r.start
  }

  /**
   A consumer has got the parts after its start in order, each at most once, and missed one only if it
   was evicted; when a poll would find nothing, the consumer is up to date.
   */
  ghost predicate ConsumerOk(h: History, c: Reader) {
    && c.pos <= |h.appended| && GotOk(h, c)
    && (Newer(h.log.entries, c.cursor) == [] ==> UpToDate(h, c))
  }

  lemma ConsumersMissOnlyEvicted(h: History, es: seq<Event>, r: nat)
    requires Initial(h) && h.max > 0 && LegalRun(h, es) && r < |Run(h, es).readers|
    ensures ConsumerOk(Run(h, es), Run(h, es).readers[r])
  {
    InitialInv(h);
    InvRun(h, es);
    ReaderFacts(Run(h, es), r);
  }

  lemma ReaderFacts(h: History, r: nat)
    requires Inv(h) && r < |h.readers|
    ensures ConsumerOk(h, h.readers[r])
  {
    assert ReaderOk(h, h.readers[r]);
    if Newer(h.log.entries, h.readers[r].cursor) == [] {
      CaughtUp(h, h.readers[r]);
    }
  }

  lemma CaughtUp(h: History, r: Reader)
    requires NewestKept(h) && ReaderOk(h, r) && Passed(h.log.entries, r.cursor) == |h.log.entries|
    ensures UpToDate(h, r)
  {
    PassedSplits(h.log.entries, r.cursor);
    if h.appended != [] {
      NewestTime(h);
      assert h.appended[|h.appended| - 1].time <= r.cursor;
    }
  }

  /** What a poll delivers is what was appended, stripped of what was sent before. */
  lemma PollDelivers(h: History, r: Reader, i: nat)
    requires TailOk(h) && i < |Newer(h.log.entries, r.cursor)|
    ensures var got := PollReader(h, r).got;
            && |got| == |r.got| + |Newer(h.log.entries, r.cursor)| && got[..|r.got|] == r.got
            && got[|r.got| + i] < |h.appended|
            && SentAs(h.appended[got[|r.got| + i]].part, Newer(h.log.entries, r.cursor)[i])
  {
  }

  /** A consumer that found nothing waits until the next append, which wakes everyone who waits. */
  lemma {:induction false} WaitsUntilAppend(h: History, r: nat, es: seq<Event>)
    requires Legal(h, Poll(r)) && Newer(h.log.entries, h.readers[r].cursor) == []
    requires LegalRun(Step(h, Poll(r)), es)
    ensures (forall i :: 0 <= i < |es| ==> es[i].Poll?) ==>
              Waiter(r, h.readers[r].cursor) in Run(Step(h, Poll(r)), es).log.waiters
    ensures es != [] && es[|es| - 1].Append? ==> Run(Step(h, Poll(r)), es).log.waiters == []
  {
    var h' := Step(h, Poll(r));
    assert h'.log.waiters[|h.log.waiters|] == Waiter(r, h.readers[r].cursor);
    if forall i :: 0 <= i < |es| ==> es[i].Poll? {
      WaiterStays(h', Waiter(r, h.readers[r].cursor), es);
    }
    if es != [] && es[|es| - 1].Append? {
      AppendWakes(h', es);
    }
  }

  lemma {:induction false} WaiterStays(h: History, w: Waiter, es: seq<Event>)
    requires w in h.log.waiters && LegalRun(h, es) && forall i :: 0 <= i < |es| ==> es[i].Poll?
    ensures w in Run(h, es).log.waiters
    decreases |es|
  {
    if es != [] {
      WaiterStays(Step(h, es[0]), w, es[1..]);
    }
  }

  lemma {:induction false} AppendWakes(h: History, es: seq<Event>)
    requires LegalRun(h, es) && es != [] && es[|es| - 1].Append?
    ensures Run(h, es).log.waiters == []
    decreases |es|
  {
    if |es| > 1 {
      AppendWakes(Step(h, es[0]), es[1..]);
    }
  }

  // ------------------------------------------------------------------ no room for a completion

  /** With a bound of zero a completion leaves the log empty, and no memory of the last cursor. */
  lemma EmptiesLog(h: History, part: Part, clock: Cursor)
    requires h.max == 0 && part.Completion? && h.log.entries == []
    ensures AppendStep(h, part, clock).log.entries == []
    ensures AppendStep(h, part, clock).appended == h.appended + [Entry(clock, part)]
  {
  }

  lemma CursorsRepeat(h: History, part: Part, clock: Cursor) returns (es: seq<Event>)
    requires Initial(h) && h.max == 0 && part.Completion?
    ensures LegalRun(h, es) && !Increasing(Run(h, es).appended)
  {
    var e := Append(part, clock);
    es := [e, e];
    var h1 := Step(h, e);
    var h2 := Step(h1, e);
    EmptiesLog(h, part, clock);
    EmptiesLog(h1, part, clock);
    assert h2.appended == [Entry(clock, part), Entry(clock, part)];
    assert es[1..] == [e] && [e][1..] == [];
    assert Run(h, es) == Run(h1, [e]) == Run(h2, []) == h2;
    assert h2.appended[0].time == h2.appended[1].time;
  }

  /** Cursors increase on every run exactly when the bound is positive. */
  lemma IncreaseIffRoom(h: History)
    requires Initial(h)
    ensures h.max > 0 <==> forall es: seq<Event> :: LegalRun(h, es) ==> Increasing(Run(h, es).appended)
  {
    if h.max > 0 {
      forall es: seq<Event> | LegalRun(h, es) ensures Increasing(Run(h, es).appended) {
        CursorsIncrease(h, es);
      }
    } else {
      var es := CursorsRepeat(h, Completion(0, Query, []), 0);
    }
  }
}
