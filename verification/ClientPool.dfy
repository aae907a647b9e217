/**
 The client pool: requests share clients, first fit, up to a number of borrowers per client.  `get`
 holds the pool's lock while it scans, but a borrower is dropped without the lock.
 */
module ClientPool {
  function Sum(s: seq<nat>): nat {
    if s == [] then 0 else s[0] + Sum(s[1..])
  }

  function Borrow(borrowed: seq<nat>, i: nat): seq<nat>
    requires i <= |borrowed|
  {
    if i < |borrowed| then borrowed[i := borrowed[i] + 1] else borrowed + [1]
  }

  class Pool {
    const max: nat
    var borrowed: seq<nat>

    constructor (max: nat)
      requires max > 0
      ensures this.max == max && borrowed == []
    {
      this.max := max;
      borrowed := [];
    }

    /** Borrows the first client with fewer than `max` borrowers, or a new one. */
    method Get() returns (client: nat)
      modifies this
      ensures client <= |old(borrowed)| && borrowed == Borrow(old(borrowed), client)
      ensures forall j :: 0 <= j < client ==> old(borrowed)[j] >= max
      ensures if client < |old(borrowed)|
              then old(borrowed)[client] < max && borrowed == old(borrowed)[client := old(borrowed)[client] + 1]
              else borrowed == old(borrowed) + [1]
    {
      for i := 0 to |borrowed|
        invariant borrowed == old(borrowed)
        invariant forall j :: 0 <= j < i ==> borrowed[j] >= max
      {
        if borrowed[i] < max {
          client := i;
          borrowed := borrowed[i := borrowed[i] + 1];
          return;
        }
      }
      client := |borrowed|;
      borrowed := borrowed + [1];
    }
  }

  // ------------------------------------------------------------------ every run

  /** A scan looks at one client after another; `was` is what it would have seen all at once. */
  datatype Scan = Quiet | Looking(i: nat, was: seq<nat>)

  datatype State = State(max: nat, borrowed: seq<nat>, scan: Scan, peak: nat)

  datatype Event = Begin | Look | Drop(c: nat)

  predicate Legal(s: State, e: Event) {
    match e
    case Begin => s.scan.Quiet?
    case Look => s.scan.Looking? && s.scan.i <= |s.borrowed|
    case Drop(c) => c < |s.borrowed| && s.borrowed[c] > 0
  }

  function WithPeak(s: State): State {
    if s.peak < Sum(s.borrowed) then s.(peak := Sum(s.borrowed)) else s
  }

  function Step(s: State, e: Event): State
    requires Legal(s, e)
  {
    match e
    case Begin => s.(scan := Looking(0, s.borrowed))
    case Look =>
      if s.scan.i < |s.borrowed| && s.borrowed[s.scan.i] >= s.max then s.(scan := Looking(s.scan.i + 1, s.scan.was))
      else WithPeak(s.(borrowed := Borrow(s.borrowed, s.scan.i), scan := Quiet))
    case Drop(c) => s.(borrowed := s.borrowed[c := s.borrowed[c] - 1])
  }

  predicate LegalRun(s: State, es: seq<Event>)
    decreases |es|
  {
    es == [] || (Legal(s, es[0]) && LegalRun(Step(s, es[0]), es[1..]))
  }

  function Run(s: State, es: seq<Event>): State
    requires LegalRun(s, es)
    decreases |es|
  {
    if es == [] then s else Run(Step(s, es[0]), es[1..])
  }

  /** A borrower is dropped behind a scan that finds all clients ahead full. */
  predicate Wasteful(s: State, e: Event)
    requires Legal(s, e)
  {
    && e.Drop? && s.scan.Looking? && e.c < s.scan.i
    && forall j :: s.scan.i <= j < |s.borrowed| ==> s.borrowed[j] >= s.max
  }

  predicate ThriftyRun(s: State, es: seq<Event>)
    requires LegalRun(s, es)
    decreases |es|
  {
    es == [] || (!Wasteful(s, es[0]) && ThriftyRun(Step(s, es[0]), es[1..]))
  }

  lemma {:induction false} SumUpdate(s: seq<nat>, i: nat, x: nat)
    requires i < |s|
    ensures Sum(s[i := x]) == Sum(s) - s[i] + x
  {
    if i == 0 {
      assert s[i := x][1..] == s[1..];
    } else {
      SumUpdate(s[1..], i - 1, x);
      assert s[i := x][1..] == s[1..][i - 1 := x];
    }
  }

  lemma {:induction false} SumSnoc(s: seq<nat>, x: nat)
    ensures Sum(s + [x]) == Sum(s) + x
  {
    if s == [] {
      assert [x][1..] == [];
    } else {
      SumSnoc(s[1..], x);
      assert (s + [x])[1..] == s[1..] + [x];
    }
  }

  lemma {:induction false} SumBound(s: seq<nat>, max: nat)
    requires forall i :: 0 <= i < |s| ==> s[i] <= max
    ensures Sum(s) <= |s| * max
    ensures (forall i :: 0 <= i < |s| ==> s[i] == max) ==> Sum(s) == |s| * max
  {
    if s != [] {
      SumBound(s[1..], max);
      assert |s| * max == max + (|s| - 1) * max;
    }
  }

  ghost predicate Inv(s: State) {
    && s.max > 0
    && (forall i :: 0 <= i < |s.borrowed| ==> s.borrowed[i] <= s.max)
    && Sum(s.borrowed) <= s.peak <= |s.borrowed| * s.max
    && (|s.borrowed| > 0 ==> (|s.borrowed| - 1) * s.max <= s.peak)
    && (s.scan.Looking? ==>
          && s.scan.i <= |s.borrowed| == |s.scan.was|
          && (forall j :: 0 <= j < |s.borrowed| ==> s.borrowed[j] <= s.scan.was[j] <= s.max)
          && (forall j :: 0 <= j < s.scan.i ==> s.scan.was[j] == s.max)
          && Sum(s.scan.was) <= s.peak)
  }

  lemma MoreClients(n: nat, max: nat)
    ensures n * max <= (n + 1) * max && (n + 1) * max == n * max + max
  {
  }

  lemma InvBorrow(s: State)
    requires Inv(s) && Legal(s, Look) && !(s.scan.i < |s.borrowed| && s.borrowed[s.scan.i] >= s.max)
    ensures Inv(Step(s, Look))
  {
    var n := |s.borrowed|;
    var s' := Step(s, Look);
    SumBound(s'.borrowed, s.max);
    if s.scan.i < n {
      SumUpdate(s.borrowed, s.scan.i, s.borrowed[s.scan.i] + 1);
    } else {
      SumSnoc(s.borrowed, 1);
      SumBound(s.scan.was, s.max);
      MoreClients(n, s.max);
    }
  }

  lemma InvStep(s: State, e: Event)
    requires Inv(s) && Legal(s, e)
    ensures Inv(Step(s, e))
  {
    match e
    case Begin =>
    case Look =>
      if !(s.scan.i < |s.borrowed| && s.borrowed[s.scan.i] >= s.max) {
        InvBorrow(s);
      }
    case Drop(c) => SumUpdate(s.borrowed, c, s.borrowed[c] - 1);
  }

  lemma {:induction false} InvRun(s: State, es: seq<Event>)
    requires Inv(s) && LegalRun(s, es)
    ensures Inv(Run(s, es)) && Run(s, es).max == s.max
    decreases |es|
  {
    if es != [] {
      InvStep(s, es[0]);
      InvRun(Step(s, es[0]), es[1..]);
    }
  }

  /** No client is over its limit, and there are no more clients than the peak needed. */
  lemma ClientsMatchPeak(max: nat, es: seq<Event>)
    requires max > 0 && LegalRun(State(max, [], Quiet, 0), es)
    ensures var s := Run(State(max, [], Quiet, 0), es); var n := |s.borrowed|;
            && (forall i :: 0 <= i < n ==> s.borrowed[i] <= max)
            && s.peak <= n * max && (n > 0 ==> (n - 1) * max <= s.peak)
  {
    InvRun(State(max, [], Quiet, 0), es);
  }

  /** A scan has passed full clients only, or will find one that is not. */
  ghost predicate ThriftyInv(s: State) {
    && Inv(s)
    && (s.scan.Looking? ==>
          || (forall j :: 0 <= j < s.scan.i ==> s.borrowed[j] == s.max)
          || (exists j :: s.scan.i <= j < |s.borrowed| && s.borrowed[j] < s.max))
    && (|s.borrowed| > 0 ==> (|s.borrowed| - 1) * s.max < s.peak)
  }

  lemma ThriftyDrop(s: State, c: nat)
    requires ThriftyInv(s) && Legal(s, Drop(c)) && !Wasteful(s, Drop(c))
    ensures ThriftyInv(Step(s, Drop(c)))
  {
    InvStep(s, Drop(c));
    var t := Step(s, Drop(c));
    if s.scan.Looking? {
      if c < s.scan.i {
        var j :| s.scan.i <= j < |s.borrowed| && s.borrowed[j] < s.max;
        assert t.borrowed[j] < t.max;
      } else {
        assert t.borrowed[c] < t.max;
      }
    }
  }

  lemma ThriftyLook(s: State)
    requires ThriftyInv(s) && Legal(s, Look)
    ensures ThriftyInv(Step(s, Look))
  {
    InvStep(s, Look);
    if s.scan.i == |s.borrowed| {
      SumBound(s.borrowed, s.max);
      SumSnoc(s.borrowed, 1);
    }
  }

  lemma {:induction false} ThriftyInvRun(s: State, es: seq<Event>)
    requires ThriftyInv(s) && LegalRun(s, es) && ThriftyRun(s, es)
    ensures ThriftyInv(Run(s, es))
    decreases |es|
  {
    if es != [] {
      match es[0] {
        case Begin => InvStep(s, Begin);
        case Look => ThriftyLook(s);
        case Drop(c) => ThriftyDrop(s, c);
      }
      ThriftyInvRun(Step(s, es[0]), es[1..]);
    }
  }

  /** If no borrower is dropped behind a scan that finds all ahead full, the last client was needed, too. */
  lemma LastClientNeeded(max: nat, es: seq<Event>)
    requires max > 0 && LegalRun(State(max, [], Quiet, 0), es) && ThriftyRun(State(max, [], Quiet, 0), es)
    ensures var s := Run(State(max, [], Quiet, 0), es);
            |s.borrowed| > 0 ==> (|s.borrowed| - 1) * max < s.peak
  {
    ThriftyInvRun(State(max, [], Quiet, 0), es);
    InvRun(State(max, [], Quiet, 0), es);
  }

  // ------------------------------------------------------------------ a client that was not needed

  ghost predicate Leads(s: State, es: seq<Event>, t: State) {
    LegalRun(s, es) && Run(s, es) == t
  }

  lemma {:induction false} Then(s: State, es: seq<Event>, t: State, e: Event)
    requires Leads(s, es, t) && Legal(t, e)
    ensures Leads(s, es + [e], Step(t, e))
    decreases |es|
  {
    if es == [] {
      assert (es + [e])[1..] == [];
    } else {
      Then(Step(s, es[0]), es[1..], t, e);
      assert (es + [e])[1..] == es[1..] + [e];
    }
  }

  /** The scan passes full clients up to `m`. */
  lemma {:induction false} Pass(s: State, es: seq<Event>, t: State, m: nat) returns (es': seq<Event>)
    requires Leads(s, es, t) && t.scan.Looking? && t.scan.i <= m <= |t.borrowed|
    requires forall j :: t.scan.i <= j < m ==> t.borrowed[j] >= t.max
    ensures Leads(s, es', t.(scan := Looking(m, t.scan.was)))
    decreases m - t.scan.i
  {
    if t.scan.i == m {
      es' := es;
    } else {
      Then(s, es, t, Look);
      es' := Pass(s, es + [Look], Step(t, Look), m);
    }
  }

  lemma Created(s: State)
    requires Inv(s) && Legal(s, Look) && s.scan.i == |s.borrowed| && Sum(s.borrowed) < |s.borrowed| * s.max
    ensures |Step(s, Look).borrowed| == |s.borrowed| + 1 && Step(s, Look).peak == |s.borrowed| * s.max
  {
    InvStep(s, Look);
    SumSnoc(s.borrowed, 1);
  }

  lemma RoomLeft(s: State, c: nat)
    requires Inv(s) && c < |s.borrowed| && s.borrowed[c] > 0
    ensures Sum(s.borrowed[c := s.borrowed[c] - 1]) < |s.borrowed| * s.max
  {
    SumUpdate(s.borrowed, c, s.borrowed[c] - 1);
    SumBound(s.borrowed, s.max);
  }

  /** The condition is exact: after any such drop, the scan can create a client that was not needed. */
  lemma WasteCreates(s: State, e: Event) returns (es: seq<Event>, t: State)
    requires Inv(s) && Legal(s, e) && Wasteful(s, e)
    ensures Leads(Step(s, e), es, t)
    ensures |t.borrowed| == |s.borrowed| + 1 && t.peak == (|t.borrowed| - 1) * s.max
  {
    var s1 := Step(s, e);
    InvStep(s, e);
    RoomLeft(s, e.c);
    es := Pass(s1, [], s1, |s.borrowed|);
    var s2 := s1.(scan := Looking(|s.borrowed|, s.scan.was));
    InvRun(s1, es);
    Created(s2);
    Then(s1, es, s2, Look);
    es, t := es + [Look], Step(s2, Look);
  }

  /** `m` full clients, and one more with `j` borrowers unless that is none. */
  function Packed(max: nat, m: nat, j: nat): seq<nat> {
    seq(m, _ => max) + if j == 0 then [] else [j]
  }

  lemma SumPacked(max: nat, m: nat, j: nat)
    ensures Sum(Packed(max, m, j)) == m * max + j
  {
    SumBound(seq(m, _ => max), max);
    if j == 0 {
      assert Packed(max, m, j) == seq(m, _ => max);
    } else {
      SumSnoc(seq(m, _ => max), j);
    }
  }

  function PackedState(max: nat, m: nat, j: nat): State {
    State(max, Packed(max, m, j), Quiet, m * max + j)
  }

  lemma OneMore(max: nat, m: nat, j: nat, es: seq<Event>) returns (es': seq<Event>)
    requires j < max && Leads(State(max, [], Quiet, 0), es, PackedState(max, m, j))
    ensures Leads(State(max, [], Quiet, 0), es', PackedState(max, m, j + 1))
  {
    var start, s := State(max, [], Quiet, 0), PackedState(max, m, j);
    Then(start, es, s, Begin);
    es' := Pass(start, es + [Begin], Step(s, Begin), m);
    var s2 := s.(scan := Looking(m, s.borrowed));
    Then(start, es', s2, Look);
    es' := es' + [Look];
    SumPacked(max, m, j + 1);
    assert Borrow(s.borrowed, m) == Packed(max, m, j + 1);
  }

  /** The pool fills up one client after another. */
  lemma {:induction false} Fill(max: nat, m: nat, j: nat) returns (es: seq<Event>)
    requires max > 0 && j <= max
    ensures Leads(State(max, [], Quiet, 0), es, PackedState(max, m, j))
    decreases m, j
  {
    if j > 0 {
      es := Fill(max, m, j - 1);
      es := OneMore(max, m, j - 1, es);
    } else if m > 0 {
      es := Fill(max, m - 1, max);
      assert Packed(max, m - 1, max) == Packed(max, m, 0);
      assert (m - 1) * max + max == m * max;
    } else {
      es := [];
      assert Packed(max, 0, 0) == [];
    }
  }

  lemma {:induction false} Join(s: State, a: seq<Event>, t: State, b: seq<Event>, u: State)
    requires Leads(s, a, t) && Leads(t, b, u)
    ensures Leads(s, a + b, u)
    decreases |a|
  {
    if a == [] {
      assert a + b == b;
    } else {
      Join(Step(s, a[0]), a[1..], t, b, u);
      assert (a + b)[1..] == a[1..] + b;
    }
  }

  /** For every limit and every number of clients from two, a run whose peak one client fewer could have served. */
  lemma DropBehindScan(max: nat, n: nat) returns (es: seq<Event>, t: State)
    requires max > 0 && n >= 2
    ensures Leads(State(max, [], Quiet, 0), es, t) && |t.borrowed| == n && t.peak == (n - 1) * max
  {
    var start := State(max, [], Quiet, 0);
    es := Fill(max, n - 1, 0);
    var s := PackedState(max, n - 1, 0);
    Then(start, es, s, Begin);
    es := Pass(start, es + [Begin], Step(s, Begin), n - 1);
    var s1 := s.(scan := Looking(n - 1, s.borrowed));
    InvRun(start, es);
    var more;
    more, t := WasteCreates(s1, Drop(0));
    Then(start, es, s1, Drop(0));
    Join(start, es + [Drop(0)], Step(s1, Drop(0)), more, t);
    es := es + [Drop(0)] + more;
  }
}
