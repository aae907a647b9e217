/**
 The batch timestamp oracle: nodes reserve ranges from one shared counter by compare-and-swap and
 hand out timestamps from their range without talking to anyone.  Every await in the code is a
 point where other steps may come in between, here a step of its own.
 */
module TimestampOracle {
  import opened Common

  const TS_MAX: nat := 0x7FFF_FFFF_FFFF_FFFF
  const U64: nat := 0x1_0000_0000_0000_0000
  const CAS_ATTEMPTS: nat := 10

  type Timestamp = t: nat | t <= TS_MAX

  /** A counter value read from the store with its revision. */
  datatype Reading = Reading(value: nat, revision: nat)

  /** Where a call of ensure_reserved_batch_at_or_above is; one at a time holds the lock. */
  datatype Task =
    | Idle
    | WantFloor(min: Timestamp)
    | GotFloor(min: Timestamp, floor: Timestamp)
    | Reserving(min: Timestamp, minNext: nat, epoch: nat, attempts: nat, read: Option<Reading>)
    | Reserved(min: Timestamp, lower: nat, upper: nat, epoch: nat)

  /** A node's reservation; `known` is max_committed and `stale` is refresh_committed_floor. */
  datatype Batch = Batch(current: nat, upper: nat, known: Timestamp, stale: bool, epoch: nat)

  /** The counter, the number of grants and the committed floor at a node's last leadership change. */
  datatype Change = Change(mark: nat, seen: nat, fence: Timestamp)

  datatype Node = Node(batchSize: nat, batch: Batch, task: Task, last: Change)

  datatype Grant = Grant(node: nat, ts: Timestamp, min: Timestamp, known: Timestamp, last: Change)

  datatype State = State(counter: nat, revision: nat, floor: Timestamp, nodes: seq<Node>, grants: seq<Grant>)

  datatype Event =
    | Assign(i: nat, min: Timestamp)
    | StartReserve(i: nat, min: Timestamp)
    | ReadFloor(i: nat)
    | UseFloor(i: nat)
    | ReadCounter(i: nat)
    | Swap(i: nat, answered: bool) // not `answered`: the update lands, an error is reported
    | Install(i: nat)
    | Fail(i: nat)
    | Discard(i: nat)
    | Restart(i: nat)
    | Observe(i: nat, ts: Timestamp)
    | Publish(ts: Timestamp)

  const FRESH := Batch(0, 0, 0, false, 0)

  predicate Initial(s: State) {
    && s.grants == []
    && forall i :: 0 <= i < |s.nodes| ==>
        s.nodes[i].batch == FRESH && s.nodes[i].task == Idle && s.nodes[i].last == Change(0, 0, 0)
  }

  // ------------------------------------------------------------------ one node

  function Max(a: nat, b: nat): nat {
    if a < b then b else a
  }

  /** The least timestamp above the caller's floor and what is known to be committed, unless there is none. */
  function MinNext(min: Timestamp, known: Timestamp): Option<nat> {
    if known == TS_MAX then None else Some(Max(min, known + 1))
  }

  predicate CanServe(b: Batch, min: Timestamp) {
    MinNext(min, b.known).Some? && Max(b.current, MinNext(min, b.known).value) < b.upper
  }

  /** The timestamp, if any, and the batch after it; past TS_MAX it is used up but not returned. */
  function Take(b: Batch, min: Timestamp): (Option<Timestamp>, Batch) {
    if b.stale || !CanServe(b, min) then (None, b)
    else
      var ts := Max(b.current, MinNext(min, b.known).value);
      (if ts <= TS_MAX then Some(ts) else None, b.(current := ts + 1))
  }

  function Discarded(b: Batch): Batch {
    b.(current := 0, upper := 0, stale := true, epoch := b.epoch + 1)
  }

  function Observed(b: Batch, ts: Timestamp): Batch {
    b.(known := Max(b.known, ts))
  }

  function Refreshed(b: Batch, floor: Timestamp): Batch {
    Observed(b, floor).(stale := false)
  }

  /** The loop head of a reservation. */
  function Seek(n: Node, min: Timestamp): Node {
    if !n.batch.stale && (MinNext(min, n.batch.known).None? || CanServe(n.batch, min)) then n.(task := Idle)
    else n.(task := WantFloor(min))
  }

  function FloorUsed(n: Node): Node
    requires n.task.GotFloor?
  {
    var min := n.task.min;
    var b := Refreshed(n.batch, n.task.floor);
    var next := MinNext(min, b.known);
    if next.None? || CanServe(b, min) then n.(batch := b, task := Idle)
    else n.(batch := b, task := Reserving(min, next.value, b.epoch, 0, None))
  }

  function Installed(n: Node): Node
    requires n.task.Reserved?
  {
    var t := n.task;
    if t.epoch != n.batch.epoch then Seek(n, t.min)
    else n.(batch := n.batch.(current := t.lower, upper := t.upper), task := Idle)
  }

  /** One attempt that the store refused or whose answer was lost. */
  function Retried(n: Node): Node
    requires n.task.Reserving?
  {
    if n.task.attempts + 1 == CAS_ATTEMPTS then n.(task := Idle)
    else n.(task := n.task.(attempts := n.task.attempts + 1, read := None))
  }

  // ------------------------------------------------------------------ all nodes

  function Put(s: State, i: nat, n: Node): State
    requires i < |s.nodes|
  {
    s.(nodes := s.nodes[i := n])
  }

  predicate Legal(s: State, e: Event) {
    match e
    case Publish(_) => true
    case StartReserve(i, _) => i < |s.nodes| && s.nodes[i].task.Idle?
    case ReadFloor(i) => i < |s.nodes| && s.nodes[i].task.WantFloor?
    case UseFloor(i) => i < |s.nodes| && s.nodes[i].task.GotFloor?
    case ReadCounter(i) => i < |s.nodes| && s.nodes[i].task.Reserving? && s.nodes[i].task.read.None?
    case Swap(i, _) => i < |s.nodes| && s.nodes[i].task.Reserving? && s.nodes[i].task.read.Some?
    case Install(i) => i < |s.nodes| && s.nodes[i].task.Reserved?
    case _ => e.i < |s.nodes|
  }

  function AssignStep(s: State, i: nat, min: Timestamp): State
    requires i < |s.nodes|
  {
    var n := s.nodes[i];
    var (ts, b) := Take(n.batch, min);
    var s' := Put(s, i, n.(batch := b));
    if ts.None? then s' else s'.(grants := s.grants + [Grant(i, ts.value, min, n.batch.known, n.last)])
  }

  function SwapStep(s: State, i: nat, answered: bool): State
    requires Legal(s, Swap(i, answered))
  {
    var n := s.nodes[i];
    var r := n.task.read.value;
    var lower := Max(r.value, n.task.minNext);
    if lower + n.batchSize >= U64 then Put(s, i, n.(task := Idle))
    else if r.revision != s.revision then Put(s, i, Retried(n))
    else SwapLands(s, i, lower, answered)
  }

  function SwapLands(s: State, i: nat, lower: nat, answered: bool): State
    requires i < |s.nodes| && s.nodes[i].task.Reserving?
  {
    var n := s.nodes[i];
    var upper := lower + n.batchSize;
    var n' := if answered then n.(task := Reserved(n.task.min, lower, upper, n.task.epoch)) else Retried(n);
    Put(s, i, n').(counter := upper, revision := s.revision + 1)
  }

  function Step(s: State, e: Event): State
    requires Legal(s, e)
  {
    match e
    case Assign(i, min) => AssignStep(s, i, min)
    case StartReserve(i, min) => Put(s, i, Seek(s.nodes[i], min))
    case ReadFloor(i) => Put(s, i, s.nodes[i].(task := GotFloor(s.nodes[i].task.min, s.floor)))
    case UseFloor(i) => Put(s, i, FloorUsed(s.nodes[i]))
    case ReadCounter(i) =>
      Put(s, i, s.nodes[i].(task := s.nodes[i].task.(read := Some(Reading(s.counter, s.revision)))))
    case Swap(i, answered) => SwapStep(s, i, answered)
    case Install(i) => Put(s, i, Installed(s.nodes[i]))
    case Fail(i) => Put(s, i, s.nodes[i].(task := Idle))
    case Discard(i) =>
      Put(s, i, s.nodes[i].(batch := Discarded(s.nodes[i].batch), last := Change(s.counter, |s.grants|, s.floor)))
    case Restart(i) =>
      Put(s, i, s.nodes[i].(batch := FRESH, task := Idle, last := Change(s.counter, |s.grants|, s.floor)))
    case Observe(i, ts) => Put(s, i, s.nodes[i].(batch := Observed(s.nodes[i].batch, ts)))
    case Publish(ts) => s.(floor := Max(s.floor, ts))
  }

  predicate LegalRun(s: State, es: seq<Event>)
    decreases |es|
  {
    es == [] || (Legal(s, es[0]) && LegalRun(Step(s, es[0]), es[1..]))
  }

  function Run(s: State, es: seq<Event>): State
    requires LegalRun(s, es)
    decreases |es|
  {
    if es == [] then s else Run(Step(s, es[0]), es[1..])
  }

  // ------------------------------------------------------------------ the invariant

  /** The node may still hand out `x`. */
  ghost predicate Covers(n: Node, x: nat) {
    n.batch.current <= x < n.batch.upper || (n.task.Reserved? && n.task.lower <= x < n.task.upper)
  }

  /** What holds of one node next to the counter. */
  ghost predicate NodeOk(s: State, n: Node) {
    && n.batch.upper <= s.counter && n.last.mark <= s.counter && n.last.seen <= |s.grants|
    && (n.batch.current < n.batch.upper ==> n.last.mark <= n.batch.current)
    && (n.task.Reserving? && n.task.read.Some? ==>
          n.task.read.value.revision <= s.revision
          && (n.task.read.value.revision == s.revision ==> n.task.read.value.value == s.counter))
    && (n.task.Reserving? || n.task.Reserved? ==> n.task.epoch <= n.batch.epoch)
    && (n.task.Reserved? ==>
          && n.batch.upper <= n.task.lower && n.task.upper <= s.counter
          && (n.task.epoch == n.batch.epoch ==> n.last.mark <= n.task.lower))
  }

  /** What holds between a node and a past grant. */
  ghost predicate GrantOk(n: Node, i: nat, g: Grant, k: nat) {
    && !Covers(n, g.ts)
    && (k < n.last.seen ==> g.ts < n.last.mark)
    && (g.node == i ==>
          && (n.batch.current < n.batch.upper ==> g.ts < n.batch.current)
          && (n.task.Reserved? ==> g.ts < n.task.lower))
  }

  ghost predicate NodesOk(s: State) {
    forall i :: 0 <= i < |s.nodes| ==> NodeOk(s, s.nodes[i])
  }

  ghost predicate Disjoint(s: State) {
    forall i, j, x :: 0 <= i < j < |s.nodes| ==> !(Covers(s.nodes[i], x) && Covers(s.nodes[j], x))
  }

  ghost predicate GrantsOk(s: State) {
    && (forall k :: 0 <= k < |s.grants| ==> s.grants[k].ts < s.counter)
    && (forall i, k :: 0 <= i < |s.nodes| && 0 <= k < |s.grants| ==> GrantOk(s.nodes[i], i, s.grants[k], k))
  }

  /** What each grant promised when it was made. */
  ghost predicate Promised(g: Grant) {
    g.min <= g.ts && g.known < g.ts && g.last.mark <= g.ts
  }

  /** What every two grants promise together. */
  ghost predicate Ordered(g: Grant, h: Grant, k: nat) {
    && g.ts != h.ts
    && (g.node == h.node ==> g.ts < h.ts)
    && (k < h.last.seen ==> g.ts < h.ts)
  }

  ghost predicate LogOk(s: State) {
    && (forall k :: 0 <= k < |s.grants| ==> Promised(s.grants[k]))
    && (forall k, l :: 0 <= k < l < |s.grants| ==> Ordered(s.grants[k], s.grants[l], k))
  }

  ghost predicate Inv(s: State) {
    NodesOk(s) && Disjoint(s) && GrantsOk(s) && LogOk(s)
  }

  lemma InitialInv(s: State)
    requires Initial(s)
    ensures Inv(s)
  {
  }

  /** Replacing one node by one that covers no more. */
  lemma InvPut(s: State, i: nat, n: Node)
    requires Inv(s) && i < |s.nodes| && NodeOk(s, n)
    requires forall x :: Covers(n, x) ==> Covers(s.nodes[i], x)
    requires forall k :: 0 <= k < |s.grants| ==> GrantOk(n, i, s.grants[k], k)
    ensures Inv(Put(s, i, n))
  {
  }

  /** A step that leaves the reservation alone, or drops it. */
  lemma InvLocal(s: State, i: nat, n: Node)
    requires Inv(s) && i < |s.nodes|
    requires var m := s.nodes[i];
             && n.last == m.last && n.batch.epoch == m.batch.epoch
             && n.batch.current == m.batch.current && n.batch.upper == m.batch.upper
             && !n.task.Reserved?
             && (n.task.Reserving? ==> n.task.epoch <= n.batch.epoch)
             && (n.task.Reserving? && n.task.read.Some? ==> n.task.read.value == Reading(s.counter, s.revision))
    ensures Inv(Put(s, i, n))
  {
  }

  lemma InvAssign(s: State, i: nat, min: Timestamp)
    requires Inv(s) && i < |s.nodes|
    ensures Inv(AssignStep(s, i, min))
  {
    var n := s.nodes[i];
    var (ts, b) := Take(n.batch, min);
    var n' := n.(batch := b);
    assert NodeOk(s, n);
    forall k | 0 <= k < |s.grants| ensures GrantOk(n', i, s.grants[k], k) {
      assert GrantOk(n, i, s.grants[k], k);
      assert !Covers(n, s.grants[k].ts);
    }
    InvPut(s, i, n');
    if ts.Some? {
      InvGrant(s, i, Put(s, i, n'), Grant(i, ts.value, min, n.batch.known, n.last));
    }
  }

  /** Recording the timestamp just taken. */
  lemma InvGrant(s: State, i: nat, s': State, g: Grant)
    requires Inv(s) && Inv(s') && i < |s.nodes|
    requires s' == Put(s, i, s.nodes[i].(batch := s.nodes[i].batch.(current := g.ts + 1)))
    requires s.nodes[i].batch.current <= g.ts < s.nodes[i].batch.upper
    requires g.node == i && g.last == s.nodes[i].last && g.min <= g.ts && g.known < g.ts
    ensures Inv(s'.(grants := s'.grants + [g]))
  {
  }

  lemma InvSwap(s: State, i: nat, answered: bool)
    requires Inv(s) && Legal(s, Swap(i, answered))
    ensures Inv(SwapStep(s, i, answered))
  {
    var n := s.nodes[i];
    var r := n.task.read.value;
    assert NodeOk(s, n);
    if Max(r.value, n.task.minNext) + n.batchSize >= U64 {
      InvLocal(s, i, n.(task := Idle));
    } else if r.revision != s.revision {
      InvLocal(s, i, Retried(n));
    } else {
      SwapAbove(s, i);
      InvSwapped(s, i, Max(r.value, n.task.minNext), answered);
    }
  }

  /** The range just reserved lies above everything that was ever reserved. */
  lemma InvReserve(s: State, i: nat, n: Node, counter: nat)
    requires Inv(s) && i < |s.nodes| && s.nodes[i].task.Reserving?
    requires n.task.Reserved? && n == s.nodes[i].(task := n.task) && n.task.epoch <= n.batch.epoch
    requires s.counter <= n.task.lower && n.task.upper == counter && s.counter <= counter
    ensures Inv(Put(s, i, n).(counter := counter, revision := s.revision + 1))
  {
  }

  /** A reading that is still current gives a range at or above the counter. */
  lemma SwapAbove(s: State, i: nat)
    requires NodesOk(s) && i < |s.nodes| && s.nodes[i].task.Reserving? && s.nodes[i].task.read.Some?
    requires s.nodes[i].task.read.value.revision == s.revision
    ensures s.counter <= Max(s.nodes[i].task.read.value.value, s.nodes[i].task.minNext)
    ensures s.nodes[i].task.epoch <= s.nodes[i].batch.epoch
  {
  }

  lemma InvSwapped(s: State, i: nat, lower: nat, answered: bool)
    requires Inv(s) && i < |s.nodes| && s.nodes[i].task.Reserving?
    requires s.counter <= lower && s.nodes[i].task.epoch <= s.nodes[i].batch.epoch
    ensures Inv(SwapLands(s, i, lower, answered))
  {
    var n := s.nodes[i];
    if answered {
      InvReserve(s, i, n.(task := Reserved(n.task.min, lower, lower + n.batchSize, n.task.epoch)), lower + n.batchSize);
    } else {
      InvLost(s, i, lower + n.batchSize);
    }
  }

  /** The update landed but the node does not know: its range is lost to everyone. */
  lemma InvLost(s: State, i: nat, counter: nat)
    requires Inv(s) && i < |s.nodes| && s.nodes[i].task.Reserving? && s.counter <= counter
    ensures Inv(Put(s, i, Retried(s.nodes[i])).(counter := counter, revision := s.revision + 1))
  {
  }

  lemma InvInstall(s: State, i: nat)
    requires Inv(s) && Legal(s, Install(i))
    ensures Inv(Step(s, Install(i)))
  {
    var n := s.nodes[i];
    var n' := Installed(n);
    assert NodeOk(s, n);
    if n.task.epoch != n.batch.epoch {
      InvLocal(s, i, n');
    } else {
      forall k | 0 <= k < |s.grants| ensures GrantOk(n', i, s.grants[k], k) {
        assert GrantOk(n, i, s.grants[k], k);
        assert !Covers(n, s.grants[k].ts);
      }
      InvPut(s, i, n');
    }
  }

  lemma InvLeadership(s: State, i: nat, n: Node)
    requires Inv(s) && i < |s.nodes|
    requires n == s.nodes[i].(batch := Discarded(s.nodes[i].batch), last := Change(s.counter, |s.grants|, s.floor))
          || n == s.nodes[i].(batch := FRESH, task := Idle, last := Change(s.counter, |s.grants|, s.floor))
    ensures Inv(Put(s, i, n))
  {
  }

  lemma InvObserve(s: State, i: nat, ts: Timestamp)
    requires Inv(s) && i < |s.nodes|
    ensures Inv(Step(s, Observe(i, ts)))
  {
    var n := s.nodes[i].(batch := Observed(s.nodes[i].batch, ts));
    assert NodeOk(s, s.nodes[i]);
    forall k | 0 <= k < |s.grants| ensures GrantOk(n, i, s.grants[k], k) {
      assert GrantOk(s.nodes[i], i, s.grants[k], k);
      assert !Covers(s.nodes[i], s.grants[k].ts);
    }
    InvPut(s, i, n);
  }

  lemma InvPublish(s: State, floor: Timestamp)
    requires Inv(s)
    ensures Inv(s.(floor := floor))
  {
  }

  lemma InvStep(s: State, e: Event)
    requires Inv(s) && Legal(s, e)
    ensures Inv(Step(s, e))
  {
    assert !e.Publish? ==> NodeOk(s, s.nodes[e.i]);
    match e
    case Assign(i, min) => InvAssign(s, i, min);
    case Swap(i, answered) => InvSwap(s, i, answered);
    case Install(i) => InvInstall(s, i);
    case Discard(i) => InvLeadership(s, i, Step(s, e).nodes[i]);
    case Restart(i) => InvLeadership(s, i, Step(s, e).nodes[i]);
    case Observe(i, ts) => InvObserve(s, i, ts);
    case Publish(ts) => InvPublish(s, Max(s.floor, ts));
    case _ => InvLocal(s, e.i, Step(s, e).nodes[e.i]);
  }

  lemma {:induction false} InvRun(s: State, es: seq<Event>)
    requires Inv(s) && LegalRun(s, es)
    ensures Inv(Run(s, es))
    decreases |es|
  {
    if es != [] {
      InvStep(s, es[0]);
      InvRun(Step(s, es[0]), es[1..]);
    }
  }

  // ------------------------------------------------------------------ the theorems

  /** No two calls, on any nodes, ever return the same timestamp; each node's only grow. */
  lemma UniqueAndIncreasing(s: State, es: seq<Event>, k: nat, l: nat)
    requires Initial(s) && LegalRun(s, es) && k < l < |Run(s, es).grants|
    ensures var gs := Run(s, es).grants;
            && gs[k].ts != gs[l].ts
            && (gs[k].node == gs[l].node ==> gs[k].ts < gs[l].ts)
  {
    InitialInv(s);
    InvRun(s, es);
    assert Ordered(Run(s, es).grants[k], Run(s, es).grants[l], k);
  }

  /** A grant respects the caller's floor and every commit its node had observed. */
  lemma RespectsFloors(s: State, es: seq<Event>, k: nat)
    requires Initial(s) && LegalRun(s, es) && k < |Run(s, es).grants|
    ensures var g := Run(s, es).grants[k]; g.min <= g.ts && g.known < g.ts
  {
    InitialInv(s);
    InvRun(s, es);
    assert Promised(Run(s, es).grants[k]);
  }

  /**
   After a leadership change a node grants only above the counter of that moment, hence above all
   that any node granted before it, however a reservation was overtaken by the change.
   */
  lemma LeadersStartAbove(s: State, es: seq<Event>, k: nat, l: nat)
    requires Initial(s) && LegalRun(s, es) && k < l < |Run(s, es).grants|
    ensures var gs := Run(s, es).grants;
            && gs[l].last.mark <= gs[l].ts
            && (k < gs[l].last.seen ==> gs[k].ts < gs[l].ts)
  {
    InitialInv(s);
    InvRun(s, es);
    assert Promised(Run(s, es).grants[l]);
    assert Ordered(Run(s, es).grants[k], Run(s, es).grants[l], k);
  }

  // ------------------------------------------------------------------ the committed floor

  /** The least timestamp a node can be given next, with the floor it has read. */
  function NextGrant(counter: nat, n: Node): Option<nat>
    requires n.task.GotFloor?
  {
    var next := MinNext(n.task.min, Max(n.batch.known, n.task.floor));
    if next.None? then None else Some(Max(counter, next.value))
  }

  /** A range from there on can be reserved. */
  predicate Grantable(counter: nat, n: Node)
    requires n.task.GotFloor?
  {
    var next := NextGrant(counter, n);
    next.Some? && n.batchSize > 0 && next.value + n.batchSize < U64
  }

  /**
   A node's leadership changes while it still has to use a floor it has read, and the next timestamp
   it can reserve is not above the floor of this moment.
   */
  predicate Overtakes(s: State, e: Event)
    requires Legal(s, e)
  {
    && e.Discard? && s.nodes[e.i].task.GotFloor?
    && Grantable(s.counter, s.nodes[e.i]) && NextGrant(s.counter, s.nodes[e.i]).value <= s.floor
  }

  predicate NotOvertaken(s: State, es: seq<Event>)
    requires LegalRun(s, es)
    decreases |es|
  {
    es == [] || (!Overtakes(s, es[0]) && NotOvertaken(Step(s, es[0]), es[1..]))
  }

  /** What the node hands out from `lower` on is above its fence. */
  ghost predicate Above(n: Node, lower: nat) {
    n.last.fence <= n.batch.known || n.last.fence < lower
  }

  ghost predicate TaskFenced(counter: nat, n: Node) {
    match n.task
    case GotFloor(_, floor) =>
      n.last.fence <= floor || (Grantable(counter, n) ==> n.last.fence < NextGrant(counter, n).value)
    case Reserving(_, minNext, epoch, _, _) =>
      var lower := Max(counter, minNext);
      epoch == n.batch.epoch && n.batchSize > 0 && lower + n.batchSize < U64 ==> Above(n, lower)
    case Reserved(_, lower, upper, epoch) => epoch == n.batch.epoch && lower < upper ==> Above(n, lower)
    case _ => true
  }

  ghost predicate FenceOk(s: State, n: Node) {
    && n.last.fence <= s.floor
    && TaskFenced(s.counter, n)
    && (n.batch.current < n.batch.upper ==> Above(n, n.batch.current))
  }

  ghost predicate FencesOk(s: State) {
    && (forall i :: 0 <= i < |s.nodes| ==> FenceOk(s, s.nodes[i]))
    && (forall k :: 0 <= k < |s.grants| ==> s.grants[k].last.fence < s.grants[k].ts)
  }

  lemma CounterRises(s: State, e: Event)
    requires NodesOk(s) && Legal(s, e)
    ensures s.counter <= Step(s, e).counter
  {
    if e.Swap? && s.nodes[e.i].task.read.value.revision == s.revision {
      SwapAbove(s, e.i);
    }
  }

  /** A node that does nothing stays fenced while counter and floor rise. */
  lemma FenceIdle(s: State, n: Node, s': State)
    requires FenceOk(s, n) && s.counter <= s'.counter && s.floor <= s'.floor
    ensures FenceOk(s', n)
  {
  }

  lemma FenceSwap(s: State, i: nat, answered: bool)
    requires NodesOk(s) && FencesOk(s) && Legal(s, Swap(i, answered))
    ensures FenceOk(SwapStep(s, i, answered), SwapStep(s, i, answered).nodes[i])
  {
    var n := s.nodes[i];
    assert NodeOk(s, n) && FenceOk(s, n);
    CounterRises(s, Swap(i, answered));
  }

  lemma FenceUse(s: State, i: nat)
    requires FencesOk(s) && Legal(s, UseFloor(i))
    ensures FenceOk(Step(s, UseFloor(i)), Step(s, UseFloor(i)).nodes[i])
  {
    assert FenceOk(s, s.nodes[i]);
  }

  lemma FenceChange(s: State, e: Event)
    requires NodesOk(s) && FencesOk(s) && Legal(s, e) && !Overtakes(s, e) && (e.Discard? || e.Restart?)
    ensures FenceOk(Step(s, e), Step(s, e).nodes[e.i])
  {
    assert NodeOk(s, s.nodes[e.i]);
  }

  lemma FenceObserve(s: State, i: nat, ts: Timestamp)
    requires FencesOk(s) && Legal(s, Observe(i, ts))
    ensures FenceOk(Step(s, Observe(i, ts)), Step(s, Observe(i, ts)).nodes[i])
  {
    assert FenceOk(s, s.nodes[i]);
  }

  lemma FenceLocal(s: State, e: Event)
    requires FencesOk(s) && Legal(s, e)
    requires e.Assign? || e.StartReserve? || e.ReadFloor? || e.ReadCounter? || e.Install? || e.Fail?
    ensures FenceOk(Step(s, e), Step(s, e).nodes[e.i])
  {
    assert FenceOk(s, s.nodes[e.i]);
  }

  lemma FenceNode(s: State, e: Event, j: nat)
    requires NodesOk(s) && FencesOk(s) && Legal(s, e) && !Overtakes(s, e) && j < |s.nodes|
    ensures |Step(s, e).nodes| == |s.nodes| && FenceOk(Step(s, e), Step(s, e).nodes[j])
  {
    if e.Publish? || j != e.i {
      assert Step(s, e).nodes[j] == s.nodes[j];
      CounterRises(s, e);
      FenceIdle(s, s.nodes[j], Step(s, e));
    } else {
      match e
      case Swap(i, answered) => FenceSwap(s, i, answered);
      case UseFloor(i) => FenceUse(s, i);
      case Observe(i, ts) => FenceObserve(s, i, ts);
      case Discard(_) => FenceChange(s, e);
      case Restart(_) => FenceChange(s, e);
      case _ => FenceLocal(s, e);
    }
  }

  lemma FenceGrant(s: State, i: nat, min: Timestamp)
    requires FencesOk(s) && i < |s.nodes|
    ensures forall k :: 0 <= k < |AssignStep(s, i, min).grants| ==>
              AssignStep(s, i, min).grants[k].last.fence < AssignStep(s, i, min).grants[k].ts
  {
    assert FenceOk(s, s.nodes[i]);
  }

  lemma FenceStep(s: State, e: Event)
    requires NodesOk(s) && FencesOk(s) && Legal(s, e) && !Overtakes(s, e)
    ensures FencesOk(Step(s, e))
  {
    var s' := Step(s, e);
    forall j | 0 <= j < |s'.nodes| ensures FenceOk(s', s'.nodes[j]) {
      FenceNode(s, e, j);
    }
    if e.Assign? {
      FenceGrant(s, e.i, e.min);
    }
  }

  lemma {:induction false} FenceRun(s: State, es: seq<Event>)
    requires Inv(s) && FencesOk(s) && LegalRun(s, es) && NotOvertaken(s, es)
    ensures FencesOk(Run(s, es))
    decreases |es|
  {
    if es != [] {
      InvStep(s, es[0]);
      FenceStep(s, es[0]);
      FenceRun(Step(s, es[0]), es[1..]);
    }
  }

  /** A grant lies above the committed floor of the node's last leadership change, if nothing was overtaken. */
  lemma FencedByFloor(s: State, es: seq<Event>, k: nat)
    requires Initial(s) && LegalRun(s, es) && NotOvertaken(s, es) && k < |Run(s, es).grants|
    ensures Run(s, es).grants[k].last.fence < Run(s, es).grants[k].ts
  {
    InitialInv(s);
    FenceRun(s, es);
  }

  lemma {:induction false} Extend(s: State, es: seq<Event>, e: Event)
    requires LegalRun(s, es) && Legal(Run(s, es), e)
    ensures LegalRun(s, es + [e]) && Run(s, es + [e]) == Step(Run(s, es), e)
    decreases |es|
  {
    if es == [] {
      assert (es + [e])[1..] == [];
    } else {
      Extend(Step(s, es[0]), es[1..], e);
      assert (es + [e])[1..] == es[1..] + [e];
    }
  }

  ghost predicate Leads(start: State, es: seq<Event>, s: State) {
    LegalRun(start, es) && Run(start, es) == s
  }

  lemma Then(start: State, es: seq<Event>, s: State, e: Event) returns (es': seq<Event>, s': State)
    requires Leads(start, es, s) && Legal(s, e)
    ensures es' == es + [e] && s' == Step(s, e) && Leads(start, es', s')
  {
    Extend(start, es, e);
    es', s' := es + [e], Step(s, e);
  }

  /** The overtaken floor is used all the same, and the counter read. */
  lemma UsesOldFloor(s: State, i: nat) returns (es: seq<Event>, t: State)
    requires i < |s.nodes| && s.nodes[i].task.GotFloor? && NextGrant(s.counter, s.nodes[i]).Some?
    ensures es != [] && es[0] == Discard(i) && Leads(s, es, t)
    ensures |t.nodes| == |s.nodes| && t.counter == s.counter && t.revision == s.revision
    ensures t.grants == s.grants && t.nodes[i].batchSize == s.nodes[i].batchSize
    ensures t.nodes[i].last == Change(s.counter, |s.grants|, s.floor)
    ensures t.nodes[i].batch.known == Max(s.nodes[i].batch.known, s.nodes[i].task.floor) && !t.nodes[i].batch.stale
    ensures
      var min := s.nodes[i].task.min;
      t.nodes[i].task == Reserving(min, MinNext(min, t.nodes[i].batch.known).value, t.nodes[i].batch.epoch, 0,
                                   Some(Reading(s.counter, s.revision)))
  {
    es, t := Then(s, [], s, Discard(i));
    es, t := Then(s, es, t, UseFloor(i));
    es, t := Then(s, es, t, ReadCounter(i));
  }

  /** The range is reserved, installed and used. */
  lemma GrantsFirst(s: State, i: nat) returns (es: seq<Event>, t: State)
    requires i < |s.nodes| && s.nodes[i].task.Reserving? && s.nodes[i].task.read == Some(Reading(s.counter, s.revision))
    requires !s.nodes[i].batch.stale && s.nodes[i].task.epoch == s.nodes[i].batch.epoch
    requires MinNext(s.nodes[i].task.min, s.nodes[i].batch.known) == Some(s.nodes[i].task.minNext)
    requires s.nodes[i].batchSize > 0 && Max(s.counter, s.nodes[i].task.minNext) <= TS_MAX
    requires Max(s.counter, s.nodes[i].task.minNext) + s.nodes[i].batchSize < U64
    ensures Leads(s, es, t) && |t.grants| == |s.grants| + 1
    ensures t.grants[|s.grants|].ts == Max(s.counter, s.nodes[i].task.minNext)
    ensures t.grants[|s.grants|].last == s.nodes[i].last
  {
    var min := s.nodes[i].task.min;
    es, t := Then(s, [], s, Swap(i, true));
    es, t := Then(s, es, t, Install(i));
    es, t := Then(s, es, t, Assign(i, min));
  }

  lemma {:induction false} Join(s: State, a: seq<Event>, t: State, b: seq<Event>, u: State)
    requires Leads(s, a, t) && Leads(t, b, u)
    ensures Leads(s, a + b, u)
    decreases |a|
  {
    if a == [] {
      assert a + b == b;
    } else {
      Join(Step(s, a[0]), a[1..], t, b, u);
      assert (a + b)[1..] == a[1..] + b;
    }
  }

  /**
   The condition is exact.  From any state, a change that overtakes a floor lets that floor clear the
   demand to read it again, and the node grants at or below the floor of the change.
   */
  lemma OvertakenFloorIsStale(s: State, i: nat) returns (es: seq<Event>, t: State)
    requires i < |s.nodes| && Overtakes(s, Discard(i))
    ensures es != [] && es[0] == Discard(i) && Leads(s, es, t) && |t.grants| == |s.grants| + 1
    ensures t.grants[|s.grants|].last == Change(s.counter, |s.grants|, s.floor)
    ensures t.grants[|s.grants|].ts == NextGrant(s.counter, s.nodes[i]).value <= t.grants[|s.grants|].last.fence
  {
    var es1, s1 := UsesOldFloor(s, i);
    var es2, s2 := GrantsFirst(s1, i);
    Join(s, es1, s1, es2, s2);
    es, t := es1 + es2, s2;
  }

  /** Such states are reached, by a floor published above the counter. */
  lemma ForeignFloor(start: State, floor: Timestamp) returns (es: seq<Event>, t: State)
    requires Initial(start) && start.nodes != [] && start.floor == 0 && 0 < start.counter <= floor
    ensures Leads(start, es, t) && t.floor == floor && t.nodes != []
    ensures t.nodes[0].batchSize == start.nodes[0].batchSize
    ensures t.nodes[0].task.GotFloor? && NextGrant(t.counter, t.nodes[0]) == Some(start.counter)
    ensures 0 < t.nodes[0].batchSize < U64 - start.counter ==> Overtakes(t, Discard(0))
  {
    es, t := Then(start, [], start, StartReserve(0, 0));
    es, t := Then(start, es, t, ReadFloor(0));
    es, t := Then(start, es, t, Publish(floor));
  }

  // ------------------------------------------------------------------ floors that come from the oracle

  /** Only timestamps below the counter, as all granted ones are, are published as committed. */
  predicate PublishesOwn(s: State, es: seq<Event>)
    requires LegalRun(s, es)
    decreases |es|
  {
    es == [] || ((es[0].Publish? ==> es[0].ts < s.counter) && PublishesOwn(Step(s, es[0]), es[1..]))
  }

  ghost predicate FloorBelow(s: State) {
    && s.floor < s.counter
    && (forall i :: 0 <= i < |s.nodes| ==> s.nodes[i].last.fence == 0 || s.nodes[i].last.fence < s.nodes[i].last.mark)
    && (forall k :: 0 <= k < |s.grants| ==>
          s.grants[k].last.fence == 0 || s.grants[k].last.fence < s.grants[k].last.mark)
  }

  lemma FloorBelowStep(s: State, e: Event)
    requires Inv(s) && FloorBelow(s) && Legal(s, e) && (e.Publish? ==> e.ts < s.counter)
    ensures FloorBelow(Step(s, e))
  {
    CounterRises(s, e);
    var t := Step(s, e);
    forall j | 0 <= j < |t.nodes| ensures t.nodes[j].last.fence == 0 || t.nodes[j].last.fence < t.nodes[j].last.mark {
      assert e.Publish? || j != e.i ==> t.nodes[j] == s.nodes[j];
      assert s.nodes[j].last.fence == 0 || s.nodes[j].last.fence < s.nodes[j].last.mark;
    }
  }

  lemma {:induction false} FloorBelowRun(s: State, es: seq<Event>)
    requires Inv(s) && FloorBelow(s) && LegalRun(s, es) && PublishesOwn(s, es)
    ensures FloorBelow(Run(s, es))
    decreases |es|
  {
    if es != [] {
      InvStep(s, es[0]);
      FloorBelowStep(s, es[0]);
      FloorBelowRun(Step(s, es[0]), es[1..]);
    }
  }

  /**
   When only timestamps below the counter are published, every grant on every run is above the
   committed floor of its node's last leadership change, overtaken or not.
   */
  lemma FencedByOwnFloor(s: State, es: seq<Event>, k: nat)
    requires Initial(s) && s.floor < s.counter && LegalRun(s, es) && PublishesOwn(s, es) && k < |Run(s, es).grants|
    ensures Run(s, es).grants[k].last.fence < Run(s, es).grants[k].ts
  {
    InitialInv(s);
    InvRun(s, es);
    FloorBelowRun(s, es);
    assert Promised(Run(s, es).grants[k]);
  }

  // ------------------------------------------------------------------ what a call does to be served

  /** The reservation holds a timestamp that is not below the floor and above what is known committed. */
  ghost predicate Serves(b: Batch, min: Timestamp) {
    b.known < TS_MAX && exists x: nat :: InBatch(b, min, x)
  }

  predicate InBatch(b: Batch, min: Timestamp, x: nat) {
    b.current <= x < b.upper && min <= x && b.known < x
  }

  lemma ServesIff(b: Batch, min: Timestamp)
    ensures Serves(b, min) <==> CanServe(b, min)
  {
    if CanServe(b, min) {
      assert InBatch(b, min, Max(b.current, MinNext(min, b.known).value));
    }
  }

  /**
   A call reserves nothing if its node can be served already, or could not be by any reservation; else
   it asks for the committed floor.  The same holds after the floor was read.
   */
  lemma ReservesOnlyIfNeeded(s: State, i: nat, min: Timestamp)
    requires i < |s.nodes|
    ensures s.nodes[i].task.Idle? ==>
              var b, t := s.nodes[i].batch, Step(s, StartReserve(i, min));
              var served := !b.stale && (Serves(b, min) || b.known == TS_MAX);
              t == Put(s, i, s.nodes[i].(task := if served then Idle else WantFloor(min)))
    ensures s.nodes[i].task.GotFloor? ==>
              var t := Step(s, UseFloor(i)).nodes[i];
              && !t.batch.stale && t.batch.known == Max(s.nodes[i].batch.known, s.nodes[i].task.floor)
              && t.batch.current == s.nodes[i].batch.current && t.batch.upper == s.nodes[i].batch.upper
              && (t.task.Idle? <==> Serves(t.batch, s.nodes[i].task.min) || t.batch.known == TS_MAX)
              && (!t.task.Idle? ==> t.task.Reserving? && t.task.attempts == 0 && t.task.read.None?
                                    && t.task.min == s.nodes[i].task.min && t.task.minNext > t.batch.known)
  {
    ServesIff(s.nodes[i].batch, min);
    if s.nodes[i].task.GotFloor? {
      ServesIff(Step(s, UseFloor(i)).nodes[i].batch, s.nodes[i].task.min);
    }
  }

  /** A range reserved before a leadership change is not installed, and the call starts over. */
  lemma ChangeStartsOver(s: State, i: nat)
    requires Legal(s, Install(i)) && s.nodes[i].task.epoch != s.nodes[i].batch.epoch && s.nodes[i].batch.stale
    ensures Step(s, Install(i)) == Put(s, i, s.nodes[i].(task := WantFloor(s.nodes[i].task.min)))
  {
  }

  /** An update at node `i` that the store refuses, or whose answer is lost. */
  predicate Refused(s: State, e: Event, i: nat)
    requires Legal(s, e)
  {
    && e.Swap? && e.i == i
    && Max(s.nodes[i].task.read.value.value, s.nodes[i].task.minNext) + s.nodes[i].batchSize < U64
    && (s.nodes[i].task.read.value.revision != s.revision || !e.answered)
  }

  /** Others may do anything; node `i` goes on trying and is refused. */
  predicate KeepsTrying(s: State, es: seq<Event>, i: nat)
    requires LegalRun(s, es)
    decreases |es|
  {
    es == [] ||
    (&& (!es[0].Publish? && es[0].i == i ==>
           es[0].ReadCounter? || es[0].Discard? || es[0].Observe? || es[0].Assign? || Refused(s, es[0], i))
     && KeepsTrying(Step(s, es[0]), es[1..], i))
  }

  function Tries(es: seq<Event>, i: nat): nat {
    if es == [] then 0 else (if es[0].Swap? && es[0].i == i then 1 else 0) + Tries(es[1..], i)
  }

  /** A reservation that is refused goes on until the tenth attempt, and then gives up. */
  lemma {:induction false} GivesUpAtTheTenth(s: State, es: seq<Event>, i: nat)
    requires i < |s.nodes| && s.nodes[i].task.Reserving? && s.nodes[i].task.attempts < 10
    requires LegalRun(s, es) && KeepsTrying(s, es, i)
    ensures
      var t := Run(s, es);
      && |t.nodes| == |s.nodes| && s.nodes[i].task.attempts + Tries(es, i) <= 10
      && if s.nodes[i].task.attempts + Tries(es, i) < 10
         then t.nodes[i].task.Reserving? && t.nodes[i].task.attempts == s.nodes[i].task.attempts + Tries(es, i)
         else t.nodes[i].task.Idle?
    decreases |es|
  {
    if es != [] {
      var t := Step(s, es[0]);
      TryStep(s, es[0], i);
      if t.nodes[i].task.Reserving? {
        GivesUpAtTheTenth(t, es[1..], i);
      } else {
        GivenUp(t, es[1..], i);
      }
    }
  }

  lemma TryStep(s: State, e: Event, i: nat)
    requires i < |s.nodes| && s.nodes[i].task.Reserving? && s.nodes[i].task.attempts < 10 && Legal(s, e)
    requires !e.Publish? && e.i == i ==>
               e.ReadCounter? || e.Discard? || e.Observe? || e.Assign? || Refused(s, e, i)
    ensures
      var t, a := Step(s, e), s.nodes[i].task.attempts + if e.Swap? && e.i == i then 1 else 0;
      && |t.nodes| == |s.nodes|
      && if a < 10 then t.nodes[i].task.Reserving? && t.nodes[i].task.attempts == a else t.nodes[i].task.Idle?
  {
  }

  lemma {:induction false} GivenUp(s: State, es: seq<Event>, i: nat)
    requires i < |s.nodes| && s.nodes[i].task.Idle? && LegalRun(s, es) && KeepsTrying(s, es, i)
    ensures |Run(s, es).nodes| == |s.nodes| && Run(s, es).nodes[i].task.Idle? && Tries(es, i) == 0
    decreases |es|
  {
    if es != [] {
      var t := Step(s, es[0]);
      assert |t.nodes| == |s.nodes| && t.nodes[i].task.Idle? && !(es[0].Swap? && es[0].i == i);
      GivenUp(t, es[1..], i);
    }
  }

  /** What a node has observed it never grants again, nor anything below, until it restarts. */
  lemma ObservedIsRespected(s: State, i: nat, ts: Timestamp, es: seq<Event>, k: nat)
    requires i < |s.nodes| && LegalRun(Step(s, Observe(i, ts)), es) && forall j :: 0 <= j < |es| ==> es[j] != Restart(i)
    requires |s.grants| <= k < |Run(Step(s, Observe(i, ts)), es).grants|
    ensures var g := Run(Step(s, Observe(i, ts)), es).grants[k]; g.node == i ==> ts < g.ts
  {
    KnownStays(Step(s, Observe(i, ts)), i, ts, |s.grants|, es);
  }

  /** From number `from` on, the node's grants are above `ts`. */
  ghost predicate GrantsAbove(s: State, i: nat, ts: Timestamp, from: nat) {
    forall k :: from <= k < |s.grants| && s.grants[k].node == i ==> ts < s.grants[k].ts
  }

  lemma {:induction false} KnownStays(s: State, i: nat, ts: Timestamp, from: nat, es: seq<Event>)
    requires i < |s.nodes| && ts <= s.nodes[i].batch.known && LegalRun(s, es)
    requires forall j :: 0 <= j < |es| ==> es[j] != Restart(i)
    requires GrantsAbove(s, i, ts, from)
    ensures GrantsAbove(Run(s, es), i, ts, from)
    decreases |es|
  {
    if es != [] {
      KnownStep(s, i, ts, from, es[0]);
      assert forall j :: 0 <= j < |es[1..]| ==> es[1..][j] == es[j + 1];
      KnownStays(Step(s, es[0]), i, ts, from, es[1..]);
    }
  }

  lemma KnownStep(s: State, i: nat, ts: Timestamp, from: nat, e: Event)
    requires i < |s.nodes| && ts <= s.nodes[i].batch.known && Legal(s, e) && e != Restart(i)
    requires GrantsAbove(s, i, ts, from)
    ensures
      var t := Step(s, e);
      |t.nodes| == |s.nodes| && ts <= t.nodes[i].batch.known && GrantsAbove(t, i, ts, from)
  {
  }

  // ------------------------------------------------------------------ the node's own code

  /** A node's state behind its lock. */
  /** A timestamp of the reservation that is not below the caller's floor and above what is known committed. */
  predicate Free(b: Batch, min: Timestamp, x: nat) {
    b.current <= x < b.upper && min <= x <= TS_MAX && b.known < x
  }

  class BatchState {
    var current: nat
    var upper: nat
    var known: Timestamp
    var stale: bool
    var epoch: nat

    function Model(): Batch
      reads this
    {
      Batch(current, upper, known, stale, epoch)
    }

    constructor ()
      ensures Model() == FRESH
    {
      current, upper, known, stale, epoch := 0, 0, 0, false, 0;
    }

    method TryAssign(min: Timestamp) returns (ts: Option<Timestamp>)
      modifies this
      ensures (ts, Model()) == Take(old(Model()), min)
      ensures ts.Some? ==> current == ts.value + 1
      ensures ts.Some? ==>
                Free(old(Model()), min, ts.value) && forall x: nat :: Free(old(Model()), min, x) ==> ts.value <= x
      ensures ts.None? <==> old(stale) || forall x: nat :: !Free(old(Model()), min, x)
    {
      if stale || known == TS_MAX {
        return None;
      }
      var minNext := if min < known + 1 then known + 1 else min;
      var candidate := if current < minNext then minNext else current;
      if candidate >= upper {
        return None;
      }
      current := candidate + 1;
      ts := if candidate <= TS_MAX then Some(candidate) else None;
    }

    method ObserveCommitted(ts: Timestamp)
      modifies this
      ensures Model() == Observed(old(Model()), ts)
      ensures forall min: Timestamp, t: Timestamp :: Take(Model(), min).0 == Some(t) ==> t > ts && t > old(known)
    {
      if ts > known {
        known := ts;
      }
    }

    method DiscardReservedBatch()
      modifies this
      ensures Model() == Discarded(old(Model()))
      ensures forall min: Timestamp :: Take(Model(), min).0.None?
      ensures forall floor: Timestamp, min: Timestamp :: Take(Refreshed(Model(), floor), min).0.None?
    {
      current, upper, stale, epoch := 0, 0, true, epoch + 1;
    }

    method RefreshCommittedFloor(floor: Timestamp)
      modifies this
      ensures Model() == Refreshed(old(Model()), floor)
      ensures forall min: Timestamp, t: Timestamp :: Take(Model(), min).0 == Some(t) ==> t > floor && t > old(known)
    {
      ObserveCommitted(floor);
      stale := false;
    }
  }

  /** The single-node oracle: the clock, kept above the caller's floor and everything before. */
  class LocalOracle {
    var lastAssigned: Timestamp
    var maxCommitted: Timestamp

    /** Fails exactly when a successor does not exist; otherwise the least timestamp allowed. */
    method Next(clock: Timestamp, min: Timestamp) returns (ts: Option<Timestamp>)
      modifies this
      ensures ts.None? <==> old(lastAssigned) == TS_MAX || old(maxCommitted) == TS_MAX
      ensures ts.None? ==> lastAssigned == old(lastAssigned)
      ensures ts.Some? ==>
                && clock <= ts.value && min <= ts.value && old(lastAssigned) < ts.value && maxCommitted < ts.value
                && (ts.value == clock || ts.value == min || ts.value == old(lastAssigned) + 1
                    || ts.value == maxCommitted + 1)
                && lastAssigned == ts.value
      ensures maxCommitted == old(maxCommitted)
    {
      if lastAssigned == TS_MAX || maxCommitted == TS_MAX {
        return None;
      }
      var next := Max(Max(clock, min), Max(lastAssigned + 1, maxCommitted + 1));
      lastAssigned := next;
      ts := Some(next);
    }
  }
}
