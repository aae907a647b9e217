/**
 The adaptive FIFO/LIFO request queue.  A queue that was empty recently is idle: it hands out
 its oldest item and gives new items the long expiration.  A queue that has stayed non-empty for
 the idle expiration is congested: it hands out its newest item and gives new items the short
 expiration.  Items past their deadline are returned marked, oldest first.

 The monotone clock is read several times in one operation, so every operation takes the readings
 it consumes, in the order the code takes them.
 */
module CoDelQueue {
  import opened Common

  datatype Item<T> = Item(value: T, deadline: int)

  datatype Config = Config(capacity: nat, idleExpiration: nat, congestedExpiration: nat)

  datatype Queue<T> = Queue(config: Config, buffer: seq<Item<T>>, lastTimeEmpty: int)

  /** Readings of one push: two refreshes of the empty time, the idle test, the deadline base. */
  datatype PushReadings = PushReadings(refresh: int, refreshAgain: int, idleTest: int, base: int) {
    predicate From(clock: int) {
      clock <= refresh <= refreshAgain <= idleTest <= base
    }
  }

  /** Readings of one pop: the pop's time, a refresh, the idle test, the refresh after removal. */
  datatype PopReadings = PopReadings(now: int, refresh: int, idleTest: int, after: int) {
    predicate From(clock: int) {
      clock <= now <= refresh <= idleTest <= after
    }
  }

  datatype Popped<T> = Popped(value: T, expired: bool)

  datatype Branch = Drain | Fifo | Lifo

  function Empty<T>(config: Config, created: int): Queue<T> {
    Queue(config, [], created)
  }

  function RefreshEmptyTime<T>(q: Queue<T>, t: int): Queue<T> {
    if q.buffer == [] then q.(lastTimeEmpty := t) else q
  }

  predicate IdleAt<T>(q: Queue<T>, t: int) {
    q.lastTimeEmpty + q.config.idleExpiration > t
  }

  predicate Full<T>(q: Queue<T>) {
    |q.buffer| >= q.config.capacity
  }

  /** The queue a push sees after its two refreshes, when it decides on the expiration. */
  function Refreshed<T>(q: Queue<T>, r: PushReadings): Queue<T> {
    RefreshEmptyTime(RefreshEmptyTime(q, r.refresh), r.refreshAgain)
  }

  function PushItem<T>(q: Queue<T>, x: T, r: PushReadings): Item<T> {
    var idle := IdleAt(Refreshed(q, r), r.idleTest);
    var expiration := if idle then q.config.idleExpiration else q.config.congestedExpiration;
    Item(x, r.base + expiration)
  }

  function Push<T>(q: Queue<T>, x: T, r: PushReadings): Queue<T> {
    if Full(q) then q
    else
      var q' := Refreshed(q, r);
      q'.(buffer := q'.buffer + [PushItem(q, x, r)])
  }

  function PopBranch<T>(q: Queue<T>, r: PopReadings): Branch {
    if q.buffer != [] && q.buffer[0].deadline < r.now then Drain
    else if IdleAt(RefreshEmptyTime(q, r.refresh), r.idleTest) then Fifo
    else Lifo
  }

  /** The end of the buffer a pop takes from: the newest item in LIFO mode, else the oldest. */
  function End<A>(s: seq<A>, b: Branch): A
    requires s != []
  {
    if b == Lifo then s[|s| - 1] else s[0]
  }

  function WithoutEnd<A>(s: seq<A>, b: Branch): seq<A>
    requires s != []
  {
    if b == Lifo then s[..|s| - 1] else s[1..]
  }

  function AfterPop<T>(q: Queue<T>, r: PopReadings): Queue<T> {
    var rest := if q.buffer == [] then [] else WithoutEnd(q.buffer, PopBranch(q, r));
    RefreshEmptyTime(q.(buffer := rest), r.after)
  }

  function PopResult<T>(q: Queue<T>, r: PopReadings): Option<Popped<T>> {
    if q.buffer == [] then None
    else
      var item := End(q.buffer, PopBranch(q, r));
      Some(Popped(item.value, item.deadline < r.now))
  }

  // ------------------------------------------------------------------ contents

  function Values<T>(q: Queue<T>): (s: seq<T>)
    ensures |s| == |q.buffer| && forall i :: 0 <= i < |s| ==> s[i] == q.buffer[i].value
  {
    seq(|q.buffer|, i requires 0 <= i < |q.buffer| => q.buffer[i].value)
  }

  lemma PushAddsOne<T>(q: Queue<T>, x: T, r: PushReadings)
    ensures Values(Push(q, x, r)) == if Full(q) then Values(q) else Values(q) + [x]
  {
  }

  /** A pop hands out one value the queue held and keeps the others. */
  lemma PopRemovesOne<T>(q: Queue<T>, r: PopReadings)
    requires q.buffer != [] && Distinct(Values(q))
    ensures PopResult(q, r).Some? && PopResult(q, r).value.value in Values(q)
    ensures Distinct(Values(AfterPop(q, r)))
    ensures forall x :: x in Values(AfterPop(q, r)) <==> x in Values(q) && x != PopResult(q, r).value.value
  {
  }

  /**
   Which item comes out, by the clock alone: the oldest if it has expired or the queue was empty less
   than the idle expiration ago, else the newest.
   */
  lemma PopByClock<T>(q: Queue<T>, r: PopReadings)
    requires q.buffer != []
    ensures
      var n := |q.buffer|;
      var newest := q.buffer[0].deadline >= r.now && q.lastTimeEmpty + q.config.idleExpiration <= r.idleTest;
      var item := if newest then q.buffer[n - 1] else q.buffer[0];
      && PopResult(q, r) == Some(Popped(item.value, item.deadline < r.now))
      && AfterPop(q, r).buffer == if newest then q.buffer[..n - 1] else q.buffer[1..]
  {
  }

  /** An item with value `x` leaves the queue, past its deadline or not. */
  ghost predicate Leaves<T>(q: Queue<T>, after: Queue<T>, x: T, now: int, late: bool) {
    exists item :: item in q.buffer && item !in after.buffer && item.value == x && (late <==> item.deadline < now)
  }

  lemma FrontLeaves<T>(b: seq<Item<T>>)
    requires b != [] && Distinct(b)
    ensures forall x :: x in b && x !in b[1..] <==> x == b[0]
  {
    assert b == [b[0]] + b[1..];
    assert b[0] !in b[1..];
  }

  lemma BackLeaves<T>(b: seq<Item<T>>)
    requires b != [] && Distinct(b)
    ensures forall x :: x in b && x !in b[..|b| - 1] <==> x == b[|b| - 1]
  {
    var n := |b| - 1;
    assert b == b[..n] + [b[n]];
    assert b[n] !in b[..n];
  }

  /** A pop removes the item it hands out, marked by its own deadline. */
  lemma PopTakesItem<T>(q: Queue<T>, r: PopReadings, x: T, late: bool)
    requires Distinct(Values(q)) && q.buffer != []
    ensures Leaves(q, AfterPop(q, r), x, r.now, late) <==> PopResult(q, r) == Some(Popped(x, late))
  {
    PopByClock(q, r);
    DistinctItems(q);
    FrontLeaves(q.buffer);
    BackLeaves(q.buffer);
  }

  lemma DistinctItems<T>(q: Queue<T>)
    requires Distinct(Values(q))
    ensures Distinct(q.buffer)
  {
    forall i, j | 0 <= i < j < |q.buffer| ensures q.buffer[i] != q.buffer[j] {
      assert Values(q)[i] != Values(q)[j];
    }
  }

  /** The queue as the object the code updates in place. */
  class CoDelQueue<T> {
    const config: Config
    var buffer: seq<Item<T>>
    var lastTimeEmpty: int

    ghost function Model(): Queue<T>
      reads this
    {
      Queue(config, buffer, lastTimeEmpty)
    }

    constructor (config: Config, created: int)
      ensures Model() == Empty(config, created)
    {
      this.config := config;
      buffer := [];
      lastTimeEmpty := created;
    }

    method UpdateLastTimeEmpty(t: int)
      modifies this
      ensures Model() == RefreshEmptyTime(old(Model()), t)
    {
      if |buffer| == 0 {
        lastTimeEmpty := t;
      }
    }

    method IsIdle(refresh: int, idleTest: int) returns (idle: bool)
      modifies this
      ensures Model() == RefreshEmptyTime(old(Model()), refresh)
      ensures idle == IdleAt(Model(), idleTest)
    {
      UpdateLastTimeEmpty(refresh);
      idle := lastTimeEmpty + config.idleExpiration > idleTest;
    }

    method TryPush(x: T, r: PushReadings) returns (accepted: bool)
      modifies this
      ensures Model() == Push(old(Model()), x, r)
      ensures accepted <==> |old(buffer)| < config.capacity
      ensures !accepted ==> buffer == old(buffer) && lastTimeEmpty == old(lastTimeEmpty)
      ensures accepted ==>
                && lastTimeEmpty == (if old(buffer) == [] then r.refreshAgain else old(lastTimeEmpty))
                && var idle := lastTimeEmpty + config.idleExpiration > r.idleTest;
                   var expiration := if idle then config.idleExpiration else config.congestedExpiration;
                   buffer == old(buffer) + [Item(x, r.base + expiration)]
    {
      if |buffer| >= config.capacity {
        return false;
      }
      UpdateLastTimeEmpty(r.refresh);
      var idle := IsIdle(r.refreshAgain, r.idleTest);
      var expiration := if idle then config.idleExpiration else config.congestedExpiration;
      buffer := buffer + [Item(x, r.base + expiration)];
      return true;
    }

    method PopFront(after: int) returns (item: Option<Item<T>>)
      modifies this
      ensures item == if old(buffer) == [] then None else Some(old(buffer)[0])
      ensures
        var rest := if old(buffer) == [] then [] else old(buffer)[1..];
        Model() == RefreshEmptyTime(old(Model()).(buffer := rest), after)
    {
      item := None;
      if |buffer| > 0 {
        item := Some(buffer[0]);
        buffer := buffer[1..];
      }
      UpdateLastTimeEmpty(after);
    }

    method PopBack(after: int) returns (item: Option<Item<T>>)
      modifies this
      ensures item == if old(buffer) == [] then None else Some(old(buffer)[|old(buffer)| - 1])
      ensures
        var rest := if old(buffer) == [] then [] else old(buffer)[..|old(buffer)| - 1];
        Model() == RefreshEmptyTime(old(Model()).(buffer := rest), after)
    {
      item := None;
      if |buffer| > 0 {
        item := Some(buffer[|buffer| - 1]);
        buffer := buffer[..|buffer| - 1];
      }
      UpdateLastTimeEmpty(after);
    }

    method TryPop(r: PopReadings) returns (result: Option<Popped<T>>)
      modifies this
      ensures Model() == AfterPop(old(Model()), r) && result == PopResult(old(Model()), r)
      ensures old(buffer) == [] ==> result == None && buffer == []
      ensures
        var b, n := old(buffer), |old(buffer)|;
        n > 0 ==>
          var newest := b[0].deadline >= r.now && old(lastTimeEmpty) + config.idleExpiration <= r.idleTest;
          var item := if newest then b[n - 1] else b[0];
          && result == Some(Popped(item.value, item.deadline < r.now))
          && buffer == if newest then b[..n - 1] else b[1..]
      ensures lastTimeEmpty == if buffer == [] then r.after else old(lastTimeEmpty)
    {
      var item: Option<Item<T>>;
      if |buffer| > 0 && buffer[0].deadline < r.now {
        item := PopFront(r.after);
      } else {
        var idle := IsIdle(r.refresh, r.idleTest);
        if idle {
          item := PopFront(r.after);
        } else {
          item := PopBack(r.after);
        }
      }
      match item {
        case None => result := None;
        case Some(i) => result := Some(Popped(i.value, i.deadline < r.now));
      }
    }
  }

  // ------------------------------------------------------------------ whole runs

  datatype Event<T> = PushEvent(x: T, push: PushReadings) | PopEvent(pop: PopReadings)

  /** How a buffered item came in: its arrival number, when, and in which mode. */
  datatype Tag = Tag(id: nat, pushedAt: int, congested: bool)

  /** One delivery: which arrival, what the caller got, and the pop's own time. */
  datatype Delivery<T> = Delivery(id: nat, got: Popped<T>, now: int)

  /** A queue together with the record of everything it accepted and delivered. */
  datatype Record<T> = History(
    queue: Queue<T>, tags: seq<Tag>, accepted: seq<Item<T>>, delivered: seq<Delivery<T>>, clock: int)

  type History<T> = h: Record<T> | |h.tags| == |h.queue.buffer|
    witness History(Queue(Config(0, 0, 0), [], 0), [], [], [], 0)

  predicate Legal<T>(h: History<T>, e: Event<T>) {
    match e
    case PushEvent(_, r) => r.From(h.clock)
    case PopEvent(r) => r.From(h.clock)
  }

  function Step<T>(h: History<T>, e: Event<T>): History<T> {
    match e
    case PushEvent(x, r) =>
      if Full(h.queue) then h.(clock := r.base)
      else History(Push(h.queue, x, r),
                   h.tags + [Tag(|h.accepted|, r.base, !IdleAt(Refreshed(h.queue, r), r.idleTest))],
                   h.accepted + [PushItem(h.queue, x, r)], h.delivered, r.base)
    case PopEvent(r) =>
      var queue := AfterPop(h.queue, r);
      if h.queue.buffer == [] then h.(queue := queue, clock := r.after)
      else
        var b := PopBranch(h.queue, r);
        History(queue, WithoutEnd(h.tags, b), h.accepted,
                h.delivered + [Delivery(End(h.tags, b).id, PopResult(h.queue, r).value, r.now)], r.after)
  }

  function Start<T>(config: Config, created: int): History<T> {
    History(Empty(config, created), [], [], [], created)
  }

  predicate LegalRun<T>(h: History<T>, es: seq<Event<T>>)
    decreases |es|
  {
    es == [] || (Legal(h, es[0]) && LegalRun(Step(h, es[0]), es[1..]))
  }

  function Run<T>(h: History<T>, es: seq<Event<T>>): History<T>
    decreases |es|
  {
    if es == [] then h else Run(Step(h, es[0]), es[1..])
  }

  // ------------------------------------------------------------------ the buffer's shape

  function Expiration(c: Config, congested: bool): nat {
    if congested then c.congestedExpiration else c.idleExpiration
  }

  /** Each buffered item is the arrival its tag names. */
  ghost predicate Tagged<T>(h: History<T>) {
    forall i :: 0 <= i < |h.tags| ==>
         && h.tags[i].id < |h.accepted|
         && h.queue.buffer[i] == h.accepted[h.tags[i].id]
         && h.queue.buffer[i].deadline == h.tags[i].pushedAt + Expiration(h.queue.config, h.tags[i].congested)
  }

  /** Arrival order, and every item arrived since the queue was last empty. */
  ghost predicate InOrder<T>(h: History<T>) {
    && (forall i, j :: 0 <= i < j < |h.tags| ==>
          h.tags[i].id < h.tags[j].id && h.tags[i].pushedAt <= h.tags[j].pushedAt)
    && (forall i :: 0 <= i < |h.tags| ==> h.queue.lastTimeEmpty <= h.tags[i].pushedAt <= h.clock)
    && h.queue.lastTimeEmpty <= h.clock
  }

  /** A block of idle-mode items followed by a block of congested-mode items. */
  ghost predicate TwoBlocks<T>(h: History<T>) {
    && (forall i, j :: 0 <= i < j < |h.tags| && h.tags[i].congested ==> h.tags[j].congested)
    && (forall i :: 0 <= i < |h.tags| && h.tags[i].congested ==>
          h.queue.lastTimeEmpty + h.queue.config.idleExpiration <= h.tags[i].pushedAt)
  }

  ghost predicate Shaped<T>(h: History<T>) {
    && |h.queue.buffer| <= h.queue.config.capacity
    && Tagged(h) && InOrder(h) && TwoBlocks(h)
  }

  lemma BlocksPush<T>(h: History<T>, x: T, r: PushReadings)
    requires Shaped(h) && r.From(h.clock) && !Full(h.queue)
    ensures TwoBlocks(Step(h, PushEvent(x, r)))
  {
  }

  lemma OrderPush<T>(h: History<T>, x: T, r: PushReadings)
    requires Shaped(h) && r.From(h.clock) && !Full(h.queue)
    ensures InOrder(Step(h, PushEvent(x, r)))
  {
  }

  lemma ShapedPush<T>(h: History<T>, x: T, r: PushReadings)
    requires Shaped(h) && r.From(h.clock) && !Full(h.queue)
    ensures Shaped(Step(h, PushEvent(x, r)))
  {
    BlocksPush(h, x, r);
    OrderPush(h, x, r);
  }

  /** What is left of a shaped queue after items were taken off its ends. */
  ghost predicate TakenFrom<T>(h': History<T>, h: History<T>, shift: nat) {
    && |h'.tags| + shift <= |h.tags|
    && (forall i :: 0 <= i < |h'.tags| ==> h'.tags[i] == h.tags[i + shift])
    && (forall i :: 0 <= i < |h'.tags| ==> h'.queue.buffer[i] == h.queue.buffer[i + shift])
    && h'.accepted == h.accepted && h'.queue.config == h.queue.config && h.clock <= h'.clock
    && h'.queue.lastTimeEmpty <= h'.clock
    && (h'.tags != [] ==> h'.queue.lastTimeEmpty == h.queue.lastTimeEmpty)
  }

  lemma ShapedTaken<T>(h': History<T>, h: History<T>, shift: nat)
    requires Shaped(h) && TakenFrom(h', h, shift)
    ensures Shaped(h')
  {
  }

  lemma PopTakes<T>(h: History<T>, r: PopReadings)
    requires r.From(h.clock) && h.queue.buffer != [] && h.queue.lastTimeEmpty <= h.clock
    ensures TakenFrom(Step(h, PopEvent(r)), h, if PopBranch(h.queue, r) == Lifo then 0 else 1)
  {
  }

  lemma ShapedPop<T>(h: History<T>, r: PopReadings)
    requires Shaped(h) && r.From(h.clock) && h.queue.buffer != []
    ensures Shaped(Step(h, PopEvent(r)))
  {
    PopTakes(h, r);
    ShapedTaken(Step(h, PopEvent(r)), h, if PopBranch(h.queue, r) == Lifo then 0 else 1);
  }

  lemma ShapedStep<T>(h: History<T>, e: Event<T>)
    requires Shaped(h) && Legal(h, e)
    ensures Shaped(Step(h, e))
  {
    match e {
      case PushEvent(x, r) =>
        if !Full(h.queue) { ShapedPush(h, x, r); }
      case PopEvent(r) =>
        if h.queue.buffer != [] { ShapedPop(h, r); }
    }
  }

  /** Every reachable queue has the two-block shape. */
  lemma {:induction false} ShapedRun<T>(h: History<T>, es: seq<Event<T>>)
    requires Shaped(h) && LegalRun(h, es)
    ensures Shaped(Run(h, es))
    decreases |es|
  {
    if es != [] {
      ShapedStep(h, es[0]);
      ShapedRun(Step(h, es[0]), es[1..]);
    }
  }

  /** Deadlines do not decrease inside either block. */
  lemma BlockDeadlines<T>(h: History<T>, i: nat, j: nat)
    requires Shaped(h) && i < j < |h.tags| && h.tags[i].congested == h.tags[j].congested
    ensures h.queue.buffer[i].deadline <= h.queue.buffer[j].deadline
  {
  }

  lemma IdleHoldsNothingExpired<T>(h: History<T>, r: PopReadings)
    requires Shaped(h) && r.From(h.clock) && IdleAt(h.queue, r.now)
    ensures forall i :: 0 <= i < |h.tags| ==> !h.tags[i].congested && h.queue.buffer[i].deadline >= r.now
  {
  }

  /** While the queue is idle nothing in it has expired, so no pop reports an expiry. */
  lemma IdleNeverExpires<T>(config: Config, created: int, es: seq<Event<T>>, r: PopReadings)
    requires LegalRun(Start<T>(config, created), es)
    requires r.From(Run(Start<T>(config, created), es).clock)
    requires IdleAt(Run(Start<T>(config, created), es).queue, r.now)
    ensures
      var q := Run(Start<T>(config, created), es).queue;
      && (forall i :: 0 <= i < |q.buffer| ==> q.buffer[i].deadline >= r.now)
      && (q.buffer != [] ==> PopResult(q, r).Some? && !PopResult(q, r).value.expired)
  {
    ShapedRun(Start<T>(config, created), es);
    IdleHoldsNothingExpired(Run(Start<T>(config, created), es), r);
  }

  // ------------------------------------------------------------------ conservation

  function TagIds(tags: seq<Tag>): (s: seq<nat>)
    ensures |s| == |tags| && forall i :: 0 <= i < |s| ==> s[i] == tags[i].id
  {
    seq(|tags|, i requires 0 <= i < |tags| => tags[i].id)
  }

  function DeliveredIds<T>(ds: seq<Delivery<T>>): (s: seq<nat>)
    ensures |s| == |ds| && forall i :: 0 <= i < |s| ==> s[i] == ds[i].id
  {
    seq(|ds|, i requires 0 <= i < |ds| => ds[i].id)
  }

  /** Accepted arrivals are the delivered ones plus the buffered ones, each exactly once. */
  ghost predicate AllAccountedFor<T>(h: History<T>) {
    multiset(TagIds(h.tags)) + multiset(DeliveredIds(h.delivered)) == multiset(Upto(|h.accepted|))
  }

  /** A delivery is the accepted item, marked expired exactly when its deadline had passed. */
  ghost predicate DeliveriesExact<T>(h: History<T>) {
    forall i :: 0 <= i < |h.delivered| ==>
         var d := h.delivered[i];
         && d.id < |h.accepted|
         && d.got.value == h.accepted[d.id].value
         && (d.got.expired <==> h.accepted[d.id].deadline < d.now)
  }

  ghost predicate Conserved<T>(h: History<T>) {
    AllAccountedFor(h) && DeliveriesExact(h)
  }

  lemma ConservedPush<T>(h: History<T>, x: T, r: PushReadings)
    requires Conserved(h) && !Full(h.queue)
    ensures Conserved(Step(h, PushEvent(x, r)))
  {
    UptoSnoc(|h.accepted|);
    assert TagIds(Step(h, PushEvent(x, r)).tags) == TagIds(h.tags) + [|h.accepted|];
  }

  lemma {:induction false} AccountedPop<T>(h: History<T>, r: PopReadings)
    requires AllAccountedFor(h) && h.queue.buffer != []
    ensures AllAccountedFor(Step(h, PopEvent(r)))
  {
    var h' := Step(h, PopEvent(r));
    var ids, b := TagIds(h.tags), PopBranch(h.queue, r);
    assert TagIds(h'.tags) == WithoutEnd(ids, b);
    assert DeliveredIds(h'.delivered) == DeliveredIds(h.delivered) + [End(ids, b)];
    assert ids == if b == Lifo then WithoutEnd(ids, b) + [End(ids, b)] else [End(ids, b)] + WithoutEnd(ids, b);
  }

  lemma ExactPop<T>(h: History<T>, r: PopReadings)
    requires Tagged(h) && DeliveriesExact(h) && h.queue.buffer != []
    ensures DeliveriesExact(Step(h, PopEvent(r)))
  {
    var h' := Step(h, PopEvent(r));
    assert h'.delivered[..|h.delivered|] == h.delivered;
  }

  lemma ConservedPop<T>(h: History<T>, r: PopReadings)
    requires Tagged(h) && Conserved(h) && h.queue.buffer != []
    ensures Conserved(Step(h, PopEvent(r)))
  {
    AccountedPop(h, r);
    ExactPop(h, r);
  }

  lemma ConservedStep<T>(h: History<T>, e: Event<T>)
    requires Shaped(h) && Legal(h, e) && Conserved(h)
    ensures Conserved(Step(h, e))
  {
    match e {
      case PushEvent(x, r) =>
        if !Full(h.queue) { ConservedPush(h, x, r); }
      case PopEvent(r) =>
        if h.queue.buffer != [] { ConservedPop(h, r); }
    }
  }

  lemma {:induction false} ConservedRun<T>(h: History<T>, es: seq<Event<T>>)
    requires Shaped(h) && Conserved(h) && LegalRun(h, es)
    ensures Conserved(Run(h, es))
    decreases |es|
  {
    if es != [] {
      ShapedStep(h, es[0]);
      ConservedStep(h, es[0]);
      ConservedRun(Step(h, es[0]), es[1..]);
    }
  }

  lemma EachIdOnce<T>(h: History<T>)
    requires Conserved(h)
    ensures Distinct(DeliveredIds(h.delivered))
    ensures forall id: nat :: id < |h.accepted| ==> (id in DeliveredIds(h.delivered) <==> id !in TagIds(h.tags))
  {
    var out, held := DeliveredIds(h.delivered), TagIds(h.tags);
    var outBag: multiset<nat>, heldBag: multiset<nat> := multiset(out), multiset(held);
    forall id: nat ensures heldBag[id] + outBag[id] == if id < |h.accepted| then 1 else 0 {
      UptoOnce(|h.accepted|, id);
    }
    DistinctFromMultiset(out);
    forall id: nat | id < |h.accepted| ensures id in out <==> id !in held {
      assert id in out <==> outBag[id] > 0;
      assert id in held <==> heldBag[id] > 0;
    }
  }

  lemma StartOk<T>(config: Config, created: int)
    ensures Shaped(Start<T>(config, created)) && Conserved(Start<T>(config, created))
  {
  }

  lemma RunOk<T>(config: Config, created: int, es: seq<Event<T>>)
    requires LegalRun(Start<T>(config, created), es)
    ensures
      var h := Run(Start<T>(config, created), es);
      Shaped(h) && Conserved(h) && h.queue.config == config
  {
    var s := Start<T>(config, created);
    StartOk<T>(config, created);
    ShapedRun(s, es);
    ConservedRun(s, es);
    ConfigKept(s, es);
  }

  /**
   On every run: nothing accepted is lost or handed out twice, every delivery is the accepted item,
   and it is marked expired exactly when its deadline lies before the pop's time.
   */
  lemma ExactDelivery<T>(config: Config, created: int, es: seq<Event<T>>)
    requires LegalRun(Start<T>(config, created), es)
    ensures
      var h := Run(Start<T>(config, created), es);
      && Conserved(h)
      && Distinct(DeliveredIds(h.delivered))
      && (forall id: nat :: id < |h.accepted| ==> (id in DeliveredIds(h.delivered) <==> id !in TagIds(h.tags)))
      && |h.queue.buffer| <= config.capacity
  {
    RunOk(config, created, es);
    EachIdOnce(Run(Start<T>(config, created), es));
  }

  lemma {:induction false} ConfigKept<T>(h: History<T>, es: seq<Event<T>>)
    ensures Run(h, es).queue.config == h.queue.config
    decreases |es|
  {
    if es != [] {
      ConfigKept(Step(h, es[0]), es[1..]);
    }
  }

  // ------------------------------------------------------------------ order

  /** At every pop that finds an unexpired item first, the queue was empty less than the idle expiration ago. */
  predicate NeverCongested<T>(h: History<T>, es: seq<Event<T>>)
    decreases |es|
  {
    es == [] ||
    (&& (es[0].PopEvent? && h.queue.buffer != [] && h.queue.buffer[0].deadline >= es[0].pop.now ==>
           es[0].pop.idleTest < h.queue.lastTimeEmpty + h.queue.config.idleExpiration)
     && NeverCongested(Step(h, es[0]), es[1..]))
  }

  /** Arrival numbers delivered so far, followed by those still buffered. */
  function OutThenIn<T>(h: History<T>): seq<nat> {
    DeliveredIds(h.delivered) + TagIds(h.tags)
  }

  lemma FifoStep<T>(h: History<T>, e: Event<T>)
    requires e.PopEvent? && h.queue.buffer != [] && h.queue.buffer[0].deadline >= e.pop.now ==>
               e.pop.idleTest < h.queue.lastTimeEmpty + h.queue.config.idleExpiration
    ensures |h.accepted| <= |Step(h, e).accepted|
    ensures OutThenIn(Step(h, e)) == OutThenIn(h) + Upto(|Step(h, e).accepted|)[|h.accepted|..]
  {
  }

  lemma UptoRanges(a: nat, b: nat, c: nat)
    requires a <= b <= c
    ensures Upto(b)[a..] + Upto(c)[b..] == Upto(c)[a..]
  {
  }

  lemma Regroup(a: seq<nat>, b: seq<nat>, c: seq<nat>)
    ensures (a + b) + c == a + (b + c)
  {
  }

  /**
   While the queue stays out of its congested mode, what comes out followed by what stays in is
   what was in followed by what came in: output order is input order.
   */
  lemma {:induction false} FirstInFirstOut<T>(h: History<T>, es: seq<Event<T>>)
    requires NeverCongested(h, es)
    ensures |h.accepted| <= |Run(h, es).accepted|
    ensures OutThenIn(Run(h, es)) == OutThenIn(h) + Upto(|Run(h, es).accepted|)[|h.accepted|..]
    decreases |es|
  {
    if es == [] {
      assert Upto(|h.accepted|)[|h.accepted|..] == [];
    } else {
      var m := Step(h, es[0]);
      FifoStep(h, es[0]);
      FirstInFirstOut(m, es[1..]);
      UptoRanges(|h.accepted|, |m.accepted|, |Run(h, es).accepted|);
      Regroup(OutThenIn(h), Upto(|m.accepted|)[|h.accepted|..], Upto(|Run(h, es).accepted|)[|m.accepted|..]);
    }
  }

  lemma PopsAnEnd<T>(h: History<T>, r: PopReadings)
    requires h.queue.buffer != []
    ensures
      var ds := Step(h, PopEvent(r)).delivered;
      && |ds| == |h.delivered| + 1 && ds[..|h.delivered|] == h.delivered
      && ds[|h.delivered|].id
      == if h.queue.buffer[0].deadline >= r.now
            && h.queue.lastTimeEmpty + h.queue.config.idleExpiration <= r.idleTest
         then h.tags[|h.tags| - 1].id else h.tags[0].id
  {
  }

  /** The arrival number a pop delivers is the largest buffered one when congested, else the smallest. */
  lemma NewestWhenCongested<T>(config: Config, created: int, es: seq<Event<T>>, r: PopReadings, i: nat)
    requires LegalRun(Start<T>(config, created), es) && i < |Run(Start<T>(config, created), es).tags|
    ensures
      var h := Run(Start<T>(config, created), es);
      var ds := Step(h, PopEvent(r)).delivered;
      && |ds| == |h.delivered| + 1 && ds[..|h.delivered|] == h.delivered
      && if h.queue.buffer[0].deadline >= r.now && h.queue.lastTimeEmpty + config.idleExpiration <= r.idleTest
         then h.tags[i].id <= ds[|h.delivered|].id
         else ds[|h.delivered|].id <= h.tags[i].id
  {
    RunOk(config, created, es);
    var h := Run(Start<T>(config, created), es);
    PopsAnEnd(h, r);
    TagsIncrease(h, 0, i);
    TagsIncrease(h, i, |h.tags| - 1);
  }

  lemma TagsIncrease<T>(h: History<T>, i: nat, j: nat)
    requires InOrder(h) && i <= j < |h.tags|
    ensures h.tags[i].id <= h.tags[j].id
  {
  }

  // ------------------------------------------------------------------ since when the queue is not empty

  lemma {:induction false} RunSnoc<T>(h: History<T>, es: seq<Event<T>>, e: Event<T>)
    ensures Run(h, es + [e]) == Step(Run(h, es), e)
    decreases |es|
  {
    if es == [] {
      assert (es + [e])[1..] == [];
    } else {
      RunSnoc(Step(h, es[0]), es[1..], e);
      assert (es + [e])[1..] == es[1..] + [e];
    }
  }

  /** Event `i` pushed into an empty queue, which has not been empty since. */
  ghost predicate FilledBy<T>(h: History<T>, es: seq<Event<T>>, i: nat) {
    && i < |es| && es[i].PushEvent? && Run(h, es[..i]).queue.buffer == []
    && forall j :: i < j <= |es| ==> Run(h, es[..j]).queue.buffer != []
  }

  /**
   The time by which a queue judges itself is that of the push that found it empty last; and a pop
   that empties it starts afresh.
   */
  lemma {:induction false} EmptyTimeIsOfLastFill<T>(h: History<T>, es: seq<Event<T>>)
    requires h.queue.buffer == []
    ensures Run(h, es).queue.buffer != [] ==>
              exists i: nat :: FilledBy(h, es, i) && Run(h, es).queue.lastTimeEmpty == es[i].push.refreshAgain
    ensures es != [] && es[|es| - 1].PopEvent? && Run(h, es).queue.buffer == [] ==>
              Run(h, es).queue.lastTimeEmpty == es[|es| - 1].pop.after
    decreases |es|
  {
    if es != [] {
      var n := |es| - 1;
      var past, e := es[..n], es[n];
      assert es == past + [e];
      RunSnoc(h, past, e);
      EmptyTimeIsOfLastFill(h, past);
      if Run(h, es).queue.buffer != [] {
        if Run(h, past).queue.buffer == [] {
          FilledNow(h, past, e);
        } else {
          var i: nat :| FilledBy(h, past, i) && Run(h, past).queue.lastTimeEmpty == past[i].push.refreshAgain;
          FilledBefore(h, past, e, i);
        }
      }
    }
  }

  lemma FilledNow<T>(h: History<T>, past: seq<Event<T>>, e: Event<T>)
    requires Run(h, past).queue.buffer == [] && Run(h, past + [e]).queue.buffer != []
    ensures FilledBy(h, past + [e], |past|) && Run(h, past + [e]).queue.lastTimeEmpty == e.push.refreshAgain
  {
    RunSnoc(h, past, e);
    var es := past + [e];
    assert es[..|past|] == past && es[..|es|] == es;
  }

  lemma FilledBefore<T>(h: History<T>, past: seq<Event<T>>, e: Event<T>, i: nat)
    requires FilledBy(h, past, i) && Run(h, past + [e]).queue.buffer != []
    ensures FilledBy(h, past + [e], i) && (past + [e])[i] == past[i]
    ensures Run(h, past + [e]).queue.lastTimeEmpty == Run(h, past).queue.lastTimeEmpty
  {
    RunSnoc(h, past, e);
    var es := past + [e];
    assert es[..i] == past[..i] && past[..|past|] == past && es[..|es|] == es;
    assert forall j :: i < j <= |past| ==> es[..j] == past[..j];
    assert Run(h, past[..|past|]).queue.buffer != [];
  }
}
