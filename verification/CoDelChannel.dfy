/**
 The queue as a channel of senders and receivers.  A receiver that finds nothing leaves a listener
 with the channel's event and sleeps; sends notify the oldest listener that waits.  A receiver that
 takes an item keeps its listener.
 */
module CoDelChannel {
  import opened Common
  import Q = CoDelQueue

  /**
   `waiting`: receivers whose listener waits, oldest first; `notified`: those whose listener was
   notified; `pending`: receivers that sleep.  `sawClosed`: a receiver was told of the end.
   */
  datatype Channel<T> = Channel(
    history: Q.History<T>, senders: nat, alive: set<nat>, next: nat,
    waiting: seq<nat>, notified: set<nat>, pending: set<nat>, sawClosed: bool)

  datatype Event<T> =
    | CloneSender
    | DropSender
    | TrySend(x: T, push: Q.PushReadings)
    | CloneReceiver
    | DropReceiver(i: nat)
    | Poll(i: nat, pop: Q.PopReadings)

  function Start<T>(config: Q.Config, created: int): Channel<T> {
    Channel(Q.Start<T>(config, created), 1, {0}, 1, [], {}, {}, false)
  }

  /** Cloning, dropping and sending need a sender, polling and dropping a receiver. */
  predicate Legal<T>(c: Channel<T>, e: Event<T>) {
    match e
    case CloneSender => c.senders > 0
    case DropSender => c.senders > 0
    case TrySend(x, r) => c.senders > 0 && Q.Legal(c.history, Q.PushEvent(x, r))
    case CloneReceiver => c.alive != {}
    case DropReceiver(i) => i in c.alive
    case Poll(i, r) => i in c.alive && Q.Legal(c.history, Q.PopEvent(r))
  }

  /** `notify_additional(1)`: one more listener, the oldest that waits. */
  function Notify<T>(c: Channel<T>): Channel<T> {
    if c.waiting == [] then c else c.(waiting := c.waiting[1..], notified := c.notified + {c.waiting[0]})
  }

  function Members(s: seq<nat>): set<nat> {
    set i | 0 <= i < |s| :: s[i]
  }

  function Remove(s: seq<nat>, x: nat): seq<nat> {
    if s == [] then [] else if s[0] == x then Remove(s[1..], x) else [s[0]] + Remove(s[1..], x)
  }

  /** A dropped listener that was notified passes the notification on. */
  function DropStep<T>(c: Channel<T>, i: nat): Channel<T> {
    var d := c.(alive := c.alive - {i}, waiting := Remove(c.waiting, i), notified := c.notified - {i},
                pending := c.pending - {i});
    if i in c.notified then Notify(d) else d
  }

  /** An item, the end, or sleep; a listener that was notified is replaced by one that waits. */
  function PollStep<T>(c: Channel<T>, i: nat, r: Q.PopReadings): Channel<T> {
    var d := c.(history := Q.Step(c.history, Q.PopEvent(r)));
    if c.history.queue.buffer != [] then d.(pending := c.pending - {i})
    else if c.senders == 0 then d.(pending := c.pending - {i}, sawClosed := true)
    else if i in c.waiting then d.(pending := c.pending + {i})
    else d.(waiting := c.waiting + [i], notified := c.notified - {i}, pending := c.pending + {i})
  }

  function Step<T>(c: Channel<T>, e: Event<T>): Channel<T>
    requires Legal(c, e)
  {
    match e
    case CloneSender => c.(senders := c.senders + 1)
    case DropSender =>
      if c.senders > 1 then c.(senders := c.senders - 1)
      else c.(senders := 0, waiting := [], notified := c.notified + Members(c.waiting))
    case TrySend(x, r) =>
      var d := c.(history := Q.Step(c.history, Q.PushEvent(x, r)));
      if Q.Full(c.history.queue) then d else Notify(d)
    case CloneReceiver => c.(alive := c.alive + {c.next}, next := c.next + 1)
    case DropReceiver(i) => DropStep(c, i)
    case Poll(i, r) => PollStep(c, i, r)
  }

  predicate LegalRun<T>(c: Channel<T>, es: seq<Event<T>>)
    decreases |es|
  {
    es == [] || (Legal(c, es[0]) && LegalRun(Step(c, es[0]), es[1..]))
  }

  function Run<T>(c: Channel<T>, es: seq<Event<T>>): Channel<T>
    requires LegalRun(c, es)
    decreases |es|
  {
    if es == [] then c else Run(Step(c, es[0]), es[1..])
  }

  // ------------------------------------------------------------------ the end of the stream

  ghost predicate Drained<T>(c: Channel<T>) {
    && Q.Shaped(c.history) && Q.Conserved(c.history)
    && (c.sawClosed ==> c.senders == 0 && c.history.queue.buffer == [])
  }

  lemma DrainedPoll<T>(c: Channel<T>, i: nat, r: Q.PopReadings)
    requires Drained(c) && Q.Legal(c.history, Q.PopEvent(r))
    ensures Drained(PollStep(c, i, r))
  {
    Q.ShapedStep(c.history, Q.PopEvent(r));
    Q.ConservedStep(c.history, Q.PopEvent(r));
  }

  lemma DrainedStep<T>(c: Channel<T>, e: Event<T>)
    requires Drained(c) && Legal(c, e)
    ensures Drained(Step(c, e))
  {
    match e
    case TrySend(x, r) => Q.ShapedStep(c.history, Q.PushEvent(x, r)); Q.ConservedStep(c.history, Q.PushEvent(x, r));
    case Poll(i, r) => DrainedPoll(c, i, r);
    case _ =>
  }

  lemma {:induction false} DrainedRun<T>(c: Channel<T>, es: seq<Event<T>>)
    requires Drained(c) && LegalRun(c, es)
    ensures Drained(Run(c, es))
    decreases |es|
  {
    if es != [] {
      DrainedStep(c, es[0]);
      DrainedRun(Step(c, es[0]), es[1..]);
    }
  }

  /** A receiver sees the end of the stream only after every accepted item was delivered, once. */
  lemma ClosedMeansDrained<T>(config: Q.Config, created: int, es: seq<Event<T>>)
    requires LegalRun(Start<T>(config, created), es) && Run(Start<T>(config, created), es).sawClosed
    ensures
      var c := Run(Start<T>(config, created), es);
      && c.senders == 0
      && multiset(Q.DeliveredIds(c.history.delivered)) == multiset(Upto(|c.history.accepted|))
  {
    Q.StartOk<T>(config, created);
    DrainedRun(Start<T>(config, created), es);
  }

  function HandleChange<T>(e: Event<T>): int {
    if e.CloneSender? then 1 else if e.DropSender? then -1 else 0
  }

  /** Clones less drops of the sender. */
  function Handles<T>(es: seq<Event<T>>): int {
    if es == [] then 0 else HandleChange(es[0]) + Handles(es[1..])
  }

  lemma {:induction false} SendersCounted<T>(c: Channel<T>, es: seq<Event<T>>)
    requires LegalRun(c, es)
    ensures Run(c, es).senders == c.senders + Handles(es)
    decreases |es|
  {
    if es != [] {
      SendersCounted(Step(c, es[0]), es[1..]);
    }
  }

  /**
   What a poll gives: an item as long as one is queued; then the end, exactly if every sender is gone;
   else sleep, with a listener that waits.
   */
  lemma PollGives<T>(config: Q.Config, created: int, es: seq<Event<T>>, i: nat, r: Q.PopReadings)
    requires LegalRun(Start<T>(config, created), es) && Legal(Run(Start<T>(config, created), es), Poll(i, r))
    ensures
      var c := Run(Start<T>(config, created), es);
      var d := Step(c, Poll(i, r));
      && |d.history.delivered| == |c.history.delivered| + (if c.history.queue.buffer != [] then 1 else 0)
      && (i in d.pending <==> c.history.queue.buffer == [] && 1 + Handles(es) > 0)
      && (i in d.pending ==> i in d.waiting)
      && (d.sawClosed <==> c.sawClosed || (c.history.queue.buffer == [] && 1 + Handles(es) == 0))
  {
    SendersCounted(Start<T>(config, created), es);
  }

  // ------------------------------------------------------------------ wake-ups

  /** Listeners belong to receivers, a listener waits or was notified, and a sleeper has one. */
  ghost predicate ListenersOk<T>(c: Channel<T>) {
    && Distinct(c.waiting)
    && (forall i :: i in c.waiting ==> i in c.alive && i !in c.notified)
    && c.notified <= c.alive
    && (forall i :: i in c.pending ==> i in c.waiting || i in c.notified)
    && (forall i :: i in c.alive ==> i < c.next)
    && (c.senders == 0 ==> c.waiting == [])
  }

  /** While a listener waits, there is a notified one for each item. */
  ghost predicate Covered<T>(c: Channel<T>) {
    c.waiting != [] ==> |c.history.queue.buffer| <= |c.notified|
  }

  lemma {:induction false} RemoveFacts(s: seq<nat>, x: nat)
    ensures forall y :: y in Remove(s, x) <==> y in s && y != x
    ensures Distinct(s) ==> Distinct(Remove(s, x))
  {
    if s != [] {
      RemoveFacts(s[1..], x);
      assert s == [s[0]] + s[1..];
      if Distinct(s) && s[0] != x {
        assert forall j :: 0 <= j < |Remove(s[1..], x)| ==> Remove(s[1..], x)[j] in s[1..];
      }
    }
  }

  lemma NotifyOk<T>(c: Channel<T>)
    requires ListenersOk(c)
    ensures ListenersOk(Notify(c))
    ensures c.waiting != [] ==> |Notify(c).notified| == |c.notified| + 1
  {
  }

  lemma DropOk<T>(c: Channel<T>, i: nat)
    requires ListenersOk(c) && i in c.alive
    ensures ListenersOk(DropStep(c, i))
    ensures Covered(c) ==> Covered(DropStep(c, i))
  {
    RemoveFacts(c.waiting, i);
    var d := c.(alive := c.alive - {i}, waiting := Remove(c.waiting, i), notified := c.notified - {i},
                pending := c.pending - {i});
    assert ListenersOk(d);
    NotifyOk(d);
    assert d.waiting != [] ==> d.waiting[0] in c.waiting;
  }

  lemma PopShrinks<T>(h: Q.History<T>, r: Q.PopReadings)
    ensures var n := |h.queue.buffer|; |Q.Step(h, Q.PopEvent(r)).queue.buffer| == if n == 0 then 0 else n - 1
  {
  }

  lemma PollOk<T>(c: Channel<T>, i: nat, r: Q.PopReadings)
    requires ListenersOk(c) && Covered(c) && i in c.alive
    ensures ListenersOk(PollStep(c, i, r)) && Covered(PollStep(c, i, r))
  {
    PopShrinks(c.history, r);
    if c.history.queue.buffer == [] && c.senders > 0 && i !in c.waiting {
      assert Distinct(c.waiting + [i]);
    }
  }

  lemma SendOk<T>(c: Channel<T>, x: T, r: Q.PushReadings)
    requires ListenersOk(c) && Covered(c) && Legal(c, TrySend(x, r))
    ensures ListenersOk(Step(c, TrySend(x, r))) && Covered(Step(c, TrySend(x, r)))
  {
    NotifyOk(c.(history := Q.Step(c.history, Q.PushEvent(x, r))));
  }

  lemma ListenersStep<T>(c: Channel<T>, e: Event<T>)
    requires ListenersOk(c) && Covered(c) && Legal(c, e)
    ensures ListenersOk(Step(c, e)) && Covered(Step(c, e))
  {
    match e
    case TrySend(x, r) => SendOk(c, x, r);
    case DropReceiver(i) => DropOk(c, i);
    case Poll(i, r) => PollOk(c, i, r);
    case _ =>
  }

  lemma {:induction false} ListenersRun<T>(c: Channel<T>, es: seq<Event<T>>)
    requires ListenersOk(c) && Covered(c) && LegalRun(c, es)
    ensures ListenersOk(Run(c, es)) && Covered(Run(c, es))
    decreases |es|
  {
    if es != [] {
      ListenersStep(c, es[0]);
      ListenersRun(Step(c, es[0]), es[1..]);
    }
  }

  /**
   On every run: while an item is queued and a receiver sleeps on a listener that waits, some listener
   has been notified; and when the last sender is gone, every sleeper has been notified.
   */
  lemma SomeoneIsNotified<T>(config: Q.Config, created: int, es: seq<Event<T>>, i: nat)
    requires LegalRun(Start<T>(config, created), es) && i in Run(Start<T>(config, created), es).pending
    ensures
      var c := Run(Start<T>(config, created), es);
      && (c.history.queue.buffer != [] ==> c.notified != {})
      && (c.senders == 0 ==> i in c.notified)
  {
    ListenersRun(Start<T>(config, created), es);
  }

  ghost predicate OneReceiver<T>(es: seq<Event<T>>) {
    forall i :: 0 <= i < |es| ==> !es[i].CloneReceiver?
  }

  lemma {:induction false} StaysOne<T>(c: Channel<T>, es: seq<Event<T>>)
    requires LegalRun(c, es) && OneReceiver(es) && c.alive <= {0}
    ensures Run(c, es).alive <= {0}
    decreases |es|
  {
    if es != [] {
      StaysOne(Step(c, es[0]), es[1..]);
    }
  }

  /** A single receiver never sleeps on with an item queued: it has been notified. */
  lemma OneReceiverIsWoken<T>(config: Q.Config, created: int, es: seq<Event<T>>)
    requires LegalRun(Start<T>(config, created), es) && OneReceiver(es)
    ensures
      var c := Run(Start<T>(config, created), es);
      c.pending != {} && c.history.queue.buffer != [] ==> c.pending == c.notified == {0}
  {
    ListenersRun(Start<T>(config, created), es);
    StaysOne(Start<T>(config, created), es);
    var c := Run(Start<T>(config, created), es);
    assert forall i :: i in c.pending ==> i in c.alive;
    if c.pending != {} && c.history.queue.buffer != [] {
      assert 0 in c.pending;
      assert c.notified != {};
    }
  }

  // ------------------------------------------------------------------ several receivers

  /** An item is taken by a receiver whose listener still waits, so that a listener waits for nobody. */
  predicate Steals<T>(c: Channel<T>, e: Event<T>) {
    e.Poll? && e.i in c.waiting && c.history.queue.buffer != []
  }

  predicate NeverSteals<T>(c: Channel<T>, es: seq<Event<T>>)
    requires LegalRun(c, es)
    decreases |es|
  {
    es == [] || (!Steals(c, es[0]) && NeverSteals(Step(c, es[0]), es[1..]))
  }

  /** Every waiting listener has a sleeper, and each item a sleeper that was notified. */
  ghost predicate SleepersCovered<T>(c: Channel<T>) {
    && (forall i :: i in c.waiting ==> i in c.pending)
    && (c.waiting != [] ==> |c.history.queue.buffer| <= |c.notified * c.pending|)
  }

  lemma NotifySleeper<T>(c: Channel<T>)
    requires ListenersOk(c) && c.waiting != [] && forall i :: i in c.waiting ==> i in c.pending
    ensures |Notify(c).notified * Notify(c).pending| == |c.notified * c.pending| + 1
    ensures forall i :: i in Notify(c).waiting ==> i in Notify(c).pending
  {
    var i := c.waiting[0];
    assert (c.notified + {i}) * c.pending == c.notified * c.pending + {i};
  }

  lemma SleepersSend<T>(c: Channel<T>, x: T, r: Q.PushReadings)
    requires ListenersOk(c) && SleepersCovered(c) && Legal(c, TrySend(x, r))
    ensures SleepersCovered(Step(c, TrySend(x, r)))
  {
    if c.waiting != [] {
      NotifySleeper(c.(history := Q.Step(c.history, Q.PushEvent(x, r))));
    }
  }

  lemma OneLess(a: set<nat>, i: nat)
    ensures |a - {i}| >= |a| - 1
  {
    assert i in a ==> a == (a - {i}) + {i};
  }

  lemma SleepersPoll<T>(c: Channel<T>, i: nat, r: Q.PopReadings)
    requires ListenersOk(c) && SleepersCovered(c) && Legal(c, Poll(i, r)) && !Steals(c, Poll(i, r))
    ensures SleepersCovered(PollStep(c, i, r))
  {
    PopShrinks(c.history, r);
    if c.history.queue.buffer != [] {
      assert c.notified * (c.pending - {i}) == c.notified * c.pending - {i};
      OneLess(c.notified * c.pending, i);
    }
  }

  lemma SleepersDrop<T>(c: Channel<T>, i: nat)
    requires ListenersOk(c) && SleepersCovered(c) && i in c.alive
    ensures SleepersCovered(DropStep(c, i))
  {
    RemoveFacts(c.waiting, i);
    DropOk(c, i);
    var d := c.(alive := c.alive - {i}, waiting := Remove(c.waiting, i), notified := c.notified - {i},
                pending := c.pending - {i});
    assert d.notified * d.pending == c.notified * c.pending - {i};
    assert d.waiting != [] ==> d.waiting[0] in c.waiting;
    if i in c.notified && d.waiting != [] {
      NotifySleeper(d);
    }
  }

  lemma SleepersStep<T>(c: Channel<T>, e: Event<T>)
    requires ListenersOk(c) && SleepersCovered(c) && Legal(c, e) && !Steals(c, e)
    ensures SleepersCovered(Step(c, e))
  {
    match e
    case TrySend(x, r) => SleepersSend(c, x, r);
    case DropReceiver(i) => SleepersDrop(c, i);
    case Poll(i, r) => SleepersPoll(c, i, r);
    case _ =>
  }

  lemma {:induction false} SleepersRun<T>(c: Channel<T>, es: seq<Event<T>>)
    requires ListenersOk(c) && Covered(c) && SleepersCovered(c) && LegalRun(c, es) && NeverSteals(c, es)
    ensures ListenersOk(Run(c, es)) && SleepersCovered(Run(c, es))
    decreases |es|
  {
    if es != [] {
      ListenersStep(c, es[0]);
      SleepersStep(c, es[0]);
      SleepersRun(Step(c, es[0]), es[1..]);
    }
  }

  /** With any number of receivers: if none steals, an item with a sleeper has a sleeper that was notified. */
  lemma ASleeperIsWoken<T>(config: Q.Config, created: int, es: seq<Event<T>>)
    requires LegalRun(Start<T>(config, created), es) && NeverSteals(Start<T>(config, created), es)
    ensures
      var c := Run(Start<T>(config, created), es);
      c.pending != {} && c.history.queue.buffer != [] ==> c.pending * c.notified != {}
  {
    SleepersRun(Start<T>(config, created), es);
    var c := Run(Start<T>(config, created), es);
    if c.pending != {} && c.history.queue.buffer != [] {
      var i :| i in c.pending;
      if i in c.waiting {
        assert |c.notified * c.pending| > 0;
        var j :| j in c.notified * c.pending;
        assert j in c.pending * c.notified;
      } else {
        assert i in c.pending * c.notified;
      }
    }
  }

  /** A listener left behind by a receiver that stole takes the next send's wake-up and wakes no sleeper. */
  lemma StolenListenerWakesNobody<T>(c: Channel<T>, x: T, r: Q.PushReadings)
    requires Legal(c, TrySend(x, r)) && !Q.Full(c.history.queue) && c.waiting != [] && c.waiting[0] !in c.pending
    requires c.pending * c.notified == {}
    ensures
      var d := Step(c, TrySend(x, r));
      d.history.queue.buffer != [] && d.pending == c.pending && d.pending * d.notified == {}
  {
  }

  lemma {:induction false} Chain<T>(c: Channel<T>, a: seq<Event<T>>, b: seq<Event<T>>)
    requires LegalRun(c, a) && LegalRun(Run(c, a), b)
    ensures LegalRun(c, a + b) && Run(c, a + b) == Run(Run(c, a), b)
    decreases |a|
  {
    if a == [] {
      assert a + b == b;
    } else {
      Chain(Step(c, a[0]), a[1..], b);
      assert (a + b)[1..] == a[1..] + b;
    }
  }

  lemma Prepend<T>(c: Channel<T>, e: Event<T>, es: seq<Event<T>>)
    requires Legal(c, e) && LegalRun(Step(c, e), es)
    ensures LegalRun(c, [e] + es) && Run(c, [e] + es) == Run(Step(c, e), es)
  {
    assert ([e] + es)[1..] == es;
  }

  lemma Then<T>(start: Channel<T>, es: seq<Event<T>>, c: Channel<T>, e: Event<T>)
    returns (es': seq<Event<T>>, c': Channel<T>)
    requires LegalRun(start, es) && Run(start, es) == c && Legal(c, e)
    ensures LegalRun(start, es') && Run(start, es') == c' && c' == Step(c, e)
  {
    Chain(start, es, [e]);
    es', c' := es + [e], Step(c, e);
  }

  /** `i` takes all that is queued, its listener waiting on. */
  lemma {:induction false} TakeAll<T>(c: Channel<T>, i: nat) returns (es: seq<Event<T>>, d: Channel<T>)
    requires i in c.waiting && i in c.alive && i !in c.pending
    ensures LegalRun(c, es) && Run(c, es) == d && d == c.(history := d.history)
    ensures d.history.queue.buffer == [] && d.history.queue.config == c.history.queue.config
    decreases |c.history.queue.buffer|
  {
    if c.history.queue.buffer == [] {
      es, d := [], c;
    } else {
      var t := c.history.clock;
      var r := Q.PopReadings(t, t, t, t);
      PopShrinks(c.history, r);
      var next := PollStep(c, i, r);
      assert next.pending == c.pending;
      var rest;
      rest, d := TakeAll(next, i);
      Prepend(c, Poll(i, r), rest);
      es := [Poll(i, r)] + rest;
    }
  }

  lemma PollEmpty<T>(c: Channel<T>, k: nat, r: Q.PopReadings) returns (d: Channel<T>)
    requires ListenersOk(c) && c.history.queue.buffer == [] && c.senders > 0 && k in c.notified
    requires r.From(c.history.clock)
    ensures Legal(c, Poll(k, r)) && d == Step(c, Poll(k, r)) && ListenersOk(d) && d.senders == c.senders
    ensures d.waiting == c.waiting + [k] && d.notified == c.notified - {k} && d.pending == c.pending + {k}
    ensures |d.notified| < |c.notified|
    ensures d.history.queue.buffer == [] && d.history.queue.config == c.history.queue.config
  {
    PollOk(c, k, r);
    d := PollStep(c, k, r);
  }

  lemma Behind(w: seq<nat>, k: nat, w': seq<nat>, ks: set<nat>)
    requires w + [k] <= w' && forall x :: x in ks - {k} ==> x in w'[|w| + 1..]
    ensures w <= w' && forall x :: x in ks ==> x in w'[|w|..]
  {
    assert w'[|w|] == (w + [k])[|w|] == k;
    assert w'[|w|..] == [k] + w'[|w| + 1..];
    assert w == (w + [k])[..|w|];
    forall x | x in ks ensures x in w'[|w|..] {
      assert x == k || x in ks - {k};
    }
  }

  /** Who was notified in `c` waits and sleeps in `d`, behind those who waited before. */
  ghost predicate Rested<T>(c: Channel<T>, d: Channel<T>) {
    && d.senders == c.senders && d.history.queue.buffer == [] && d.history.queue.config == c.history.queue.config
    && d.notified == {} && d.pending == c.pending + c.notified && c.waiting <= d.waiting
    && forall k :: k in c.notified ==> k in d.waiting[|c.waiting|..]
  }

  lemma RestedBefore<T>(c: Channel<T>, k: nat, next: Channel<T>, d: Channel<T>)
    requires k in c.notified && next.senders == c.senders && next.history.queue.config == c.history.queue.config
    requires next.waiting == c.waiting + [k] && next.notified == c.notified - {k} && next.pending == c.pending + {k}
    requires Rested(next, d)
    ensures Rested(c, d)
  {
    Behind(c.waiting, k, d.waiting, c.notified);
    assert d.pending == c.pending + c.notified;
  }

  /** Every notified receiver polls, finds nothing, and waits again at the end. */
  lemma {:induction false} WaitAgain<T>(c: Channel<T>) returns (es: seq<Event<T>>, d: Channel<T>)
    requires ListenersOk(c) && c.history.queue.buffer == [] && c.senders > 0
    ensures LegalRun(c, es) && Run(c, es) == d && ListenersOk(d) && Rested(c, d)
    decreases |c.notified|
  {
    if c.notified == {} {
      es, d := [], c;
    } else {
      var k :| k in c.notified;
      var t := c.history.clock;
      var r := Q.PopReadings(t, t, t, t);
      var next := PollEmpty(c, k, r);
      var rest;
      rest, d := WaitAgain(next);
      RestedBefore(c, k, next, d);
      Prepend(c, Poll(k, r), rest);
      es := [Poll(k, r)] + rest;
    }
  }

  /** Receivers that wait ahead of `i` go away. */
  lemma {:induction false} ToFront<T>(c: Channel<T>, i: nat, j: nat, a: nat, b: nat)
    returns (es: seq<Event<T>>, d: Channel<T>)
    requires ListenersOk(c) && c.notified == {} && i !in c.pending && j in c.pending
    requires a < b < |c.waiting| && c.waiting[a] == i && c.waiting[b] == j
    ensures LegalRun(c, es) && Run(c, es) == d && d.history == c.history && d.senders == c.senders
    ensures d.notified == {} && d.waiting != [] && d.waiting[0] == i && i !in d.pending && j in d.pending
    decreases a
  {
    if a == 0 {
      es, d := [], c;
    } else {
      var k := c.waiting[0];
      DropOk(c, k);
      DropFirst(c.waiting);
      assert k != i && k != j;
      var rest;
      rest, d := ToFront(DropStep(c, k), i, j, a - 1, b - 1);
      Prepend(c, DropReceiver(k), rest);
      es := [DropReceiver(k)] + rest;
    }
  }

  lemma {:induction false} RemoveAbsent(s: seq<nat>, x: nat)
    requires x !in s
    ensures Remove(s, x) == s
  {
    if s != [] {
      RemoveAbsent(s[1..], x);
    }
  }

  lemma DropFirst(s: seq<nat>)
    requires s != [] && Distinct(s)
    ensures Remove(s, s[0]) == s[1..]
  {
    RemoveAbsent(s[1..], s[0]);
  }

  ghost predicate Overlooked<T>(c: Channel<T>) {
    c.pending != {} && c.history.queue.buffer != [] && c.pending * c.notified == {}
  }

  /** A receiver that stole and one that was notified: the latter goes to sleep behind the former's listener. */
  lemma SleepBehind<T>(c: Channel<T>, i: nat) returns (es: seq<Event<T>>, d: Channel<T>)
    requires ListenersOk(c) && i in c.waiting && i !in c.pending && c.notified != {}
    ensures LegalRun(c, es) && Run(c, es) == d && d.senders > 0
    ensures d.history.queue.buffer == [] && d.history.queue.config == c.history.queue.config
    ensures d.notified == {} && d.waiting != [] && d.waiting[0] !in d.pending && d.pending != {}
  {
    var e1, d1 := TakeAll(c, i);
    assert ListenersOk(d1);
    var e2, d2 := WaitAgain(d1);
    Chain(c, e1, e2);
    var j :| j in c.notified;
    var a :| 0 <= a < |c.waiting| && c.waiting[a] == i;
    var b :| |c.waiting| <= b < |d2.waiting| && d2.waiting[b] == j;
    assert d2.waiting[a] == i;
    var e3;
    e3, d := ToFront(d2, i, j, a, b);
    Chain(c, e1 + e2, e3);
    es := e1 + e2 + e3;
  }

  /** The condition is exact: after any steal, a later item can find every sleeper overlooked. */
  lemma StealOverlooks<T>(config: Q.Config, created: int, es: seq<Event<T>>, e: Event<T>, x: T)
    returns (fs: seq<Event<T>>, d: Channel<T>)
    requires LegalRun(Start<T>(config, created), es)
    requires Legal(Run(Start<T>(config, created), es), e) && Steals(Run(Start<T>(config, created), es), e)
    ensures
      var c := Step(Run(Start<T>(config, created), es), e);
      LegalRun(c, fs) && Run(c, fs) == d && Overlooked(d)
  {
    ListenersRun(Start<T>(config, created), es);
    Q.StartOk<T>(config, created);
    DrainedRun(Start<T>(config, created), es);
    var before := Run(Start<T>(config, created), es);
    var c := Step(before, e);
    ListenersStep(before, e);
    var mid;
    fs, mid := SleepBehind(c, e.i);
    var t := mid.history.clock;
    var r := Q.PushReadings(t, t, t, t);
    StolenListenerWakesNobody(mid, x, r);
    fs, d := Then(c, fs, mid, TrySend(x, r));
  }

  /** Two receivers asleep, one of them notified. */
  lemma TwoAsleep(start: Channel<nat>) returns (es: seq<Event<nat>>, c: Channel<nat>)
    requires start.history.queue.config.capacity > 0 && start == Start<nat>(start.history.queue.config, 0)
    ensures LegalRun(start, es) && Run(start, es) == c
    ensures 1 in c.alive && c.waiting == [1] && c.notified == {0}
    ensures c.history.queue.buffer != [] && c.history.clock == 0
  {
    var r := Q.PopReadings(0, 0, 0, 0);
    es, c := Then(start, [], start, CloneReceiver);
    assert c.alive == {0, 1};
    es, c := Then(start, es, c, Poll(0, r));
    es, c := Then(start, es, c, Poll(1, r));
    es, c := Then(start, es, c, TrySend(7, Q.PushReadings(0, 0, 0, 0)));
  }

  /** With two receivers one can sleep on beside a queued item, the wake-up gone to the other. */
  lemma SleeperOverlooked(config: Q.Config) returns (es: seq<Event<nat>>, c: Channel<nat>)
    requires config.capacity > 0
    ensures LegalRun(Start<nat>(config, 0), es) && Run(Start<nat>(config, 0), es) == c && Overlooked(c)
  {
    var start := Start<nat>(config, 0);
    es, c := TwoAsleep(start);
    var steal := Poll(1, Q.PopReadings(0, 0, 0, 0));
    var fs, d := StealOverlooks(config, 0, es, steal, 8);
    es, c := Then(start, es, c, steal);
    Chain(start, es, fs);
    es, c := es + fs, d;
  }
}
