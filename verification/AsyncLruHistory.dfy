/**
 What the cache did, told from the history of a run: in which order its slots were last used, what
 each request broadcast, and what each client was told.
 */
module AsyncLruHistory {
  import opened Common
  import opened LruCache
  import opened Q = CoDelQueue
  import opened AsyncLru

  // ------------------------------------------------------------------ runs with all their states

  ghost predicate Path<K, V>(ss: seq<State<K, V>>, es: seq<AsyncLru.Event<K, V>>) {
    && |ss| == |es| + 1
    && forall i :: 0 <= i < |es| ==> AsyncLru.Legal(ss[i], es[i]) && ss[i + 1] == AsyncLru.Step(ss[i], es[i])
  }

  ghost predicate History<K, V>(u: Setup, ss: seq<State<K, V>>, es: seq<AsyncLru.Event<K, V>>) {
    Path(ss, es) && ss[0] == AsyncLru.Start(u)
  }

  lemma PathCons<K, V>(s: State<K, V>, es: seq<AsyncLru.Event<K, V>>, rest: seq<State<K, V>>)
    requires es != [] && AsyncLru.Legal(s, es[0]) && Path(rest, es[1..]) && rest[0] == AsyncLru.Step(s, es[0])
    ensures Path([s] + rest, es)
  {
    var ss := [s] + rest;
    forall i | 0 <= i < |es| ensures AsyncLru.Legal(ss[i], es[i]) && ss[i + 1] == AsyncLru.Step(ss[i], es[i]) {
      if i > 0 {
        assert ss[i] == rest[i - 1] && ss[i + 1] == rest[i] && es[i] == es[1..][i - 1];
      }
    }
  }

  lemma StepAt<K, V>(ss: seq<State<K, V>>, es: seq<AsyncLru.Event<K, V>>, i: nat)
    requires Path(ss, es) && i < |es|
    ensures AsyncLru.Legal(ss[i], es[i]) && ss[i + 1] == AsyncLru.Step(ss[i], es[i])
  {
  }

  /** Every run has a history. */
  lemma {:induction false} HistoryOf<K, V>(s: State<K, V>, es: seq<AsyncLru.Event<K, V>>) returns (ss: seq<State<K, V>>)
    requires AsyncLru.LegalRun(s, es)
    ensures Path(ss, es) && ss[0] == s && ss[|es|] == AsyncLru.Run(s, es)
    decreases |es|
  {
    if es == [] {
      ss := [s];
    } else {
      var rest := HistoryOf(AsyncLru.Step(s, es[0]), es[1..]);
      PathCons(s, es, rest);
      ss := [s] + rest;
    }
  }

  lemma {:induction false} InvAlong<K, V>(u: Setup, ss: seq<State<K, V>>, es: seq<AsyncLru.Event<K, V>>, n: nat)
    requires History(u, ss, es) && n <= |es|
    ensures Inv(ss[n])
  {
    if n == 0 {
      InvFromStart<K, V>(u, []);
    } else {
      InvAlong(u, ss, es, n - 1);
      InvStep(ss[n - 1], es[n - 1]);
    }
  }

  // ------------------------------------------------------------------ recency

  /** The key a step reads, asks for or stores: that of a get that is not refused, or of a value stored. */
  ghost function UsedKey<K, V>(s: State<K, V>, e: AsyncLru.Event<K, V>): Option<K>
    requires AsyncLru.Legal(s, e)
  {
    match e
    case Get(k, _) =>
      if Find(s.cache.slots, k).None? && |s.queue.buffer| >= s.queue.config.capacity then None else Some(k)
    case ApplyNext(id) =>
      var p := s.requests[id].phase.rest[0];
      if p.made.Value? then Some(p.key) else None
    case _ => None
  }

  /** The keys used by the first `n` events. */
  ghost function Used<K, V>(ss: seq<State<K, V>>, es: seq<AsyncLru.Event<K, V>>, n: nat): (log: seq<Option<K>>)
    requires Path(ss, es) && n <= |es|
    ensures |log| == n && forall i :: 0 <= i < n ==> log[i] == UsedKey(ss[i], es[i])
  {
    if n == 0 then [] else Used(ss, es, n - 1) + [UsedKey(ss[n - 1], es[n - 1])]
  }

  /** Key `b` has been used since key `a` was last used. */
  ghost predicate UsedSince<K>(log: seq<Option<K>>, a: K, b: K) {
    exists i :: 0 <= i < |log| && log[i] == Some(b) && forall j :: i <= j < |log| ==> log[j] != Some(a)
  }

  lemma PutOrder<K, V>(slots: seq<Slot<K, V>>, k: K, e: Entry<V>, i: nat, j: nat)
    requires OneSlotPerKey(slots) && i < j < |PutSlots(slots, k, e)|
    ensures
      var t := PutSlots(slots, k, e);
      t[i].key != k && (t[j].key == k || Ahead(slots, t[i].key, t[j].key))
  {
    WithoutKeepsOthers(slots, k);
    var rest := Without(slots, k);
    assert rest[i] in rest;
    if j < |rest| {
      WithoutOrder(slots, k, i, j);
    }
  }

  lemma SameOrder<K, V>(slots: seq<Slot<K, V>>, i: nat, j: nat)
    requires i < j < |slots|
    ensures Ahead(slots, slots[i].key, slots[j].key)
  {
  }

  /** What a step does to the order of two slots. */
  ghost predicate KeepsOrder<K, V>(s: State<K, V>, e: AsyncLru.Event<K, V>, i: nat, j: nat)
    requires AsyncLru.Legal(s, e) && i < j < |AsyncLru.Step(s, e).cache.slots|
  {
    var t := AsyncLru.Step(s, e).cache.slots;
    && UsedKey(s, e) != Some(t[i].key)
    && (UsedKey(s, e) == Some(t[j].key) || Ahead(s.cache.slots, t[i].key, t[j].key))
  }

  lemma OrderGet<K, V>(s: State<K, V>, e: AsyncLru.Event<K, V>, i: nat, j: nat)
    requires Inv(s) && AsyncLru.Legal(s, e) && e.Get? && i < j < |AsyncLru.Step(s, e).cache.slots|
    ensures KeepsOrder(s, e, i, j)
  {
    var k := e.key;
    FindIsMember(s.cache.slots, k);
    match Find(s.cache.slots, k) {
      case Some(x) => PutOrder(s.cache.slots, k, x, i, j);
      case None =>
        if |s.queue.buffer| < s.queue.config.capacity {
          PutOrder(s.cache.slots, k, Waiting(|s.requests|), i, j);
        } else {
          SameOrder(s.cache.slots, i, j);
        }
    }
  }

  lemma UpdateOrder<K, V>(c: Cache<K, V>, k: K, v: V, size: nat, i: nat, j: nat)
    requires OneSlotPerKey(c.slots) && i < j < |Update(c, k, Value(v, size)).slots|
    ensures
      var t := Update(c, k, Value(v, size)).slots;
      t[i].key != k && (t[j].key == k || Ahead(c.slots, t[i].key, t[j].key))
  {
    var stored := Stored(c, k, v, size);
    var n := Evictions(stored.slots, Leak(stored), stored.maxSize);
    PutOrder(c.slots, k, Ready(v, size), n + i, n + j);
  }

  lemma OrderStore<K, V>(s: State<K, V>, e: AsyncLru.Event<K, V>, i: nat, j: nat)
    requires Inv(s) && AsyncLru.Legal(s, e) && e.ApplyNext? && s.requests[e.id].phase.rest[0].made.Value?
    requires i < j < |AsyncLru.Step(s, e).cache.slots|
    ensures KeepsOrder(s, e, i, j)
  {
    var p := s.requests[e.id].phase.rest[0];
    UpdateOrder(s.cache, p.key, p.made.value, p.made.size, i, j);
  }

  lemma OrderRemove<K, V>(slots: seq<Slot<K, V>>, k: K, i: nat, j: nat)
    requires i < j < |Without(slots, k)|
    ensures Ahead(slots, Without(slots, k)[i].key, Without(slots, k)[j].key)
  {
    WithoutOrder(slots, k, i, j);
  }

  lemma OrderStep<K, V>(s: State<K, V>, e: AsyncLru.Event<K, V>, i: nat, j: nat)
    requires Inv(s) && AsyncLru.Legal(s, e) && i < j < |AsyncLru.Step(s, e).cache.slots|
    ensures KeepsOrder(s, e, i, j)
  {
    if e.Get? {
      OrderGet(s, e, i, j);
    } else if e.ApplyNext? && s.requests[e.id].phase.rest[0].made.Value? {
      OrderStore(s, e, i, j);
    } else {
      var t := AsyncLru.Step(s, e).cache.slots;
      if t == s.cache.slots {
        SameOrder(t, i, j);
      } else if e.ApplyNext? {
        OrderRemove(s.cache.slots, s.requests[e.id].phase.rest[0].key, i, j);
      } else {
        OrderRemove(s.cache.slots, s.requests[e.id].key, i, j);
      }
    }
  }

  lemma StillSince<K>(log: seq<Option<K>>, used: Option<K>, a: K, b: K)
    requires used != Some(a) && (UsedSince(log, a, b) || used == Some(b))
    ensures UsedSince(log + [used], a, b)
  {
    var longer := log + [used];
    if used == Some(b) {
      assert longer[|log|] == Some(b);
    } else {
      var i :| 0 <= i < |log| && log[i] == Some(b) && forall j :: i <= j < |log| ==> log[j] != Some(a);
      assert longer[i] == Some(b);
    }
  }

  /** On every run, at any time, the slots stand in the order in which their keys were last used. */
  lemma {:induction false} SlotsInOrderOfUse<K, V>(u: Setup, ss: seq<State<K, V>>, es: seq<AsyncLru.Event<K, V>>,
                                                   n: nat, i: nat, j: nat)
    requires History(u, ss, es) && n <= |es| && i < j < |ss[n].cache.slots|
    ensures UsedSince(Used(ss, es, n), ss[n].cache.slots[i].key, ss[n].cache.slots[j].key)
    decreases n
  {
    if n > 0 {
      var m := n - 1;
      InvAlong(u, ss, es, m);
      var before := ss[m].cache.slots;
      var a, b := ss[n].cache.slots[i].key, ss[n].cache.slots[j].key;
      OrderStep(ss[m], es[m], i, j);
      if UsedKey(ss[m], es[m]) != Some(b) {
        var x, y :| 0 <= x < y < |before| && before[x].key == a && before[y].key == b;
        SlotsInOrderOfUse(u, ss, es, m, x, y);
      }
      StillSince(Used(ss, es, m), UsedKey(ss[m], es[m]), a, b);
    }
  }

  /** Storing keeps the other slots in order. */
  lemma PutKeepsOrder<K, V>(slots: seq<Slot<K, V>>, k: K, e: Entry<V>, q: nat, p: nat) returns (a: nat, b: nat)
    requires OneSlotPerKey(slots) && q < p < |slots| && slots[p].key != k && slots[q].key != k
    ensures a < b < |PutSlots(slots, k, e)|
    ensures PutSlots(slots, k, e)[a] == slots[q] && PutSlots(slots, k, e)[b] == slots[p]
  {
    WithoutKeepsOthers(slots, k);
    var rest := Without(slots, k);
    a :| 0 <= a < |rest| && rest[a] == slots[q];
    b :| 0 <= b < |rest| && rest[b] == slots[p];
    if b <= a {
      WithoutAhead(slots, k, b, a, p, q);
    }
  }

  lemma WithoutAhead<K, V>(slots: seq<Slot<K, V>>, k: K, b: nat, a: nat, p: nat, q: nat)
    requires OneSlotPerKey(slots) && p < |slots| && q < |slots| && b <= a < |Without(slots, k)|
    requires Without(slots, k)[a] == slots[q] && Without(slots, k)[b] == slots[p]
    ensures p <= q
  {
    if b < a {
      WithoutOrder(slots, k, b, a);
    }
  }

  lemma SuffixHas<K, V>(slots: seq<Slot<K, V>>, n: nat, a: nat, b: nat)
    requires OneSlotPerKey(slots) && n <= |slots| && a < b < |slots| && slots[a] in slots[n..]
    ensures slots[b] in slots[n..]
  {
    var m :| 0 <= m < |slots[n..]| && slots[n..][m] == slots[a];
    assert slots[n + m].key == slots[a].key;
    assert slots[n..][b - n] == slots[b];
  }

  /**
   On every run, when a store evicts one key and keeps another, the one it keeps has been used since
   the evicted one was last used.
   */
  lemma EvictsLeastRecentlyUsed<K, V>(u: Setup, ss: seq<State<K, V>>, es: seq<AsyncLru.Event<K, V>>, n: nat,
                                      p: nat, q: nat)
    requires History(u, ss, es) && n < |es| && es[n].ApplyNext?
    requires
      var before, after := ss[n].cache.slots, ss[n + 1].cache.slots;
      var k := ss[n].requests[es[n].id].phase.rest[0].key;
      && p < |before| && q < |before| && before[p].key != k && before[q].key != k
      && before[p] !in after && before[q] in after
    ensures UsedSince(Used(ss, es, n), ss[n].cache.slots[p].key, ss[n].cache.slots[q].key)
  {
    var s := ss[n];
    InvAlong(u, ss, es, n);
    var x := s.requests[es[n].id].phase.rest[0];
    if x.made.Failure? {
      WithoutKeepsOthers(s.cache.slots, x.key);
      assert false;
    } else if p < q {
      SlotsInOrderOfUse(u, ss, es, n, p, q);
    } else {
      SuffixKept(s.cache, x.key, x.made.value, x.made.size, q, p);
      assert false;
    }
  }

  /** What stands behind a slot that survives a store survives it, too. */
  lemma SuffixKept<K, V>(c: Cache<K, V>, k: K, v: V, size: nat, q: nat, p: nat)
    requires Valid(c) && q <= p < |c.slots| && c.slots[p].key != k && c.slots[q].key != k
    requires c.slots[q] in Update(c, k, Value(v, size)).slots
    ensures c.slots[p] in Update(c, k, Value(v, size)).slots
  {
    if q < p {
      var a, b := PutKeepsOrder(c.slots, k, Ready(v, size), q, p);
      PutFacts(c.slots, k, Ready(v, size));
      var stored := Stored(c, k, v, size);
      SuffixHas(stored.slots, Evictions(stored.slots, Leak(stored), stored.maxSize), a, b);
    }
  }

  // ------------------------------------------------------------------ what is broadcast

  /** The outcome tells what the generator made of the request's own key. */
  ghost predicate Tells<K, V>(q: Request<K, V>, o: Outcome<V>) {
    q.made.Some? && exists i :: 0 <= i < |q.made.value| && TellsAt(q, i, o)
  }

  ghost predicate TellsAt<K, V>(q: Request<K, V>, i: nat, o: Outcome<V>)
    requires q.made.Some? && i < |q.made.value|
  {
    var p := q.made.value[i];
    && p.key == q.key
    && (p.made.Value? ==> o == Ok(p.made.value))
    && (p.made.Failure? ==> o == Err(GeneratorFailed))
  }

  /** What is left to apply is the rest of what the generator made. */
  ghost predicate RestOf<K, V>(q: Request<K, V>) {
    && q.phase.Applying? && q.made.Some? && |q.phase.rest| <= |q.made.value|
    && q.phase.rest == q.made.value[|q.made.value| - |q.phase.rest|..]
  }

  ghost predicate AnswerOk<K, V>(q: Request<K, V>) {
    && (q.made.Some? ==> DistinctKeys(q.made.value))
    && (q.phase.Applying? ==> RestOf(q))
    && (q.phase.Applying? && q.phase.toSend.Some? ==> Tells(q, q.phase.toSend.value))
    && (q.sent != [] ==> if q.made.Some? then Tells(q, q.sent[0]) else q.sent[0] == Err(ExpiredInQueue))
  }

  ghost predicate AnswersOk<K, V>(s: State<K, V>) {
    forall id :: 0 <= id < |s.requests| ==> AnswerOk(s.requests[id])
  }

  lemma AnswerApplied<K, V>(q: Request<K, V>, t: Request<K, V>)
    requires AnswerOk(q) && q.phase.Applying? && q.phase.rest != [] && q.phase.toSend.None?
    requires
      var p := q.phase.rest[0];
      t == q.(phase := Applying(q.phase.rest[1..], if p.key == q.key then Some(ToOutcome(p.made)) else None))
    ensures AnswerOk(t)
  {
    var d := |q.made.value| - |q.phase.rest|;
    assert q.made.value[d] == q.phase.rest[0];
    assert t.phase.rest == q.made.value[d + 1..];
    if t.phase.toSend.Some? {
      assert TellsAt(t, d, t.phase.toSend.value);
    }
    SameTelling(q, t);
  }

  /** Telling depends on what was made and for which key. */
  lemma SameTelling<K, V>(q: Request<K, V>, t: Request<K, V>)
    requires t.made == q.made && t.key == q.key
    ensures forall o :: Tells(q, o) ==> Tells(t, o)
  {
    forall o | Tells(q, o) ensures Tells(t, o) {
      var i :| 0 <= i < |q.made.value| && TellsAt(q, i, o);
      assert TellsAt(t, i, o);
    }
  }

  lemma AnswerChange<K, V>(s: State<K, V>, t: State<K, V>, id: nat)
    requires AnswersOk(s) && id < |s.requests| == |t.requests| && t.requests == s.requests[id := t.requests[id]]
    requires AnswerOk(t.requests[id])
    ensures AnswersOk(t)
  {
  }

  lemma AnswerBroadcast<K, V>(s: State<K, V>, id: nat)
    requires Inv(s) && AnswersOk(s) && AsyncLru.Legal(s, Broadcast(id))
    ensures AnswersOk(BroadcastStep(s, id))
  {
    var q, t := s.requests[id], BroadcastStep(s, id);
    assert RequestOk(q) && AnswerOk(q);
    assert q.sent == [];
    SameTelling(q, t.requests[id]);
    AnswerChange(s, t, id);
  }

  lemma AnswersStep<K, V>(s: State<K, V>, e: AsyncLru.Event<K, V>)
    requires Inv(s) && AnswersOk(s) && AsyncLru.Legal(s, e)
    ensures AnswersOk(AsyncLru.Step(s, e))
  {
    var t := AsyncLru.Step(s, e);
    match e {
      case Get(k, r) =>
      case TakeRequest(r) =>
        if s.queue.buffer != [] {
          TakenIsQueued(s, r);
          var id := PopResult(s.queue, r).value.value;
          assert AnswerOk(s.requests[id]);
          assert RequestOk(s.requests[id]);
          AnswerChange(s, t, id);
        }
      case GeneratorDone(id, made) =>
        assert RequestOk(s.requests[id]);
        AnswerChange(s, t, id);
      case ApplyNext(id) => AnswerApplied(s.requests[id], t.requests[id]); AnswerChange(s, t, id);
      case Broadcast(id) => AnswerBroadcast(s, id);
      case FinishLoop(id) => SameTelling(s.requests[id], t.requests[id]); AnswerChange(s, t, id);
      case DropExpired(id) => SameTelling(s.requests[id], t.requests[id]); AnswerChange(s, t, id);
      case Receive(c) =>
    }
  }

  lemma AnswersNext<K, V>(ss: seq<State<K, V>>, es: seq<AsyncLru.Event<K, V>>, n: nat)
    requires Path(ss, es) && n < |es| && Inv(ss[n]) && AnswersOk(ss[n])
    ensures AnswersOk(ss[n + 1])
  {
    StepAt(ss, es, n);
    AnswersStep(ss[n], es[n]);
  }

  lemma {:induction false} AnswersAlong<K, V>(u: Setup, ss: seq<State<K, V>>, es: seq<AsyncLru.Event<K, V>>, n: nat)
    requires History(u, ss, es) && n <= |es|
    ensures AnswersOk(ss[n])
  {
    if n == 0 {
      assert ss[0].requests == [];
    } else {
      AnswersAlong(u, ss, es, n - 1);
      InvAlong(u, ss, es, n - 1);
      AnswersNext(ss, es, n - 1);
    }
  }

  /** What the first `n` events applied for the request, in order. */
  ghost function AppliedBy<K, V>(ss: seq<State<K, V>>, es: seq<AsyncLru.Event<K, V>>, n: nat, id: nat)
      : seq<Produced<K, V>>
    requires Path(ss, es) && n <= |es|
  {
    if n == 0 then []
    else
      var past := AppliedBy(ss, es, n - 1, id);
      if es[n - 1] == ApplyNext(id) then past + [ss[n - 1].requests[id].phase.rest[0]] else past
  }

  /** All that was made for a request has been applied, but for what it still has ahead. */
  ghost predicate AppliedOk<K, V>(s: State<K, V>, id: nat, applied: seq<Produced<K, V>>) {
    if id < |s.requests| && s.requests[id].made.Some? then
      var ahead := if s.requests[id].phase.Applying? then s.requests[id].phase.rest else [];
      applied + ahead == s.requests[id].made.value
    else applied == []
  }

  lemma AppliedEntry<K, V>(s: State<K, V>, id: nat, applied: seq<Produced<K, V>>)
    requires AsyncLru.Legal(s, ApplyNext(id)) && s.requests[id].made.Some? && AppliedOk(s, id, applied)
    ensures AppliedOk(ApplyStep(s, id), id, applied + [s.requests[id].phase.rest[0]])
  {
    var rest := s.requests[id].phase.rest;
    assert applied + rest == applied + [rest[0]] + rest[1..];
  }

  lemma AppliedOwn<K, V>(s: State<K, V>, e: AsyncLru.Event<K, V>, id: nat, applied: seq<Produced<K, V>>)
    requires Inv(s) && AsyncLru.Legal(s, e) && AppliedOk(s, id, applied)
    requires e == Broadcast(id) || e == FinishLoop(id) || e == DropExpired(id) || (e.GeneratorDone? && e.id == id)
    ensures AppliedOk(AsyncLru.Step(s, e), id, applied)
  {
    assert RequestOk(s.requests[id]);
  }

  /** An event that is not the request's own. */
  lemma AppliedOther<K, V>(s: State<K, V>, e: AsyncLru.Event<K, V>, id: nat)
    requires AsyncLru.Legal(s, e) && !e.TakeRequest? && (e.Get? || e.Receive? || e.id != id)
    ensures
      var t := AsyncLru.Step(s, e);
      && |s.requests| <= |t.requests|
      && (id < |s.requests| ==> t.requests[id] == s.requests[id])
      && (|s.requests| <= id < |t.requests| ==> t.requests[id].made.None?)
  {
  }

  lemma AppliedStep<K, V>(s: State<K, V>, e: AsyncLru.Event<K, V>, id: nat, applied: seq<Produced<K, V>>)
    requires Inv(s) && AsyncLru.Legal(s, e) && AppliedOk(s, id, applied) && !e.TakeRequest?
    ensures AppliedOk(AsyncLru.Step(s, e), id,
                      if e == ApplyNext(id) then applied + [s.requests[id].phase.rest[0]] else applied)
  {
    if e == ApplyNext(id) {
      assert RequestOk(s.requests[id]);
      AppliedEntry(s, id, applied);
    } else if e.Get? || e.Receive? || e.id != id {
      AppliedOther(s, e, id);
    } else {
      AppliedOwn(s, e, id, applied);
    }
  }

  lemma AppliedTake<K, V>(s: State<K, V>, r: PopReadings, id: nat, applied: seq<Produced<K, V>>)
    requires Inv(s) && AppliedOk(s, id, applied)
    ensures AppliedOk(AsyncLru.TakeStep(s, r), id, applied)
  {
    if s.queue.buffer != [] {
      TakenIsQueued(s, r);
      assert RequestOk(s.requests[PopResult(s.queue, r).value.value]);
    }
  }

  lemma AppliedNext<K, V>(ss: seq<State<K, V>>, es: seq<AsyncLru.Event<K, V>>, n: nat, id: nat)
    requires Path(ss, es) && n < |es| && Inv(ss[n]) && AppliedOk(ss[n], id, AppliedBy(ss, es, n, id))
    ensures AppliedOk(ss[n + 1], id, AppliedBy(ss, es, n + 1, id))
  {
    StepAt(ss, es, n);
    var applied := AppliedBy(ss, es, n, id);
    if es[n].TakeRequest? {
      AppliedTake(ss[n], es[n].pop, id, applied);
    } else {
      AppliedStep(ss[n], es[n], id, applied);
    }
  }

  lemma {:induction false} AppliedAlong<K, V>(u: Setup, ss: seq<State<K, V>>, es: seq<AsyncLru.Event<K, V>>, n: nat,
                                              id: nat)
    requires History(u, ss, es) && n <= |es|
    ensures AppliedOk(ss[n], id, AppliedBy(ss, es, n, id))
  {
    if n == 0 {
      assert ss[0].requests == [];
    } else {
      AppliedAlong(u, ss, es, n - 1, id);
      InvAlong(u, ss, es, n - 1);
      AppliedNext(ss, es, n - 1, id);
    }
  }

  /** On every run a request that has finished has applied all its generator made, each entry once, in order. */
  lemma AppliesAllThatWasMade<K, V>(u: Setup, ss: seq<State<K, V>>, es: seq<AsyncLru.Event<K, V>>, n: nat, id: nat)
    requires History(u, ss, es) && n <= |es| && id < |ss[n].requests| && ss[n].requests[id].phase.Finished?
    ensures AppliedBy(ss, es, n, id) == if ss[n].requests[id].made.Some? then ss[n].requests[id].made.value else []
  {
    AppliedAlong(u, ss, es, n, id);
    assert AppliedBy(ss, es, n, id) + [] == AppliedBy(ss, es, n, id);
  }

  // ------------------------------------------------------------------ who expires

  /** The request was taken from the queue by event `i`, past its deadline. */
  ghost predicate TakenLateAt<K, V>(ss: seq<State<K, V>>, es: seq<AsyncLru.Event<K, V>>, i: nat, id: nat)
    requires Path(ss, es) && i < |es|
  {
    es[i].TakeRequest? && Leaves(ss[i].queue, ss[i + 1].queue, id, es[i].pop.now, true)
  }

  ghost predicate TakenLate<K, V>(ss: seq<State<K, V>>, es: seq<AsyncLru.Event<K, V>>, n: nat, id: nat)
    requires Path(ss, es) && n <= |es|
  {
    exists i :: 0 <= i < n && TakenLateAt(ss, es, i, id)
  }

  /** Past the queue without a generator. */
  ghost predicate Discarded<K, V>(q: Request<K, V>) {
    q.phase.Expired? || q.phase.ExpiredDropped? || (q.phase.Finished? && q.made.None?)
  }

  ghost predicate Late<K, V>(s: State<K, V>, id: nat) {
    id < |s.requests| && Discarded(s.requests[id])
  }

  lemma LateSnoc<K, V>(ss: seq<State<K, V>>, es: seq<AsyncLru.Event<K, V>>, n: nat, id: nat)
    requires Path(ss, es) && n < |es|
    ensures TakenLate(ss, es, n + 1, id) <==> TakenLate(ss, es, n, id) || TakenLateAt(ss, es, n, id)
  {
    if TakenLate(ss, es, n, id) {
      var i :| 0 <= i < n && TakenLateAt(ss, es, i, id);
      assert TakenLateAt(ss, es, i, id);
    }
  }

  lemma {:induction false} LateAlong<K, V>(u: Setup, ss: seq<State<K, V>>, es: seq<AsyncLru.Event<K, V>>, n: nat,
                                           id: nat)
    requires History(u, ss, es) && n <= |es|
    ensures TakenLate(ss, es, n, id) <==> Late(ss[n], id)
    decreases n
  {
    if n == 0 {
      assert ss[0].requests == [];
    } else {
      LateAlong(u, ss, es, n - 1, id);
      InvAlong(u, ss, es, n - 1);
      LateStep(ss[n - 1], es[n - 1], id);
      StepAt(ss, es, n - 1);
      LateSnoc(ss, es, n - 1, id);
    }
  }

  lemma LateTake<K, V>(s: State<K, V>, r: PopReadings, id: nat)
    requires Inv(s)
    ensures
      var t := AsyncLru.TakeStep(s, r);
      Late(t, id) <==> Late(s, id) || Leaves(s.queue, t.queue, id, r.now, true)
  {
    if s.queue.buffer != [] {
      TakenIsQueued(s, r);
      PopTakesItem(s.queue, r, id, true);
    }
  }

  lemma LateStep<K, V>(s: State<K, V>, e: AsyncLru.Event<K, V>, id: nat)
    requires Inv(s) && AsyncLru.Legal(s, e)
    ensures
      var t := AsyncLru.Step(s, e);
      Late(t, id) <==> Late(s, id) || (e.TakeRequest? && Leaves(s.queue, t.queue, id, e.pop.now, true))
  {
    if e.TakeRequest? {
      LateTake(s, e.pop, id);
    } else if id < |s.requests| {
      assert RequestOk(s.requests[id]);
    }
  }

  /**
   On every run a request broadcasts what its generator made of its key: the value or the failure.
   It broadcasts the expiry exactly if it was taken past its deadline, and then it has no generator.
   */
  lemma BroadcastsWhatWasMade<K, V>(u: Setup, ss: seq<State<K, V>>, es: seq<AsyncLru.Event<K, V>>, n: nat, id: nat)
    requires History(u, ss, es) && n <= |es| && id < |ss[n].requests| && ss[n].requests[id].sent != []
    ensures
      var q := ss[n].requests[id];
      && |q.sent| == 1
      && (forall i :: 0 <= i < (if q.made.Some? then |q.made.value| else 0) && q.made.value[i].key == q.key ==>
            q.sent == [match q.made.value[i].made case Value(v, _) => Ok(v) case Failure => Err(GeneratorFailed)])
      && (q.made.Some? ==> Produces(q.made.value, q.key) && !TakenLate(ss, es, n, id))
      && (q.made.None? ==> q.sent == [Err(ExpiredInQueue)] && TakenLate(ss, es, n, id))
  {
    InvAlong(u, ss, es, n);
    AnswersAlong(u, ss, es, n);
    LateAlong(u, ss, es, n, id);
    var q := ss[n].requests[id];
    assert RequestOk(q) && AnswerOk(q);
    if q.made.Some? {
      var j :| 0 <= j < |q.made.value| && TellsAt(q, j, q.sent[0]);
      assert forall i :: 0 <= i < |q.made.value| && q.made.value[i].key == q.key ==> i == j;
    }
  }

  // ------------------------------------------------------------------ what clients are told

  /** Event `i` is the get of client `c`. */
  ghost predicate AsksAt<K, V>(ss: seq<State<K, V>>, es: seq<AsyncLru.Event<K, V>>, i: nat, c: nat)
    requires Path(ss, es) && i < |es|
  {
    es[i].Get? && |ss[i].clients| == c
  }

  /** The get found the request for its key under way, or started it. */
  ghost predicate Joins<K, V>(s: State<K, V>, k: K, id: nat) {
    match Find(s.cache.slots, k)
    case Some(Waiting(q)) => q == id
    case Some(Ready(_, _)) => false
    case None => id == |s.requests| && |s.queue.buffer| < s.queue.config.capacity
  }

  /** What a client is told follows from what its get found. */
  ghost predicate StatusFits<K, V>(asked: State<K, V>, now: State<K, V>, k: K, st: Status<V>) {
    match st
    case Refused => Find(asked.cache.slots, k).None? && |asked.queue.buffer| >= asked.queue.config.capacity
    case Listening(id) => Joins(asked, k, id)
    case ChannelClosed(id) => Joins(asked, k, id)
    case Done(o) =>
      || (exists size :: o.Ok? && Find(asked.cache.slots, k) == Some(Ready(o.value, size)))
      || (exists id: nat :: Joins(asked, k, id) && id < |now.requests| && now.requests[id].sent == [o])
  }

  lemma SentStays<K, V>(s: State<K, V>, e: AsyncLru.Event<K, V>, id: nat)
    requires Inv(s) && AsyncLru.Legal(s, e) && id < |s.requests| && s.requests[id].sent != []
    ensures id < |AsyncLru.Step(s, e).requests| && AsyncLru.Step(s, e).requests[id].sent == s.requests[id].sent
  {
    assert RequestOk(s.requests[id]);
    if e.TakeRequest? && s.queue.buffer != [] {
      TakenIsQueued(s, e.pop);
    }
  }

  lemma FitsStep<K, V>(asked: State<K, V>, s: State<K, V>, e: AsyncLru.Event<K, V>, c: nat)
    requires Inv(s) && AsyncLru.Legal(s, e) && c < |s.clients|
    requires StatusFits(asked, s, s.clients[c].key, s.clients[c].status)
    ensures
      var t := AsyncLru.Step(s, e);
      && c < |t.clients| && t.clients[c].key == s.clients[c].key
      && StatusFits(asked, t, t.clients[c].key, t.clients[c].status)
  {
    var t := AsyncLru.Step(s, e);
    var k, st := s.clients[c].key, s.clients[c].status;
    if e == Receive(c) {
      ReceiveFits(asked, s, c);
    } else {
      assert t.clients[c] == s.clients[c];
      if st.Done? && exists id: nat :: Joins(asked, k, id) && id < |s.requests| && s.requests[id].sent == [st.outcome] {
        var id: nat :| Joins(asked, k, id) && id < |s.requests| && s.requests[id].sent == [st.outcome];
        SentStays(s, e, id);
      }
    }
  }

  lemma ReceiveFits<K, V>(asked: State<K, V>, s: State<K, V>, c: nat)
    requires Inv(s) && AsyncLru.Legal(s, Receive(c)) && Joins(asked, s.clients[c].key, s.clients[c].status.request)
    ensures
      var t := ReceiveStep(s, c);
      t.clients[c].key == s.clients[c].key && StatusFits(asked, t, t.clients[c].key, t.clients[c].status)
  {
    var id := s.clients[c].status.request;
    assert RequestOk(s.requests[id]);
    var t := ReceiveStep(s, c);
    if s.requests[id].sent != [] {
      assert t.requests[id].sent == [s.requests[id].sent[0]];
    }
  }

  lemma AskedFits<K, V>(s: State<K, V>, k: K, r: PushReadings)
    requires AsyncLru.Legal(s, Get(k, r))
    ensures
      var t, c := GetStep(s, k, r), |s.clients|;
      |t.clients| == c + 1 && t.clients[c].key == k && StatusFits(s, t, k, t.clients[c].status)
  {
    var t := GetStep(s, k, r);
    match Find(s.cache.slots, k)
    case Some(Ready(v, size)) => assert t.clients[|s.clients|].status == Done(Ok(v));
    case _ =>
  }

  lemma ClientsOnlyAsk<K, V>(s: State<K, V>, e: AsyncLru.Event<K, V>)
    requires AsyncLru.Legal(s, e)
    ensures |AsyncLru.Step(s, e).clients| == |s.clients| + if e.Get? then 1 else 0
  {
  }

  /**
   On every run each client is told what its get calls for: a value the cache held, what the request
   it joined or started has broadcast, or that the queue was full; and it asked once.
   */
  lemma {:induction false} ClientsAreTold<K, V>(u: Setup, ss: seq<State<K, V>>, es: seq<AsyncLru.Event<K, V>>, n: nat,
                                                c: nat) returns (i: nat)
    requires History(u, ss, es) && n <= |es| && c < |ss[n].clients|
    ensures i < n && AsksAt(ss, es, i, c) && ss[n].clients[c].key == es[i].key
    ensures StatusFits(ss[i], ss[n], es[i].key, ss[n].clients[c].status)
    decreases n
  {
    var m := n - 1;
    InvAlong(u, ss, es, m);
    ClientsOnlyAsk(ss[m], es[m]);
    if c < |ss[m].clients| {
      i := ClientsAreTold(u, ss, es, m, c);
      FitsStep(ss[i], ss[m], es[m], c);
    } else {
      i := m;
      AskedFits(ss[m], es[m].key, es[m].push);
    }
  }
}
