/**
 How far the cache keeps its promise that each value is computed once, and particular runs that
 show what is lost when a condition fails.
 */
module AsyncLruRuns {
  import opened Common
  import opened LruCache
  import opened Q = CoDelQueue
  import opened AsyncLru

  // ------------------------------------------------------------------ one computation per key

  /** The request still has its own cache section ahead of it. */
  ghost predicate Pending<K, V>(q: Request<K, V>) {
    match q.phase
    case Applying(rest, toSend) => toSend.None? && Produces(rest, q.key)
    case ExpiredDropped => false
    case Finished => false
    case _ => true
  }

  /** Two requests for one key are being computed. */
  ghost predicate Twins<K, V>(s: State<K, V>, a: nat, b: nat) {
    && a < |s.requests| && b < |s.requests| && a != b && s.requests[a].key == s.requests[b].key
    && Pending(s.requests[a]) && Pending(s.requests[b])
  }

  /** An update keeps a slot of the key, a test on the cache before. */
  ghost predicate KeepsSlot<K, V>(c: Cache<K, V>, p: Produced<K, V>, k: K) {
    if p.key == k then p.made.Value? && Leak(c) + p.made.size <= c.maxSize
    else p.made.Value? ==>
      forall i :: 0 <= i < |c.slots| && c.slots[i].key == k ==> FitsFrom(c, i, p.key, p.made.size)
  }

  /** The request is pending and this update, of whatever request, does not settle it. */
  ghost predicate Needed<K, V>(s: State<K, V>, e: AsyncLru.Event<K, V>, id: nat)
    requires AsyncLru.Legal(s, e) && e.ApplyNext?
  {
    && id < |s.requests| && Pending(s.requests[id])
    && (id == e.id ==> s.requests[id].key != s.requests[e.id].phase.rest[0].key)
  }

  /** Every update keeps the slots of the keys that are needed. */
  ghost predicate Spares<K, V>(s: State<K, V>, e: AsyncLru.Event<K, V>)
    requires AsyncLru.Legal(s, e)
  {
    e.ApplyNext? ==>
      forall id: nat :: Needed(s, e, id) ==> KeepsSlot(s.cache, s.requests[e.id].phase.rest[0], s.requests[id].key)
  }

  ghost predicate SparingRun<K, V>(s: State<K, V>, es: seq<AsyncLru.Event<K, V>>)
    requires AsyncLru.LegalRun(s, es)
    decreases |es|
  {
    es == [] || (Spares(s, es[0]) && SparingRun(AsyncLru.Step(s, es[0]), es[1..]))
  }

  ghost predicate Cached<K, V>(s: State<K, V>, k: K) {
    Find(s.cache.slots, k).Some?
  }

  /** Every pending key has a slot, and is pending once. */
  ghost predicate PendingOnce<K, V>(s: State<K, V>) {
    && (forall id: nat :: id < |s.requests| && Pending(s.requests[id]) ==> Cached(s, s.requests[id].key))
    && (forall a: nat, b: nat :: !Twins(s, a, b))
  }

  lemma SlotStays<K, V>(a: seq<Slot<K, V>>, b: seq<Slot<K, V>>, k: K)
    requires Find(a, k).Some? && forall x :: x in a && x.key == k ==> x in b
    ensures Find(b, k).Some?
  {
    FindIsMember(a, k);
    FindIsMember(b, k);
  }

  /** What a step may do without a second computation: nothing new pending, and slots kept for what is. */
  lemma OnceKept<K, V>(s: State<K, V>, t: State<K, V>)
    requires PendingOnce(s) && |t.requests| == |s.requests|
    requires forall id: nat :: id < |s.requests| ==> t.requests[id].key == s.requests[id].key
    requires forall id: nat :: id < |s.requests| && Pending(t.requests[id]) ==>
               Pending(s.requests[id]) && Cached(t, s.requests[id].key)
    ensures PendingOnce(t)
  {
    forall a: nat, b: nat ensures !Twins(t, a, b) {
      assert !Twins(s, a, b);
    }
  }

  lemma OnceChange<K, V>(s: State<K, V>, t: State<K, V>, id: nat)
    requires PendingOnce(s) && id < |s.requests| && t.cache == s.cache
    requires |t.requests| == |s.requests| && t.requests == s.requests[id := t.requests[id]]
    requires t.requests[id].key == s.requests[id].key && (Pending(t.requests[id]) ==> Pending(s.requests[id]))
    ensures PendingOnce(t)
  {
    forall x: nat | x < |s.requests| && Pending(t.requests[x])
      ensures Pending(s.requests[x]) && Cached(t, s.requests[x].key)
    {
      assert Pending(s.requests[x]);
      assert Cached(s, s.requests[x].key);
    }
    OnceKept(s, t);
  }

  lemma OnceGet<K, V>(s: State<K, V>, k: K, r: PushReadings)
    requires Inv(s) && PendingOnce(s)
    ensures PendingOnce(GetStep(s, k, r))
  {
    var t := GetStep(s, k, r);
    if Find(s.cache.slots, k).Some? || Full(s.queue) {
      TouchKeepsAccounts(s.cache, k);
      forall id: nat | id < |s.requests| && Pending(s.requests[id]) ensures Cached(t, s.requests[id].key) {
        assert Cached(s, s.requests[id].key);
        SlotStays(s.cache.slots, t.cache.slots, s.requests[id].key);
      }
      OnceKept(s, t);
    } else {
      OnceStarted(s, k, r);
    }
  }

  /** A key without a slot is not pending, so the request that starts is its only one. */
  lemma OnceStarted<K, V>(s: State<K, V>, k: K, r: PushReadings)
    requires Inv(s) && PendingOnce(s) && Find(s.cache.slots, k).None? && !Full(s.queue)
    ensures PendingOnce(Kickoff(s, k, r))
  {
    var t := Kickoff(s, k, r);
    var added := |s.requests|;
    AddWaitingKeepsAccounts(s.cache, k, added);
    FindIsMember(t.cache.slots, k);
    forall id: nat | id < added && Pending(s.requests[id])
      ensures s.requests[id].key != k && Cached(t, s.requests[id].key)
    {
      assert Cached(s, s.requests[id].key);
      SlotStays(s.cache.slots, t.cache.slots, s.requests[id].key);
    }
    forall a: nat, b: nat ensures !Twins(t, a, b) {
      assert !Twins(s, a, b);
    }
  }

  lemma OtherSlotKeptIff<K, V>(c: Cache<K, V>, p: Produced<K, V>, i: nat)
    requires Valid(c) && i < |c.slots| && c.slots[i].key != p.key
    ensures c.slots[i] in Update(c, p.key, p.made).slots
            <==> p.made.Failure? || FitsFrom(c, i, p.key, p.made.size)
  {
    match p.made {
      case Value(v, size) => SlotSurvivesIff(c, i, p.key, v, size);
      case Failure => WithoutKeepsOthers(c.slots, p.key);
    }
  }

  lemma OtherKeeps<K, V>(c: Cache<K, V>, p: Produced<K, V>, i: nat)
    requires OneSlotPerKey(c.slots) && i < |c.slots| && c.slots[i].key != p.key
    ensures KeepsSlot(c, p, c.slots[i].key) <==> p.made.Failure? || FitsFrom(c, i, p.key, p.made.size)
  {
  }

  lemma OtherFound<K, V>(c: Cache<K, V>, p: Produced<K, V>, i: nat)
    requires Valid(c) && i < |c.slots| && c.slots[i].key != p.key
    ensures
      var after := Update(c, p.key, p.made).slots;
      Find(after, c.slots[i].key).Some? <==> c.slots[i] in after
  {
    UpdateKeepsAccounts(c, p.key, p.made);
    FindIsMember(Update(c, p.key, p.made).slots, c.slots[i].key);
  }

  lemma OtherKeptIff<K, V>(c: Cache<K, V>, p: Produced<K, V>, i: nat)
    requires Valid(c) && i < |c.slots| && c.slots[i].key != p.key
    ensures Find(Update(c, p.key, p.made).slots, c.slots[i].key).Some? <==> KeepsSlot(c, p, c.slots[i].key)
  {
    OtherKeeps(c, p, i);
    OtherFound(c, p, i);
    OtherSlotKeptIff(c, p, i);
  }

  lemma OwnKeptIff<K, V>(c: Cache<K, V>, p: Produced<K, V>)
    requires Valid(c)
    ensures Find(Update(c, p.key, p.made).slots, p.key).Some? <==> KeepsSlot(c, p, p.key)
  {
    UpdateKeepsAccounts(c, p.key, p.made);
    FindIsMember(Update(c, p.key, p.made).slots, p.key);
    if p.made.Value? {
      EvictsJustEnough(c, p.key, p.made.value, p.made.size);
    }
  }

  /** A slot survives an update exactly when the test on the cache before says so. */
  lemma SlotKeptIff<K, V>(c: Cache<K, V>, p: Produced<K, V>, k: K)
    requires Valid(c) && Find(c.slots, k).Some?
    ensures Find(Update(c, p.key, p.made).slots, k).Some? <==> KeepsSlot(c, p, k)
  {
    if p.key == k {
      OwnKeptIff(c, p);
    } else {
      FindIsMember(c.slots, k);
      var i :| 0 <= i < |c.slots| && c.slots[i].key == k;
      OtherKeptIff(c, p, i);
    }
  }

  /** A request with a section ahead loses nothing by an update but its own section. */
  lemma PendingApplied<K, V>(s: State<K, V>, e: AsyncLru.Event<K, V>, id: nat)
    requires Inv(s) && AsyncLru.Legal(s, e) && e.ApplyNext? && id < |s.requests|
    ensures |AsyncLru.Step(s, e).requests| == |s.requests| && AsyncLru.Step(s, e).requests[id].key == s.requests[id].key
    ensures Pending(AsyncLru.Step(s, e).requests[id]) <==> Needed(s, e, id)
  {
    assert RequestOk(s.requests[e.id]);
    ProducesTail(s.requests[e.id].phase.rest, s.requests[e.id].key);
  }

  lemma OnceApply<K, V>(s: State<K, V>, e: AsyncLru.Event<K, V>)
    requires Inv(s) && PendingOnce(s) && AsyncLru.Legal(s, e) && e.ApplyNext? && Spares(s, e)
    ensures PendingOnce(AsyncLru.Step(s, e))
  {
    var t := AsyncLru.Step(s, e);
    forall id: nat | id < |s.requests|
      ensures t.requests[id].key == s.requests[id].key
      ensures Pending(t.requests[id]) ==> Pending(s.requests[id]) && Cached(t, s.requests[id].key)
    {
      PendingApplied(s, e, id);
      if Needed(s, e, id) {
        assert Cached(s, s.requests[id].key);
        SlotKeptIff(s.cache, s.requests[e.id].phase.rest[0], s.requests[id].key);
      }
    }
    OnceKept(s, t);
  }

  lemma OnceDrop<K, V>(s: State<K, V>, e: AsyncLru.Event<K, V>)
    requires Inv(s) && PendingOnce(s) && AsyncLru.Legal(s, e) && e.DropExpired?
    ensures PendingOnce(AsyncLru.Step(s, e))
  {
    var t := AsyncLru.Step(s, e);
    var q := s.requests[e.id];
    DropWaitingKeepsAccounts(s.cache, q.key);
    forall id: nat | id < |s.requests| && Pending(t.requests[id])
      ensures Pending(s.requests[id]) && Cached(t, s.requests[id].key)
    {
      assert !Twins(s, id, e.id) && Cached(s, s.requests[id].key);
      SlotStays(s.cache.slots, t.cache.slots, s.requests[id].key);
    }
    OnceKept(s, t);
  }

  lemma OnceTake<K, V>(s: State<K, V>, r: PopReadings)
    requires Inv(s) && PendingOnce(s)
    ensures PendingOnce(AsyncLru.TakeStep(s, r))
  {
    var t := AsyncLru.TakeStep(s, r);
    if s.queue.buffer != [] {
      TakenIsQueued(s, r);
      OnceChange(s, t, PopResult(s.queue, r).value.value);
    } else {
      forall id: nat | id < |s.requests| && Pending(s.requests[id]) ensures Cached(t, s.requests[id].key) {
        assert Cached(s, s.requests[id].key);
      }
      OnceKept(s, t);
    }
  }

  lemma OnceReceive<K, V>(s: State<K, V>, c: nat)
    requires PendingOnce(s) && AsyncLru.Legal(s, Receive(c))
    ensures PendingOnce(AsyncLru.ReceiveStep(s, c))
  {
    var t := AsyncLru.ReceiveStep(s, c);
    forall id: nat | id < |s.requests| && Pending(s.requests[id]) ensures Cached(t, s.requests[id].key) {
      assert Cached(s, s.requests[id].key);
    }
    OnceKept(s, t);
  }

  lemma OnceStep<K, V>(s: State<K, V>, e: AsyncLru.Event<K, V>)
    requires Inv(s) && PendingOnce(s) && AsyncLru.Legal(s, e) && Spares(s, e)
    ensures PendingOnce(AsyncLru.Step(s, e))
  {
    match e {
      case Get(k, r) => OnceGet(s, k, r);
      case ApplyNext(_) => OnceApply(s, e);
      case DropExpired(_) => OnceDrop(s, e);
      case TakeRequest(r) => OnceTake(s, r);
      case GeneratorDone(id, _) => OnceChange(s, AsyncLru.Step(s, e), id);
      case Broadcast(id) => assert RequestOk(s.requests[id]); OnceChange(s, AsyncLru.Step(s, e), id);
      case FinishLoop(id) => OnceChange(s, AsyncLru.Step(s, e), id);
      case Receive(c) => OnceReceive(s, c);
    }
  }

  lemma {:induction false} OnceRun<K, V>(s: State<K, V>, es: seq<AsyncLru.Event<K, V>>)
    requires Inv(s) && PendingOnce(s) && AsyncLru.LegalRun(s, es) && SparingRun(s, es)
    ensures PendingOnce(AsyncLru.Run(s, es))
    decreases |es|
  {
    if es != [] {
      InvStep(s, es[0]);
      OnceStep(s, es[0]);
      OnceRun(AsyncLru.Step(s, es[0]), es[1..]);
    }
  }

  /**
   Whatever the generators return: as long as every update keeps the slots of the keys that are
   needed, at most one request per key is ever being computed, and a get of such a key joins it or
   finds a value.
   */
  lemma ComputedOnce<K, V>(u: Setup, es: seq<AsyncLru.Event<K, V>>, a: nat, b: nat)
    requires AsyncLru.LegalRun(AsyncLru.Start<K, V>(u), es) && SparingRun(AsyncLru.Start<K, V>(u), es)
    requires a < |AsyncLru.Run(AsyncLru.Start<K, V>(u), es).requests|
    requires b < |AsyncLru.Run(AsyncLru.Start<K, V>(u), es).requests|
    ensures
      var s := AsyncLru.Run(AsyncLru.Start<K, V>(u), es);
      (Pending(s.requests[a]) ==> Cached(s, s.requests[a].key)) && !Twins(s, a, b)
  {
    InvFromStart<K, V>(u, []);
    OnceRun(AsyncLru.Start<K, V>(u), es);
  }

  /** Once the slot of a pending request is gone, the next get of its key computes it a second time. */
  lemma LostMarkerRepeats<K, V>(s: State<K, V>, id: nat, r: PushReadings)
    requires id < |s.requests| && Pending(s.requests[id]) && Find(s.cache.slots, s.requests[id].key).None?
    requires !Full(s.queue) && r.From(s.clock)
    ensures Twins(AsyncLru.Step(s, Get(s.requests[id].key, r)), id, |s.requests|)
  {
  }

  /**
   The condition is exact.  From any state of the protocol, an update that does not keep the slot of
   a needed key leaves its request pending without one, so that with room in the queue the next get
   of the key computes it twice at once.
   */
  lemma UnsparedRepeats<K, V>(s: State<K, V>, e: AsyncLru.Event<K, V>, id: nat, r: PushReadings)
    requires Inv(s) && AsyncLru.Legal(s, e) && e.ApplyNext? && Needed(s, e, id)
    requires !KeepsSlot(s.cache, s.requests[e.id].phase.rest[0], s.requests[id].key)
    requires !Full(s.queue) && r.From(s.clock)
    ensures
      var t, get := AsyncLru.Step(s, e), Get(s.requests[id].key, r);
      AsyncLru.Legal(t, get) && Twins(AsyncLru.Step(t, get), id, |s.requests|)
  {
    PendingApplied(s, e, id);
    SlotGone(s.cache, s.requests[e.id].phase.rest[0], s.requests[id].key);
    LostMarkerRepeats(AsyncLru.Step(s, e), id, r);
  }

  lemma SlotGone<K, V>(c: Cache<K, V>, p: Produced<K, V>, k: K)
    requires Valid(c) && !KeepsSlot(c, p, k)
    ensures Find(Update(c, p.key, p.made).slots, k).None?
  {
    if p.key == k {
      OwnKeptIff(c, p);
    } else {
      var i :| 0 <= i < |c.slots| && c.slots[i].key == k;
      OtherKeptIff(c, p, i);
    }
  }

  /** A marker whose request finished without broadcasting closes the channel of every get of its key. */
  lemma StrandedGetFails<K, V>(s: State<K, V>, k: K, id: nat, r: PushReadings)
    requires Find(s.cache.slots, k) == Some(Waiting(id)) && id < |s.requests|
    requires s.requests[id].phase.Finished? && s.requests[id].sent == [] && r.From(s.clock)
    ensures
      var t := AsyncLru.Step(s, Get(k, r));
      var c := |s.clients|;
      && AsyncLru.Legal(t, Receive(c))
      && var u := AsyncLru.Step(t, Receive(c));
         u.clients[c] == Client(k, ChannelClosed(id)) && u.requests == s.requests && u.cache == Touch(s.cache, k)
  {
  }

  // ------------------------------------------------------------------ particular runs

  /** Runs grow at the end. */
  lemma {:induction false} Extend<K, V>(s: State<K, V>, es: seq<AsyncLru.Event<K, V>>, e: AsyncLru.Event<K, V>)
    requires AsyncLru.LegalRun(s, es) && AsyncLru.Legal(AsyncLru.Run(s, es), e)
    ensures AsyncLru.LegalRun(s, es + [e])
    ensures AsyncLru.Run(s, es + [e]) == AsyncLru.Step(AsyncLru.Run(s, es), e)
    decreases |es|
  {
    if es == [] {
      assert (es + [e])[1..] == [];
    } else {
      Extend(AsyncLru.Step(s, es[0]), es[1..], e);
      assert (es + [e])[1..] == es[1..] + [e];
    }
  }

  const PUSH := PushReadings(0, 0, 0, 0)
  const POP := PopReadings(0, 0, 0, 0)
  const CONFIG := Config(10, 5, 1)

  /** A run and where it leads, starting from nothing. */
  ghost predicate Leads(u: Setup, es: seq<AsyncLru.Event<nat, nat>>, s: State<nat, nat>) {
    AsyncLru.LegalRun(AsyncLru.Start(u), es) && AsyncLru.Run(AsyncLru.Start(u), es) == s
  }

  lemma Then(u: Setup, es: seq<AsyncLru.Event<nat, nat>>, s: State<nat, nat>, e: AsyncLru.Event<nat, nat>)
      returns (es': seq<AsyncLru.Event<nat, nat>>, s': State<nat, nat>)
    requires Leads(u, es, s) && AsyncLru.Legal(s, e)
    ensures es' == es + [e] && s' == AsyncLru.Step(s, e) && Leads(u, es', s')
  {
    Extend(AsyncLru.Start<nat, nat>(u), es, e);
    es', s' := es + [e], AsyncLru.Step(s, e);
  }

  function Markers(maxSize: nat): Cache<nat, nat> {
    Cache([Slot(1, Waiting(0)), Slot(2, Waiting(1))], 0, maxSize)
  }

  lemma MarkersValid(maxSize: nat)
    ensures Valid(Markers(maxSize)) && Leak(Markers(maxSize)) == 0
  {
  }

  /** Keys 1 and 2 asked for, neither request taken yet. */
  lemma TwoQueued(u: Setup) returns (es: seq<AsyncLru.Event<nat, nat>>, s: State<nat, nat>)
    requires u.concurrency == 0 && u.config == CONFIG && u.created == 0
    ensures Leads(u, es, s)
    ensures s.cache == Markers(u.maxSize)
    ensures s.requests == [Request(1, Queued, None, []), Request(2, Queued, None, [])]
    ensures s.queue == Queue(CONFIG, [Item(0, 5), Item(1, 5)], 0)
    ensures s.clock == 0 && s.concurrency == 0 && |s.clients| == 2
  {
    es, s := [], AsyncLru.Start<nat, nat>(u);
    es, s := Then(u, es, s, Get(1, PUSH));
    assert s.cache.slots == [Slot(1, Waiting(0))];
    assert s.cache.slots[1..] == [];
    assert s.queue.buffer == [Item(0, 5)];
    assert Find(s.cache.slots, 2).None?;
    assert Without(s.cache.slots, 2) == [s.cache.slots[0]] + Without(s.cache.slots[1..], 2) == s.cache.slots;
    es, s := Then(u, es, s, Get(2, PUSH));
    assert s.queue.buffer == [Item(0, 5), Item(1, 5)];
  }

  /** Both requests taken by the worker. */
  lemma TwoGenerating(u: Setup) returns (es: seq<AsyncLru.Event<nat, nat>>, s: State<nat, nat>)
    requires u.concurrency == 0 && u.config == CONFIG && u.created == 0
    ensures Leads(u, es, s)
    ensures s.cache == Markers(u.maxSize)
    ensures s.requests == [Request(1, Generating, None, []), Request(2, Generating, None, [])]
    ensures s.queue == Queue(CONFIG, [], 0) && s.clock == 0 && |s.clients| == 2
  {
    es, s := TwoQueued(u);
    es, s := Then(u, es, s, TakeRequest(POP));
    assert s.queue.buffer == [Item(1, 5)];
    es, s := Then(u, es, s, TakeRequest(POP));
  }

  /** Request 1 returns a map and the map's first entry is stored. */
  lemma FirstStored(u: Setup, produced: seq<Produced<nat, nat>>) returns (es: seq<AsyncLru.Event<nat, nat>>,
      s: State<nat, nat>)
    requires u.concurrency == 0 && u.config == CONFIG && u.created == 0
    requires produced != [] && DistinctKeys(produced)
    ensures Leads(u, es, s)
    ensures s.cache == Update(Markers(u.maxSize), produced[0].key, produced[0].made)
    ensures |s.requests| == 2 && s.requests[0] == Request(1, Generating, None, [])
    ensures s.queue == Queue(CONFIG, [], 0) && s.clock == 0
  {
    es, s := TwoGenerating(u);
    es, s := Then(u, es, s, GeneratorDone(1, produced));
    es, s := Then(u, es, s, ApplyNext(1));
  }

  /**
   Requests for keys 1 and 2 are under way, and the map of the second starts with an entry that does
   not keep the slot of key 1: a get of key 1 computes it a second time.
   */
  lemma RepeatedBy(u: Setup, p: Produced<nat, nat>) returns (es: seq<AsyncLru.Event<nat, nat>>, s: State<nat, nat>)
    requires u == Setup(u.maxSize, 0, CONFIG, 0) && !KeepsSlot(Markers(u.maxSize), p, 1)
    ensures Leads(u, es, s) && Twins(s, 0, 2)
  {
    es, s := FirstStored(u, [p]);
    MarkersValid(u.maxSize);
    SlotGone(Markers(u.maxSize), p, 1);
    LostMarkerRepeats(s, 0, PUSH);
    es, s := Then(u, es, s, Get(1, PUSH));
  }

  /** A value too big for the limit evicts the marker, whatever the limit and the value's key. */
  lemma EvictionRepeatsWork(u: Setup, k: nat) returns (es: seq<AsyncLru.Event<nat, nat>>, s: State<nat, nat>)
    requires u == Setup(u.maxSize, 0, CONFIG, 0)
    ensures Leads(u, es, s) && Twins(s, 0, 2)
  {
    var big := Produced(k, Value(7, u.maxSize + 1));
    MarkersValid(u.maxSize);
    assert Markers(u.maxSize).slots[0].key == 1;
    es, s := RepeatedBy(u, big);
  }

  /** An error that another request's map holds for the key removes the marker. */
  lemma PrepopulatedErrorRepeatsWork(u: Setup) returns (es: seq<AsyncLru.Event<nat, nat>>, s: State<nat, nat>)
    requires u == Setup(u.maxSize, 0, CONFIG, 0)
    ensures Leads(u, es, s) && Twins(s, 0, 2)
  {
    es, s := RepeatedBy(u, Produced(1, Failure));
  }

  /** A generator whose map leaves out the key leaves a marker that closes every later get's channel. */
  lemma IncompleteMapStrandsKey() returns (es: seq<AsyncLru.Event<nat, nat>>, s: State<nat, nat>, c: nat)
    ensures Leads(Setup(9, 0, CONFIG, 0), es, s)
    ensures s.requests != [] && s.requests[0] == Request(1, Finished, Some([]), [])
    ensures Find(s.cache.slots, 1) == Some(Waiting(0))
    ensures c < |s.clients| && s.clients[c] == Client(1, ChannelClosed(0))
  {
    var u := Setup(9, 0, CONFIG, 0);
    es, s := TwoGenerating(u);
    es, s := Then(u, es, s, GeneratorDone(0, []));
    es, s := Then(u, es, s, FinishLoop(0));
    c := |s.clients|;
    es, s := Then(u, es, s, Get(1, PUSH));
    assert s.cache.slots == [Slot(2, Waiting(1)), Slot(1, Waiting(0))];
    assert s.cache.slots[1..] == [Slot(1, Waiting(0))];
    es, s := Then(u, es, s, Receive(c));
  }

  /** Request 0 fails, and its error removes whatever the cache holds for its key. */
  lemma FirstFails(u: Setup, es: seq<AsyncLru.Event<nat, nat>>, s: State<nat, nat>)
      returns (es': seq<AsyncLru.Event<nat, nat>>, s': State<nat, nat>)
    requires Leads(u, es, s) && |s.requests| == 2 && s.requests[0] == Request(1, Generating, None, [])
    ensures Leads(u, es', s') && s'.cache == Update(s.cache, 1, Failure)
  {
    es', s' := Then(u, es, s, GeneratorDone(0, [Produced(1, Failure)]));
    es', s' := Then(u, es', s', ApplyNext(0));
  }

  lemma SizeOfSlot(slots: seq<Slot<nat, nat>>, k: nat, v: nat, size: nat)
    requires OneSlotPerKey(slots) && Slot(k, Ready(v, size)) in slots
    ensures SizeAt(slots, k) == size
  {
    var i :| 0 <= i < |slots| && slots[i] == Slot(k, Ready(v, size));
    FindMember(slots, i);
  }

  lemma StoredThenFailed(maxSize: nat, p: Produced<nat, nat>)
    requires p.made.Value? && p.made.size == maxSize
    ensures
      var c := Update(Update(Markers(maxSize), p.key, p.made), p.key, Failure);
      Valid(c) && Leak(c) == c.maxSize == maxSize
  {
    var stored := Update(Markers(maxSize), p.key, p.made);
    MarkersValid(maxSize);
    UpdateKeepsAccounts(Markers(maxSize), p.key, p.made);
    EvictsJustEnough(Markers(maxSize), p.key, p.made.value, p.made.size);
    SizeOfSlot(stored.slots, p.key, p.made.value, p.made.size);
    UpdateKeepsAccounts(stored, p.key, Failure);
  }

  /** A prefetched value dropped by a later error leaks the whole limit; on no run is anything stored again. */
  lemma ErrorDisablesCache(u: Setup) returns (es: seq<AsyncLru.Event<nat, nat>>, s: State<nat, nat>)
    requires u == Setup(u.maxSize, 0, CONFIG, 0)
    ensures Leads(u, es, s) && Leak(s.cache) == s.cache.maxSize == u.maxSize
    ensures forall fs: seq<AsyncLru.Event<nat, nat>> :: AsyncLru.LegalRun(s, fs) ==>
              Total(AsyncLru.Run(s, fs).cache.slots) == 0
  {
    var first := Produced(1, Value(7, u.maxSize));
    es, s := FirstStored(u, [first, Produced(2, Value(8, 1))]);
    es, s := FirstFails(u, es, s);
    StoredThenFailed(u.maxSize, first);
    NeverAgain(u, es, s);
  }

  lemma NeverAgain(u: Setup, es: seq<AsyncLru.Event<nat, nat>>, s: State<nat, nat>)
    requires Leads(u, es, s) && Leak(s.cache) == s.cache.maxSize
    ensures forall fs: seq<AsyncLru.Event<nat, nat>> :: AsyncLru.LegalRun(s, fs) ==>
              Total(AsyncLru.Run(s, fs).cache.slots) == 0
  {
    InvFromStart<nat, nat>(u, es);
    forall fs: seq<AsyncLru.Event<nat, nat>> | AsyncLru.LegalRun(s, fs)
      ensures Total(AsyncLru.Run(s, fs).cache.slots) == 0
    {
      LeakedOutForever(s, fs);
    }
  }
}
