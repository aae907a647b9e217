/**
 The asynchronous write-through cache as a state machine.  Its steps are the sections the code
 runs under the cache's lock, the polls of its request queue, and the broadcasts; clients, worker
 tasks and generators interleave freely between them.

 A request is numbered by its creation.  Its broadcast channel is identified with it: subscribing
 to the channel is listening to the request.
 */
module AsyncLru {
  import opened Common
  import opened LruCache
  import opened Q = CoDelQueue

  datatype Error = ExpiredInQueue | GeneratorFailed

  type Outcome<V> = Result<V, Error>

  /** One entry of the map a generator returns. */
  datatype Produced<K, V> = Produced(key: K, made: Made<V>)

  datatype Phase<K, V> =
    | Queued
    | Generating
    | Expired          // taken past its deadline; the cache still holds its marker
    | ExpiredDropped   // marker dropped, error not yet broadcast
    | Applying(rest: seq<Produced<K, V>>, toSend: Option<Outcome<V>>)
    | Finished

  /** `made` is what the generator returned, once it did; `sent` is every broadcast made so far. */
  datatype Request<K, V> = Request(key: K, phase: Phase<K, V>, made: Option<seq<Produced<K, V>>>, sent: seq<Outcome<V>>)

  datatype Status<V> =
    | Listening(request: nat)
    | Done(outcome: Outcome<V>)
    | ChannelClosed(request: nat)
    | Refused

  datatype Client<K, V> = Client(key: K, status: Status<V>)

  datatype State<K, V> = State(
    cache: Cache<K, V>, queue: Queue<nat>, requests: seq<Request<K, V>>, inFlight: set<nat>,
    clients: seq<Client<K, V>>, concurrency: nat, clock: int)

  datatype Event<K, V> =
    | Get(key: K, push: PushReadings)
    | TakeRequest(pop: PopReadings)
    | GeneratorDone(id: nat, produced: seq<Produced<K, V>>)
    | ApplyNext(id: nat)
    | Broadcast(id: nat)
    | FinishLoop(id: nat)
    | DropExpired(id: nat)
    | Receive(client: nat)

  datatype Setup = Setup(maxSize: nat, concurrency: nat, config: Config, created: int)

  function Start<K, V>(u: Setup): State<K, V> {
    State(Cache([], 0, u.maxSize), Empty(u.config, u.created), [], {}, [], u.concurrency, u.created)
  }

  ghost predicate DistinctKeys<K, V>(ps: seq<Produced<K, V>>) {
    forall i, j :: 0 <= i < j < |ps| ==> ps[i].key != ps[j].key
  }

  ghost predicate Produces<K, V>(ps: seq<Produced<K, V>>, k: K) {
    exists i :: 0 <= i < |ps| && ps[i].key == k
  }

  /** When a step can happen.  A generator's map has one entry per key and is otherwise arbitrary. */
  ghost predicate Legal<K, V>(s: State<K, V>, e: Event<K, V>) {
    match e
    case Get(_, r) => r.From(s.clock)
    case TakeRequest(r) => r.From(s.clock) && (s.concurrency == 0 || |s.inFlight| < s.concurrency)
    case GeneratorDone(id, produced) => id < |s.requests| && s.requests[id].phase.Generating? && DistinctKeys(produced)
    case ApplyNext(id) =>
      && id < |s.requests| && s.requests[id].phase.Applying?
      && s.requests[id].phase.toSend.None? && s.requests[id].phase.rest != []
    case Broadcast(id) =>
      && id < |s.requests|
      && (s.requests[id].phase.ExpiredDropped? || (s.requests[id].phase.Applying? && s.requests[id].phase.toSend.Some?))
    case FinishLoop(id) => id < |s.requests| && s.requests[id].phase == Applying([], None)
    case DropExpired(id) => id < |s.requests| && s.requests[id].phase.Expired?
    case Receive(c) =>
      && c < |s.clients| && s.clients[c].status.Listening?
      && s.clients[c].status.request < |s.requests|
      && var q := s.requests[s.clients[c].status.request]; (q.sent != [] || q.phase.Finished?)
  }

  function WithPhase<K, V>(s: State<K, V>, id: nat, p: Phase<K, V>): State<K, V> {
    if id < |s.requests| then s.(requests := s.requests[id := s.requests[id].(phase := p)]) else s
  }

  // ------------------------------------------------------------------ the steps

  function Enter<K, V>(s: State<K, V>, k: K, st: Status<V>, now: int): State<K, V> {
    s.(clients := s.clients + [Client(k, st)], clock := now)
  }

  /** A get on a key the cache does not hold: ask for it, unless the queue is full. */
  function Kickoff<K(==), V>(s: State<K, V>, k: K, r: PushReadings): State<K, V> {
    if Full(s.queue) then Enter(s, k, Refused, r.base)
    else
      var id := |s.requests|;
      Enter(s.(cache := AddWaiting(s.cache, k, id), queue := Push(s.queue, id, r),
              requests := s.requests + [Request(k, Queued, None, [])]),
           k, Listening(id), r.base)
  }

  function GetStep<K(==), V>(s: State<K, V>, k: K, r: PushReadings): State<K, V> {
    match Find(s.cache.slots, k)
    case Some(Ready(v, _)) => Enter(s.(cache := Touch(s.cache, k)), k, Done(Ok(v)), r.base)
    case Some(Waiting(id)) => Enter(s.(cache := Touch(s.cache, k)), k, Listening(id), r.base)
    case None => Kickoff(s, k, r)
  }

  function TakeStep<K, V>(s: State<K, V>, r: PopReadings): State<K, V> {
    var t := s.(queue := AfterPop(s.queue, r), clock := r.after);
    match PopResult(s.queue, r)
    case None => t
    case Some(p) =>
      WithPhase(t.(inFlight := t.inFlight + {p.value}), p.value, if p.expired then Expired else Generating)
  }

  function ToOutcome<V>(made: Made<V>): Outcome<V> {
    match made
    case Value(v, _) => Ok(v)
    case Failure => Err(GeneratorFailed)
  }

  function ApplyStep<K(==), V>(s: State<K, V>, id: nat): State<K, V>
    requires id < |s.requests| && s.requests[id].phase.Applying? && s.requests[id].phase.rest != []
  {
    var q := s.requests[id];
    var p := q.phase.rest[0];
    var toSend := if p.key == q.key then Some(ToOutcome(p.made)) else None;
    WithPhase(s.(cache := Update(s.cache, p.key, p.made)), id, Applying(q.phase.rest[1..], toSend))
  }

  function BroadcastStep<K, V>(s: State<K, V>, id: nat): State<K, V>
    requires id < |s.requests|
    requires
      var p := s.requests[id].phase;
      p.ExpiredDropped? || (p.Applying? && p.toSend.Some?)
  {
    var q := s.requests[id];
    if q.phase.ExpiredDropped? then
      s.(requests := s.requests[id := q.(phase := Finished, sent := q.sent + [Err(ExpiredInQueue)])],
         inFlight := s.inFlight - {id})
    else
      s.(requests :=
           s.requests[id := q.(phase := Applying(q.phase.rest, None), sent := q.sent + [q.phase.toSend.value])])
  }

  function GeneratedStep<K, V>(s: State<K, V>, id: nat, produced: seq<Produced<K, V>>): State<K, V>
    requires id < |s.requests|
  {
    s.(requests := s.requests[id := s.requests[id].(phase := Applying(produced, None), made := Some(produced))])
  }

  function ReceiveStep<K, V>(s: State<K, V>, c: nat): State<K, V>
    requires c < |s.clients| && s.clients[c].status.Listening? && s.clients[c].status.request < |s.requests|
  {
    var id := s.clients[c].status.request;
    var st := if s.requests[id].sent != [] then Done(s.requests[id].sent[0]) else ChannelClosed(id);
    s.(clients := s.clients[c := s.clients[c].(status := st)])
  }

  ghost function Step<K, V>(s: State<K, V>, e: Event<K, V>): State<K, V>
    requires Legal(s, e)
  {
    match e
    case Get(k, r) => GetStep(s, k, r)
    case TakeRequest(r) => TakeStep(s, r)
    case GeneratorDone(id, produced) => GeneratedStep(s, id, produced)
    case ApplyNext(id) => ApplyStep(s, id)
    case Broadcast(id) => BroadcastStep(s, id)
    case FinishLoop(id) => WithPhase(s.(inFlight := s.inFlight - {id}), id, Finished)
    case DropExpired(id) => WithPhase(s.(cache := DropWaiting(s.cache, s.requests[id].key)), id, ExpiredDropped)
    case Receive(c) => ReceiveStep(s, c)
  }

  ghost predicate LegalRun<K, V>(s: State<K, V>, es: seq<Event<K, V>>)
    decreases |es|
  {
    es == [] || (Legal(s, es[0]) && LegalRun(Step(s, es[0]), es[1..]))
  }

  ghost function Run<K, V>(s: State<K, V>, es: seq<Event<K, V>>): State<K, V>
    requires LegalRun(s, es)
    decreases |es|
  {
    if es == [] then s else Run(Step(s, es[0]), es[1..])
  }

  datatype Answer<V> = Hit(value: V) | Join(request: nat) | Started(request: nat) | QueueFull

  /** The section of a get under the lock: one lookup, and a new request when the key is absent. */
  method GetSync<K(==), V>(inner: Inner<K, V>, queue: CoDelQueue<nat>, k: K, id: nat, r: PushReadings)
    returns (answer: Answer<V>)
    modifies inner, queue
    ensures
      match old(Find(inner.slots, k))
      case Some(Ready(v, _)) => answer == Hit(v) && inner.Model() == Touch(old(inner.Model()), k) && unchanged(queue)
      case Some(Waiting(q)) => answer == Join(q) && inner.Model() == Touch(old(inner.Model()), k) && unchanged(queue)
      case None =>
        if Full(old(queue.Model())) then answer == QueueFull && unchanged(inner) && queue.Model() == old(queue.Model())
        else answer == Started(id) && queue.Model() == Push(old(queue.Model()), id, r)
             && inner.Model() == AddWaiting(old(inner.Model()), k, id)
    ensures OneSlotPerKey(old(inner.slots)) && (answer.Hit? || answer.Join?) ==>
              MovedLast(old(inner.slots), inner.slots, k)
    ensures answer.Started? ==> inner.slots == old(inner.slots) + [Slot(k, Waiting(id))]
  {
    if OneSlotPerKey(inner.slots) && Find(inner.slots, k).Some? {
      PutAgain(inner.slots, k);
    } else if Find(inner.slots, k).None? {
      PutNew(inner.slots, k, Waiting(id));
    }
    match Find(inner.slots, k) {
      case Some(e) =>
        inner.slots := PutSlots(inner.slots, k, e);
        answer := match e case Ready(v, _) => Hit(v) case Waiting(q) => Join(q);
      case None =>
        var accepted := queue.TryPush(id, r);
        if !accepted {
          return QueueFull;
        }
        inner.slots := PutSlots(inner.slots, k, Waiting(id));
        answer := Started(id);
    }
  }

  // ------------------------------------------------------------------ what each request owes

  /** Broadcasts a request makes over its life: none exactly when its generator left its key out. */
  ghost function Owed<K, V>(q: Request<K, V>): nat {
    if q.made.Some? && !Produces(q.made.value, q.key) then 0 else 1
  }

  ghost function Due<K, V>(q: Request<K, V>): nat {
    match q.phase
    case Applying(rest, toSend) => (if toSend.Some? then 1 else 0) + (if Produces(rest, q.key) then 1 else 0)
    case Finished => 0
    case _ => 1
  }

  ghost predicate RequestOk<K, V>(q: Request<K, V>) {
    && |q.sent| + Due(q) == Owed(q)
    && (q.phase.Applying? ==> q.made.Some? && DistinctKeys(q.phase.rest))
    && (!q.phase.Applying? && !q.phase.Finished? ==> q.made.None?)
  }

  /** The request has not passed the cache section that removes its marker, or never will. */
  ghost predicate Unresolved<K, V>(q: Request<K, V>) {
    && q.sent == []
    && match q.phase
       case Applying(rest, toSend) => toSend.None? && (Produces(rest, q.key) || Owed(q) == 0)
       case Finished => Owed(q) == 0
       case ExpiredDropped => false
       case _ => true
  }

  ghost predicate RequestsOk<K, V>(rs: seq<Request<K, V>>) {
    forall i :: 0 <= i < |rs| ==> RequestOk(rs[i])
  }

  ghost predicate MarkerOk<K, V>(rs: seq<Request<K, V>>, s: Slot<K, V>) {
    s.entry.Waiting? ==> s.entry.request < |rs| && rs[s.entry.request].key == s.key && Unresolved(rs[s.entry.request])
  }

  ghost predicate MarkersOk<K, V>(rs: seq<Request<K, V>>, slots: seq<Slot<K, V>>) {
    forall s :: s in slots ==> MarkerOk(rs, s)
  }

  ghost predicate ClientOk<K, V>(rs: seq<Request<K, V>>, c: Client<K, V>) {
    match c.status
    case Listening(id) => id < |rs| && rs[id].key == c.key
    case ChannelClosed(id) => id < |rs| && rs[id].key == c.key && rs[id].phase.Finished? && rs[id].sent == []
    case _ => true
  }

  ghost predicate ClientsOk<K, V>(rs: seq<Request<K, V>>, cs: seq<Client<K, V>>) {
    forall i :: 0 <= i < |cs| ==> ClientOk(rs, cs[i])
  }

  ghost predicate Protocol<K, V>(s: State<K, V>) {
    && Valid(s.cache)
    && RequestsOk(s.requests)
    && MarkersOk(s.requests, s.cache.slots)
    && ClientsOk(s.requests, s.clients)
  }

  lemma ProducesTail<K, V>(ps: seq<Produced<K, V>>, k: K)
    requires ps != [] && DistinctKeys(ps)
    ensures DistinctKeys(ps[1..])
    ensures ps[0].key == k ==> !Produces(ps[1..], k)
    ensures ps[0].key != k ==> (Produces(ps, k) <==> Produces(ps[1..], k))
  {
  }

  lemma GetKeepsProtocol<K, V>(s: State<K, V>, k: K, r: PushReadings)
    requires Protocol(s)
    ensures Protocol(GetStep(s, k, r))
  {
    FindIsMember(s.cache.slots, k);
    var found := Find(s.cache.slots, k);
    if found.Some? {
      TouchKeepsAccounts(s.cache, k);
      assert MarkerOk(s.requests, Slot(k, found.value));
    } else if !Full(s.queue) {
      KickoffKeepsProtocol(s, k, r);
    }
  }

  lemma KickoffKeepsProtocol<K, V>(s: State<K, V>, k: K, r: PushReadings)
    requires Protocol(s) && Find(s.cache.slots, k).None? && !Full(s.queue)
    ensures Protocol(Kickoff(s, k, r))
  {
    var id := |s.requests|;
    AddWaitingKeepsAccounts(s.cache, k, id);
    var t := Kickoff(s, k, r);
    assert forall i :: 0 <= i < id ==> t.requests[i] == s.requests[i];
    forall x | x in t.cache.slots ensures MarkerOk(t.requests, x) {
      if x in s.cache.slots { assert MarkerOk(s.requests, x); }
    }
    forall i | 0 <= i < |t.clients| ensures ClientOk(t.requests, t.clients[i]) {
      if i < |s.clients| { assert ClientOk(s.requests, s.clients[i]); }
    }
  }

  lemma ChangeKeepsProtocol<K, V>(s: State<K, V>, id: nat, q: Request<K, V>, t: State<K, V>)
    requires Protocol(s) && id < |s.requests| && q.key == s.requests[id].key && !s.requests[id].phase.Finished?
    requires RequestOk(q)
    requires Unresolved(q) || forall x :: x in t.cache.slots ==> x.entry != Waiting(id)
    requires Valid(t.cache) && forall x :: x in t.cache.slots && x.entry.Waiting? ==> x in s.cache.slots
    requires t.clients == s.clients && t.requests == s.requests[id := q]
    ensures Protocol(t)
  {
  }

  lemma AppliedRequest<K, V>(q: Request<K, V>, toSend: Option<Outcome<V>>)
    requires RequestOk(q) && q.phase.Applying? && q.phase.toSend.None? && q.phase.rest != []
    requires toSend.Some? <==> q.phase.rest[0].key == q.key
    ensures
      var q' := q.(phase := Applying(q.phase.rest[1..], toSend));
      RequestOk(q') && (Unresolved(q) && toSend.None? ==> Unresolved(q'))
  {
  }

  lemma ApplyKeepsProtocol<K, V>(s: State<K, V>, id: nat)
    requires Protocol(s) && Legal(s, ApplyNext(id))
    ensures Protocol(ApplyStep(s, id))
  {
    var q, t := s.requests[id], ApplyStep(s, id);
    var p := q.phase.rest[0];
    UpdateKeepsAccounts(s.cache, p.key, p.made);
    assert RequestOk(q);
    AppliedRequest(q, t.requests[id].phase.toSend);
    if !Unresolved(t.requests[id]) {
      forall x | x in t.cache.slots ensures x.entry != Waiting(id) {
        if x in s.cache.slots { assert MarkerOk(s.requests, x); }
      }
    }
    ChangeKeepsProtocol(s, id, t.requests[id], t);
  }

  lemma DropKeepsProtocol<K, V>(s: State<K, V>, id: nat)
    requires Protocol(s) && Legal(s, DropExpired(id))
    ensures Protocol(Step(s, DropExpired(id)))
  {
    var q, t := s.requests[id], Step(s, DropExpired(id));
    DropWaitingKeepsAccounts(s.cache, q.key);
    assert RequestOk(q);
    forall x | x in t.cache.slots ensures x.entry != Waiting(id) {
      assert MarkerOk(s.requests, x);
    }
    ChangeKeepsProtocol(s, id, t.requests[id], t);
  }

  lemma BroadcastKeepsProtocol<K, V>(s: State<K, V>, id: nat)
    requires Protocol(s) && Legal(s, Broadcast(id))
    ensures Protocol(BroadcastStep(s, id))
  {
  }

  lemma TakeKeepsProtocol<K, V>(s: State<K, V>, r: PopReadings)
    requires Protocol(s) && QueueOk(s)
    ensures Protocol(TakeStep(s, r))
  {
    var t := TakeStep(s, r);
    if s.queue.buffer != [] {
      TakenIsQueued(s, r);
      var id := PopResult(s.queue, r).value.value;
      assert RequestOk(s.requests[id]);
      ChangeKeepsProtocol(s, id, t.requests[id], t);
    }
  }

  lemma ReceiveKeepsProtocol<K, V>(s: State<K, V>, c: nat)
    requires Protocol(s) && Legal(s, Receive(c))
    ensures Protocol(ReceiveStep(s, c))
  {
  }

  lemma GeneratedKeepsProtocol<K, V>(s: State<K, V>, id: nat, produced: seq<Produced<K, V>>)
    requires Protocol(s) && Legal(s, GeneratorDone(id, produced))
    ensures Protocol(GeneratedStep(s, id, produced))
  {
  }

  lemma FinishKeepsProtocol<K, V>(s: State<K, V>, id: nat)
    requires Protocol(s) && Legal(s, FinishLoop(id))
    ensures Protocol(Step(s, FinishLoop(id)))
  {
  }

  // ------------------------------------------------------------------ the queue and the worker

  /** The queue holds exactly the queued requests, once each. */
  ghost predicate QueueOk<K, V>(s: State<K, V>) {
    && Distinct(Values(s.queue))
    && forall id: nat :: id in Values(s.queue) <==> id < |s.requests| && s.requests[id].phase.Queued?
  }

  ghost predicate Running<K, V>(p: Phase<K, V>) {
    !p.Queued? && !p.Finished?
  }

  /** The worker holds exactly the running requests, within its concurrency limit. */
  ghost predicate WorkerOk<K, V>(s: State<K, V>) {
    && (forall id: nat :: id in s.inFlight <==> id < |s.requests| && Running(s.requests[id].phase))
    && (s.concurrency > 0 ==> |s.inFlight| <= s.concurrency)
  }

  lemma TakenIsQueued<K, V>(s: State<K, V>, r: PopReadings)
    requires QueueOk(s) && s.queue.buffer != []
    ensures PopResult(s.queue, r).Some?
    ensures
      var id := PopResult(s.queue, r).value.value;
      && id < |s.requests| && s.requests[id].phase.Queued?
      && Distinct(Values(AfterPop(s.queue, r)))
      && forall x :: x in Values(AfterPop(s.queue, r)) <==> x in Values(s.queue) && x != id
  {
    PopRemovesOne(s.queue, r);
  }

  /** A step that moves no request into or out of the queue or the worker. */
  lemma SettledChange<K, V>(s: State<K, V>, t: State<K, V>, id: nat)
    requires QueueOk(s) && WorkerOk(s) && id < |s.requests| && |t.requests| == |s.requests|
    requires Running(s.requests[id].phase) && Running(t.requests[id].phase)
    requires t.requests == s.requests[id := t.requests[id]]
    requires t.queue == s.queue && t.inFlight == s.inFlight && t.concurrency == s.concurrency
    ensures QueueOk(t) && WorkerOk(t)
  {
  }

  lemma LeavingWorker<K, V>(s: State<K, V>, t: State<K, V>, id: nat)
    requires QueueOk(s) && WorkerOk(s) && id < |s.requests| && |t.requests| == |s.requests|
    requires Running(s.requests[id].phase) && t.requests[id].phase.Finished?
    requires t.requests == s.requests[id := t.requests[id]]
    requires t.queue == s.queue && t.inFlight == s.inFlight - {id} && t.concurrency == s.concurrency
    ensures QueueOk(t) && WorkerOk(t)
  {
  }

  lemma TakingKeepsQueue<K, V>(s: State<K, V>, r: PopReadings)
    requires QueueOk(s) && WorkerOk(s) && Legal(s, TakeRequest(r))
    ensures QueueOk(TakeStep(s, r)) && WorkerOk(TakeStep(s, r))
  {
    if s.queue.buffer != [] {
      TakenIsQueued(s, r);
      var t, id := TakeStep(s, r), PopResult(s.queue, r).value.value;
      assert id !in s.inFlight;
      assert forall x: nat :: x != id && x < |s.requests| ==> t.requests[x] == s.requests[x];
      assert Values(t.queue) == Values(AfterPop(s.queue, r));
    } else {
      assert Values(TakeStep(s, r).queue) == Values(s.queue);
    }
  }

  lemma KickoffKeepsQueue<K, V>(s: State<K, V>, k: K, r: PushReadings)
    requires QueueOk(s) && WorkerOk(s) && !Full(s.queue)
    ensures QueueOk(Kickoff(s, k, r)) && WorkerOk(Kickoff(s, k, r))
  {
    var t, id := Kickoff(s, k, r), |s.requests|;
    PushAddsOne(s.queue, id, r);
    assert id !in Values(s.queue);
    assert forall x: nat :: x < id ==> t.requests[x] == s.requests[x];
  }

  ghost predicate Inv<K, V>(s: State<K, V>) {
    Protocol(s) && QueueOk(s) && WorkerOk(s)
  }

  lemma GetKeepsInv<K, V>(s: State<K, V>, k: K, r: PushReadings)
    requires Inv(s)
    ensures Inv(GetStep(s, k, r))
  {
    GetKeepsProtocol(s, k, r);
    if Find(s.cache.slots, k).None? && !Full(s.queue) {
      KickoffKeepsQueue(s, k, r);
    } else {
      var t := GetStep(s, k, r);
      assert t.requests == s.requests && t.queue == s.queue && t.inFlight == s.inFlight
          && t.concurrency == s.concurrency;
    }
  }

  lemma InvStep<K, V>(s: State<K, V>, e: Event<K, V>)
    requires Inv(s) && Legal(s, e)
    ensures Inv(Step(s, e))
  {
    match e {
      case Get(k, r) => GetKeepsInv(s, k, r);
      case TakeRequest(r) => TakeKeepsProtocol(s, r); TakingKeepsQueue(s, r);
      case GeneratorDone(id, produced) => GeneratedKeepsProtocol(s, id, produced); SettledChange(s, Step(s, e), id);
      case ApplyNext(id) => ApplyKeepsProtocol(s, id); SettledChange(s, Step(s, e), id);
      case Broadcast(id) =>
        BroadcastKeepsProtocol(s, id);
        if s.requests[id].phase.ExpiredDropped? {
          LeavingWorker(s, Step(s, e), id);
        } else {
          SettledChange(s, Step(s, e), id);
        }
      case FinishLoop(id) => FinishKeepsProtocol(s, id); LeavingWorker(s, Step(s, e), id);
      case DropExpired(id) => DropKeepsProtocol(s, id); SettledChange(s, Step(s, e), id);
      case Receive(c) => ReceiveKeepsProtocol(s, c);
    }
  }

  lemma {:induction false} InvRun<K, V>(s: State<K, V>, es: seq<Event<K, V>>)
    requires Inv(s) && LegalRun(s, es)
    ensures Inv(Run(s, es))
    decreases |es|
  {
    if es != [] {
      InvStep(s, es[0]);
      InvRun(Step(s, es[0]), es[1..]);
    }
  }

  lemma {:induction false} InvFromStart<K, V>(u: Setup, es: seq<Event<K, V>>)
    requires LegalRun(Start<K, V>(u), es)
    ensures Inv(Run(Start<K, V>(u), es))
  {
    InvRun(Start<K, V>(u), es);
  }

  // ------------------------------------------------------------------ safety over every run

  /**
   On every run: a marker in the cache belongs to a request for that key that has not broadcast, so
   no get can subscribe too late; and unless that request's generator left the key out, the request
   is still queued or running.
   */
  lemma MarkersAreServed<K, V>(u: Setup, es: seq<Event<K, V>>, k: K, id: nat)
    requires LegalRun(Start<K, V>(u), es)
    requires Find(Run(Start<K, V>(u), es).cache.slots, k) == Some(Waiting(id))
    ensures
      var rs := Run(Start<K, V>(u), es).requests;
      && id < |rs| && rs[id].key == k && rs[id].sent == []
      && (Owed(rs[id]) == 1 ==> !rs[id].phase.Finished?)
  {
    InvFromStart(u, es);
    var s := Run(Start<K, V>(u), es);
    FindIsMember(s.cache.slots, k);
    assert MarkerOk(s.requests, Slot(k, Waiting(id)));
  }

  /**
   On every run: no request broadcasts twice, and a finished one has broadcast exactly once unless
   its generator's map left its own key out, in which case it never did.
   */
  lemma BroadcastsOnce<K, V>(u: Setup, es: seq<Event<K, V>>, id: nat)
    requires LegalRun(Start<K, V>(u), es) && id < |Run(Start<K, V>(u), es).requests|
    ensures
      var q := Run(Start<K, V>(u), es).requests[id];
      && |q.sent| <= 1
      && (q.phase.Finished? ==> (|q.sent| == 1 <==> !(q.made.Some? && !Produces(q.made.value, q.key))))
  {
    InvFromStart(u, es);
    assert RequestOk(Run(Start<K, V>(u), es).requests[id]);
  }

  /**
   On every run: eviction, expiry and failure never cut a listener off.  A client finds its channel
   closed only when the generator it waited for left the key out.
   */
  lemma ListenersAreAnswered<K, V>(u: Setup, es: seq<Event<K, V>>, c: nat)
    requires LegalRun(Start<K, V>(u), es) && c < |Run(Start<K, V>(u), es).clients|
    ensures
      var s := Run(Start<K, V>(u), es);
      match s.clients[c].status
      case Listening(id) =>
        && id < |s.requests|
        && (|s.requests[id].sent| == 1 || Due(s.requests[id]) == 1 || Owed(s.requests[id]) == 0)
        && (|s.requests[id].sent| == 1 || s.requests[id].phase.Finished? ==> Legal(s, Receive(c)))
      case ChannelClosed(id) =>
        id < |s.requests| && s.requests[id].made.Some? && !Produces(s.requests[id].made.value, s.clients[c].key)
      case _ => true
  {
    InvFromStart(u, es);
    var s := Run(Start<K, V>(u), es);
    assert ClientOk(s.requests, s.clients[c]);
    assert forall i :: 0 <= i < |s.requests| ==> RequestOk(s.requests[i]);
  }

  lemma {:induction false} ConcurrencyKept<K, V>(s: State<K, V>, es: seq<Event<K, V>>)
    requires LegalRun(s, es)
    ensures Run(s, es).concurrency == s.concurrency
    decreases |es|
  {
    if es != [] {
      ConcurrencyKept(Step(s, es[0]), es[1..]);
    }
  }

  /** On every run the worker never has more requests open than its concurrency allows. */
  lemma ConcurrencyBounded<K, V>(u: Setup, es: seq<Event<K, V>>)
    requires LegalRun(Start<K, V>(u), es)
    ensures
      var s := Run(Start<K, V>(u), es);
      && (u.concurrency > 0 ==> |s.inFlight| <= u.concurrency)
      && forall id: nat :: id in s.inFlight <==> id < |s.requests| && Running(s.requests[id].phase)
  {
    InvFromStart(u, es);
    ConcurrencyKept(Start<K, V>(u), es);
  }

  // ------------------------------------------------------------------ size accounting

  /** What one step adds to the leak: the size of a stored value that an error result removes. */
  ghost function EventLeak<K, V>(s: State<K, V>, e: Event<K, V>): nat
    requires Legal(s, e)
  {
    match e
    case ApplyNext(id) => Leaked(s.cache, s.requests[id].phase.rest[0].key, s.requests[id].phase.rest[0].made)
    case _ => 0
  }

  ghost function RunLeak<K, V>(s: State<K, V>, es: seq<Event<K, V>>): nat
    requires LegalRun(s, es)
    decreases |es|
  {
    if es == [] then 0 else EventLeak(s, es[0]) + RunLeak(Step(s, es[0]), es[1..])
  }

  lemma LeakGet<K, V>(s: State<K, V>, k: K, r: PushReadings)
    requires Inv(s) && Legal(s, Get(k, r))
    ensures Leak(Step(s, Get(k, r)).cache) == Leak(s.cache) && Step(s, Get(k, r)).cache.maxSize == s.cache.maxSize
  {
    TouchKeepsAccounts(s.cache, k);
    if Find(s.cache.slots, k).None? { AddWaitingKeepsAccounts(s.cache, k, |s.requests|); }
  }

  lemma LeakStep<K, V>(s: State<K, V>, e: Event<K, V>)
    requires Inv(s) && Legal(s, e)
    ensures Leak(Step(s, e).cache) == Leak(s.cache) + EventLeak(s, e)
    ensures Step(s, e).cache.maxSize == s.cache.maxSize
  {
    match e {
      case Get(k, r) => LeakGet(s, k, r);
      case ApplyNext(id) =>
        UpdateKeepsAccounts(s.cache, s.requests[id].phase.rest[0].key, s.requests[id].phase.rest[0].made);
      case DropExpired(id) => DropWaitingKeepsAccounts(s.cache, s.requests[id].key);
      case _ =>
    }
  }

  lemma {:induction false} LeakRun<K, V>(s: State<K, V>, es: seq<Event<K, V>>)
    requires Inv(s) && LegalRun(s, es)
    ensures Leak(Run(s, es).cache) == Leak(s.cache) + RunLeak(s, es)
    ensures Run(s, es).cache.maxSize == s.cache.maxSize
    decreases |es|
  {
    if es != [] {
      InvStep(s, es[0]);
      LeakStep(s, es[0]);
      LeakRun(Step(s, es[0]), es[1..]);
    }
  }

  /**
   On every run, at every lock release: the counted size is within the limit and equals the stored
   sizes plus exactly what error results have leaked.  The leak therefore never exceeds the limit,
   which is what keeps eviction from running out of entries.
   */
  lemma SizeAccounted<K, V>(u: Setup, es: seq<Event<K, V>>)
    requires LegalRun(Start<K, V>(u), es)
    ensures
      var c := Run(Start<K, V>(u), es).cache;
      && c.currentSize == Total(c.slots) + RunLeak(Start<K, V>(u), es)
      && RunLeak(Start<K, V>(u), es) <= c.currentSize <= u.maxSize
  {
    InvFromStart(u, es);
    LeakRun(Start<K, V>(u), es);
  }

  /** Once errors have leaked the whole limit, on every further run nothing of positive size is stored. */
  lemma LeakedOutForever<K, V>(s: State<K, V>, es: seq<Event<K, V>>)
    requires Inv(s) && Leak(s.cache) == s.cache.maxSize && LegalRun(s, es)
    ensures Leak(Run(s, es).cache) == s.cache.maxSize && Total(Run(s, es).cache.slots) == 0
  {
    InvRun(s, es);
    LeakRun(s, es);
  }

  // ------------------------------------------------------------------ the cache is the function

  /** Every value a generator reports is the value of the function at that key. */
  ghost predicate Honest<K, V>(f: K -> V, ps: seq<Produced<K, V>>) {
    forall i :: 0 <= i < |ps| && ps[i].made.Value? ==> ps[i].made.value == f(ps[i].key)
  }

  ghost predicate HonestRun<K, V>(f: K -> V, es: seq<Event<K, V>>) {
    forall i :: 0 <= i < |es| && es[i].GeneratorDone? ==> Honest(f, es[i].produced)
  }

  ghost predicate SlotTrue<K, V>(f: K -> V, s: Slot<K, V>) {
    s.entry.Ready? ==> s.entry.value == f(s.key)
  }

  ghost predicate OutcomeTrue<K, V>(f: K -> V, k: K, o: Outcome<V>) {
    o.Ok? ==> o.value == f(k)
  }

  ghost predicate RequestTrue<K, V>(f: K -> V, q: Request<K, V>) {
    && (forall i :: 0 <= i < |q.sent| ==> OutcomeTrue(f, q.key, q.sent[i]))
    && (q.phase.Applying? ==>
          && Honest(f, q.phase.rest)
          && (q.phase.toSend.Some? ==> OutcomeTrue(f, q.key, q.phase.toSend.value)))
  }

  ghost predicate ClientTrue<K, V>(f: K -> V, c: Client<K, V>) {
    c.status.Done? ==> OutcomeTrue(f, c.key, c.status.outcome)
  }

  ghost predicate Truthful<K, V>(f: K -> V, s: State<K, V>) {
    && (forall x :: x in s.cache.slots ==> SlotTrue(f, x))
    && (forall i :: 0 <= i < |s.requests| ==> RequestTrue(f, s.requests[i]))
    && (forall i :: 0 <= i < |s.clients| ==> ClientTrue(f, s.clients[i]))
  }

  lemma TruthfulGet<K, V>(f: K -> V, s: State<K, V>, k: K, r: PushReadings)
    requires Inv(s) && Truthful(f, s)
    ensures Truthful(f, GetStep(s, k, r))
  {
    FindIsMember(s.cache.slots, k);
    TouchKeepsAccounts(s.cache, k);
    if Find(s.cache.slots, k).None? {
      AddWaitingKeepsAccounts(s.cache, k, |s.requests|);
    } else {
      assert SlotTrue(f, Slot(k, Find(s.cache.slots, k).value));
    }
  }

  lemma TruthfulChange<K, V>(f: K -> V, s: State<K, V>, t: State<K, V>, id: nat)
    requires Truthful(f, s) && id < |s.requests| == |t.requests| && t.requests == s.requests[id := t.requests[id]]
    requires RequestTrue(f, t.requests[id]) && t.clients == s.clients
    requires forall x :: x in t.cache.slots ==> SlotTrue(f, x)
    ensures Truthful(f, t)
  {
  }

  lemma TruthfulApply<K, V>(f: K -> V, s: State<K, V>, id: nat)
    requires Inv(s) && Truthful(f, s) && Legal(s, ApplyNext(id))
    ensures Truthful(f, ApplyStep(s, id))
  {
    var q, t := s.requests[id], ApplyStep(s, id);
    var p := q.phase.rest[0];
    assert RequestTrue(f, q);
    assert p.made.Value? ==> p.made.value == f(p.key);
    UpdateKeepsAccounts(s.cache, p.key, p.made);
    assert RequestTrue(f, t.requests[id]);
    TruthfulChange(f, s, t, id);
  }

  lemma TruthfulTake<K, V>(f: K -> V, s: State<K, V>, r: PopReadings)
    requires Inv(s) && Truthful(f, s)
    ensures Truthful(f, TakeStep(s, r))
  {
  }

  lemma TruthfulReceive<K, V>(f: K -> V, s: State<K, V>, c: nat)
    requires Inv(s) && Truthful(f, s) && Legal(s, Receive(c))
    ensures Truthful(f, ReceiveStep(s, c))
  {
  }

  lemma TruthfulStep<K, V>(f: K -> V, s: State<K, V>, e: Event<K, V>)
    requires Inv(s) && Truthful(f, s) && Legal(s, e)
    requires e.GeneratorDone? ==> Honest(f, e.produced)
    ensures Truthful(f, Step(s, e))
  {
    match e {
      case Get(k, r) => TruthfulGet(f, s, k, r);
      case TakeRequest(r) => TruthfulTake(f, s, r);
      case ApplyNext(id) => TruthfulApply(f, s, id);
      case Receive(c) => TruthfulReceive(f, s, c);
      case DropExpired(id) =>
        DropWaitingKeepsAccounts(s.cache, s.requests[id].key);
        assert RequestTrue(f, s.requests[id]);
        TruthfulChange(f, s, Step(s, e), id);
      case GeneratorDone(id, _) => assert RequestTrue(f, s.requests[id]); TruthfulChange(f, s, Step(s, e), id);
      case Broadcast(id) => assert RequestTrue(f, s.requests[id]); TruthfulChange(f, s, Step(s, e), id);
      case FinishLoop(id) => assert RequestTrue(f, s.requests[id]); TruthfulChange(f, s, Step(s, e), id);
    }
  }

  lemma {:induction false} TruthfulRun<K, V>(f: K -> V, s: State<K, V>, es: seq<Event<K, V>>)
    requires Inv(s) && Truthful(f, s) && LegalRun(s, es) && HonestRun(f, es)
    ensures Truthful(f, Run(s, es))
    decreases |es|
  {
    if es != [] {
      InvStep(s, es[0]);
      TruthfulStep(f, s, es[0]);
      assert forall i :: 0 <= i < |es[1..]| ==> es[1..][i] == es[i + 1];
      TruthfulRun(f, Step(s, es[0]), es[1..]);
    }
  }

  /**
   The cache refines the plain function: when generators report only its values, every successful
   get of a key returns the function's value there, whatever was prefetched, evicted, expired or
   failed in between.
   */
  lemma CacheIsTheFunction<K, V>(f: K -> V, u: Setup, es: seq<Event<K, V>>, c: nat, v: V)
    requires LegalRun(Start<K, V>(u), es) && HonestRun(f, es)
    requires c < |Run(Start<K, V>(u), es).clients| && Run(Start<K, V>(u), es).clients[c].status == Done(Ok(v))
    ensures v == f(Run(Start<K, V>(u), es).clients[c].key)
  {
    TruthfulRun(f, Start<K, V>(u), es);
    assert ClientTrue(f, Run(Start<K, V>(u), es).clients[c]);
  }
}
