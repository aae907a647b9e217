/**
 The bounded thread pool: one dispatcher, up to `maxThreads` worker threads, a request queue, a
 one-place work channel per worker and a shared channel of finished worker indices.  A job that
 panics takes its worker thread with it.

 The steps are the awaits and channel operations of the dispatcher and the workers.
 */
module ThreadPool {
  import opened Common
  import opened Q = CoDelQueue

  datatype Phase = Idle | Executing(job: nat) | Finishing | Dead

  datatype Worker = Worker(channel: Option<nat>, phase: Phase)

  datatype Dispatcher =
    | Draining
    | Reserving
    | AwaitingDone
    | AwaitingWork(worker: nat)
    | Expiring(worker: nat, job: nat)
    | Handing(worker: nat, job: nat)
    | Stopped

  /** Where a submitted job is, or how it ended. */
  datatype Spot =
    | InQueue | AtDispatcher | InChannel(worker: nat) | OnWorker(worker: nat)
    | Executed | Expired | Panicked

  /**
   `settled` logs the jobs in the order they ended.  `doneDropped` and `handOffFailed` record that
   an ignored or fatal send error was met.
   */
  datatype Pool = Pool(
    maxThreads: nat, dispatcher: Dispatcher, available: seq<nat>, workers: seq<Worker>, done: seq<nat>,
    queue: Queue<nat>, senders: nat, jobs: seq<Spot>, settled: seq<nat>,
    doneDropped: bool, handOffFailed: bool, clock: int)

  datatype Event =
    | Submit(push: PushReadings)
    | CloneSender
    | DropSender
    | Collect
    | Reserve
    | ReceiveDone
    | TakeJob(pop: PopReadings)
    | ExpireJob
    | HandOff
    | WorkerTakes(worker: nat)
    | WorkerExecutes(worker: nat)
    | WorkerPanics(worker: nat)
    | WorkerReports(worker: nat)

  /** A channel of capacity zero cannot be made, so the pool has at least one thread to give. */
  function Start(maxThreads: nat, config: Config, created: int): Pool
    requires maxThreads > 0
  {
    Pool(maxThreads, Draining, [], [], [], Empty(config, created), 1, [], [], false, false, created)
  }

  predicate Legal(p: Pool, e: Event) {
    match e
    case Submit(r) => p.senders > 0 && r.From(p.clock)
    case CloneSender => p.senders > 0
    case DropSender => p.senders > 0
    case Collect => p.dispatcher.Draining?
    case Reserve => p.dispatcher.Reserving?
    case ReceiveDone => p.dispatcher.AwaitingDone? && p.done != []
    case TakeJob(r) => p.dispatcher.AwaitingWork? && r.From(p.clock)
    case ExpireJob => p.dispatcher.Expiring? && p.dispatcher.job < |p.jobs|
    case HandOff => p.dispatcher.Handing? && p.dispatcher.job < |p.jobs| && p.dispatcher.worker < |p.workers|
    case WorkerTakes(w) =>
      w < |p.workers| && p.workers[w].phase.Idle? && p.workers[w].channel.Some? && p.workers[w].channel.value < |p.jobs|
    case WorkerExecutes(w) => w < |p.workers| && p.workers[w].phase.Executing? && p.workers[w].phase.job < |p.jobs|
    case WorkerPanics(w) => w < |p.workers| && p.workers[w].phase.Executing? && p.workers[w].phase.job < |p.jobs|
    case WorkerReports(w) => w < |p.workers| && p.workers[w].phase.Finishing?
  }

  function SubmitStep(p: Pool, r: PushReadings): Pool {
    if Full(p.queue) then p.(clock := r.base)
    else p.(queue := Push(p.queue, |p.jobs|, r), jobs := p.jobs + [InQueue], clock := r.base)
  }

  function CollectStep(p: Pool): Pool {
    if p.done == [] then p.(dispatcher := Reserving)
    else p.(available := p.available + [p.done[0]], done := p.done[1..])
  }

  function ReserveStep(p: Pool): Pool {
    if p.available != [] then
      p.(dispatcher := AwaitingWork(p.available[|p.available| - 1]), available := p.available[..|p.available| - 1])
    else if |p.workers| < p.maxThreads then
      p.(dispatcher := AwaitingWork(|p.workers|), workers := p.workers + [Worker(None, Idle)])
    else
      p.(dispatcher := AwaitingDone)
  }

  function TakeStep(p: Pool, r: PopReadings): Pool
    requires p.dispatcher.AwaitingWork?
  {
    var p' := p.(queue := AfterPop(p.queue, r), clock := r.after);
    match PopResult(p.queue, r)
    case None => if p.senders == 0 then p'.(dispatcher := Stopped) else p'
    case Some(got) =>
      var w := p.dispatcher.worker;
      var p'' := p'.(dispatcher := if got.expired then Expiring(w, got.value) else Handing(w, got.value));
      if got.value < |p.jobs| then p''.(jobs := p.jobs[got.value := AtDispatcher]) else p''
  }

  function ExpireStep(p: Pool): Pool
    requires p.dispatcher.Expiring? && p.dispatcher.job < |p.jobs|
  {
    p.(dispatcher := AwaitingWork(p.dispatcher.worker),
       jobs := p.jobs[p.dispatcher.job := Expired], settled := p.settled + [p.dispatcher.job])
  }

  function HandOffStep(p: Pool): Pool
    requires p.dispatcher.Handing? && p.dispatcher.job < |p.jobs| && p.dispatcher.worker < |p.workers|
  {
    var w, j := p.dispatcher.worker, p.dispatcher.job;
    if p.workers[w].channel.Some? || p.workers[w].phase.Dead? then
      p.(dispatcher := Stopped, handOffFailed := true)
    else
      p.(dispatcher := Draining, workers := p.workers[w := p.workers[w].(channel := Some(j))],
         jobs := p.jobs[j := InChannel(w)])
  }

  function Settle(p: Pool, w: nat, phase: Phase, spot: Spot): Pool
    requires w < |p.workers| && p.workers[w].phase.Executing? && p.workers[w].phase.job < |p.jobs|
  {
    var j := p.workers[w].phase.job;
    p.(workers := p.workers[w := p.workers[w].(phase := phase)], jobs := p.jobs[j := spot], settled := p.settled + [j])
  }

  function WorkerTakesStep(p: Pool, w: nat): Pool
    requires w < |p.workers| && p.workers[w].channel.Some? && p.workers[w].channel.value < |p.jobs|
  {
    var j := p.workers[w].channel.value;
    p.(workers := p.workers[w := Worker(None, Executing(j))], jobs := p.jobs[j := OnWorker(w)])
  }

  /** The report is a `try_send` whose failure the worker ignores. */
  function ReportStep(p: Pool, w: nat): Pool
    requires w < |p.workers|
  {
    var p' := p.(workers := p.workers[w := p.workers[w].(phase := Idle)]);
    if p.dispatcher.Stopped? then p'
    else if |p.done| < p.maxThreads then p'.(done := p.done + [w])
    else p'.(doneDropped := true)
  }

  function Step(p: Pool, e: Event): Pool
    requires Legal(p, e)
  {
    match e
    case Submit(r) => SubmitStep(p, r)
    case CloneSender => p.(senders := p.senders + 1)
    case DropSender => p.(senders := p.senders - 1)
    case Collect => CollectStep(p)
    case Reserve => ReserveStep(p)
    case ReceiveDone => p.(dispatcher := AwaitingWork(p.done[0]), done := p.done[1..])
    case TakeJob(r) => TakeStep(p, r)
    case ExpireJob => ExpireStep(p)
    case HandOff => HandOffStep(p)
    case WorkerTakes(w) => WorkerTakesStep(p, w)
    case WorkerExecutes(w) => Settle(p, w, Finishing, Executed)
    case WorkerPanics(w) => Settle(p, w, Dead, Panicked)
    case WorkerReports(w) => ReportStep(p, w)
  }

  predicate LegalRun(p: Pool, es: seq<Event>)
    decreases |es|
  {
    es == [] || (Legal(p, es[0]) && LegalRun(Step(p, es[0]), es[1..]))
  }

  function Run(p: Pool, es: seq<Event>): Pool
    requires LegalRun(p, es)
    decreases |es|
  {
    if es == [] then p else Run(Step(p, es[0]), es[1..])
  }

  // ------------------------------------------------------------------ every index in one place

  function One(b: bool): nat {
    if b then 1 else 0
  }

  function Reserved(d: Dispatcher): Option<nat> {
    match d
    case AwaitingWork(w) => Some(w)
    case Expiring(w, _) => Some(w)
    case Handing(w, _) => Some(w)
    case _ => None
  }

  ghost function Copies(s: seq<nat>, w: nat): nat {
    multiset(s)[w]
  }

  /** How many of the six places hold worker index `w`. */
  ghost function Places(p: Pool, w: nat): nat
    requires w < |p.workers|
  {
    Copies(p.available, w) + Copies(p.done, w) + One(Reserved(p.dispatcher) == Some(w))
    + One(p.workers[w].channel.Some?) + One(p.workers[w].phase.Executing? || p.workers[w].phase.Finishing?)
    + One(p.workers[w].phase.Dead?)
  }

  ghost predicate InRange(p: Pool) {
    && (forall i :: 0 <= i < |p.available| ==> p.available[i] < |p.workers|)
    && (forall i :: 0 <= i < |p.done| ==> p.done[i] < |p.workers|)
    && (Reserved(p.dispatcher).Some? ==> Reserved(p.dispatcher).value < |p.workers|)
  }

  /** Until the dispatcher stops, each worker index is in exactly one place. */
  ghost predicate Partitioned(p: Pool) {
    && |p.workers| <= p.maxThreads
    && InRange(p)
    && (!p.dispatcher.Stopped? ==> forall w: nat :: w < |p.workers| ==> Places(p, w) == 1)
    && (p.dispatcher.AwaitingDone? ==> p.available == [] && |p.workers| == p.maxThreads)
    && !p.doneDropped && !p.handOffFailed
  }

  lemma CopiesSnoc(s: seq<nat>, x: nat, w: nat)
    ensures Copies(s + [x], w) == Copies(s, w) + One(x == w)
  {
  }

  lemma CopiesTail(s: seq<nat>, w: nat)
    requires s != []
    ensures Copies(s, w) == Copies(s[1..], w) + One(s[0] == w)
  {
    assert s == [s[0]] + s[1..];
  }

  lemma CopiesInit(s: seq<nat>, w: nat)
    requires s != []
    ensures Copies(s, w) == Copies(s[..|s| - 1], w) + One(s[|s| - 1] == w)
  {
    assert s == s[..|s| - 1] + [s[|s| - 1]];
  }

  /** A report always finds room: the channel has a place for every worker not already in it. */
  lemma RoomToReport(p: Pool, w: nat)
    requires Partitioned(p) && !p.dispatcher.Stopped? && w < |p.workers| && p.workers[w].phase.Finishing?
    ensures |p.done| < p.maxThreads
  {
    var s := p.done + [w];
    assert Places(p, w) == 1;
    forall x | x in s ensures multiset(s)[x] <= 1 {
      CopiesSnoc(p.done, w, x);
      assert x < |p.workers|;
      assert Places(p, x) == 1;
    }
    DistinctFromMultiset(s);
    DistinctBelow(s, |p.workers|);
  }

  lemma CollectPartitioned(p: Pool)
    requires Partitioned(p) && p.dispatcher.Draining?
    ensures Partitioned(CollectStep(p))
  {
    var p' := CollectStep(p);
    if p.done != [] {
      forall w: nat | w < |p.workers| ensures Places(p', w) == 1 {
        assert Places(p, w) == 1;
        CopiesTail(p.done, w);
        CopiesSnoc(p.available, p.done[0], w);
      }
    } else {
      forall w: nat | w < |p.workers| ensures Places(p', w) == 1 { assert Places(p, w) == 1; }
    }
  }

  lemma ReservePartitioned(p: Pool)
    requires Partitioned(p) && p.dispatcher.Reserving?
    ensures Partitioned(ReserveStep(p))
  {
    var p' := ReserveStep(p);
    forall w: nat | w < |p'.workers| ensures Places(p', w) == 1 {
      if w < |p.workers| { assert Places(p, w) == 1; }
      if p.available != [] { CopiesInit(p.available, w); }
    }
  }

  lemma ReceivePartitioned(p: Pool)
    requires Partitioned(p) && Legal(p, ReceiveDone)
    ensures Partitioned(Step(p, ReceiveDone))
  {
    var p' := Step(p, ReceiveDone);
    forall w: nat | w < |p.workers| ensures Places(p', w) == 1 {
      assert Places(p, w) == 1;
      CopiesTail(p.done, w);
    }
  }

  lemma HandOffPartitioned(p: Pool)
    requires Partitioned(p) && Legal(p, HandOff)
    ensures Partitioned(HandOffStep(p))
  {
    var p', d := HandOffStep(p), p.dispatcher.worker;
    assert Places(p, d) == 1;
    forall w: nat | w < |p.workers| ensures Places(p', w) == 1 { assert Places(p, w) == 1; }
  }

  lemma WorkerPartitioned(p: Pool, e: Event)
    requires Partitioned(p) && Legal(p, e)
    requires e.WorkerTakes? || e.WorkerExecutes? || e.WorkerPanics?
    ensures Partitioned(Step(p, e))
  {
    var p' := Step(p, e);
    if !p.dispatcher.Stopped? {
      forall w: nat | w < |p.workers| ensures Places(p', w) == 1 { assert Places(p, w) == 1; }
    }
  }

  lemma ReportPartitioned(p: Pool, w: nat)
    requires Partitioned(p) && Legal(p, WorkerReports(w))
    ensures Partitioned(ReportStep(p, w))
  {
    if !p.dispatcher.Stopped? {
      RoomToReport(p, w);
      var p' := ReportStep(p, w);
      forall x: nat | x < |p.workers| ensures Places(p', x) == 1 {
        assert Places(p, x) == 1;
        CopiesSnoc(p.done, w, x);
      }
    }
  }

  lemma SamePlaces(p: Pool, p': Pool)
    requires Partitioned(p) && p'.available == p.available && p'.done == p.done && p'.workers == p.workers
    requires Reserved(p'.dispatcher) == Reserved(p.dispatcher)
    requires p'.dispatcher.AwaitingDone? == p.dispatcher.AwaitingDone?
    requires p.dispatcher.Stopped? ==> p'.dispatcher.Stopped?
    requires p'.maxThreads == p.maxThreads && p'.doneDropped == p.doneDropped && p'.handOffFailed == p.handOffFailed
    ensures Partitioned(p')
  {
    forall w: nat | w < |p.workers| && !p.dispatcher.Stopped? ensures Places(p', w) == 1 { assert Places(p, w) == 1; }
  }

  lemma PartitionedStep(p: Pool, e: Event)
    requires Partitioned(p) && Legal(p, e)
    ensures Partitioned(Step(p, e))
  {
    match e {
      case Collect => CollectPartitioned(p);
      case Reserve => ReservePartitioned(p);
      case ReceiveDone => ReceivePartitioned(p);
      case HandOff => HandOffPartitioned(p);
      case WorkerReports(w) => ReportPartitioned(p, w);
      case WorkerTakes(_) => WorkerPartitioned(p, e);
      case WorkerExecutes(_) => WorkerPartitioned(p, e);
      case WorkerPanics(_) => WorkerPartitioned(p, e);
      case TakeJob(r) => if !Step(p, e).dispatcher.Stopped? { SamePlaces(p, Step(p, e)); }
      case _ => SamePlaces(p, Step(p, e));
    }
  }

  // ------------------------------------------------------------------ every job in one place

  ghost predicate IsSettled(x: Spot) {
    x.Executed? || x.Expired? || x.Panicked?
  }

  function Held(d: Dispatcher): Option<nat> {
    match d
    case Expiring(_, j) => Some(j)
    case Handing(_, j) => Some(j)
    case _ => None
  }

  /** The job is where its spot says. */
  ghost predicate JobOk(p: Pool, j: nat)
    requires j < |p.jobs|
  {
    match p.jobs[j]
    case AtDispatcher => Held(p.dispatcher) == Some(j)
    case InChannel(w) => w < |p.workers| && p.workers[w].channel == Some(j)
    case OnWorker(w) => w < |p.workers| && p.workers[w].phase == Executing(j)
    case _ => true
  }

  /** The worker holds only jobs whose spot is this worker. */
  ghost predicate WorkerOk(p: Pool, w: nat)
    requires w < |p.workers|
  {
    && (p.workers[w].channel.Some? ==>
          p.workers[w].channel.value < |p.jobs| && p.jobs[p.workers[w].channel.value] == InChannel(w))
    && (p.workers[w].phase.Executing? ==>
          p.workers[w].phase.job < |p.jobs| && p.jobs[p.workers[w].phase.job] == OnWorker(w))
  }

  ghost predicate QueueOk(p: Pool) {
    && Distinct(Values(p.queue))
    && forall j: nat :: j in Values(p.queue) <==> j < |p.jobs| && p.jobs[j].InQueue?
  }

  ghost predicate LogOk(p: Pool) {
    && Distinct(p.settled)
    && forall j: nat :: j in p.settled <==> j < |p.jobs| && IsSettled(p.jobs[j])
  }

  ghost predicate Tracked(p: Pool) {
    && (forall j: nat :: j < |p.jobs| ==> JobOk(p, j))
    && (forall w: nat :: w < |p.workers| ==> WorkerOk(p, w))
    && (Held(p.dispatcher).Some? ==>
          Held(p.dispatcher).value < |p.jobs| && p.jobs[Held(p.dispatcher).value].AtDispatcher?)
  }

  ghost predicate Inv(p: Pool) {
    Partitioned(p) && Tracked(p) && QueueOk(p) && LogOk(p)
  }

  lemma TakeTracked(p: Pool, r: PopReadings)
    requires Inv(p) && Legal(p, TakeJob(r))
    ensures Tracked(TakeStep(p, r)) && QueueOk(TakeStep(p, r)) && LogOk(TakeStep(p, r))
  {
    var p' := TakeStep(p, r);
    if p.queue.buffer != [] {
      PopRemovesOne(p.queue, r);
      var got := PopResult(p.queue, r).value.value;
      assert p.jobs[got].InQueue?;
      forall j: nat | j < |p'.jobs| ensures JobOk(p', j) { assert JobOk(p, j); }
      forall w: nat | w < |p'.workers| ensures WorkerOk(p', w) { assert WorkerOk(p, w); }
    } else {
      assert Values(p'.queue) == [] && Values(p.queue) == [];
      forall j: nat | j < |p'.jobs| ensures JobOk(p', j) { assert JobOk(p, j); }
      forall w: nat | w < |p'.workers| ensures WorkerOk(p', w) { assert WorkerOk(p, w); }
    }
  }

  lemma SubmitTracked(p: Pool, r: PushReadings)
    requires Inv(p)
    ensures Tracked(SubmitStep(p, r)) && QueueOk(SubmitStep(p, r)) && LogOk(SubmitStep(p, r))
  {
    var p' := SubmitStep(p, r);
    if !Full(p.queue) {
      PushAddsOne(p.queue, |p.jobs|, r);
      assert |p.jobs| !in Values(p.queue);
      assert forall j: nat :: j < |p.jobs| ==> p'.jobs[j] == p.jobs[j];
    }
    forall j: nat | j < |p'.jobs| ensures JobOk(p', j) { if j < |p.jobs| { assert JobOk(p, j); } }
    forall w: nat | w < |p'.workers| ensures WorkerOk(p', w) { assert WorkerOk(p, w); }
  }

  /** A job that moves between places outside the queue without ending. */
  lemma MoveKeepsLog(p: Pool, p': Pool, j: nat)
    requires QueueOk(p) && LogOk(p) && j < |p.jobs| && !p.jobs[j].InQueue? && !IsSettled(p.jobs[j])
    requires |p'.jobs| == |p.jobs| && p'.jobs == p.jobs[j := p'.jobs[j]] && p'.queue == p.queue
    requires !p'.jobs[j].InQueue?
    requires if IsSettled(p'.jobs[j]) then p'.settled == p.settled + [j] else p'.settled == p.settled
    ensures QueueOk(p') && LogOk(p')
  {
  }

  lemma DispatchTracked(p: Pool, e: Event)
    requires Inv(p) && Legal(p, e) && (e.ExpireJob? || e.HandOff?)
    ensures Tracked(Step(p, e))
  {
    var p' := Step(p, e);
    if e.HandOff? {
      assert Places(p, p.dispatcher.worker) == 1;
    }
    forall j: nat | j < |p'.jobs| ensures JobOk(p', j) { assert JobOk(p, j); }
    forall w: nat | w < |p'.workers| ensures WorkerOk(p', w) { assert WorkerOk(p, w); }
  }

  lemma WorkTracked(p: Pool, e: Event)
    requires Inv(p) && Legal(p, e) && (e.WorkerTakes? || e.WorkerExecutes? || e.WorkerPanics?)
    ensures Tracked(Step(p, e))
  {
    var p' := Step(p, e);
    assert WorkerOk(p, e.worker);
    forall j: nat | j < |p'.jobs| ensures JobOk(p', j) { assert JobOk(p, j); }
    forall w: nat | w < |p'.workers| ensures WorkerOk(p', w) { assert WorkerOk(p, w); }
  }

  lemma JobEventLogged(p: Pool, e: Event)
    requires Inv(p) && Legal(p, e)
    requires e.ExpireJob? || e.HandOff? || e.WorkerTakes? || e.WorkerExecutes? || e.WorkerPanics?
    ensures QueueOk(Step(p, e)) && LogOk(Step(p, e))
  {
    match e {
      case ExpireJob => MoveKeepsLog(p, Step(p, e), p.dispatcher.job);
      case HandOff =>
        assert Places(p, p.dispatcher.worker) == 1;
        MoveKeepsLog(p, Step(p, e), p.dispatcher.job);
      case WorkerTakes(w) => assert WorkerOk(p, w); MoveKeepsLog(p, Step(p, e), p.workers[w].channel.value);
      case WorkerExecutes(w) => assert WorkerOk(p, w); MoveKeepsLog(p, Step(p, e), p.workers[w].phase.job);
      case WorkerPanics(w) => assert WorkerOk(p, w); MoveKeepsLog(p, Step(p, e), p.workers[w].phase.job);
    }
  }

  lemma IndexEventTracked(p: Pool, e: Event)
    requires Inv(p) && Legal(p, e)
    requires e.CloneSender? || e.DropSender? || e.Collect? || e.Reserve? || e.ReceiveDone? || e.WorkerReports?
    ensures Tracked(Step(p, e)) && QueueOk(Step(p, e)) && LogOk(Step(p, e))
  {
    var p' := Step(p, e);
    assert p'.jobs == p.jobs && p'.queue == p.queue && p'.settled == p.settled;
    forall j: nat | j < |p'.jobs| ensures JobOk(p', j) { assert JobOk(p, j); }
    forall w: nat | w < |p'.workers| ensures WorkerOk(p', w) { if w < |p.workers| { assert WorkerOk(p, w); } }
  }

  lemma InvStep(p: Pool, e: Event)
    requires Inv(p) && Legal(p, e)
    ensures Inv(Step(p, e))
  {
    PartitionedStep(p, e);
    if e.Submit? {
      SubmitTracked(p, e.push);
    } else if e.TakeJob? {
      TakeTracked(p, e.pop);
    } else if e.CloneSender? || e.DropSender? || e.Collect? || e.Reserve? || e.ReceiveDone? || e.WorkerReports? {
      IndexEventTracked(p, e);
    } else {
      if e.ExpireJob? || e.HandOff? { DispatchTracked(p, e); } else { WorkTracked(p, e); }
      JobEventLogged(p, e);
    }
  }

  lemma {:induction false} InvRun(p: Pool, es: seq<Event>)
    requires Inv(p) && LegalRun(p, es)
    ensures Inv(Run(p, es)) && Run(p, es).maxThreads == p.maxThreads
    decreases |es|
  {
    if es != [] {
      InvStep(p, es[0]);
      InvRun(Step(p, es[0]), es[1..]);
    }
  }

  // ------------------------------------------------------------------ safety over every run

  /**
   On every run: there are at most `maxThreads` workers, each index is in exactly one place while
   the dispatcher runs, no report was ever dropped, and no hand-off ever failed.
   */
  lemma IndicesArePartitioned(maxThreads: nat, config: Config, created: int, es: seq<Event>)
    requires maxThreads > 0 && LegalRun(Start(maxThreads, config, created), es)
    ensures
      var p := Run(Start(maxThreads, config, created), es);
      && |p.workers| <= maxThreads
      && (!p.dispatcher.Stopped? ==> forall w: nat :: w < |p.workers| ==> Places(p, w) == 1)
      && !p.doneDropped && !p.handOffFailed
  {
    InvRun(Start(maxThreads, config, created), es);
  }

  /** On every run each job ends at most once, and ends exactly when it was executed, expired or panicked. */
  lemma JobsEndOnce(maxThreads: nat, config: Config, created: int, es: seq<Event>)
    requires maxThreads > 0 && LegalRun(Start(maxThreads, config, created), es)
    ensures
      var p := Run(Start(maxThreads, config, created), es);
      && Distinct(p.settled)
      && forall j: nat :: j in p.settled <==> j < |p.jobs| && IsSettled(p.jobs[j])
  {
    InvRun(Start(maxThreads, config, created), es);
  }

  /** Jobs taken from the queue and not ended. */
  ghost predicate Open(p: Pool, j: nat) {
    j < |p.jobs| && (p.jobs[j].AtDispatcher? || p.jobs[j].InChannel? || p.jobs[j].OnWorker?)
  }

  /** The worker index an open job occupies. */
  ghost function Seat(p: Pool, j: nat): nat
    requires Inv(p) && Open(p, j)
    ensures Seat(p, j) < |p.workers|
  {
    assert JobOk(p, j);
    match p.jobs[j]
    case AtDispatcher => Reserved(p.dispatcher).value
    case InChannel(w) => w
    case OnWorker(w) => w
  }

  lemma SeatsDiffer(p: Pool, a: nat, b: nat)
    requires Inv(p) && !p.dispatcher.Stopped? && Open(p, a) && Open(p, b) && Seat(p, a) == Seat(p, b)
    ensures a == b
  {
    assert JobOk(p, a) && JobOk(p, b);
    assert Places(p, Seat(p, a)) == 1;
  }

  lemma SeatIsAlive(p: Pool, j: nat)
    requires Inv(p) && !p.dispatcher.Stopped? && Open(p, j)
    ensures !p.workers[Seat(p, j)].phase.Dead?
  {
    assert JobOk(p, j);
    assert Places(p, Seat(p, j)) == 1;
  }

  /**
   On every run, while the dispatcher runs, the jobs taken and unfinished and the threads lost to
   panics together are at most `maxThreads`: each panic takes one seat for good.
   */
  lemma OpenJobsBounded(maxThreads: nat, config: Config, created: int, es: seq<Event>, open: seq<nat>, dead: seq<nat>)
    requires maxThreads > 0 && LegalRun(Start(maxThreads, config, created), es)
    requires !Run(Start(maxThreads, config, created), es).dispatcher.Stopped?
    requires Distinct(open) && Distinct(dead)
    requires forall i :: 0 <= i < |open| ==> Open(Run(Start(maxThreads, config, created), es), open[i])
    requires forall i :: 0 <= i < |dead| ==> IsDead(Run(Start(maxThreads, config, created), es), dead[i])
    ensures |open| + |dead| <= maxThreads
  {
    InvRun(Start(maxThreads, config, created), es);
    SeatsBounded(Run(Start(maxThreads, config, created), es), open, dead);
  }

  ghost predicate IsDead(p: Pool, w: nat) {
    w < |p.workers| && p.workers[w].phase.Dead?
  }

  lemma SeatsBounded(p: Pool, open: seq<nat>, dead: seq<nat>)
    requires Inv(p) && !p.dispatcher.Stopped?
    requires Distinct(open) && forall i :: 0 <= i < |open| ==> Open(p, open[i])
    requires Distinct(dead) && forall i :: 0 <= i < |dead| ==> IsDead(p, dead[i])
    ensures |open| + |dead| <= |p.workers|
  {
    var seats: seq<nat> := seq(|open|, i requires 0 <= i < |open| => Seat(p, open[i])) + dead;
    forall i, k | 0 <= i < k < |seats| ensures seats[i] != seats[k] {
      if i < |open| {
        SeatIsAlive(p, open[i]);
        if k < |open| && seats[i] == seats[k] { SeatsDiffer(p, open[i], open[k]); }
      }
    }
    DistinctBelow(seats, |p.workers|);
  }

  /** The dispatcher blocks for a worker only when every worker is busy, reporting or dead. */
  lemma BlockedMeansBusy(maxThreads: nat, config: Config, created: int, es: seq<Event>, w: nat)
    requires maxThreads > 0 && LegalRun(Start(maxThreads, config, created), es)
    requires Run(Start(maxThreads, config, created), es).dispatcher.AwaitingDone? && w < maxThreads
    ensures
      var p := Run(Start(maxThreads, config, created), es);
      && |p.workers| == maxThreads
      && (w in p.done || p.workers[w].channel.Some? || !p.workers[w].phase.Idle?)
  {
    InvRun(Start(maxThreads, config, created), es);
    var p := Run(Start(maxThreads, config, created), es);
    assert Places(p, w) == 1;
  }

  // ------------------------------------------------------------------ panics shrink the pool

  /** Every thread the pool may have was lost to a panic. */
  ghost predicate Exhausted(p: Pool) {
    && !p.dispatcher.Stopped?
    && |p.workers| == p.maxThreads
    && forall w :: 0 <= w < |p.workers| ==> p.workers[w].phase.Dead?
  }

  lemma DeadIsNowhereElse(p: Pool, w: nat)
    requires Inv(p) && !p.dispatcher.Stopped? && w < |p.workers| && p.workers[w].phase.Dead?
    ensures w !in p.available && w !in p.done && Reserved(p.dispatcher) != Some(w) && p.workers[w].channel.None?
  {
    assert Places(p, w) == 1;
    assert w in p.available ==> Copies(p.available, w) > 0;
    assert w in p.done ==> Copies(p.done, w) > 0;
  }

  /** A lost thread's index is nowhere else, so nothing is left to hand out. */
  lemma ExhaustedPlaces(p: Pool)
    requires Inv(p) && Exhausted(p)
    ensures p.available == [] && p.done == [] && Reserved(p.dispatcher).None?
    ensures forall w :: 0 <= w < |p.workers| ==> p.workers[w].channel.None?
  {
    assert p.available != [] ==> p.available[0] in p.available && p.available[0] < |p.workers|;
    assert p.done != [] ==> p.done[0] in p.done && p.done[0] < |p.workers|;
    assert Reserved(p.dispatcher).Some? ==> Reserved(p.dispatcher).value < |p.workers|;
    forall w: nat | w < |p.workers|
      ensures w !in p.available && w !in p.done && Reserved(p.dispatcher) != Some(w) && p.workers[w].channel.None?
    {
      DeadIsNowhereElse(p, w);
    }
  }

  lemma ExhaustedStep(p: Pool, e: Event)
    requires Inv(p) && Exhausted(p) && Legal(p, e)
    ensures Exhausted(Step(p, e)) && Step(p, e).settled == p.settled
  {
    ExhaustedPlaces(p);
  }

  /** From then on nothing queued is ever executed or expired, though submissions are accepted. */
  lemma {:induction false} ExhaustedForever(p: Pool, es: seq<Event>)
    requires Inv(p) && Exhausted(p) && LegalRun(p, es)
    ensures Exhausted(Run(p, es)) && Run(p, es).settled == p.settled
    decreases |es|
  {
    if es != [] {
      InvStep(p, es[0]);
      ExhaustedStep(p, es[0]);
      ExhaustedForever(Step(p, es[0]), es[1..]);
    }
  }

  // ------------------------------------------------------------------ short of that, the pool can serve

  ghost predicate Unserved(p: Pool) {
    exists j :: 0 <= j < |p.jobs| && !IsSettled(p.jobs[j])
  }

  /** A run that ends one more job. */
  ghost predicate Serves(p: Pool, es: seq<Event>) {
    LegalRun(p, es) && |Run(p, es).settled| > |p.settled|
  }

  /** A step that ends no job, before a run that does. */
  lemma Before(p: Pool, e: Event, es: seq<Event>)
    requires Legal(p, e) && Serves(Step(p, e), es)
    ensures Serves(p, [e] + es)
  {
    assert ([e] + es)[1..] == es;
    assert |Step(p, e).settled| >= |p.settled|;
  }

  lemma ServesExecuting(p: Pool, w: nat) returns (es: seq<Event>)
    requires Inv(p) && w < |p.workers| && p.workers[w].phase.Executing?
    ensures Serves(p, es)
  {
    assert WorkerOk(p, w);
    es := [WorkerExecutes(w)];
    assert es[1..] == [];
  }

  lemma ServesChannel(p: Pool, w: nat) returns (es: seq<Event>)
    requires Inv(p) && !p.dispatcher.Stopped? && w < |p.workers| && p.workers[w].channel.Some?
    ensures Serves(p, es)
  {
    assert Places(p, w) == 1;
    assert WorkerOk(p, w);
    InvStep(p, WorkerTakes(w));
    es := ServesExecuting(Step(p, WorkerTakes(w)), w);
    Before(p, WorkerTakes(w), es);
    es := [WorkerTakes(w)] + es;
  }

  lemma ServesHeld(p: Pool) returns (es: seq<Event>)
    requires Inv(p) && (p.dispatcher.Expiring? || p.dispatcher.Handing?)
    ensures Serves(p, es)
  {
    if p.dispatcher.Expiring? {
      es := [ExpireJob];
      assert es[1..] == [];
    } else {
      var w := p.dispatcher.worker;
      assert Places(p, w) == 1;
      InvStep(p, HandOff);
      es := ServesChannel(Step(p, HandOff), w);
      Before(p, HandOff, es);
      es := [HandOff] + es;
    }
  }

  /** An unserved job that nobody has taken is in the queue. */
  lemma QueueHolds(p: Pool)
    requires Inv(p) && Unserved(p) && Held(p.dispatcher).None?
    requires forall w :: 0 <= w < |p.workers| ==> p.workers[w].channel.None? && !p.workers[w].phase.Executing?
    ensures p.queue.buffer != []
  {
    var j :| 0 <= j < |p.jobs| && !IsSettled(p.jobs[j]);
    assert JobOk(p, j);
    assert j in Values(p.queue);
  }

  lemma ServesAwaiting(p: Pool) returns (es: seq<Event>)
    requires Inv(p) && p.dispatcher.AwaitingWork? && p.queue.buffer != []
    ensures Serves(p, es)
  {
    var r := PopReadings(p.clock, p.clock, p.clock, p.clock);
    InvStep(p, TakeJob(r));
    es := ServesHeld(Step(p, TakeJob(r)));
    Before(p, TakeJob(r), es);
    es := [TakeJob(r)] + es;
  }

  /** Nobody has a job at hand, and a thread can be had. */
  ghost predicate Ready(p: Pool) {
    && Inv(p) && !p.dispatcher.Stopped? && p.queue.buffer != [] && !Exhausted(p)
    && forall w :: 0 <= w < |p.workers| ==> p.workers[w].channel.None? && !p.workers[w].phase.Executing?
  }

  lemma ServesReported(p: Pool) returns (es: seq<Event>)
    requires Ready(p) && p.dispatcher.AwaitingDone? && p.done != []
    ensures Serves(p, es)
  {
    InvStep(p, ReceiveDone);
    es := ServesAwaiting(Step(p, ReceiveDone));
    Before(p, ReceiveDone, es);
    es := [ReceiveDone] + es;
  }

  lemma ServesBlocked(p: Pool) returns (es: seq<Event>)
    requires Ready(p) && p.dispatcher.AwaitingDone?
    ensures Serves(p, es)
  {
    if p.done != [] {
      es := ServesReported(p);
    } else {
      var w :| 0 <= w < |p.workers| && !p.workers[w].phase.Dead?;
      assert Places(p, w) == 1;
      assert p.workers[w].phase.Finishing?;
      InvStep(p, WorkerReports(w));
      assert !Step(p, WorkerReports(w)).workers[w].phase.Dead?;
      es := ServesReported(Step(p, WorkerReports(w)));
      Before(p, WorkerReports(w), es);
      es := [WorkerReports(w)] + es;
    }
  }

  lemma ServesReserving(p: Pool) returns (es: seq<Event>)
    requires Ready(p) && p.dispatcher.Reserving?
    ensures Serves(p, es)
  {
    InvStep(p, Reserve);
    var p' := Step(p, Reserve);
    if p'.dispatcher.AwaitingWork? {
      es := ServesAwaiting(p');
    } else {
      es := ServesBlocked(p');
    }
    Before(p, Reserve, es);
    es := [Reserve] + es;
  }

  lemma {:induction false} ServesDraining(p: Pool) returns (es: seq<Event>)
    requires Ready(p) && p.dispatcher.Draining?
    ensures Serves(p, es)
    decreases |p.done|
  {
    InvStep(p, Collect);
    var p' := Step(p, Collect);
    if p.done == [] {
      es := ServesReserving(p');
    } else {
      es := ServesDraining(p');
    }
    Before(p, Collect, es);
    es := [Collect] + es;
  }

  /**
   No deadlock: while the dispatcher runs and a job is unserved, some continuation ends another job,
   unless every thread was lost; and then none does.
   */
  lemma ServesUnlessExhausted(p: Pool) returns (es: seq<Event>)
    requires Inv(p) && !p.dispatcher.Stopped? && Unserved(p)
    ensures !Exhausted(p) ==> Serves(p, es)
    ensures Exhausted(p) ==> forall fs :: !Serves(p, fs)
  {
    es := [];
    if Exhausted(p) {
      forall fs | LegalRun(p, fs) ensures !Serves(p, fs) {
        ExhaustedForever(p, fs);
      }
    } else if exists w :: 0 <= w < |p.workers| && p.workers[w].phase.Executing? {
      var w :| 0 <= w < |p.workers| && p.workers[w].phase.Executing?;
      es := ServesExecuting(p, w);
    } else if exists w :: 0 <= w < |p.workers| && p.workers[w].channel.Some? {
      var w :| 0 <= w < |p.workers| && p.workers[w].channel.Some?;
      es := ServesChannel(p, w);
    } else if Held(p.dispatcher).Some? {
      es := ServesHeld(p);
    } else {
      QueueHolds(p);
      es := ServesFree(p);
    }
  }

  lemma ServesFree(p: Pool) returns (es: seq<Event>)
    requires Ready(p) && Held(p.dispatcher).None?
    ensures Serves(p, es)
  {
    match p.dispatcher
    case Draining => es := ServesDraining(p);
    case Reserving => es := ServesReserving(p);
    case AwaitingDone => es := ServesBlocked(p);
    case AwaitingWork(_) => es := ServesAwaiting(p);
  }

  const PUSH := PushReadings(0, 0, 0, 0)
  const POP := PopReadings(0, 0, 0, 0)

  lemma {:induction false} Extend(p: Pool, es: seq<Event>, e: Event)
    requires LegalRun(p, es) && Legal(Run(p, es), e)
    ensures LegalRun(p, es + [e]) && Run(p, es + [e]) == Step(Run(p, es), e)
    decreases |es|
  {
    if es == [] {
      assert (es + [e])[1..] == [];
    } else {
      Extend(Step(p, es[0]), es[1..], e);
      assert (es + [e])[1..] == es[1..] + [e];
    }
  }

  ghost predicate Leads(config: Config, es: seq<Event>, p: Pool) {
    LegalRun(Start(1, config, 0), es) && Run(Start(1, config, 0), es) == p
  }

  lemma Then(config: Config, es: seq<Event>, p: Pool, e: Event) returns (es': seq<Event>, p': Pool)
    requires Leads(config, es, p) && Legal(p, e)
    ensures es' == es + [e] && p' == Step(p, e) && Leads(config, es', p')
  {
    Extend(Start(1, config, 0), es, e);
    es', p' := es + [e], Step(p, e);
  }

  lemma JobHandedOff(config: Config) returns (es: seq<Event>, p: Pool)
    requires config == Config(5, 5, 1)
    ensures Leads(config, es, p) && p.dispatcher == Draining && p.available == [] && p.done == [] && p.maxThreads == 1
    ensures p.workers == [Worker(Some(0), Idle)] && p.jobs == [InChannel(0), InQueue]
  {
    es, p := [], Start(1, config, 0);
    es, p := Then(config, es, p, Submit(PUSH));
    es, p := Then(config, es, p, Submit(PUSH));
    assert p.queue.buffer == [Item(0, 5), Item(1, 5)];
    es, p := Then(config, es, p, Collect);
    es, p := Then(config, es, p, Reserve);
    es, p := Then(config, es, p, TakeJob(POP));
    es, p := Then(config, es, p, HandOff);
  }

  /** One panicking job exhausts a pool of one thread and strands the job behind it. */
  lemma OnePanicExhausts(config: Config) returns (es: seq<Event>, p: Pool)
    requires config == Config(5, 5, 1)
    ensures Leads(config, es, p) && Exhausted(p) && p.jobs == [Panicked, InQueue]
  {
    es, p := JobHandedOff(config);
    es, p := Then(config, es, p, WorkerTakes(0));
    es, p := Then(config, es, p, WorkerPanics(0));
    es, p := Then(config, es, p, Collect);
    es, p := Then(config, es, p, Reserve);
  }

  // ------------------------------------------------------------------ the dispatcher's choice

  /** The scheduler object: how it drains finished indices and reserves the next worker. */
  class Scheduler {
    var available: seq<nat>
    var workerCount: nat
    const maxThreads: nat

    constructor (maxThreads: nat)
      ensures available == [] && workerCount == 0 && this.maxThreads == maxThreads
    {
      this.maxThreads := maxThreads;
      available := [];
      workerCount := 0;
    }

    /** Drains the done channel in order, so the most recent finisher ends on top of the stack. */
    method DrainDone(done: seq<nat>)
      modifies this`available
      ensures available == old(available) + done
    {
      var rest := done;
      while rest != []
        invariant available + rest == old(available) + done
        decreases |rest|
      {
        available := available + [rest[0]];
        rest := rest[1..];
      }
    }

    method CreateWorker() returns (index: nat)
      modifies this`workerCount
      ensures index == old(workerCount) && workerCount == old(workerCount) + 1
    {
      index := workerCount;
      workerCount := workerCount + 1;
    }

    /** The worker the next job goes to, or none when it has to wait for a report. */
    method ReserveWorker(done: seq<nat>) returns (worker: Option<nat>)
      modifies this
      ensures
        var pile := old(available) + done;
        if pile != [] then
          worker == Some(pile[|pile| - 1]) && available == pile[..|pile| - 1] && workerCount == old(workerCount)
        else if old(workerCount) < maxThreads then
          worker == Some(old(workerCount)) && available == [] && workerCount == old(workerCount) + 1
        else
          worker == None && available == [] && workerCount == old(workerCount)
    {
      DrainDone(done);
      if |available| > 0 {
        worker := Some(available[|available| - 1]);
        available := available[..|available| - 1];
      } else if workerCount < maxThreads {
        var index := CreateWorker();
        worker := Some(index);
      } else {
        worker := None;
      }
    }
  }

  /** The machine's drain and reserve steps make the same choice as the scheduler object. */
  lemma {:induction false} CollectThenReserve(p: Pool)
    requires p.dispatcher.Draining?
    ensures
      var es := seq(|p.done| + 1, i => Collect) + [Reserve];
      && LegalRun(p, es)
      && Run(p, es) == ReserveStep(p.(dispatcher := Reserving, available := p.available + p.done, done := []))
    decreases |p.done|
  {
    var es := seq(|p.done| + 1, i => Collect) + [Reserve];
    var p' := CollectStep(p);
    if p.done == [] {
      assert es == [Collect, Reserve];
      assert es[1..] == [Reserve] && es[1..][1..] == [];
      assert p.available + p.done == p.available;
      assert Run(p', es[1..]) == Run(ReserveStep(p'), []);
    } else {
      CollectThenReserve(p');
      assert es[0] == Collect && es[1..] == seq(|p'.done| + 1, i => Collect) + [Reserve];
      assert p'.available + p'.done == p.available + p.done;
    }
  }
}
