/**
 What became of each job of the pool, told from the history of a run.
 */
module ThreadPoolHistory {
  import opened Common
  import opened Q = CoDelQueue
  import opened ThreadPool

  ghost predicate Path(ps: seq<Pool>, es: seq<ThreadPool.Event>) {
    && |ps| == |es| + 1
    && forall i :: 0 <= i < |es| ==> ThreadPool.Legal(ps[i], es[i]) && ps[i + 1] == ThreadPool.Step(ps[i], es[i])
  }

  ghost predicate History(maxThreads: nat, config: Config, created: int, ps: seq<Pool>, es: seq<ThreadPool.Event>) {
    maxThreads > 0 && Path(ps, es) && ps[0] == ThreadPool.Start(maxThreads, config, created)
  }

  /** Every run has a history. */
  lemma {:induction false} HistoryOf(p: Pool, es: seq<ThreadPool.Event>) returns (ps: seq<Pool>)
    requires ThreadPool.LegalRun(p, es)
    ensures Path(ps, es) && ps[0] == p && ps[|es|] == ThreadPool.Run(p, es)
    decreases |es|
  {
    if es == [] {
      ps := [p];
    } else {
      var rest := HistoryOf(ThreadPool.Step(p, es[0]), es[1..]);
      PathCons(p, es, rest);
      ps := [p] + rest;
    }
  }

  lemma PathCons(p: Pool, es: seq<ThreadPool.Event>, rest: seq<Pool>)
    requires es != [] && ThreadPool.Legal(p, es[0]) && Path(rest, es[1..]) && rest[0] == ThreadPool.Step(p, es[0])
    ensures Path([p] + rest, es)
  {
    var ps := [p] + rest;
    forall i | 0 <= i < |es| ensures ThreadPool.Legal(ps[i], es[i]) && ps[i + 1] == ThreadPool.Step(ps[i], es[i]) {
      if i > 0 {
        assert ps[i] == rest[i - 1] && ps[i + 1] == rest[i] && es[i] == es[1..][i - 1];
      }
    }
  }

  lemma {:induction false} InvAlong(maxThreads: nat, config: Config, created: int, ps: seq<Pool>,
                                    es: seq<ThreadPool.Event>, n: nat)
    requires History(maxThreads, config, created, ps, es) && n <= |es|
    ensures Inv(ps[n])
  {
    if n == 0 {
      InvRun(ps[0], []);
    } else {
      InvAlong(maxThreads, config, created, ps, es, n - 1);
      InvStep(ps[n - 1], es[n - 1]);
    }
  }

  /** What can happen to a job: it is taken past its deadline or in time, it runs, or it panics. */
  datatype Deed = TakenLate | TakenInTime | Ran | Crashed

  /** The event does it to job `j`. */
  ghost predicate Does(p: Pool, e: ThreadPool.Event, d: Deed, j: nat)
    requires ThreadPool.Legal(p, e)
  {
    match d
    case TakenLate => e.TakeJob? && Leaves(p.queue, ThreadPool.Step(p, e).queue, j, e.pop.now, true)
    case TakenInTime => e.TakeJob? && Leaves(p.queue, ThreadPool.Step(p, e).queue, j, e.pop.now, false)
    case Ran => e.WorkerExecutes? && p.workers[e.worker].phase == Executing(j)
    case Crashed => e.WorkerPanics? && p.workers[e.worker].phase == Executing(j)
  }

  /** It was done to job `j`, as the pool has it. */
  ghost predicate Shows(p: Pool, d: Deed, j: nat) {
    && j < |p.jobs|
    && match d
       case TakenLate => p.jobs[j].Expired? || (p.dispatcher.Expiring? && p.dispatcher.job == j)
       case TakenInTime =>
         || p.jobs[j].InChannel? || p.jobs[j].OnWorker? || p.jobs[j].Executed? || p.jobs[j].Panicked?
         || (p.dispatcher.Handing? && p.dispatcher.job == j)
       case Ran => p.jobs[j].Executed?
       case Crashed => p.jobs[j].Panicked?
  }

  lemma DeedTake(p: Pool, e: ThreadPool.Event, d: Deed, j: nat)
    requires Inv(p) && ThreadPool.Legal(p, e) && e.TakeJob?
    ensures Shows(ThreadPool.Step(p, e), d, j) <==> Shows(p, d, j) || Does(p, e, d, j)
  {
    if p.queue.buffer != [] {
      PopRemovesOne(p.queue, e.pop);
      PopTakesItem(p.queue, e.pop, j, true);
      PopTakesItem(p.queue, e.pop, j, false);
    }
  }

  lemma DeedWork(p: Pool, e: ThreadPool.Event, d: Deed, j: nat)
    requires Inv(p) && ThreadPool.Legal(p, e) && (e.WorkerTakes? || e.WorkerExecutes? || e.WorkerPanics?)
    ensures Shows(ThreadPool.Step(p, e), d, j) <==> Shows(p, d, j) || Does(p, e, d, j)
  {
    if j < |p.jobs| { assert JobOk(p, j); }
    assert WorkerOk(p, e.worker);
  }

  lemma DeedDispatch(p: Pool, e: ThreadPool.Event, d: Deed, j: nat)
    requires Inv(p) && ThreadPool.Legal(p, e) && (e.ExpireJob? || e.HandOff?)
    ensures Shows(ThreadPool.Step(p, e), d, j) <==> Shows(p, d, j) || Does(p, e, d, j)
  {
    if j < |p.jobs| { assert JobOk(p, j); }
    if e.HandOff? { assert Places(p, p.dispatcher.worker) == 1; }
  }

  lemma DeedStep(p: Pool, e: ThreadPool.Event, d: Deed, j: nat)
    requires Inv(p) && ThreadPool.Legal(p, e)
    ensures Shows(ThreadPool.Step(p, e), d, j) <==> Shows(p, d, j) || Does(p, e, d, j)
  {
    if e.TakeJob? {
      DeedTake(p, e, d, j);
    } else if e.WorkerTakes? || e.WorkerExecutes? || e.WorkerPanics? {
      DeedWork(p, e, d, j);
    } else if e.ExpireJob? || e.HandOff? {
      DeedDispatch(p, e, d, j);
    } else {
      var q := ThreadPool.Step(p, e);
      assert p.jobs <= q.jobs && forall x :: |p.jobs| <= x < |q.jobs| ==> q.jobs[x].InQueue?;
    }
  }

  /** One of the first `n` events did it to job `j`. */
  ghost predicate Was(ps: seq<Pool>, es: seq<ThreadPool.Event>, n: nat, d: Deed, j: nat)
    requires Path(ps, es) && n <= |es|
  {
    exists i :: 0 <= i < n && Does(ps[i], es[i], d, j)
  }

  lemma WasNext(ps: seq<Pool>, es: seq<ThreadPool.Event>, n: nat, d: Deed, j: nat)
    requires Path(ps, es) && n < |es|
    ensures Was(ps, es, n + 1, d, j) <==> Was(ps, es, n, d, j) || Does(ps[n], es[n], d, j)
  {
    if Was(ps, es, n, d, j) {
      var i :| 0 <= i < n && Does(ps[i], es[i], d, j);
      assert Does(ps[i], es[i], d, j);
    }
  }

  lemma ShowsNext(ps: seq<Pool>, es: seq<ThreadPool.Event>, n: nat, d: Deed, j: nat)
    requires Path(ps, es) && n < |es| && Inv(ps[n])
    ensures Shows(ps[n + 1], d, j) <==> Shows(ps[n], d, j) || Does(ps[n], es[n], d, j)
  {
    DeedStep(ps[n], es[n], d, j);
  }

  /**
   On every run: a job has expired, or is about to, exactly if it was taken past its deadline, and
   went to a worker exactly if it was taken in time; it counts as executed or panicked exactly if a
   worker that was executing it finished or panicked.
   */
  lemma {:induction false} JobsEndAsTheyRan(maxThreads: nat, config: Config, created: int, ps: seq<Pool>,
                                            es: seq<ThreadPool.Event>, n: nat, d: Deed, j: nat)
    requires History(maxThreads, config, created, ps, es) && n <= |es|
    ensures Shows(ps[n], d, j) <==> Was(ps, es, n, d, j)
    decreases n
  {
    if n == 0 {
      assert ps[0].jobs == [];
    } else {
      JobsEndAsTheyRan(maxThreads, config, created, ps, es, n - 1, d, j);
      InvAlong(maxThreads, config, created, ps, es, n - 1);
      ShowsNext(ps, es, n - 1, d, j);
      WasNext(ps, es, n - 1, d, j);
    }
  }

  /** On every run a job that was taken past its deadline is never handed to a worker. */
  lemma LateJobsNeverRun(maxThreads: nat, config: Config, created: int, ps: seq<Pool>,
                         es: seq<ThreadPool.Event>, i: nat, n: nat, j: nat)
    requires History(maxThreads, config, created, ps, es) && i < n <= |es| && Does(ps[i], es[i], TakenLate, j)
    ensures j < |ps[n].jobs| && !Shows(ps[n], TakenInTime, j)
  {
    assert Was(ps, es, n, TakenLate, j);
    JobsEndAsTheyRan(maxThreads, config, created, ps, es, n, TakenLate, j);
    InvAlong(maxThreads, config, created, ps, es, n);
    assert JobOk(ps[n], j);
  }

  function HandleChange(e: ThreadPool.Event): int {
    if e.CloneSender? then 1 else if e.DropSender? then -1 else 0
  }

  /** How many handles of the pool there are after the first `n` events: clones less drops. */
  ghost function Handles(es: seq<ThreadPool.Event>, n: nat): int
    requires n <= |es|
  {
    if n == 0 then 1
    else Handles(es, n - 1) + HandleChange(es[n - 1])
  }

  /**
   On every run the dispatcher has stopped only if every handle of the pool was dropped and every job
   was taken from the queue.
   */
  lemma {:induction false} StopsOnlyWhenClosed(maxThreads: nat, config: Config, created: int, ps: seq<Pool>,
                                               es: seq<ThreadPool.Event>, n: nat)
    requires History(maxThreads, config, created, ps, es) && n <= |es|
    ensures ps[n].senders == Handles(es, n)
    ensures ps[n].dispatcher.Stopped? ==> Handles(es, n) == 0 && ps[n].queue.buffer == []
  {
    if n > 0 {
      StopsOnlyWhenClosed(maxThreads, config, created, ps, es, n - 1);
      InvAlong(maxThreads, config, created, ps, es, n - 1);
      StopStep(ps[n - 1], es[n - 1]);
    }
  }

  lemma StopStep(p: Pool, e: ThreadPool.Event)
    requires Inv(p) && ThreadPool.Legal(p, e)
    requires p.dispatcher.Stopped? ==> p.senders == 0 && p.queue.buffer == []
    ensures
      var q := ThreadPool.Step(p, e);
      && q.senders == p.senders + HandleChange(e)
      && (q.dispatcher.Stopped? ==> q.senders == 0 && q.queue.buffer == [])
  {
    if e.HandOff? { assert Places(p, p.dispatcher.worker) == 1; }
  }

  /** Once the pool is closed and its queue empty, the dispatcher stops as soon as it has a worker. */
  lemma ClosedStops(p: Pool, r: PopReadings)
    requires ThreadPool.Legal(p, TakeJob(r)) && p.queue.buffer == []
    ensures ThreadPool.Step(p, TakeJob(r)).dispatcher == if p.senders == 0 then Stopped else p.dispatcher
  {
  }

  /** A submission is taken exactly while the queue has room, and becomes the next job, in the queue. */
  lemma SubmittedIffRoom(p: Pool, r: PushReadings)
    requires ThreadPool.Legal(p, Submit(r))
    ensures
      var q := ThreadPool.Step(p, Submit(r));
      if |p.queue.buffer| < p.queue.config.capacity
      then q.jobs == p.jobs + [InQueue] && Values<nat>(q.queue) == Values<nat>(p.queue) + [|p.jobs|]
      else q == p.(clock := r.base)
  {
  }
}
