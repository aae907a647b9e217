/**
 The conditions of two-phase commit's atomicity are exact: from every state a careful run reaches,
 every careless step leads on to a transaction that one partition commits and another has lost.
 */
module TwoPhaseRuns {
  import opened Common
  import opened TwoPhaseCommit

  ghost predicate Leads(s: State, es: seq<Event>, t: State) {
    LegalRun(s, es) && Run(s, es) == t
  }

  lemma {:induction false} Join(s: State, a: seq<Event>, t: State, b: seq<Event>, u: State)
    requires Leads(s, a, t) && Leads(t, b, u)
    ensures Leads(s, a + b, u)
    decreases |a|
  {
    if a == [] {
      assert a + b == b;
    } else {
      Join(Step(s, a[0]), a[1..], t, b, u);
      assert (a + b)[1..] == a[1..] + b;
    }
  }

  /** One more step. */
  lemma Then(s: State, es: seq<Event>, t: State, e: Event) returns (es': seq<Event>, t': State)
    requires Leads(s, es, t) && Legal(t, e)
    ensures es' == es + [e] && t' == Step(t, e) && Leads(s, es', t')
  {
    assert [e][1..] == [];
    es', t' := es + [e], Step(t, e);
    Join(s, es, t, [e], t');
  }

  /** Only local states and their histories moved. */
  ghost predicate LocalMoves(s: State, t: State) {
    && |t.parts| == |s.parts| && t.mode == s.mode && t.record == s.record && t.create == s.create
    && t.coordinator == s.coordinator && t.sawCommit == s.sawCommit && t.sawAbort == s.sawAbort
  }

  /** No partition is committing or has committed. */
  ghost predicate NoneCommits(s: State) {
    forall p :: 0 <= p < |s.parts| ==> !s.parts[p].Committing? && !s.parts[p].Committed?
  }

  // ------------------------------------------------------------------ what one partition can do

  /** A partition named by an abort loses what it has. */
  lemma RollOut(s: State, p: nat) returns (es: seq<Event>, t: State)
    requires p < |s.parts| && p in s.sawAbort && !s.parts[p].Committing? && !s.parts[p].Committed?
    ensures Leads(s, es, t) && LocalMoves(s, t) && t.parts == s.parts[p := Absent]
  {
    es, t := [], s;
    if s.parts[p] == Prepared {
      es, t := Then(s, es, t, StartRollback(p));
    }
    if t.parts[p].RollingBack? {
      es, t := Then(s, es, t, FinishRollback(p));
    }
  }

  /** A partition that has not begun to commit prepares, again if need be. */
  lemma BringUp(s: State, p: nat) returns (es: seq<Event>, t: State)
    requires p < |s.parts| && !s.parts[p].Committing? && !s.parts[p].Committed?
    ensures Leads(s, es, t) && LocalMoves(s, t) && t.parts == s.parts[p := Prepared]
  {
    es, t := [], s;
    if t.parts[p].RollingBack? {
      es, t := Then(s, es, t, FinishRollback(p));
    }
    es, t := Then(s, es, t, DeliverPrepare(p));
  }

  /** A partition that holds the transaction commits it. */
  lemma CommitAt(s: State, p: nat) returns (es: seq<Event>, t: State)
    requires p < |s.parts| && p in s.sawCommit && Holds(s.parts[p])
    ensures Leads(s, es, t) && LocalMoves(s, t) && t.parts == s.parts[p := Committed]
  {
    es, t := [], s;
    if t.parts[p] == Prepared {
      es, t := Then(s, es, t, StartCommit(p));
    }
    if t.parts[p] == Committing {
      es, t := Then(s, es, t, FinishCommit(p));
    }
  }

  // ------------------------------------------------------------------ what the coordinator can do

  /** It may still commit and nothing is recorded. */
  ghost predicate Undecided(s: State) {
    && s.record.None? && !ForCommit(s) && s.prepareOk <= Everyone(s) && NoneCommits(s)
    && (s.coordinator.Preparing? ==>
          && s.create.NotSent? && !s.coordinator.failed
          && s.coordinator.acks + s.coordinator.open == Everyone(s))
    && (!s.coordinator.Preparing? ==>
          && s.create == InFlight(Record(if s.mode == EarlyAck then Stage else Commit, Everyone(s), {}))
          && (s.coordinator.Writing? ==> s.coordinator.record == s.create.record))
  }

  /** Who once said it prepared was not touched, and nobody commits. */
  ghost predicate Kept(s: State, t: State) {
    && |t.parts| == |s.parts| && t.mode == s.mode && t.sawAbort == s.sawAbort && s.prepareOk <= t.prepareOk
    && (forall p :: 0 <= p < |s.parts| && p in s.prepareOk ==> t.parts[p] == s.parts[p])
  }

  lemma PrepareCommitsNothing(s: State, p: nat)
    requires NoneCommits(s) && p < |s.parts|
    ensures NoneCommits(PrepareStep(s, p))
  {
    var t := PrepareStep(s, p);
    forall q | 0 <= q < |t.parts| ensures !t.parts[q].Committing? && !t.parts[q].Committed? {
      assert !s.parts[q].Committing? && !s.parts[q].Committed?;
    }
  }

  lemma Prompted(s: State, p: nat)
    requires Undecided(s) && p < |s.parts| && p !in s.prepareOk
    ensures Undecided(PrepareStep(s, p)) && Kept(s, PrepareStep(s, p))
  {
    PrepareCommitsNothing(s, p);
    assert Everyone(PrepareStep(s, p)) == Everyone(s);
    assert p in Everyone(s);
  }

  /** A prepare at a partition that has not answered. */
  lemma Prompt(s: State, p: nat) returns (es: seq<Event>, t: State)
    requires Undecided(s) && s.coordinator.Preparing? && p in s.coordinator.open
    ensures Leads(s, es, t) && Undecided(t) && Kept(s, t) && p in t.prepareOk && t.coordinator == s.coordinator
  {
    assert p in Everyone(s);
    es, t := [], s;
    if p !in s.prepareOk {
      Prompted(s, p);
      assert s.parts[p] != Committed;
      es, t := Then(s, es, t, DeliverPrepare(p));
    }
  }

  lemma Answer(s: State, p: nat) returns (es: seq<Event>, t: State)
    requires Undecided(s) && s.coordinator.Preparing? && p in s.coordinator.open && p in s.prepareOk
    ensures Leads(s, es, t) && Undecided(t) && Kept(s, t)
    ensures t.coordinator.Preparing? && t.coordinator.open == s.coordinator.open - {p}
  {
    es, t := Then(s, [], s, PrepareAnswer(p));
    assert t.coordinator.acks + t.coordinator.open == Everyone(t);
  }

  /** All open answers come in. */
  lemma Gather(s: State) returns (es: seq<Event>, t: State)
    requires Undecided(s) && s.coordinator.Preparing?
    ensures Leads(s, es, t) && Undecided(t) && Kept(s, t) && t.coordinator.Preparing? && t.coordinator.open == {}
    decreases |s.coordinator.open|
  {
    if s.coordinator.open == {} {
      es, t := [], s;
    } else {
      var p :| p in s.coordinator.open;
      var es1, s1 := Prompt(s, p);
      var es2, s2 := Answer(s1, p);
      Join(s, es1, s1, es2, s2);
      var es3, s3 := Gather(s2);
      Join(s, es1 + es2, s2, es3, s3);
      es, t := es1 + es2 + es3, s3;
    }
  }

  /** The create is on its way. */
  lemma Ask(s: State) returns (es: seq<Event>, t: State)
    requires Undecided(s)
    ensures Leads(s, es, t) && Undecided(t) && Kept(s, t) && !t.coordinator.Preparing?
    ensures s.coordinator.Preparing? ==> t.coordinator.Writing?
    ensures !s.coordinator.Preparing? ==> t == s
  {
    es, t := [], s;
    if s.coordinator.Preparing? {
      es, t := Gather(s);
      assert t.coordinator.acks == Everyone(t);
      es, t := Then(s, es, t, Decide);
    }
  }

  /** It lands, and a staged record is recovered: everyone may be asked to commit. */
  lemma Recorded(s: State) returns (es: seq<Event>, t: State)
    requires Undecided(s) && !s.coordinator.Preparing?
    ensures Leads(s, es, t) && Kept(s, t) && NoneCommits(t) && t.sawCommit == Everyone(t)
  {
    es, t := Then(s, [], s, CreateLands);
    if s.mode == EarlyAck {
      es, t := Then(s, es, t, RecoverStage);
    }
  }

  lemma Enact(s: State) returns (es: seq<Event>, t: State)
    requires Undecided(s)
    ensures Leads(s, es, t) && Kept(s, t) && NoneCommits(t) && t.sawCommit == Everyone(t)
  {
    var es1, s1 := Ask(s);
    var es2, s2 := Recorded(s1);
    Join(s, es1, s1, es2, s2);
    es, t := es1 + es2, s2;
  }

  // ------------------------------------------------------------------ careless steps

  /** One partition committed what another does not hold. */
  ghost predicate Split(s: State) {
    exists p, q :: SplitAt(s, p, q)
  }

  ghost predicate SplitAt(s: State, p: nat, q: nat) {
    p < |s.parts| && q < |s.parts| && s.parts[p] == Committed && !Holds(s.parts[q])
  }

  /** A resolved record beside a coordinator that can commit is an abort that named everyone. */
  lemma ForgottenIsAbort(s: State)
    requires Inv(s) && s.gcArmed && CanCommit(s)
    ensures !ForCommit(s) && s.sawAbort == Everyone(s) && NoneCommits(s)
  {
    assert !ForCommit(s);
    assert 0 in Everyone(s);
    assert Live(s) ==> LocalOk(s, 0, s.parts[0]);
  }

  lemma DeletedIsUndecided(s: State)
    requires Inv(s) && s.gcArmed && CanCommit(s)
    ensures Undecided(Step(s, DeleteRecord))
  {
    ForgottenIsAbort(s);
  }

  /** After an early deletion, `p` can commit what `q` loses. */
  lemma DeletionSplits(s: State, p: nat, q: nat) returns (es: seq<Event>, t: State)
    requires Inv(s) && s.gcArmed && CanCommit(s) && p < |s.parts| && q < |s.parts| && p != q
    ensures Leads(Step(s, DeleteRecord), es, t) && SplitAt(t, p, q)
  {
    ForgottenIsAbort(s);
    DeletedIsUndecided(s);
    var s0 := Step(s, DeleteRecord);
    assert p in Everyone(s) && q in Everyone(s);
    var es1, s1 := Enact(s0);
    var es2, s2 := RollOut(s1, q);
    Join(s0, es1, s1, es2, s2);
    var es3, s3 := BringUp(s2, p);
    Join(s0, es1 + es2, s2, es3, s3);
    var es4, s4 := CommitAt(s3, p);
    Join(s0, es1 + es2 + es3, s3, es4, s4);
    es, t := es1 + es2 + es3 + es4, s4;
  }

  /** The intent at `p` is gone, at once or with the next restart. */
  lemma Dropped(s: State, p: nat) returns (es: seq<Event>, t: State)
    requires p < |s.parts| && (s.parts[p] == Prepared || s.parts[p] == Committing)
    ensures Leads(FailPrepareStep(s, p), es, t) && LocalMoves(s, t) && t.parts == s.parts[p := Absent]
    ensures t.prepareOk == s.prepareOk && t.sawStage == s.sawStage
  {
    var s0 := FailPrepareStep(s, p);
    es, t := [], s0;
    if s.parts[p] == Committing {
      es, t := Then(s0, es, t, LoseMemory(p));
    }
  }

  /** A recorded commit is carried out at `q`. */
  lemma CarriedOut(s: State, q: nat) returns (es: seq<Event>, t: State)
    requires q < |s.parts| && Holds(s.parts[q])
    requires q in s.sawCommit || (s.record.Some? && s.record.value.verdict == Stage && q in s.record.value.participants)
    ensures Leads(s, es, t) && t.parts == s.parts[q := Committed]
  {
    var es1, s1 := [], s;
    if q !in s.sawCommit {
      es1, s1 := Then(s, [], s, RecoverStage);
    }
    var es2, s2 := CommitAt(s1, q);
    Join(s, es1, s1, es2, s2);
    es, t := es1 + es2, s2;
  }

  /** While a live transaction has an intent somewhere, what was recorded is the commit or nothing. */
  lemma LiveRecord(s: State, p: nat, q: nat)
    requires Inv(s) && Live(s) && p < |s.parts| && s.parts[p] != Committed && q < |s.parts|
    ensures ForCommit(s) ==> Holds(s.parts[q])
    ensures ForCommit(s) ==>
              || q in s.sawCommit
              || (s.record.Some? && s.record.value.verdict == Stage && q in s.record.value.participants)
    ensures !ForCommit(s) ==> s.record.None? && NoneCommits(s)
  {
    assert p in Everyone(s) && q in Everyone(s);
    assert LocalOk(s, p, s.parts[p]) && LocalOk(s, q, s.parts[q]);
  }

  /** After a failed prepare at `p`, which held the intent, `q` can commit what `p` has lost. */
  lemma DropSplits(s: State, p: nat, q: nat) returns (es: seq<Event>, t: State)
    requires Inv(s) && Live(s) && p < |s.parts| && q < |s.parts| && p != q
    requires s.parts[p] == Prepared || s.parts[p] == Committing
    ensures Leads(FailPrepareStep(s, p), es, t) && SplitAt(t, q, p)
  {
    LiveRecord(s, p, q);
    var s0 := FailPrepareStep(s, p);
    var es1, s1 := Dropped(s, p);
    if ForCommit(s) {
      var es2, s2 := CarriedOut(s1, q);
      Join(s0, es1, s1, es2, s2);
      es, t := es1 + es2, s2;
    } else {
      var es2, s2 := CommittedAnew(s, s1, p, q);
      Join(s0, es1, s1, es2, s2);
      es, t := es1 + es2, s2;
    }
  }

  lemma CommittedAnew(s: State, s1: State, p: nat, q: nat) returns (es: seq<Event>, t: State)
    requires Inv(s) && Live(s) && !ForCommit(s) && s.record.None? && NoneCommits(s)
    requires p < |s.parts| && q < |s.parts| && p != q && s.parts[p] == Prepared
    requires LocalMoves(s, s1) && s1.parts == s.parts[p := Absent]
    requires s1.prepareOk == s.prepareOk && s1.sawStage == s.sawStage
    ensures Leads(s1, es, t) && SplitAt(t, q, p)
  {
    assert Undecided(s1);
    assert p in s1.prepareOk && q in Everyone(s);
    var es1, s2 := Enact(s1);
    var es2, s3 := BringUp(s2, q);
    Join(s1, es1, s2, es2, s3);
    var es3, s4 := CommitAt(s3, q);
    Join(s1, es1 + es2, s3, es3, s4);
    es, t := es1 + es2 + es3, s4;
  }

  lemma {:induction false} PartsKept(s: State, es: seq<Event>)
    requires LegalRun(s, es)
    ensures |Run(s, es).parts| == |s.parts|
    decreases |es|
  {
    if es != [] {
      PartsKept(Step(s, es[0]), es[1..]);
    }
  }

  lemma CarefulNeverSplits(mode: Mode, n: nat, es: seq<Event>, s: State)
    requires Reached(mode, n, es, s)
    ensures !Split(s)
  {
    forall p, q | SplitAt(s, p, q) ensures false {
      Atomicity(mode, n, es, s, p);
    }
  }

  /**
   The condition is exact.  A careful run never splits a transaction; after any careless step on
   from a careful run, with two partitions or more, a split can follow.
   */
  lemma CarelessSplits(mode: Mode, n: nat, es: seq<Event>, s: State, e: Event) returns (es': seq<Event>, t: State)
    requires n >= 2 && Reached(mode, n, es, s) && Legal(s, e) && !Careful(s, e)
    ensures !Split(s)
    ensures Leads(Step(s, e), es', t) && Split(t)
  {
    CarefulInv(mode, n, es, s);
    CarefulNeverSplits(mode, n, es, s);
    PartsKept(Start(mode, n), es);
    if e.DeleteRecord? {
      es', t := DeletionSplits(s, 0, 1);
    } else {
      es', t := DropSplits(s, e.p, if e.p == 0 then 1 else 0);
    }
  }

  // ------------------------------------------------------------------ lost acknowledgements

  /** The client is told. */
  lemma Acked(s: State) returns (es: seq<Event>, t: State)
    requires Undecided(s) && s.coordinator.Writing? && s.mode == EarlyAck
    ensures Leads(s, es, t) && t.coordinator.Acknowledged? && NoneCommits(t)
    ensures t.parts == s.parts && t.sawAbort == s.sawAbort
  {
    es, t := Then(s, [], s, CreateLands);
    es, t := Then(s, es, t, WriteReturns);
    es, t := Then(s, es, t, RecoverOwnStage);
  }

  lemma {:induction false} RollAll(s: State, k: nat) returns (es: seq<Event>, t: State)
    requires k <= |s.parts| && NoneCommits(s) && Everyone(s) <= s.sawAbort
    ensures Leads(s, es, t) && LocalMoves(s, t) && NoneCommits(t)
    ensures forall p :: 0 <= p < k ==> t.parts[p] == Absent
  {
    if k == 0 {
      es, t := [], s;
    } else {
      var es1, s1 := RollAll(s, k - 1);
      assert k - 1 in Everyone(s);
      var es2, s2 := RollOut(s1, k - 1);
      Join(s, es1, s1, es2, s2);
      es, t := es1 + es2, s2;
    }
  }

  /** After an early deletion a client can be told of a commit that no partition holds. */
  lemma DeletionLosesAck(s: State) returns (es: seq<Event>, t: State)
    requires Inv(s) && s.gcArmed && CanCommit(s) && s.mode == EarlyAck
    requires s.coordinator.Preparing? || s.coordinator.Writing?
    ensures Leads(Step(s, DeleteRecord), es, t) && t.coordinator.Acknowledged?
    ensures forall p :: 0 <= p < |t.parts| ==> t.parts[p] == Absent
  {
    ForgottenIsAbort(s);
    DeletedIsUndecided(s);
    var s0 := Step(s, DeleteRecord);
    var es1, s1 := Ask(s0);
    var es2, s2 := Acked(s1);
    Join(s0, es1, s1, es2, s2);
    var es3, s3 := RollAll(s2, |s2.parts|);
    Join(s0, es1 + es2, s2, es3, s3);
    es, t := es1 + es2 + es3, s3;
  }

  // ------------------------------------------------------------------ such states are reached

  /** Steps that cannot be careless. */
  predicate Tame(es: seq<Event>) {
    forall i :: 0 <= i < |es| ==> !es[i].DeleteRecord? && !es[i].FailPrepare?
  }

  lemma {:induction false} TameIsCareful(s: State, es: seq<Event>)
    requires LegalRun(s, es) && Tame(es)
    ensures CarefulRun(s, es)
    decreases |es|
  {
    if es != [] {
      TameIsCareful(Step(s, es[0]), es[1..]);
    }
  }

  /** Answers all open, the transaction aborted by timeout, `done` of its partitions resolved. */
  ghost predicate Aborting(s: State, done: set<nat>) {
    && NoneCommits(s) && s.coordinator == Preparing(Everyone(s), {}, false, false)
    && s.sawAbort == Everyone(s) && s.record == Some(Record(Abort, Everyone(s), done))
  }

  lemma TimedOut(mode: Mode, n: nat) returns (es: seq<Event>, t: State)
    requires n > 0
    ensures Leads(Start(mode, n), es, t) && Tame(es) && Aborting(t, {}) && t.mode == mode && |t.parts| == n
  {
    var s := Start(mode, n);
    PrepareCommitsNothing(s, 0);
    es, t := Then(s, [], s, DeliverPrepare(0));
    es, t := Then(s, es, t, TimeoutAbort(0));
    assert t.sawAbort == Everyone(t);
  }

  /** A step of one partition's rollback. */
  lemma RollbackStep(s: State, e: Event, done: set<nat>)
    requires Aborting(s, done) && Legal(s, e) && (e.StartRollback? || e.FinishRollback?)
    ensures Aborting(Step(s, e), done)
  {
    var t := Step(s, e);
    assert Everyone(t) == Everyone(s);
    forall q | 0 <= q < |t.parts| ensures !t.parts[q].Committing? && !t.parts[q].Committed? {
      assert !s.parts[q].Committing? && !s.parts[q].Committed?;
    }
  }

  lemma Rolls(s: State, es: seq<Event>, t: State, e: Event, done: set<nat>) returns (es': seq<Event>, t': State)
    requires Leads(s, es, t) && Tame(es) && Aborting(t, done) && Legal(t, e) && (e.StartRollback? || e.FinishRollback?)
    ensures Leads(s, es', t') && Tame(es') && Aborting(t', done) && t' == Step(t, e)
  {
    RollbackStep(t, e, done);
    es', t' := Then(s, es, t, e);
  }

  lemma BeginsRollback(s: State, es: seq<Event>, t: State, p: nat, done: set<nat>) returns (es': seq<Event>, t': State)
    requires Leads(s, es, t) && Tame(es) && Aborting(t, done) && p < |t.parts|
    ensures Leads(s, es', t') && Tame(es') && Aborting(t', done)
    ensures |t'.parts| == |t.parts| && t'.mode == t.mode && t'.parts[p].RollingBack?
  {
    assert p in Everyone(t);
    es', t' := es, t;
    if !t.parts[p].RollingBack? {
      es', t' := Rolls(s, es, t, StartRollback(p), done);
    }
  }

  lemma Resolved(s: State, es: seq<Event>, t: State, p: nat, done: set<nat>) returns (es': seq<Event>, t': State)
    requires Leads(s, es, t) && Tame(es) && Aborting(t, done) && p < |t.parts|
    ensures Leads(s, es', t') && Tame(es') && Aborting(t', done + {p})
    ensures |t'.parts| == |t.parts| && t'.mode == t.mode
  {
    es', t' := BeginsRollback(s, es, t, p, done);
    es', t' := Rolls(s, es', t', FinishRollback(p), done);
    es', t' := Then(s, es', t', MarkResolved(p));
    assert Everyone(t') == Everyone(t);
  }

  lemma {:induction false} AllResolved(mode: Mode, n: nat, k: nat) returns (es: seq<Event>, t: State)
    requires 0 < n && k <= n
    ensures Leads(Start(mode, n), es, t) && Tame(es) && Aborting(t, Below(k)) && t.mode == mode && |t.parts| == n
  {
    if k == 0 {
      es, t := TimedOut(mode, n);
    } else {
      es, t := AllResolved(mode, n, k - 1);
      es, t := Resolved(Start(mode, n), es, t, k - 1, Below(k - 1));
      assert Below(k - 1) + {k - 1} == Below(k);
    }
  }

  /** An abort about to be forgotten, with the coordinator's create still to come. */
  lemma Forgettable(mode: Mode, n: nat) returns (es: seq<Event>, t: State)
    requires 0 < n
    ensures Leads(Start(mode, n), es, t) && Reached(mode, n, es, t) && t.gcArmed && CanCommit(t)
    ensures t.mode == mode && |t.parts| == n && t.coordinator.Preparing?
  {
    es, t := AllResolved(mode, n, n);
    es, t := Then(Start(mode, n), es, t, ArmGc);
    TameIsCareful(Start(mode, n), es);
  }

  /** In either mode, with any number of partitions from two, an early deletion splits some run. */
  lemma SomeDeletionSplits(mode: Mode, n: nat) returns (es: seq<Event>, t: State)
    requires n >= 2
    ensures Leads(Start(mode, n), es, t) && Split(t)
  {
    var es1, s1 := Forgettable(mode, n);
    CarefulInv(mode, n, es1, s1);
    var es2, s2 := Then(Start(mode, n), es1, s1, DeleteRecord);
    var es3, s3 := DeletionSplits(s1, 0, 1);
    Join(Start(mode, n), es2, s2, es3, s3);
    es, t := es2 + es3, s3;
  }

  /** So does a repeated prepare that fails after the first was acknowledged. */
  lemma SomeRepeatSplits(mode: Mode, n: nat) returns (es: seq<Event>, t: State)
    requires n >= 2
    ensures Leads(Start(mode, n), es, t) && Split(t)
  {
    var s := Start(mode, n);
    StartInv(mode, n);
    InvPrepare(s, 0);
    var es1, s1 := Then(s, [], s, DeliverPrepare(0));
    var es2, s2 := Then(s, es1, s1, FailPrepare(0));
    var es3, s3 := DropSplits(s1, 0, 1);
    Join(s, es2, s2, es3, s3);
    es, t := es2 + es3, s3;
  }

  /** And some acknowledged transaction is held by no partition. */
  lemma SomeAckLost(n: nat) returns (es: seq<Event>, t: State)
    requires n > 0
    ensures Leads(Start(EarlyAck, n), es, t) && t.coordinator.Acknowledged?
    ensures forall p :: 0 <= p < |t.parts| ==> t.parts[p] == Absent
  {
    var es1, s1 := Forgettable(EarlyAck, n);
    CarefulInv(EarlyAck, n, es1, s1);
    var es2, s2 := Then(Start(EarlyAck, n), es1, s1, DeleteRecord);
    var es3, s3 := DeletionLosesAck(s1);
    Join(Start(EarlyAck, n), es2, s2, es3, s3);
    es, t := es2 + es3, s3;
  }
}
