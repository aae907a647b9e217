/**
 Two-phase commit of one cross-partition transaction attempt, as a state machine over the shared
 decision record, the coordinator, one participant per partition that stages writes, and the
 watchers that recover abandoned attempts.

 Requests may be delayed, repeated or lost; a participant's Raft group is one durable state; an
 operation of the key-value store on the record is one step.  Prepare requests are out from the
 start, so a prepare may execute at any time.  The histories `prepareOk`, `sawCommit` and `sawAbort`
 say which answers and requests can still be travelling.
 */
module TwoPhaseCommit {
  import opened Common

  datatype Mode = DurableDecision | EarlyAck

  datatype Verdict = Stage | Commit | Abort

  /** The decision record.  The code keeps both lists sorted and free of repeats. */
  datatype Record = Record(verdict: Verdict, participants: set<nat>, resolved: set<nat>)

  /** `RollingBack(intent)`: a rollback marker is on its way through Raft; `intent` if one is staged. */
  datatype Local = Absent | Prepared | Committing | RollingBack(intent: bool) | Committed

  /** The coordinator's create-if-absent request. */
  datatype Create = NotSent | InFlight(record: Record) | Answered(created: bool)

  datatype Coordinator =
    | Preparing(open: set<nat>, acks: set<nat>, failed: bool, ambiguous: bool)
    | Writing(record: Record)
    | Decided(verdict: Verdict, finished: set<nat>)
    | Acknowledged
    | GaveUp

  /**
   `applied`: partitions that finished applying a decision, or had nothing to apply it to.
   `undone`: partitions that gave up a staged intent.
   `bare`: partitions whose redo was deleted under a commit, so that only memory holds the intent.
   */
  datatype State = State(
    mode: Mode, parts: seq<Local>, record: Option<Record>, coordinator: Coordinator, create: Create,
    prepareOk: set<nat>, sawStage: bool, sawCommit: set<nat>, sawAbort: set<nat>,
    applied: set<nat>, undone: set<nat>, bare: set<nat>, gcArmed: bool)

  datatype Event =
    // participants
    | DeliverPrepare(p: nat)
    | FailPrepare(p: nat)       // first or repeated; staging passed, Raft refused or lost it
    | LoseMemory(p: nat)        // a restart finds no redo
    | StartCommit(p: nat)
    | FinishCommit(p: nat)
    | DropCommit(p: nat)        // Raft refused it, or the leader failed before persisting
    | StartRollback(p: nat)
    | FinishRollback(p: nat)
    | DropRollback(p: nat)
    // coordinator
    | PrepareAnswer(p: nat)
    | PrepareFailure(p: nat, ambiguous: bool)
    | ReadCheckFailure(ambiguous: bool)
    | Decide
    | CreateLands
    | WriteReturns
    | CommitAnswer(p: nat)
    | ReportCommitted
    | RecoverOwnStage
    | Abandon
    // watchers
    | TimeoutAbort(p: nat)
    | RecoverStage
    | MarkResolved(p: nat)
    | ArmGc
    | DeleteRecord

  predicate ByWatcher(e: Event) {
    e.TimeoutAbort? || e.RecoverStage? || e.MarkResolved? || e.ArmGc? || e.DeleteRecord?
  }

  predicate ByParticipant(e: Event) {
    || e.DeliverPrepare? || e.FailPrepare? || e.LoseMemory? || e.StartCommit? || e.FinishCommit? || e.DropCommit?
    || e.StartRollback? || e.FinishRollback? || e.DropRollback?
  }

  function Everyone(s: State): set<nat> {
    Below(|s.parts|)
  }

  /** A transaction with at least one partition that stages writes. */
  function Start(mode: Mode, n: nat): State
    requires n > 0
  {
    State(mode, seq(n, i => Absent), None, Preparing(Below(n), {}, false, false), NotSent,
          {}, false, {}, {}, {}, {}, {}, false)
  }

  predicate HasIntent(l: Local) {
    l == Prepared || l == Committing || l == RollingBack(true)
  }

  // A commit request is refused while a rollback is under way and joins a commit under way; a
  // rollback request the other way round.  A partition that committed refuses to prepare again,
  // because its timestamp floor has passed the transaction's timestamp.  A watcher sees an intent
  // first, no record later and writes later still, so `TimeoutAbort` asks for a past intent only.
  // A repeated prepare whose redo write fails takes the intent from memory but leaves the earlier
  // redo, which still counts as prepared: a commit stages the intent again from it.  If another
  // transaction has raised the floor meanwhile, staging is refused and the commit fails, which is
  // `StartCommit` followed by `DropCommit`.
  predicate Legal(s: State, e: Event) {
    match e
    case DeliverPrepare(p) => p < |s.parts| && s.parts[p] != Committed
    case FailPrepare(p) => p < |s.parts| && s.parts[p] != Committed
    case LoseMemory(p) => p < |s.parts| && p in s.bare && (s.parts[p].Prepared? || s.parts[p].Committing?)
    case StartCommit(p) => p < |s.parts| && p in s.sawCommit && !s.parts[p].RollingBack? && !s.parts[p].Committing?
    case FinishCommit(p) => p < |s.parts| && s.parts[p].Committing?
    case DropCommit(p) => p < |s.parts| && s.parts[p].Committing?
    case StartRollback(p) => p < |s.parts| && p in s.sawAbort && !s.parts[p].Committing? && !s.parts[p].RollingBack?
    case FinishRollback(p) => p < |s.parts| && s.parts[p].RollingBack?
    case DropRollback(p) => p < |s.parts| && s.parts[p].RollingBack?
    case PrepareAnswer(p) => s.coordinator.Preparing? && p in s.coordinator.open && p in s.prepareOk
    case PrepareFailure(p, _) => s.coordinator.Preparing? && p in s.coordinator.open
    case ReadCheckFailure(_) => s.coordinator.Preparing?
    case Decide => s.coordinator.Preparing? && s.coordinator.open == {}
    case CreateLands => s.create.InFlight?
    case WriteReturns => s.coordinator.Writing?
    case CommitAnswer(p) =>
      s.coordinator.Decided? && s.coordinator.verdict == Commit && p < |s.parts| && s.parts[p] == Committed
    case ReportCommitted =>
      s.coordinator.Decided? && s.coordinator.verdict == Commit && s.coordinator.finished == Everyone(s)
    case RecoverOwnStage => s.coordinator.Decided? && s.coordinator.verdict == Stage
    case Abandon => true
    case TimeoutAbort(p) => p in s.prepareOk && s.record.None?
    case RecoverStage => s.record.Some? && s.record.value.verdict == Stage
    case MarkResolved(p) => p in s.applied && s.record.Some?
    case ArmGc => s.record.Some? && s.record.value.participants <= s.record.value.resolved
    case DeleteRecord => s.gcArmed
  }

  function SetPart(s: State, p: nat, l: Local): State
    requires p < |s.parts|
  {
    s.(parts := s.parts[p := l])
  }

  /** Storing a record also lets everyone who reads it act on it later. */
  function Store(s: State, r: Record): State {
    s.(record := Some(r),
       sawStage := s.sawStage || r.verdict == Stage,
       sawCommit := if r.verdict == Commit then s.sawCommit + r.participants else s.sawCommit,
       sawAbort := if r.verdict == Abort then s.sawAbort + r.participants else s.sawAbort)
  }

  function PrepareStep(s: State, p: nat): State
    requires p < |s.parts|
  {
    var s' := s.(prepareOk := s.prepareOk + {p}, bare := s.bare - {p});
    match s.parts[p]
    case Absent => SetPart(s', p, Prepared)
    case RollingBack(_) => SetPart(s', p, RollingBack(true))
    case _ => s'
  }

  /** A failed prepare takes back what is staged, also what an earlier one staged; not under a commit. */
  function FailPrepareStep(s: State, p: nat): State
    requires p < |s.parts|
  {
    match s.parts[p]
    case Prepared => SetPart(s, p, Absent).(undone := s.undone + {p})
    case RollingBack(true) => SetPart(s, p, RollingBack(false)).(undone := s.undone + {p})
    case Committing => s.(bare := s.bare + {p})
    case _ => s
  }

  /** Without an intent the transaction is unknown, which a watcher takes as already resolved. */
  function StartCommitStep(s: State, p: nat): State
    requires p < |s.parts|
  {
    if s.parts[p] == Prepared then SetPart(s, p, Committing) else s.(applied := s.applied + {p})
  }

  function StartRollbackStep(s: State, p: nat): State
    requires p < |s.parts|
  {
    match s.parts[p]
    case Prepared => SetPart(s, p, RollingBack(true))
    case Absent => SetPart(s, p, RollingBack(false))
    case _ => s.(applied := s.applied + {p})
  }

  function FinishRollbackStep(s: State, p: nat): State
    requires p < |s.parts|
  {
    SetPart(s, p, Absent).(applied := s.applied + {p},
                           undone := if HasIntent(s.parts[p]) then s.undone + {p} else s.undone)
  }

  function DropRollbackStep(s: State, p: nat): State
    requires p < |s.parts| && s.parts[p].RollingBack?
  {
    SetPart(s, p, if s.parts[p].intent then Prepared else Absent)
  }

  /** After a failure: everyone if some answer was lost, else those that answered; maybe no one. */
  function DecideStep(s: State): State
    requires s.coordinator.Preparing?
  {
    var c := s.coordinator;
    if c.failed then
      var r := Record(Abort, if c.ambiguous then Everyone(s) else c.acks, {});
      if r.participants == {} then s.(coordinator := GaveUp) else s.(coordinator := Writing(r), create := InFlight(r))
    else
      var r := if s.mode == EarlyAck then Record(Stage, Everyone(s), {}) else Record(Commit, c.acks, {});
      s.(coordinator := Writing(r), create := InFlight(r))
  }

  function CreateStep(s: State): State
    requires s.create.InFlight?
  {
    if s.record.None? then Store(s, s.create.record).(create := Answered(true)) else s.(create := Answered(false))
  }

  /** A create that failed or timed out is settled by reading the record back. */
  function WriteReturnsStep(s: State): State
    requires s.coordinator.Writing?
  {
    var r := s.coordinator.record;
    if s.create == Answered(true) || s.record == Some(r) then s.(coordinator := Decided(r.verdict, {}))
    else s.(coordinator := GaveUp)
  }

  function RecoverOwnStageStep(s: State): State {
    if s.record.None? || s.record.value.verdict == Abort then s.(coordinator := GaveUp)
    else Store(s, s.record.value.(verdict := Commit)).(coordinator := Acknowledged)
  }

  function Step(s: State, e: Event): State
    requires Legal(s, e)
  {
    match e
    case DeliverPrepare(p) => PrepareStep(s, p)
    case FailPrepare(p) => FailPrepareStep(s, p)
    case LoseMemory(p) => SetPart(s, p, Absent).(undone := s.undone + {p}, bare := s.bare - {p})
    case StartCommit(p) => StartCommitStep(s, p)
    case FinishCommit(p) => SetPart(s, p, Committed).(applied := s.applied + {p})
    case DropCommit(p) => SetPart(s, p, Prepared)
    case StartRollback(p) => StartRollbackStep(s, p)
    case FinishRollback(p) => FinishRollbackStep(s, p)
    case DropRollback(p) => DropRollbackStep(s, p)
    case PrepareAnswer(p) =>
      s.(coordinator := s.coordinator.(open := s.coordinator.open - {p}, acks := s.coordinator.acks + {p}))
    case PrepareFailure(p, a) =>
      s.(coordinator := s.coordinator.(open := s.coordinator.open - {p}, failed := true,
                                       ambiguous := s.coordinator.ambiguous || a))
    case ReadCheckFailure(a) =>
      s.(coordinator := s.coordinator.(failed := true, ambiguous := s.coordinator.ambiguous || a))
    case Decide => DecideStep(s)
    case CreateLands => CreateStep(s)
    case WriteReturns => WriteReturnsStep(s)
    case CommitAnswer(p) => s.(coordinator := s.coordinator.(finished := s.coordinator.finished + {p}))
    case ReportCommitted => s.(coordinator := Acknowledged)
    case RecoverOwnStage => RecoverOwnStageStep(s)
    case Abandon => if s.coordinator.Acknowledged? then s else s.(coordinator := GaveUp)
    case TimeoutAbort(p) => Store(s, Record(Abort, Everyone(s), {}))
    case RecoverStage => Store(s, s.record.value.(verdict := Commit))
    case MarkResolved(p) => s.(record := Some(s.record.value.(resolved := s.record.value.resolved + {p})))
    case ArmGc => s.(gcArmed := true)
    case DeleteRecord => s.(record := None)
  }

  predicate LegalRun(s: State, es: seq<Event>)
    decreases |es|
  {
    es == [] || (Legal(s, es[0]) && LegalRun(Step(s, es[0]), es[1..]))
  }

  function Run(s: State, es: seq<Event>): State
    requires LegalRun(s, es)
    decreases |es|
  {
    if es == [] then s else Run(Step(s, es[0]), es[1..])
  }

  /** The coordinator may still ask for a commit, or has asked and not been served. */
  predicate CanCommit(s: State) {
    (s.coordinator.Preparing? && !s.coordinator.failed) || (s.create.InFlight? && s.create.record.verdict != Abort)
  }

  /** A record asking for commit was ever stored. */
  predicate ForCommit(s: State) {
    s.sawStage || s.sawCommit != {}
  }

  /** The transaction was recorded for commit, or can still be and was not aborted. */
  predicate Live(s: State) {
    ForCommit(s) || (CanCommit(s) && s.sawAbort == {})
  }

  /**
   No record is deleted while the coordinator can still commit, and no prepare fails at a partition
   that holds the intent of a live transaction.
   */
  predicate Careful(s: State, e: Event)
    requires Legal(s, e)
  {
    && (e.DeleteRecord? ==> !CanCommit(s))
    && (e.FailPrepare? ==> !(Live(s) && (s.parts[e.p].Prepared? || s.parts[e.p].Committing?)))
  }

  predicate CarefulRun(s: State, es: seq<Event>)
    requires LegalRun(s, es)
    decreases |es|
  {
    es == [] || (Careful(s, es[0]) && CarefulRun(Step(s, es[0]), es[1..]))
  }

  // ------------------------------------------------------------------ the invariant

  ghost predicate Holds(l: Local) {
    l == Prepared || l == Committing || l == Committed
  }

  ghost predicate AllCommitted(s: State) {
    forall p :: 0 <= p < |s.parts| ==> s.parts[p] == Committed
  }

  /** What a local state may be while the transaction is live. */
  ghost predicate LocalOk(s: State, p: nat, l: Local) {
    && !l.RollingBack?
    && (p in s.prepareOk ==> Holds(l))
    && (p in s.applied ==> l == Committed)
  }

  ghost predicate LocalsOk(s: State) {
    Live(s) ==> s.undone == {} && forall p :: 0 <= p < |s.parts| ==> LocalOk(s, p, s.parts[p])
  }

  /** Only a recorded commit is carried out, and only what was prepared. */
  ghost predicate Grounded(s: State) {
    && s.bare == {}
    && (forall p :: 0 <= p < |s.parts| && (s.parts[p].Committing? || s.parts[p].Committed?) ==> s.sawCommit != {})
    && (forall p :: 0 <= p < |s.parts| && HasIntent(s.parts[p]) ==> p in s.prepareOk)
  }

  /** Whoever asks for commit has everyone's consent. */
  ghost predicate ConsentKnown(s: State) {
    && s.prepareOk <= Everyone(s)
    && (s.coordinator.Preparing? ==>
          && s.create.NotSent?
          && s.coordinator.acks <= s.prepareOk
          && (!s.coordinator.failed ==> s.coordinator.acks + s.coordinator.open == Everyone(s)))
    && (s.coordinator.Writing? ==> s.create == InFlight(s.coordinator.record) || s.create.Answered?)
    && (s.create.InFlight? && s.create.record.verdict != Abort ==>
          && s.prepareOk == Everyone(s)
          && s.create.record == Record(if s.mode == EarlyAck then Stage else Commit, Everyone(s), {}))
    && (ForCommit(s) ==> s.prepareOk == Everyone(s) && s.create.Answered? && !s.coordinator.Preparing?)
  }

  /** What the stored record says was said before; a commit is forgotten only when complete. */
  ghost predicate RecordOk(s: State) {
    && (s.record.Some? ==>
          && (s.record.value.verdict == Stage ==> s.sawStage)
          && (s.record.value.verdict == Commit ==> s.sawCommit != {})
          && (s.record.value.verdict == Abort ==> s.sawAbort != {})
          && (s.record.value.verdict != Abort ==> s.record.value.participants == Everyone(s))
          && s.record.value.resolved <= s.applied)
    && (s.sawCommit != {} ==> s.sawCommit == Everyone(s))
    && (s.create.InFlight? ==> s.create.record.participants != {} && s.create.record.resolved == {})
  }

  /** The part that depends on when records are deleted. */
  ghost predicate DeletionOk(s: State) {
    && (s.sawAbort != {} && CanCommit(s) ==> s.record.Some? && s.sawAbort == Everyone(s))
    && (s.gcArmed && Live(s) ==> Everyone(s) <= s.applied)
    && (ForCommit(s) && (s.record.None? || s.sawAbort != {}) ==> Everyone(s) <= s.applied)
  }

  ghost predicate Inv(s: State) {
    |s.parts| > 0 && LocalsOk(s) && Grounded(s) && ConsentKnown(s) && RecordOk(s) && DeletionOk(s)
  }

  lemma StartInv(mode: Mode, n: nat)
    requires n > 0
    ensures Inv(Start(mode, n))
  {
  }

  lemma PrepareLocals(s: State, p: nat)
    requires Inv(s) && Legal(s, DeliverPrepare(p))
    ensures LocalsOk(PrepareStep(s, p))
  {
    var s' := PrepareStep(s, p);
    assert Live(s') == Live(s) && |s'.parts| == |s.parts|;
    if Live(s) {
      forall q | 0 <= q < |s'.parts| ensures LocalOk(s', q, s'.parts[q]) {
        assert LocalOk(s, q, s.parts[q]);
      }
    }
  }

  lemma PrepareGrounded(s: State, p: nat)
    requires Inv(s) && Legal(s, DeliverPrepare(p))
    ensures Grounded(PrepareStep(s, p))
  {
  }

  lemma InvPrepare(s: State, p: nat)
    requires Inv(s) && Legal(s, DeliverPrepare(p))
    ensures Inv(PrepareStep(s, p))
  {
    PrepareLocals(s, p);
    PrepareGrounded(s, p);
    var s' := PrepareStep(s, p);
    assert |s'.parts| == |s.parts| && ForCommit(s') == ForCommit(s) && p in Everyone(s);
    assert ConsentKnown(s');
    assert RecordOk(s') && DeletionOk(s');
  }

  /** A local change that fits the rest of the state. */
  lemma InvSetPart(s: State, p: nat, l: Local)
    requires Inv(s) && p < |s.parts|
    requires Live(s) ==> LocalOk(s, p, l)
    requires l.Committing? || l.Committed? ==> s.sawCommit != {}
    requires HasIntent(l) ==> p in s.prepareOk
    ensures Inv(SetPart(s, p, l))
  {
    var s' := SetPart(s, p, l);
    assert |s'.parts| == |s.parts| && ForCommit(s') == ForCommit(s) && Live(s') == Live(s);
  }

  lemma InvApplied(s: State, p: nat)
    requires Inv(s) && p < |s.parts|
    requires Live(s) ==> s.parts[p] == Committed
    ensures Inv(s.(applied := s.applied + {p}))
  {
    var s' := s.(applied := s.applied + {p});
    assert ForCommit(s') == ForCommit(s) && Live(s') == Live(s);
  }

  /** Once a transaction is not live, whoever holds its intent may let go. */
  lemma InvUndone(s: State, p: nat)
    requires Inv(s) && !Live(s)
    ensures Inv(s.(undone := s.undone + {p}))
  {
    var s' := s.(undone := s.undone + {p});
    assert ForCommit(s') == ForCommit(s) && Live(s') == Live(s);
  }

  /** A request to commit finds an intent, a commit under way or a finished one. */
  lemma CommitFindsIntent(s: State, p: nat)
    requires Inv(s) && p < |s.parts| && p in s.sawCommit
    ensures Holds(s.parts[p])
  {
    assert p in Everyone(s);
    assert LocalOk(s, p, s.parts[p]);
  }

  /** After an abort, whoever did not commit may let go. */
  lemma AbortedNotLive(s: State, p: nat)
    requires Inv(s) && p < |s.parts| && s.sawAbort != {} && s.parts[p] != Committed
    ensures !Live(s)
  {
    assert p in Everyone(s);
    assert Live(s) ==> LocalOk(s, p, s.parts[p]);
  }

  lemma InvCommit(s: State, e: Event)
    requires Inv(s) && Legal(s, e) && (e.StartCommit? || e.FinishCommit? || e.DropCommit?)
    ensures Inv(Step(s, e))
  {
    var p := e.p;
    var l := s.parts[p];
    assert Live(s) ==> LocalOk(s, p, l);
    if e.StartCommit? {
      CommitFindsIntent(s, p);
      if l == Prepared { InvSetPart(s, p, Committing); } else { InvApplied(s, p); }
    } else if e.FinishCommit? {
      InvSetPart(s, p, Committed);
      InvApplied(SetPart(s, p, Committed), p);
    } else {
      InvSetPart(s, p, Prepared);
    }
  }

  /** A rollback under way means the transaction is not live. */
  lemma RollingNotLive(s: State, p: nat)
    requires Inv(s) && p < |s.parts| && s.parts[p].RollingBack?
    ensures !Live(s)
  {
    assert Live(s) ==> LocalOk(s, p, s.parts[p]);
  }

  lemma InvStartRollback(s: State, p: nat)
    requires Inv(s) && Legal(s, StartRollback(p))
    ensures Inv(StartRollbackStep(s, p))
  {
    if s.parts[p] == Committed {
      InvApplied(s, p);
    } else {
      AbortedNotLive(s, p);
      InvSetPart(s, p, StartRollbackStep(s, p).parts[p]);
    }
  }

  lemma InvFinishRollback(s: State, p: nat)
    requires Inv(s) && Legal(s, FinishRollback(p))
    ensures Inv(FinishRollbackStep(s, p))
  {
    RollingNotLive(s, p);
    InvSetPart(s, p, Absent);
    var t := SetPart(s, p, Absent);
    assert !Live(t);
    InvApplied(t, p);
    if HasIntent(s.parts[p]) {
      InvUndone(t.(applied := t.applied + {p}), p);
    }
  }

  lemma InvDropRollback(s: State, p: nat)
    requires Inv(s) && Legal(s, DropRollback(p))
    ensures Inv(DropRollbackStep(s, p))
  {
    RollingNotLive(s, p);
    InvSetPart(s, p, DropRollbackStep(s, p).parts[p]);
  }

  lemma InvFailPrepare(s: State, p: nat)
    requires Inv(s) && Legal(s, FailPrepare(p)) && Careful(s, FailPrepare(p))
    ensures Inv(FailPrepareStep(s, p))
  {
    assert Live(s) ==> LocalOk(s, p, s.parts[p]);
    assert s.parts[p].Committing? ==> Live(s);
    var s' := FailPrepareStep(s, p);
    if s'.parts != s.parts {
      InvSetPart(s, p, s'.parts[p]);
      InvUndone(SetPart(s, p, s'.parts[p]), p);
    }
  }

  /** What the locals must satisfy depends on the history, not on the coordinator or the record. */
  lemma LocalsKeep(s: State, s': State)
    requires LocalsOk(s) && Grounded(s)
    requires s'.parts == s.parts && s'.prepareOk == s.prepareOk && s'.applied == s.applied && s'.undone == s.undone
    requires s'.bare == s.bare && s.sawCommit <= s'.sawCommit
    requires Live(s') ==> Live(s)
    ensures LocalsOk(s') && Grounded(s')
  {
    if Live(s') {
      forall p | 0 <= p < |s'.parts| ensures LocalOk(s', p, s'.parts[p]) {
        assert LocalOk(s, p, s.parts[p]);
      }
    }
  }

  /** Asking for a record to be created. */
  lemma InvAsk(s: State, r: Record)
    requires Inv(s) && s.coordinator.Preparing? && r.participants != {} && r.resolved == {}
    requires r.verdict != Abort ==>
               && !s.coordinator.failed && s.prepareOk == Everyone(s)
               && r == Record(if s.mode == EarlyAck then Stage else Commit, Everyone(s), {})
    ensures Inv(s.(coordinator := Writing(r), create := InFlight(r)))
  {
    LocalsKeep(s, s.(coordinator := Writing(r), create := InFlight(r)));
  }

  /** With every answer in and no failure, everyone consented. */
  lemma AllConsented(s: State)
    requires Inv(s) && Legal(s, Decide) && !s.coordinator.failed
    ensures s.coordinator.acks == Everyone(s) == s.prepareOk
  {
    assert s.coordinator.acks + {} == s.coordinator.acks;
  }

  lemma InvDecide(s: State)
    requires Inv(s) && Legal(s, Decide)
    ensures Inv(Step(s, Decide))
  {
    assert 0 in Everyone(s);
    if !s.coordinator.failed {
      AllConsented(s);
    }
    var s' := DecideStep(s);
    if s'.coordinator.Writing? {
      InvAsk(s, s'.coordinator.record);
    } else {
      InvCoordinator(s, GaveUp);
    }
  }

  lemma InvCreate(s: State)
    requires Inv(s) && s.create.InFlight?
    ensures Inv(CreateStep(s))
  {
    assert !ForCommit(s);
    assert s.record.None? && s.create.record.verdict != Abort ==> s.sawAbort == {};
    LocalsKeep(s, CreateStep(s));
    assert 0 in Everyone(s);
  }

  /** Turning a stored Staging or Committed record into a Committed one. */
  lemma InvRecover(s: State)
    requires Inv(s) && s.record.Some? && s.record.value.verdict != Abort
    ensures Inv(Store(s, s.record.value.(verdict := Commit)))
  {
    var s' := Store(s, s.record.value.(verdict := Commit));
    LocalsKeep(s, s');
    assert 0 in Everyone(s);
    assert s'.sawCommit == Everyone(s);
  }

  lemma InvCoordinator(s: State, c: Coordinator)
    requires Inv(s) && (c.Writing? ==> c == s.coordinator)
    requires c.Preparing? ==>
               && s.coordinator.Preparing? && c.acks <= s.prepareOk && (s.coordinator.failed ==> c.failed)
               && (!c.failed ==> c.acks + c.open == Everyone(s))
    ensures Inv(s.(coordinator := c))
  {
    LocalsKeep(s, s.(coordinator := c));
  }

  /** A late abort comes when everyone has committed, so it has nothing left to undo. */
  lemma InvTimeoutAbort(s: State, p: nat)
    requires Inv(s) && Legal(s, TimeoutAbort(p))
    ensures Inv(Step(s, TimeoutAbort(p)))
  {
    LocalsKeep(s, Step(s, TimeoutAbort(p)));
    assert 0 in Everyone(s);
    assert s.sawAbort <= Everyone(s) || !CanCommit(s);
  }

  lemma InvWatcher(s: State, e: Event)
    requires Inv(s) && Legal(s, e) && Careful(s, e)
    requires e.MarkResolved? || e.ArmGc? || e.DeleteRecord?
    ensures Inv(Step(s, e))
  {
    LocalsKeep(s, Step(s, e));
  }

  lemma InvParticipant(s: State, e: Event)
    requires Inv(s) && Legal(s, e) && Careful(s, e) && ByParticipant(e)
    ensures Inv(Step(s, e))
  {
    if e.DeliverPrepare? { InvPrepare(s, e.p);
    } else if e.FailPrepare? { InvFailPrepare(s, e.p);
    } else if e.StartRollback? { InvStartRollback(s, e.p);
    } else if e.FinishRollback? { InvFinishRollback(s, e.p);
    } else if e.DropRollback? { InvDropRollback(s, e.p);
    } else if !e.LoseMemory? { InvCommit(s, e); }
  }

  lemma InvRecoverOwn(s: State)
    requires Inv(s)
    ensures Inv(RecoverOwnStageStep(s))
  {
    if s.record.Some? && s.record.value.verdict != Abort {
      InvRecover(s);
      InvCoordinator(Store(s, s.record.value.(verdict := Commit)), Acknowledged);
    } else {
      InvCoordinator(s, GaveUp);
    }
  }

  /** Counting answers, and giving up. */
  lemma InvAnswers(s: State, e: Event)
    requires Inv(s) && Legal(s, e)
    requires
      || e.PrepareAnswer? || e.PrepareFailure? || e.ReadCheckFailure? || e.WriteReturns?
      || e.CommitAnswer? || e.ReportCommitted? || e.Abandon?
    ensures Inv(Step(s, e))
  {
    InvCoordinator(s, Step(s, e).coordinator);
  }

  lemma InvStep(s: State, e: Event)
    requires Inv(s) && Legal(s, e) && Careful(s, e)
    ensures Inv(Step(s, e))
  {
    if ByParticipant(e) { InvParticipant(s, e);
    } else if e.Decide? { InvDecide(s);
    } else if e.CreateLands? { InvCreate(s);
    } else if e.TimeoutAbort? { InvTimeoutAbort(s, e.p);
    } else if e.RecoverStage? { InvRecover(s);
    } else if ByWatcher(e) { InvWatcher(s, e);
    } else if e.RecoverOwnStage? { InvRecoverOwn(s);
    } else { InvAnswers(s, e); }
  }

  lemma {:induction false} InvRun(s: State, es: seq<Event>)
    requires Inv(s) && LegalRun(s, es) && CarefulRun(s, es)
    ensures Inv(Run(s, es))
    decreases |es|
  {
    if es != [] {
      InvStep(s, es[0]);
      InvRun(Step(s, es[0]), es[1..]);
    }
  }

  // ------------------------------------------------------------------ the theorems

  /** The state a run from the start leads to. */
  ghost predicate Reached(mode: Mode, n: nat, es: seq<Event>, s: State) {
    n > 0 && LegalRun(Start(mode, n), es) && CarefulRun(Start(mode, n), es) && s == Run(Start(mode, n), es)
  }

  lemma CarefulInv(mode: Mode, n: nat, es: seq<Event>, s: State)
    requires Reached(mode, n, es, s)
    ensures Inv(s)
  {
    StartInv(mode, n);
    InvRun(Start(mode, n), es);
  }

  /**
   All or nothing.  If one partition committed, every partition consented, none gave its writes up
   and each holds them still; so if one gave its writes up, none commits.
   */
  lemma Atomicity(mode: Mode, n: nat, es: seq<Event>, s: State, p: nat)
    requires Reached(mode, n, es, s)
    requires p < |s.parts| && (s.parts[p] == Committed || s.parts[p] == Committing)
    ensures s.prepareOk == Everyone(s) && s.undone == {}
    ensures forall q :: 0 <= q < |s.parts| ==> Holds(s.parts[q])
  {
    CarefulInv(mode, n, es, s);
    forall q | 0 <= q < |s.parts| ensures Holds(s.parts[q]) {
      assert LocalOk(s, q, s.parts[q]);
      assert q in Everyone(s);
    }
  }

  /** A commit record leaves the store only when every partition has committed. */
  lemma ForgottenMeansDone(mode: Mode, n: nat, es: seq<Event>, s: State)
    requires Reached(mode, n, es, s)
    requires ForCommit(s) && (s.record.None? || s.record.value.verdict == Abort)
    ensures AllCommitted(s)
  {
    CarefulInv(mode, n, es, s);
    forall q | 0 <= q < |s.parts| ensures s.parts[q] == Committed {
      assert LocalOk(s, q, s.parts[q]);
      assert q in Everyone(s);
    }
  }

  /** An acknowledged transaction was recorded as committed. */
  ghost predicate AckRecorded(s: State) {
    s.coordinator.Acknowledged? ==> s.sawCommit != {}
  }

  /** The partitions whose commit the coordinator counted. */
  ghost predicate CountedCommitted(s: State) {
    s.coordinator.Decided? ==> forall p :: p in s.coordinator.finished ==> p < |s.parts| && s.parts[p] == Committed
  }

  lemma CommittedStays(s: State, e: Event, p: nat)
    requires Legal(s, e) && p < |s.parts| && s.parts[p] == Committed
    ensures |Step(s, e).parts| == |s.parts| && Step(s, e).parts[p] == Committed
  {
  }

  lemma CountedStep(s: State, e: Event)
    requires Legal(s, e) && CountedCommitted(s)
    ensures CountedCommitted(Step(s, e))
  {
    var s' := Step(s, e);
    if s'.coordinator.Decided? {
      forall p | p in s'.coordinator.finished ensures p < |s'.parts| && s'.parts[p] == Committed {
        CommittedStays(s, e, p);
      }
    }
  }

  lemma {:induction false} AckRun(s: State, es: seq<Event>)
    requires Inv(s) && LegalRun(s, es) && CarefulRun(s, es) && AckRecorded(s) && CountedCommitted(s)
    ensures AckRecorded(Run(s, es))
    decreases |es|
  {
    if es != [] {
      InvStep(s, es[0]);
      CountedStep(s, es[0]);
      AckStep(s, es[0]);
      AckRun(Step(s, es[0]), es[1..]);
    }
  }

  lemma AckStep(s: State, e: Event)
    requires Inv(s) && Legal(s, e) && AckRecorded(s) && CountedCommitted(s)
    ensures AckRecorded(Step(s, e))
  {
    assert 0 in Everyone(s);
  }

  /** What a client was told is committed is never given up, in either mode. */
  lemma AcknowledgedIsKept(mode: Mode, n: nat, es: seq<Event>, s: State)
    requires Reached(mode, n, es, s) && s.coordinator.Acknowledged?
    ensures s.undone == {} && forall q :: 0 <= q < |s.parts| ==> Holds(s.parts[q])
  {
    CarefulInv(mode, n, es, s);
    StartInv(mode, n);
    AckRun(Start(mode, n), es);
    forall q | 0 <= q < |s.parts| ensures Holds(s.parts[q]) {
      assert LocalOk(s, q, s.parts[q]);
      assert q in Everyone(s);
    }
  }

  // ------------------------------------------------------------------ the conservative mode, on every run

  /** In this mode no record is ever staged. */
  ghost predicate NoStage(s: State) {
    && s.mode == DurableDecision
    && (s.create.InFlight? ==> s.create.record.verdict != Stage)
    && (s.record.Some? ==> s.record.value.verdict != Stage)
    && (s.coordinator.Decided? ==> s.coordinator.verdict != Stage)
    && (s.coordinator.Writing? ==> s.coordinator.record.verdict != Stage)
  }

  ghost predicate DurableOk(s: State) {
    NoStage(s) && (s.coordinator.Acknowledged? ==> AllCommitted(s))
  }

  lemma NoStageWatcher(s: State, e: Event)
    requires Legal(s, e) && NoStage(s) && ByWatcher(e)
    ensures NoStage(Step(s, e)) && Step(s, e).coordinator == s.coordinator
  {
  }

  lemma NoStageParticipant(s: State, e: Event)
    requires Legal(s, e) && NoStage(s) && ByParticipant(e)
    ensures NoStage(Step(s, e)) && Step(s, e).coordinator == s.coordinator
  {
  }

  lemma NoStageStep(s: State, e: Event)
    requires Legal(s, e) && NoStage(s)
    ensures NoStage(Step(s, e))
    ensures Step(s, e).coordinator.Acknowledged? ==> s.coordinator.Acknowledged? || e.ReportCommitted?
  {
    if ByWatcher(e) {
      NoStageWatcher(s, e);
    } else if ByParticipant(e) {
      NoStageParticipant(s, e);
    }
  }

  lemma DurableStep(s: State, e: Event)
    requires Legal(s, e) && CountedCommitted(s) && DurableOk(s)
    ensures DurableOk(Step(s, e))
  {
    NoStageStep(s, e);
    if Step(s, e).coordinator.Acknowledged? {
      forall p | 0 <= p < |s.parts| ensures Step(s, e).parts[p] == Committed {
        assert p in Everyone(s);
        CommittedStays(s, e, p);
      }
    }
  }

  lemma {:induction false} DurableRun(s: State, es: seq<Event>)
    requires LegalRun(s, es) && CountedCommitted(s) && DurableOk(s)
    ensures DurableOk(Run(s, es))
    decreases |es|
  {
    if es != [] {
      DurableStep(s, es[0]);
      CountedStep(s, es[0]);
      DurableRun(Step(s, es[0]), es[1..]);
    }
  }

  /** Without early acknowledgement, and whenever records are deleted: reported means committed everywhere. */
  lemma ReportedMeansCommitted(n: nat, es: seq<Event>)
    requires n > 0 && LegalRun(Start(DurableDecision, n), es)
    requires Run(Start(DurableDecision, n), es).coordinator.Acknowledged?
    ensures AllCommitted(Run(Start(DurableDecision, n), es))
  {
    DurableRun(Start(DurableDecision, n), es);
  }
}
