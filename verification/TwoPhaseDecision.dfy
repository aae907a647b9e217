/**
 What the coordinator decides, said in terms of the answers of a run, and what becomes of every
 acknowledged intent.
 */
module TwoPhaseDecision {
  import opened Common
  import opened TwoPhaseCommit
  import opened TwoPhaseRuns

  // ------------------------------------------------------------------ the answers of a run

  predicate Fails(e: Event) {
    e.PrepareFailure? || e.ReadCheckFailure?
  }

  /** Some prepare or read check failed. */
  ghost predicate SomeFailure(es: seq<Event>) {
    exists i :: 0 <= i < |es| && Fails(es[i])
  }

  /** It failed without saying whether the partition has staged anything. */
  ghost predicate LostAnswer(es: seq<Event>) {
    exists i :: 0 <= i < |es| && Fails(es[i]) && es[i].ambiguous
  }

  ghost predicate Agreed(es: seq<Event>, p: nat) {
    exists i :: 0 <= i < |es| && es[i] == PrepareAnswer(p)
  }

  /** Whom an abort has to reach: everyone if an answer was lost, else those that answered. */
  ghost predicate MayHold(n: nat, es: seq<Event>, p: nat) {
    p < n && (LostAnswer(es) || Agreed(es, p))
  }

  ghost predicate NamesHolders(n: nat, es: seq<Event>, named: set<nat>) {
    forall p: nat :: p in named <==> MayHold(n, es, p)
  }

  lemma FailureSnoc(es: seq<Event>, e: Event)
    ensures SomeFailure(es + [e]) <==> SomeFailure(es) || Fails(e)
    ensures LostAnswer(es + [e]) <==> LostAnswer(es) || (Fails(e) && e.ambiguous)
  {
    var all := es + [e];
    assert all[|es|] == e && forall i :: 0 <= i < |es| ==> all[i] == es[i];
    if SomeFailure(es) {
      var i :| 0 <= i < |es| && Fails(es[i]);
      assert Fails(all[i]);
    }
    if LostAnswer(es) {
      var i :| 0 <= i < |es| && Fails(es[i]) && es[i].ambiguous;
      assert Fails(all[i]) && all[i].ambiguous;
    }
    if Fails(e) {
      assert Fails(all[|es|]);
    }
  }

  lemma AgreedSnoc(es: seq<Event>, e: Event, p: nat)
    ensures Agreed(es + [e], p) <==> Agreed(es, p) || e == PrepareAnswer(p)
  {
    var all := es + [e];
    assert all[|es|] == e && forall i :: 0 <= i < |es| ==> all[i] == es[i];
    if Agreed(es, p) {
      var i :| 0 <= i < |es| && es[i] == PrepareAnswer(p);
      assert all[i] == PrepareAnswer(p);
    }
  }

  /** What the coordinator asks to be recorded. */
  ghost predicate Asked(mode: Mode, n: nat, es: seq<Event>, r: Record) {
    && r.resolved == {}
    && if SomeFailure(es) then r.verdict == Abort && NamesHolders(n, es, r.participants)
       else r.verdict == (if mode == EarlyAck then Stage else Commit)
            && (forall p: nat :: p < n ==> Agreed(es, p) && p in r.participants)
            && (forall p: nat :: p in r.participants ==> p < n)
  }

  /** The coordinator has counted the answers of the run, and asks for what they say. */
  ghost predicate Counted(mode: Mode, n: nat, es: seq<Event>, s: State) {
    && s.mode == mode && |s.parts| == n
    && (s.coordinator.Preparing? ==>
          && s.create.NotSent?
          && (s.coordinator.failed <==> SomeFailure(es))
          && (s.coordinator.ambiguous <==> LostAnswer(es))
          && (forall p: nat :: p in s.coordinator.acks <==> Agreed(es, p))
          && (forall p: nat :: p in s.coordinator.acks ==> p < n)
          && (forall p: nat :: p in s.coordinator.open ==> p < n)
          && (!s.coordinator.failed ==> forall p: nat :: p < n ==> p in s.coordinator.acks || p in s.coordinator.open))
    && (s.coordinator.Writing? ==> Asked(mode, n, es, s.coordinator.record))
    && (s.create.InFlight? ==> Asked(mode, n, es, s.create.record))
  }

  lemma CountedAnswers(mode: Mode, n: nat, es: seq<Event>, s: State, e: Event)
    requires Counted(mode, n, es, s) && Legal(s, e) && s.coordinator.Preparing?
    requires e.PrepareAnswer? || Fails(e)
    ensures Counted(mode, n, es + [e], Step(s, e))
  {
    FailureSnoc(es, e);
    forall p: nat ensures Agreed(es + [e], p) <==> Agreed(es, p) || e == PrepareAnswer(p) {
      AgreedSnoc(es, e, p);
    }
  }

  /** An event that is no answer changes nothing the answers say. */
  lemma AskedSnoc(mode: Mode, n: nat, es: seq<Event>, r: Record, e: Event)
    requires !e.PrepareAnswer? && !Fails(e)
    ensures Asked(mode, n, es + [e], r) <==> Asked(mode, n, es, r)
    ensures forall p: nat :: Agreed(es + [e], p) <==> Agreed(es, p)
  {
    FailureSnoc(es, e);
    forall p: nat ensures Agreed(es + [e], p) <==> Agreed(es, p) {
      AgreedSnoc(es, e, p);
    }
  }

  lemma CountedDecide(mode: Mode, n: nat, es: seq<Event>, s: State)
    requires Counted(mode, n, es, s) && Legal(s, Decide)
    ensures Counted(mode, n, es, Step(s, Decide))
  {
  }

  lemma CountedOther(mode: Mode, n: nat, es: seq<Event>, s: State, e: Event)
    requires Counted(mode, n, es, s) && Legal(s, e) && !e.PrepareAnswer? && !Fails(e) && !e.Decide?
    ensures Counted(mode, n, es, Step(s, e))
  {
    var s' := Step(s, e);
    assert |s'.parts| == |s.parts| && s'.mode == s.mode;
    assert s'.coordinator.Preparing? || s'.coordinator.Writing? ==> s'.coordinator == s.coordinator;
    assert s'.create.InFlight? ==> s'.create == s.create;
    assert s'.coordinator.Preparing? ==> s'.create == s.create;
  }

  lemma CountedStep(mode: Mode, n: nat, es: seq<Event>, s: State, e: Event)
    requires Counted(mode, n, es, s) && Legal(s, e)
    ensures Counted(mode, n, es + [e], Step(s, e))
  {
    if e.PrepareAnswer? || Fails(e) {
      CountedAnswers(mode, n, es, s, e);
    } else {
      if e.Decide? {
        CountedDecide(mode, n, es, s);
      } else {
        CountedOther(mode, n, es, s, e);
      }
      var s' := Step(s, e);
      FailureSnoc(es, e);
      if s'.coordinator.Writing? { AskedSnoc(mode, n, es, s'.coordinator.record, e); }
      if s'.create.InFlight? { AskedSnoc(mode, n, es, s'.create.record, e); }
      AskedSnoc(mode, n, es, Record(Abort, {}, {}), e);
    }
  }

  // ------------------------------------------------------------------ what was recorded

  /** Whatever the coordinator had recorded was stored for all it names. */
  ghost predicate Landed(mode: Mode, n: nat, es: seq<Event>, s: State) {
    s.create == Answered(true) ==>
      && (SomeFailure(es) ==> forall p: nat :: MayHold(n, es, p) ==> p in s.sawAbort)
      && (!SomeFailure(es) && mode == EarlyAck ==> s.sawStage)
      && (!SomeFailure(es) && mode == DurableDecision ==> forall p: nat :: p < n ==> p in s.sawCommit)
  }

  lemma LandedCreate(mode: Mode, n: nat, es: seq<Event>, s: State)
    requires Counted(mode, n, es, s) && s.create.InFlight?
    ensures Landed(mode, n, es, CreateStep(s))
  {
  }

  /** A partition moves nothing but its own state and the histories about it. */
  lemma ParticipantFrame(s: State, e: Event)
    requires Legal(s, e) && ByParticipant(e)
    ensures
      var t := Step(s, e);
      && t.mode == s.mode && t.record == s.record && t.coordinator == s.coordinator && t.create == s.create
      && t.sawStage == s.sawStage && t.sawCommit == s.sawCommit && t.sawAbort == s.sawAbort && t.gcArmed == s.gcArmed
      && |t.parts| == |s.parts|
  {
  }

  lemma ParticipantMoves(s: State, e: Event)
    requires Legal(s, e) && ByParticipant(e)
    ensures
      var t := Step(s, e);
      && |t.parts| == |s.parts| && t.parts == s.parts[e.p := t.parts[e.p]]
      && t.prepareOk <= s.prepareOk + {e.p} && t.undone <= s.undone + {e.p}
  {
  }

  /** The others leave the partitions alone. */
  lemma OtherFrame(s: State, e: Event)
    requires Legal(s, e) && !ByParticipant(e)
    ensures
      var t := Step(s, e);
      && t.parts == s.parts && t.prepareOk == s.prepareOk && t.undone == s.undone
      && s.sawAbort <= t.sawAbort && s.sawCommit <= t.sawCommit && (s.sawStage ==> t.sawStage)
      && (t.create == Answered(true) ==> s.create == Answered(true) || e.CreateLands?)
  {
  }

  lemma SeenGrows(s: State, e: Event)
    requires Legal(s, e)
    ensures var t := Step(s, e); s.sawAbort <= t.sawAbort && s.sawCommit <= t.sawCommit && (s.sawStage ==> t.sawStage)
    ensures Step(s, e).create == Answered(true) ==> s.create == Answered(true) || e.CreateLands?
    ensures |Step(s, e).parts| == |s.parts|
  {
    if ByParticipant(e) {
      ParticipantFrame(s, e);
    } else {
      OtherFrame(s, e);
    }
  }

  lemma LandedStep(mode: Mode, n: nat, es: seq<Event>, s: State, e: Event)
    requires Counted(mode, n, es, s) && Landed(mode, n, es, s) && Legal(s, e)
    ensures Landed(mode, n, es + [e], Step(s, e))
  {
    SeenGrows(s, e);
    if Step(s, e).create == Answered(true) {
      assert !e.PrepareAnswer? && !Fails(e);
      AskedSnoc(mode, n, es, Record(Abort, {}, {}), e);
      FailureSnoc(es, e);
      if e.CreateLands? {
        LandedCreate(mode, n, es, s);
      }
    }
  }

  /** Whoever the stored record names can act on it. */
  ghost predicate Readable(s: State) {
    s.record.Some? ==>
      && (forall p: nat :: p in s.record.value.participants ==> p < |s.parts|)
      && (s.record.value.verdict == Commit ==> s.record.value.participants <= s.sawCommit)
      && (s.record.value.verdict == Abort ==> s.record.value.participants <= s.sawAbort)
  }

  /** Who a record names, and how, changes only where one is stored. */
  lemma RecordFrame(s: State, e: Event)
    requires Legal(s, e) && !e.CreateLands? && !e.TimeoutAbort? && !e.RecoverStage? && !e.RecoverOwnStage?
    ensures
      var t := Step(s, e);
      t.record.Some? ==>
        && s.record.Some? && t.record.value.verdict == s.record.value.verdict
        && t.record.value.participants == s.record.value.participants
  {
  }

  lemma ReadableStored(s: State, r: Record)
    requires forall p: nat :: p in r.participants ==> p < |s.parts|
    ensures Readable(Store(s, r))
  {
  }

  lemma ReadableStep(mode: Mode, n: nat, es: seq<Event>, s: State, e: Event)
    requires Counted(mode, n, es, s) && Readable(s) && Legal(s, e)
    ensures Readable(Step(s, e))
  {
    if e.CreateLands? {
      assert forall p: nat :: p in s.create.record.participants ==> p < |s.parts|;
      ReadableStored(s, s.create.record);
    } else if e.TimeoutAbort? {
      ReadableStored(s, Record(Abort, Everyone(s), {}));
    } else if e.RecoverStage? || e.RecoverOwnStage? {
      if s.record.Some? {
        ReadableStored(s, s.record.value.(verdict := Commit));
      }
    } else {
      SeenGrows(s, e);
      RecordFrame(s, e);
    }
  }

  // ------------------------------------------------------------------ what became of an intent

  /** An acknowledged intent is still there, was committed, or is known to have been given up. */
  ghost predicate Accounted(s: State) {
    && (forall p: nat :: p in s.prepareOk ==>
          p < |s.parts| && (HasIntent(s.parts[p]) || s.parts[p] == Committed || p in s.undone))
    && (forall p: nat :: p in s.undone ==> p in s.prepareOk)
    && (forall p: nat :: p < |s.parts| && (HasIntent(s.parts[p]) || s.parts[p] == Committed) ==> p in s.prepareOk)
  }

  /** The same for one partition. */
  ghost predicate IntentOk(l: Local, acked: bool, undone: bool) {
    && (acked ==> HasIntent(l) || l == Committed || undone)
    && (undone || HasIntent(l) || l == Committed ==> acked)
  }

  lemma AccountedIff(s: State)
    requires s.prepareOk <= Everyone(s) && s.undone <= Everyone(s)
    ensures Accounted(s) <==>
            forall p :: 0 <= p < |s.parts| ==> IntentOk(s.parts[p], p in s.prepareOk, p in s.undone)
  {
    if forall p :: 0 <= p < |s.parts| ==> IntentOk(s.parts[p], p in s.prepareOk, p in s.undone) {
      forall p: nat | p in s.prepareOk || p in s.undone ensures p < |s.parts| {
        assert p in Everyone(s);
      }
    }
  }

  lemma IntentStep(s: State, e: Event)
    requires Legal(s, e) && ByParticipant(e) && IntentOk(s.parts[e.p], e.p in s.prepareOk, e.p in s.undone)
    ensures
      var t := Step(s, e);
      |t.parts| == |s.parts| && IntentOk(t.parts[e.p], e.p in t.prepareOk, e.p in t.undone)
  {
  }

  lemma AccountedParticipant(s: State, e: Event)
    requires Accounted(s) && Legal(s, e) && ByParticipant(e)
    ensures Accounted(Step(s, e))
  {
    var t := Step(s, e);
    AccountedIff(s);
    ParticipantMoves(s, e);
    IntentStep(s, e);
    OthersKept(s, e);
    assert Everyone(t) == Everyone(s) && e.p in Everyone(s);
    forall p | 0 <= p < |t.parts| ensures IntentOk(t.parts[p], p in t.prepareOk, p in t.undone) {
      assert IntentOk(s.parts[p], p in s.prepareOk, p in s.undone);
    }
    AccountedIff(t);
  }

  lemma OthersKept(s: State, e: Event)
    requires Legal(s, e) && ByParticipant(e)
    ensures s.prepareOk <= Step(s, e).prepareOk && s.undone <= Step(s, e).undone
  {
  }

  lemma AccountedStep(s: State, e: Event)
    requires Accounted(s) && Legal(s, e)
    ensures Accounted(Step(s, e))
  {
    if ByParticipant(e) {
      AccountedParticipant(s, e);
    } else {
      OtherFrame(s, e);
    }
  }

  // ------------------------------------------------------------------ every run

  ghost predicate Told(mode: Mode, n: nat, es: seq<Event>, s: State) {
    Counted(mode, n, es, s) && Landed(mode, n, es, s) && Readable(s) && Accounted(s)
  }

  lemma ToldStart(mode: Mode, n: nat)
    requires n > 0
    ensures Told(mode, n, [], Start(mode, n))
  {
  }

  lemma {:induction false} ToldRun(mode: Mode, n: nat, past: seq<Event>, s: State, es: seq<Event>)
    requires Told(mode, n, past, s) && LegalRun(s, es)
    ensures Told(mode, n, past + es, Run(s, es))
    decreases |es|
  {
    if es == [] {
      assert past + es == past;
    } else {
      CountedStep(mode, n, past, s, es[0]);
      LandedStep(mode, n, past, s, es[0]);
      ReadableStep(mode, n, past, s, es[0]);
      AccountedStep(s, es[0]);
      ToldRun(mode, n, past + [es[0]], Step(s, es[0]), es[1..]);
      assert past + es == past + [es[0]] + es[1..];
    }
  }

  lemma Telling(mode: Mode, n: nat, es: seq<Event>)
    requires n > 0 && LegalRun(Start(mode, n), es)
    ensures Told(mode, n, es, Run(Start(mode, n), es))
  {
    ToldStart(mode, n);
    ToldRun(mode, n, [], Start(mode, n), es);
    assert [] + es == es;
  }

  /**
   On every run the record the coordinator asks for follows from the answers of the run: an abort
   after any failure, which names everyone if an answer was lost and exactly those that agreed if
   none was; otherwise everyone agreed, and the record names everyone.
   */
  lemma AsksForWhatWasAnswered(mode: Mode, n: nat, es: seq<Event>, s: State)
    requires n > 0 && LegalRun(Start(mode, n), es) && s == Run(Start(mode, n), es)
    ensures s.coordinator.Writing? ==> Asked(mode, n, es, s.coordinator.record)
    ensures s.create.InFlight? ==> Asked(mode, n, es, s.create.record)
  {
    Telling(mode, n, es);
  }

  /** The decision asks for a record unless everything failed plainly and nobody may hold anything. */
  lemma DecisionAsksUnlessNobodyHolds(mode: Mode, n: nat, es: seq<Event>, s: State)
    requires n > 0 && LegalRun(Start(mode, n), es) && s == Run(Start(mode, n), es) && Legal(s, Decide)
    ensures
      var t := Step(s, Decide);
      && (t.create.InFlight? <==> !SomeFailure(es) || exists p: nat :: MayHold(n, es, p))
      && (t.create.InFlight? ==> t.coordinator == Writing(t.create.record))
      && (!t.create.InFlight? ==> t.coordinator.GaveUp? && t.create.NotSent?)
  {
    Telling(mode, n, es);
    var t := Step(s, Decide);
    if SomeFailure(es) {
      if LostAnswer(es) {
        assert MayHold(n, es, 0) && 0 in Everyone(s);
      } else if s.coordinator.acks != {} {
        var p :| p in s.coordinator.acks;
        assert MayHold(n, es, p);
      }
    }
  }

  /** Once the coordinator's record has landed, everyone it concerns can read it. */
  lemma LandedReachesHolders(mode: Mode, n: nat, es: seq<Event>, s: State, p: nat)
    requires n > 0 && LegalRun(Start(mode, n), es) && s == Run(Start(mode, n), es)
    requires s.create == Answered(true)
    ensures MayHold(n, es, p) && SomeFailure(es) ==> p in s.sawAbort
    ensures p < n && !SomeFailure(es) ==> if mode == EarlyAck then s.sawStage else p in s.sawCommit
  {
    Telling(mode, n, es);
  }

  /**
   After a failure whose abort landed, every partition that may hold an intent can be cleared of it,
   unless it is under a commit; in particular every partition if an answer was lost.
   */
  lemma AbortClears(mode: Mode, n: nat, es: seq<Event>, s: State, p: nat) returns (fs: seq<Event>, t: State)
    requires n > 0 && LegalRun(Start(mode, n), es) && s == Run(Start(mode, n), es)
    requires s.create == Answered(true) && SomeFailure(es) && MayHold(n, es, p)
    requires p < |s.parts| && HasIntent(s.parts[p]) && s.parts[p] != Committing
    ensures LegalRun(s, fs) && t == Run(s, fs)
    ensures t.parts == s.parts[p := Absent] && p in t.undone && p in t.applied
  {
    LandedReachesHolders(mode, n, es, s, p);
    fs, t := Clears(s, p);
  }

  lemma Clears(s: State, p: nat) returns (fs: seq<Event>, t: State)
    requires p < |s.parts| && p in s.sawAbort && HasIntent(s.parts[p]) && s.parts[p] != Committing
    ensures LegalRun(s, fs) && t == Run(s, fs)
    ensures t.parts == s.parts[p := Absent] && p in t.undone && p in t.applied
  {
    fs, t := [], s;
    if s.parts[p] == Prepared {
      fs, t := Then(s, fs, t, StartRollback(p));
    }
    fs, t := Then(s, fs, t, FinishRollback(p));
  }

  /**
   On every run, careful or not, a partition that acknowledged a prepare still has the intent, has
   committed it, or is known to have given one up; and only such partitions have any.
   */
  lemma IntentsAccountedFor(mode: Mode, n: nat, es: seq<Event>, s: State)
    requires n > 0 && LegalRun(Start(mode, n), es) && s == Run(Start(mode, n), es)
    ensures Accounted(s)
  {
    Telling(mode, n, es);
  }
}
