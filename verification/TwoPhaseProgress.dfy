/**
 What two-phase commit can always still do: carry a recorded decision out, forget it, and tell the
 client.
 */
module TwoPhaseProgress {
  import opened Common
  import opened TwoPhaseCommit
  import opened TwoPhaseRuns
  import opened TwoPhaseDecision

  // ------------------------------------------------------------------ one partition

  /** The partition applies the decision: what it holds is committed, or gone unless it had committed. */
  ghost predicate Applied(before: Local, after: Local, v: Verdict) {
    if v == Commit then Holds(before) ==> after == Committed
    else after == if before == Committed then Committed else Absent
  }

  /** Local moves at one partition. */
  ghost predicate MovesAt(s: State, t: State, p: nat) {
    && p < |s.parts| && LocalMoves(s, t) && t.gcArmed == s.gcArmed && s.applied <= t.applied
    && t.parts == s.parts[p := t.parts[p]]
  }

  lemma CarryCommit(s: State, p: nat) returns (es: seq<Event>, t: State)
    requires p < |s.parts| && p in s.sawCommit
    ensures Leads(s, es, t) && MovesAt(s, t, p) && p in t.applied && Applied(s.parts[p], t.parts[p], Commit)
  {
    es, t := [], s;
    if t.parts[p].RollingBack? {
      es, t := Then(s, es, t, DropRollback(p));
    }
    if !t.parts[p].Committing? {
      es, t := Then(s, es, t, StartCommit(p));
    }
    if t.parts[p].Committing? {
      es, t := Then(s, es, t, FinishCommit(p));
    }
  }

  lemma CarryAbort(s: State, p: nat) returns (es: seq<Event>, t: State)
    requires p < |s.parts| && p in s.sawAbort
    ensures Leads(s, es, t) && MovesAt(s, t, p) && p in t.applied && Applied(s.parts[p], t.parts[p], Abort)
  {
    es, t := [], s;
    if t.parts[p].Committing? {
      es, t := Then(s, es, t, DropCommit(p));
    }
    if !t.parts[p].RollingBack? {
      es, t := Then(s, es, t, StartRollback(p));
    }
    if t.parts[p].RollingBack? {
      es, t := Then(s, es, t, FinishRollback(p));
    }
  }

  // ------------------------------------------------------------------ carrying a decision out

  /** A commit or an abort is stored that everyone it names can read. */
  ghost predicate Stored(s: State, v: Verdict) {
    && v != Stage && s.record.Some? && s.record.value.verdict == v
    && (forall p: nat :: p in s.record.value.participants ==> p < |s.parts|)
    && s.record.value.participants <= if v == Commit then s.sawCommit else s.sawAbort
  }

  /** The first `k` partitions, as far as they are named, have applied the decision and are marked resolved. */
  ghost predicate CarriedTo(s: State, t: State, v: Verdict, k: nat) {
    && Stored(s, v) && Stored(t, v) && |t.parts| == |s.parts|
    && t.record.value.participants == s.record.value.participants
    && (forall p :: 0 <= p < |s.parts| ==>
          if p < k && p in s.record.value.participants
          then p in t.record.value.resolved && Applied(s.parts[p], t.parts[p], v)
          else t.parts[p] == s.parts[p])
  }

  lemma CarryOne(s: State, v: Verdict, p: nat) returns (es: seq<Event>, t: State)
    requires Stored(s, v) && p in s.record.value.participants
    ensures Leads(s, es, t) && Stored(t, v) && |t.parts| == |s.parts| && t.parts == s.parts[p := t.parts[p]]
    ensures Applied(s.parts[p], t.parts[p], v)
    ensures t.record == Some(s.record.value.(resolved := s.record.value.resolved + {p}))
  {
    if v == Commit {
      es, t := CarryCommit(s, p);
    } else {
      es, t := CarryAbort(s, p);
    }
    es, t := Then(s, es, t, MarkResolved(p));
  }

  lemma {:induction false} CarryOut(s: State, v: Verdict, k: nat) returns (es: seq<Event>, t: State)
    requires Stored(s, v) && k <= |s.parts|
    ensures Leads(s, es, t) && CarriedTo(s, t, v, k)
  {
    if k == 0 {
      es, t := [], s;
    } else {
      var es1, s1 := CarryOut(s, v, k - 1);
      es, t := es1, s1;
      if k - 1 in s.record.value.participants {
        var es2, s2 := CarryOne(s1, v, k - 1);
        Join(s, es1, s1, es2, s2);
        es, t := es1 + es2, s2;
      }
    }
  }

  lemma CarryAll(s: State, v: Verdict) returns (es: seq<Event>, t: State)
    requires Stored(s, v)
    ensures Leads(s, es, t) && t.record.None? && |t.parts| == |s.parts|
    ensures forall p :: 0 <= p < |s.parts| ==>
              if p in s.record.value.participants then Applied(s.parts[p], t.parts[p], v) else t.parts[p] == s.parts[p]
  {
    es, t := CarryOut(s, v, |s.parts|);
    assert t.record.value.participants <= t.record.value.resolved;
    es, t := Then(s, es, t, ArmGc);
    es, t := Then(s, es, t, DeleteRecord);
  }

  /**
   From every state of every run, careful or not, a stored decision can be carried out by everyone it
   names and then forgotten: a commit, also a staged one, commits whatever is still held, and an abort
   takes away whatever is not committed.
   */
  lemma DecisionsCanBeCarriedOut(mode: Mode, n: nat, es: seq<Event>, s: State) returns (fs: seq<Event>, t: State)
    requires n > 0 && LegalRun(Start(mode, n), es) && s == Run(Start(mode, n), es) && s.record.Some?
    ensures Leads(s, fs, t) && t.record.None? && |t.parts| == |s.parts|
    ensures
      var r := s.record.value;
      forall p :: 0 <= p < |s.parts| ==>
        if p in r.participants then Applied(s.parts[p], t.parts[p], if r.verdict == Abort then Abort else Commit)
        else t.parts[p] == s.parts[p]
  {
    Telling(mode, n, es);
    fs, t := [], s;
    if s.record.value.verdict == Stage {
      fs, t := Then(s, fs, t, RecoverStage);
    }
    var fs2, t2 := CarryAll(t, if s.record.value.verdict == Abort then Abort else Commit);
    Join(s, fs, t, fs2, t2);
    fs, t := fs + fs2, t2;
  }

  /** However many answers are missing, the coordinator can come to a decision. */
  lemma {:induction false} CanAlwaysDecide(s: State) returns (es: seq<Event>, t: State)
    requires s.coordinator.Preparing?
    ensures Leads(s, es, t) && Legal(t, Decide) && t.parts == s.parts && t.coordinator.acks == s.coordinator.acks
    decreases |s.coordinator.open|
  {
    if s.coordinator.open == {} {
      es, t := [], s;
    } else {
      var p :| p in s.coordinator.open;
      var es1, s1 := Then(s, [], s, PrepareFailure(p, true));
      var es2, s2 := CanAlwaysDecide(s1);
      Join(s, es1, s1, es2, s2);
      es, t := es1 + es2, s2;
    }
  }

  // ------------------------------------------------------------------ telling the client

  lemma {:induction false} CommitAll(s: State, k: nat) returns (es: seq<Event>, t: State)
    requires k <= |s.parts| && Everyone(s) <= s.sawCommit && forall p :: 0 <= p < |s.parts| ==> Holds(s.parts[p])
    ensures Leads(s, es, t) && LocalMoves(s, t) && forall p :: 0 <= p < |t.parts| ==> Holds(t.parts[p])
    ensures forall p :: 0 <= p < k ==> t.parts[p] == Committed
  {
    if k == 0 {
      es, t := [], s;
    } else {
      var es1, s1 := CommitAll(s, k - 1);
      assert k - 1 in Everyone(s);
      var es2, s2 := CommitAt(s1, k - 1);
      Join(s, es1, s1, es2, s2);
      es, t := es1 + es2, s2;
    }
  }

  lemma {:induction false} CountAll(s: State, k: nat) returns (es: seq<Event>, t: State)
    requires k <= |s.parts| && AllCommitted(s) && s.coordinator.Decided? && s.coordinator.verdict == Commit
    ensures Leads(s, es, t) && t.parts == s.parts && t.coordinator.Decided? && t.coordinator.verdict == Commit
    ensures t.coordinator.finished == s.coordinator.finished + Below(k)
  {
    if k == 0 {
      es, t := [], s;
      assert Below(0) == {};
    } else {
      var es1, s1 := CountAll(s, k - 1);
      es, t := Then(s, es1, s1, CommitAnswer(k - 1));
      assert Below(k - 1) + {k - 1} == Below(k);
    }
  }

  lemma Reports(s: State) returns (es: seq<Event>, t: State)
    requires s.coordinator.Decided? && s.coordinator.verdict == Commit && s.coordinator.finished <= Everyone(s)
    requires Everyone(s) <= s.sawCommit && forall p :: 0 <= p < |s.parts| ==> Holds(s.parts[p])
    ensures Leads(s, es, t) && t.coordinator.Acknowledged? && AllCommitted(t)
  {
    var es1, s1 := CommitAll(s, |s.parts|);
    var es2, s2 := CountAll(s1, |s1.parts|);
    Join(s, es1, s1, es2, s2);
    assert s2.coordinator.finished == Everyone(s2);
    es, t := Then(s, es1 + es2, s2, ReportCommitted);
  }

  /** What the coordinator has written, or finds written when it reads back, it goes on with. */
  ghost predicate Written(s: State) {
    s.coordinator.Writing? && (s.create == Answered(true) || s.record == Some(s.coordinator.record))
  }

  lemma CommitIsKnown(mode: Mode, n: nat, es: seq<Event>, s: State)
    requires Reached(mode, n, es, s) && Written(s) && s.coordinator.record.verdict == Commit
    ensures Everyone(s) <= s.sawCommit && forall p :: 0 <= p < |s.parts| ==> Holds(s.parts[p])
  {
    CarefulInv(mode, n, es, s);
    Telling(mode, n, es);
    assert forall p: nat :: p in Everyone(s) ==> p in s.sawCommit;
    forall p: nat | p < |s.parts| ensures Holds(s.parts[p]) {
      assert p in Everyone(s);
      CommitFindsIntent(s, p);
    }
  }

  /**
   Without early acknowledgement: from every state of a careful run in which the coordinator has
   written the commit, every partition can commit and the client be told.
   */
  lemma WrittenCommitCanBeReported(n: nat, es: seq<Event>, s: State) returns (fs: seq<Event>, t: State)
    requires Reached(DurableDecision, n, es, s) && Written(s) && s.coordinator.record.verdict == Commit
    ensures Leads(s, fs, t) && t.coordinator.Acknowledged? && AllCommitted(t)
  {
    CommitIsKnown(DurableDecision, n, es, s);
    var fs1, s1 := Then(s, [], s, WriteReturns);
    var fs2, s2 := Reports(s1);
    Join(s, fs1, s1, fs2, s2);
    fs, t := fs1 + fs2, s2;
  }

  /**
   With early acknowledgement: from every state of a careful run in which the coordinator has staged
   the commit and the record is not aborted, whoever has recovered it, the client can be told at once.
   */
  lemma WrittenStageCanBeReported(n: nat, es: seq<Event>, s: State) returns (fs: seq<Event>, t: State)
    requires Reached(EarlyAck, n, es, s) && Written(s) && s.coordinator.record.verdict == Stage
    requires s.record.Some? && s.record.value.verdict != Abort
    ensures Leads(s, fs, t) && t.coordinator.Acknowledged? && t.sawCommit == Everyone(t) && t.parts == s.parts
  {
    CarefulInv(EarlyAck, n, es, s);
    assert 0 in Everyone(s);
    fs, t := Then(s, [], s, WriteReturns);
    fs, t := Then(s, fs, t, RecoverOwnStage);
    assert t.sawCommit == Everyone(t);
  }

  // ------------------------------------------------------------------ requests that fail

  /** A commit that Raft refused or lost can be asked for again. */
  lemma DroppedCommitCanBeRetried(s: State, p: nat) returns (es: seq<Event>, t: State)
    requires Legal(s, DropCommit(p)) && p in s.sawCommit
    ensures Leads(Step(s, DropCommit(p)), es, t) && t.parts == s.parts[p := Committed]
  {
    es, t := CommitAt(Step(s, DropCommit(p)), p);
  }

  /** A prepare that failed leaves no intent, unless it came under a commit or after it. */
  lemma FailedPrepareLeavesNothing(s: State, p: nat)
    requires Legal(s, FailPrepare(p)) && !s.parts[p].Committing?
    ensures
      var t := Step(s, FailPrepare(p));
      && !HasIntent(t.parts[p]) && t.parts[p] != Committed && t.parts[p].RollingBack? == s.parts[p].RollingBack?
      && (HasIntent(s.parts[p]) ==> p in t.undone)
  {
  }

  /** An intent that was acknowledged survives restarts until a later prepare at the partition fails. */
  lemma {:induction false} AcknowledgedSurvivesRestarts(s: State, p: nat, es: seq<Event>)
    requires p < |s.parts| && p !in s.bare && LegalRun(s, es)
    requires forall i :: 0 <= i < |es| ==> es[i] != FailPrepare(p)
    ensures !Legal(Run(s, es), LoseMemory(p))
    decreases |es|
  {
    if es != [] {
      BareOnlyByFailure(s, p, es[0]);
      assert forall i :: 0 <= i < |es[1..]| ==> es[1..][i] == es[i + 1];
      AcknowledgedSurvivesRestarts(Step(s, es[0]), p, es[1..]);
    }
  }

  lemma BareOnlyByFailure(s: State, p: nat, e: Event)
    requires Legal(s, e) && p < |s.parts| && p !in s.bare && e != FailPrepare(p)
    ensures |Step(s, e).parts| == |s.parts| && p !in Step(s, e).bare
  {
  }

  /** In particular after every prepare that succeeds. */
  lemma PreparedSurvivesRestarts(s: State, p: nat, es: seq<Event>)
    requires Legal(s, DeliverPrepare(p)) && LegalRun(Step(s, DeliverPrepare(p)), es)
    requires forall i :: 0 <= i < |es| ==> es[i] != FailPrepare(p)
    ensures !Legal(Run(Step(s, DeliverPrepare(p)), es), LoseMemory(p))
  {
    AcknowledgedSurvivesRestarts(Step(s, DeliverPrepare(p)), p, es);
  }

  /** A coordinator that gave up never tells the client anything. */
  lemma {:induction false} GivenUpNeverReports(s: State, es: seq<Event>)
    requires s.coordinator.GaveUp? && LegalRun(s, es)
    ensures Run(s, es).coordinator.GaveUp?
    decreases |es|
  {
    if es != [] {
      GivenUpNeverReports(Step(s, es[0]), es[1..]);
    }
  }

  lemma AbandonedNeverReports(s: State, es: seq<Event>)
    requires !s.coordinator.Acknowledged? && LegalRun(Step(s, Abandon), es)
    ensures Run(Step(s, Abandon), es).coordinator.GaveUp?
  {
    GivenUpNeverReports(Step(s, Abandon), es);
  }
}
