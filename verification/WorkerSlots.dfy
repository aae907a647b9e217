/**
 Starting and stopping the scheduled-job runner and the cron executor.  Each has a slot behind its
 own lock; a start holds both locks, a stop or shutdown takes the two slots one after the other.
 */
module WorkerSlots {
  import opened Common

  /** What a call has done so far and which handles it holds. */
  datatype Call =
    | StartChecked                                       // saw that starts are allowed
    | StartLocked                                        // holds the runner's lock
    | StopBegun
    | StopHalf(runner: Option<nat>)                      // took what was in the runner's slot
    | StopBoth(runner: Option<nat>, cron: Option<nat>)   // and what was in the executor's
    | Done

  /** Handles are numbered as they are made, runners even and executors odd; `down` logs shutdowns. */
  datatype State = State(
    allowed: bool, runner: Option<nat>, cron: Option<nat>, locked: bool,
    calls: seq<Call>, down: seq<nat>, next: nat)

  datatype Event =
    | BeginStart
    | LockRunner(c: nat)
    | FinishStart(c: nat)
    | BeginStop(final: bool) // `final`: a shutdown, which forbids further starts first
    | TakeRunner(c: nat)
    | TakeCron(c: nat)
    | ShutDown(c: nat)

  const START := State(true, None, None, false, [], [], 0)

  predicate Legal(s: State, e: Event) {
    match e
    case BeginStart => true
    case BeginStop(_) => true
    case LockRunner(c) => c < |s.calls| && s.calls[c].StartChecked? && !s.locked
    case FinishStart(c) => c < |s.calls| && s.calls[c].StartLocked?
    case TakeRunner(c) => c < |s.calls| && s.calls[c].StopBegun? && !s.locked
    case TakeCron(c) => c < |s.calls| && s.calls[c].StopHalf?
    case ShutDown(c) => c < |s.calls| && s.calls[c].StopBoth?
  }

  /** A start that finds both slots empty. */
  predicate Stores(s: State, e: Event) {
    e.FinishStart? && s.runner.None? && s.cron.None?
  }

  function AsSeq(o: Option<nat>): seq<nat> {
    if o.Some? then [o.value] else []
  }

  function Step(s: State, e: Event): State
    requires Legal(s, e)
  {
    match e
    case BeginStart => s.(calls := s.calls + [if s.allowed then StartChecked else Done])
    case BeginStop(final) => s.(allowed := s.allowed && !final, calls := s.calls + [StopBegun])
    case LockRunner(c) => s.(locked := true, calls := s.calls[c := StartLocked])
    case FinishStart(c) =>
      var s' := s.(locked := false, calls := s.calls[c := Done]);
      if Stores(s, e) then s'.(runner := Some(s.next), cron := Some(s.next + 1), next := s.next + 2) else s'
    case TakeRunner(c) => s.(runner := None, calls := s.calls[c := StopHalf(s.runner)])
    case TakeCron(c) => s.(cron := None, calls := s.calls[c := StopBoth(s.calls[c].runner, s.cron)])
    case ShutDown(c) =>
      s.(down := s.down + AsSeq(s.calls[c].runner) + AsSeq(s.calls[c].cron), calls := s.calls[c := Done])
  }

  predicate LegalRun(s: State, es: seq<Event>)
    decreases |es|
  {
    es == [] || (Legal(s, es[0]) && LegalRun(Step(s, es[0]), es[1..]))
  }

  function Run(s: State, es: seq<Event>): State
    requires LegalRun(s, es)
    decreases |es|
  {
    if es == [] then s else Run(Step(s, es[0]), es[1..])
  }

  // ------------------------------------------------------------------ every handle has one place

  predicate InSlot(s: State, h: nat) {
    s.runner == Some(h) || s.cron == Some(h)
  }

  predicate Has(c: Call, h: nat) {
    || (c.StopHalf? && c.runner == Some(h))
    || (c.StopBoth? && (c.runner == Some(h) || c.cron == Some(h)))
  }

  predicate SomeoneHas(s: State, h: nat) {
    exists c :: 0 <= c < |s.calls| && Has(s.calls[c], h)
  }

  predicate CallNumbered(c: Call, next: nat) {
    && ((c.StopHalf? || c.StopBoth?) && c.runner.Some? ==> c.runner.value < next && c.runner.value % 2 == 0)
    && (c.StopBoth? && c.cron.Some? ==> c.cron.value < next && c.cron.value % 2 == 1)
  }

  /** Runners have even numbers and cron workers odd ones. */
  ghost predicate Numbered(s: State) {
    && s.next % 2 == 0
    && (s.runner.Some? ==> s.runner.value < s.next && s.runner.value % 2 == 0)
    && (s.cron.Some? ==> s.cron.value < s.next && s.cron.value % 2 == 1)
    && (forall h :: h in s.down ==> h < s.next)
    && (forall c :: 0 <= c < |s.calls| ==> CallNumbered(s.calls[c], s.next))
  }

  ghost predicate OnePlace(s: State) {
    && Distinct(s.down)
    && (forall h: nat :: h < s.next ==> InSlot(s, h) || h in s.down || SomeoneHas(s, h))
    && (forall h :: InSlot(s, h) ==> h !in s.down)
    && (forall c, h :: 0 <= c < |s.calls| && Has(s.calls[c], h) ==> !InSlot(s, h) && h !in s.down)
    && (forall c, d, h :: 0 <= c < d < |s.calls| ==> !(Has(s.calls[c], h) && Has(s.calls[d], h)))
  }

  ghost predicate Inv(s: State) {
    Numbered(s) && OnePlace(s)
  }

  lemma NumberedStep(s: State, e: Event)
    requires Numbered(s) && Legal(s, e)
    ensures Numbered(Step(s, e))
  {
  }

  /** A call other than `c` still has what it had. */
  lemma StillHeld(s: State, c: nat, call: Call, h: nat)
    requires c < |s.calls| && SomeoneHas(s, h) && (Has(s.calls[c], h) ==> Has(call, h))
    ensures SomeoneHas(s.(calls := s.calls[c := call]), h)
  {
    var d :| 0 <= d < |s.calls| && Has(s.calls[d], h);
    assert Has(s.calls[c := call][d], h);
  }

  lemma PlacesBegin(s: State, e: Event)
    requires Inv(s) && Legal(s, e) && (e.BeginStart? || e.BeginStop?)
    ensures OnePlace(Step(s, e))
  {
    var s' := Step(s, e);
    forall h: nat | h < s'.next && !InSlot(s', h) && h !in s'.down ensures SomeoneHas(s', h) {
      var c :| 0 <= c < |s.calls| && Has(s.calls[c], h);
      assert Has(s'.calls[c], h);
    }
  }

  lemma PlacesStart(s: State, e: Event)
    requires Inv(s) && Legal(s, e) && (e.LockRunner? || e.FinishStart?)
    ensures OnePlace(Step(s, e))
  {
    var s' := Step(s, e);
    forall h: nat | h < s.next && SomeoneHas(s, h) ensures SomeoneHas(s', h) {
      StillHeld(s, e.c, s'.calls[e.c], h);
    }
  }

  lemma PlacesTake(s: State, e: Event)
    requires Inv(s) && Legal(s, e) && (e.TakeRunner? || e.TakeCron?)
    ensures OnePlace(Step(s, e))
  {
    var s' := Step(s, e);
    assert forall h :: Has(s'.calls[e.c], h) ==> InSlot(s, h) || Has(s.calls[e.c], h);
    forall h: nat | h < s'.next && !InSlot(s', h) && h !in s'.down ensures SomeoneHas(s', h) {
      if InSlot(s, h) {
        assert Has(s'.calls[e.c], h);
      } else {
        StillHeld(s, e.c, s'.calls[e.c], h);
      }
    }
  }

  /** A call shuts down two different handles that were not shut down before. */
  lemma ShutOnce(s: State, c: nat)
    requires Inv(s) && Legal(s, ShutDown(c))
    ensures Distinct(Step(s, ShutDown(c)).down)
    ensures forall h :: h in Step(s, ShutDown(c)).down <==> h in s.down || Has(s.calls[c], h)
  {
    var runner, cron := s.calls[c].runner, s.calls[c].cron;
    if runner.Some? { assert Has(s.calls[c], runner.value); }
    if cron.Some? { assert Has(s.calls[c], cron.value); }
    assert runner.Some? && cron.Some? ==> runner.value != cron.value;
    AddedOnce(s.down, runner);
    AddedOnce(s.down + AsSeq(runner), cron);
  }

  lemma AddedOnce(down: seq<nat>, h: Option<nat>)
    requires Distinct(down) && (h.Some? ==> h.value !in down)
    ensures Distinct(down + AsSeq(h))
  {
  }

  lemma PlacesShut(s: State, c: nat)
    requires Inv(s) && Legal(s, ShutDown(c))
    ensures OnePlace(Step(s, ShutDown(c)))
  {
    var s' := Step(s, ShutDown(c));
    ShutOnce(s, c);
    forall h: nat | h < s'.next && !InSlot(s', h) && h !in s'.down ensures SomeoneHas(s', h) {
      StillHeld(s, c, Done, h);
    }
    forall d, h | 0 <= d < |s'.calls| && Has(s'.calls[d], h) ensures !InSlot(s', h) && h !in s'.down {
      assert Has(s.calls[d], h) && d != c;
    }
  }

  lemma {:induction false} InvRun(s: State, es: seq<Event>)
    requires Inv(s) && LegalRun(s, es)
    ensures Inv(Run(s, es))
    decreases |es|
  {
    if es != [] {
      var e := es[0];
      NumberedStep(s, e);
      match e {
        case BeginStart => PlacesBegin(s, e);
        case BeginStop(_) => PlacesBegin(s, e);
        case LockRunner(_) => PlacesStart(s, e);
        case FinishStart(_) => PlacesStart(s, e);
        case TakeRunner(_) => PlacesTake(s, e);
        case TakeCron(_) => PlacesTake(s, e);
        case ShutDown(c) => PlacesShut(s, c);
      }
      InvRun(Step(s, e), es[1..]);
    }
  }

  /**
   However calls overlap, each handle is in one place: its slot, one stopping call, or the log of
   shutdowns, where it is once.  None is overwritten or lost.
   */
  lemma HandlesHaveOnePlace(es: seq<Event>, h: nat)
    requires LegalRun(START, es) && h < Run(START, es).next
    ensures var s := Run(START, es);
            && (InSlot(s, h) || h in s.down || SomeoneHas(s, h))
            && !(InSlot(s, h) && h in s.down) && !(SomeoneHas(s, h) && (InSlot(s, h) || h in s.down))
            && (forall c, d :: 0 <= c < |s.calls| && 0 <= d < |s.calls| && Has(s.calls[c], h) && Has(s.calls[d], h) ==>
                  c == d)
            && Distinct(s.down)
  {
    InvRun(START, es);
  }

  // ------------------------------------------------------------------ both or none

  predicate Halfway(s: State) {
    exists c :: 0 <= c < |s.calls| && s.calls[c].StopHalf?
  }

  /** No start stores its workers while a stop is between the two slots. */
  predicate NoStartInside(s: State, es: seq<Event>)
    requires LegalRun(s, es)
    decreases |es|
  {
    es == [] || (!(Stores(s, es[0]) && Halfway(s)) && NoStartInside(Step(s, es[0]), es[1..]))
  }

  ghost predicate Paired(s: State) {
    if Halfway(s) then s.runner.None? else s.runner.Some? <==> s.cron.Some?
  }

  lemma PairedStep(s: State, e: Event)
    requires Paired(s) && Legal(s, e) && !(Stores(s, e) && Halfway(s))
    ensures Paired(Step(s, e))
  {
    var s' := Step(s, e);
    if Halfway(s) && !e.TakeCron? {
      var c :| 0 <= c < |s.calls| && s.calls[c].StopHalf?;
      assert s'.calls[c].StopHalf?;
    } else if e.TakeRunner? {
      assert s'.calls[e.c].StopHalf?;
    }
  }

  lemma {:induction false} PairedRun(s: State, es: seq<Event>)
    requires Paired(s) && LegalRun(s, es) && NoStartInside(s, es)
    ensures Paired(Run(s, es))
    decreases |es|
  {
    if es != [] {
      PairedStep(s, es[0]);
      PairedRun(Step(s, es[0]), es[1..]);
    }
  }

  /** Both workers run or neither does, once no stop is under way. */
  lemma BothOrNone(es: seq<Event>)
    requires LegalRun(START, es) && NoStartInside(START, es) && !Halfway(Run(START, es))
    ensures Run(START, es).runner.Some? <==> Run(START, es).cron.Some?
  {
    PairedRun(START, es);
  }

  /** The condition is exact: a start that stores inside a stop leaves a lone runner. */
  lemma StartInsideSplits(s: State, e: Event, c: nat)
    requires Legal(s, e) && Stores(s, e) && c < |s.calls| && s.calls[c].StopHalf?
    ensures Legal(Step(s, e), TakeCron(c))
    ensures var s' := Step(Step(s, e), TakeCron(c)); s'.runner.Some? && s'.cron.None?
  {
  }

  // ------------------------------------------------------------------ shutdown

  predicate Starting(s: State) {
    exists c :: 0 <= c < |s.calls| && (s.calls[c].StartChecked? || s.calls[c].StartLocked?)
  }

  lemma {:induction false} ShutdownIsFinal(s: State, es: seq<Event>)
    requires !s.allowed && !Starting(s) && s.runner.None? && s.cron.None? && LegalRun(s, es)
    ensures Run(s, es).runner.None? && Run(s, es).cron.None? && Run(s, es).next == s.next
    decreases |es|
  {
    if es != [] {
      var s' := Step(s, es[0]);
      forall c | 0 <= c < |s'.calls| ensures !s'.calls[c].StartChecked? && !s'.calls[c].StartLocked? {
        assert c < |s.calls| ==> !s.calls[c].StartChecked? && !s.calls[c].StartLocked?;
      }
      ShutdownIsFinal(s', es[1..]);
    }
  }

  /**
   The condition is exact: a start past the flag, as soon as the lock is free, fills both slots after
   the shutdown has emptied them.
   */
  lemma StartedAfterShutdown(s: State, c: nat) returns (es: seq<Event>)
    requires !s.allowed && s.runner.None? && s.cron.None? && c < |s.calls|
    requires s.calls[c].StartLocked? || (s.calls[c].StartChecked? && !s.locked)
    ensures LegalRun(s, es) && |es| <= 2
    ensures !Run(s, es).allowed && Run(s, es).runner.Some? && Run(s, es).cron.Some?
  {
    if s.calls[c].StartLocked? {
      es := [FinishStart(c)];
      assert es[1..] == [];
      assert Run(s, es) == Run(Step(s, FinishStart(c)), []);
    } else {
      es := [LockRunner(c), FinishStart(c)];
      var s1 := Step(s, LockRunner(c));
      assert es[1..] == [FinishStart(c)] && es[1..][1..] == [];
      assert Run(s, es) == Run(s1, [FinishStart(c)]) == Run(Step(s1, FinishStart(c)), []);
    }
  }

  /** The lock is held by exactly one start. */
  ghost predicate LockOk(s: State) {
    && (s.locked ==> exists c :: 0 <= c < |s.calls| && s.calls[c].StartLocked?)
    && (forall c, d :: 0 <= c < d < |s.calls| ==> !(s.calls[c].StartLocked? && s.calls[d].StartLocked?))
    && (forall c :: 0 <= c < |s.calls| && s.calls[c].StartLocked? ==> s.locked)
  }

  lemma LockStep(s: State, e: Event)
    requires LockOk(s) && Legal(s, e)
    ensures LockOk(Step(s, e))
  {
    var s' := Step(s, e);
    if s'.locked && !e.LockRunner? {
      var c :| 0 <= c < |s.calls| && s.calls[c].StartLocked?;
      assert s'.calls[c].StartLocked?;
    } else if e.LockRunner? {
      assert s'.calls[e.c].StartLocked?;
    }
  }

  lemma {:induction false} LockRun(s: State, es: seq<Event>)
    requires LockOk(s) && LegalRun(s, es)
    ensures LockOk(Run(s, es))
    decreases |es|
  {
    if es != [] {
      LockStep(s, es[0]);
      LockRun(Step(s, es[0]), es[1..]);
    }
  }

  /** While a start holds the runner's lock, nobody else takes or fills the runner's slot. */
  lemma {:induction false} StartHoldsRunner(s: State, c: nat, es: seq<Event>)
    requires LockOk(s) && c < |s.calls| && s.calls[c].StartLocked? && LegalRun(s, es)
    requires forall i :: 0 <= i < |es| ==> es[i] != FinishStart(c)
    ensures Run(s, es).runner == s.runner && c < |Run(s, es).calls| && Run(s, es).calls[c].StartLocked?
    decreases |es|
  {
    if es != [] {
      LockStep(s, es[0]);
      var t := Step(s, es[0]);
      assert t.runner == s.runner && t.calls[c].StartLocked?;
      assert forall i :: 0 <= i < |es[1..]| ==> es[1..][i] == es[i + 1];
      StartHoldsRunner(t, c, es[1..]);
    }
  }

  /** After a shutdown has emptied the slots, workers can run again if and only if a start is in progress. */
  lemma RunsAgainIffStarting(es: seq<Event>)
    requires LegalRun(START, es) && !Run(START, es).allowed && Run(START, es).runner.None? && Run(START, es).cron.None?
    ensures Starting(Run(START, es)) <==>
            exists fs :: LegalRun(Run(START, es), fs) && Run(Run(START, es), fs).runner.Some?
  {
    var s := Run(START, es);
    LockRun(START, es);
    if Starting(s) {
      var c :| 0 <= c < |s.calls| && (s.calls[c].StartChecked? || s.calls[c].StartLocked?);
      if s.locked {
        c :| 0 <= c < |s.calls| && s.calls[c].StartLocked?;
      }
      var fs := StartedAfterShutdown(s, c);
    } else {
      forall fs | LegalRun(s, fs) ensures Run(s, fs).runner.None? {
        ShutdownIsFinal(s, fs);
      }
    }
  }

  // ------------------------------------------------------------------ overlapping calls

  lemma {:induction false} Extend(s: State, es: seq<Event>, e: Event)
    requires LegalRun(s, es) && Legal(Run(s, es), e)
    ensures LegalRun(s, es + [e]) && Run(s, es + [e]) == Step(Run(s, es), e)
    decreases |es|
  {
    if es == [] {
      assert (es + [e])[1..] == [];
    } else {
      Extend(Step(s, es[0]), es[1..], e);
      assert (es + [e])[1..] == es[1..] + [e];
    }
  }

  lemma Then(start: State, es: seq<Event>, s: State, e: Event) returns (es': seq<Event>, s': State)
    requires LegalRun(start, es) && Run(start, es) == s && Legal(s, e)
    ensures s' == Step(s, e) && LegalRun(start, es') && Run(start, es') == s'
  {
    Extend(start, es, e);
    es', s' := es + [e], Step(s, e);
  }

  /** A stop of nothing that a start overtakes leaves the runner without the executor. */
  lemma StopLeavesHalf(start: State) returns (es: seq<Event>, s: State)
    requires start == START
    ensures LegalRun(start, es) && Run(start, es) == s
    ensures s.runner.Some? && s.cron.None? && forall c :: 0 <= c < |s.calls| ==> s.calls[c] == Done
  {
    es, s := Then(start, [], start, BeginStop(false));
    es, s := Then(start, es, s, TakeRunner(0));
    es, s := Then(start, es, s, BeginStart);
    es, s := Then(start, es, s, LockRunner(1));
    es, s := Then(start, es, s, FinishStart(1));
    es, s := Then(start, es, s, TakeCron(0));
    es, s := Then(start, es, s, ShutDown(0));
  }

  /** A start that has seen the flag outlives the shutdown. */
  lemma StartOutlivesShutdown(start: State) returns (es: seq<Event>, s: State)
    requires start == START
    ensures LegalRun(start, es) && Run(start, es) == s
    ensures !s.allowed && s.runner.Some? && s.cron.Some? && forall c :: 0 <= c < |s.calls| ==> s.calls[c] == Done
  {
    es, s := Then(start, [], start, BeginStart);
    es, s := Then(start, es, s, BeginStop(true));
    es, s := Then(start, es, s, TakeRunner(1));
    es, s := Then(start, es, s, TakeCron(1));
    es, s := Then(start, es, s, ShutDown(1));
    es, s := Then(start, es, s, LockRunner(0));
    es, s := Then(start, es, s, FinishStart(0));
  }
}
