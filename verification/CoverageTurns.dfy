/**
  The turn of a log group in a run of the reconciler: a visit that is not killed, with the calls that
  raised or were refused counted, and with steps of others in it, before it and after it.
 */
module CoverageTurns {
  import opened Basics
  import opened Telemetry
  import opened CoverageProtocol
  import opened CoverageInvariant

  // ---- Steps of the others ----

  /** A step of the recorder or of the environment, which does not concern the run. */
  predicate ByOthers(step: Step) {
    step.Tick? || step.OthersSetFilters? || step.DeleteGroup? || step.CreateGroup? || step.TaskProgress?
    || step.ExportWrites? || step.RecordLive? || step.RecordObject?
  }

  /** Such a step neither reads nor changes where the run is, what it reports and what it lost. */
  lemma OthersIgnoreTheRun(s: State, view: State, step: Step)
    requires ByOthers(step) && view == s.(pc := view.pc, rep := view.rep, h := view.h)
    ensures Enabled(s, step) <==> Enabled(view, step)
    ensures Enabled(s, step) ==>
      var t, seen := Apply(s, step), Apply(view, step);
      && t == seen.(pc := s.pc, rep := s.rep, h := t.h) && t.h.unwritten == s.h.unwritten
      && t.cfg == s.cfg && t.name == s.name && t.clock >= s.clock && (s.item.Some? ==> t.item.Some?)
      && Row(t).meta == Row(s).meta
  {
    hide Find, Inspect;
  }

  /** Only others make steps. */
  ghost predicate LeftAlone(s: State, t: State) {
    exists steps :: Run(s, steps) == Some(t) && forall step :: step in steps ==> ByOthers(step)
  }

  lemma LeftAsItIs(s: State)
    ensures LeftAlone(s, s)
  {
    assert Run(s, []) == Some(s);
  }

  lemma LeftAloneStep(s: State, t: State, step: Step)
    requires LeftAlone(s, t) && Enabled(t, step) && ByOthers(step)
    ensures LeftAlone(s, Apply(t, step))
  {
    hide Run, Enabled, Apply, ByOthers;
    var steps :| Run(s, steps) == Some(t) && forall x :: x in steps ==> ByOthers(x);
    RunSnoc(s, steps, t, step);
  }

  lemma LeftAloneTransitive(s: State, t: State, u: State)
    requires LeftAlone(s, t) && LeftAlone(t, u)
    ensures LeftAlone(s, u)
  {
    hide Run, ByOthers;
    var first :| Run(s, first) == Some(t) && forall x :: x in first ==> ByOthers(x);
    var second :| Run(t, second) == Some(u) && forall x :: x in second ==> ByOthers(x);
    RunConcat(s, first, second);
  }

  lemma {:induction false} OthersLeaveTheRun(s: State, steps: seq<Step>)
    requires Run(s, steps).Some? && forall step :: step in steps ==> ByOthers(step)
    ensures var t := Run(s, steps).value;
      && t.pc == s.pc && t.rep == s.rep && t.h.unwritten == s.h.unwritten && t.cfg == s.cfg && t.name == s.name
      && Row(t).meta == Row(s).meta
  {
    if steps != [] {
      hide Enabled, Apply;
      var before, step := steps[..|steps| - 1], steps[|steps| - 1];
      OthersLeaveTheRun(s, before);
      OthersIgnoreTheRun(Run(s, before).value, Run(s, before).value, step);
    }
  }

  lemma LeftAloneKeeps(s: State, t: State)
    requires LeftAlone(s, t)
    ensures t.pc == s.pc && t.rep == s.rep && t.h.unwritten == s.h.unwritten && t.cfg == s.cfg && t.name == s.name
    ensures Row(t).meta == Row(s).meta
    ensures Inv(s) ==> Inv(t)
  {
    hide Inv, ByOthers, Run;
    var steps :| Run(s, steps) == Some(t) && forall x :: x in steps ==> ByOthers(x);
    OthersLeaveTheRun(s, steps);
    if Inv(s) { RunFromInv(s, steps); }
  }

  // ---- Steps of a visit ----

  /** What a run reports for an exception, and for an export that was refused. */
  const EXCEPTION := "reconcile_failed:"
  const REFUSAL := "backfill_start_failed:"

  predicate IsException(reason: Option<string>) { reason.Some? && EXCEPTION <= reason.value }

  /** Steps that a visit may consist of: of others, and calls of the run, which is not killed. */
  predicate OfVisit(step: Step) {
    || ByOthers(step) || step.Go? || step.TaskUnseen? || step.ExportStarted? || step.ExportLimited?
    || ((step.Raise? || step.PutUnanswered?) && EXCEPTION <= step.reason)
    || ((step.ExportUnanswered? || step.ExportDenied?) && REFUSAL <= step.error)
  }

  /** How many calls raised, and how many were refused or could not see what they asked for. */
  datatype Faults = Faults(raised: nat, refused: nat) {
    function And(step: Step): Faults {
      if step.Raise? || step.PutUnanswered? then Faults(raised + 1, refused)
      else if step.TaskUnseen? || step.ExportUnanswered? || step.ExportLimited? || step.ExportDenied? then
        Faults(raised, refused + 1)
      else this
    }
  }

  function Tally(faults: Faults, steps: seq<Step>): Faults {
    if steps == [] then faults else Tally(faults, steps[..|steps| - 1]).And(steps[|steps| - 1])
  }

  /** Where a visit started, and the faults that there had been. */
  datatype Origin = Origin(s: State, faults: Faults)

  /** Steps of a visit lead from its start to `t`, while the faults grew to these. */
  ghost predicate Makes(start: Origin, t: State, faults: Faults) {
    exists steps ::
      && Run(start.s, steps) == Some(t) && (forall step :: step in steps ==> OfVisit(step))
      && Tally(start.faults, steps) == faults
  }

  lemma MakesNothing(start: Origin)
    ensures Makes(start, start.s, start.faults)
  {
    assert Run(start.s, []) == Some(start.s) && Tally(start.faults, []) == start.faults;
  }

  lemma MakesStep(start: Origin, t: State, faults: Faults, step: Step)
    requires Makes(start, t, faults) && Enabled(t, step) && OfVisit(step)
    ensures Makes(start, Apply(t, step), faults.And(step))
  {
    hide Run, Enabled, Apply, OfVisit;
    var steps :|
      && Run(start.s, steps) == Some(t) && (forall x :: x in steps ==> OfVisit(x))
      && Tally(start.faults, steps) == faults;
    RunSnoc(start.s, steps, t, step);
    assert (steps + [step])[..|steps|] == steps;
  }

  lemma {:induction false} OthersHaveNoFaults(faults: Faults, first: seq<Step>, second: seq<Step>)
    requires forall step :: step in second ==> ByOthers(step)
    ensures Tally(faults, first + second) == Tally(faults, first)
  {
    if second == [] {
      assert first + second == first;
    } else {
      OthersHaveNoFaults(faults, first, second[..|second| - 1]);
      assert (first + second)[..|first + second| - 1] == first + second[..|second| - 1];
      assert ByOthers(second[|second| - 1]);
    }
  }

  lemma MakesWhileOthers(start: Origin, t: State, faults: Faults, u: State)
    requires Makes(start, t, faults) && LeftAlone(t, u)
    ensures Makes(start, u, faults)
  {
    hide Run, ByOthers;
    var first :|
      && Run(start.s, first) == Some(t) && (forall x :: x in first ==> OfVisit(x))
      && Tally(start.faults, first) == faults;
    var second :| Run(t, second) == Some(u) && forall x :: x in second ==> ByOthers(x);
    RunConcat(start.s, first, second);
    OthersHaveNoFaults(start.faults, first, second);
  }

  lemma MakesKeepsInv(start: Origin, t: State, faults: Faults)
    requires Makes(start, t, faults) && Inv(start.s)
    ensures Inv(t)
  {
    hide Inv, Run, OfVisit;
    var steps :|
      && Run(start.s, steps) == Some(t) && (forall x :: x in steps ==> OfVisit(x))
      && Tally(start.faults, steps) == faults;
    RunFromInv(start.s, steps);
  }

  // ---- What the faults say ----

  /** What the program point and the report say about the exceptions of the visit so far. */
  predicate Excepted(s: State, raised: nat) {
    match raised
    case 0 =>
      && !s.h.unwritten && !s.pc.WriteFailed? && !IsException(s.rep.failed)
      && (s.pc.WriteBackfill? ==> !(EXCEPTION <= s.pc.error))
    case 1 => !s.h.unwritten && (s.pc.WriteFailed? || s.pc.Idle?) && IsException(s.rep.failed)
    case 2 => s.h.unwritten && s.pc.Idle? && IsException(s.rep.failed)
    case _ => false
  }

  lemma OtherReasons(reason: string)
    ensures REFUSAL <= reason || (reason != "" && reason[0] != 'r') ==> !(EXCEPTION <= reason)
  {
    if REFUSAL <= reason { assert reason[0] == REFUSAL[0]; }
    if EXCEPTION <= reason { assert reason[0] == EXCEPTION[0]; }
  }

  lemma InspectionIsNoException(existing: seq<Filter>, name: string, cfg: Config)
    ensures var v := Inspect(existing, name, cfg); v.Refused? ==> !(EXCEPTION <= v.reason)
  {
    var v := Inspect(existing, name, cfg);
    if v.Refused? { OtherReasons(v.reason); }
  }

  lemma OutcomeIsNoException(code: TaskCode, clock: int)
    ensures !(EXCEPTION <= PollOutcome(code, clock).1)
  {
    OtherReasons(PollOutcome(code, clock).1);
  }

  lemma CallIsExcepted(s: State, raised: nat)
    requires Excepted(s, raised) && Enabled(s, Go)
    ensures Excepted(Advance(s), raised)
  {
    InspectionIsNoException(s.w.filters, FilterName(s.cfg, s.name), s.cfg);
    OtherReasons("log_group_not_found");
    if s.pc.StartBackfill? && PlanBackfill(s.pc.current.bf, s.pc.creation, s.pc.confirmedAt).Poll? {
      OutcomeIsNoException(s.w.exports[s.pc.current.bf.taskId.value].code, s.clock);
    }
    hide Inspect, PollOutcome, IsReset, IsComplete, Outstanding, Merge, Find, Filtered;
  }

  lemma StepIsExcepted(s: State, step: Step, faults: Faults)
    requires Excepted(s, faults.raised) && Enabled(s, step) && OfVisit(step)
    ensures Excepted(Apply(s, step), faults.And(step).raised)
  {
    hide Advance, PlanBackfill, Filtered, UnsafePut, UnsafeStop;
    if step.Go? { CallIsExcepted(s, faults.raised); }
    if step.TaskUnseen? { OtherReasons("backfill_task_unobservable"); }
    if step.ExportUnanswered? || step.ExportDenied? { OtherReasons(step.error); }
  }

  lemma {:induction false} RunIsExcepted(s: State, steps: seq<Step>, faults: Faults)
    requires Excepted(s, faults.raised) && Run(s, steps).Some? && forall step :: step in steps ==> OfVisit(step)
    ensures Excepted(Run(s, steps).value, Tally(faults, steps).raised)
  {
    if steps != [] {
      hide Excepted, Enabled, Apply, OfVisit;
      var before := steps[..|steps| - 1];
      RunIsExcepted(s, before, faults);
      StepIsExcepted(Run(s, before).value, steps[|steps| - 1], Tally(faults, before));
    }
  }

  lemma {:induction false} TallyFromZero(faults: Faults, steps: seq<Step>)
    ensures var t := Tally(Faults(0, 0), steps);
      Tally(faults, steps) == Faults(faults.raised + t.raised, faults.refused + t.refused)
  {
    if steps != [] { TallyFromZero(faults, steps[..|steps| - 1]); }
  }

  // ---- What the visit leaves in the row ----

  /** The visit has confirmed the row, and not raised since. */
  predicate HasConfirmed(pc: Pc) {
    pc.StartBackfill? || pc.WriteBackfill? || pc.WriteBackfillError? || pc.WriteCoverage? || pc.Return?
  }

  /** The visit is the one that began at `now`, and the row says so once it has been written. */
  predicate Checked(s: State, now: int) {
    && (s.pc != Idle ==> s.pc.now == now)
    && (HasConfirmed(s.pc) || (s.pc == Idle && !s.h.unwritten) ==>
          Row(s).meta.checkedAt == Some(now) && Row(s).meta.ownerStage == Some(s.cfg.stage))
  }

  lemma CallIsChecked(s: State, now: int)
    requires Checked(s, now) && Enabled(s, Go)
    ensures Checked(Advance(s), now)
  {
    hide Inspect, PlanBackfill, PollOutcome, IsReset, IsComplete, Outstanding, Find, Filtered;
    hide MergeSub, MergeBackfill, MergeObject, MergeLive;
  }

  lemma StepIsChecked(s: State, step: Step, now: int)
    requires Checked(s, now) && Enabled(s, step) && OfVisit(step)
    ensures Checked(Apply(s, step), now)
  {
    hide Advance, PlanBackfill, Filtered, UnsafePut, UnsafeStop;
    if step.Go? { CallIsChecked(s, now); }
  }

  lemma {:induction false} RunIsChecked(s: State, steps: seq<Step>, now: int)
    requires Checked(s, now) && Run(s, steps).Some? && forall step :: step in steps ==> OfVisit(step)
    ensures Checked(Run(s, steps).value, now)
  {
    if steps != [] {
      hide Checked, Enabled, Apply, OfVisit;
      var before := steps[..|steps| - 1];
      RunIsChecked(s, before, now);
      StepIsChecked(Run(s, before).value, steps[|steps| - 1], now);
    }
  }

  // ---- Turns ----

  /** A group that rested is visited by a run that began at `now`, and rests again; in the visit the
      faults grew from `before` to `after`. */
  ghost predicate Turn(s: State, before: Faults, t: State, after: Faults, now: int) {
    exists a, v ::
      && LeftAlone(s, a) && a.pc == Idle && 0 < now <= a.clock
      && Makes(Origin(Apply(a, Begin(now)), before), v, after) && v.pc == Idle
      && LeftAlone(v, t)
  }

  lemma TurnIsMade(s: State, a: State, before: Faults, v: State, after: Faults, now: int)
    requires LeftAlone(s, a) && a.pc == Idle && 0 < now <= a.clock
    requires Makes(Origin(Apply(a, Begin(now)), before), v, after) && v.pc == Idle
    ensures Turn(s, before, v, after, now)
  {
    hide LeftAlone, Makes, Apply;
    LeftAsItIs(v);
  }

  lemma TurnStays(s: State, before: Faults, t: State, after: Faults, now: int, u: State)
    requires Turn(s, before, t, after, now) && LeftAlone(t, u)
    ensures Turn(s, before, u, after, now)
  {
    hide LeftAlone, Makes, Apply;
    var a, v :|
      && LeftAlone(s, a) && a.pc == Idle && 0 < now <= a.clock
      && Makes(Origin(Apply(a, Begin(now)), before), v, after) && v.pc == Idle
      && LeftAlone(v, t);
    LeftAloneTransitive(v, t, u);
  }

  lemma TurnStartsLater(s: State, a: State, before: Faults, t: State, after: Faults, now: int)
    requires LeftAlone(s, a) && Turn(a, before, t, after, now)
    ensures Turn(s, before, t, after, now)
  {
    hide LeftAlone, Makes, Apply;
    var b, v :|
      && LeftAlone(a, b) && b.pc == Idle && 0 < now <= b.clock
      && Makes(Origin(Apply(b, Begin(now)), before), v, after) && v.pc == Idle
      && LeftAlone(v, t);
    LeftAloneTransitive(s, a, b);
  }

  /** A visit has at most two exceptions, the second of which loses its last write. The first, and
      nothing else, makes the run report an exception. */
  lemma VisitCountsExceptions(start: Origin, t: State, faults: Faults)
    requires Makes(start, t, faults) && start.s.pc.DescribeGroup? && start.s.rep == NO_REPORT && !start.s.h.unwritten
    requires t.pc == Idle
    ensures start.faults.raised <= faults.raised <= start.faults.raised + 2 && start.faults.refused <= faults.refused
    ensures t.h.unwritten <==> faults.raised == start.faults.raised + 2
    ensures IsException(t.rep.failed) <==> faults.raised > start.faults.raised
    ensures Checked(t, start.s.pc.now)
  {
    hide Run, OfVisit;
    var steps :|
      && Run(start.s, steps) == Some(t) && (forall step :: step in steps ==> OfVisit(step))
      && Tally(start.faults, steps) == faults;
    TallyFromZero(start.faults, steps);
    RunIsExcepted(start.s, steps, Faults(0, 0));
    RunIsChecked(start.s, steps, start.s.pc.now);
  }

  /** The protocol state after a turn: what it says of the row, and of the faults. */
  ghost predicate Reported(t: State, raised: int, now: int) {
    && 0 <= raised <= 2
    && (IsException(t.rep.failed) <==> raised > 0)
    && (raised < 2 ==>
          && Row(t).meta.checkedAt == Some(now) && Row(t).meta.ownerStage == Some(t.cfg.stage)
          && (t.rep.covered <==> Row(t).meta.coverage == Some(Complete))
          && t.rep.failed.GetOr("") == Row(t).meta.failureReason.GetOr(""))
    && (t.rep.covered ==> t.rep.subscribed && t.rep.failed.None?) && (t.rep.subscribed ==> t.rep.matched)
  }

  /** Report and row agree after every turn, unless two of its calls raised. */
  lemma TurnReports(s: State, before: Faults, t: State, after: Faults, now: int)
    requires Inv(s) && Turn(s, before, t, after, now)
    ensures Inv(t) && t.pc == Idle && Reported(t, after.raised - before.raised, now) && before.refused <= after.refused
    ensures t.h.unwritten <==> after.raised - before.raised == 2
  {
    hide LeftAlone, Makes, Run;
    var a, v :|
      && LeftAlone(s, a) && a.pc == Idle && 0 < now <= a.clock
      && Makes(Origin(Apply(a, Begin(now)), before), v, after) && v.pc == Idle
      && LeftAlone(v, t);
    LeftAloneKeeps(s, a);
    StepKeepsInv(a, Begin(now));
    MakesKeepsInv(Origin(Apply(a, Begin(now)), before), v, after);
    VisitCountsExceptions(Origin(Apply(a, Begin(now)), before), v, after);
    LeftAloneKeeps(v, t);
    hide ClockInv, SubInv, GapInv, BackfillInv, ObjectInv, LiveInv, PcInv, ExportInv, SourceInv, VanishedInv;
  }
}
