/**
  Exports that ended badly: what a turn reports and writes about them, whatever others do meanwhile.
 */
module CoverageFailures {
  import opened Basics
  import opened Telemetry
  import opened CoverageProtocol
  import opened CoverageInvariant
  import opened CoverageTurns

  /** What a run reports for a backfill that it leaves in this state. */
  function FailureOf(status: Option<BackfillStatus>): (r: Option<string>)
    ensures r.Some? ==> r.value != ""
  {
    match status
    case Some(FAILED) => Some("backfill_failed")
    case Some(CANCELLED) => Some("backfill_cancelled")
    case _ => None
  }

  /** The step of a visit in which nothing raises and nothing is refused. */
  predicate GoesWell(step: Step) { ByOthers(step) || step.Go? || step.ExportStarted? }

  // ---- The report follows the status ----

  /** What the visit will report is what the row's backfill status says, or will say. */
  predicate Follows(pc: Pc, rep: Report, row: Item) {
    match pc
    case Idle => rep.subscribed ==> rep.failed == FailureOf(row.bf.status) && row.meta.coverage.Some?
    case WriteMissing(_) => !rep.subscribed
    case WriteRefused(_, _, _) => !rep.subscribed
    case WriteFailed(_, _) => false
    case WriteBackfill(_, _, patch, error) =>
      rep.failed.None? && error == FailureOf(MergeBackfill(row.bf, patch).status).GetOr("")
    case WriteBackfillError(_, _, error) => rep.failed == FailureOf(row.bf.status) == Some(error)
    case WriteCoverage(_, _, _) => rep.failed == FailureOf(row.bf.status)
    case Return(_, _) => rep.failed == FailureOf(row.bf.status) && row.meta.coverage.Some?
    case ReadClock(_, _, _, _, _) => rep.failed.None?
    case WriteConfirmed(_, _, _, _, _, _) => rep.failed.None?
    case StartBackfill(_, _, _, _) => rep.failed.None?
    case _ => rep.failed.None? && !rep.subscribed
  }

  predicate FollowsIn(s: State) { Follows(s.pc, s.rep, Row(s)) }

  /** The backfill that the visit decides on is the row's, and its status is that of its export. */
  predicate HoldsBackfill(s: State) {
    BackfillInv(Row(s).bf, Row(s).sub, s.w.exports) && (s.pc.StartBackfill? ==> s.pc.current.bf == Row(s).bf)
  }

  lemma InvHoldsBackfill(s: State)
    requires Inv(s)
    ensures HoldsBackfill(s)
  {
    hide ClockInv, SubInv, GapInv, BackfillInv, ObjectInv, LiveInv, ExportInv, SourceInv, VanishedInv, ReportInv;
    hide EvidenceHeld, VisitInv, PutInv;
  }

  lemma DecisionFollows(s: State)
    requires HoldsBackfill(s) && s.pc.StartBackfill? && Enabled(s, Go) && s.rep.failed.None?
    ensures FollowsIn(Advance(s))
  {
    hide IsComplete, Find, MergeMeta, MergeSub, MergeObject, MergeLive;
  }

  lemma WriteFollows(s: State)
    requires s.pc.WriteBackfill? || s.pc.WriteBackfillError? || s.pc.WriteCoverage? || s.pc.Return?
    requires FollowsIn(s) && Enabled(s, Go)
    ensures FollowsIn(Advance(s))
  {
    hide FailureOf, IsComplete, MergeSub, MergeObject, MergeLive;
  }

  lemma CallFollows(s: State)
    requires HoldsBackfill(s) && FollowsIn(s) && Enabled(s, Go)
    ensures FollowsIn(Advance(s))
  {
    hide FailureOf, HoldsBackfill, Inspect, IsReset, Outstanding, Find, Filtered, Merge;
    if s.pc.StartBackfill? {
      DecisionFollows(s);
    } else if s.pc.WriteBackfill? || s.pc.WriteBackfillError? || s.pc.WriteCoverage? || s.pc.Return? {
      WriteFollows(s);
    }
  }

  lemma OthersKeepBackfill(s: State, step: Step)
    requires ByOthers(step) && Enabled(s, step)
    ensures Row(Apply(s, step)).bf == Row(s).bf
    ensures Row(Apply(s, step)).meta == Row(s).meta && Apply(s, step).pc == s.pc && Apply(s, step).rep == s.rep
    ensures forall id :: id in s.w.exports && s.w.exports[id].code != TaskActive ==>
              id in Apply(s, step).w.exports && Apply(s, step).w.exports[id] == s.w.exports[id]
  {
    hide Find, Inspect;
  }

  lemma StepFollows(s: State, step: Step)
    requires HoldsBackfill(s) && FollowsIn(s) && Enabled(s, step) && GoesWell(step)
    ensures FollowsIn(Apply(s, step))
  {
    hide HoldsBackfill, Advance, ByOthers;
    if step.Go? { CallFollows(s); }
    if ByOthers(step) { OthersKeepBackfill(s, step); }
  }

  // ---- The status follows the export ----

  function StatusOf(code: TaskCode): BackfillStatus {
    match code
    case TaskCompleted => COMPLETED
    case TaskFailed => FAILED
    case TaskCancelled => CANCELLED
    case TaskActive => RUNNING
  }

  /** While the row names the export that ended badly, its status says so from when the visit has looked at it;
      and the row does not come to name that export again. */
  predicate Names(s: State, id: string, code: TaskCode) {
    && id in s.w.exports && s.w.exports[id].code == code
    && (s.pc.WriteBackfill? ==> s.pc.patch.taskId != Some(id))
    && (Row(s).bf.taskId == Some(id) ==>
          match s.pc
          case Idle => s.rep.subscribed ==> Row(s).bf.status == Some(StatusOf(code))
          case WriteBackfill(_, _, patch, _) => MergeBackfill(Row(s).bf, patch).status == Some(StatusOf(code))
          case WriteBackfillError(_, _, _) => Row(s).bf.status == Some(StatusOf(code))
          case WriteCoverage(_, _, _) => Row(s).bf.status == Some(StatusOf(code))
          case Return(_, _) => Row(s).bf.status == Some(StatusOf(code))
          case _ => true)
  }

  lemma CallNames(s: State, id: string, code: TaskCode)
    requires HoldsBackfill(s) && FollowsIn(s) && Enabled(s, Go)
    requires Names(s, id, code) && id != "" && code in {TaskFailed, TaskCancelled}
    ensures Names(Advance(s), id, code)
  {
    hide Inspect, IsReset, IsComplete, Outstanding, Find, Put, MergeMeta, MergeSub, MergeObject, MergeLive;
  }

  lemma StepNames(s: State, step: Step, id: string, code: TaskCode)
    requires HoldsBackfill(s) && FollowsIn(s) && Enabled(s, step) && GoesWell(step)
    requires Names(s, id, code) && id != "" && code in {TaskFailed, TaskCancelled}
    ensures Names(Apply(s, step), id, code)
  {
    hide Advance, ByOthers;
    if step.Go? { CallNames(s, id, code); }
    if ByOthers(step) { OthersKeepBackfill(s, step); }
  }

  // ---- Turns ----

  lemma {:induction false} RunFollows(s: State, steps: seq<Step>)
    requires Inv(s) && FollowsIn(s) && Run(s, steps).Some? && forall step :: step in steps ==> GoesWell(step)
    ensures FollowsIn(Run(s, steps).value) && Inv(Run(s, steps).value)
  {
    if steps != [] {
      hide Inv, HoldsBackfill, FollowsIn, Enabled, Apply, GoesWell;
      var before, step := steps[..|steps| - 1], steps[|steps| - 1];
      RunFollows(s, before);
      InvHoldsBackfill(Run(s, before).value);
      StepFollows(Run(s, before).value, step);
      StepKeepsInv(Run(s, before).value, step);
    }
  }

  lemma {:induction false} RunNames(s: State, steps: seq<Step>, id: string, code: TaskCode)
    requires Inv(s) && FollowsIn(s) && Run(s, steps).Some? && forall step :: step in steps ==> GoesWell(step)
    requires Names(s, id, code) && id != "" && code in {TaskFailed, TaskCancelled}
    ensures Names(Run(s, steps).value, id, code)
  {
    if steps != [] {
      hide Inv, HoldsBackfill, FollowsIn, Names, Enabled, Apply, GoesWell;
      var before, step := steps[..|steps| - 1], steps[|steps| - 1];
      RunNames(s, before, id, code);
      RunFollows(s, before);
      InvHoldsBackfill(Run(s, before).value);
      StepNames(Run(s, before).value, step, id, code);
    }
  }

  lemma {:induction false} RunByOthersKeepsBackfill(s: State, steps: seq<Step>)
    requires Run(s, steps).Some? && forall step :: step in steps ==> ByOthers(step)
    ensures var t := Run(s, steps).value;
      && Row(t).bf == Row(s).bf && Row(t).meta == Row(s).meta && t.rep == s.rep
      && forall id :: id in s.w.exports && s.w.exports[id].code != TaskActive ==>
           id in t.w.exports && t.w.exports[id] == s.w.exports[id]
  {
    if steps != [] {
      hide Enabled, Apply, ByOthers;
      var before := steps[..|steps| - 1];
      RunByOthersKeepsBackfill(s, before);
      OthersKeepBackfill(Run(s, before).value, steps[|steps| - 1]);
    }
  }

  lemma LeftAloneKeepsBackfill(s: State, t: State)
    requires LeftAlone(s, t)
    ensures Row(t).bf == Row(s).bf && Row(t).meta == Row(s).meta && t.rep == s.rep
    ensures forall id :: id in s.w.exports && s.w.exports[id].code != TaskActive ==>
              id in t.w.exports && t.w.exports[id] == s.w.exports[id]
  {
    hide Run, ByOthers;
    var steps :| Run(s, steps) == Some(t) && forall x :: x in steps ==> ByOthers(x);
    RunByOthersKeepsBackfill(s, steps);
  }

  lemma {:induction false} FaultsOnlyGrow(faults: Faults, steps: seq<Step>)
    ensures Tally(faults, steps).raised >= faults.raised && Tally(faults, steps).refused >= faults.refused
    ensures Tally(faults, steps) == faults && (forall step :: step in steps ==> OfVisit(step)) ==>
              forall step :: step in steps ==> GoesWell(step)
  {
    if steps != [] {
      hide ByOthers;
      var before, step := steps[..|steps| - 1], steps[|steps| - 1];
      FaultsOnlyGrow(faults, before);
      assert steps == before + [step];
    }
  }

  lemma MakesFollows(start: Origin, t: State)
    requires Inv(start.s) && FollowsIn(start.s) && Makes(start, t, start.faults)
    ensures FollowsIn(t)
  {
    hide Inv, FollowsIn, Run, OfVisit, GoesWell;
    var steps :|
      && Run(start.s, steps) == Some(t) && (forall step :: step in steps ==> OfVisit(step))
      && Tally(start.faults, steps) == start.faults;
    FaultsOnlyGrow(start.faults, steps);
    RunFollows(start.s, steps);
  }

  lemma MakesNames(start: Origin, t: State, id: string, code: TaskCode)
    requires Inv(start.s) && FollowsIn(start.s) && Makes(start, t, start.faults)
    requires Names(start.s, id, code) && id != "" && code in {TaskFailed, TaskCancelled}
    ensures Names(t, id, code)
  {
    hide Inv, FollowsIn, Names, Run, OfVisit, GoesWell;
    var steps :|
      && Run(start.s, steps) == Some(t) && (forall step :: step in steps ==> OfVisit(step))
      && Tally(start.faults, steps) == start.faults;
    FaultsOnlyGrow(start.faults, steps);
    RunNames(start.s, steps, id, code);
  }

  lemma BeginFollows(s: State, now: int)
    requires Inv(s) && s.pc == Idle && 0 < now <= s.clock
    ensures FollowsIn(Apply(s, Begin(now))) && Inv(Apply(s, Begin(now)))
    ensures forall id, code :: id in s.w.exports && s.w.exports[id].code == code ==>
              Names(Apply(s, Begin(now)), id, code)
  {
    hide Inv;
    StepKeepsInv(s, Begin(now));
  }

  lemma TurnFollows(s: State, t: State, faults: Faults, now: int, id: string, code: TaskCode)
    requires Inv(s) && Turn(s, faults, t, faults, now)
    ensures t.pc == Idle && FollowsIn(t)
    ensures id != "" && id in s.w.exports && s.w.exports[id].code == code && code in {TaskFailed, TaskCancelled}
            && Row(t).bf.taskId == Some(id) && t.rep.subscribed ==>
              Row(t).bf.status == Some(StatusOf(code))
  {
    hide Inv, LeftAlone, Makes, Apply, FailureOf;
    var a, v :|
      && LeftAlone(s, a) && a.pc == Idle && 0 < now <= a.clock
      && Makes(Origin(Apply(a, Begin(now)), faults), v, faults) && v.pc == Idle
      && LeftAlone(v, t);
    LeftAloneKeeps(s, a);
    LeftAloneKeepsBackfill(s, a);
    BeginFollows(a, now);
    MakesFollows(Origin(Apply(a, Begin(now)), faults), v);
    if Names(Apply(a, Begin(now)), id, code) && id != "" && code in {TaskFailed, TaskCancelled} {
      MakesNames(Origin(Apply(a, Begin(now)), faults), v, id, code);
    }
    LeftAloneKeeps(v, t);
    LeftAloneKeepsBackfill(v, t);
  }

  /** A visit that has got past the filter, and in which no call raised or was refused, reports a failure exactly
      for a backfill that failed or was cancelled. */
  lemma TurnReportsStatus(s: State, t: State, faults: Faults, now: int)
    requires Inv(s) && Turn(s, faults, t, faults, now) && t.rep.subscribed
    ensures t.rep.failed ==
      if Row(t).bf.status == Some(FAILED) then Some("backfill_failed")
      else if Row(t).bf.status == Some(CANCELLED) then Some("backfill_cancelled")
      else None
    ensures Row(t).meta.failureReason.GetOr("") == t.rep.failed.GetOr("")
    ensures t.rep.failed.Some? ==> !t.rep.covered && Row(t).meta.coverage == Some(Unknown)
  {
    hide Inv, Turn, IsException;
    TurnReports(s, faults, t, faults, now);
    TurnFollows(s, t, faults, now, "", TaskFailed);
    if t.rep.failed.Some? {
      assert Row(t).meta.coverage.value != Complete;
    }
  }

  /** An export has failed or was cancelled: a visit that has got past the filter and in which no call raised or was
      refused, if it leaves a row that names this export, says so in its report and on the row. */
  lemma FailedExportIsReported(s: State, t: State, faults: Faults, now: int, id: string)
    requires Inv(s) && Turn(s, faults, t, faults, now) && t.rep.subscribed
    requires id != "" && id in s.w.exports && s.w.exports[id].code in {TaskFailed, TaskCancelled}
    requires Row(t).bf.taskId == Some(id)
    ensures var failed := s.w.exports[id].code == TaskFailed;
      && Row(t).bf.status == Some(if failed then FAILED else CANCELLED)
      && t.rep.failed == Some(if failed then "backfill_failed" else "backfill_cancelled")
      && Row(t).meta.failureReason == t.rep.failed && Row(t).meta.coverage == Some(Unknown)
  {
    hide Inv, Turn;
    TurnReportsStatus(s, t, faults, now);
    TurnFollows(s, t, faults, now, id, s.w.exports[id].code);
  }

  // ---- Reasons on the row ----

  /** A row that says "complete" gives no reason. */
  predicate Consistent(meta: Meta) { meta.coverage == Some(Complete) ==> meta.failureReason.GetOr("") == "" }

  lemma StepKeepsConsistent(s: State, step: Step)
    requires ReportInv(s.rep, s.pc, Row(s).meta.coverage, Row(s).meta.failureReason, s.h.unwritten)
    requires Consistent(Row(s).meta) && Enabled(s, step)
    ensures Consistent(Row(Apply(s, step)).meta)
  {
    hide Inspect, PlanBackfill, PollOutcome, IsReset, Outstanding, Find, Filtered, UnsafePut, UnsafeStop;
    hide MergeSub, MergeBackfill, MergeObject, MergeLive;
  }

  /** In every reachable state, also within a visit and after one that was killed, a row that says "complete" says
      nothing of a failure. */
  lemma {:induction false} CompleteGivesNoReason(init: State, steps: seq<Step>)
    requires Init(init) && Run(init, steps).Some?
    ensures var meta := Row(Run(init, steps).value).meta;
      meta.coverage == Some(Complete) ==> meta.failureReason.GetOr("") == ""
  {
    if steps != [] {
      hide Enabled, Apply;
      hide ClockInv, SubInv, GapInv, BackfillInv, ObjectInv, LiveInv, PcInv, ExportInv, SourceInv, VanishedInv;
      var before := steps[..|steps| - 1];
      CompleteGivesNoReason(init, before);
      RunKeepsInv(init, before);
      StepKeepsConsistent(Run(init, before).value, steps[|steps| - 1]);
    }
  }
}
