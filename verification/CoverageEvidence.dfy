/**
  Whose evidence it is: when the backfill objects that make a row "complete" come from exports of
  the row's generation, and when from the very export that the row names.
 */
module CoverageEvidence {
  import opened Basics
  import opened Telemetry
  import opened CoverageProtocol
  import opened CoverageInvariant

  /** A run writes "complete" for a backfill whose window is not empty. */
  predicate CompletesExport(s: State) {
    s.pc.Return? && s.pc.complete && Row(s).bf.from.GetOr(0) < Row(s).bf.to.GetOr(0)
  }

  /** Some recorded object was written by the export that the row names. */
  predicate OwnEvidence(s: State) {
    exists r :: r in s.h.objects && Some(r.taskId) == Row(s).bf.taskId
  }

  /** The export was started in this generation, and has exactly the window of the row. */
  predicate HasRowsWindow(s: State, id: string) {
    && id in s.w.exports && id !in s.h.earlier
    && Row(s).bf.from == Some(s.w.exports[id].from) && Row(s).bf.to == Some(s.w.exports[id].to)
  }

  /** There are recorded objects, and all were written by exports with the window of the row. */
  predicate EvidenceOfGeneration(s: State) {
    s.h.objects != [] && forall r :: r in s.h.objects ==> HasRowsWindow(s, r.taskId)
  }

  /** If no object of an earlier export was still to come at the last reset, and no export of this
      generation was lost, every object recorded since belongs to the export that the row names. */
  lemma EvidenceIsOwn(s: State)
    requires Inv(s) && CompletesExport(s) && !s.h.orphan && (!s.h.stale || s.h.vanished)
    ensures OwnEvidence(s) && forall r :: r in s.h.objects ==> Some(r.taskId) == Row(s).bf.taskId
  {
    hide ClockInv, SubInv, GapInv, LiveInv, ReportInv, ExportInv;
    assert s.h.objects[0] in s.h.objects;
  }

  // ---- One generation ----

  /** Nothing but a reset changes the generation and what it fixed. */
  predicate SameGeneration(s: State, t: State) {
    && t.h.generation == s.h.generation
    && t.h.stale == s.h.stale && t.h.vanished == s.h.vanished && t.h.earlier == s.h.earlier
    && Row(t).sub.creationTime == Row(s).sub.creationTime && Row(t).sub.confirmedAt == Row(s).sub.confirmedAt
  }

  lemma ConfirmInGeneration(s: State)
    requires Inv(s) && s.pc.WriteConfirmed?
    ensures SameGeneration(s, Advance(s)) || Advance(s).h.generation > s.h.generation
  {
    hide ClockInv, SubInv, GapInv, BackfillInv, ObjectInv, LiveInv, ReportInv, ExportInv, SourceInv, VanishedInv;
    hide Outstanding, MergeMeta, MergeBackfill, MergeObject, MergeLive;
  }

  lemma OtherCallsInGeneration(s: State)
    requires Enabled(s, Go) && !s.pc.WriteConfirmed?
    ensures SameGeneration(s, Advance(s))
  {
    hide Inspect, PlanBackfill, PollOutcome, IsReset, IsComplete, OthersMaySet, Put;
    hide Mine, MergeMeta, MergeBackfill, MergeObject, MergeLive;
  }

  lemma StepInGeneration(s: State, step: Step)
    requires Inv(s) && Enabled(s, step)
    ensures SameGeneration(s, Apply(s, step)) || Apply(s, step).h.generation > s.h.generation
  {
    hide Inv, Advance, OthersMaySet, UnsafeStop, PlanBackfill, StartedPatch;
    if step.Go? && s.pc.WriteConfirmed? { ConfirmInGeneration(s); }
    if step.Go? && !s.pc.WriteConfirmed? { OtherCallsInGeneration(s); }
  }

  lemma {:induction false} RunInGeneration(s: State, steps: seq<Step>)
    requires Inv(s) && Run(s, steps).Some?
    ensures SameGeneration(s, Run(s, steps).value) || Run(s, steps).value.h.generation > s.h.generation
  {
    if steps != [] {
      hide Inv, Enabled, Apply;
      var before := steps[..|steps| - 1];
      RunInGeneration(s, before);
      RunFromInv(s, before);
      StepInGeneration(Run(s, before).value, steps[|steps| - 1]);
    }
  }

  // ---- The windows of its exports ----

  /** The exports of this generation reach from the creation of the log group to its confirmation. */
  predicate OwnWindows(exports: map<string, Task>, earlier: set<string>, sub: Subscription) {
    forall id :: id in exports && id !in earlier ==>
      sub.creationTime == Some(exports[id].from) && sub.confirmedAt == Some(exports[id].to)
  }

  lemma AdvanceKeepsExports(s: State)
    requires Enabled(s, Go)
    ensures Advance(s).w.exports == s.w.exports
    ensures Advance(s).h.generation > s.h.generation ==> Advance(s).h.earlier == s.w.exports.Keys
  {
    hide Inspect, PlanBackfill, PollOutcome, IsReset, IsComplete, Outstanding, OthersMaySet, Put, Merge;
  }

  lemma StartedWindow(s: State, step: Step)
    requires Inv(s) && Enabled(s, step) && Starts(step)
    ensures Row(s).sub.creationTime == Some(s.pc.creation) && Row(s).sub.confirmedAt == Some(s.pc.confirmedAt)
  {
    hide ClockInv, SubInv, GapInv, BackfillInv, ObjectInv, LiveInv, ReportInv, ExportInv, SourceInv, VanishedInv;
    hide PlanBackfill, EvidenceHeld;
  }

  predicate TouchesTasks(s: State, step: Step, exports: map<string, Task>) {
    || exports == s.w.exports
    || (step.TaskProgress? && step.taskId in s.w.exports
        && exports == s.w.exports[step.taskId := s.w.exports[step.taskId].(code := step.code)])
    || (Starts(step) && s.pc.StartBackfill?
        && exports == s.w.exports[step.taskId := Task(s.pc.creation, s.pc.confirmedAt, TaskActive)])
  }

  lemma StepTouchesTasks(s: State, step: Step)
    requires Enabled(s, step)
    ensures TouchesTasks(s, step, Apply(s, step).w.exports)
  {
    hide Advance, PlanBackfill, OthersMaySet, UnsafeStop, RecordedLive, RecordedObject, StartedPatch;
    if step.Go? { AdvanceKeepsExports(s); }
  }

  lemma OnlyCallsRenew(s: State, step: Step)
    requires Enabled(s, step) && Apply(s, step).h.generation > s.h.generation
    ensures step.Go?
  {
    hide Advance, PlanBackfill, OthersMaySet, UnsafeStop, UnsafePut, Find, Filtered;
    hide RecordedLive, RecordedObject, StartedPatch;
  }

  lemma RenewalSeesTasks(s: State, step: Step)
    requires Enabled(s, step) && Apply(s, step).h.generation > s.h.generation
    ensures Apply(s, step).h.earlier == Apply(s, step).w.exports.Keys
  {
    OnlyCallsRenew(s, step);
    hide Advance, Enabled;
    AdvanceKeepsExports(s);
  }

  lemma StepKeepsWindows(s: State, step: Step)
    requires Inv(s) && Enabled(s, step) && OwnWindows(s.w.exports, s.h.earlier, Row(s).sub)
    ensures var t := Apply(s, step); OwnWindows(t.w.exports, t.h.earlier, Row(t).sub)
  {
    hide Inv, Enabled, Apply;
    if Starts(step) { StartedWindow(s, step); }
    StepTouchesTasks(s, step);
    StepInGeneration(s, step);
    if Apply(s, step).h.generation > s.h.generation { RenewalSeesTasks(s, step); }
  }

  lemma {:induction false} RunKeepsWindows(s: State, steps: seq<Step>)
    requires Inv(s) && Run(s, steps).Some? && OwnWindows(s.w.exports, s.h.earlier, Row(s).sub)
    ensures var t := Run(s, steps).value; OwnWindows(t.w.exports, t.h.earlier, Row(t).sub)
  {
    if steps != [] {
      hide Inv, Enabled, Apply, OwnWindows;
      var before := steps[..|steps| - 1];
      RunKeepsWindows(s, before);
      RunFromInv(s, before);
      StepKeepsWindows(Run(s, before).value, steps[|steps| - 1]);
    }
  }

  lemma InitHasWindows(s: State)
    requires Init(s)
    ensures OwnWindows(s.w.exports, s.h.earlier, Row(s).sub)
  {
  }

  /** A completed export has the window of its generation, whose log group was there at the reset. */
  lemma CompletedWindow(s: State)
    requires Inv(s) && CompletesExport(s)
    ensures Row(s).bf.from == Row(s).sub.creationTime && Row(s).bf.to == Row(s).sub.confirmedAt
    ensures Row(s).bf.from.GetOr(0) < Row(s).bf.to.GetOr(0)
    ensures Row(s).bf.from.Some? && Row(s).bf.to.Some? && s.h.objects != [] && !s.h.vanished
  {
    hide ClockInv, SubInv, GapInv, ObjectInv, LiveInv, ReportInv, ExportInv, SourceInv;
  }

  lemma WindowsGiveEvidence(s: State)
    requires Inv(s) && OwnWindows(s.w.exports, s.h.earlier, Row(s).sub) && CompletesExport(s) && !s.h.stale
    ensures EvidenceOfGeneration(s)
  {
    hide ClockInv, SubInv, GapInv, BackfillInv, ObjectInv, LiveInv, PcInv, ReportInv, ExportInv, VanishedInv;
    CompletedWindow(s);
  }

  /** Whatever exports were lost: if no object of an earlier generation's export was still to come at
      the last reset, all evidence comes from exports of this generation, with the row's window. */
  lemma EvidenceIsOfGeneration(init: State, steps: seq<Step>, s: State)
    requires Init(init) && Run(init, steps) == Some(s) && CompletesExport(s) && !s.h.stale
    ensures EvidenceOfGeneration(s)
  {
    InitInv(init);
    InitHasWindows(init);
    hide Inv, Init, Run, OwnWindows, CompletesExport, EvidenceOfGeneration;
    RunFromInv(init, steps);
    RunKeepsWindows(init, steps);
    WindowsGiveEvidence(s);
  }

  // ---- Guarantees ----

  /** Whenever this generation completes, it does so on evidence of its own exports. */
  ghost predicate GuaranteesGeneration(s: State) {
    forall t :: Reaches(s, t) && t.h.generation == s.h.generation && CompletesExport(t) ==> EvidenceOfGeneration(t)
  }

  /** Whenever it does, some evidence is of the export that the row names. */
  ghost predicate GuaranteesOwn(s: State) {
    forall t :: Reaches(s, t) && t.h.generation == s.h.generation && CompletesExport(t) ==> OwnEvidence(t)
  }

  /** The same, as long as no export of the generation is lost. */
  ghost predicate GuaranteesOwnUnlessLost(s: State) {
    forall t :: Reaches(s, t) && t.h.generation == s.h.generation && !t.h.orphan && CompletesExport(t) ==>
      OwnEvidence(t)
  }

  /** The generation that a reset starts can export: its log group is there, the window not empty. */
  predicate CanExport(s: State)
    requires s.pc.WriteConfirmed?
  {
    s.w.group == Some(s.pc.creation) && s.pc.creation < s.pc.confirmedAt
  }

  /** It can, and objects of earlier exports are still to come. */
  predicate Misleading(s: State)
    requires s.pc.WriteConfirmed?
  {
    CanExport(s) && Outstanding(s.w)
  }

  lemma ResetFacts(before: State)
    requires Inv(before) && before.pc.WriteConfirmed? && before.pc.reset
    ensures var s := Apply(before, Go);
      && Inv(s) && s.h.stale == Outstanding(before.w) && s.h.vanished == (before.w.group != Some(before.pc.creation))
      && s.h.generation == before.h.generation + 1 && s.h.earlier == before.w.exports.Keys
      && Row(s).sub.creationTime == Some(before.pc.creation) && Row(s).sub.confirmedAt == Some(before.pc.confirmedAt)
  {
    StepKeepsInv(before, Go);
    hide Inv, Outstanding;
  }

  /** What every completion of the generation knows of its reset. */
  lemma CompletionAfterReset(before: State, t: State)
    requires Inv(before) && before.pc.WriteConfirmed? && before.pc.reset
    requires Reaches(Apply(before, Go), t) && t.h.generation == Apply(before, Go).h.generation
    ensures Inv(t) && (CompletesExport(t) ==> CanExport(before) && t.h.stale == Outstanding(before.w))
  {
    hide Inv, Outstanding, Apply, CompletesExport, OwnEvidence;
    ResetFacts(before);
    var s := Apply(before, Go);
    var steps :| Run(s, steps) == Some(t);
    RunFromInv(s, steps);
    RunInGeneration(s, steps);
    if CompletesExport(t) { CompletedWindow(t); }
  }

  lemma WindowsAfterReset(before: State, t: State)
    requires Inv(before) && before.pc.WriteConfirmed? && before.pc.reset && Reaches(Apply(before, Go), t)
    requires OwnWindows(before.w.exports, before.h.earlier, Row(before).sub)
    ensures OwnWindows(t.w.exports, t.h.earlier, Row(t).sub)
  {
    hide Inv, Apply, OwnWindows;
    StepKeepsInv(before, Go);
    StepKeepsWindows(before, Go);
    var steps :| Run(Apply(before, Go), steps) == Some(t);
    RunKeepsWindows(Apply(before, Go), steps);
  }
}
