/**
  What the invariants mean for whole runs: no gap in what is archived, what a row that says
  "complete" promises, and where the code keeps less than it seems to.
 */
module CoverageTheorems {
  import opened Basics
  import opened Telemetry
  import opened CoverageProtocol
  import opened CoverageInvariant

  // ---- No gap ----

  /** While the filter is attached under a confirmed row, it has been there since the confirmed
      time exactly when no run stopped between putting the filter and confirming it. */
  lemma GapExactlyAfterUnsafeStop(init: State, steps: seq<Step>, s: State)
    requires Init(init) && Run(init, steps) == Some(s)
    requires Attached(s) && !InWindow(s.pc)
    ensures s.w.since <= Row(s).sub.confirmedAt.GetOr(0) <==> !s.h.gapRisk
  {
    RunKeepsInv(init, steps);
  }

  /** No step of the run loses track of a filter that it puts. */
  predicate StopsSafely(init: State, steps: seq<Step>) {
    forall k :: 0 <= k < |steps| ==>
      match Run(init, steps[..k]) case None => true case Some(s) => !Unsafe(s, steps[k])
  }

  lemma CallsDoNotRisk(s: State)
    requires Enabled(s, Go)
    ensures Advance(s).h.gapRisk <==> s.h.gapRisk && !(s.pc.WriteConfirmed? && s.pc.reset)
  {
    hide Inspect, PlanBackfill, PollOutcome, IsReset, IsComplete, Merge, Find, Filtered, Outstanding;
  }

  /** The risk starts with an unsafe step, and ends with a reset. */
  lemma UnsafeStepsRisk(s: State, step: Step)
    requires Enabled(s, step)
    ensures Apply(s, step).h.gapRisk <==>
      (s.h.gapRisk || Unsafe(s, step)) && !(step.Go? && s.pc.WriteConfirmed? && s.pc.reset)
  {
    hide Advance, Filtered, PlanBackfill, UnsafeStop, UnsafePut, OthersMaySet, Find;
    if step.Go? { CallsDoNotRisk(s); }
  }

  lemma {:induction false} SafeStopsLeaveNoGapRisk(init: State, steps: seq<Step>)
    requires Init(init) && Run(init, steps).Some? && StopsSafely(init, steps)
    ensures !Run(init, steps).value.h.gapRisk
  {
    if steps != [] {
      hide Enabled, Apply, Unsafe;
      var before := steps[..|steps| - 1];
      assert forall k :: 0 <= k < |before| ==> before[..k] == steps[..k];
      SafeStopsLeaveNoGapRisk(init, before);
      UnsafeStepsRisk(Run(init, before).value, steps[|steps| - 1]);
    }
  }

  /** A time is archived by a finished export of the log group. */
  predicate Exported(w: World, t: int) {
    exists id :: id in w.exports && w.exports[id].code == TaskCompleted
                 && w.exports[id].from <= t < w.exports[id].to
  }

  /** No gap over whole runs: once the backfill is completed, every time since the log group was
      created lies in a finished export or in the life of the filter. */
  lemma NoGapOverRuns(init: State, steps: seq<Step>, s: State)
    requires Init(init) && Run(init, steps) == Some(s) && StopsSafely(init, steps)
    requires Attached(s) && !InWindow(s.pc) && Row(s).bf.status == Some(COMPLETED)
    ensures s.w.group.Some?
    ensures forall t :: s.w.group.value <= t ==> Exported(s.w, t) || s.w.since <= t
  {
    hide ObjectInv, LiveInv, ReportInv, ExportInv;
    RunKeepsInv(init, steps);
    SafeStopsLeaveNoGapRisk(init, steps);
    var row := Row(s);
    forall t | s.w.group.value <= t < s.w.since ensures Exported(s.w, t) {
      assert row.bf.from.value <= t < row.bf.to.value;
      assert row.bf.taskId.value in s.w.exports;
    }
  }

  /** A started or completed backfill has exactly the window from the recorded creation of the
      log group to the confirmed time; the evidence flag is off only for an empty window. */
  lemma BackfillWindow(init: State, steps: seq<Step>, s: State)
    requires Init(init) && Run(init, steps) == Some(s)
    ensures var row := Row(s);
      && (Truthy(row.bf.taskId) || row.bf.status == Some(COMPLETED) ==>
            && row.bf.from.Some? && row.bf.from == row.sub.creationTime
            && row.bf.to.Some? && row.bf.to == row.sub.confirmedAt)
      && (Truthy(row.bf.taskId) ==> row.bf.evidenceRequired == Some(true))
      && (row.bf.status == Some(COMPLETED) ==>
            && row.bf.evidenceRequired.Some?
            && (row.bf.evidenceRequired.value <==> row.bf.from.value < row.bf.to.value)
            && (row.bf.evidenceRequired.value <==> Truthy(row.bf.taskId)))
  {
    RunKeepsInv(init, steps);
  }

  /** An ended backfill says what became of its task, and when it was completed. */
  lemma BackfillStatusIsTheTasks(init: State, steps: seq<Step>, s: State)
    requires Init(init) && Run(init, steps) == Some(s) && Truthy(Row(s).bf.taskId)
    ensures var bf, exports := Row(s).bf, s.w.exports;
      && bf.taskId.value in exports
      && exports[bf.taskId.value].from == bf.from.GetOr(0) && exports[bf.taskId.value].to == bf.to.GetOr(0)
      && (bf.status == Some(COMPLETED) ==>
            exports[bf.taskId.value].code == TaskCompleted && bf.to.GetOr(0) <= bf.completedAt.GetOr(0))
      && (bf.status == Some(FAILED) ==> exports[bf.taskId.value].code == TaskFailed)
      && (bf.status == Some(CANCELLED) ==> exports[bf.taskId.value].code == TaskCancelled)
  {
    RunKeepsInv(init, steps);
  }

  // ---- What "complete" promises ----

  /** Whenever a run writes "complete": the filter was seen with our destination, our role and
      the empty pattern, and is on the row; the backfill of this generation is completed, with an
      empty window or with a backfill object recorded since the last reset; and a recorded live
      delivery lies at or after the confirmed time and within the lag bound. */
  lemma CompleteIsSound(init: State, steps: seq<Step>, s: State)
    requires Init(init) && Run(init, steps + [Go]) == Some(s)
    requires s.pc.Return? && s.pc.complete
    ensures var row := Row(s);
      && row.meta.coverage == Some(Complete)
      && Confirmed(row)
      && Recorded(row.sub) == Some(FilterValue(s.cfg.destination, s.cfg.role, ""))
      && row.bf.status == Some(COMPLETED)
      && row.bf.from.Some? && row.bf.from == row.sub.creationTime
      && row.bf.to.Some? && row.bf.to == row.sub.confirmedAt
      && (row.bf.from.value >= row.bf.to.value || s.h.objects != [])
      && exists r :: r in s.h.live
           && row.bf.to.value <= r.at
           && s.pc.now - r.at <= s.cfg.maxLagSeconds * 1000
  {
    hide ClockInv, GapInv, ExportInv, ObjectInv, LiveInv, SourceInv, VanishedInv, ReportInv, PutInv, Outstanding;
    assert (steps + [Go])[..|steps|] == steps;
    var before := Run(init, steps).value;
    RunKeepsInv(init, steps);
    var current := before.pc.current;
    var r :| r in before.h.live && LiveSeen(current.live, r);
    assert r in s.h.live;
  }

  /** A visit that resets the row cannot end "complete" when every recorded delivery is older
      than the confirmed time it wrote. */
  lemma StaleDeliveriesCannotComplete(init: State, steps: seq<Step>, s: State)
    requires Init(init) && Run(init, steps + [Go]) == Some(s) && s.pc.Return?
    requires forall r :: r in s.h.live ==> r.at < Row(s).sub.confirmedAt.GetOr(0)
    ensures !s.pc.complete
  {
    if s.pc.complete {
      CompleteIsSound(init, steps, s);
    }
  }

  /** Complete means archived: at the moment a run writes "complete", if no run stopped unsafely
      and the filter is still there, nothing since the creation of the log group is lost. */
  lemma CompleteMeansArchived(init: State, steps: seq<Step>, s: State)
    requires Init(init) && Run(init, steps + [Go]) == Some(s) && StopsSafely(init, steps + [Go])
    requires s.pc.Return? && s.pc.complete && Mine(s) == Some(OurValue(s.cfg))
    ensures s.w.group.Some?
    ensures forall t :: s.w.group.value <= t ==> Exported(s.w, t) || s.w.since <= t
  {
    CompleteIsSound(init, steps, s);
    NoGapOverRuns(init, steps + [Go], s);
  }

  /** After a visit, the report and the row agree, unless the run ended without its last write. */
  lemma ReportAgreesWithRow(init: State, steps: seq<Step>, s: State)
    requires Init(init) && Run(init, steps) == Some(s) && s.pc == Idle && !s.h.unwritten
    ensures s.rep.covered <==> Row(s).meta.coverage == Some(Complete)
    ensures s.rep.failed.GetOr("") == Row(s).meta.failureReason.GetOr("")
    ensures s.rep.covered ==> s.rep.subscribed && s.rep.failed == None
    ensures s.rep.subscribed ==> s.rep.matched
  {
    RunKeepsInv(init, steps);
  }

  // ---- Counters ----

  /** The row's counters and last-object fields are those of what the recorder recorded: live
      events over all time, backfill objects since the last reset. */
  lemma CountersConserved(init: State, steps: seq<Step>, s: State)
    requires Init(init) && Run(init, steps) == Some(s)
    ensures var row := Row(s);
      && row.live.objects.GetOr(0) == |s.h.live|
      && row.live.events.GetOr(0) == SumEvents(s.h.live)
      && row.obj.count.GetOr(0) == |s.h.objects|
      && (row.obj.count.GetOr(0) > 0 <==> Truthy(row.obj.sha256))
      && (Truthy(row.obj.sha256) <==> Truthy(row.obj.manifest))
  {
    RunKeepsInv(init, steps);
  }

  lemma AdvanceKeepsEvidence(s: State)
    requires Enabled(s, Go)
    ensures Row(Advance(s)).live == Row(s).live && Advance(s).h.live == s.h.live
    ensures !(s.pc.WriteConfirmed? && s.pc.reset) ==>
              Row(Advance(s)).obj == Row(s).obj && Advance(s).h.objects == s.h.objects
  {
    hide OthersMaySet, Mine, UnsafeStop, IsComplete, Inspect, PlanBackfill, PollOutcome, IsReset;
    match s.pc
    case WriteConfirmed(_, _, _, _, _, _) =>
    case _ =>
  }

  /** No step but the recorder's touches the live fields, and only the recorder and a reset touch
      the backfill-object fields. */
  lemma OnlyRecorderWritesEvidence(s: State, step: Step)
    requires Enabled(s, step)
    ensures !step.RecordLive? ==> Row(Apply(s, step)).live == Row(s).live && Apply(s, step).h.live == s.h.live
    ensures !step.RecordObject? && !(step.Go? && s.pc.WriteConfirmed? && s.pc.reset) ==>
              Row(Apply(s, step)).obj == Row(s).obj && Apply(s, step).h.objects == s.h.objects
  {
    hide Advance, OthersMaySet, Mine, UnsafeStop;
    if step.Go? { AdvanceKeepsEvidence(s); }
  }

  // ---- Delivery times ----

  /** The row keeps the time of the delivery recorded last, so that recording one takes the time
      back if and only if it is older than that. */
  lemma LiveTimeGoesBackExactly(init: State, steps: seq<Step>, s: State, r: LiveRecord)
    requires Init(init) && Run(init, steps) == Some(s) && s.h.live != [] && Enabled(s, RecordLive(r))
    ensures Row(Apply(s, RecordLive(r))).live.at.GetOr(0) < Row(s).live.at.GetOr(0)
      <==> r.at < s.h.live[|s.h.live| - 1].at
  {
    RunKeepsInv(init, steps);
  }

  /** No recorded delivery is younger than the last one. */
  predicate LastIsNewest(live: seq<LiveRecord>)
    requires live != []
  {
    forall k :: 0 <= k < |live| ==> live[k].at <= live[|live| - 1].at
  }

  /** The row's time is that of the newest recorded delivery if and only if the newest was
      recorded last; deliveries recorded in order are one case of that. */
  lemma LiveTimeIsNewestExactly(init: State, steps: seq<Step>, s: State)
    requires Init(init) && Run(init, steps) == Some(s) && s.h.live != []
    ensures (forall k :: 0 <= k < |s.h.live| ==> s.h.live[k].at <= Row(s).live.at.GetOr(0)) <==> LastIsNewest(s.h.live)
    ensures (forall i, j :: 0 <= i < j < |s.h.live| ==> s.h.live[i].at <= s.h.live[j].at) ==> LastIsNewest(s.h.live)
  {
    RunKeepsInv(init, steps);
  }

  /** The freshness test judges the delivery recorded last, whatever came before it. */
  lemma FreshnessJudgesTheLast(init: State, steps: seq<Step>, s: State, confirmedAt: int, now: int, lag: int)
    requires Init(init) && Run(init, steps) == Some(s) && confirmedAt > 0
    ensures DeliveryIsFresh(Row(s), confirmedAt, now, lag) <==>
      s.h.live != [] && confirmedAt <= s.h.live[|s.h.live| - 1].at && now - s.h.live[|s.h.live| - 1].at <= lag * 1000
  {
    RunKeepsInv(init, steps);
  }

  // ---- Exports per generation ----

  /** When an export starts, it is the only one since the last reset exactly when no run stopped
      between starting one and writing it down. */
  lemma OneExportPerGeneration(init: State, steps: seq<Step>, s: State, taskId: string)
    requires Init(init) && Run(init, steps) == Some(s) && Enabled(s, ExportStarted(taskId))
    ensures Apply(s, ExportStarted(taskId)).h.started == 1 <==> !s.h.orphan
  {
    RunKeepsInv(init, steps);
  }
}
