/** When a visit covers its group, and which backfills never will. */
module CoverageProgress {
  import opened Basics
  import opened Telemetry
  import opened CoverageProtocol
  import opened CoverageInvariant
  import opened CoverageEvidence
  import opened CoverageVisits

  // ---- A visit that nothing disturbs ----

  lemma RunNothing(s: State)
    ensures Run(s, []) == Some(s)
  {
  }

  /** A whole visit without steps of others: every call succeeds. */
  predicate IsUndisturbed(steps: seq<Step>, now: int) {
    |steps| == 9 && steps[0] == Begin(now) && forall k :: 0 < k < 9 ==> steps[k] == Go
  }

  lemma CallsConfirm(s: State, now: int) returns (t: State)
    requires Settled(s) && 0 < now <= s.clock
    ensures Run(s, [Begin(now), Go, Go, Go, Go]) == Some(t)
    ensures t == s.(pc := WriteConfirmed(now, s.w.group.value, OurValue(s.cfg), None, false,
                                         Row(s).sub.confirmedAt.value),
                    rep := Report(true, true, false, None, false), h := s.h.(unwritten := false))
  {
    hide Run, Enabled, Apply, IsReset, KeptConfirmation;
    SettledIsNoReset(s);
    RunNothing(s);
    VisitIsBegun(s, now);
    var steps := [];
    RunSnoc(s, steps, s, Begin(now));
    t, steps := Apply(s, Begin(now)), steps + [Begin(now)];
    GroupIsDescribed(t);
    RunSnoc(s, steps, t, Go);
    t, steps := Apply(t, Go), steps + [Go];
    RowIsRead(t);
    RunSnoc(s, steps, t, Go);
    t, steps := Apply(t, Go), steps + [Go];
    FilterIsFound(t);
    RunSnoc(s, steps, t, Go);
    t, steps := Apply(t, Go), steps + [Go];
    ClockIsRead(t);
    RunSnoc(s, steps, t, Go);
    t, steps := Apply(t, Go), steps + [Go];
    assert steps == [Begin(now), Go, Go, Go, Go];
  }

  lemma SameJudgement(row: Item, row': Item, confirmedAt: int, now: int, lag: int)
    requires row'.bf == row.bf && row'.obj == row.obj && row'.live == row.live
    ensures IsComplete(row', confirmedAt, now, lag) == IsComplete(row, confirmedAt, now, lag)
  {
  }

  lemma CallsFinish(s: State) returns (t: State)
    requires s.pc.WriteConfirmed? && !s.pc.reset && Row(s).bf.status == Some(COMPLETED)
    ensures Run(s, [Go, Go, Go, Go]) == Some(t) && t.pc == Idle
    ensures t.rep.covered <==> IsComplete(Row(s), s.pc.confirmedAt, s.pc.now, s.cfg.maxLagSeconds)
  {
    hide Run, Enabled, Apply, ConfirmedRow, IsComplete, MergeMeta;
    RunNothing(s);
    RowIsConfirmed(s);
    ConfirmedAgain(s);
    SameJudgement(Row(s), ConfirmedRow(s), s.pc.confirmedAt, s.pc.now, s.cfg.maxLagSeconds);
    var steps := [];
    RunSnoc(s, steps, s, Go);
    t, steps := Apply(s, Go), steps + [Go];
    BackfillIsKept(t);
    RunSnoc(s, steps, t, Go);
    t, steps := Apply(t, Go), steps + [Go];
    CoverageIsWritten(t);
    RunSnoc(s, steps, t, Go);
    t, steps := Apply(t, Go), steps + [Go];
    VisitReturns(t);
    RunSnoc(s, steps, t, Go);
    t, steps := Apply(t, Go), steps + [Go];
    assert steps == [Go, Go, Go, Go];
  }

  /** Where the filter is in place, the row confirmed and the backfill completed, an undisturbed
      visit ends, and it ends covered if and only if the row has its evidence and a fresh delivery. */
  lemma UndisturbedVisitCovers(s: State, now: int) returns (visit: seq<Step>, t: State)
    requires Settled(s) && Row(s).bf.status == Some(COMPLETED) && 0 < now <= s.clock
    ensures IsUndisturbed(visit, now) && Run(s, visit) == Some(t) && t.pc == Idle
    ensures t.rep.covered <==> IsComplete(Row(s), Row(s).sub.confirmedAt.value, now, s.cfg.maxLagSeconds)
  {
    hide Run, IsComplete;
    var u := CallsConfirm(s, now);
    t := CallsFinish(u);
    RunConcat(s, [Begin(now), Go, Go, Go, Go], [Go, Go, Go, Go]);
    visit := [Begin(now), Go, Go, Go, Go] + [Go, Go, Go, Go];
  }

  // ---- Backfills that failed ----

  predicate HasFailed(bf: Backfill) { bf.status == Some(FAILED) || bf.status == Some(CANCELLED) }

  lemma FailedPatchKeepsFailure(s: State)
    requires Inv(s) && HasFailed(Row(s).bf) && s.pc.WriteBackfill?
    ensures var bf := MergeBackfill(Row(s).bf, s.pc.patch);
      bf.status == Row(s).bf.status && bf.taskId == Row(s).bf.taskId
  {
    hide ClockInv, SubInv, GapInv, ObjectInv, LiveInv, ReportInv, ExportInv, SourceInv, VanishedInv;
  }

  lemma ConfirmKeepsFailure(s: State)
    requires s.pc.WriteConfirmed? && Enabled(s, Go) && Apply(s, Go).h.generation == s.h.generation
    ensures Row(Apply(s, Go)).bf == Row(s).bf && Apply(s, Go).h == s.h
  {
    hide Apply, Enabled, ConfirmedRow;
    RowIsConfirmed(s);
    ConfirmedAgain(s);
  }

  lemma CallKeepsFailure(s: State)
    requires Enabled(s, Go) && !s.pc.WriteConfirmed?
    requires s.pc.WriteBackfill? ==>
      var bf := MergeBackfill(Row(s).bf, s.pc.patch);
      bf.status == Row(s).bf.status && bf.taskId == Row(s).bf.taskId
    ensures var t := Apply(s, Go);
      && Row(t).bf.status == Row(s).bf.status && Row(t).bf.taskId == Row(s).bf.taskId && t.h.started == s.h.started
  {
    hide Inspect, PlanBackfill, PollOutcome, IsReset, IsComplete, Mine, Put;
    hide MergeMeta, MergeSub, MergeObject, MergeLive;
  }

  lemma FailedNeverExports(s: State, step: Step)
    requires Inv(s) && HasFailed(Row(s).bf) && Starts(step)
    ensures !Enabled(s, step)
  {
    hide ClockInv, SubInv, GapInv, ObjectInv, LiveInv, ReportInv, ExportInv, SourceInv, VanishedInv;
  }

  lemma FailedNeverCompletes(s: State)
    requires Inv(s) && HasFailed(Row(s).bf)
    ensures !(s.pc.Return? && s.pc.complete)
  {
    hide ClockInv, SubInv, GapInv, BackfillInv, ObjectInv, LiveInv, ReportInv, ExportInv, SourceInv, VanishedInv;
  }

  lemma StepKeepsFailure(s: State, step: Step)
    requires Inv(s) && Enabled(s, step) && HasFailed(Row(s).bf) && Apply(s, step).h.generation == s.h.generation
    ensures var t := Apply(s, step);
      && Row(t).bf.status == Row(s).bf.status && Row(t).bf.taskId == Row(s).bf.taskId && t.h.started == s.h.started
  {
    hide Inv, PlanBackfill, Advance, OthersMaySet, UnsafeStop;
    if step.Go? {
      if s.pc.WriteBackfill? { FailedPatchKeepsFailure(s); }
      if s.pc.WriteConfirmed? { ConfirmKeepsFailure(s); } else { CallKeepsFailure(s); }
    }
    if Starts(step) { FailedNeverExports(s, step); }
  }

  /** A failed or cancelled export is never retried in its generation: as long as there is no
      reset, the row keeps its status, no export starts, and no visit writes "complete". */
  lemma {:induction false} FailureIsFinal(s: State, steps: seq<Step>)
    requires Inv(s) && HasFailed(Row(s).bf) && Run(s, steps).Some?
    requires Run(s, steps).value.h.generation == s.h.generation
    ensures var t := Run(s, steps).value;
      && Row(t).bf.status == Row(s).bf.status && Row(t).bf.taskId == Row(s).bf.taskId && t.h.started == s.h.started
      && !(t.pc.Return? && t.pc.complete)
  {
    RunFromInv(s, steps);
    if steps != [] {
      hide Inv, Apply, Enabled;
      var before := steps[..|steps| - 1];
      var u := Run(s, before).value;
      RunFromInv(s, before);
      RunInGeneration(s, before);
      StepInGeneration(u, steps[|steps| - 1]);
      FailureIsFinal(s, before);
      StepKeepsFailure(u, steps[|steps| - 1]);
    }
    FailedNeverCompletes(Run(s, steps).value);
  }
}
