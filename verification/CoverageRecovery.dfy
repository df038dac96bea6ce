/**
  From which states a log group can still be covered while nobody touches the group, its filters or
  the configuration: exactly when, and within two visits.
 */
module CoverageRecovery {
  import opened Basics
  import opened Telemetry
  import opened CoverageProtocol
  import opened CoverageInvariant
  import opened CoverageVisits

  /** The next visit will start a new generation. */
  predicate NextResets(s: State)
    requires s.w.group.Some?
  {
    Mine(s) != Some(OurValue(s.cfg)) || IsReset(s.item, s.w.group.value, false, OurValue(s.cfg))
  }

  /** The row names an export that failed, or that ended while no object was recorded and none is to come. */
  predicate Doomed(s: State) {
    var taskId := Row(s).bf.taskId;
    && Truthy(taskId) && taskId.value in s.w.exports
    && (s.w.exports[taskId.value].code in {TaskFailed, TaskCancelled}
        || (s.w.exports[taskId.value].code == TaskCompleted && !Truthy(Row(s).obj.sha256) && !Outstanding(s.w)))
  }

  predicate FilterRefused(s: State) { Inspect(s.w.filters, FilterName(s.cfg, s.name), s.cfg).Refused? }

  /** The group is there, its filter is ours or can be put, and its export can still give evidence,
      unless there will be another. */
  predicate CanCover(s: State) {
    s.w.group.Some? && !FilterRefused(s) && (NextResets(s) || !Doomed(s))
  }

  // ---- The first visit ----

  /** Where the visit decides about the backfill. */
  predicate Prepared(s: State) {
    && s.pc.StartBackfill? && s.pc.current == Row(s) && RowStands(s) && Mine(s) == Some(OurValue(s.cfg))
    && Some(s.pc.creation) == s.w.group && Some(s.pc.confirmedAt) == Row(s).sub.confirmedAt
  }

  lemma KeepingIsSettled(s: State)
    requires Inv(s) && s.pc == Idle && s.w.group.Some? && !NextResets(s)
    ensures Settled(s)
  {
    hide GapInv, BackfillInv, ObjectInv, LiveInv, PcInv, ReportInv, ExportInv, SourceInv, VanishedInv;
  }

  /** The visit finds or puts the filter. */
  lemma VisitHasFilter(s: State) returns (t: State)
    requires s.pc == Idle && s.clock > 0 && s.w.group.Some? && !FilterRefused(s)
    ensures Leads(s, t, 1) && Mine(t) == Some(OurValue(t.cfg))
    ensures t == s.(w := s.w.(filters := t.w.filters, since := t.w.since), pc := t.pc, rep := t.rep,
                    h := s.h.(unwritten := false))
    ensures t.pc == ReadClock(s.clock, s.w.group.value, s.item, OurValue(s.cfg),
                              if Mine(s) == Some(OurValue(s.cfg)) then None else Some(s.clock))
  {
    hide Leads, Enabled, Apply, Find;
    var u := VisitSeesRow(s);
    if Mine(s) == Some(OurValue(s.cfg)) {
      FilterIsFound(u);
      LeadsStep(s, u, 1, Go);
      t := Apply(u, Go);
    } else {
      FilterIsMissed(u);
      LeadsStep(s, u, 1, Go);
      u := Apply(u, Go);
      FilterIsPut(u);
      LeadsStep(s, u, 1, Go);
      t := Apply(u, Go);
    }
  }

  /** A visit that resets the row comes to a backfill without an export. */
  lemma VisitResets(s: State) returns (t: State)
    requires s.pc == Idle && s.clock > 0 && s.w.group.Some? && !FilterRefused(s) && NextResets(s)
    ensures Leads(s, t, 1) && Prepared(t) && !Truthy(Row(t).bf.taskId)
  {
    hide Leads, Enabled, Apply, Inspect, ConfirmedRow, Renewed, KeptConfirmation;
    t := VisitHasFilter(s);
    var reset := IsReset(t.pc.row, t.pc.creation, t.pc.putAt.Some?, t.pc.observed);
    assert reset;
    hide IsReset;
    ClockIsRead(t);
    LeadsStep(s, t, 1, Go);
    t := Apply(t, Go);
    RowIsConfirmed(t);
    ConfirmedAnew(t);
    LeadsStep(s, t, 1, Go);
    t := Apply(t, Go);
  }

  lemma VisitPrepares(s: State) returns (t: State)
    requires Inv(s) && s.pc == Idle && CanCover(s)
    ensures Leads(s, t, 1) && Inv(t) && Prepared(t) && !Doomed(t)
  {
    hide Leads, FilterRefused, Outstanding, Find, IsReset;
    hide SubInv, GapInv, BackfillInv, ObjectInv, LiveInv, PcInv, ReportInv, ExportInv, SourceInv, VanishedInv;
    if NextResets(s) {
      t := VisitResets(s);
    } else {
      KeepingIsSettled(s);
      t := VisitConfirmsAgain(s);
    }
    LeadsKeepsInv(s, t, 1);
  }

  /** The row's export, if it has one, is active or completed. */
  predicate Exporting(s: State) {
    Row(s).bf.status == Some(COMPLETED)
    || (Truthy(Row(s).bf.taskId) && Row(s).bf.taskId.value in s.w.exports
        && s.w.exports[Row(s).bf.taskId.value].code in {TaskActive, TaskCompleted})
  }

  lemma VisitBackfills(s: State) returns (t: State)
    requires Prepared(s) && BackfillInv(Row(s).bf, Row(s).sub, s.w.exports) && !Doomed(s)
    ensures Leads(s, t, 0) && t.pc.WriteCoverage? && Exporting(t) && !Doomed(t)
    ensures RowStands(t) && Mine(t) == Some(OurValue(t.cfg))
  {
    hide Leads, Enabled, Apply, Recorded, Find;
    LeadsItself(s);
    var bf := Row(s).bf;
    if bf.status == Some(COMPLETED) || (Truthy(bf.taskId) && s.w.exports[bf.taskId.value].code == TaskCompleted) {
      t := CompletionIsSeen(s);
    } else if Truthy(bf.taskId) {
      ExportIsActive(s);
      LeadsStep(s, s, 0, Go);
      t := Apply(s, Go);
    } else {
      if s.pc.creation >= s.pc.confirmedAt {
        BackfillIsSkipped(s);
        LeadsStep(s, s, 0, Go);
        t := Apply(s, Go);
      } else {
        var id := FreshId(s.w.exports.Keys);
        ExportIsStarted(s, id);
        LeadsStep(s, s, 0, ExportStarted(id));
        t := Apply(s, ExportStarted(id));
      }
      BackfillIsWritten(t);
      LeadsStep(s, t, 0, Go);
      t := Apply(t, Go);
    }
  }

  /** It ends. */
  lemma VisitEnds(s: State) returns (t: State)
    requires s.pc.WriteCoverage? && Exporting(s) && !Doomed(s) && RowStands(s) && Mine(s) == Some(OurValue(s.cfg))
    ensures Leads(s, t, 0) && Settled(t) && Exporting(t) && !Doomed(t)
  {
    hide Leads, Enabled, Apply, Recorded, Find, Outstanding;
    var u := VisitJudges(s);
    VisitReturns(u);
    LeadsStep(s, u, 0, Go);
    t := Apply(u, Go);
  }

  // ---- What happens between the two visits ----

  /** The row has its backfill object. */
  predicate HasEvidence(s: State) {
    Row(s).bf.evidenceRequired == Some(false) || (Truthy(Row(s).obj.sha256) && Truthy(Row(s).obj.manifest))
  }

  /** An object is recorded, unless the row has one or needs none. */
  lemma EvidenceArrives(s: State) returns (t: State)
    requires Inv(s) && Settled(s) && Exporting(s) && !Doomed(s)
    ensures Leads(s, t, 0) && Settled(t) && Exporting(t) && HasEvidence(t)
  {
    hide Leads, Find, Recorded;
    hide ClockInv, SubInv, GapInv, LiveInv, PcInv, ReportInv, ExportInv, SourceInv, VanishedInv;
    LeadsItself(s);
    t := s;
    if Truthy(Row(s).bf.taskId) && !Truthy(Row(s).obj.sha256) {
      assert Outstanding(s.w);
      var r := OutstandingArrives(s);
      t := ObjectArrives(s, r);
    }
  }

  lemma ExportCompletes(s: State) returns (t: State)
    requires Settled(s) && Exporting(s) && HasEvidence(s)
    ensures Leads(s, t, 0) && Settled(t) && ExportIsDone(t) && HasEvidence(t)
  {
    hide Leads, Enabled, Apply, Find, Recorded;
    LeadsItself(s);
    t := s;
    if !ExportIsDone(s) {
      var id := Row(s).bf.taskId.value;
      TaskIsCompleted(s, id);
      LeadsStep(s, s, 0, TaskProgress(id, TaskCompleted));
      t := Apply(s, TaskProgress(id, TaskCompleted));
    }
  }

  /** With a fresh delivery, the next visit ends covered. */
  lemma NextVisitCovers(s: State) returns (t: State)
    requires Settled(s) && ExportIsDone(s) && HasEvidence(s)
    ensures Leads(s, t, 1) && t.pc.Return? && t.pc.complete
  {
    hide Leads, Find, Recorded, DeliveryIsFresh;
    var u := FreshDeliveryArrives(s, Row(s).sub.confirmedAt.value);
    t := VisitDecides(u);
    LeadsTransitive(s, u, t, 0, 1);
  }

  /** From every reachable state between visits from which the group can be covered, two visits that
      nothing holds up can cover it. */
  lemma CoveredInTwoVisits(s: State) returns (t: State)
    requires Inv(s) && s.pc == Idle && CanCover(s)
    ensures Leads(s, t, 2) && t.pc.Return? && t.pc.complete
  {
    hide Leads, CanCover, Prepared, Doomed, RowStands, Exporting, Settled, HasEvidence, ExportIsDone;
    hide ClockInv, SubInv, GapInv, ObjectInv, LiveInv, PcInv, ReportInv, ExportInv, SourceInv, VanishedInv;
    var a := VisitPrepares(s);
    var b := VisitBackfills(a);
    LeadsTransitive(s, a, b, 1, 0);
    var c := VisitEnds(b);
    LeadsTransitive(s, b, c, 1, 0);
    LeadsKeepsInv(s, c, 1);
    var d := EvidenceArrives(c);
    LeadsTransitive(s, c, d, 1, 0);
    var e := ExportCompletes(d);
    LeadsTransitive(s, d, e, 1, 0);
    t := NextVisitCovers(e);
    LeadsTransitive(s, e, t, 1, 1);
  }

  // ---- States from which it cannot be covered ----

  /** Nobody touches the log group, its filters or the configuration; all else may happen. */
  predicate Alone(step: Step) {
    !step.OthersSetFilters? && !step.DeleteGroup? && !step.CreateGroup? && !step.Reconfigure?
  }

  predicate GroupIsMissing(s: State) {
    && s.w.group.None?
    && (s.pc.Idle? || s.pc.DescribeGroup? || (s.pc.GetRow? && s.pc.group.None?) || s.pc.WriteMissing?
        || s.pc.WriteFailed?)
  }

  predicate FilterIsRefused(s: State) {
    && s.w.group.Some? && FilterRefused(s)
    && (s.pc.Idle? || s.pc.DescribeGroup? || (s.pc.GetRow? && s.pc.group.Some?) || s.pc.DescribeFilters?
        || s.pc.WriteRefused? || s.pc.WriteFailed?)
  }

  predicate ExportIsSpent(s: State) {
    && s.w.group.Some? && Mine(s) == Some(OurValue(s.cfg)) && Confirmed(Row(s)) && s.item.Some?
    && Recorded(Row(s).sub) == Some(OurValue(s.cfg)) && Row(s).sub.creationTime == s.w.group && Doomed(s)
    && match s.pc
       case GetRow(_, group) => group == s.w.group
       case DescribeFilters(_, creation, row) => Some(creation) == s.w.group && row.Some?
       case ReadClock(_, creation, row, _, putAt) => Some(creation) == s.w.group && row.Some? && putAt.None?
       case WriteConfirmed(_, _, _, _, reset, _) => !reset
       case WriteMissing(_) => false
       case WriteRefused(_, _, _) => false
       case PutFilter(_, _, _) => false
       case _ => true
  }

  ghost predicate Stuck(s: State) {
    GroupIsMissing(s) || FilterIsRefused(s) || ExportIsSpent(s)
  }

  lemma IdleIsStuck(s: State)
    requires Inv(s) && s.pc == Idle && !CanCover(s)
    ensures Stuck(s)
  {
    hide GapInv, BackfillInv, ObjectInv, LiveInv, PcInv, ReportInv, ExportInv, SourceInv, VanishedInv;
    if s.w.group.Some? && !NextResets(s) { KeepingIsSettled(s); }
  }

  lemma StuckNeverCompletes(s: State)
    requires Inv(s) && Stuck(s)
    ensures !(s.pc.Return? && s.pc.complete)
  {
    hide ClockInv, SubInv, GapInv, LiveInv, ReportInv, ExportInv, SourceInv, VanishedInv;
  }

  lemma MissingStays(s: State, step: Step)
    requires GroupIsMissing(s) && Alone(step) && Enabled(s, step)
    ensures GroupIsMissing(Apply(s, step))
  {
    hide Inspect, PlanBackfill, PollOutcome, IsReset, IsComplete, Outstanding, Merge;
  }

  lemma RefusedCalls(s: State)
    requires FilterIsRefused(s) && Enabled(s, Go)
    ensures FilterIsRefused(Advance(s))
  {
    hide PlanBackfill, PollOutcome, IsReset, IsComplete, Outstanding, Merge, Inspect;
  }

  lemma RefusalStays(s: State, step: Step)
    requires FilterIsRefused(s) && Alone(step) && Enabled(s, step)
    ensures FilterIsRefused(Apply(s, step))
  {
    hide Advance, PlanBackfill, UnsafeStop, Inspect, RecordedLive, RecordedObject;
    if step.Go? { RefusedCalls(s); }
  }

  predicate BeforeConfirming(pc: Pc) {
    pc.DescribeGroup? || pc.GetRow? || pc.DescribeFilters? || pc.ReadClock?
  }

  lemma DoomStays(s: State, t: State)
    requires Doomed(s) && Row(t).bf.taskId == Row(s).bf.taskId && t.w.exports == s.w.exports
    requires t.w.outbox == s.w.outbox && Row(t).obj == Row(s).obj
    ensures Doomed(t)
  {
  }

  lemma SpentUntilConfirming(s: State)
    requires Inv(s) && ExportIsSpent(s) && Enabled(s, Go) && BeforeConfirming(s.pc)
    ensures ExportIsSpent(Apply(s, Go))
  {
    hide ClockInv, SubInv, GapInv, BackfillInv, ObjectInv, LiveInv, ReportInv, ExportInv, SourceInv, VanishedInv;
    hide Doomed, EvidenceHeld, KeptConfirmation;
    DoomStays(s, Apply(s, Go));
  }

  /** A spent export is on the row, and no later write of the visit names another. */
  lemma SpentIsNamed(s: State)
    requires Inv(s) && ExportIsSpent(s)
    ensures s.pc.StartBackfill? ==> s.pc.current.bf == Row(s).bf && Truthy(s.pc.current.bf.taskId)
    ensures s.pc.WriteBackfill? ==> s.pc.patch.taskId.None?
  {
    hide ClockInv, SubInv, GapInv, BackfillInv, ObjectInv, LiveInv, ReportInv, ExportInv, SourceInv, VanishedInv;
    hide EvidenceHeld, Outstanding;
  }

  lemma SpentIsConfirmed(s: State)
    requires Inv(s) && ExportIsSpent(s) && s.pc.WriteConfirmed?
    ensures Enabled(s, Go) && ExportIsSpent(Apply(s, Go))
  {
    RowIsConfirmed(s);
    ConfirmedAgain(s);
    hide ClockInv, SubInv, GapInv, BackfillInv, ObjectInv, LiveInv, ReportInv, ExportInv, SourceInv, VanishedInv;
    hide Doomed, Apply, Enabled, ConfirmedRow, Find, Recorded, EvidenceHeld;
    DoomStays(s, Apply(s, Go));
  }

  predicate AfterConfirming(pc: Pc) {
    pc.StartBackfill? || pc.WriteBackfill? || pc.WriteBackfillError? || pc.WriteCoverage? || pc.Return?
    || pc.WriteFailed?
  }

  /** A spent export stays spent where the filters and the row's subscription are left alone. */
  lemma SpentCarries(s: State, t: State)
    requires ExportIsSpent(s) && Doomed(t)
    requires t.cfg == s.cfg && t.name == s.name && t.w.group == s.w.group && t.w.filters == s.w.filters
    requires Row(t).sub == Row(s).sub && t.item.Some?
    requires t.pc == s.pc || t.pc.Idle? || t.pc.DescribeGroup? || AfterConfirming(t.pc)
    ensures ExportIsSpent(t)
  {
    hide Doomed, Find, Recorded;
  }

  lemma SpentIsDoomed(s: State)
    requires ExportIsSpent(s)
    ensures Doomed(s) && s.item.Some?
    ensures !BeforeConfirming(s.pc) && !s.pc.WriteConfirmed? && s.pc != Idle ==> AfterConfirming(s.pc)
  {
    hide Doomed, Find, Recorded;
  }

  /** The later calls leave the filters and the subscription alone, and name no other export. */
  lemma LaterCalls(s: State)
    requires AfterConfirming(s.pc) && Enabled(s, Go) && (s.pc.WriteBackfill? ==> s.pc.patch.taskId.None?)
    ensures var t := Apply(s, Go);
      && t.cfg == s.cfg && t.name == s.name && t.w == s.w && (s.item.Some? ==> t.item.Some?)
      && (AfterConfirming(t.pc) || t.pc == Idle)
      && Row(t).sub == Row(s).sub && Row(t).bf.taskId == Row(s).bf.taskId && Row(t).obj == Row(s).obj
  {
    hide IsComplete, MergeMeta, MergeLive;
  }

  lemma SpentAfterConfirming(s: State)
    requires Inv(s) && ExportIsSpent(s) && Enabled(s, Go) && !BeforeConfirming(s.pc) && !s.pc.WriteConfirmed?
    ensures ExportIsSpent(Apply(s, Go))
  {
    hide Inv, ExportIsSpent, Doomed, Apply;
    SpentIsNamed(s);
    SpentIsDoomed(s);
    LaterCalls(s);
    DoomStays(s, Apply(s, Go));
    SpentCarries(s, Apply(s, Go));
  }

  lemma SpentNeverExports(s: State, step: Step)
    requires Inv(s) && ExportIsSpent(s) && (Starts(step) || step.PutUnanswered?)
    ensures !Enabled(s, step)
  {
    SpentIsNamed(s);
    hide Inv, Doomed, Find, Recorded;
  }

  /** Whatever else happens leaves the filters and the row's subscription and export alone. */
  lemma OthersLeaveRow(s: State, step: Step)
    requires Alone(step) && !step.Go? && !step.PutUnanswered? && Enabled(s, step)
    ensures var t := Apply(s, step);
      && t.cfg == s.cfg && t.name == s.name && t.w.group == s.w.group && t.w.filters == s.w.filters
      && Row(t).sub == Row(s).sub && Row(t).bf == Row(s).bf && (s.item.Some? ==> t.item.Some?)
      && (t.pc == s.pc || t.pc.Idle? || t.pc.DescribeGroup? || AfterConfirming(t.pc))
  {
    hide Advance, PlanBackfill, UnsafeStop, Find, StartedPatch;
  }

  lemma OthersLeaveDoom(s: State, step: Step)
    requires Doomed(s) && !step.Go? && !Starts(step) && Enabled(s, step) && Row(Apply(s, step)).bf == Row(s).bf
    ensures Doomed(Apply(s, step))
  {
    hide Advance, PlanBackfill, UnsafeStop, Find;
  }

  lemma SpentAmongOthers(s: State, step: Step)
    requires Inv(s) && ExportIsSpent(s) && Alone(step) && !step.Go? && Enabled(s, step)
    ensures ExportIsSpent(Apply(s, step))
  {
    hide Inv, ExportIsSpent, Doomed, Apply, Enabled;
    if Starts(step) || step.PutUnanswered? { SpentNeverExports(s, step); }
    SpentIsDoomed(s);
    OthersLeaveRow(s, step);
    OthersLeaveDoom(s, step);
    SpentCarries(s, Apply(s, step));
  }

  lemma SpentStays(s: State, step: Step)
    requires Inv(s) && ExportIsSpent(s) && Alone(step) && Enabled(s, step)
    ensures ExportIsSpent(Apply(s, step))
  {
    hide Inv, Apply, Enabled, Doomed, Find, Recorded;
    if step.Go? {
      if BeforeConfirming(s.pc) { SpentUntilConfirming(s); }
      else if s.pc.WriteConfirmed? { SpentIsConfirmed(s); }
      else { SpentAfterConfirming(s); }
    } else {
      SpentAmongOthers(s, step);
    }
  }

  lemma {:induction false} StuckForEver(s: State, steps: seq<Step>)
    requires Inv(s) && Stuck(s) && Run(s, steps).Some? && forall step :: step in steps ==> Alone(step)
    ensures Inv(Run(s, steps).value) && Stuck(Run(s, steps).value)
  {
    RunFromInv(s, steps);
    if steps != [] {
      hide Inv, GroupIsMissing, FilterIsRefused, ExportIsSpent, Enabled, Apply, Alone;
      var before, step := steps[..|steps| - 1], steps[|steps| - 1];
      StuckForEver(s, before);
      var u := Run(s, before).value;
      if GroupIsMissing(u) { MissingStays(u, step); }
      if FilterIsRefused(u) { RefusalStays(u, step); }
      if ExportIsSpent(u) { SpentStays(u, step); }
    }
  }

  // ---- Exactly when ----

  /** Some run in which nobody touches the group, its filters or the configuration writes "complete". */
  ghost predicate CoveredSomeDay(s: State) {
    exists steps, t ::
      Run(s, steps) == Some(t) && (forall step :: step in steps ==> Alone(step)) && t.pc.Return? && t.pc.complete
  }

  lemma LeadsAlone(s: State, t: State, visits: nat)
    requires Leads(s, t, visits) && t.pc.Return? && t.pc.complete
    ensures CoveredSomeDay(s)
  {
    hide Run, Visits;
    var steps :| Run(s, steps) == Some(t) && (forall x :: x in steps ==> Helps(x)) && Visits(steps) == visits;
  }

  /** For every reachable state between visits: the group can be covered without a change of the group,
      its filters or the configuration if and only if a look at the state says so; and then two visits
      suffice, with an export, an object of it and a delivery between them where they are missing. */
  lemma CoverableExactly(init: State, steps: seq<Step>, s: State)
    requires Init(init) && Run(init, steps) == Some(s) && s.pc == Idle
    ensures CoveredSomeDay(s) <==> CanCover(s)
    ensures CanCover(s) ==> exists t :: Leads(s, t, 2) && t.pc.Return? && t.pc.complete
  {
    RunKeepsInv(init, steps);
    hide Inv, Run, Leads, CanCover, Stuck, Init;
    if CanCover(s) {
      var t := CoveredInTwoVisits(s);
      LeadsAlone(s, t, 2);
    } else {
      IdleIsStuck(s);
      forall rest, t | Run(s, rest) == Some(t) && forall step :: step in rest ==> Alone(step)
        ensures !(t.pc.Return? && t.pc.complete)
      {
        StuckForEver(s, rest);
        StuckNeverCompletes(t);
      }
    }
  }
}
