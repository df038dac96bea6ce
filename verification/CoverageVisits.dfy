/**
  Runs of the coverage protocol put together call by call: what single steps do, and the stretches
  of a visit that are made of them.
 */
module CoverageVisits {
  import opened Basics
  import opened Telemetry
  import opened CoverageProtocol
  import opened CoverageInvariant

  // ---- Runs that nothing holds up ----

  /** A call that succeeds, an export that goes well, or a delivery. */
  predicate Helps(step: Step) {
    step.Begin? || step.Go? || step.ExportStarted? || step.ExportWrites? || step.RecordObject? || step.RecordLive?
    || (step.TaskProgress? && step.code == TaskCompleted)
  }

  /** The number of visits that the steps begin. */
  function Visits(steps: seq<Step>): nat {
    if steps == [] then 0
    else Visits(steps[..|steps| - 1]) + if steps[|steps| - 1].Begin? then 1 else 0
  }

  /** Steps that all help lead from `s` to `t`, and begin so many visits. */
  ghost predicate Leads(s: State, t: State, visits: nat) {
    exists steps ::
      Run(s, steps) == Some(t) && (forall step :: step in steps ==> Helps(step)) && Visits(steps) == visits
  }

  lemma LeadsItself(s: State)
    ensures Leads(s, s, 0)
  {
    hide Helps;
    assert Run(s, []) == Some(s) && Visits([]) == 0;
  }

  lemma VisitsSnoc(steps: seq<Step>, step: Step)
    ensures Visits(steps + [step]) == Visits(steps) + if step.Begin? then 1 else 0
  {
    assert (steps + [step])[..|steps|] == steps;
  }

  lemma LeadsStep(s: State, t: State, visits: nat, step: Step)
    requires Leads(s, t, visits) && Enabled(t, step) && Helps(step)
    ensures Leads(s, Apply(t, step), if step.Begin? then visits + 1 else visits)
  {
    hide Enabled, Apply, Run, Visits, Helps;
    var steps :| Run(s, steps) == Some(t) && (forall x :: x in steps ==> Helps(x)) && Visits(steps) == visits;
    RunSnoc(s, steps, t, step);
    VisitsSnoc(steps, step);
  }

  lemma {:induction false} VisitsAdd(first: seq<Step>, second: seq<Step>)
    ensures Visits(first + second) == Visits(first) + Visits(second)
  {
    if second == [] {
      assert first + second == first;
    } else {
      VisitsAdd(first, second[..|second| - 1]);
      assert (first + second)[..|first + second| - 1] == first + second[..|second| - 1];
    }
  }

  lemma LeadsTransitive(s: State, t: State, u: State, m: nat, n: nat)
    requires Leads(s, t, m) && Leads(t, u, n)
    ensures Leads(s, u, m + n)
  {
    hide Run, Visits;
    var first :| Run(s, first) == Some(t) && (forall x :: x in first ==> Helps(x)) && Visits(first) == m;
    var second :| Run(t, second) == Some(u) && (forall x :: x in second ==> Helps(x)) && Visits(second) == n;
    RunConcat(s, first, second);
    VisitsAdd(first, second);
  }

  lemma LeadsReaches(s: State, t: State, u: State, visits: nat)
    requires Reaches(s, t) && Leads(t, u, visits)
    ensures Reaches(s, u)
  {
    hide Run, Visits;
    var steps :| Run(t, steps) == Some(u) && (forall x :: x in steps ==> Helps(x)) && Visits(steps) == visits;
    ReachesTransitive(s, t, u);
  }

  lemma LeadsKeepsInv(s: State, t: State, visits: nat)
    requires Inv(s) && Leads(s, t, visits)
    ensures Inv(t)
  {
    hide Inv, Run, Visits;
    var steps :| Run(s, steps) == Some(t) && (forall x :: x in steps ==> Helps(x)) && Visits(steps) == visits;
    RunFromInv(s, steps);
  }

  // ---- Single calls ----

  lemma VisitIsBegun(s: State, now: int)
    requires s.pc == Idle && 0 < now <= s.clock
    ensures Enabled(s, Begin(now))
    ensures Apply(s, Begin(now)) == s.(pc := DescribeGroup(now), rep := NO_REPORT, h := s.h.(unwritten := false))
  {
  }

  lemma GroupIsDescribed(s: State)
    requires s.pc.DescribeGroup?
    ensures Enabled(s, Go) && Apply(s, Go) == s.(pc := GetRow(s.pc.now, s.w.group))
  {
  }

  lemma RowIsRead(s: State)
    requires s.pc.GetRow? && s.pc.group.Some?
    ensures Enabled(s, Go)
    ensures Apply(s, Go) ==
      s.(pc := DescribeFilters(s.pc.now, s.pc.group.value, s.item), rep := s.rep.(matched := true))
  {
  }

  lemma FilterIsFound(s: State)
    requires s.pc.DescribeFilters? && s.w.group.Some? && Mine(s) == Some(OurValue(s.cfg))
    ensures Enabled(s, Go)
    ensures Apply(s, Go) == s.(pc := ReadClock(s.pc.now, s.pc.creation, s.pc.row, OurValue(s.cfg), None),
                               rep := s.rep.(subscribed := true))
  {
  }

  lemma FilterIsMissed(s: State)
    requires s.pc.DescribeFilters? && s.w.group.Some? && Mine(s).None? && |s.w.filters| < 2
    ensures Enabled(s, Go) && Apply(s, Go) == s.(pc := PutFilter(s.pc.now, s.pc.creation, s.pc.row))
  {
  }

  lemma FilterIsPut(s: State)
    requires s.pc.PutFilter? && s.w.group.Some?
    ensures Enabled(s, Go)
    ensures var t := Apply(s, Go);
      && Mine(t) == Some(OurValue(t.cfg))
      && t == s.(w := s.w.(filters := t.w.filters, since := s.clock), rep := s.rep.(subscribed := true),
                 pc := ReadClock(s.pc.now, s.pc.creation, s.pc.row, OurValue(s.cfg), Some(s.clock)))
  {
  }

  lemma ClockIsRead(s: State)
    requires s.pc.ReadClock?
    ensures Enabled(s, Go)
    ensures var reset := IsReset(s.pc.row, s.pc.creation, s.pc.putAt.Some?, s.pc.observed);
      var confirmedAt := if reset then s.clock else KeptConfirmation(s.pc.row, s.pc.now);
      Apply(s, Go) == s.(pc := WriteConfirmed(s.pc.now, s.pc.creation, s.pc.observed, s.pc.putAt, reset, confirmedAt),
                         rep := s.rep.(drift := reset && Confirmed(RowOf(s.pc.row))))
  {
    hide IsReset, KeptConfirmation;
  }

  /** The row as the confirming write leaves it. */
  function ConfirmedRow(s: State): Item
    requires s.pc.WriteConfirmed?
  {
    Merge(Row(s), ConfirmPatch(s.cfg, s.pc.creation, s.pc.confirmedAt, s.pc.observed, s.pc.reset, s.pc.now))
  }

  lemma RowIsConfirmed(s: State)
    requires s.pc.WriteConfirmed?
    ensures Enabled(s, Go)
    ensures Apply(s, Go) == s.(item := Some(ConfirmedRow(s)),
                               pc := StartBackfill(s.pc.now, s.pc.creation, s.pc.confirmedAt, ConfirmedRow(s)),
                               h := if s.pc.reset then Renewed(s.h, s.w, s.pc.creation) else s.h)
  {
    hide Renewed, Merge;
  }

  lemma ConfirmedAgain(s: State)
    requires s.pc.WriteConfirmed? && !s.pc.reset
    ensures var row := ConfirmedRow(s);
      && row.bf == Row(s).bf && row.obj == Row(s).obj && row.live == Row(s).live
      && Confirmed(row) && Recorded(row.sub) == Some(s.pc.observed)
      && row.sub.confirmedAt == Some(s.pc.confirmedAt) && row.sub.creationTime == Some(s.pc.creation)
  {
  }

  lemma ConfirmedAnew(s: State)
    requires s.pc.WriteConfirmed? && s.pc.reset
    ensures var row := ConfirmedRow(s);
      && row.bf.status == Some(PENDING) && !Truthy(row.bf.taskId)
      && Confirmed(row) && Recorded(row.sub) == Some(s.pc.observed)
      && row.sub.confirmedAt == Some(s.pc.confirmedAt) && row.sub.creationTime == Some(s.pc.creation)
  {
  }

  lemma BackfillIsKept(s: State)
    requires s.pc.StartBackfill? && s.pc.current.bf.status == Some(COMPLETED)
    ensures Enabled(s, Go) && Apply(s, Go) == s.(pc := WriteCoverage(s.pc.now, s.pc.confirmedAt, s.pc.current))
  {
  }

  predicate Polls(s: State, code: TaskCode) {
    && s.pc.StartBackfill? && s.pc.current.bf.status != Some(COMPLETED)
    && Truthy(s.pc.current.bf.taskId) && s.pc.current.bf.taskId.value in s.w.exports
    && s.w.exports[s.pc.current.bf.taskId.value].code == code
  }

  lemma ExportIsActive(s: State)
    requires Polls(s, TaskActive)
    ensures Enabled(s, Go) && Apply(s, Go) == s.(pc := WriteCoverage(s.pc.now, s.pc.confirmedAt, s.pc.current))
  {
  }

  lemma ExportIsCompleted(s: State)
    requires Polls(s, TaskCompleted)
    ensures Enabled(s, Go)
    ensures Apply(s, Go) ==
      s.(pc := WriteBackfill(s.pc.now, s.pc.confirmedAt,
                             NO_BACKFILL.(status := Some(COMPLETED), completedAt := Some(s.clock)), ""))
  {
  }

  predicate Skips(s: State) {
    && s.pc.StartBackfill? && s.pc.current.bf.status != Some(COMPLETED) && !Truthy(s.pc.current.bf.taskId)
    && s.pc.creation >= s.pc.confirmedAt
  }

  lemma BackfillIsSkipped(s: State)
    requires Skips(s)
    ensures Enabled(s, Go)
    ensures Apply(s, Go) ==
      s.(pc := WriteBackfill(s.pc.now, s.pc.confirmedAt, SkipPatch(s.pc.creation, s.pc.confirmedAt), ""))
  {
  }

  predicate Exports(s: State) {
    && s.pc.StartBackfill? && s.pc.current.bf.status != Some(COMPLETED) && !Truthy(s.pc.current.bf.taskId)
    && s.pc.creation < s.pc.confirmedAt
  }

  lemma ExportIsStarted(s: State, id: string)
    requires Exports(s) && id != "" && id !in s.w.exports
    ensures Enabled(s, ExportStarted(id))
    ensures Apply(s, ExportStarted(id)) ==
      s.(w := s.w.(exports := s.w.exports[id := Task(s.pc.creation, s.pc.confirmedAt, TaskActive)]),
         pc := WriteBackfill(s.pc.now, s.pc.confirmedAt, StartedPatch(id, s.pc.creation, s.pc.confirmedAt), ""),
         h := s.h.(started := s.h.started + 1))
  {
  }

  lemma BackfillIsWritten(s: State)
    requires s.pc.WriteBackfill? && s.pc.error == ""
    ensures Enabled(s, Go)
    ensures var row := Row(s).(bf := MergeBackfill(Row(s).bf, s.pc.patch));
      Apply(s, Go) == s.(item := Some(row), pc := WriteCoverage(s.pc.now, s.pc.confirmedAt, row))
  {
    hide MergeBackfill;
  }

  lemma CoverageIsWritten(s: State)
    requires s.pc.WriteCoverage?
    ensures Enabled(s, Go)
    ensures var complete := IsComplete(s.pc.current, s.pc.confirmedAt, s.pc.now, s.cfg.maxLagSeconds);
      var row := Row(s).(meta := MergeMeta(Row(s).meta, CoveragePatch(complete).meta));
      Apply(s, Go) == s.(item := Some(row), pc := Return(s.pc.now, complete))
  {
    hide IsComplete, MergeMeta;
  }

  lemma VisitReturns(s: State)
    requires s.pc.Return?
    ensures Enabled(s, Go) && Apply(s, Go) == s.(pc := Idle, rep := s.rep.(covered := s.pc.complete))
  {
  }

  /** Killed where no export was started that is not yet written down. */
  lemma VisitIsKilled(s: State)
    requires s.pc != Idle && !s.pc.WriteBackfill?
    ensures Enabled(s, Kill)
    ensures var t := Apply(s, Kill); t == s.(pc := Idle, h := s.h.(gapRisk := t.h.gapRisk, unwritten := true))
    ensures !s.pc.ReadClock? && !s.pc.WriteConfirmed? ==> Apply(s, Kill).h.gapRisk == s.h.gapRisk
  {
  }

  lemma ExportIsLost(s: State)
    requires s.pc.WriteBackfill? && s.pc.patch.taskId.Some?
    ensures Enabled(s, Kill) && Apply(s, Kill) == s.(pc := Idle, h := s.h.(orphan := true, unwritten := true))
  {
  }

  // ---- Single steps of the others ----

  lemma FiltersAreDropped(s: State)
    requires s.w.group.Some?
    ensures Enabled(s, OthersSetFilters([]))
    ensures var t := Apply(s, OthersSetFilters([]));
      t == s.(w := s.w.(filters := [], since := t.w.since)) && Mine(t).None?
  {
  }

  lemma ObjectIsWritten(s: State, r: ObjectRecord)
    requires r.sha256 != "" && r.manifest != "" && r.taskId in s.w.exports && s.w.exports[r.taskId].code == TaskActive
    ensures Enabled(s, ExportWrites(r))
    ensures Apply(s, ExportWrites(r)) == s.(w := s.w.(outbox := s.w.outbox + multiset{r}))
  {
  }

  lemma ObjectIsRecorded(s: State, r: ObjectRecord)
    requires r.sha256 != "" && r.manifest != "" && r in s.w.outbox
    ensures Enabled(s, RecordObject(r))
    ensures Apply(s, RecordObject(r)) ==
      s.(w := s.w.(outbox := s.w.outbox - multiset{r}), item := Some(RecordedObject(Row(s), r)),
         h := s.h.(objects := s.h.objects + [r]))
  {
    hide RecordedObject;
  }

  lemma TaskIsCompleted(s: State, id: string)
    requires id in s.w.exports && s.w.exports[id].code == TaskActive
    ensures Enabled(s, TaskProgress(id, TaskCompleted))
    ensures Apply(s, TaskProgress(id, TaskCompleted)) ==
      s.(w := s.w.(exports := s.w.exports[id := s.w.exports[id].(code := TaskCompleted)]))
  {
  }

  lemma LiveIsRecorded(s: State, r: LiveRecord)
    requires r.sha256 != "" && r.manifest != ""
    ensures Enabled(s, RecordLive(r))
    ensures Apply(s, RecordLive(r)) == s.(item := Some(RecordedLive(Row(s), r)), h := s.h.(live := s.h.live + [r]))
  {
    hide RecordedLive;
  }

  // ---- Deliveries ----

  /** An object that may still be recorded. */
  predicate MayArrive(w: World, r: ObjectRecord) {
    && r.sha256 != "" && r.manifest != "" && r.taskId in w.exports
    && (r in w.outbox || w.exports[r.taskId].code == TaskActive)
  }

  lemma OutstandingArrives(s: State) returns (r: ObjectRecord)
    requires Inv(s) && Outstanding(s.w)
    ensures MayArrive(s.w, r)
  {
    hide ClockInv, SubInv, GapInv, BackfillInv, ObjectInv, LiveInv, ReportInv, ExportInv, VanishedInv, PcInv;
    if s.w.outbox != multiset{} {
      r :| r in s.w.outbox;
    } else {
      var id :| id in s.w.exports && s.w.exports[id].code == TaskActive;
      r := ObjectRecord(0, "k", "x", "m", id);
    }
  }

  lemma ObjectArrives(s: State, r: ObjectRecord) returns (t: State)
    requires MayArrive(s.w, r)
    ensures Leads(s, t, 0)
    ensures t == s.(w := s.w.(outbox := t.w.outbox), item := Some(RecordedObject(Row(s), r)),
                    h := s.h.(objects := s.h.objects + [r]))
  {
    hide Leads, Enabled, Apply, RecordedObject;
    LeadsItself(s);
    t := s;
    if r !in s.w.outbox {
      ObjectIsWritten(s, r);
      LeadsStep(s, t, 0, ExportWrites(r));
      t := Apply(t, ExportWrites(r));
    }
    ObjectIsRecorded(t, r);
    LeadsStep(s, t, 0, RecordObject(r));
    t := Apply(t, RecordObject(r));
  }

  /** A live delivery that a visit at the present time finds fresh. */
  lemma FreshDeliveryArrives(s: State, confirmedAt: int) returns (t: State)
    requires 0 < confirmedAt <= s.clock
    ensures Leads(s, t, 0) && t == s.(item := t.item, h := s.h.(live := t.h.live)) && t.item.Some?
    ensures Row(t) == Row(s).(live := Row(t).live)
    ensures DeliveryIsFresh(Row(t), confirmedAt, t.clock, t.cfg.maxLagSeconds)
  {
    hide Leads, Enabled, Apply;
    var lag := s.cfg.maxLagSeconds * 1000;
    var live := LiveRecord(if lag < 0 then s.clock - lag else s.clock, "k", "x", "m", 0);
    LeadsItself(s);
    LiveIsRecorded(s, live);
    LeadsStep(s, s, 0, RecordLive(live));
    t := Apply(s, RecordLive(live));
  }

  lemma {:induction false} FreshId(used: set<string>) returns (id: string)
    ensures id != "" && id !in used && forall x :: x in used ==> |x| < |id|
    decreases used
  {
    if used == {} {
      id := "x";
    } else {
      var x :| x in used;
      var rest := FreshId(used - {x});
      id := rest + x;
      forall y | y in used ensures |y| < |id| {
        if y != x { assert y in used - {x}; }
      }
    }
  }

  // ---- Stretches of a visit ----

  /** A visit begins, and sees the log group and its row. */
  lemma VisitSeesRow(s: State) returns (t: State)
    requires s.pc == Idle && s.clock > 0 && s.w.group.Some?
    ensures Leads(s, t, 1)
    ensures t == s.(pc := DescribeFilters(s.clock, s.w.group.value, s.item), rep := NO_REPORT.(matched := true),
                    h := s.h.(unwritten := false))
  {
    hide Leads, Enabled, Apply;
    LeadsItself(s);
    VisitIsBegun(s, s.clock);
    LeadsStep(s, s, 0, Begin(s.clock));
    t := Apply(s, Begin(s.clock));
    GroupIsDescribed(t);
    LeadsStep(s, t, 1, Go);
    t := Apply(t, Go);
    RowIsRead(t);
    LeadsStep(s, t, 1, Go);
    t := Apply(t, Go);
  }

  /** The row is confirmed for this log group and our filter value. */
  predicate RowStands(s: State) {
    && s.w.group.Some? && s.item.Some?
    && Confirmed(Row(s)) && Recorded(Row(s).sub) == Some(OurValue(s.cfg)) && Row(s).sub.creationTime == s.w.group
    && Row(s).sub.confirmedAt.Some? && 0 < Row(s).sub.confirmedAt.value <= s.clock
  }

  /** The next visit finds the filter in place and the row confirmed. */
  predicate Settled(s: State) {
    s.pc == Idle && Mine(s) == Some(OurValue(s.cfg)) && RowStands(s)
  }

  lemma SettledIsNoReset(s: State)
    requires Settled(s)
    ensures !IsReset(s.item, s.w.group.value, false, OurValue(s.cfg))
    ensures forall now :: KeptConfirmation(s.item, now) == Row(s).sub.confirmedAt.value
  {
  }

  /** It confirms the row again. */
  lemma VisitConfirmsAgain(s: State) returns (t: State)
    requires Settled(s)
    ensures Leads(s, t, 1) && t.pc.StartBackfill? && t.pc.now == s.clock && t.pc.creation == s.w.group.value
    ensures t.pc.confirmedAt == Row(s).sub.confirmedAt.value && t.pc.current == Row(t)
    ensures t == s.(item := t.item, pc := t.pc, rep := Report(true, true, false, None, false),
                    h := s.h.(unwritten := false))
    ensures Row(t).bf == Row(s).bf && Row(t).obj == Row(s).obj && Row(t).live == Row(s).live
    ensures RowStands(t) && Row(t).sub.confirmedAt == Row(s).sub.confirmedAt
  {
    hide Leads, Enabled, Apply, IsReset, KeptConfirmation, ConfirmedRow, Recorded;
    SettledIsNoReset(s);
    t := VisitSeesRow(s);
    FilterIsFound(t);
    LeadsStep(s, t, 1, Go);
    t := Apply(t, Go);
    ClockIsRead(t);
    LeadsStep(s, t, 1, Go);
    t := Apply(t, Go);
    RowIsConfirmed(t);
    ConfirmedAgain(t);
    LeadsStep(s, t, 1, Go);
    t := Apply(t, Go);
  }

  /** A backfill that is completed, or whose export is seen to be. */
  predicate SeesCompletion(s: State) {
    s.pc.StartBackfill? && s.pc.current == Row(s)
    && (Row(s).bf.status == Some(COMPLETED) || Polls(s, TaskCompleted))
  }

  lemma CompletionIsSeen(s: State) returns (t: State)
    requires SeesCompletion(s)
    ensures Leads(s, t, 0) && t.pc == WriteCoverage(s.pc.now, s.pc.confirmedAt, Row(t))
    ensures t == s.(item := t.item, pc := t.pc)
    ensures Row(t) == Row(s).(bf := Row(s).bf.(status := Some(COMPLETED), completedAt := Row(t).bf.completedAt))
  {
    hide Leads, Enabled, Apply;
    LeadsItself(s);
    if s.pc.current.bf.status == Some(COMPLETED) {
      BackfillIsKept(s);
      LeadsStep(s, s, 0, Go);
      t := Apply(s, Go);
    } else {
      ExportIsCompleted(s);
      LeadsStep(s, s, 0, Go);
      t := Apply(s, Go);
      BackfillIsWritten(t);
      LeadsStep(s, t, 0, Go);
      t := Apply(t, Go);
    }
  }

  /** The visit writes whether the group is covered. */
  lemma VisitJudges(s: State) returns (t: State)
    requires s.pc.WriteCoverage?
    ensures Leads(s, t, 0)
    ensures t.pc == Return(s.pc.now, IsComplete(s.pc.current, s.pc.confirmedAt, s.pc.now, s.cfg.maxLagSeconds))
    ensures t == s.(item := t.item, pc := t.pc) && Row(t) == Row(s).(meta := Row(t).meta)
  {
    hide Leads, Enabled, Apply, IsComplete, MergeMeta;
    LeadsItself(s);
    CoverageIsWritten(s);
    LeadsStep(s, s, 0, Go);
    t := Apply(s, Go);
  }

  /** The backfill is completed, or will be when its export is looked at. */
  predicate ExportIsDone(s: State) {
    Row(s).bf.status == Some(COMPLETED)
    || (Truthy(Row(s).bf.taskId) && Row(s).bf.taskId.value in s.w.exports
        && s.w.exports[Row(s).bf.taskId.value].code == TaskCompleted)
  }

  /** A whole visit without a reset that finds the backfill completed: it writes "complete" exactly
      if the row then has its evidence and a fresh delivery. */
  lemma VisitDecides(s: State) returns (t: State)
    requires Settled(s) && ExportIsDone(s)
    ensures Leads(s, t, 1) && t.pc.Return?
    ensures t.pc.complete <==>
      && (Row(s).bf.evidenceRequired == Some(false) || (Truthy(Row(s).obj.sha256) && Truthy(Row(s).obj.manifest)))
      && DeliveryIsFresh(Row(s), Row(s).sub.confirmedAt.value, s.clock, s.cfg.maxLagSeconds)
    ensures t == s.(item := t.item, pc := t.pc, rep := Report(true, true, false, None, false),
                    h := s.h.(unwritten := false))
    ensures Row(t).bf == Row(s).bf.(status := Some(COMPLETED), completedAt := Row(t).bf.completedAt)
    ensures Row(t).sub.confirmedAt == Row(s).sub.confirmedAt && Row(t).obj == Row(s).obj
  {
    hide Leads;
    var a := VisitConfirmsAgain(s);
    var b := CompletionIsSeen(a);
    LeadsTransitive(s, a, b, 1, 0);
    t := VisitJudges(b);
    LeadsTransitive(s, b, t, 1, 0);
  }
}
