/**
  Which resets guarantee that their generation completes on its own evidence: for each that does
  not, a run that completes on the evidence of another export.
 */
module CoverageGuarantees {
  import opened Basics
  import opened Telemetry
  import opened CoverageProtocol
  import opened CoverageInvariant
  import opened CoverageVisits
  import opened CoverageEvidence

  // ---- A completion on the object of another export ----

  /** Between visits: the row is confirmed for its log group, its export `id` is running, and the
      only object recorded since the reset is `r`, which another export wrote. */
  predicate Misled(s: State, id: string, r: ObjectRecord) {
    var row := Row(s);
    && s.pc == Idle && RowStands(s) && s.w.group.value < row.sub.confirmedAt.value
    && row.bf.status == Some(RUNNING) && row.bf.taskId == Some(id) && id != ""
    && row.bf.from == row.sub.creationTime && row.bf.to == row.sub.confirmedAt
    && id in s.w.exports && s.w.exports[id].code == TaskActive
    && Truthy(row.obj.sha256) && Truthy(row.obj.manifest) && s.h.objects == [r] && r.taskId != id
  }

  /** If the filter is not ours, others drop it, and a run puts it and stops before it confirms that. */
  lemma FilterReturns(s: State) returns (t: State)
    requires s.pc == Idle && s.clock > 0 && RowStands(s)
    ensures Reaches(s, t) && Settled(t)
    ensures t == s.(w := s.w.(filters := t.w.filters, since := t.w.since), rep := t.rep,
                    h := s.h.(gapRisk := t.h.gapRisk, unwritten := t.h.unwritten))
  {
    ReachesItself(s);
    t := s;
    if Mine(s) != Some(OurValue(s.cfg)) {
      hide Reaches, Leads, Enabled, Apply;
      FiltersAreDropped(s);
      ReachesStep(s, s, OthersSetFilters([]));
      t := Apply(s, OthersSetFilters([]));
      var u := VisitSeesRow(t);
      LeadsReaches(s, t, u, 1);
      FilterIsMissed(u);
      ReachesStep(s, u, Go);
      t := Apply(u, Go);
      FilterIsPut(t);
      ReachesStep(s, t, Go);
      t := Apply(t, Go);
      VisitIsKilled(t);
      ReachesStep(s, t, Kill);
      t := Apply(t, Kill);
    }
  }

  /** The export starts and is written down, and the run ends. */
  lemma ExportRuns(s: State, id: string) returns (t: State)
    requires Exports(s) && id != "" && id !in s.w.exports
    ensures Reaches(s, t) && t.pc == Idle
    ensures t == s.(w := s.w.(exports := s.w.exports[id := Task(s.pc.creation, s.pc.confirmedAt, TaskActive)]),
                    item := Some(Row(s).(bf := MergeBackfill(Row(s).bf,
                                                             StartedPatch(id, s.pc.creation, s.pc.confirmedAt)))),
                    pc := Idle, h := s.h.(started := s.h.started + 1, unwritten := true))
  {
    hide Reaches, Enabled, Apply, MergeBackfill;
    ReachesItself(s);
    ExportIsStarted(s, id);
    ReachesStep(s, s, ExportStarted(id));
    t := Apply(s, ExportStarted(id));
    BackfillIsWritten(t);
    ReachesStep(s, t, Go);
    t := Apply(t, Go);
    VisitIsKilled(t);
    ReachesStep(s, t, Kill);
    t := Apply(t, Kill);
  }

  /** An object of another export is recorded before the row's export starts. */
  lemma ObjectGoesAstray(s: State, r: ObjectRecord) returns (id: string, t: State)
    requires Exports(s) && MayArrive(s.w, r) && RowStands(s) && s.h.objects == []
    requires s.pc.creation == s.w.group.value && Some(s.pc.confirmedAt) == Row(s).sub.confirmedAt
    ensures Reaches(s, t) && Misled(t, id, r)
    ensures t.h == s.h.(objects := [r], started := s.h.started + 1, unwritten := true)
    ensures Row(t).sub == Row(s).sub
  {
    ReachesItself(s);
    hide Reaches, Leads;
    var u := ObjectArrives(s, r);
    LeadsReaches(s, s, u, 0);
    id := FreshId(s.w.exports.Keys);
    t := ExportRuns(u, id);
    ReachesTransitive(s, u, t);
  }

  /** The next visit finds the export completed, and takes the stray object for its evidence. */
  lemma MisledCompletes(s: State, id: string, r: ObjectRecord) returns (t: State)
    requires Misled(s, id, r)
    ensures Reaches(s, t) && CompletesExport(t) && t.h.objects == [r] && Row(t).bf.taskId == Some(id)
    ensures t.h == s.h.(gapRisk := t.h.gapRisk, unwritten := t.h.unwritten, live := t.h.live)
    ensures Row(t).sub.confirmedAt == Row(s).sub.confirmedAt
  {
    hide Reaches, Leads, Enabled, Apply, DeliveryIsFresh;
    var a := FilterReturns(s);
    TaskIsCompleted(a, id);
    ReachesStep(s, a, TaskProgress(id, TaskCompleted));
    var b := Apply(a, TaskProgress(id, TaskCompleted));
    var c := FreshDeliveryArrives(b, Row(b).sub.confirmedAt.value);
    LeadsReaches(s, b, c, 0);
    t := VisitDecides(c);
    LeadsReaches(s, c, t, 1);
  }

  // ---- Resets that do not guarantee ----

  lemma RenewedForgets(h: History, w: World, creation: int)
    ensures var n := Renewed(h, w, creation);
      && n.objects == [] && n.started == 0 && !n.orphan && n.generation == h.generation + 1
      && n.earlier == w.exports.Keys && n.stale == Outstanding(w)
  {
    hide Outstanding;
  }

  /** The reset visit is about to export. */
  lemma ResetExports(before: State)
    requires Inv(before) && before.pc.WriteConfirmed? && before.pc.reset && CanExport(before)
    ensures var s := Apply(before, Go);
      && Exports(s) && RowStands(s) && s.pc.creation == s.w.group.value && s.pc.confirmedAt == before.pc.confirmedAt
      && Row(s).sub.confirmedAt == Some(s.pc.confirmedAt) && s.pc.current == Row(s)
      && Row(s).bf.status == Some(PENDING) && !Truthy(Row(s).bf.taskId)
      && s.w == before.w && s.h == Renewed(before.h, before.w, before.pc.creation)
  {
    hide Apply, Enabled, Renewed, ConfirmedRow;
    hide SubInv, GapInv, BackfillInv, ObjectInv, LiveInv, ReportInv, ExportInv, SourceInv, VanishedInv;
    RowIsConfirmed(before);
    ConfirmedAnew(before);
  }

  /** After a misleading reset, every object that may still arrive can become the only evidence, in
      a generation that loses no export. */
  lemma StrayEvidenceCompletes(before: State, r: ObjectRecord) returns (t: State)
    requires Inv(before) && before.pc.WriteConfirmed? && before.pc.reset && Misleading(before) && MayArrive(before.w, r)
    ensures Reaches(Apply(before, Go), t) && t.h.generation == before.h.generation + 1 && !t.h.orphan
    ensures CompletesExport(t) && t.h.objects == [r] && Some(r.taskId) != Row(t).bf.taskId
    ensures r.taskId in t.h.earlier && Row(t).sub.confirmedAt == Some(before.pc.confirmedAt)
  {
    hide Reaches, Apply, Outstanding, Inv, RowStands, Exports, CompletesExport, Renewed;
    var s := Apply(before, Go);
    ResetExports(before);
    RenewedForgets(before.h, before.w, before.pc.creation);
    var id, u := ObjectGoesAstray(s, r);
    t := MisledCompletes(u, id, r);
    ReachesTransitive(s, u, t);
  }

  /** The run dies before it has written down the export that it started. */
  lemma ExportGoesAstray(s: State, id: string) returns (t: State)
    requires Exports(s) && RowStands(s) && id != "" && id !in s.w.exports
    ensures Reaches(s, t) && t.pc == Idle && RowStands(t)
    ensures t.w == s.w.(exports := s.w.exports[id := Task(s.pc.creation, s.pc.confirmedAt, TaskActive)])
    ensures t.item == s.item && t.h == s.h.(started := s.h.started + 1, orphan := true, unwritten := true)
    ensures t.clock == s.clock
  {
    hide Reaches, Enabled, Apply;
    ReachesItself(s);
    ExportIsStarted(s, id);
    ReachesStep(s, s, ExportStarted(id));
    t := Apply(s, ExportStarted(id));
    ExportIsLost(t);
    ReachesStep(s, t, Kill);
    t := Apply(t, Kill);
  }

  /** Another visit comes to where the run died. */
  lemma VisitComesBack(s: State) returns (t: State)
    requires s.pc == Idle && RowStands(s) && s.w.group.value < Row(s).sub.confirmedAt.value
    requires Row(s).bf.status == Some(PENDING) && !Truthy(Row(s).bf.taskId)
    ensures Reaches(s, t) && Exports(t) && RowStands(t) && t.w.exports == s.w.exports
    ensures t.h == s.h.(gapRisk := t.h.gapRisk, unwritten := t.h.unwritten)
    ensures t.pc.creation == t.w.group.value && Some(t.pc.confirmedAt) == Row(t).sub.confirmedAt
    ensures Row(t).sub.confirmedAt == Row(s).sub.confirmedAt
  {
    hide Reaches, Leads, Recorded;
    var u := FilterReturns(s);
    t := VisitConfirmsAgain(u);
    LeadsReaches(s, u, t, 1);
  }

  /** After every reset of a generation that can export, one of its exports can get lost, and the
      next one complete on nothing but an object of that. */
  lemma LostEvidenceCompletes(before: State) returns (t: State)
    requires Inv(before) && before.pc.WriteConfirmed? && before.pc.reset && CanExport(before)
    ensures Reaches(Apply(before, Go), t) && t.h.generation == before.h.generation + 1
    ensures CompletesExport(t) && !OwnEvidence(t) && t.h.stale == Outstanding(before.w)
  {
    hide Reaches, Leads, Apply, Outstanding, Inv, RowStands, Exports, CompletesExport, Renewed;
    var s := Apply(before, Go);
    ResetExports(before);
    RenewedForgets(before.h, before.w, before.pc.creation);
    var lost := FreshId(before.w.exports.Keys);
    var u := ExportGoesAstray(s, lost);
    var v := VisitComesBack(u);
    ReachesTransitive(s, u, v);
    var r := ObjectRecord(0, "k", "x", "m", lost);
    var id, w := ObjectGoesAstray(v, r);
    ReachesTransitive(s, v, w);
    t := MisledCompletes(w, id, r);
    ReachesTransitive(s, w, t);
  }

  lemma ArrivingObject(before: State) returns (r: ObjectRecord)
    requires Inv(before) && before.pc.WriteConfirmed? && Misleading(before)
    ensures MayArrive(before.w, r)
  {
    hide Inv, Outstanding;
    r := OutstandingArrives(before);
  }

  lemma MisleadingBreaks(before: State)
    requires Inv(before) && before.pc.WriteConfirmed? && before.pc.reset && Misleading(before)
    ensures !GuaranteesGeneration(Apply(before, Go)) && !GuaranteesOwnUnlessLost(Apply(before, Go))
  {
    hide Inv, Apply, Outstanding, CompletesExport, Reaches, Misleading;
    ResetFacts(before);
    var r := ArrivingObject(before);
    var t := StrayEvidenceCompletes(before, r);
    assert r in t.h.objects && !HasRowsWindow(t, r.taskId);
    assert !OwnEvidence(t);
  }

  lemma LossBreaks(before: State)
    requires Inv(before) && before.pc.WriteConfirmed? && before.pc.reset && CanExport(before)
    ensures !GuaranteesOwn(Apply(before, Go))
  {
    hide Inv, Apply, Outstanding, CompletesExport, OwnEvidence, Reaches, CanExport;
    ResetFacts(before);
    var t := LostEvidenceCompletes(before);
  }

  // ---- Resets that do ----

  lemma QuietGuaranteesGeneration(before: State)
    requires Inv(before) && before.pc.WriteConfirmed? && before.pc.reset && !Misleading(before)
    requires OwnWindows(before.w.exports, before.h.earlier, Row(before).sub)
    ensures GuaranteesGeneration(Apply(before, Go))
  {
    hide Inv, Apply, Outstanding, CompletesExport, EvidenceOfGeneration, Reaches, OwnWindows;
    var s := Apply(before, Go);
    forall t | Reaches(s, t) && t.h.generation == s.h.generation && CompletesExport(t) ensures EvidenceOfGeneration(t) {
      CompletionAfterReset(before, t);
      WindowsAfterReset(before, t);
      WindowsGiveEvidence(t);
    }
  }

  lemma QuietGuaranteesOwn(before: State)
    requires Inv(before) && before.pc.WriteConfirmed? && before.pc.reset && !Misleading(before)
    ensures GuaranteesOwnUnlessLost(Apply(before, Go))
  {
    hide Inv, Apply, Outstanding, CompletesExport, OwnEvidence, Reaches;
    var s := Apply(before, Go);
    forall t | Reaches(s, t) && t.h.generation == s.h.generation && !t.h.orphan && CompletesExport(t)
      ensures OwnEvidence(t)
    {
      CompletionAfterReset(before, t);
      EvidenceIsOwn(t);
    }
  }

  lemma WithoutExportNothingCompletes(before: State)
    requires Inv(before) && before.pc.WriteConfirmed? && before.pc.reset && !CanExport(before)
    ensures GuaranteesOwn(Apply(before, Go))
  {
    hide Inv, Apply, Outstanding, CompletesExport, OwnEvidence, Reaches, CanExport;
    var s := Apply(before, Go);
    forall t | Reaches(s, t) && t.h.generation == s.h.generation ensures !CompletesExport(t) {
      CompletionAfterReset(before, t);
    }
  }

  // ---- Exactly when ----

  /** For every reachable reset: all completions of the generation that it starts are on evidence of
      its own exports, with exactly its window, if and only if the reset is not misleading. */
  lemma GenerationEvidenceExactly(init: State, steps: seq<Step>, before: State)
    requires Init(init) && Run(init, steps) == Some(before) && before.pc.WriteConfirmed? && before.pc.reset
    ensures GuaranteesGeneration(Apply(before, Go)) <==> !Misleading(before)
  {
    InitInv(init);
    InitHasWindows(init);
    hide Inv, Init, Apply, Run, OwnWindows, GuaranteesGeneration, Misleading;
    RunFromInv(init, steps);
    RunKeepsWindows(init, steps);
    if Misleading(before) {
      MisleadingBreaks(before);
    } else {
      QuietGuaranteesGeneration(before);
    }
  }

  /** All are on evidence of the very export that the row names if and only if there is none,
      because the log group is gone or the window is empty. */
  lemma OwnEvidenceExactly(init: State, steps: seq<Step>, before: State)
    requires Init(init) && Run(init, steps) == Some(before) && before.pc.WriteConfirmed? && before.pc.reset
    ensures GuaranteesOwn(Apply(before, Go)) <==> !CanExport(before)
  {
    hide Inv, Init, Apply, Run, GuaranteesOwn, CanExport;
    RunKeepsInv(init, steps);
    if CanExport(before) {
      LossBreaks(before);
    } else {
      WithoutExportNothingCompletes(before);
    }
  }

  /** Those in which no export of the generation was lost are, if and only if the reset is not
      misleading. */
  lemma OwnUnlessLostExactly(init: State, steps: seq<Step>, before: State)
    requires Init(init) && Run(init, steps) == Some(before) && before.pc.WriteConfirmed? && before.pc.reset
    ensures GuaranteesOwnUnlessLost(Apply(before, Go)) <==> !Misleading(before)
  {
    hide Inv, Init, Apply, Run, GuaranteesOwnUnlessLost, Misleading;
    RunKeepsInv(init, steps);
    if Misleading(before) {
      MisleadingBreaks(before);
    } else {
      QuietGuaranteesOwn(before);
    }
  }
}
