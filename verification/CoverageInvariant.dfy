/** The invariants of the coverage protocol, and that every step of anybody keeps them. */
module CoverageInvariant {
  import opened Basics
  import opened Telemetry
  import opened CoverageProtocol

  // ---- The invariants ----

  predicate ClockInv(clock: int, w: World) {
    && clock > 0
    && w.since <= clock
    && w.lastCreation <= clock
    && (w.group.Some? ==> w.group.value == w.lastCreation)
    && (w.group.None? ==> w.filters == [])
  }

  /** A confirmed row says when, for which log group creation, and for which filter value. */
  predicate SubInv(sub: Subscription, clock: int, lastCreation: int) {
    sub.confirmed == Some(true) ==>
      && sub.confirmedAt.Some? && 0 < sub.confirmedAt.value <= clock
      && sub.creationTime.Some? && sub.creationTime.value <= lastCreation
      && Recorded(sub).Some? && Recorded(sub).value.pattern == ""
  }

  predicate InWindow(pc: Pc) {
    (pc.ReadClock? || pc.WriteConfirmed?) && pc.putAt.Some?
  }

  /** The filter has been there since the confirmed time, unless a run stopped unsafely. */
  predicate GapInv(sub: Subscription, mine: Option<FilterValue>, since: int, clock: int, gapRisk: bool,
                   inWindow: bool) {
    var at := sub.confirmedAt.GetOr(0);
    sub.confirmed == Some(true) ==>
      && (gapRisk ==> at < clock)
      && (mine.Some? && mine == Recorded(sub) ==>
            && (!gapRisk && !inWindow ==> since <= at)
            && (gapRisk ==> at < since))
  }

  predicate BackfillInv(bf: Backfill, sub: Subscription, exports: map<string, Task>) {
    var started := Truthy(bf.taskId);
    && (started || bf.status == Some(COMPLETED) ==>
          && bf.from.Some? && bf.from == sub.creationTime
          && bf.to.Some? && bf.to == sub.confirmedAt)
    && (started ==>
          && bf.evidenceRequired == Some(true)
          && bf.from.value < bf.to.value
          && bf.taskId.value in exports
          && exports[bf.taskId.value].from == bf.from.value
          && exports[bf.taskId.value].to == bf.to.value)
    && (bf.status == Some(COMPLETED) ==>
          && bf.completedAt.Some? && bf.to.value <= bf.completedAt.value
          && if started then exports[bf.taskId.value].code == TaskCompleted
             else bf.evidenceRequired == Some(false) && bf.from.value >= bf.to.value)
    && (started && bf.status == Some(FAILED) ==> exports[bf.taskId.value].code == TaskFailed)
    && (started && bf.status == Some(CANCELLED) ==> exports[bf.taskId.value].code == TaskCancelled)
    && (started <==> bf.status in {Some(RUNNING), Some(FAILED), Some(CANCELLED)}
                     || (bf.status == Some(COMPLETED) && bf.evidenceRequired == Some(true)))
  }

  predicate ObjectInv(obj: BackfillObject, objects: seq<ObjectRecord>) {
    && obj.count.GetOr(0) == |objects|
    && (Truthy(obj.sha256) <==> objects != [])
    && (Truthy(obj.manifest) <==> objects != [])
    && (objects != [] ==>
          var last := objects[|objects| - 1];
          && obj.sha256 == Some(last.sha256) && obj.manifest == Some(last.manifest)
          && obj.key == Some(last.key) && obj.at == Some(last.at))
  }

  function SumEvents(live: seq<LiveRecord>): nat {
    if live == [] then 0 else SumEvents(live[..|live| - 1]) + live[|live| - 1].events
  }

  predicate LiveInv(live: Live, records: seq<LiveRecord>) {
    && live.objects.GetOr(0) == |records|
    && live.events.GetOr(0) == SumEvents(records)
    && (Truthy(live.sha256) <==> records != [])
    && (Truthy(live.manifest) <==> records != [])
    && (records != [] ==> LiveSeen(live, records[|records| - 1]))
  }

  predicate LiveSeen(live: Live, r: LiveRecord) {
    live.at == Some(r.at) && live.key == Some(r.key)
    && live.sha256 == Some(r.sha256) && live.manifest == Some(r.manifest)
  }

  /** What a copy of the row that the reconciler holds still says about the recorder's work. */
  predicate EvidenceHeld(row: Item, h: History) {
    && (Truthy(row.obj.sha256) ==> h.objects != [])
    && (Truthy(row.live.sha256) ==> exists r :: r in h.live && LiveSeen(row.live, r))
  }

  predicate PcInv(s: State) {
    var row := Row(s);
    var ours := Some(OurValue(s.cfg));
    match s.pc
    case Idle => true
    case DescribeGroup(now) => 0 < now <= s.clock
    case GetRow(now, group) => 0 < now <= s.clock && (group.Some? ==> group.value <= s.w.lastCreation)
    case WriteMissing(now) => true
    case DescribeFilters(now, creation, held) =>
      0 < now <= s.clock && creation <= s.w.lastCreation && RowOf(held).sub == row.sub && RowOf(held).bf == row.bf
    case WriteRefused(_, _, _) => true
    case PutFilter(now, creation, held) =>
      && 0 < now <= s.clock && creation <= s.w.lastCreation
      && RowOf(held).sub == row.sub && RowOf(held).bf == row.bf
      && Mine(s) != ours
    case ReadClock(now, creation, held, observed, putAt) =>
      && 0 < now <= s.clock && creation <= s.w.lastCreation
      && RowOf(held).sub == row.sub && RowOf(held).bf == row.bf
      && Some(observed) == ours
      && (putAt.Some? ==> PutInv(s, putAt.value))
    case WriteConfirmed(now, creation, observed, putAt, reset, confirmedAt) =>
      && 0 < now && 0 < confirmedAt <= s.clock && creation <= s.w.lastCreation
      && Some(observed) == ours
      && (putAt.Some? ==> reset && putAt.value <= confirmedAt && PutInv(s, putAt.value))
      && (reset && Mine(s) == ours ==> s.w.since <= confirmedAt)
      && (!reset ==> Confirmed(row) && row.sub.confirmedAt == Some(confirmedAt)
                     && row.sub.creationTime == Some(creation) && Recorded(row.sub) == ours)
    case StartBackfill(now, creation, confirmedAt, current) =>
      && VisitInv(s, confirmedAt) && row.sub.creationTime == Some(creation)
      && current.sub == row.sub && current.bf == row.bf && EvidenceHeld(current, s.h)
    case WriteBackfill(now, confirmedAt, patch, error) =>
      && VisitInv(s, confirmedAt)
      && BackfillInv(MergeBackfill(row.bf, patch), row.sub, s.w.exports)
      && (error != "" ==> MergeBackfill(row.bf, patch).status != Some(COMPLETED))
      && (patch.taskId.Some? ==> Truthy(patch.taskId) && !Truthy(row.bf.taskId))
      && (patch.status == Some(RUNNING) ==> patch.taskId.Some?)
    case WriteBackfillError(now, confirmedAt, error) =>
      VisitInv(s, confirmedAt) && row.bf.status != Some(COMPLETED)
    case WriteCoverage(now, confirmedAt, current) =>
      && VisitInv(s, confirmedAt)
      && current.sub == row.sub && current.bf == row.bf && EvidenceHeld(current, s.h)
    case Return(_, complete) =>
      complete ==> row.bf.status == Some(COMPLETED) && (row.bf.from.GetOr(0) < row.bf.to.GetOr(0) ==> s.h.objects != [])
    case WriteFailed(_, _) => true
  }

  predicate VisitInv(s: State, confirmedAt: int) {
    var sub := Row(s).sub;
    Confirmed(Row(s)) && sub.confirmedAt == Some(confirmedAt) && Recorded(sub) == Some(OurValue(s.cfg))
  }

  predicate PutInv(s: State, putAt: int) {
    && putAt <= s.clock
    && (Mine(s) == Some(OurValue(s.cfg)) ==> s.w.since == putAt)
    && (Attached(s) ==> Mine(s) == Some(OurValue(s.cfg)))
  }

  /** What the report says so far agrees with the ledger. */
  predicate ReportInv(rep: Report, pc: Pc, coverage: Option<Coverage>, reason: Option<string>, unwritten: bool) {
    var explained := reason.GetOr("") == rep.failed.GetOr("");
    && (rep.covered ==> rep.subscribed && rep.failed.None?)
    && (rep.subscribed ==> rep.matched)
    && match pc
       case Idle => unwritten || ((rep.covered <==> coverage == Some(Complete)) && explained)
       case Return(_, complete) =>
         && !rep.covered && explained
         && (complete <==> coverage == Some(Complete))
         && (complete ==> rep.subscribed && rep.failed.None?)
       case WriteFailed(_, failure) => rep.failed == Some(failure) && !rep.covered
       case WriteMissing(_) => rep.failed == Some("log_group_not_found") && !rep.covered
       case WriteRefused(_, refusal, _) => rep.failed == Some(refusal) && !rep.covered
       case ReadClock(_, _, _, _, _) => rep.subscribed && rep.failed.None? && !rep.covered
       case WriteConfirmed(_, _, _, _, _, _) => rep.subscribed && rep.failed.None? && !rep.covered
       case StartBackfill(_, _, _, _) => rep.subscribed && rep.failed.None? && !rep.covered && explained
       case WriteBackfill(_, _, _, _) => rep.subscribed && rep.failed.None? && !rep.covered && explained
       case WriteBackfillError(_, _, error) => rep.subscribed && rep.failed == Some(error) && !rep.covered
       case WriteCoverage(_, _, current) =>
         && rep.subscribed && !rep.covered && explained
         && (rep.failed.Some? ==> current.bf.status != Some(COMPLETED))
       case DescribeFilters(_, _, _) => rep.matched && rep.failed.None? && !rep.covered
       case PutFilter(_, _, _) => rep.matched && rep.failed.None? && !rep.covered
       case _ => rep.failed.None? && !rep.covered
  }

  /** Exports started since the last reset, unless one was lost before it was written down. */
  predicate ExportInv(s: State) {
    var unwritten := s.pc.WriteBackfill? && s.pc.patch.taskId.Some?;
    if s.h.orphan then s.h.started >= 1
    else s.h.started == if Truthy(Row(s).bf.taskId) || unwritten then 1 else 0
  }

  /** The exports that this generation has started and knows of. */
  function OwnExports(s: State): set<string> {
    if Truthy(Row(s).bf.taskId) then {Row(s).bf.taskId.value}
    else if s.pc.WriteBackfill? && s.pc.patch.taskId.Some? then {s.pc.patch.taskId.value}
    else {}
  }

  /** Where the recorded objects come from: the exports since the last reset, if none was outstanding then. */
  ghost predicate SourceInv(exports: map<string, Task>, outbox: multiset<ObjectRecord>, h: History, own: set<string>) {
    && (forall r :: r in outbox ==> r.taskId in exports && r.sha256 != "" && r.manifest != "")
    && (forall r :: r in h.objects ==> r.taskId in exports)
    && h.earlier <= exports.Keys
    && (!h.orphan ==> exports.Keys <= h.earlier + own)
    && (!h.stale ==>
          && (forall id :: id in h.earlier ==> exports[id].code != TaskActive)
          && (forall r :: r in outbox ==> r.taskId !in h.earlier)
          && (forall r :: r in h.objects ==> r.taskId !in h.earlier))
  }

  predicate OtherCreation(sub: Subscription, creation: Option<int>) {
    sub.creationTime.Some? && creation != sub.creationTime
  }

  /** A generation whose log group was gone when it started cannot complete an export. */
  predicate VanishedInv(vanished: bool, w: World, sub: Subscription, bf: Backfill, pc: Pc) {
    vanished ==>
      && OtherCreation(sub, w.group) && sub.creationTime.value <= w.lastCreation
      && (bf.status == Some(COMPLETED) ==> !Truthy(bf.taskId))
      && match pc
         case GetRow(_, group) => OtherCreation(sub, group)
         case DescribeFilters(_, creation, _) => OtherCreation(sub, Some(creation))
         case PutFilter(_, creation, _) => OtherCreation(sub, Some(creation))
         case ReadClock(_, creation, _, _, _) => OtherCreation(sub, Some(creation))
         case WriteConfirmed(_, creation, _, _, _, _) => OtherCreation(sub, Some(creation))
         case StartBackfill(_, _, _, _) => !Truthy(bf.taskId)
         case WriteBackfill(_, _, patch, _) =>
           MergeBackfill(bf, patch).status == Some(COMPLETED) ==> !Truthy(MergeBackfill(bf, patch).taskId)
         case _ => true
  }

  ghost predicate Inv(s: State) {
    && ClockInv(s.clock, s.w)
    && SubInv(Row(s).sub, s.clock, s.w.lastCreation)
    && GapInv(Row(s).sub, Mine(s), s.w.since, s.clock, s.h.gapRisk, InWindow(s.pc))
    && BackfillInv(Row(s).bf, Row(s).sub, s.w.exports)
    && ObjectInv(Row(s).obj, s.h.objects)
    && LiveInv(Row(s).live, s.h.live)
    && PcInv(s)
    && ReportInv(s.rep, s.pc, Row(s).meta.coverage, Row(s).meta.failureReason, s.h.unwritten)
    && ExportInv(s)
    && SourceInv(s.w.exports, s.w.outbox, s.h, OwnExports(s))
    && VanishedInv(s.h.vanished, s.w, Row(s).sub, Row(s).bf, s.pc)
  }

  lemma InitInv(s: State)
    requires Init(s)
    ensures Inv(s)
  {
  }

  // ---- Steps of the others ----

  lemma TickKeepsInv(s: State, ms: nat)
    requires Inv(s)
    ensures Inv(Apply(s, Tick(ms)))
  {
    hide BackfillInv, ObjectInv, LiveInv, ReportInv, SourceInv, VanishedInv;
  }

  lemma FiltersKeepInv(s: State, filters: seq<Filter>)
    requires Inv(s) && Enabled(s, OthersSetFilters(filters))
    ensures Inv(Apply(s, OthersSetFilters(filters)))
  {
    hide BackfillInv, ObjectInv, LiveInv, ReportInv, SourceInv;
  }

  lemma DeleteGroupKeepsInv(s: State)
    requires Inv(s) && Enabled(s, DeleteGroup)
    ensures Inv(Apply(s, DeleteGroup))
  {
    hide BackfillInv, ObjectInv, LiveInv, ReportInv, SourceInv;
  }

  lemma CreateGroupKeepsInv(s: State)
    requires Inv(s) && Enabled(s, CreateGroup)
    ensures Inv(Apply(s, CreateGroup))
  {
    hide BackfillInv, ObjectInv, LiveInv, ReportInv, SourceInv;
  }

  lemma ProgressKeepsBackfill(bf: Backfill, sub: Subscription, exports: map<string, Task>, taskId: string,
                              code: TaskCode)
    requires BackfillInv(bf, sub, exports) && taskId in exports && exports[taskId].code == TaskActive
    ensures BackfillInv(bf, sub, exports[taskId := exports[taskId].(code := code)])
  {
  }

  lemma TaskProgressKeepsPc(s: State, taskId: string, code: TaskCode)
    requires PcInv(s) && Enabled(s, TaskProgress(taskId, code))
    ensures PcInv(Apply(s, TaskProgress(taskId, code)))
  {
    hide BackfillInv, EvidenceHeld, Find, UnsafeStop;
    if s.pc.WriteBackfill? {
      ProgressKeepsBackfill(MergeBackfill(Row(s).bf, s.pc.patch), Row(s).sub, s.w.exports, taskId, code);
    }
  }

  lemma TaskProgressKeepsInv(s: State, taskId: string, code: TaskCode)
    requires Inv(s) && Enabled(s, TaskProgress(taskId, code))
    ensures Inv(Apply(s, TaskProgress(taskId, code)))
  {
    hide SubInv, GapInv, BackfillInv, ObjectInv, LiveInv, PcInv, ReportInv, SourceInv;
    ProgressKeepsBackfill(Row(s).bf, Row(s).sub, s.w.exports, taskId, code);
    TaskProgressKeepsPc(s, taskId, code);
    ProgressKeepsSource(s.w.exports, s.w.outbox, s.h, OwnExports(s), taskId, code);
  }

  lemma WritingKeepsSource(exports: map<string, Task>, outbox: multiset<ObjectRecord>, h: History, own: set<string>,
                           r: ObjectRecord)
    requires SourceInv(exports, outbox, h, own) && r.taskId in exports && exports[r.taskId].code == TaskActive
    requires r.sha256 != "" && r.manifest != ""
    ensures SourceInv(exports, outbox + multiset{r}, h, own)
  {
  }

  lemma ExportWritesKeepsPc(s: State, r: ObjectRecord)
    requires PcInv(s) && Enabled(s, ExportWrites(r))
    ensures PcInv(Apply(s, ExportWrites(r)))
  {
    hide BackfillInv, EvidenceHeld, Find, UnsafeStop;
  }

  lemma ExportWritesKeepsInv(s: State, r: ObjectRecord)
    requires Inv(s) && Enabled(s, ExportWrites(r))
    ensures Inv(Apply(s, ExportWrites(r)))
  {
    hide SubInv, GapInv, BackfillInv, ObjectInv, LiveInv, PcInv, ReportInv, SourceInv;
    ExportWritesKeepsPc(s, r);
    WritingKeepsSource(s.w.exports, s.w.outbox, s.h, OwnExports(s), r);
  }

  lemma ProgressKeepsSource(exports: map<string, Task>, outbox: multiset<ObjectRecord>, h: History, own: set<string>,
                            taskId: string, code: TaskCode)
    requires SourceInv(exports, outbox, h, own) && taskId in exports && exports[taskId].code == TaskActive
    ensures SourceInv(exports[taskId := exports[taskId].(code := code)], outbox, h, own)
  {
  }

  lemma RenewingKeepsSource(w: World, h: History, own: set<string>, creation: int)
    requires SourceInv(w.exports, w.outbox, h, own)
    ensures SourceInv(w.exports, w.outbox, Renewed(h, w, creation), {})
  {
  }

  lemma StoppingKeepsSource(exports: map<string, Task>, outbox: multiset<ObjectRecord>, h: History, own: set<string>,
                            h': History, own': set<string>)
    requires SourceInv(exports, outbox, h, own)
    requires h'.objects == h.objects && h'.earlier == h.earlier && h'.stale == h.stale
    requires h'.orphan || (!h.orphan && own' == own)
    ensures SourceInv(exports, outbox, h', own')
  {
  }

  lemma RecordingKeepsSource(exports: map<string, Task>, outbox: multiset<ObjectRecord>, h: History,
                             own: set<string>, r: ObjectRecord)
    requires SourceInv(exports, outbox, h, own) && r in outbox
    ensures SourceInv(exports, outbox - multiset{r}, h.(objects := h.objects + [r]), own)
  {
  }

  lemma RunBoundaryKeepsInv(s: State, step: Step)
    requires Inv(s) && Enabled(s, step) && (step.Reconfigure? || step.Begin?)
    ensures Inv(Apply(s, step))
  {
    hide SubInv, BackfillInv, ObjectInv, LiveInv, Find;
  }

  lemma RecordingKeepsLive(row: Item, live: seq<LiveRecord>, r: LiveRecord)
    requires LiveInv(row.live, live) && r.sha256 != "" && r.manifest != ""
    ensures LiveInv(RecordedLive(row, r).live, live + [r])
  {
    assert (live + [r])[..|live|] == live;
  }

  /** A delivery leaves alone what the reconciler holds of the row. */
  lemma RecordLiveKeepsPc(s: State, r: LiveRecord)
    requires PcInv(s) && Enabled(s, RecordLive(r))
    ensures PcInv(Apply(s, RecordLive(r)))
  {
    hide OthersMaySet, UnsafeStop, BackfillInv, Find;
  }

  lemma RecordLiveKeepsSource(s: State, r: LiveRecord)
    requires SourceInv(s.w.exports, s.w.outbox, s.h, OwnExports(s)) && Enabled(s, RecordLive(r))
    ensures var t := Apply(s, RecordLive(r)); SourceInv(t.w.exports, t.w.outbox, t.h, OwnExports(t))
  {
  }

  lemma RecordLiveKeepsInv(s: State, r: LiveRecord)
    requires Inv(s) && Enabled(s, RecordLive(r))
    ensures Inv(Apply(s, RecordLive(r)))
  {
    hide ClockInv, SubInv, GapInv, BackfillInv, ObjectInv, LiveInv, PcInv, ReportInv, SourceInv, VanishedInv;
    RecordingKeepsLive(Row(s), s.h.live, r);
    RecordLiveKeepsPc(s, r);
    RecordLiveKeepsSource(s, r);
  }

  lemma RecordObjectKeepsPc(s: State, r: ObjectRecord)
    requires PcInv(s) && Enabled(s, RecordObject(r))
    ensures PcInv(Apply(s, RecordObject(r)))
  {
    hide BackfillInv, Find, UnsafeStop;
  }

  lemma RecordObjectKeepsInv(s: State, r: ObjectRecord)
    requires Inv(s) && Enabled(s, RecordObject(r))
    ensures Inv(Apply(s, RecordObject(r)))
  {
    hide SubInv, GapInv, BackfillInv, LiveInv, PcInv, ReportInv, SourceInv;
    RecordObjectKeepsPc(s, r);
    RecordingKeepsSource(s.w.exports, s.w.outbox, s.h, OwnExports(s), r);
    assert RecordedObject(Row(s), r).sub == Row(s).sub;
  }

  lemma KillKeepsInv(s: State)
    requires Inv(s) && Enabled(s, Kill)
    ensures Inv(Apply(s, Kill))
  {
    hide ClockInv, SubInv, BackfillInv, ObjectInv, LiveInv;
  }

  /** The error-path write itself raised, and that exception is swallowed. */
  lemma RaiseAgainKeepsInv(s: State, reason: string)
    requires Inv(s) && Enabled(s, Raise(reason)) && s.pc.WriteFailed?
    ensures Inv(Apply(s, Raise(reason)))
  {
    hide ClockInv, SubInv, BackfillInv, ObjectInv, LiveInv;
  }

  lemma RaiseKeepsInv(s: State, reason: string)
    requires Inv(s) && Enabled(s, Raise(reason)) && !s.pc.WriteFailed?
    ensures Inv(Apply(s, Raise(reason)))
  {
    hide ClockInv, SubInv, BackfillInv, ObjectInv, LiveInv, SourceInv;
    var t := Apply(s, Raise(reason));
    StoppingKeepsSource(s.w.exports, s.w.outbox, s.h, OwnExports(s), t.h, OwnExports(t));
  }

  lemma StartingKeepsSource(exports: map<string, Task>, outbox: multiset<ObjectRecord>, h: History, taskId: string,
                            task: Task)
    requires SourceInv(exports, outbox, h, {}) && taskId !in exports
    ensures SourceInv(exports[taskId := task], outbox, h.(started := h.started + 1), {taskId})
  {
  }

  lemma ExportStartedKeepsPc(s: State, taskId: string)
    requires Inv(s) && Enabled(s, ExportStarted(taskId))
    ensures PcInv(Apply(s, ExportStarted(taskId)))
    ensures !Truthy(Row(s).bf.taskId) && Row(s).bf.status != Some(COMPLETED)
  {
    hide ClockInv, SubInv, GapInv, ObjectInv, LiveInv, ReportInv, ExportInv, SourceInv, VanishedInv, EvidenceHeld, Find;
  }

  lemma FilteredKeepsWorld(s: State)
    ensures var w := Filtered(s);
      w == s.w.(filters := w.filters, since := s.clock)
  {
  }

  lemma PutUnansweredKeepsGap(s: State, reason: string)
    requires Inv(s) && Enabled(s, PutUnanswered(reason))
    ensures var t := Apply(s, PutUnanswered(reason));
      GapInv(Row(t).sub, Mine(t), t.w.since, t.clock, t.h.gapRisk, InWindow(t.pc))
  {
    hide BackfillInv, ObjectInv, LiveInv, ReportInv, ExportInv, SourceInv, VanishedInv, EvidenceHeld;
  }

  lemma PutUnansweredKeepsReport(s: State, reason: string)
    requires Inv(s) && Enabled(s, PutUnanswered(reason))
    ensures var t := Apply(s, PutUnanswered(reason));
      && ReportInv(t.rep, t.pc, Row(t).meta.coverage, Row(t).meta.failureReason, t.h.unwritten)
      && VanishedInv(t.h.vanished, t.w, Row(t).sub, Row(t).bf, t.pc) && ExportInv(t) && OwnExports(t) == OwnExports(s)
  {
    hide ClockInv, SubInv, GapInv, BackfillInv, ObjectInv, LiveInv, PcInv, SourceInv, Put, UnsafePut;
  }

  /** The filter is put although the call raises. */
  lemma PutUnansweredKeepsInv(s: State, reason: string)
    requires Inv(s) && Enabled(s, PutUnanswered(reason))
    ensures Inv(Apply(s, PutUnanswered(reason)))
  {
    var t := Apply(s, PutUnanswered(reason));
    StoppingKeepsSource(s.w.exports, s.w.outbox, s.h, OwnExports(s), t.h, OwnExports(t));
    PutUnansweredKeepsGap(s, reason);
    PutUnansweredKeepsReport(s, reason);
    hide SubInv, GapInv, BackfillInv, ObjectInv, LiveInv, ReportInv, ExportInv, SourceInv, VanishedInv;
    hide Filtered, UnsafePut, Find, OwnExports;
    assert t.w == Filtered(s);
    FilteredKeepsWorld(s);
  }

  lemma LosingKeepsSource(exports: map<string, Task>, outbox: multiset<ObjectRecord>, h: History, own: set<string>,
                          taskId: string, task: Task)
    requires SourceInv(exports, outbox, h, own) && taskId !in exports
    ensures SourceInv(exports[taskId := task], outbox, h.(started := h.started + 1, orphan := true), own)
  {
  }

  lemma LosingKeepsBackfill(bf: Backfill, sub: Subscription, exports: map<string, Task>, taskId: string, task: Task)
    requires BackfillInv(bf, sub, exports) && taskId !in exports
    ensures BackfillInv(bf, sub, exports[taskId := task])
  {
  }

  lemma ExportUnansweredKeepsReport(s: State, taskId: string, error: string)
    requires Inv(s) && Enabled(s, ExportUnanswered(taskId, error))
    ensures var t := Apply(s, ExportUnanswered(taskId, error));
      && ReportInv(t.rep, t.pc, Row(t).meta.coverage, Row(t).meta.failureReason, t.h.unwritten)
      && VanishedInv(t.h.vanished, t.w, Row(t).sub, Row(t).bf, t.pc) && ExportInv(t)
  {
    hide ClockInv, SubInv, GapInv, BackfillInv, ObjectInv, LiveInv, PcInv, SourceInv, PlanBackfill, Find;
  }

  lemma ExportUnansweredKeepsPc(s: State, taskId: string, error: string)
    requires Inv(s) && Enabled(s, ExportUnanswered(taskId, error))
    ensures PcInv(Apply(s, ExportUnanswered(taskId, error)))
    ensures OwnExports(Apply(s, ExportUnanswered(taskId, error))) == OwnExports(s)
  {
    hide ClockInv, SubInv, GapInv, BackfillInv, ObjectInv, LiveInv, ReportInv, ExportInv, SourceInv, VanishedInv;
    hide EvidenceHeld, Find;
  }

  /** The export starts although the call is refused. */
  lemma ExportUnansweredKeepsInv(s: State, taskId: string, error: string)
    requires Inv(s) && Enabled(s, ExportUnanswered(taskId, error))
    ensures Inv(Apply(s, ExportUnanswered(taskId, error)))
  {
    LosingKeepsSource(s.w.exports, s.w.outbox, s.h, OwnExports(s), taskId,
                      Task(s.pc.creation, s.pc.confirmedAt, TaskActive));
    LosingKeepsBackfill(Row(s).bf, Row(s).sub, s.w.exports, taskId, Task(s.pc.creation, s.pc.confirmedAt, TaskActive));
    ExportUnansweredKeepsPc(s, taskId, error);
    ExportUnansweredKeepsReport(s, taskId, error);
    hide ClockInv, SubInv, GapInv, BackfillInv, ObjectInv, LiveInv, ReportInv, ExportInv, SourceInv, VanishedInv;
    hide PcInv, PlanBackfill, Find, OwnExports;
  }

  lemma ExportStartedKeepsReport(s: State, taskId: string)
    requires Inv(s) && Enabled(s, ExportStarted(taskId))
    ensures var t := Apply(s, ExportStarted(taskId));
      && ReportInv(t.rep, t.pc, Row(t).meta.coverage, Row(t).meta.failureReason, t.h.unwritten)
      && VanishedInv(t.h.vanished, t.w, Row(t).sub, Row(t).bf, t.pc)
  {
    hide ClockInv, SubInv, GapInv, BackfillInv, ObjectInv, LiveInv, PcInv, ExportInv, SourceInv, PlanBackfill, Find;
  }

  lemma ExportStartedKeepsInv(s: State, taskId: string)
    requires Inv(s) && Enabled(s, ExportStarted(taskId))
    ensures Inv(Apply(s, ExportStarted(taskId)))
  {
    ExportStartedKeepsPc(s, taskId);
    ExportStartedKeepsReport(s, taskId);
    hide ClockInv, SubInv, GapInv, ObjectInv, LiveInv, ReportInv, SourceInv, VanishedInv, PcInv, PlanBackfill, Find;
    StartingKeepsSource(s.w.exports, s.w.outbox, s.h, taskId, Task(s.pc.creation, s.pc.confirmedAt, TaskActive));
  }

  lemma NoExportKeepsPc(s: State, step: Step)
    requires BackfillInv(Row(s).bf, Row(s).sub, s.w.exports) && PcInv(s) && Enabled(s, step)
    requires step.TaskUnseen? || step.ExportLimited? || step.ExportDenied?
    ensures PcInv(Apply(s, step))
  {
    hide Find, UnsafeStop, EvidenceHeld;
  }

  lemma NoExportKeepsReport(s: State, step: Step)
    requires Inv(s) && Enabled(s, step) && (step.TaskUnseen? || step.ExportLimited? || step.ExportDenied?)
    ensures var t := Apply(s, step);
      ReportInv(t.rep, t.pc, Row(t).meta.coverage, Row(t).meta.failureReason, t.h.unwritten)
  {
    hide ClockInv, SubInv, GapInv, ObjectInv, LiveInv, ExportInv, SourceInv, VanishedInv, BackfillInv, EvidenceHeld;
  }

  lemma NoExportKeepsExports(s: State, step: Step)
    requires Inv(s) && Enabled(s, step) && (step.TaskUnseen? || step.ExportLimited? || step.ExportDenied?)
    ensures var t := Apply(s, step);
      ExportInv(t) && VanishedInv(t.h.vanished, t.w, Row(t).sub, Row(t).bf, t.pc) && OwnExports(t) == OwnExports(s)
  {
    hide ClockInv, SubInv, GapInv, BackfillInv, ObjectInv, LiveInv, PcInv, ReportInv, SourceInv, PlanBackfill;
  }

  lemma NoExportKeepsInv(s: State, step: Step)
    requires Inv(s) && Enabled(s, step) && (step.TaskUnseen? || step.ExportLimited? || step.ExportDenied?)
    ensures Inv(Apply(s, step))
  {
    NoExportKeepsPc(s, step);
    NoExportKeepsReport(s, step);
    NoExportKeepsExports(s, step);
    hide ClockInv, SubInv, GapInv, BackfillInv, ObjectInv, LiveInv, PcInv, ReportInv, ExportInv, SourceInv;
    hide VanishedInv, OwnExports, PlanBackfill, Find;
  }

  // ---- Steps of the reconciler ----

  lemma DescribeGroupKeepsInv(s: State)
    requires Inv(s) && Enabled(s, Go) && s.pc.DescribeGroup?
    ensures Inv(Apply(s, Go))
  {
    hide SubInv, GapInv, BackfillInv, ObjectInv, LiveInv, SourceInv;
  }

  lemma NoGroupKeepsInv(s: State)
    requires Inv(s) && Enabled(s, Go) && s.pc.GetRow? && s.pc.group.None?
    ensures Inv(Apply(s, Go))
  {
    hide ClockInv, SubInv, GapInv, BackfillInv, ObjectInv, LiveInv, SourceInv;
  }

  lemma SomeGroupKeepsInv(s: State)
    requires Inv(s) && Enabled(s, Go) && s.pc.GetRow? && s.pc.group.Some?
    ensures Inv(Apply(s, Go))
  {
    hide ClockInv, SubInv, GapInv, BackfillInv, ObjectInv, LiveInv, SourceInv;
  }

  lemma OwnedKeepsInv(s: State)
    requires Inv(s) && Enabled(s, Go) && s.pc.DescribeFilters?
    requires Inspect(s.w.filters, FilterName(s.cfg, s.name), s.cfg).Owned?
    ensures Inv(Apply(s, Go))
  {
    hide ClockInv, SubInv, BackfillInv, ObjectInv, LiveInv, SourceInv;
  }

  lemma RefusedKeepsInv(s: State)
    requires Inv(s) && Enabled(s, Go) && s.pc.DescribeFilters?
    requires Inspect(s.w.filters, FilterName(s.cfg, s.name), s.cfg).Refused?
    ensures Inv(Apply(s, Go))
  {
    hide ClockInv, SubInv, BackfillInv, ObjectInv, LiveInv, SourceInv;
  }

  lemma NeedsFilterKeepsInv(s: State)
    requires Inv(s) && Enabled(s, Go) && s.pc.DescribeFilters?
    requires Inspect(s.w.filters, FilterName(s.cfg, s.name), s.cfg).NeedsFilter?
    ensures Inv(Apply(s, Go))
  {
    hide ClockInv, SubInv, BackfillInv, ObjectInv, LiveInv, SourceInv;
  }

  lemma PutFilterKeepsInv(s: State)
    requires Inv(s) && Enabled(s, Go) && s.pc.PutFilter?
    ensures Inv(Apply(s, Go))
  {
    hide SubInv, BackfillInv, ObjectInv, LiveInv, SourceInv;
  }

  lemma FailureWriteKeepsInv(s: State)
    requires Inv(s) && Enabled(s, Go) && (s.pc.WriteMissing? || s.pc.WriteFailed?)
    ensures Inv(Apply(s, Go))
  {
    hide ClockInv, SubInv, GapInv, BackfillInv, ObjectInv, LiveInv, SourceInv;
  }

  lemma WriteRefusedKeepsInv(s: State)
    requires Inv(s) && Enabled(s, Go) && s.pc.WriteRefused?
    ensures Inv(Apply(s, Go))
  {
    hide ClockInv, ObjectInv, LiveInv, SourceInv;
  }

  lemma WriteBackfillErrorKeepsInv(s: State)
    requires Inv(s) && Enabled(s, Go) && s.pc.WriteBackfillError?
    ensures Inv(Apply(s, Go))
  {
    hide ClockInv, SubInv, GapInv, BackfillInv, SourceInv;
  }

  lemma ReadClockKeepsInv(s: State)
    requires Inv(s) && Enabled(s, Go) && s.pc.ReadClock?
    ensures Inv(Apply(s, Go))
  {
    hide BackfillInv, ObjectInv, LiveInv, SourceInv;
  }

  lemma ConfirmResetKeepsPc(s: State)
    requires Inv(s) && Enabled(s, Go) && s.pc.WriteConfirmed? && s.pc.reset
    ensures PcInv(Apply(s, Go))
  {
    hide ClockInv, SubInv, GapInv, BackfillInv, ObjectInv, ReportInv, ExportInv, SourceInv, VanishedInv;
    hide Outstanding, Find, SumEvents;
  }

  lemma ConfirmResetKeepsFilter(s: State)
    requires Inv(s) && Enabled(s, Go) && s.pc.WriteConfirmed? && s.pc.reset
    ensures var t := Apply(s, Go);
      && SubInv(Row(t).sub, t.clock, t.w.lastCreation)
      && GapInv(Row(t).sub, Mine(t), t.w.since, t.clock, t.h.gapRisk, InWindow(t.pc))
      && VanishedInv(t.h.vanished, t.w, Row(t).sub, Row(t).bf, t.pc)
  {
    hide BackfillInv, ObjectInv, LiveInv, ReportInv, ExportInv, SourceInv, Outstanding, Find;
  }

  lemma ConfirmResetKeepsInv(s: State)
    requires Inv(s) && Enabled(s, Go) && s.pc.WriteConfirmed? && s.pc.reset
    ensures Inv(Apply(s, Go))
  {
    ConfirmResetKeepsPc(s);
    ConfirmResetKeepsFilter(s);
    hide SubInv, GapInv, PcInv, SourceInv, VanishedInv, LiveInv, Outstanding, Find;
    RenewingKeepsSource(s.w, s.h, OwnExports(s), s.pc.creation);
  }

  lemma ConfirmAgainKeepsInv(s: State)
    requires Inv(s) && Enabled(s, Go) && s.pc.WriteConfirmed? && !s.pc.reset
    ensures Inv(Apply(s, Go))
  {
    hide SourceInv;
  }

  lemma PollActiveKeepsInv(s: State)
    requires Inv(s) && Enabled(s, Go) && s.pc.StartBackfill?
    requires PlanBackfill(s.pc.current.bf, s.pc.creation, s.pc.confirmedAt).Poll?
    requires s.w.exports[s.pc.current.bf.taskId.value].code == TaskActive
    ensures Inv(Apply(s, Go))
  {
    hide ClockInv, SubInv, GapInv, ObjectInv, LiveInv, SourceInv;
  }

  lemma PollEndedKeepsInv(s: State)
    requires Inv(s) && Enabled(s, Go) && s.pc.StartBackfill?
    requires PlanBackfill(s.pc.current.bf, s.pc.creation, s.pc.confirmedAt).Poll?
    requires s.w.exports[s.pc.current.bf.taskId.value].code != TaskActive
    ensures Inv(Apply(s, Go))
  {
    hide ClockInv, GapInv, ObjectInv, LiveInv, SourceInv;
  }

  lemma NoPollKeepsInv(s: State)
    requires Inv(s) && Enabled(s, Go) && s.pc.StartBackfill?
    requires !PlanBackfill(s.pc.current.bf, s.pc.creation, s.pc.confirmedAt).Poll?
    ensures Inv(Apply(s, Go))
  {
    hide ClockInv, SubInv, GapInv, ObjectInv, LiveInv, SourceInv;
  }

  lemma WriteBackfillKeepsPc(s: State)
    requires Inv(s) && Enabled(s, Go) && s.pc.WriteBackfill?
    ensures PcInv(Apply(s, Go)) && OwnExports(Apply(s, Go)) == OwnExports(s)
  {
    hide ClockInv, SubInv, GapInv, BackfillInv, ReportInv, ExportInv, SourceInv, VanishedInv, SumEvents, Find;
  }

  lemma WriteBackfillKeepsInv(s: State)
    requires Inv(s) && Enabled(s, Go) && s.pc.WriteBackfill?
    ensures Inv(Apply(s, Go))
  {
    WriteBackfillKeepsPc(s);
    hide ClockInv, SubInv, GapInv, ObjectInv, LiveInv, SourceInv, Find;
  }

  lemma WriteCoverageKeepsInv(s: State)
    requires Inv(s) && Enabled(s, Go) && (s.pc.WriteCoverage? || s.pc.Return?)
    ensures Inv(Apply(s, Go))
  {
    hide ClockInv, SubInv, GapInv, ObjectInv, LiveInv, SourceInv, DeliveryIsFresh, Find, Inspect;
  }

  lemma ReconcilerKeepsInv(s: State)
    requires Inv(s) && Enabled(s, Go)
    ensures Inv(Apply(s, Go))
  {
    hide Inv, Apply, Advance;
    match s.pc {
      case DescribeGroup(_) => DescribeGroupKeepsInv(s);
      case GetRow(_, group) => if group.None? { NoGroupKeepsInv(s); } else { SomeGroupKeepsInv(s); }
      case DescribeFilters(_, _, _) =>
        match Inspect(s.w.filters, FilterName(s.cfg, s.name), s.cfg) {
          case Owned(_) => OwnedKeepsInv(s);
          case Refused(_, _) => RefusedKeepsInv(s);
          case NeedsFilter => NeedsFilterKeepsInv(s);
        }
      case PutFilter(_, _, _) => PutFilterKeepsInv(s);
      case WriteMissing(_) => FailureWriteKeepsInv(s);
      case WriteFailed(_, _) => FailureWriteKeepsInv(s);
      case WriteRefused(_, _, _) => WriteRefusedKeepsInv(s);
      case WriteBackfillError(_, _, _) => WriteBackfillErrorKeepsInv(s);
      case ReadClock(_, _, _, _, _) => ReadClockKeepsInv(s);
      case WriteConfirmed(_, _, _, _, reset, _) =>
        if reset { ConfirmResetKeepsInv(s); } else { ConfirmAgainKeepsInv(s); }
      case StartBackfill(_, creation, confirmedAt, current) =>
        if !PlanBackfill(current.bf, creation, confirmedAt).Poll? { NoPollKeepsInv(s); }
        else if s.w.exports[current.bf.taskId.value].code == TaskActive { PollActiveKeepsInv(s); }
        else { PollEndedKeepsInv(s); }
      case WriteBackfill(_, _, _, _) => WriteBackfillKeepsInv(s);
      case WriteCoverage(_, _, _) => WriteCoverageKeepsInv(s);
      case Return(_, _) => WriteCoverageKeepsInv(s);
    }
  }

  lemma StepKeepsInv(s: State, step: Step)
    requires Inv(s) && Enabled(s, step)
    ensures Inv(Apply(s, step))
  {
    hide Inv, Apply;
    match step {
      case Tick(ms) => TickKeepsInv(s, ms);
      case OthersSetFilters(filters) => FiltersKeepInv(s, filters);
      case DeleteGroup => DeleteGroupKeepsInv(s);
      case CreateGroup => CreateGroupKeepsInv(s);
      case TaskProgress(taskId, code) => TaskProgressKeepsInv(s, taskId, code);
      case ExportWrites(r) => ExportWritesKeepsInv(s, r);
      case Reconfigure(_) => RunBoundaryKeepsInv(s, step);
      case Begin(_) => RunBoundaryKeepsInv(s, step);
      case RecordLive(r) => RecordLiveKeepsInv(s, r);
      case RecordObject(r) => RecordObjectKeepsInv(s, r);
      case Go => ReconcilerKeepsInv(s);
      case ExportStarted(taskId) => ExportStartedKeepsInv(s, taskId);
      case PutUnanswered(reason) => PutUnansweredKeepsInv(s, reason);
      case ExportUnanswered(taskId, error) => ExportUnansweredKeepsInv(s, taskId, error);
      case Kill => KillKeepsInv(s);
      case Raise(reason) =>
        if s.pc.WriteFailed? { RaiseAgainKeepsInv(s, reason); } else { RaiseKeepsInv(s, reason); }
      case _ => NoExportKeepsInv(s, step);
    }
  }

  lemma {:induction false} RunFromInv(s: State, steps: seq<Step>)
    requires Inv(s) && Run(s, steps).Some?
    ensures Inv(Run(s, steps).value)
  {
    if steps != [] {
      var before := steps[..|steps| - 1];
      RunFromInv(s, before);
      StepKeepsInv(Run(s, before).value, steps[|steps| - 1]);
    }
  }

  /** Every reachable state satisfies the invariants. */
  lemma RunKeepsInv(s: State, steps: seq<Step>)
    requires Init(s) && Run(s, steps).Some?
    ensures Inv(Run(s, steps).value)
  {
    InitInv(s);
    RunFromInv(s, steps);
  }
}
