/**
  The coverage protocol of one log group as a state machine. The reconciler makes one step
  for each call to CloudWatch Logs or to the ledger; between any two of its steps the clock
  may advance, others may change the filters, the log group may be deleted and created again,
  an export may write objects or end, and the recorder may write to the same ledger row. The reconciler
  may raise or be killed at every step.
 */
module CoverageProtocol {
  import opened Basics
  import opened Telemetry

  datatype Task = Task(from: int, to: int, code: TaskCode)

  /** The log group as CloudWatch Logs holds it. `since` is when our filter got its value, and
      `outbox` holds the deliveries to come: one for each time that the recorder will still be
      told of an object that an export has written. */
  datatype World = World(
    group: Option<int>,
    lastCreation: int,
    filters: seq<Filter>,
    since: int,
    exports: map<string, Task>,
    outbox: multiset<ObjectRecord>)

  datatype LiveRecord = LiveRecord(at: int, key: string, sha256: string, manifest: string, events: nat)

  /** A backfill object as the recorder records it; `taskId` is the export that wrote it, which
      the recorder does not see. */
  datatype ObjectRecord = ObjectRecord(at: int, key: string, sha256: string, manifest: string, taskId: string)

  /** The call that the reconciler makes next, with the locals it still needs. */
  datatype Pc =
    | Idle
    | DescribeGroup(now: int)
    | GetRow(now: int, group: Option<int>)
    | WriteMissing(now: int)
    | DescribeFilters(now: int, creation: int, row: Option<Item>)
    | WriteRefused(now: int, reason: string, observed: FilterValue)
    | PutFilter(now: int, creation: int, row: Option<Item>)
    | ReadClock(now: int, creation: int, row: Option<Item>, observed: FilterValue, putAt: Option<int>)
    | WriteConfirmed(now: int, creation: int, observed: FilterValue, putAt: Option<int>,
                     reset: bool, confirmedAt: int)
    | StartBackfill(now: int, creation: int, confirmedAt: int, current: Item)
    | WriteBackfill(now: int, confirmedAt: int, patch: Backfill, error: string)
    | WriteBackfillError(now: int, confirmedAt: int, error: string)
    | WriteCoverage(now: int, confirmedAt: int, current: Item)
    | Return(now: int, complete: bool)
    | WriteFailed(now: int, reason: string)

  /** What the run reports about this group. */
  datatype Report = Report(matched: bool, subscribed: bool, covered: bool, failed: Option<string>, drift: bool)

  /** What happened so far; no step of the program reads it.
      `gapRisk`: a step was `Unsafe` since the last reset.
      `unwritten`: the last run ended without its error-path write.
      `orphan`: an export was started since the last reset and never written to the row.
      `generation`: the number of resets. The rest is about the last one:
      `earlier`: the exports that had been started before it.
      `stale`: objects of those were still to come.
      `vanished`: the log group that it confirmed was already gone. */
  datatype History = History(
    live: seq<LiveRecord>,
    objects: seq<ObjectRecord>,
    started: nat,
    orphan: bool,
    gapRisk: bool,
    unwritten: bool,
    generation: nat,
    earlier: set<string>,
    stale: bool,
    vanished: bool)

  const NO_HISTORY := History([], [], 0, false, false, false, 0, {}, false, false)

  datatype State = State(
    cfg: Config,
    name: string,
    clock: int,
    w: World,
    item: Option<Item>,
    pc: Pc,
    rep: Report,
    h: History)

  const NO_REPORT := Report(false, false, false, None, false)

  predicate Init(s: State) {
    && s.clock > 0
    && s.w == World(None, s.w.lastCreation, [], s.w.since, map[], multiset{})
    && s.w.lastCreation <= s.clock && s.w.since <= s.clock
    && s.item == None && s.pc == Idle && s.rep == NO_REPORT
    && s.h == NO_HISTORY
  }

  // ---- Steps ----

  datatype Step =
    | Tick(ms: nat)
    | OthersSetFilters(filters: seq<Filter>)
    | DeleteGroup
    | CreateGroup
    | TaskProgress(taskId: string, code: TaskCode)
    | ExportWrites(object: ObjectRecord)
    | Reconfigure(cfg: Config)
    | RecordLive(live: LiveRecord)
    | RecordObject(object: ObjectRecord)
    | Begin(now: int)
    | Go
    | PutUnanswered(reason: string)
    | TaskUnseen
    | ExportStarted(taskId: string)
    | ExportUnanswered(taskId: string, error: string)
    | ExportLimited
    | ExportDenied(error: string)
    | Raise(reason: string)
    | Kill

  /** An export starts, whether or not the run is told so. */
  predicate Starts(step: Step) { step.ExportStarted? || step.ExportUnanswered? }

  function Row(s: State): Item { RowOf(s.item) }

  /** The value of the filter that carries our name, if there is one. */
  function Mine(s: State): Option<FilterValue> { Find(s.w.filters, FilterName(s.cfg, s.name)) }

  /** The row is confirmed and the filter has the value that the row says was seen. */
  predicate Attached(s: State) {
    Confirmed(Row(s)) && Mine(s).Some? && Mine(s) == Recorded(Row(s).sub)
  }

  /** The run stops between `put_subscription_filter` and the confirming write, while the row
      already confirms that very filter value for an earlier time. */
  predicate UnsafeStop(s: State) {
    && (s.pc.ReadClock? || s.pc.WriteConfirmed?)
    && s.pc.putAt.Some?
    && Confirmed(Row(s))
    && Recorded(Row(s).sub) == Some(OurValue(s.cfg))
    && Row(s).sub.confirmedAt.GetOr(0) < s.pc.putAt.value
  }

  /** The filter is put although the run is told otherwise, while the row already confirms that very
      filter value for an earlier time. */
  predicate UnsafePut(s: State) {
    && s.pc.PutFilter?
    && Confirmed(Row(s))
    && Recorded(Row(s).sub) == Some(OurValue(s.cfg))
    && Row(s).sub.confirmedAt.GetOr(0) < s.clock
  }

  /** The run goes on, or ends, without knowing that it has put the filter. */
  predicate Unsafe(s: State, step: Step) {
    ((step.Raise? || step.Kill?) && UnsafeStop(s)) || (step.PutUnanswered? && UnsafePut(s))
  }

  /** Nobody else gives the filter a value that we installed or are about to install. */
  predicate OthersMaySet(s: State, filters: seq<Filter>) {
    var value := Find(filters, FilterName(s.cfg, s.name));
    || value == Mine(s)
    || value == None
    || (value != Some(OurValue(s.cfg))
        && (Confirmed(Row(s)) ==> value != Recorded(Row(s).sub)))
  }

  predicate Enabled(s: State, step: Step) {
    match step
    case Tick(_) => true
    case OthersSetFilters(filters) => s.w.group.Some? && OthersMaySet(s, filters)
    case DeleteGroup => s.w.group.Some?
    case CreateGroup => s.w.group.None? && s.w.lastCreation < s.clock
    case TaskProgress(taskId, _) => taskId in s.w.exports && s.w.exports[taskId].code == TaskActive
    case Reconfigure(cfg) =>
      && s.pc == Idle
      && FilterName(cfg, s.name) == FilterName(s.cfg, s.name)
    case RecordLive(r) => r.sha256 != "" && r.manifest != ""
    case ExportWrites(r) =>
      && r.taskId in s.w.exports && s.w.exports[r.taskId].code == TaskActive
      && r.sha256 != "" && r.manifest != ""
    case RecordObject(r) => r in s.w.outbox && r.sha256 != "" && r.manifest != ""
    case Begin(now) => s.pc == Idle && 0 < now <= s.clock
    case Go =>
      (match s.pc
       case Idle => false
       case DescribeFilters(_, _, _) => s.w.group.Some?
       case PutFilter(_, _, _) => s.w.group.Some?
       case StartBackfill(_, creation, confirmedAt, current) =>
         (match PlanBackfill(current.bf, creation, confirmedAt)
          case Poll(taskId) => taskId in s.w.exports
          case Export(_, _) => false
          case _ => true)
       case _ => true)
    case PutUnanswered(_) => s.pc.PutFilter? && s.w.group.Some?
    case TaskUnseen => s.pc.StartBackfill? && PlanBackfill(s.pc.current.bf, s.pc.creation, s.pc.confirmedAt).Poll?
    case ExportStarted(taskId) =>
      && s.pc.StartBackfill? && PlanBackfill(s.pc.current.bf, s.pc.creation, s.pc.confirmedAt).Export?
      && taskId != "" && taskId !in s.w.exports
    case ExportUnanswered(taskId, error) =>
      && s.pc.StartBackfill? && PlanBackfill(s.pc.current.bf, s.pc.creation, s.pc.confirmedAt).Export?
      && taskId != "" && taskId !in s.w.exports && error != ""
    case ExportLimited =>
      s.pc.StartBackfill? && PlanBackfill(s.pc.current.bf, s.pc.creation, s.pc.confirmedAt).Export?
    case ExportDenied(error) =>
      && s.pc.StartBackfill? && PlanBackfill(s.pc.current.bf, s.pc.creation, s.pc.confirmedAt).Export?
      && error != ""
    case Raise(_) => s.pc != Idle
    case Kill => s.pc != Idle
  }

  function Update(s: State, patch: Item): Option<Item> { Some(Merge(Row(s), patch)) }

  /** The recorder's atomic update for one live object. */
  function RecordedLive(row: Item, r: LiveRecord): Item {
    row.(live := Live(Some(r.at), Some(r.key), Some(r.sha256), Some(r.manifest),
                      Some(row.live.objects.GetOr(0) + 1), Some(row.live.events.GetOr(0) + r.events)))
  }

  /** The recorder's atomic update for one backfill object. */
  function RecordedObject(row: Item, r: ObjectRecord): Item {
    row.(obj := BackfillObject(Some(r.key), Some(r.sha256), Some(r.at), Some(r.manifest),
                               Some(row.obj.count.GetOr(0) + 1)))
  }

  function Apply(s: State, step: Step): State
    requires Enabled(s, step)
  {
    match step
    case Tick(ms) => s.(clock := s.clock + ms)
    case OthersSetFilters(filters) =>
      var same := Find(filters, FilterName(s.cfg, s.name)) == Mine(s);
      s.(w := s.w.(filters := filters, since := if same then s.w.since else s.clock))
    case DeleteGroup => s.(w := s.w.(group := None, filters := [], since := s.clock))
    case CreateGroup =>
      s.(w := s.w.(group := Some(s.clock), lastCreation := s.clock, filters := [], since := s.clock))
    case TaskProgress(taskId, code) =>
      s.(w := s.w.(exports := s.w.exports[taskId := s.w.exports[taskId].(code := code)]))
    case Reconfigure(cfg) => s.(cfg := cfg)
    case RecordLive(r) =>
      s.(item := Some(RecordedLive(Row(s), r)), h := s.h.(live := s.h.live + [r]))
    case ExportWrites(r) => s.(w := s.w.(outbox := s.w.outbox + multiset{r}))
    case RecordObject(r) =>
      s.(w := s.w.(outbox := s.w.outbox - multiset{r}), item := Some(RecordedObject(Row(s), r)),
         h := s.h.(objects := s.h.objects + [r]))
    case Begin(now) => s.(pc := DescribeGroup(now), rep := NO_REPORT, h := s.h.(unwritten := false))
    case Go => Advance(s)
    case PutUnanswered(reason) =>
      s.(w := Filtered(s), pc := WriteFailed(s.pc.now, reason), rep := s.rep.(failed := Some(reason)),
         h := s.h.(gapRisk := s.h.gapRisk || UnsafePut(s)))
    case TaskUnseen =>
      s.(pc := WriteBackfillError(s.pc.now, s.pc.confirmedAt, "backfill_task_unobservable"),
         rep := s.rep.(failed := Some("backfill_task_unobservable")))
    case ExportStarted(taskId) =>
      s.(w := s.w.(exports := s.w.exports[taskId := Task(s.pc.creation, s.pc.confirmedAt, TaskActive)]),
         pc := WriteBackfill(s.pc.now, s.pc.confirmedAt,
                             StartedPatch(taskId, s.pc.creation, s.pc.confirmedAt), ""),
         h := s.h.(started := s.h.started + 1))
    case ExportUnanswered(taskId, error) =>
      s.(w := s.w.(exports := s.w.exports[taskId := Task(s.pc.creation, s.pc.confirmedAt, TaskActive)]),
         pc := WriteBackfillError(s.pc.now, s.pc.confirmedAt, error), rep := s.rep.(failed := Some(error)),
         h := s.h.(started := s.h.started + 1, orphan := true))
    case ExportLimited => s.(pc := WriteBackfill(s.pc.now, s.pc.confirmedAt, PENDING_PATCH, ""))
    case ExportDenied(error) =>
      s.(pc := WriteBackfillError(s.pc.now, s.pc.confirmedAt, error), rep := s.rep.(failed := Some(error)))
    case Raise(reason) =>
      if s.pc.WriteFailed? then Stop(s, Idle)
      else Stop(s, WriteFailed(s.pc.now, reason)).(rep := s.rep.(failed := Some(reason)))
    case Kill => Stop(s, Idle)
  }

  /** The world once the missing filter has been put. */
  function Filtered(s: State): World {
    s.w.(filters := Put(s.w.filters, Filter(FilterName(s.cfg, s.name), OurValue(s.cfg))), since := s.clock)
  }

  /** Objects of the exports so far may still be recorded. */
  predicate Outstanding(w: World) {
    w.outbox != multiset{} || exists id :: id in w.exports && w.exports[id].code == TaskActive
  }

  /** A new generation starts. */
  function Renewed(h: History, w: World, creation: int): History {
    h.(objects := [], started := 0, orphan := false, gapRisk := false, generation := h.generation + 1,
       earlier := w.exports.Keys, stale := Outstanding(w), vanished := w.group != Some(creation))
  }

  /** The run leaves its current call without finishing the visit. */
  function Stop(s: State, pc: Pc): State {
    s.(pc := pc,
       h := s.h.(gapRisk := s.h.gapRisk || UnsafeStop(s),
                 orphan := s.h.orphan || (s.pc.WriteBackfill? && s.pc.patch.taskId.Some?),
                 unwritten := pc == Idle))
  }

  /** One call of the reconciler that succeeds. */
  function Advance(s: State): State
    requires Enabled(s, Go)
  {
    match s.pc
    case DescribeGroup(now) => s.(pc := GetRow(now, s.w.group))
    case GetRow(now, None) =>
      s.(pc := WriteMissing(now), rep := s.rep.(failed := Some("log_group_not_found")))
    case GetRow(now, Some(creation)) =>
      s.(pc := DescribeFilters(now, creation, s.item), rep := s.rep.(matched := true))
    case WriteMissing(now) =>
      s.(item := Update(s, FailurePatch(s.cfg, "log_group_not_found", now)), pc := Idle)
    case DescribeFilters(now, creation, row) =>
      (match Inspect(s.w.filters, FilterName(s.cfg, s.name), s.cfg)
       case Owned(observed) =>
         s.(pc := ReadClock(now, creation, row, observed, None), rep := s.rep.(subscribed := true))
       case Refused(reason, observed) =>
         s.(pc := WriteRefused(now, reason, observed),
            rep := s.rep.(failed := Some(reason), drift := true))
       case NeedsFilter => s.(pc := PutFilter(now, creation, row)))
    case WriteRefused(now, reason, observed) =>
      s.(item := Update(s, RefusePatch(s.cfg, reason, observed, now)), pc := Idle)
    case PutFilter(now, creation, row) =>
      s.(w := Filtered(s),
         pc := ReadClock(now, creation, row, OurValue(s.cfg), Some(s.clock)),
         rep := s.rep.(subscribed := true))
    case ReadClock(now, creation, row, observed, putAt) =>
      var reset := IsReset(row, creation, putAt.Some?, observed);
      s.(pc := WriteConfirmed(now, creation, observed, putAt, reset,
                              if reset then s.clock else KeptConfirmation(row, now)),
         rep := s.rep.(drift := reset && Confirmed(RowOf(row))))
    case WriteConfirmed(now, creation, observed, putAt, reset, confirmedAt) =>
      var item := Update(s, ConfirmPatch(s.cfg, creation, confirmedAt, observed, reset, now));
      s.(item := item,
         pc := StartBackfill(now, creation, confirmedAt, item.value),
         h := if reset then Renewed(s.h, s.w, creation) else s.h)
    case StartBackfill(now, creation, confirmedAt, current) =>
      (match PlanBackfill(current.bf, creation, confirmedAt)
       case Keep => s.(pc := WriteCoverage(now, confirmedAt, current))
       case Skip(from, to) => s.(pc := WriteBackfill(now, confirmedAt, SkipPatch(from, to), ""))
       case Poll(taskId) =>
         (match PollOutcome(s.w.exports[taskId].code, s.clock)
          case (Some(patch), error) => s.(pc := WriteBackfill(now, confirmedAt, patch, error))
          case (None, _) => s.(pc := WriteCoverage(now, confirmedAt, current))))
    case WriteBackfill(now, confirmedAt, patch, error) =>
      var item := Update(s, BackfillPatch(patch));
      s.(item := item,
         pc := if error != "" then WriteBackfillError(now, confirmedAt, error)
               else WriteCoverage(now, confirmedAt, item.value),
         rep := if error != "" then s.rep.(failed := Some(error)) else s.rep)
    case WriteBackfillError(now, confirmedAt, error) =>
      var item := Update(s, BackfillErrorPatch(error));
      s.(item := item, pc := WriteCoverage(now, confirmedAt, item.value))
    case WriteCoverage(now, confirmedAt, current) =>
      var complete := IsComplete(current, confirmedAt, now, s.cfg.maxLagSeconds);
      s.(item := Update(s, CoveragePatch(complete)), pc := Return(now, complete))
    case Return(_, complete) => s.(pc := Idle, rep := s.rep.(covered := complete))
    case WriteFailed(now, reason) =>
      s.(item := Update(s, FailurePatch(s.cfg, reason, now)), pc := Idle)
  }

  // ---- Runs ----

  /** The state after the steps, first to last, if each of them was enabled. */
  function Run(s: State, steps: seq<Step>): Option<State> {
    if steps == [] then Some(s)
    else
      match Run(s, steps[..|steps| - 1])
      case None => None
      case Some(before) =>
        var step := steps[|steps| - 1];
        if Enabled(before, step) then Some(Apply(before, step)) else None
  }

  ghost predicate Reaches(s: State, t: State) {
    exists steps :: Run(s, steps) == Some(t)
  }

  lemma ReachesItself(s: State)
    ensures Reaches(s, s)
  {
    assert Run(s, []) == Some(s);
  }

  lemma RunSnoc(s: State, steps: seq<Step>, t: State, step: Step)
    requires Run(s, steps) == Some(t) && Enabled(t, step)
    ensures Run(s, steps + [step]) == Some(Apply(t, step))
  {
    hide Enabled, Apply;
    assert (steps + [step])[..|steps|] == steps;
  }

  lemma ReachesStep(s: State, t: State, step: Step)
    requires Reaches(s, t) && Enabled(t, step)
    ensures Reaches(s, Apply(t, step))
  {
    var steps :| Run(s, steps) == Some(t);
    RunSnoc(s, steps, t, step);
  }

  lemma {:induction false} RunConcat(s: State, first: seq<Step>, second: seq<Step>)
    requires Run(s, first).Some?
    ensures Run(s, first + second) == Run(Run(s, first).value, second)
  {
    if second == [] {
      assert first + second == first;
    } else {
      RunConcat(s, first, second[..|second| - 1]);
      assert (first + second)[..|first + second| - 1] == first + second[..|second| - 1];
    }
  }

  lemma ReachesTransitive(s: State, t: State, u: State)
    requires Reaches(s, t) && Reaches(t, u)
    ensures Reaches(s, u)
  {
    var first :| Run(s, first) == Some(t);
    var second :| Run(t, second) == Some(u);
    RunConcat(s, first, second);
  }
}
