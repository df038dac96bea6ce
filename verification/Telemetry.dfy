/**
  The telemetry coverage ledger: its rows, and the decisions that the reconciler takes
  from one row and one observation. Nothing here calls out; the calls are steps of
  `CoverageProtocol`, and `Reconciler` makes them with others at work in between.
 */
module Telemetry {
  import opened Basics

  datatype Config = Config(
    stage: string,
    sharedSpanGroup: string,
    sharedSpanFilter: string,
    subscriptionFilter: string,
    destination: string,
    role: string,
    maxLagSeconds: int)

  // ---- Subscription filters ----

  datatype FilterValue = FilterValue(destination: string, role: string, pattern: string)
  datatype Filter = Filter(name: string, value: FilterValue)

  /** The only filter value that counts as ours. */
  function OurValue(cfg: Config): FilterValue {
    FilterValue(cfg.destination, cfg.role, "")
  }

  function FilterName(cfg: Config, group: string): string {
    if group == cfg.sharedSpanGroup then cfg.sharedSpanFilter else cfg.subscriptionFilter
  }

  /** The value of the first filter called `name`. */
  function Find(existing: seq<Filter>, name: string): Option<FilterValue> {
    if existing == [] then None
    else if existing[0].name == name then Some(existing[0].value)
    else Find(existing[1..], name)
  }

  /** `put_subscription_filter`: replaces the filter of that name or adds one. */
  function Put(existing: seq<Filter>, f: Filter): (r: seq<Filter>)
    ensures Find(r, f.name) == Some(f.value)
  {
    if existing == [] then [f]
    else if existing[0].name == f.name then [f] + existing[1..]
    else
      var r := [existing[0]] + Put(existing[1..], f);
      assert r[1..] == Put(existing[1..], f);
      r
  }

  /** It replaces the first filter of that name, or adds one at the end, and changes no other filter. */
  lemma {:induction false} PutReplaces(existing: seq<Filter>, f: Filter)
    ensures var r := Put(existing, f);
      if Find(existing, f.name).None? then r == existing + [f]
      else exists k :: 0 <= k < |existing| && existing[k].name == f.name && r == existing[k := f]
             && forall j :: 0 <= j < k ==> existing[j].name != f.name
  {
    if existing != [] {
      var rest := existing[1..];
      assert existing == [existing[0]] + rest;
      if existing[0].name == f.name {
        assert Put(existing, f) == existing[0 := f];
      } else {
        PutReplaces(rest, f);
        if Find(rest, f.name).Some? {
          var k :| 0 <= k < |rest| && rest[k].name == f.name && Put(rest, f) == rest[k := f]
            && forall j :: 0 <= j < k ==> rest[j].name != f.name;
          assert existing[k + 1].name == f.name && Put(existing, f) == existing[k + 1 := f];
          assert forall j :: 0 <= j < k + 1 ==> existing[j].name != f.name;
        }
      }
    }
  }

  datatype Verdict =
    | Owned(observed: FilterValue)
    | Refused(reason: string, observed: FilterValue)
    | NeedsFilter

  const NO_VALUE := FilterValue("", "", "")

  /** What the listed filters say about our subscription. */
  function Inspect(existing: seq<Filter>, name: string, cfg: Config): (v: Verdict)
    ensures v.Owned? <==> Find(existing, name) == Some(OurValue(cfg))
    ensures v.Owned? ==> v.observed == OurValue(cfg)
    ensures v.NeedsFilter? <==> Find(existing, name).None? && |existing| < 2
  {
    match Find(existing, name)
    case Some(observed) =>
      if observed.destination != cfg.destination || observed.role != cfg.role then
        Refused("foreign_filter_ownership", observed)
      else if observed.pattern != "" then
        Refused("subscription_filter_pattern_drift", observed)
      else Owned(observed)
    case None =>
      if |existing| >= 2 then Refused("subscription_filter_quota", NO_VALUE) else NeedsFilter
  }

  // ---- Ledger rows ----

  datatype Coverage = Complete | Unknown
  datatype BackfillStatus = PENDING | RUNNING | COMPLETED | FAILED | CANCELLED

  datatype Meta = Meta(
    ownerStage: Option<string>,
    coverage: Option<Coverage>,
    failureReason: Option<string>,
    checkedAt: Option<int>)

  datatype Subscription = Subscription(
    confirmed: Option<bool>,
    confirmedAt: Option<int>,
    destination: Option<string>,
    role: Option<string>,
    pattern: Option<string>,
    creationTime: Option<int>)

  datatype Backfill = Backfill(
    status: Option<BackfillStatus>,
    taskId: Option<string>,
    completedAt: Option<int>,
    from: Option<int>,
    to: Option<int>,
    evidenceRequired: Option<bool>)

  /** The last backfill object recorded, and how many since the last reset. */
  datatype BackfillObject = BackfillObject(
    key: Option<string>,
    sha256: Option<string>,
    at: Option<int>,
    manifest: Option<string>,
    count: Option<int>)

  /** The last live object recorded, and the running totals. */
  datatype Live = Live(
    at: Option<int>,
    key: Option<string>,
    sha256: Option<string>,
    manifest: Option<string>,
    objects: Option<int>,
    events: Option<int>)

  /** A ledger row, and also a set of assignments to one: `None` assigns nothing. */
  datatype Item = Item(meta: Meta, sub: Subscription, bf: Backfill, obj: BackfillObject, live: Live)

  const NO_META := Meta(None, None, None, None)
  const NO_SUB := Subscription(None, None, None, None, None, None)
  const NO_BACKFILL := Backfill(None, None, None, None, None, None)
  const NO_OBJECT := BackfillObject(None, None, None, None, None)
  const NO_LIVE := Live(None, None, None, None, None, None)
  const EMPTY_ROW := Item(NO_META, NO_SUB, NO_BACKFILL, NO_OBJECT, NO_LIVE)

  function MergeMeta(m: Meta, p: Meta): Meta {
    Meta(p.ownerStage.Or(m.ownerStage), p.coverage.Or(m.coverage),
         p.failureReason.Or(m.failureReason), p.checkedAt.Or(m.checkedAt))
  }

  function MergeSub(m: Subscription, p: Subscription): Subscription {
    Subscription(p.confirmed.Or(m.confirmed), p.confirmedAt.Or(m.confirmedAt),
                 p.destination.Or(m.destination), p.role.Or(m.role),
                 p.pattern.Or(m.pattern), p.creationTime.Or(m.creationTime))
  }

  function MergeBackfill(m: Backfill, p: Backfill): Backfill {
    Backfill(p.status.Or(m.status), p.taskId.Or(m.taskId), p.completedAt.Or(m.completedAt),
             p.from.Or(m.from), p.to.Or(m.to), p.evidenceRequired.Or(m.evidenceRequired))
  }

  function MergeObject(m: BackfillObject, p: BackfillObject): BackfillObject {
    BackfillObject(p.key.Or(m.key), p.sha256.Or(m.sha256), p.at.Or(m.at),
                   p.manifest.Or(m.manifest), p.count.Or(m.count))
  }

  function MergeLive(m: Live, p: Live): Live {
    Live(p.at.Or(m.at), p.key.Or(m.key), p.sha256.Or(m.sha256),
         p.manifest.Or(m.manifest), p.objects.Or(m.objects), p.events.Or(m.events))
  }

  /** The row that an update with the assignments `patch` leaves behind. */
  function Merge(row: Item, patch: Item): Item {
    Item(MergeMeta(row.meta, patch.meta), MergeSub(row.sub, patch.sub),
         MergeBackfill(row.bf, patch.bf), MergeObject(row.obj, patch.obj),
         MergeLive(row.live, patch.live))
  }

  function RowOf(row: Option<Item>): Item { row.GetOr(EMPTY_ROW) }

  predicate Truthy(s: Option<string>) { s.Some? && s.value != "" }

  predicate Confirmed(row: Item) { row.sub.confirmed == Some(true) }

  /** The filter value that the row says was seen. */
  function Recorded(sub: Subscription): Option<FilterValue> {
    if sub.destination.Some? && sub.role.Some? && sub.pattern.Some? then
      Some(FilterValue(sub.destination.value, sub.role.value, sub.pattern.value))
    else None
  }

  // ---- Decisions ----

  /** Whether the subscription starts a new generation. */
  predicate IsReset(row: Option<Item>, creation: int, created: bool, observed: FilterValue) {
    var sub := RowOf(row).sub;
    var previouslyConfirmed := sub.confirmed == Some(true);
    var generationChanged := row.Some? && (sub.creationTime.None? || sub.creationTime.value != creation);
    var subscriptionChanged := previouslyConfirmed &&
      (sub.destination != Some(observed.destination)
       || sub.role != Some(observed.role)
       || sub.pattern != Some(observed.pattern));
    created || generationChanged || subscriptionChanged || !previouslyConfirmed
  }

  /** The confirmation time of an unchanged generation. */
  function KeptConfirmation(row: Option<Item>, now: int): int {
    match RowOf(row).sub.confirmedAt
    case Some(at) => if at != 0 then at else now
    case None => now
  }

  function SeenPatch(observed: FilterValue): Subscription {
    NO_SUB.(destination := Some(observed.destination), role := Some(observed.role),
           pattern := Some(observed.pattern))
  }

  function ConfirmPatch(cfg: Config, creation: int, confirmedAt: int, observed: FilterValue,
                        reset: bool, now: int): Item {
    Item(
      NO_META.(ownerStage := Some(cfg.stage), failureReason := Some(""), checkedAt := Some(now)),
      SeenPatch(observed).(creationTime := Some(creation), confirmed := Some(true),
                           confirmedAt := Some(confirmedAt)),
      if reset then NO_BACKFILL.(status := Some(PENDING), taskId := Some("")) else NO_BACKFILL,
      if reset then NO_OBJECT.(key := Some(""), sha256 := Some(""), manifest := Some(""), count := Some(0))
      else NO_OBJECT,
      NO_LIVE)
  }

  function RefusePatch(cfg: Config, reason: string, observed: FilterValue, now: int): Item {
    EMPTY_ROW.(meta := FailurePatch(cfg, reason, now).meta,
           sub := SeenPatch(observed).(confirmed := Some(false)))
  }

  /** A failed visit: the row's coverage is unknown. */
  function FailurePatch(cfg: Config, reason: string, now: int): Item {
    EMPTY_ROW.(meta := Meta(Some(cfg.stage), Some(Unknown), Some(reason), Some(now)))
  }

  function BackfillErrorPatch(error: string): Item {
    EMPTY_ROW.(meta := NO_META.(coverage := Some(Unknown), failureReason := Some(error)))
  }

  function CoveragePatch(complete: bool): Item {
    EMPTY_ROW.(meta := NO_META.(coverage := Some(if complete then Complete else Unknown)))
  }

  function BackfillPatch(bf: Backfill): Item { EMPTY_ROW.(bf := bf) }

  /** The state of an export task as the service reports it; `Active` is every other code. */
  datatype TaskCode = TaskCompleted | TaskFailed | TaskCancelled | TaskActive

  datatype Plan =
    | Keep
    | Poll(taskId: string)
    | Skip(from: int, to: int)
    | Export(from: int, to: int)

  /** What `_start_backfill` does next for a row. */
  function PlanBackfill(bf: Backfill, creation: int, confirmedAt: int): Plan {
    if bf.status == Some(COMPLETED) then Keep
    else if Truthy(bf.taskId) then Poll(bf.taskId.value)
    else if creation >= confirmedAt then Skip(creation, confirmedAt)
    else Export(creation, confirmedAt)
  }

  /** The write and the error that a polled task state leads to. */
  function PollOutcome(code: TaskCode, clock: int): (Option<Backfill>, string) {
    match code
    case TaskCompleted => (Some(NO_BACKFILL.(status := Some(COMPLETED), completedAt := Some(clock))), "")
    case TaskFailed => (Some(NO_BACKFILL.(status := Some(FAILED))), "backfill_failed")
    case TaskCancelled => (Some(NO_BACKFILL.(status := Some(CANCELLED))), "backfill_cancelled")
    case TaskActive => (None, "")
  }

  function SkipPatch(from: int, to: int): Backfill {
    NO_BACKFILL.(status := Some(COMPLETED), completedAt := Some(to), from := Some(from),
                to := Some(to), evidenceRequired := Some(false))
  }

  function StartedPatch(taskId: string, from: int, to: int): Backfill {
    NO_BACKFILL.(status := Some(RUNNING), taskId := Some(taskId), from := Some(from),
                to := Some(to), evidenceRequired := Some(true))
  }

  const PENDING_PATCH := NO_BACKFILL.(status := Some(PENDING))

  predicate BackfillIsVerified(row: Item) {
    && row.bf.status == Some(COMPLETED)
    && (row.bf.evidenceRequired == Some(false)
        || (Truthy(row.obj.sha256) && Truthy(row.obj.manifest)))
  }

  predicate DeliveryIsFresh(row: Item, confirmedAt: int, now: int, maxLagSeconds: int) {
    var deliveredAt := row.live.at.GetOr(0);
    && deliveredAt >= confirmedAt
    && now - deliveredAt <= maxLagSeconds * 1000
    && Truthy(row.live.sha256)
    && Truthy(row.live.manifest)
  }

  predicate IsComplete(row: Item, confirmedAt: int, now: int, maxLagSeconds: int) {
    BackfillIsVerified(row) && DeliveryIsFresh(row, confirmedAt, now, maxLagSeconds)
  }
}
