/**
  What a visit that nothing disturbs leaves behind, field by field: for every state between visits,
  and every answer of the log service.
 */
module CoverageOutcome {
  import opened Basics
  import opened Telemetry
  import opened CoverageProtocol
  import opened CoverageVisits

  // ---- Log groups that are missing or refused ----

  /** The log group is missing. */
  lemma MissingVisit(s: State, now: int) returns (t: State)
    requires s.pc == Idle && 0 < now <= s.clock && s.w.group.None?
    ensures Run(s, [Begin(now), Go, Go, Go]) == Some(t)
    ensures t == s.(rep := Report(false, false, false, Some("log_group_not_found"), false),
                    item := Some(Row(s).(meta := Meta(Some(s.cfg.stage), Some(Unknown), Some("log_group_not_found"),
                                                      Some(now)))),
                    h := s.h.(unwritten := false))
  {
    hide Run, Apply, Enabled;
    RunNone(s);
    VisitIsBegun(s, now);
    var steps := [];
    RunSnoc(s, steps, s, Begin(now));
    t, steps := Apply(s, Begin(now)), steps + [Begin(now)];
    GroupIsDescribed(t);
    RunSnoc(s, steps, t, Go);
    t, steps := Apply(t, Go), steps + [Go];
    GroupIsMissed(t);
    RunSnoc(s, steps, t, Go);
    t, steps := Apply(t, Go), steps + [Go];
    MissingIsWritten(t);
    RunSnoc(s, steps, t, Go);
    t, steps := Apply(t, Go), steps + [Go];
    assert steps == [Begin(now), Go, Go, Go];
  }

  lemma RunNone(s: State)
    ensures Run(s, []) == Some(s)
  {
  }

  lemma GroupIsMissed(s: State)
    requires s.pc.GetRow? && s.pc.group.None?
    ensures Enabled(s, Go)
    ensures Apply(s, Go) == s.(pc := WriteMissing(s.pc.now), rep := s.rep.(failed := Some("log_group_not_found")))
  {
  }

  lemma MissingIsWritten(s: State)
    requires s.pc.WriteMissing?
    ensures Enabled(s, Go)
    ensures Apply(s, Go) ==
      s.(item := Some(Row(s).(meta := Meta(Some(s.cfg.stage), Some(Unknown), Some("log_group_not_found"),
                                           Some(s.pc.now)))), pc := Idle)
  {
  }

  /** The filters that are listed are not ours to change, for this reason, and this is what is noted of them. */
  predicate IsRefused(s: State, reason: string, noted: FilterValue) {
    match Mine(s)
    case Some(value) =>
      noted == value
      && if value.destination != s.cfg.destination || value.role != s.cfg.role then reason == "foreign_filter_ownership"
         else value.pattern != "" && reason == "subscription_filter_pattern_drift"
    case None => |s.w.filters| >= 2 && reason == "subscription_filter_quota" && noted == FilterValue("", "", "")
  }

  /** Somebody else's filter, another pattern, or no room: the row is no longer confirmed, and holds the filter
      value that was listed, or empty values; nothing else of it changes but what it says of this visit. */
  lemma RefusedVisit(s: State, now: int, reason: string, noted: FilterValue) returns (t: State)
    requires s.pc == Idle && 0 < now <= s.clock && s.w.group.Some? && IsRefused(s, reason, noted)
    ensures Run(s, [Begin(now), Go, Go, Go, Go]) == Some(t)
    ensures t == s.(rep := Report(true, false, false, Some(reason), true),
                    item := Some(Row(s).(meta := Meta(Some(s.cfg.stage), Some(Unknown), Some(reason), Some(now)),
                                         sub := Row(s).sub.(confirmed := Some(false),
                                                            destination := Some(noted.destination),
                                                            role := Some(noted.role),
                                                            pattern := Some(noted.pattern)))),
                    h := s.h.(unwritten := false))
    ensures !Confirmed(Row(t)) && Recorded(Row(t).sub) == Some(noted)
  {
    hide Run, Apply, Enabled, IsRefused;
    RunNone(s);
    VisitIsBegun(s, now);
    var steps := [];
    RunSnoc(s, steps, s, Begin(now));
    t, steps := Apply(s, Begin(now)), steps + [Begin(now)];
    GroupIsDescribed(t);
    RunSnoc(s, steps, t, Go);
    t, steps := Apply(t, Go), steps + [Go];
    RowIsRead(t);
    RunSnoc(s, steps, t, Go);
    t, steps := Apply(t, Go), steps + [Go];
    RefusalIsSeen(s, t, reason, noted);
    RunSnoc(s, steps, t, Go);
    t, steps := Apply(t, Go), steps + [Go];
    RefusalIsWritten(t);
    RunSnoc(s, steps, t, Go);
    t, steps := Apply(t, Go), steps + [Go];
    assert steps == [Begin(now), Go, Go, Go, Go];
  }

  lemma RefusalIsSeen(s0: State, s: State, reason: string, noted: FilterValue)
    requires s.pc.DescribeFilters? && s.w.group.Some? && IsRefused(s0, reason, noted)
    requires s.w == s0.w && s.cfg == s0.cfg && s.name == s0.name
    ensures Enabled(s, Go)
    ensures Apply(s, Go) == s.(pc := WriteRefused(s.pc.now, reason, noted),
                               rep := s.rep.(failed := Some(reason), drift := true))
  {
  }

  lemma RefusalIsWritten(s: State)
    requires s.pc.WriteRefused?
    ensures Enabled(s, Go)
    ensures Apply(s, Go) ==
      s.(item := Some(Row(s).(meta := Meta(Some(s.cfg.stage), Some(Unknown), Some(s.pc.reason), Some(s.pc.now)),
                              sub := Row(s).sub.(confirmed := Some(false),
                                                 destination := Some(s.pc.observed.destination),
                                                 role := Some(s.pc.observed.role),
                                                 pattern := Some(s.pc.observed.pattern)))),
         pc := Idle)
  {
  }

  // ---- Confirmation ----

  /** The filter that carries our name is ours in every part, or is missing and there is room for it. */
  predicate CanConfirm(s: State) {
    s.w.group.Some?
    && (Mine(s) == Some(FilterValue(s.cfg.destination, s.cfg.role, "")) || (Mine(s).None? && |s.w.filters| < 2))
  }

  /** The filter has to be put, or the row does not confirm this very filter for this very log group. */
  predicate StartsGeneration(s: State) {
    Mine(s).None? || !Confirmed(Row(s)) || Row(s).sub.creationTime != s.w.group
    || Recorded(Row(s).sub) != Some(FilterValue(s.cfg.destination, s.cfg.role, ""))
  }

  function ConfirmationTime(s: State, now: int): int {
    if StartsGeneration(s) then s.clock
    else if Row(s).sub.confirmedAt.GetOr(0) != 0 then Row(s).sub.confirmedAt.GetOr(0) else now
  }

  /** The row once the visit has confirmed it. */
  function RowConfirmed(s: State, now: int): Item {
    var row := Row(s);
    Item(Meta(Some(s.cfg.stage), row.meta.coverage, Some(""), Some(now)),
         Subscription(Some(true), Some(ConfirmationTime(s, now)), Some(s.cfg.destination), Some(s.cfg.role), Some(""),
                      s.w.group),
         if StartsGeneration(s) then row.bf.(status := Some(PENDING), taskId := Some("")) else row.bf,
         if StartsGeneration(s) then BackfillObject(Some(""), Some(""), row.obj.at, Some(""), Some(0)) else row.obj,
         row.live)
  }

  /** What the visit of `s` has changed: the row, what it reports, and the filter if that was missing. */
  predicate Leaves(s: State, row: Item, covered: bool, failed: Option<string>, t: State) {
    && t == s.(w := t.w, item := Some(row), pc := t.pc, h := t.h,
               rep := Report(true, true, covered, failed, StartsGeneration(s) && Confirmed(Row(s))))
    && Mine(t) == Some(FilterValue(s.cfg.destination, s.cfg.role, ""))
    && t.w == s.w.(filters := t.w.filters, since := if Mine(s).None? then s.clock else s.w.since,
                   exports := t.w.exports)
    && (Mine(s).Some? ==> t.w.filters == s.w.filters)
  }

  /** The visit that began at `now` has confirmed the row. */
  predicate HasConfirmedRow(s: State, now: int, t: State) {
    && s.w.group.Some? && Leaves(s, RowConfirmed(s, now), false, None, t) && t.w.exports == s.w.exports
    && t.pc == StartBackfill(now, s.w.group.value, ConfirmationTime(s, now), RowConfirmed(s, now))
  }

  lemma ResetIsDecided(s: State, putAt: Option<int>, now: int)
    requires s.w.group.Some? && (putAt.Some? <==> Mine(s).None?)
    ensures var observed := FilterValue(s.cfg.destination, s.cfg.role, "");
      IsReset(s.item, s.w.group.value, putAt.Some?, observed) == StartsGeneration(s)
    ensures KeptConfirmation(s.item, now) ==
      if Row(s).sub.confirmedAt.GetOr(0) != 0 then Row(s).sub.confirmedAt.GetOr(0) else now
  {
    hide Mine;
  }

  lemma ConfirmedRowIs(s: State, t: State, now: int)
    requires s.w.group.Some? && t.pc.WriteConfirmed? && t.item == s.item && t.cfg == s.cfg
    requires t.pc.now == now && t.pc.creation == s.w.group.value
    requires t.pc.observed == FilterValue(s.cfg.destination, s.cfg.role, "")
    requires t.pc.reset == StartsGeneration(s) && t.pc.confirmedAt == ConfirmationTime(s, now)
    ensures ConfirmedRow(t) == RowConfirmed(s, now)
  {
    hide StartsGeneration, ConfirmationTime;
  }

  /** The steps of a visit that began at `now`: calls that succeed, and these answers. */
  predicate Calls(steps: seq<Step>, now: int, answers: set<Step>) {
    && (forall step :: step in steps ==> step == Begin(now) || step == Go || step in answers)
    && (forall step :: step in answers ==> step in steps)
  }

  /** The calls up to the point where the filter is in place. */
  lemma FilterCalls(s: State, now: int) returns (steps: seq<Step>, t: State)
    requires s.pc == Idle && 0 < now <= s.clock && CanConfirm(s)
    ensures Run(s, steps) == Some(t) && Calls(steps, now, {})
    ensures Mine(t) == Some(FilterValue(s.cfg.destination, s.cfg.role, ""))
    ensures Mine(s).Some? ==> t.w.filters == s.w.filters
    ensures t == s.(w := s.w.(filters := t.w.filters, since := if Mine(s).None? then s.clock else s.w.since),
                    pc := ReadClock(now, s.w.group.value, s.item, FilterValue(s.cfg.destination, s.cfg.role, ""),
                                    if Mine(s).None? then Some(s.clock) else None),
                    rep := Report(true, true, false, None, false), h := s.h.(unwritten := false))
  {
    hide Run, Apply, Enabled;
    RunNone(s);
    VisitIsBegun(s, now);
    steps := [];
    RunSnoc(s, steps, s, Begin(now));
    t, steps := Apply(s, Begin(now)), steps + [Begin(now)];
    GroupIsDescribed(t);
    RunSnoc(s, steps, t, Go);
    t, steps := Apply(t, Go), steps + [Go];
    RowIsRead(t);
    RunSnoc(s, steps, t, Go);
    t, steps := Apply(t, Go), steps + [Go];
    if Mine(s).None? {
      FilterIsMissed(t);
      RunSnoc(s, steps, t, Go);
      t, steps := Apply(t, Go), steps + [Go];
      FilterIsPut(t);
    } else {
      FilterIsFound(t);
    }
    RunSnoc(s, steps, t, Go);
    t, steps := Apply(t, Go), steps + [Go];
  }

  /** The calls up to the point where the row is confirmed. */
  lemma ConfirmingCalls(s: State, now: int) returns (steps: seq<Step>, t: State)
    requires s.pc == Idle && 0 < now <= s.clock && CanConfirm(s)
    ensures Run(s, steps) == Some(t) && Calls(steps, now, {}) && HasConfirmedRow(s, now, t)
  {
    hide Run, Apply, Enabled, RowConfirmed, ConfirmedRow, IsReset, KeptConfirmation, Renewed;
    steps, t := FilterCalls(s, now);
    ResetIsDecided(s, t.pc.putAt, now);
    ClockIsRead(t);
    RunSnoc(s, steps, t, Go);
    t, steps := Apply(t, Go), steps + [Go];
    ConfirmedRowIs(s, t, now);
    RowIsConfirmed(t);
    RunSnoc(s, steps, t, Go);
    t, steps := Apply(t, Go), steps + [Go];
  }

  // ---- The backfill ----

  /** The row lets the visit say "complete". */
  predicate Covers(row: Item, confirmedAt: int, now: int, lagSeconds: int) {
    && row.bf.status == Some(COMPLETED)
    && (row.bf.evidenceRequired == Some(false) || (row.obj.sha256.GetOr("") != "" && row.obj.manifest.GetOr("") != ""))
    && confirmedAt <= row.live.at.GetOr(0) && now - row.live.at.GetOr(0) <= 1000 * lagSeconds
    && row.live.sha256.GetOr("") != "" && row.live.manifest.GetOr("") != ""
  }

  /** The visit of `s` that began at `now` has ended with this backfill and this reason. */
  predicate Concludes(s: State, now: int, bf: Backfill, reason: string, t: State) {
    var row := RowConfirmed(s, now).(bf := bf);
    var complete := Covers(row, ConfirmationTime(s, now), now, s.cfg.maxLagSeconds);
    var coverage := if complete then Complete else Unknown;
    && t.pc == Idle
    && Leaves(s, row.(meta := Meta(Some(s.cfg.stage), Some(coverage), Some(reason), Some(now))), complete,
              if reason == "" then None else Some(reason), t)
  }

  lemma CoversAsJudged(row: Item, confirmedAt: int, now: int, lagSeconds: int)
    ensures IsComplete(row, confirmedAt, now, lagSeconds) == Covers(row, confirmedAt, now, lagSeconds)
  {
  }

  lemma CoversWhatever(row: Item, meta: Meta, confirmedAt: int, now: int, lagSeconds: int)
    ensures Covers(row.(meta := meta), confirmedAt, now, lagSeconds) == Covers(row, confirmedAt, now, lagSeconds)
  {
  }

  /** The last two calls. */
  lemma JudgingCalls(s: State, now: int, row: Item, reason: string, before: seq<Step>, answers: set<Step>, a: State)
      returns (steps: seq<Step>, t: State)
    requires Run(s, before) == Some(a) && Calls(before, now, answers)
    requires Leaves(s, row, false, if reason == "" then None else Some(reason), a)
    requires a.pc == WriteCoverage(now, ConfirmationTime(s, now), row)
    requires row == RowConfirmed(s, now).(bf := row.bf, meta := row.meta)
    requires row.meta == RowConfirmed(s, now).meta.(coverage := row.meta.coverage, failureReason := Some(reason))
    ensures Run(s, steps) == Some(t) && Calls(steps, now, answers)
    ensures Concludes(s, now, row.bf, reason, t) && t.w.exports == a.w.exports
  {
    hide Run, Apply, Enabled, IsComplete, Covers, StartsGeneration, ConfirmationTime;
    CoverageIsWritten(a);
    CoversAsJudged(row, ConfirmationTime(s, now), now, s.cfg.maxLagSeconds);
    CoversWhatever(RowConfirmed(s, now).(bf := row.bf), row.meta, ConfirmationTime(s, now), now, s.cfg.maxLagSeconds);
    RunSnoc(s, before, a, Go);
    t, steps := Apply(a, Go), before + [Go];
    VisitReturns(t);
    RunSnoc(s, steps, t, Go);
    t, steps := Apply(t, Go), steps + [Go];
  }

  lemma ErrorIsWritten(s: State)
    requires s.pc.WriteBackfillError?
    ensures Enabled(s, Go)
    ensures var row := Row(s).(meta := Row(s).meta.(coverage := Some(Unknown), failureReason := Some(s.pc.error)));
      Apply(s, Go) == s.(item := Some(row), pc := WriteCoverage(s.pc.now, s.pc.confirmedAt, row))
  {
  }

  /** The calls from the one that writes the error. */
  lemma ErrorCalls(s: State, now: int, row: Item, reason: string, before: seq<Step>, answers: set<Step>, a: State)
      returns (steps: seq<Step>, t: State)
    requires Run(s, before) == Some(a) && Calls(before, now, answers)
    requires reason != "" && Leaves(s, row, false, Some(reason), a)
    requires a.pc == WriteBackfillError(now, ConfirmationTime(s, now), reason)
    requires row == RowConfirmed(s, now).(bf := row.bf)
    ensures Run(s, steps) == Some(t) && Calls(steps, now, answers)
    ensures Concludes(s, now, row.bf, reason, t) && t.w.exports == a.w.exports
  {
    hide Run, Apply, Enabled, Concludes, StartsGeneration, ConfirmationTime, RowConfirmed;
    ErrorIsWritten(a);
    RunSnoc(s, before, a, Go);
    t, steps := Apply(a, Go), before + [Go];
    steps, t := JudgingCalls(s, now, Row(t), reason, steps, answers, t);
  }

  lemma BackfillAndErrorAreWritten(s: State)
    requires s.pc.WriteBackfill? && s.pc.error != ""
    ensures Enabled(s, Go)
    ensures Apply(s, Go) ==
      s.(item := Some(Row(s).(bf := MergeBackfill(Row(s).bf, s.pc.patch))),
         pc := WriteBackfillError(s.pc.now, s.pc.confirmedAt, s.pc.error), rep := s.rep.(failed := Some(s.pc.error)))
  {
    hide MergeBackfill;
  }

  /** The calls from the one that writes the backfill. */
  lemma BackfillCalls(s: State, now: int, before: seq<Step>, answers: set<Step>, a: State)
      returns (steps: seq<Step>, t: State)
    requires Run(s, before) == Some(a) && Calls(before, now, answers) && Leaves(s, RowConfirmed(s, now), false, None, a)
    requires a.pc.WriteBackfill? && a.pc.now == now && a.pc.confirmedAt == ConfirmationTime(s, now)
    ensures Run(s, steps) == Some(t) && Calls(steps, now, answers) && t.w.exports == a.w.exports
    ensures Concludes(s, now, MergeBackfill(RowConfirmed(s, now).bf, a.pc.patch), a.pc.error, t)
  {
    hide Run, Apply, Enabled, Concludes, MergeBackfill, StartsGeneration, ConfirmationTime;
    if a.pc.error == "" {
      BackfillIsWritten(a);
      RunSnoc(s, before, a, Go);
      t, steps := Apply(a, Go), before + [Go];
      steps, t := JudgingCalls(s, now, Row(t), "", steps, answers, t);
    } else {
      BackfillAndErrorAreWritten(a);
      RunSnoc(s, before, a, Go);
      t, steps := Apply(a, Go), before + [Go];
      steps, t := ErrorCalls(s, now, Row(t), a.pc.error, steps, answers, t);
    }
  }

  /** The backfill is completed already. */
  lemma KeptVisit(s: State, now: int) returns (steps: seq<Step>, t: State)
    requires s.pc == Idle && 0 < now <= s.clock && CanConfirm(s)
    requires RowConfirmed(s, now).bf.status == Some(COMPLETED)
    ensures Run(s, steps) == Some(t) && Calls(steps, now, {}) && t.w.exports == s.w.exports
    ensures Concludes(s, now, RowConfirmed(s, now).bf, "", t)
  {
    hide Run, Apply, Enabled, Concludes, CanConfirm, StartsGeneration, ConfirmationTime, RowConfirmed;
    steps, t := ConfirmingCalls(s, now);
    BackfillIsKept(t);
    RunSnoc(s, steps, t, Go);
    t, steps := Apply(t, Go), steps + [Go];
    MetaConfirmed(s, now);
    steps, t := JudgingCalls(s, now, RowConfirmed(s, now), "", steps, {}, t);
  }

  lemma MetaConfirmed(s: State, now: int)
    ensures RowConfirmed(s, now).meta.failureReason == Some("")
  {
  }

  /** The row names an export of this generation that has not been seen to end well. */
  predicate Watches(s: State, now: int, id: string) {
    RowConfirmed(s, now).bf.status != Some(COMPLETED) && RowConfirmed(s, now).bf.taskId == Some(id) && id != ""
  }

  /** The row names no export, and the backfill is not completed. */
  predicate HasNoExport(s: State, now: int) {
    RowConfirmed(s, now).bf.status != Some(COMPLETED) && RowConfirmed(s, now).bf.taskId.GetOr("") == ""
  }

  lemma ExportHasEnded(s: State, id: string)
    requires s.pc.StartBackfill? && s.pc.current.bf.status != Some(COMPLETED)
    requires s.pc.current.bf.taskId == Some(id) && id != "" && id in s.w.exports && s.w.exports[id].code != TaskActive
    ensures Enabled(s, Go) && Apply(s, Go) == s.(pc := Apply(s, Go).pc)
    ensures var pc, code := Apply(s, Go).pc, s.w.exports[id].code;
      && pc.WriteBackfill? && pc.now == s.pc.now && pc.confirmedAt == s.pc.confirmedAt
      && forall bf :: MergeBackfill(bf, pc.patch) ==
           match code
           case TaskCompleted => bf.(status := Some(COMPLETED), completedAt := Some(s.clock))
           case TaskFailed => bf.(status := Some(FAILED))
           case TaskCancelled => bf.(status := Some(CANCELLED))
           case TaskActive => bf
    ensures Apply(s, Go).pc.error ==
      match s.w.exports[id].code
      case TaskFailed => "backfill_failed"
      case TaskCancelled => "backfill_cancelled"
      case _ => ""
  {
  }

  /** The export that the row names is seen: the backfill becomes what that is, and is still what it was while
      that is active. */
  lemma WatchingVisit(s: State, now: int, id: string) returns (steps: seq<Step>, t: State)
    requires s.pc == Idle && 0 < now <= s.clock && CanConfirm(s) && Watches(s, now, id) && id in s.w.exports
    ensures Run(s, steps) == Some(t) && Calls(steps, now, {}) && t.w.exports == s.w.exports
    ensures var bf := RowConfirmed(s, now).bf;
      match s.w.exports[id].code
      case TaskCompleted => Concludes(s, now, bf.(status := Some(COMPLETED), completedAt := Some(s.clock)), "", t)
      case TaskFailed => Concludes(s, now, bf.(status := Some(FAILED)), "backfill_failed", t)
      case TaskCancelled => Concludes(s, now, bf.(status := Some(CANCELLED)), "backfill_cancelled", t)
      case TaskActive => Concludes(s, now, bf, "", t)
  {
    hide Run, Apply, Enabled, Concludes, CanConfirm, StartsGeneration, ConfirmationTime, RowConfirmed, MergeBackfill;
    steps, t := ConfirmingCalls(s, now);
    if s.w.exports[id].code == TaskActive {
      ExportIsActive(t);
      RunSnoc(s, steps, t, Go);
      t, steps := Apply(t, Go), steps + [Go];
      MetaConfirmed(s, now);
      steps, t := JudgingCalls(s, now, RowConfirmed(s, now), "", steps, {}, t);
    } else {
      ExportHasEnded(t, id);
      RunSnoc(s, steps, t, Go);
      t, steps := Apply(t, Go), steps + [Go];
      steps, t := BackfillCalls(s, now, steps, {}, t);
    }
  }

  /** The log service does not show the export that the row names. */
  lemma UnseenVisit(s: State, now: int, id: string) returns (steps: seq<Step>, t: State)
    requires s.pc == Idle && 0 < now <= s.clock && CanConfirm(s) && Watches(s, now, id)
    ensures Run(s, steps) == Some(t) && Calls(steps, now, {TaskUnseen}) && t.w.exports == s.w.exports
    ensures Concludes(s, now, RowConfirmed(s, now).bf, "backfill_task_unobservable", t)
  {
    hide Run, Apply, Enabled, Concludes, CanConfirm, StartsGeneration, ConfirmationTime, RowConfirmed;
    steps, t := ConfirmingCalls(s, now);
    TaskIsUnseen(t);
    RunSnoc(s, steps, t, TaskUnseen);
    t, steps := Apply(t, TaskUnseen), steps + [TaskUnseen];
    steps, t := ErrorCalls(s, now, RowConfirmed(s, now), "backfill_task_unobservable", steps, {TaskUnseen}, t);
  }

  lemma TaskIsUnseen(s: State)
    requires s.pc.StartBackfill? && s.pc.current.bf.status != Some(COMPLETED) && Truthy(s.pc.current.bf.taskId)
    ensures Enabled(s, TaskUnseen)
    ensures Apply(s, TaskUnseen) ==
      s.(pc := WriteBackfillError(s.pc.now, s.pc.confirmedAt, "backfill_task_unobservable"),
         rep := s.rep.(failed := Some("backfill_task_unobservable")))
  {
  }

  /** The log group was created no earlier than the row was confirmed: there is nothing to export. */
  lemma SkippingVisit(s: State, now: int) returns (steps: seq<Step>, t: State)
    requires s.pc == Idle && 0 < now <= s.clock && CanConfirm(s) && HasNoExport(s, now)
    requires s.w.group.value >= ConfirmationTime(s, now)
    ensures Run(s, steps) == Some(t) && Calls(steps, now, {}) && t.w.exports == s.w.exports
    ensures var at := ConfirmationTime(s, now);
      Concludes(s, now, Backfill(Some(COMPLETED), RowConfirmed(s, now).bf.taskId, Some(at), s.w.group, Some(at),
                                 Some(false)), "", t)
  {
    hide Run, Apply, Enabled, Concludes, CanConfirm, StartsGeneration, ConfirmationTime, RowConfirmed;
    steps, t := ConfirmingCalls(s, now);
    BackfillIsSkipped(t);
    RunSnoc(s, steps, t, Go);
    t, steps := Apply(t, Go), steps + [Go];
    steps, t := BackfillCalls(s, now, steps, {}, t);
  }

  /** An export of the time from the creation of the log group to the confirmation is started. */
  lemma ExportingVisit(s: State, now: int, id: string) returns (steps: seq<Step>, t: State)
    requires s.pc == Idle && 0 < now <= s.clock && CanConfirm(s) && HasNoExport(s, now)
    requires s.w.group.value < ConfirmationTime(s, now) && id != "" && id !in s.w.exports
    ensures var at := ConfirmationTime(s, now);
      && Run(s, steps) == Some(t) && Calls(steps, now, {ExportStarted(id)})
      && t.w.exports == s.w.exports[id := Task(s.w.group.value, at, TaskActive)]
      && Concludes(s, now, Backfill(Some(RUNNING), Some(id), RowConfirmed(s, now).bf.completedAt, s.w.group, Some(at),
                                    Some(true)), "", t)
  {
    hide Run, Apply, Enabled, Concludes, CanConfirm, StartsGeneration, ConfirmationTime, RowConfirmed;
    steps, t := ConfirmingCalls(s, now);
    ExportIsStarted(t, id);
    RunSnoc(s, steps, t, ExportStarted(id));
    t, steps := Apply(t, ExportStarted(id)), steps + [ExportStarted(id)];
    steps, t := BackfillCalls(s, now, steps, {ExportStarted(id)}, t);
  }

  /** The log service has too many exports: the backfill stays to be done, without an error. */
  lemma LimitedVisit(s: State, now: int) returns (steps: seq<Step>, t: State)
    requires s.pc == Idle && 0 < now <= s.clock && CanConfirm(s) && HasNoExport(s, now)
    requires s.w.group.value < ConfirmationTime(s, now)
    ensures Run(s, steps) == Some(t) && Calls(steps, now, {ExportLimited}) && t.w.exports == s.w.exports
    ensures Concludes(s, now, RowConfirmed(s, now).bf.(status := Some(PENDING)), "", t)
  {
    hide Run, Apply, Enabled, Concludes, CanConfirm, StartsGeneration, ConfirmationTime, RowConfirmed;
    steps, t := ConfirmingCalls(s, now);
    ExportIsLimited(t);
    RunSnoc(s, steps, t, ExportLimited);
    t, steps := Apply(t, ExportLimited), steps + [ExportLimited];
    steps, t := BackfillCalls(s, now, steps, {ExportLimited}, t);
  }

  lemma ExportIsLimited(s: State)
    requires Exports(s)
    ensures Enabled(s, ExportLimited)
    ensures Apply(s, ExportLimited) ==
      s.(pc := WriteBackfill(s.pc.now, s.pc.confirmedAt, Backfill(Some(PENDING), None, None, None, None, None), ""))
  {
  }

  /** The log service refuses the export for another reason. */
  lemma DeniedVisit(s: State, now: int, error: string) returns (steps: seq<Step>, t: State)
    requires s.pc == Idle && 0 < now <= s.clock && CanConfirm(s) && HasNoExport(s, now)
    requires s.w.group.value < ConfirmationTime(s, now) && error != ""
    ensures Run(s, steps) == Some(t) && Calls(steps, now, {ExportDenied(error)}) && t.w.exports == s.w.exports
    ensures Concludes(s, now, RowConfirmed(s, now).bf, error, t)
  {
    hide Run, Apply, Enabled, Concludes, CanConfirm, StartsGeneration, ConfirmationTime, RowConfirmed;
    steps, t := ConfirmingCalls(s, now);
    ExportIsDenied(t, error);
    RunSnoc(s, steps, t, ExportDenied(error));
    t, steps := Apply(t, ExportDenied(error)), steps + [ExportDenied(error)];
    steps, t := ErrorCalls(s, now, RowConfirmed(s, now), error, steps, {ExportDenied(error)}, t);
  }

  lemma ExportIsDenied(s: State, error: string)
    requires Exports(s) && error != ""
    ensures Enabled(s, ExportDenied(error))
    ensures Apply(s, ExportDenied(error)) ==
      s.(pc := WriteBackfillError(s.pc.now, s.pc.confirmedAt, error), rep := s.rep.(failed := Some(error)))
  {
  }
}
