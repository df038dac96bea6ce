/**
  The reconciler as the program writes it: methods that go from call to call, before each of
  which the recorder, the exports and other owners of the log group may do anything. Each method
  is proved to make exactly steps of the coverage protocol, one exception for each call that raised,
  so that what is proved of the protocol's runs holds of it.
 */
module Reconciler {
  import opened Basics
  import opened Telemetry
  import opened CoverageProtocol
  import opened CoverageInvariant
  import opened CoverageReports
  import opened CoverageTurns
  import CoverageFailures
  import opened CoverageVisits
  import opened StringOrder
  import opened TelemetryServices

  lemma StartListed()
    ensures Listed([], Flags([], [], [], []), Lists([], [], [], map[], []))
  {
  }

  datatype Status = Status(owned: bool, reason: string, created: bool, observed: FilterValue)

  // ---- Calls that fail ----

  /** The reason that the run reports for an exception. */
  function Exception(error: string): (reason: string)
    ensures EXCEPTION <= reason && "reconcile_failed:" + error == reason
  {
    EXCEPTION + error
  }

  function Refusal(code: string): (error: string)
    ensures REFUSAL <= error && error != "" && "backfill_start_failed:" + code == error
  {
    REFUSAL + code
  }

  /** The run is about to write the exception to the row. */
  predicate HasRaised(s: State, now: int, rep: Report, error: string) {
    s.pc == WriteFailed(now, Exception(error)) && s.rep == rep.(failed := Some(Exception(error)))
  }

  /** A call raises, without effect. */
  lemma Raises(start: Origin, s: State, faults: Faults, error: string) returns (t: State)
    requires Makes(start, s, faults) && s.pc != Idle && !s.pc.WriteFailed?
    ensures Makes(start, t, faults.(raised := faults.raised + 1)) && HasRaised(t, s.pc.now, s.rep, error)
    ensures t == s.(pc := t.pc, rep := t.rep, h := t.h)
  {
    hide Makes, UnsafeStop;
    var step := Raise(Exception(error));
    MakesStep(start, s, faults, step);
    t := Apply(s, step);
  }

  /** The write of the exception raises as well, which is ignored. */
  lemma RaisesAgain(start: Origin, s: State, faults: Faults, error: string) returns (t: State)
    requires Makes(start, s, faults) && s.pc.WriteFailed?
    ensures Makes(start, t, faults.(raised := faults.raised + 1)) && t.pc == Idle && t.rep == s.rep
    ensures t == s.(pc := t.pc, h := t.h)
  {
    hide Makes, UnsafeStop;
    var step := Raise(Exception(error));
    MakesStep(start, s, faults, step);
    t := Apply(s, step);
  }

  /** The call that puts the filter succeeds. */
  lemma PutSucceeds(start: Origin, s: State, faults: Faults) returns (t: State)
    requires Makes(start, s, faults) && s.pc.PutFilter? && s.w.group.Some?
    ensures Makes(start, t, faults)
    ensures t == s.(w := Filtered(s), rep := s.rep.(subscribed := true),
                    pc := CoverageProtocol.ReadClock(s.pc.now, s.pc.creation, s.pc.row, OurValue(s.cfg), Some(s.clock)))
  {
    hide Makes, Filtered;
    MakesStep(start, s, faults, Go);
    t := Apply(s, Go);
  }

  /** The filters have been listed. */
  lemma FiltersAreSeen(start: Origin, s: State, faults: Faults) returns (t: State)
    requires Makes(start, s, faults) && s.pc.DescribeFilters? && s.w.group.Some?
    ensures Makes(start, t, faults)
    ensures match Inspect(s.w.filters, FilterName(s.cfg, s.name), s.cfg)
            case Owned(observed) =>
              t == s.(pc := CoverageProtocol.ReadClock(s.pc.now, s.pc.creation, s.pc.row, observed, None),
                      rep := s.rep.(subscribed := true))
            case Refused(reason, observed) =>
              t == s.(pc := WriteRefused(s.pc.now, reason, observed),
                      rep := s.rep.(failed := Some(reason), drift := true))
            case NeedsFilter => t == s.(pc := PutFilter(s.pc.now, s.pc.creation, s.pc.row))
  {
    hide Makes, Inspect;
    MakesStep(start, s, faults, Go);
    t := Apply(s, Go);
  }

  /** The export has been looked at. */
  lemma ExportIsSeen(start: Origin, s: State, faults: Faults, taskId: string) returns (t: State)
    requires Makes(start, s, faults) && s.pc.StartBackfill? && taskId in s.w.exports
    requires PlanBackfill(s.pc.current.bf, s.pc.creation, s.pc.confirmedAt) == Poll(taskId)
    ensures Makes(start, t, faults)
    ensures match PollOutcome(s.w.exports[taskId].code, s.clock)
            case (Some(patch), error) => t == s.(pc := WriteBackfill(s.pc.now, s.pc.confirmedAt, patch, error))
            case (None, _) => t == s.(pc := WriteCoverage(s.pc.now, s.pc.confirmedAt, s.pc.current))
  {
    hide Makes, PollOutcome;
    MakesStep(start, s, faults, Go);
    t := Apply(s, Go);
  }

  lemma ExportIsUnseen(start: Origin, s: State, faults: Faults) returns (t: State)
    requires Makes(start, s, faults)
    requires s.pc.StartBackfill? && PlanBackfill(s.pc.current.bf, s.pc.creation, s.pc.confirmedAt).Poll?
    ensures Makes(start, t, faults.(refused := faults.refused + 1))
    ensures t == s.(pc := WriteBackfillError(s.pc.now, s.pc.confirmedAt, "backfill_task_unobservable"),
                    rep := s.rep.(failed := Some("backfill_task_unobservable")))
  {
    hide Makes;
    MakesStep(start, s, faults, TaskUnseen);
    t := Apply(s, TaskUnseen);
  }

  lemma NoExportIsNeeded(start: Origin, s: State, faults: Faults) returns (t: State)
    requires Makes(start, s, faults)
    requires s.pc.StartBackfill? && (s.pc.current.bf.status == Some(COMPLETED) || Skips(s))
    ensures Makes(start, t, faults)
    ensures t == s.(pc := if s.pc.current.bf.status == Some(COMPLETED) then
                            WriteCoverage(s.pc.now, s.pc.confirmedAt, s.pc.current)
                          else
                            WriteBackfill(s.pc.now, s.pc.confirmedAt, SkipPatch(s.pc.creation, s.pc.confirmedAt), ""))
  {
    hide Makes, SkipPatch;
    MakesStep(start, s, faults, Go);
    t := Apply(s, Go);
  }

  lemma ExportHasStarted(start: Origin, s: State, faults: Faults, taskId: string) returns (t: State)
    requires Makes(start, s, faults) && Exports(s) && taskId != "" && taskId !in s.w.exports
    ensures Makes(start, t, faults)
    ensures t == s.(w := s.w.(exports := s.w.exports[taskId := Task(s.pc.creation, s.pc.confirmedAt, TaskActive)]),
                    pc := WriteBackfill(s.pc.now, s.pc.confirmedAt,
                                        StartedPatch(taskId, s.pc.creation, s.pc.confirmedAt), ""), h := t.h)
  {
    hide Makes, Apply, StartedPatch;
    ExportIsStarted(s, taskId);
    MakesStep(start, s, faults, ExportStarted(taskId));
    t := Apply(s, ExportStarted(taskId));
  }

  lemma LimitIsExceeded(start: Origin, s: State, faults: Faults) returns (t: State)
    requires Makes(start, s, faults) && Exports(s)
    ensures Makes(start, t, faults.(refused := faults.refused + 1))
    ensures t == s.(pc := WriteBackfill(s.pc.now, s.pc.confirmedAt, PENDING_PATCH, ""))
  {
    hide Makes;
    MakesStep(start, s, faults, ExportLimited);
    t := Apply(s, ExportLimited);
  }

  /** The export is refused, or starts although the run is told so. */
  lemma ExportIsRefused(start: Origin, s: State, faults: Faults, taskId: string, code: string) returns (t: State)
    requires Makes(start, s, faults) && Exports(s) && (taskId == "" || taskId !in s.w.exports)
    ensures Makes(start, t, faults.(refused := faults.refused + 1))
    ensures t.pc == WriteBackfillError(s.pc.now, s.pc.confirmedAt, Refusal(code))
    ensures t == s.(w := if taskId == "" then s.w
                         else s.w.(exports := s.w.exports[taskId := Task(s.pc.creation, s.pc.confirmedAt, TaskActive)]),
                    pc := t.pc, rep := s.rep.(failed := Some(Refusal(code))), h := t.h)
  {
    hide Makes, Refusal;
    var step := if taskId == "" then ExportDenied(Refusal(code)) else ExportUnanswered(taskId, Refusal(code));
    MakesStep(start, s, faults, step);
    t := Apply(s, step);
  }

  /** The confirmation time is known. */
  lemma TimeIsKnown(start: Origin, s: State, faults: Faults) returns (t: State)
    requires Makes(start, s, faults) && s.pc.ReadClock?
    ensures Makes(start, t, faults)
    ensures var reset := IsReset(s.pc.row, s.pc.creation, s.pc.putAt.Some?, s.pc.observed);
      var confirmedAt := if reset then s.clock else KeptConfirmation(s.pc.row, s.pc.now);
      t == s.(pc := WriteConfirmed(s.pc.now, s.pc.creation, s.pc.observed, s.pc.putAt, reset, confirmedAt),
              rep := s.rep.(drift := reset && Confirmed(RowOf(s.pc.row))))
  {
    hide Makes, Apply, IsReset, KeptConfirmation;
    ClockIsRead(s);
    MakesStep(start, s, faults, Go);
    t := Apply(s, Go);
  }

  /** Time passes, by the clock of the run. */
  lemma TimePasses(start: Origin, s: State, faults: Faults, clock: int) returns (t: State)
    requires Makes(start, s, faults) && s.clock <= clock
    ensures Makes(start, t, faults) && t == s.(clock := clock)
  {
    hide Makes;
    MakesStep(start, s, faults, Tick(clock - s.clock));
    t := Apply(s, Tick(clock - s.clock));
  }

  lemma VisitHasReturned(start: Origin, s: State, faults: Faults) returns (t: State)
    requires Makes(start, s, faults) && s.pc.Return?
    ensures Makes(start, t, faults) && t == s.(pc := Idle, rep := s.rep.(covered := s.pc.complete))
  {
    hide Makes, Apply;
    VisitReturns(s);
    MakesStep(start, s, faults, Go);
    t := Apply(s, Go);
  }

  /** The log group has been looked up. */
  lemma GroupIsSeen(start: Origin, s: State, faults: Faults) returns (t: State)
    requires Makes(start, s, faults) && s.pc.DescribeGroup?
    ensures Makes(start, t, faults) && t == s.(pc := GetRow(s.pc.now, s.w.group))
  {
    hide Makes, Apply;
    GroupIsDescribed(s);
    MakesStep(start, s, faults, Go);
    t := Apply(s, Go);
  }

  /** So has its row. */
  lemma RowIsSeen(start: Origin, s: State, faults: Faults) returns (t: State)
    requires Makes(start, s, faults) && s.pc.GetRow?
    ensures Makes(start, t, faults)
    ensures t == if s.pc.group.None? then
                   s.(pc := WriteMissing(s.pc.now), rep := s.rep.(failed := Some("log_group_not_found")))
                 else
                   s.(pc := DescribeFilters(s.pc.now, s.pc.group.value, s.item), rep := s.rep.(matched := true))
  {
    hide Makes;
    MakesStep(start, s, faults, Go);
    t := Apply(s, Go);
  }

  /** The call that puts the filter raises, and puts it all the same. */
  lemma RaisesAfterPut(start: Origin, s: State, faults: Faults, error: string) returns (t: State)
    requires Makes(start, s, faults) && s.pc.PutFilter? && s.w.group.Some?
    ensures Makes(start, t, faults.(raised := faults.raised + 1)) && HasRaised(t, s.pc.now, s.rep, error)
    ensures t == s.(pc := t.pc, rep := t.rep, h := t.h, w := Filtered(s))
  {
    hide Makes, Filtered, UnsafePut;
    var step := PutUnanswered(Exception(error));
    MakesStep(start, s, faults, step);
    t := Apply(s, step);
  }

  // ---- Writes ----

  /** The assignments that the reconciler writes next, if its next call is a write. */
  function NextWrite(cfg: Config, pc: Pc): Option<Item> {
    match pc
    case WriteMissing(now) => Some(FailurePatch(cfg, "log_group_not_found", now))
    case WriteRefused(now, reason, observed) => Some(RefusePatch(cfg, reason, observed, now))
    case WriteConfirmed(now, creation, observed, _, reset, confirmedAt) =>
      Some(ConfirmPatch(cfg, creation, confirmedAt, observed, reset, now))
    case WriteBackfill(_, _, patch, _) => Some(BackfillPatch(patch))
    case WriteBackfillError(_, _, error) => Some(BackfillErrorPatch(error))
    case WriteCoverage(now, confirmedAt, current) =>
      Some(CoveragePatch(IsComplete(current, confirmedAt, now, cfg.maxLagSeconds)))
    case WriteFailed(now, reason) => Some(FailurePatch(cfg, reason, now))
    case _ => None
  }

  /** Where it goes on once the row has been written, and what it then reports. */
  function AfterWrite(cfg: Config, pc: Pc, row: Item): Pc {
    match pc
    case WriteConfirmed(now, creation, _, _, _, confirmedAt) => StartBackfill(now, creation, confirmedAt, row)
    case WriteBackfill(now, confirmedAt, _, error) =>
      if error != "" then WriteBackfillError(now, confirmedAt, error) else WriteCoverage(now, confirmedAt, row)
    case WriteBackfillError(now, confirmedAt, _) => WriteCoverage(now, confirmedAt, row)
    case WriteCoverage(now, confirmedAt, current) =>
      Return(now, IsComplete(current, confirmedAt, now, cfg.maxLagSeconds))
    case _ => Idle
  }

  function ReportAfterWrite(pc: Pc, rep: Report): Report {
    if pc.WriteBackfill? && pc.error != "" then rep.(failed := Some(pc.error)) else rep
  }

  lemma WriteLeads(s: State)
    requires NextWrite(s.cfg, s.pc).Some?
    ensures Enabled(s, Go)
    ensures var t := Apply(s, Go);
      && t.item == Update(s, NextWrite(s.cfg, s.pc).value)
      && t.cfg == s.cfg && t.name == s.name && t.w == s.w && t.clock == s.clock
      && t.pc == AfterWrite(s.cfg, s.pc, t.item.value) && t.rep == ReportAfterWrite(s.pc, s.rep)
  {
    hide IsComplete, Outstanding;
  }

  // ---- What the services hold ----

  /** The last three are the calls that failed, by the log group that they were about: of the ledger,
      and of the log service. */
  datatype Services = Services(
    cfg: Config,
    clock: int,
    worlds: map<string, World>,
    table: map<string, Item>,
    unwritten: multiset<string>,
    raised: multiset<string>,
    refused: multiset<string>)

  function FaultsIn(v: Services, name: string): Faults {
    Faults(v.unwritten[name] + v.raised[name], v.refused[name])
  }

  lemma KeptAt<T>(before: map<string, T>, after: map<string, T>, name: string, other: string)
    requires before - {name} == after - {name} && other != name
    ensures other in before <==> other in after
    ensures other in before ==> before[other] == after[other]
  {
    assert other in before <==> other in before - {name};
    assert other in after <==> other in after - {name};
    if other in before { assert (before - {name})[other] == (after - {name})[other]; }
  }

  lemma CountKept(before: multiset<string>, after: multiset<string>, name: string, other: string)
    requires before[name := 0] == after[name := 0] && other != name
    ensures before[other] == after[other]
  {
    assert before[other] == before[name := 0][other] && after[other] == after[name := 0][other];
  }

  /** Nothing of other log groups changed. */
  ghost predicate OthersKeptIn(v: Services, v': Services, name: string) {
    && v'.cfg == v.cfg && v.clock <= v'.clock
    && v'.worlds - {name} == v.worlds - {name} && v'.table - {name} == v.table - {name}
    && v'.unwritten[name := 0] == v.unwritten[name := 0]
    && v'.raised[name := 0] == v.raised[name := 0] && v'.refused[name := 0] == v.refused[name := 0]
  }

  /** `s` is what the services hold for `name`, which rests since it was last visited. */
  ghost predicate RestsIn(v: Services, s: State, name: string) {
    && s.cfg == v.cfg && s.name == name && s.clock <= v.clock && s.pc == Idle
    && name in v.worlds && s.w == v.worlds[name] && s.item == LookupIn(v.table, name)
  }

  lemma RestGoesOn(v: Services, v': Services, name: string, s: State, n: string)
    requires OthersKeptIn(v, v', name) && RestsIn(v, s, n) && n != name
    ensures RestsIn(v', s, n) && FaultsIn(v', n) == FaultsIn(v, n)
  {
    KeptAt(v.table, v'.table, name, n);
    KeptAt(v.worlds, v'.worlds, name, n);
    CountKept(v.unwritten, v'.unwritten, name, n);
    CountKept(v.raised, v'.raised, name, n);
    CountKept(v.refused, v'.refused, name, n);
  }

  /** Since `v0` the group has had its turn, or was left alone if it was not `visited` yet. */
  ghost predicate HasCome(v0: Services, v: Services, now: int, n: string, before: State, after: State, visited: bool) {
    && RestsIn(v, after, n)
    && if visited then Turn(before, FaultsIn(v0, n), after, FaultsIn(v, n), now)
       else LeftAlone(before, after) && FaultsIn(v, n) == FaultsIn(v0, n)
  }

  /** The report of the visit is the one of the flags and of the failures. */
  predicate IsListed(s: State, n: string, f: Flags, k: nat, failed: map<string, string>)
    requires k < |f.matched| == |f.subscribed| == |f.covered| == |f.drift|
  {
    s.rep == Report(f.matched[k], f.subscribed[k], f.covered[k], if n in failed then Some(failed[n]) else None,
                    f.drift[k])
  }

  /** The first `i` groups have had their turn, and are listed. */
  ghost predicate ProgressIn(v0: Services, v: Services, now: int, failed: map<string, string>, expected: seq<string>,
                             i: nat, before: map<string, State>, after: map<string, State>, f: Flags) {
    && i <= |expected| && |f.matched| == |f.subscribed| == |f.covered| == |f.drift| == i
    && (forall n :: n in expected ==> n in before && Inv(before[n]) && n in after)
    && (forall k :: 0 <= k < |expected| ==>
          HasCome(v0, v, now, expected[k], before[expected[k]], after[expected[k]], k < i))
    && (forall k :: 0 <= k < i ==> IsListed(after[expected[k]], expected[k], f, k, failed))
  }

  /** The visit of one group leaves the others as they were. */
  lemma ProgressGrows(v0: Services, v: Services, v': Services, now: int, lists: Lists, expected: seq<string>, i: nat,
                      before: map<string, State>, states: map<string, State>, f: Flags, s: State)
    requires i < |expected| && Distinct(expected) && expected[i] !in lists.failed
    requires ProgressIn(v0, v, now, lists.failed, expected, i, before, states, f)
    requires OthersKeptIn(v, v', expected[i]) && RestsIn(v', s, expected[i])
    requires Turn(states[expected[i]], FaultsIn(v, expected[i]), s, FaultsIn(v', expected[i]), now)
    ensures ProgressIn(v0, v', now, AddReport(lists, s.rep, expected[i]).failed, expected, i + 1, before,
                       states[expected[i] := s], AddFlags(f, s.rep))
  {
    hide Turn, LeftAlone, Inv, RestsIn, OthersKeptIn;
    var name, after := expected[i], states[expected[i] := s];
    assert HasCome(v0, v, now, name, before[name], states[name], false);
    TurnStartsLater(before[name], states[name], FaultsIn(v0, name), s, FaultsIn(v', name), now);
    forall k | 0 <= k < |expected| && k != i
      ensures HasCome(v0, v', now, expected[k], before[expected[k]], after[expected[k]], k < i + 1)
    {
      assert HasCome(v0, v, now, expected[k], before[expected[k]], states[expected[k]], k < i);
      RestGoesOn(v, v', name, states[expected[k]], expected[k]);
    }
    forall k | 0 <= k < i
      ensures IsListed(after[expected[k]], expected[k], AddFlags(f, s.rep), k, AddReport(lists, s.rep, name).failed)
    {
      assert IsListed(states[expected[k]], expected[k], f, k, lists.failed);
    }
  }

  /** A group that rests has been changed by others. */
  lemma ProgressChanges(v0: Services, v: Services, v': Services, now: int, failed: map<string, string>,
                        expected: seq<string>, i: nat, before: map<string, State>, states: map<string, State>,
                        f: Flags, j: nat, s: State)
    requires ProgressIn(v0, v, now, failed, expected, i, before, states, f) && Distinct(expected) && j < |expected|
    requires OthersKeptIn(v, v', expected[j]) && RestsIn(v', s, expected[j])
    requires FaultsIn(v', expected[j]) == FaultsIn(v, expected[j]) && LeftAlone(states[expected[j]], s)
    ensures ProgressIn(v0, v', now, failed, expected, i, before, states[expected[j] := s], f)
  {
    hide Turn, LeftAlone, Inv, RestsIn, OthersKeptIn;
    var name, after := expected[j], states[expected[j] := s];
    assert HasCome(v0, v, now, name, before[name], states[name], j < i);
    LeftAloneKeeps(states[name], s);
    if j < i {
      TurnStays(before[name], FaultsIn(v0, name), states[name], FaultsIn(v, name), now, s);
    } else {
      LeftAloneTransitive(before[name], states[name], s);
    }
    forall k | 0 <= k < |expected| && k != j
      ensures HasCome(v0, v', now, expected[k], before[expected[k]], after[expected[k]], k < i)
    {
      assert HasCome(v0, v, now, expected[k], before[expected[k]], states[expected[k]], k < i);
      RestGoesOn(v, v', name, states[expected[k]], expected[k]);
    }
    forall k | 0 <= k < i ensures IsListed(after[expected[k]], expected[k], f, k, failed) {
      assert IsListed(states[expected[k]], expected[k], f, k, failed);
    }
  }

  class ReconcileRun {
    const cfg: Config
    const ledger: CoverageLedger
    const logs: LogsClient
    var matched: seq<string>
    var subscribed: seq<string>
    var covered: seq<string>
    var failed: map<string, string>
    var drift: seq<string>

    constructor (cfg: Config, ledger: CoverageLedger, logs: LogsClient)
      ensures this.cfg == cfg && this.ledger == ledger && this.logs == logs
      ensures matched == [] && subscribed == [] && covered == [] && failed == map[] && drift == []
    {
      this.cfg, this.ledger, this.logs := cfg, ledger, logs;
      matched, subscribed, covered, failed, drift := [], [], [], map[], [];
    }

    /** The protocol state `s` of the log group `name` is what the services hold now. */
    ghost predicate Agrees(s: State, name: string)
      reads ledger, logs
    {
      && s.cfg == cfg && s.name == name && s.clock == logs.clock
      && name in logs.worlds && s.w == logs.worlds[name]
      && s.item == ledger.Lookup(name)
    }

    /** The calls about the log group that failed so far. */
    ghost function FaultsOf(name: string): Faults
      reads ledger, logs
    {
      Faults(ledger.raised[name] + logs.raised[name], logs.refused[name])
    }

    /** The visit that began at `start` has come to `s` by steps of the protocol, and has met exactly
        the faults that the services have counted since. */
    ghost predicate Follows(start: Origin, s: State, name: string)
      reads ledger, logs
    {
      Agrees(s, name) && Makes(start, s, FaultsOf(name))
    }

    /** Nothing of another log group changed. */
    twostate predicate OthersKept(name: string)
      reads ledger, logs
    {
      && old(logs.clock) <= logs.clock
      && ledger.table - {name} == old(ledger.table) - {name}
      && logs.worlds - {name} == old(logs.worlds) - {name}
      && ledger.raised[name := 0] == old(ledger.raised)[name := 0]
      && logs.raised[name := 0] == old(logs.raised)[name := 0]
      && logs.refused[name := 0] == old(logs.refused)[name := 0]
    }

    /** The lists but `failed` grew by what the report on `name` gained. */
    twostate predicate Gained(before: Report, after: Report, name: string)
      reads this
    {
      && matched == Grown(old(matched), after.matched && !before.matched, name)
      && subscribed == Grown(old(subscribed), after.subscribed && !before.subscribed, name)
      && covered == Grown(old(covered), after.covered && !before.covered, name)
      && drift == Grown(old(drift), after.drift && !before.drift, name)
    }

    /** The reported failure is noted. An exception is not, since that is left to the handler. */
    twostate predicate Noted(raised: Option<string>, rep: Report, name: string)
      reads this
    {
      if raised.Some? then failed - {name} == old(failed) - {name}
      else failed == if rep.failed.Some? then old(failed)[name := rep.failed.value] else old(failed)
    }

    /** The visit has ended, or was left by an exception. */
    predicate Ends(s: State, now: int, raised: Option<string>) {
      match raised
      case None => s.pc == Idle
      case Some(error) => s.pc == WriteFailed(now, Exception(error)) && s.rep.failed == Some(Exception(error))
    }

    /** Any number of steps of the others for this log group. */
    method OthersWork(name: string, ghost s0: State) returns (ghost s: State)
      requires Agrees(s0, name)
      modifies logs, ledger
      ensures LeftAlone(s0, s) && Agrees(s, name) && OthersKept(name) && FaultsOf(name) == old(FaultsOf(name))
    {
      hide LeftAlone, Apply, Enabled;
      s := s0;
      LeftAsItIs(s0);
      var rounds: int := *;
      while rounds > 0
        invariant LeftAlone(s0, s) && Agrees(s, name)
        invariant OthersKept(name) && FaultsOf(name) == old(FaultsOf(name))
      {
        var step: Step := *;
        var view := State(cfg, name, logs.clock, logs.worlds[name], ledger.Lookup(name), Idle, NO_REPORT, NO_HISTORY);
        if ByOthers(step) && Enabled(view, step) {
          OthersIgnoreTheRun(s, view, step);
          LeftAloneStep(s0, s, step);
          s := Apply(s, step);
          Make(name, Apply(view, step));
        }
        rounds := rounds - 1;
      }
    }

    /** The services come to hold what the step leaves. */
    method Make(name: string, t: State)
      requires name in logs.worlds && logs.clock <= t.clock
      requires t.item.None? ==> ledger.Lookup(name).None?
      modifies logs`clock, logs`worlds, ledger`table
      ensures logs.clock == t.clock && name in logs.worlds && logs.worlds[name] == t.w && ledger.Lookup(name) == t.item
      ensures OthersKept(name) && FaultsOf(name) == old(FaultsOf(name))
    {
      logs.clock := t.clock;
      logs.worlds := logs.worlds[name := t.w];
      if t.item.Some? {
        ledger.table := ledger.table[name := t.item.value];
      }
    }

    /** The same in the middle of a visit. */
    method Others(name: string, ghost start: Origin, ghost s0: State) returns (ghost s: State)
      requires Follows(start, s0, name)
      modifies logs, ledger
      ensures Follows(start, s, name) && OthersKept(name) && s.pc == s0.pc && s.rep == s0.rep
    {
      hide LeftAlone, Makes;
      s := OthersWork(name, s0);
      LeftAloneKeeps(s0, s);
      MakesWhileOthers(start, s0, FaultsOf(name), s);
    }

    /** A ledger write that is the reconciler's next step. */
    method Write(name: string, patch: Item, ghost start: Origin, ghost s0: State)
      returns (r: Result<Item, string>, ghost s: State)
      requires Follows(start, s0, name) && NextWrite(cfg, s0.pc) == Some(patch)
      modifies logs, ledger
      ensures Follows(start, s, name) && OthersKept(name)
      ensures r.Ok? ==>
        s.item == Some(r.value) && s.pc == AfterWrite(cfg, s0.pc, r.value) && s.rep == ReportAfterWrite(s0.pc, s0.rep)
      ensures r.Err? && !s0.pc.WriteFailed? ==> HasRaised(s, s0.pc.now, s0.rep, r.error)
      ensures r.Err? && s0.pc.WriteFailed? ==> s.pc == Idle && s.rep == s0.rep
    {
      hide Makes, Apply, AfterWrite, ReportAfterWrite;
      s := Others(name, start, s0);
      ghost var faults := FaultsOf(name);
      r := ledger.Update(name, patch);
      if r.Ok? {
        WriteLeads(s);
        MakesStep(start, s, faults, Go);
        s := Apply(s, Go);
      } else if s.pc.WriteFailed? {
        s := RaisesAgain(start, s, faults, r.error);
      } else {
        s := Raises(start, s, faults, r.error);
      }
    }

    /** `put_subscription_filter`. */
    method PutOurs(name: string, filterName: string, ghost start: Origin, ghost s0: State)
      returns (r: Result<(), string>, ghost s: State)
      requires Follows(start, s0, name) && s0.pc.PutFilter? && filterName == FilterName(cfg, name)
      modifies logs, ledger
      ensures Follows(start, s, name) && OthersKept(name)
      ensures r.Err? ==> HasRaised(s, s0.pc.now, s0.rep, r.error)
      ensures r.Ok? ==>
        && s.pc == CoverageProtocol.ReadClock(s0.pc.now, s0.pc.creation, s0.pc.row, OurValue(cfg), Some(s.clock))
        && s.rep == s0.rep.(subscribed := true)
    {
      hide Makes, Put;
      s := Others(name, start, s0);
      ghost var faults, worlds := FaultsOf(name), logs.worlds;
      r := logs.PutSubscriptionFilter(name, Filter(filterName, OurValue(cfg)));
      if r.Ok? {
        s := PutSucceeds(start, s, faults);
      } else if logs.worlds != worlds {
        s := RaisesAfterPut(start, s, faults, r.error);
      } else {
        s := Raises(start, s, faults, r.error);
      }
    }

    /** `_subscription_status`. */
    method SubscriptionStatus(name: string, ghost start: Origin, ghost s0: State)
      returns (r: Result<Status, string>, ghost s: State)
      requires Follows(start, s0, name) && s0.pc.DescribeFilters?
      modifies logs, ledger
      ensures Follows(start, s, name) && OthersKept(name)
      ensures r.Err? ==> HasRaised(s, s0.pc.now, s0.rep, r.error)
      ensures r.Ok? && r.value.owned ==>
        && s.pc == CoverageProtocol.ReadClock(s0.pc.now, s0.pc.creation, s0.pc.row, r.value.observed,
                                              if r.value.created then Some(s.clock) else None)
        && s.rep == s0.rep.(subscribed := true)
      ensures r.Ok? ==> (r.value.owned ==> r.value.reason == "") && (r.value.created ==> r.value.owned)
      ensures r.Ok? && !r.value.owned ==>
        && s.pc == WriteRefused(s0.pc.now, r.value.reason, r.value.observed)
        && s.rep == s0.rep.(failed := Some(r.value.reason), drift := true)
    {
      hide Makes, Inspect;
      s := Others(name, start, s0);
      var filterName := FilterName(cfg, name);
      ghost var faults := FaultsOf(name);
      var existing := logs.DescribeSubscriptionFilters(name);
      if existing.Err? {
        s := Raises(start, s, faults, existing.error);
        return Err(existing.error), s;
      }
      s := FiltersAreSeen(start, s, faults);
      match Inspect(existing.value, filterName, cfg) {
        case Owned(observed) => return Ok(Status(true, "", false, observed)), s;
        case Refused(reason, observed) => return Ok(Status(false, reason, false, observed)), s;
        case NeedsFilter =>
          var put;
          put, s := PutOurs(name, filterName, start, s);
          if put.Err? { return Err(put.error), s; }
          return Ok(Status(true, "", true, OurValue(cfg))), s;
      }
    }

    /** `_start_backfill`: the row as it is now, and an error or the empty string. */
    method StartBackfillOf(name: string, state: Item, creation: int, confirmedAt: int, ghost start: Origin,
                           ghost s0: State)
      returns (r: Result<(Item, string), string>, ghost s: State)
      requires Follows(start, s0, name)
      requires s0.pc.StartBackfill? && s0.pc.creation == creation
      requires s0.pc.confirmedAt == confirmedAt && s0.pc.current == state
      modifies logs, ledger
      ensures Follows(start, s, name) && OthersKept(name)
      ensures r.Err? ==> HasRaised(s, s0.pc.now, s0.rep, r.error)
      ensures r.Ok? && r.value.1 == "" ==> s.pc == WriteCoverage(s0.pc.now, confirmedAt, r.value.0) && s.rep == s0.rep
      ensures r.Ok? && r.value.1 != "" ==>
        s.pc == WriteBackfillError(s0.pc.now, confirmedAt, r.value.1) && s.rep == s0.rep.(failed := Some(r.value.1))
    {
      hide Makes, Merge;
      s := s0;
      if state.bf.status == Some(COMPLETED) {
        s := NoExportIsNeeded(start, s, FaultsOf(name));
        return Ok((state, "")), s;
      }
      if Truthy(state.bf.taskId) {
        r, s := PollBackfill(name, state, start, s);
        return;
      }
      if creation >= confirmedAt {
        s := NoExportIsNeeded(start, s, FaultsOf(name));
        r, s := WriteBackfillFields(name, SkipPatch(creation, confirmedAt), "", start, s);
        return;
      }
      r, s := StartExport(name, state, creation, confirmedAt, start, s);
    }

    method StartExport(name: string, state: Item, creation: int, confirmedAt: int, ghost start: Origin,
                       ghost s0: State)
      returns (r: Result<(Item, string), string>, ghost s: State)
      requires Follows(start, s0, name) && Exports(s0)
      requires s0.pc.creation == creation && s0.pc.confirmedAt == confirmedAt && s0.pc.current == state
      modifies logs, ledger
      ensures Follows(start, s, name) && OthersKept(name)
      ensures r.Err? ==> HasRaised(s, s0.pc.now, s0.rep, r.error)
      ensures r.Ok? && r.value.1 == "" ==> s.pc == WriteCoverage(s0.pc.now, confirmedAt, r.value.0) && s.rep == s0.rep
      ensures r.Ok? && r.value.1 != "" ==>
        s.pc == WriteBackfillError(s0.pc.now, confirmedAt, r.value.1) && s.rep == s0.rep.(failed := Some(r.value.1))
    {
      hide Makes, Merge, StartedPatch;
      s := Others(name, start, s0);
      ghost var faults := FaultsOf(name);
      ghost var started;
      var task;
      task, started := logs.CreateExportTask(name, creation, confirmedAt);
      match task {
        case Ok(taskId) =>
          s := ExportHasStarted(start, s, faults, taskId);
          r, s := WriteBackfillFields(name, StartedPatch(taskId, creation, confirmedAt), "", start, s);
        case Err(code) =>
          if code == "LimitExceededException" {
            s := LimitIsExceeded(start, s, faults);
            r, s := WriteBackfillFields(name, PENDING_PATCH, "", start, s);
          } else {
            s := ExportIsRefused(start, s, faults, started, code);
            r := Ok((state, Refusal(code)));
          }
      }
    }

    method PollBackfill(name: string, state: Item, ghost start: Origin, ghost s0: State)
      returns (r: Result<(Item, string), string>, ghost s: State)
      requires Follows(start, s0, name) && s0.pc.StartBackfill? && s0.pc.current == state
      requires PlanBackfill(state.bf, s0.pc.creation, s0.pc.confirmedAt).Poll?
      modifies logs, ledger
      ensures Follows(start, s, name) && OthersKept(name)
      ensures r.Err? ==> HasRaised(s, s0.pc.now, s0.rep, r.error)
      ensures r.Ok? && r.value.1 == "" ==>
        s.pc == WriteCoverage(s0.pc.now, s0.pc.confirmedAt, r.value.0) && s.rep == s0.rep
      ensures r.Ok? && r.value.1 != "" ==>
        && s.pc == WriteBackfillError(s0.pc.now, s0.pc.confirmedAt, r.value.1)
        && s.rep == s0.rep.(failed := Some(r.value.1))
    {
      hide Makes, Merge;
      s := Others(name, start, s0);
      ghost var faults := FaultsOf(name);
      var code := logs.DescribeExportTask(name, state.bf.taskId.value);
      if code.Err? {
        s := Raises(start, s, faults, code.error);
        return Err(code.error), s;
      }
      if code.value.None? {
        s := ExportIsUnseen(start, s, faults);
        return Ok((state, "backfill_task_unobservable")), s;
      }
      if code.value.value == TaskActive {
        s := ExportIsSeen(start, s, faults, state.bf.taskId.value);
        return Ok((state, "")), s;
      }
      var t := logs.ReadClock();
      s := TimePasses(start, s, faults, t);
      s := ExportIsSeen(start, s, faults, state.bf.taskId.value);
      var (patch, error) := PollOutcome(code.value.value, t);
      r, s := WriteBackfillFields(name, patch.value, error, start, s);
    }

    method WriteBackfillFields(name: string, patch: Backfill, error: string, ghost start: Origin, ghost s0: State)
      returns (r: Result<(Item, string), string>, ghost s: State)
      requires Follows(start, s0, name)
      requires s0.pc.WriteBackfill? && s0.pc.patch == patch && s0.pc.error == error
      modifies logs, ledger
      ensures Follows(start, s, name) && OthersKept(name)
      ensures r.Err? ==> HasRaised(s, s0.pc.now, s0.rep, r.error)
      ensures r.Ok? ==> r.value.1 == error
      ensures r.Ok? && error == "" ==> s.pc == WriteCoverage(s0.pc.now, s0.pc.confirmedAt, r.value.0) && s.rep == s0.rep
      ensures r.Ok? && error != "" ==>
        s.pc == WriteBackfillError(s0.pc.now, s0.pc.confirmedAt, error) && s.rep == s0.rep.(failed := Some(error))
    {
      hide Follows;
      s := s0;
      var row;
      row, s := Write(name, BackfillPatch(patch), start, s);
      if row.Err? { return Err(row.error), s; }
      return Ok((row.value, error)), s;
    }

    /** The confirmation time: the clock for a new generation, otherwise the one recorded. */
    method ConfirmationTime(name: string, now: int, creation: int, state: Option<Item>, status: Status, reset: bool,
                            ghost start: Origin, ghost s0: State)
      returns (confirmedAt: int, ghost s: State)
      requires Follows(start, s0, name)
      requires s0.pc.ReadClock?
      requires s0.pc == CoverageProtocol.ReadClock(now, creation, state, status.observed, s0.pc.putAt)
      requires s0.pc.putAt.Some? == status.created && reset == IsReset(state, creation, status.created, status.observed)
      modifies logs, ledger
      ensures Follows(start, s, name) && OthersKept(name)
      ensures s.pc == WriteConfirmed(now, creation, status.observed, s0.pc.putAt, reset, confirmedAt)
      ensures s.rep == s0.rep.(drift := reset && Confirmed(RowOf(state)))
    {
      hide Makes, IsReset, KeptConfirmation;
      s := s0;
      if reset {
        s := Others(name, start, s);
        ghost var faults := FaultsOf(name);
        confirmedAt := logs.ReadClock();
        s := TimePasses(start, s, faults, confirmedAt);
      } else {
        confirmedAt := KeptConfirmation(state, now);
      }
      s := TimeIsKnown(start, s, FaultsOf(name));
    }

    /** Decides whether a generation starts, and writes the confirmation: the row and its time. */
    method Confirm(name: string, now: int, creation: int, state: Option<Item>, status: Status,
                   ghost start: Origin, ghost s0: State)
      returns (r: Result<(Item, int), string>, ghost s: State)
      requires Follows(start, s0, name)
      requires s0.pc.ReadClock?
      requires s0.pc == CoverageProtocol.ReadClock(now, creation, state, status.observed, s0.pc.putAt)
      requires s0.pc.putAt.Some? == status.created && !s0.rep.drift
      modifies this`drift, logs, ledger
      ensures Follows(start, s, name) && OthersKept(name)
      ensures drift == Grown(old(drift), s.rep.drift, name) && s.rep.(drift := false, failed := s0.rep.failed) == s0.rep
      ensures r.Ok? ==> s.pc == StartBackfill(now, creation, r.value.1, r.value.0) && s.rep.failed == s0.rep.failed
      ensures r.Err? ==> Ends(s, now, Some(r.error))
    {
      hide Follows, ConfirmPatch, IsReset;
      var reset := IsReset(state, creation, status.created, status.observed);
      if reset && Confirmed(RowOf(state)) {
        drift := drift + [name];
      }
      var confirmedAt;
      confirmedAt, s := ConfirmationTime(name, now, creation, state, status, reset, start, s0);
      var row;
      row, s := Write(name, ConfirmPatch(cfg, creation, confirmedAt, status.observed, reset, now), start, s);
      if row.Err? { return Err(row.error), s; }
      return Ok((row.value, confirmedAt)), s;
    }

    method ReportBackfillError(name: string, error: string, ghost start: Origin, ghost s0: State)
      returns (r: Result<Item, string>, ghost s: State)
      requires Follows(start, s0, name)
      requires s0.pc.WriteBackfillError? && s0.pc.error == error
      modifies this`failed, logs, ledger
      ensures Follows(start, s, name) && OthersKept(name)
      ensures failed == old(failed)[name := error]
      ensures r.Ok? ==> s.pc == WriteCoverage(s0.pc.now, s0.pc.confirmedAt, r.value) && s.rep == s0.rep
      ensures r.Err? ==> HasRaised(s, s0.pc.now, s0.rep, r.error)
    {
      hide Follows;
      failed := failed[name := error];
      r, s := Write(name, BackfillErrorPatch(error), start, s0);
    }

    /** Writes whether the group is covered, and lists it if so. */
    method FinishGroup(name: string, now: int, state: Item, confirmedAt: int, ghost start: Origin, ghost s0: State)
      returns (raised: Option<string>, ghost s: State)
      requires Follows(start, s0, name) && s0.pc == WriteCoverage(now, confirmedAt, state)
      requires !s0.rep.covered
      modifies this`covered, logs, ledger
      ensures Follows(start, s, name) && OthersKept(name)
      ensures s.rep.(covered := false, failed := s0.rep.failed) == s0.rep
      ensures covered == Grown(old(covered), s.rep.covered, name)
      ensures Ends(s, now, raised) && (raised.None? ==> s.rep.failed == s0.rep.failed)
    {
      hide Makes, IsComplete;
      s := s0;
      var complete := IsComplete(state, confirmedAt, now, cfg.maxLagSeconds);
      var written;
      written, s := Write(name, CoveragePatch(complete), start, s);
      if written.Err? { return Some(written.error), s; }
      if complete {
        covered := covered + [name];
      }
      s := VisitHasReturned(start, s, FaultsOf(name));
      return None, s;
    }

    method BackfillGroup(name: string, now: int, creation: int, state: Item, confirmedAt: int,
                         ghost start: Origin, ghost s0: State)
      returns (raised: Option<string>, ghost s: State)
      requires Follows(start, s0, name) && s0.pc == StartBackfill(now, creation, confirmedAt, state)
      requires !s0.rep.covered && s0.rep.failed.None?
      modifies this`covered, this`failed, logs, ledger
      ensures Follows(start, s, name) && OthersKept(name)
      ensures s.rep.(covered := false, failed := None) == s0.rep && covered == Grown(old(covered), s.rep.covered, name)
      ensures Ends(s, now, raised) && Noted(raised, s.rep, name)
    {
      hide Follows;
      s := s0;
      var started;
      started, s := StartBackfillOf(name, state, creation, confirmedAt, start, s);
      if started.Err? { return Some(started.error), s; }
      var (row, backfillError) := started.value;
      if backfillError != "" {
        var updated;
        updated, s := ReportBackfillError(name, backfillError, start, s);
        if updated.Err? { return Some(updated.error), s; }
        row := updated.value;
      }
      raised, s := FinishGroup(name, now, row, confirmedAt, start, s);
    }

    /** The rest of `reconcile_group` once the subscription is known to be ours. */
    method ConfirmGroup(name: string, now: int, creation: int, state: Option<Item>, status: Status,
                        ghost start: Origin, ghost s0: State)
      returns (raised: Option<string>, ghost s: State)
      requires Follows(start, s0, name)
      requires s0.pc.ReadClock? && s0.pc.now == now && s0.pc.creation == creation && s0.pc.row == state
      requires s0.pc.observed == status.observed && s0.pc.putAt.Some? == status.created
      requires !s0.rep.drift && !s0.rep.covered && s0.rep.failed.None?
      modifies this, logs, ledger
      ensures Follows(start, s, name) && OthersKept(name)
      ensures s.rep.matched == s0.rep.matched && s.rep.subscribed == s0.rep.subscribed
      ensures Gained(s0.rep, s.rep, name) && Ends(s, now, raised) && Noted(raised, s.rep, name)
    {
      hide Follows;
      s := s0;
      var row;
      row, s := Confirm(name, now, creation, state, status, start, s);
      if row.Err? { return Some(row.error), s; }
      raised, s := BackfillGroup(name, now, creation, row.value.0, row.value.1, start, s);
    }

    /** The branch of a log group that does not exist. */
    method ReportMissing(name: string, now: int, ghost start: Origin, ghost s0: State)
      returns (raised: Option<string>, ghost s: State)
      requires Follows(start, s0, name) && s0.pc == WriteMissing(now) && s0.rep.failed == Some("log_group_not_found")
      modifies this`failed, logs, ledger
      ensures Follows(start, s, name) && OthersKept(name)
      ensures s.rep.(failed := s0.rep.failed) == s0.rep && Ends(s, now, raised) && Noted(raised, s.rep, name)
    {
      hide Follows;
      failed := failed[name := "log_group_not_found"];
      var written;
      written, s := Write(name, FailurePatch(cfg, "log_group_not_found", now), start, s0);
      raised := if written.Err? then Some(written.error) else None;
    }

    /** The branch of a filter that is not ours to change. */
    method ReportRefused(name: string, now: int, status: Status, ghost start: Origin, ghost s0: State)
      returns (raised: Option<string>, ghost s: State)
      requires Follows(start, s0, name) && s0.pc == WriteRefused(now, status.reason, status.observed)
      requires s0.rep.failed == Some(status.reason)
      modifies this`failed, this`drift, logs, ledger
      ensures Follows(start, s, name) && OthersKept(name) && drift == old(drift) + [name]
      ensures s.rep.(failed := s0.rep.failed) == s0.rep && Ends(s, now, raised) && Noted(raised, s.rep, name)
    {
      hide Follows;
      drift := drift + [name];
      failed := failed[name := status.reason];
      var refused;
      refused, s := Write(name, RefusePatch(cfg, status.reason, status.observed, now), start, s0);
      raised := if refused.Err? then Some(refused.error) else None;
    }

    /** The first call of `reconcile_group`: the log group, if it exists. */
    method FetchGroup(name: string, ghost start: Origin, ghost s0: State)
      returns (r: Result<Option<int>, string>, ghost s: State)
      requires Follows(start, s0, name) && s0.pc.DescribeGroup?
      modifies logs, ledger
      ensures Follows(start, s, name) && OthersKept(name)
      ensures r.Err? ==> HasRaised(s, s0.pc.now, s0.rep, r.error)
      ensures r.Ok? ==> s.pc == GetRow(s0.pc.now, r.value) && s.rep == s0.rep
    {
      hide Makes;
      s := Others(name, start, s0);
      ghost var faults := FaultsOf(name);
      r := logs.DescribeLogGroup(name);
      if r.Err? {
        s := Raises(start, s, faults, r.error);
      } else {
        s := GroupIsSeen(start, s, faults);
      }
    }

    /** The second one: its row. */
    method FetchRow(name: string, ghost start: Origin, ghost s0: State)
      returns (r: Result<Option<Item>, string>, ghost s: State)
      requires Follows(start, s0, name) && s0.pc.GetRow?
      modifies logs, ledger
      ensures Follows(start, s, name) && OthersKept(name)
      ensures r.Err? ==> HasRaised(s, s0.pc.now, s0.rep, r.error)
      ensures r.Ok? && s0.pc.group.None? ==>
        s.pc == WriteMissing(s0.pc.now) && s.rep == s0.rep.(failed := Some("log_group_not_found"))
      ensures r.Ok? && s0.pc.group.Some? ==>
        s.pc == DescribeFilters(s0.pc.now, s0.pc.group.value, r.value) && s.rep == s0.rep.(matched := true)
    {
      hide Makes;
      s := Others(name, start, s0);
      ghost var faults := FaultsOf(name);
      r := ledger.Get(name);
      if r.Err? {
        s := Raises(start, s, faults, r.error);
      } else {
        s := RowIsSeen(start, s, faults);
      }
    }

    /** `reconcile_group`. */
    method ReconcileGroup(name: string, now: int, ghost start: Origin, ghost s0: State)
      returns (raised: Option<string>, ghost s: State)
      requires Follows(start, s0, name) && s0.pc == DescribeGroup(now) && s0.rep == NO_REPORT
      modifies this, logs, ledger
      ensures Follows(start, s, name) && OthersKept(name)
      ensures Gained(NO_REPORT, s.rep, name) && Ends(s, now, raised) && Noted(raised, s.rep, name)
    {
      hide Follows;
      var group;
      group, s := FetchGroup(name, start, s0);
      if group.Err? { return Some(group.error), s; }
      var state;
      state, s := FetchRow(name, start, s);
      if state.Err? { return Some(state.error), s; }
      if group.value.None? {
        raised, s := ReportMissing(name, now, start, s);
        return;
      }
      matched := matched + [name];
      raised, s := ReconcileMatched(name, now, group.value.value, state.value, start, s);
    }

    /** The rest of `reconcile_group`, for a log group that exists. */
    method ReconcileMatched(name: string, now: int, creation: int, state: Option<Item>, ghost start: Origin,
                            ghost s0: State)
      returns (raised: Option<string>, ghost s: State)
      requires Follows(start, s0, name)
      requires s0.pc == DescribeFilters(now, creation, state) && s0.rep == NO_REPORT.(matched := true)
      modifies this, logs, ledger
      ensures Follows(start, s, name) && OthersKept(name) && s.rep.matched
      ensures Gained(s0.rep, s.rep, name) && Ends(s, now, raised) && Noted(raised, s.rep, name)
    {
      hide Follows;
      var status;
      status, s := SubscriptionStatus(name, start, s0);
      if status.Err? { return Some(status.error), s; }
      if !status.value.owned {
        raised, s := ReportRefused(name, now, status.value, start, s);
        return;
      }
      subscribed := subscribed + [name];
      raised, s := ConfirmGroup(name, now, creation, state, status.value, start, s);
    }

    /** The exception handler of the loop: the failure is reported and written, if it can be. */
    method RecordFailure(name: string, now: int, detail: string, ghost start: Origin, ghost s0: State)
      returns (ghost s: State)
      requires Follows(start, s0, name) && s0.pc == WriteFailed(now, Exception(detail))
      modifies this`failed, logs, ledger
      ensures Follows(start, s, name) && OthersKept(name) && s.pc == Idle && s.rep == s0.rep
      ensures failed == old(failed)[name := Exception(detail)]
    {
      hide Follows, Exception;
      failed := failed[name := Exception(detail)];
      var written;
      written, s := Write(name, FailurePatch(cfg, Exception(detail), now), start, s0);
    }

    lemma NotedAgain(before: map<string, string>, after: map<string, string>, name: string, reason: string)
      requires after - {name} == before - {name}
      ensures after[name := reason] == before[name := reason]
    {
      forall n | n != name ensures (n in after <==> n in before) && (n in after ==> after[n] == before[n]) {
        KeptAt(before, after, name, n);
      }
    }

    ghost function Said(): Lists
      reads this
    {
      Lists(matched, subscribed, covered, failed, drift)
    }

    /** `reconcile_group` under the loop's exception handler. */
    method VisitGroup(name: string, now: int, ghost start: Origin) returns (ghost s: State)
      requires Follows(start, start.s, name) && start.s.pc == DescribeGroup(now) && start.s.rep == NO_REPORT
      modifies this, logs, ledger
      ensures Follows(start, s, name) && OthersKept(name) && s.pc == Idle
      ensures Said() == AddReport(old(Said()), s.rep, name)
    {
      hide Follows, Exception;
      ghost var noted := failed;
      var raised;
      raised, s := ReconcileGroup(name, now, start, start.s);
      if raised.Some? {
        NotedAgain(noted, failed, name, Exception(raised.value));
        s := RecordFailure(name, now, raised.value, start, s);
      }
    }

    ghost function Now(): Services
      reads ledger, logs
    {
      Services(cfg, logs.clock, logs.worlds, ledger.table, ledger.raised, logs.raised, logs.refused)
    }

    /** `s` is what the services held for `name` when they were last used for it, between visits. */
    ghost predicate Rests(s: State, name: string)
      reads ledger, logs
    {
      RestsIn(Now(), s, name)
    }

    /** The group as the services hold it now. */
    lemma Wakes(s0: State, name: string) returns (s: State)
      requires Rests(s0, name)
      ensures LeftAlone(s0, s) && Agrees(s, name) && s.pc == Idle && s == s0.(clock := logs.clock)
    {
      hide LeftAlone;
      LeftAsItIs(s0);
      LeftAloneStep(s0, s0, Tick(logs.clock - s0.clock));
      s := Apply(s0, Tick(logs.clock - s0.clock));
    }

    /** A whole turn for a group that rests: a visit that makes the calls, what it adds to the lists,
        and that the group rests again. */
    method Visit(name: string, now: int, ghost s0: State) returns (ghost s: State)
      requires Rests(s0, name) && Inv(s0) && 0 < now <= logs.clock
      modifies this, logs, ledger
      ensures Turn(s0, old(FaultsOf(name)), s, FaultsOf(name), now) && Rests(s, name) && OthersKept(name)
      ensures Said() == AddReport(old(Said()), s.rep, name)
      ensures Reported(s, FaultsOf(name).raised - old(FaultsOf(name)).raised, now)
    {
      hide LeftAlone, Makes, Turn, Inv, Reported;
      ghost var a := Wakes(s0, name);
      VisitIsBegun(a, now);
      ghost var start := Origin(Apply(a, Begin(now)), FaultsOf(name));
      MakesNothing(start);
      s := VisitGroup(name, now, start);
      TurnIsMade(s0, a, start.faults, s, FaultsOf(name), now);
      TurnReports(s0, start.faults, s, FaultsOf(name), now);
    }

    /** Any number of steps of the others for a group that is not being visited. */
    method OthersAtRest(name: string, ghost s0: State) returns (ghost s: State)
      requires Rests(s0, name)
      modifies logs, ledger
      ensures LeftAlone(s0, s) && Rests(s, name) && OthersKept(name) && FaultsOf(name) == old(FaultsOf(name))
    {
      hide LeftAlone;
      ghost var a := Wakes(s0, name);
      s := OthersWork(name, a);
      LeftAloneTransitive(s0, a, s);
      LeftAloneKeeps(a, s);
    }

    ghost predicate Progress(v0: Services, now: int, expected: seq<string>, i: nat, before: map<string, State>,
                             after: map<string, State>, f: Flags)
      reads this, ledger, logs
    {
      ProgressIn(v0, Now(), now, failed, expected, i, before, after, f)
    }

    /** Between two visits the others may have changed every group. */
    method OthersEverywhere(ghost v0: Services, now: int, expected: seq<string>, i: nat,
                            ghost before: map<string, State>, ghost states: map<string, State>, ghost f: Flags)
      returns (ghost after: map<string, State>)
      requires Distinct(expected) && Progress(v0, now, expected, i, before, states, f)
      modifies logs, ledger
      ensures old(logs.clock) <= logs.clock && Progress(v0, now, expected, i, before, after, f)
    {
      hide LeftAlone, Turn, Inv, RestsIn, IsListed;
      after := states;
      for j := 0 to |expected|
        invariant old(logs.clock) <= logs.clock && Progress(v0, now, expected, i, before, after, f)
      {
        var name := expected[j];
        ghost var v := Now();
        assert HasCome(v0, v, now, name, before[name], after[name], j < i);
        ghost var s := OthersAtRest(name, after[name]);
        ProgressChanges(v0, v, Now(), now, failed, expected, i, before, after, f, j, s);
        after := after[name := s];
      }
    }

    /** One turn of the loop of `reconcile`. */
    method VisitNext(ghost v0: Services, now: int, expected: seq<string>, i: nat, ghost before: map<string, State>,
                     ghost states: map<string, State>, ghost f: Flags)
      returns (ghost s: State)
      requires i < |expected| && Distinct(expected) && 0 < now <= logs.clock
      requires Progress(v0, now, expected, i, before, states, f)
      requires Listed(expected[..i], f, Said())
      modifies this, logs, ledger
      ensures now <= logs.clock
      ensures Progress(v0, now, expected, i + 1, before, states[expected[i] := s], AddFlags(f, s.rep))
      ensures Listed(expected[..i + 1], AddFlags(f, s.rep), Said())
    {
      hide LeftAlone, Turn, Inv, Listed, RestsIn, IsListed, Reported, Flagged;
      var name := expected[i];
      ghost var lists, v := Said(), Now();
      NotYetListed(expected, i, f, lists);
      assert HasCome(v0, v, now, name, before[name], states[name], false);
      WakesInOrder(before[name], states[name]);
      s := Visit(name, now, states[name]);
      ReportIsOrdered(s, FaultsOf(name).raised - FaultsIn(v, name).raised, now);
      ListedGrows(expected, i, f, s.rep, lists);
      ProgressGrows(v0, v, Now(), now, lists, expected, i, before, states, f, s);
    }

    lemma NotYetListed(expected: seq<string>, i: nat, f: Flags, lists: Lists)
      requires i < |expected| && Distinct(expected) && Listed(expected[..i], f, lists)
      ensures expected[i] !in expected[..i] && expected[i] !in lists.failed
    {
    }

    lemma WakesInOrder(s: State, t: State)
      requires LeftAlone(s, t) && Inv(s)
      ensures Inv(t)
    {
      hide LeftAlone, Inv;
      LeftAloneKeeps(s, t);
    }

    lemma ReportIsOrdered(s: State, raised: int, now: int)
      requires Reported(s, raised, now)
      ensures (s.rep.covered ==> s.rep.subscribed && s.rep.failed.None?) && (s.rep.subscribed ==> s.rep.matched)
    {
    }

    /** The loop of `reconcile`. */
    method VisitAll(ghost v0: Services, expected: seq<string>, now: int, ghost before: map<string, State>)
      returns (ghost after: map<string, State>, ghost f: Flags)
      requires Distinct(expected) && 0 < now <= logs.clock && v0 == Now()
      requires Said() == Lists([], [], [], map[], [])
      requires forall n :: n in expected ==> n in before && Rests(before[n], n) && Inv(before[n])
      modifies this, logs, ledger
      ensures now <= logs.clock && Listed(expected, f, Said())
      ensures Progress(v0, now, expected, |expected|, before, after, f)
    {
      hide LeftAlone, Turn, Inv, RestsIn, IsListed, Listed;
      StartListed();
      after, f := before, Flags([], [], [], []);
      forall n | n in expected ensures LeftAlone(before[n], before[n]) { LeftAsItIs(before[n]); }
      assert expected[..0] == [];
      for i := 0 to |expected|
        invariant now <= logs.clock
        invariant Listed(expected[..i], f, Said())
        invariant Progress(v0, now, expected, i, before, after, f)
      {
        after := OthersEverywhere(v0, now, expected, i, before, after, f);
        ghost var s := VisitNext(v0, now, expected, i, before, after, f);
        after, f := after[expected[i] := s], AddFlags(f, s.rep);
      }
      assert expected[..|expected|] == expected;
      after := OthersEverywhere(v0, now, expected, |expected|, before, after, f);
    }

    /** Since `v0` the group was visited once, by all the calls of a visit, and rests. The lists hold what
        that visit reported, and an exception exactly if a call raised. Unless the write of the exception
        raised too, the row says when this run checked it, that it is "complete" exactly if the group is
        covered, and the reported reason of a failure. */
    ghost predicate GroupAgrees(v0: Services, now: int, before: State, after: State, n: string)
      reads this, ledger, logs
    {
      var raised := FaultsOf(n).raised - FaultsIn(v0, n).raised;
      && Rests(after, n) && Turn(before, FaultsIn(v0, n), after, FaultsOf(n), now)
      && after.rep == Report(n in matched, n in subscribed, n in covered,
                             if n in failed then Some(failed[n]) else None, n in drift)
      && 0 <= raised <= 2 && (after.h.unwritten <==> raised == 2)
      && (raised > 0 <==> n in failed && "reconcile_failed:" <= failed[n])
      && (raised < 2 ==>
            var meta := RowOf(ledger.Lookup(n)).meta;
            && meta.checkedAt == Some(now) && meta.ownerStage == Some(cfg.stage)
            && (n in covered <==> meta.coverage == Some(Complete))
            && (if n in failed then failed[n] else "") == meta.failureReason.GetOr(""))
    }

    /** If no call of the group's visit raised or was refused, and the visit got past the filter: the report gives
        a failure exactly for a backfill that has failed or was cancelled, as the row then says too. */
    lemma BackfillIsReported(v0: Services, now: int, before: State, after: State, n: string)
      requires Inv(before) && GroupAgrees(v0, now, before, after, n)
      requires FaultsOf(n) == FaultsIn(v0, n) && n in subscribed
      ensures var row := RowOf(ledger.Lookup(n));
        && (n in failed <==> row.bf.status in {Some(FAILED), Some(CANCELLED)})
        && (row.bf.status == Some(FAILED) ==> n in failed && failed[n] == "backfill_failed")
        && (row.bf.status == Some(CANCELLED) ==> n in failed && failed[n] == "backfill_cancelled")
        && (n in failed ==> row.meta.coverage == Some(Unknown) && row.meta.failureReason == Some(failed[n]))
    {
      hide Inv, Turn;
      CoverageFailures.TurnReportsStatus(before, after, FaultsOf(n), now);
    }

    /** The report lists nested, duplicate-free parts of the sorted names, its status is "complete"
        exactly when every name is covered, and each group agrees. */
    ghost predicate ReportAgrees(names: seq<string>, v0: Services, now: int, before: map<string, State>,
                                 after: map<string, State>, report: RunReport)
      reads this, ledger, logs
    {
      && report.expected == Sort(names) && Distinct(report.expected)
      && report.matched == matched && report.subscribed == subscribed && report.covered == covered
      && report.failed == failed && report.drift == drift
      && Subsequence(matched, report.expected) && Subsequence(subscribed, matched) && Subsequence(covered, subscribed)
      && Subsequence(drift, report.expected)
      && Distinct(matched) && Distinct(subscribed) && Distinct(covered) && Distinct(drift)
      && (forall n :: n in failed ==> n in names && n !in covered)
      && (report.coverage == Complete <==> names != [] && forall n :: n in names ==> n in covered)
      && (forall n :: n in names ==> n in before && n in after && GroupAgrees(v0, now, before[n], after[n], n))
    }

    lemma VisitedAgrees(v0: Services, now: int, expected: seq<string>, before: map<string, State>,
                        after: map<string, State>, f: Flags, k: nat)
      requires Progress(v0, now, expected, |expected|, before, after, f) && k < |expected|
      requires IsFlagged(expected, f.matched, matched) && IsFlagged(expected, f.subscribed, subscribed)
      requires IsFlagged(expected, f.covered, covered) && IsFlagged(expected, f.drift, drift)
      ensures GroupAgrees(v0, now, before[expected[k]], after[expected[k]], expected[k])
    {
      hide LeftAlone, Turn, Inv;
      var n := expected[k];
      assert HasCome(v0, Now(), now, n, before[n], after[n], true);
      assert IsListed(after[n], n, f, k, failed);
      TurnReports(before[n], FaultsIn(v0, n), after[n], FaultsOf(n), now);
    }

    /** What the flags and the progress of the whole loop say about the lists and the groups. */
    lemma AllAgree(names: seq<string>, v0: Services, now: int, expected: seq<string>, before: map<string, State>,
                   after: map<string, State>, f: Flags)
      requires Progress(v0, now, expected, |expected|, before, after, f) && forall n :: n in names ==> n in expected
      requires IsFlagged(expected, f.matched, matched) && IsFlagged(expected, f.subscribed, subscribed)
      requires IsFlagged(expected, f.covered, covered) && IsFlagged(expected, f.drift, drift)
      ensures forall n :: n in names ==> n in before && n in after && GroupAgrees(v0, now, before[n], after[n], n)
    {
      hide HasCome, IsListed, Inv, GroupAgrees, IsFlagged;
      forall n | n in names ensures n in before && n in after && GroupAgrees(v0, now, before[n], after[n], n) {
        var k :| 0 <= k < |expected| && expected[k] == n;
        VisitedAgrees(v0, now, expected, before, after, f, k);
      }
    }

    lemma ListsAreNested(expected: seq<string>)
      requires Distinct(expected)
      requires Subsequence(covered, subscribed) && Subsequence(subscribed, matched) && Subsequence(matched, expected)
      requires Subsequence(drift, expected)
      ensures Distinct(matched) && Distinct(subscribed) && Distinct(covered) && Distinct(drift)
    {
      hide Subsequence;
      SubsequenceIsDistinct(matched, expected);
      SubsequenceIsDistinct(subscribed, matched);
      SubsequenceIsDistinct(covered, subscribed);
      SubsequenceIsDistinct(drift, expected);
    }

    /** `reconcile`, once it has read the clock. */
    method ReconcileAt(names: seq<string>, now: int, ghost before: map<string, State>)
      returns (report: RunReport, ghost after: map<string, State>)
      requires Distinct(names) && 0 < now <= logs.clock
      requires Said() == Lists([], [], [], map[], [])
      requires forall n :: n in names ==> n in before && Rests(before[n], n) && Inv(before[n])
      modifies this, logs, ledger
      ensures now <= logs.clock && ReportAgrees(names, old(Now()), now, before, after, report)
    {
      hide Inv, Listed, Subsequence, Progress, GroupAgrees, IsFlagged, OverallCoverage, Rests, Sort;
      var expected := Sort(names);
      SortSorts(names);
      SortKeepsDistinct(names);
      ghost var f;
      ghost var v0 := Now();
      after, f := VisitAll(v0, expected, now, before);
      ReportIsConsistent(expected, f, Said());
      ListsAreNested(expected);
      AllAgree(names, v0, now, expected, before, after, f);
      report := RunReport(expected, matched, subscribed, covered, failed,
                          OverallCoverage(expected, failed, matched, subscribed, covered), drift);
    }

    /** `reconcile`. The groups come from an unordered set, here in any order. */
    method Reconcile(names: seq<string>, ghost before: map<string, State>)
      returns (report: RunReport, ghost after: map<string, State>, ghost now: int)
      requires Distinct(names) && logs.clock > 0
      requires matched == [] && subscribed == [] && covered == [] && failed == map[] && drift == []
      requires forall n :: n in names ==> n in before && Rests(before[n], n) && Inv(before[n])
      modifies this, logs, ledger
      ensures old(logs.clock) <= now <= logs.clock
      ensures ReportAgrees(names, old(Now()), now, before, after, report)
    {
      hide Turn, Inv, Subsequence;
      var time := logs.ReadClock();
      now := time;
      report, after := ReconcileAt(names, time, before);
    }
  }
}
