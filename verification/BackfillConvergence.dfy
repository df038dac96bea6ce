/**
  Convergence of the backfills of many log groups that share the account's limit on active export
  tasks, over runs in which no group is reset.
 */
module BackfillConvergence {
  import opened Basics
  import opened Telemetry
  import opened CoverageProtocol
  import opened CoverageInvariant

  datatype Group = Group(bf: Backfill, creation: int, confirmedAt: int)

  function ActiveTasks(exports: map<string, Task>): set<string> {
    set id | id in exports && exports[id].code == TaskActive
  }

  /** What one visit does to a row and to the export tasks; a new task would be called `id`. */
  function VisitRow(row: Group, exports: map<string, Task>, limit: nat, id: string): (Backfill, map<string, Task>) {
    match PlanBackfill(row.bf, row.creation, row.confirmedAt)
    case Keep => (row.bf, exports)
    case Poll(taskId) =>
      if taskId !in exports then (row.bf, exports)
      else
        (match PollOutcome(exports[taskId].code, row.confirmedAt).0
         case Some(patch) => (MergeBackfill(row.bf, patch), exports)
         case None => (row.bf, exports))
    case Skip(from, to) => (MergeBackfill(row.bf, SkipPatch(from, to)), exports)
    case Export(from, to) =>
      if |ActiveTasks(exports)| < limit then
        (MergeBackfill(row.bf, StartedPatch(id, from, to)), exports[id := Task(from, to, TaskActive)])
      else (MergeBackfill(row.bf, PENDING_PATCH), exports)
  }

  /** The tasks once some of those that were active have ended. */
  function Ended(exports: map<string, Task>, ends: map<string, TaskCode>): map<string, Task> {
    map id | id in exports :: if exports[id].code == TaskActive && id in ends then exports[id].(code := ends[id])
                              else exports[id]
  }

  datatype Fleet = Fleet(rows: seq<Group>, exports: map<string, Task>)

  /** One run over the groups in order. Before each visit, exports may have ended. */
  function Round(rows: seq<Group>, exports: map<string, Task>, limit: nat, ids: seq<string>,
                 ends: seq<map<string, TaskCode>>): Fleet
    requires |ids| == |ends| == |rows|
  {
    if rows == [] then Fleet([], exports)
    else
      var (bf, exports1) := VisitRow(rows[0], Ended(exports, ends[0]), limit, ids[0]);
      var rest := Round(rows[1..], exports1, limit, ids[1..], ends[1..]);
      Fleet([rows[0].(bf := bf)] + rest.rows, rest.exports)
  }

  /** A task id is on the row exactly when an export was started for it. */
  predicate ValidRow(row: Group) {
    if Truthy(row.bf.taskId) then row.bf.status in {Some(RUNNING), Some(FAILED), Some(CANCELLED), Some(COMPLETED)}
    else row.bf.status in {None, Some(PENDING), Some(COMPLETED)}
  }

  predicate Fresh(ids: seq<string>, exports: map<string, Task>) {
    && (forall k :: 0 <= k < |ids| ==> ids[k] != "" && ids[k] !in exports)
    && (forall j, k :: 0 <= j < k < |ids| ==> ids[j] != ids[k])
  }

  function Rank(row: Group): nat {
    match row.bf.status
    case Some(COMPLETED) => 0
    case Some(FAILED) => 0
    case Some(CANCELLED) => 0
    case Some(RUNNING) => 1
    case _ => 2
  }

  function TotalRank(rows: seq<Group>): nat {
    if rows == [] then 0 else Rank(rows[0]) + TotalRank(rows[1..])
  }

  /** The run will see this row's export ended, or will find a free slot for a pending row. */
  predicate CanProgress(row: Group, exports: map<string, Task>, limit: nat) {
    match PlanBackfill(row.bf, row.creation, row.confirmedAt)
    case Keep => false
    case Poll(taskId) => row.bf.status == Some(RUNNING) && taskId in exports && exports[taskId].code != TaskActive
    case Skip(_, _) => true
    case Export(_, _) => |ActiveTasks(exports)| < limit
  }

  lemma VisitLowersRank(row: Group, exports: map<string, Task>, limit: nat, id: string)
    requires ValidRow(row) && id != "" && id !in exports
    ensures var (bf, exports') := VisitRow(row, exports, limit, id);
      && ValidRow(row.(bf := bf))
      && Rank(row.(bf := bf)) <= Rank(row)
      && (CanProgress(row, exports, limit) <==> Rank(row.(bf := bf)) < Rank(row))
      && (exports' != exports ==> CanProgress(row, exports, limit))
      && (forall t :: t in exports ==> t in exports' && exports'[t] == exports[t])
      && (forall t :: t in exports' ==> t in exports || t == id)
  {
  }

  /** An export that ended is no longer active, and the others are what they were: rows that could
      progress still can. */
  lemma EndingKeepsProgress(row: Group, exports: map<string, Task>, limit: nat, ends: map<string, TaskCode>)
    requires CanProgress(row, exports, limit)
    ensures CanProgress(row, Ended(exports, ends), limit)
  {
    EndingFreesSlots(exports, ends);
  }

  lemma EndingFreesSlots(exports: map<string, Task>, ends: map<string, TaskCode>)
    ensures |ActiveTasks(Ended(exports, ends))| <= |ActiveTasks(exports)|
  {
    SubsetIsSmaller(ActiveTasks(Ended(exports, ends)), ActiveTasks(exports));
  }

  lemma {:induction false} SubsetIsSmaller(a: set<string>, b: set<string>)
    requires a <= b
    ensures |a| <= |b|
  {
    if a != {} {
      var x :| x in a;
      SubsetIsSmaller(a - {x}, b - {x});
    }
  }

  /** A run never raises the total rank, and lowers it if any row can progress when it starts, whatever
      exports end while it is on its way. */
  lemma {:induction false} RoundLowersRank(rows: seq<Group>, exports: map<string, Task>, limit: nat, ids: seq<string>,
                                           ends: seq<map<string, TaskCode>>)
    requires |ids| == |ends| == |rows| && Fresh(ids, exports) && forall r :: r in rows ==> ValidRow(r)
    ensures var after := Round(rows, exports, limit, ids, ends).rows;
      && |after| == |rows| && (forall r :: r in after ==> ValidRow(r))
      && TotalRank(after) <= TotalRank(rows)
      && ((exists r :: r in rows && CanProgress(r, exports, limit)) ==> TotalRank(after) < TotalRank(rows))
  {
    if rows != [] {
      hide CanProgress, ValidRow, Rank, Ended;
      var ended := Ended(exports, ends[0]);
      EndedHasTheKeys(exports, ends[0]);
      VisitLowersRank(rows[0], ended, limit, ids[0]);
      var (bf, exports1) := VisitRow(rows[0], ended, limit, ids[0]);
      var rest := Round(rows[1..], exports1, limit, ids[1..], ends[1..]);
      RoundLowersRank(rows[1..], exports1, limit, ids[1..], ends[1..]);
      var after := [rows[0].(bf := bf)] + rest.rows;
      assert after[1..] == rest.rows;
      if r :| r in rows && CanProgress(r, exports, limit) {
        EndingKeepsProgress(r, exports, limit, ends[0]);
        assert r == rows[0] || r in rows[1..];
        assert !CanProgress(rows[0], ended, limit) ==> exports1 == ended;
      }
    }
  }

  lemma EndedHasTheKeys(exports: map<string, Task>, ends: map<string, TaskCode>)
    ensures Ended(exports, ends).Keys == exports.Keys
  {
  }

  /** Runs never push the number of active tasks above the limit. */
  lemma {:induction false} RoundRespectsLimit(rows: seq<Group>, exports: map<string, Task>, limit: nat,
                                              ids: seq<string>, ends: seq<map<string, TaskCode>>)
    requires |ids| == |ends| == |rows| && Fresh(ids, exports) && |ActiveTasks(exports)| <= limit
    requires forall r :: r in rows ==> ValidRow(r)
    ensures |ActiveTasks(Round(rows, exports, limit, ids, ends).exports)| <= limit
  {
    if rows != [] {
      hide Ended;
      var ended := Ended(exports, ends[0]);
      EndedHasTheKeys(exports, ends[0]);
      EndingFreesSlots(exports, ends[0]);
      var (bf, exports1) := VisitRow(rows[0], ended, limit, ids[0]);
      VisitLowersRank(rows[0], ended, limit, ids[0]);
      if exports1 != ended {
        assert ActiveTasks(exports1) == ActiveTasks(ended) + {ids[0]};
      }
      RoundRespectsLimit(rows[1..], exports1, limit, ids[1..], ends[1..]);
    }
  }

  // ---- Many runs ----

  /** Between two runs only the export tasks change, in any way; then a run. */
  ghost predicate NextRun(f: Fleet, g: Fleet, limit: nat) {
    exists exports, ids, ends :: |ids| == |ends| == |f.rows| && Fresh(ids, exports)
                                 && g == Round(f.rows, exports, limit, ids, ends)
  }

  /** A run in which some row can progress. */
  ghost predicate ProductiveRun(f: Fleet, g: Fleet, limit: nat) {
    exists exports, ids, ends :: |ids| == |ends| == |f.rows| && Fresh(ids, exports)
                                 && (exists r :: r in f.rows && CanProgress(r, exports, limit))
                                 && g == Round(f.rows, exports, limit, ids, ends)
  }

  ghost function ProductiveRuns(fleets: seq<Fleet>, limit: nat): nat {
    if |fleets| < 2 then 0
    else (if ProductiveRun(fleets[0], fleets[1], limit) then 1 else 0) + ProductiveRuns(fleets[1..], limit)
  }

  lemma RunLowersRank(f: Fleet, g: Fleet, limit: nat)
    requires NextRun(f, g, limit) && forall r :: r in f.rows ==> ValidRow(r)
    ensures forall r :: r in g.rows ==> ValidRow(r)
    ensures TotalRank(g.rows) + (if ProductiveRun(f, g, limit) then 1 else 0) <= TotalRank(f.rows)
  {
    if ProductiveRun(f, g, limit) {
      var exports, ids, ends :| |ids| == |ends| == |f.rows| && Fresh(ids, exports)
                                && (exists r :: r in f.rows && CanProgress(r, exports, limit))
                                && g == Round(f.rows, exports, limit, ids, ends);
      RoundLowersRank(f.rows, exports, limit, ids, ends);
    } else {
      var exports, ids, ends :| |ids| == |ends| == |f.rows| && Fresh(ids, exports)
                                && g == Round(f.rows, exports, limit, ids, ends);
      RoundLowersRank(f.rows, exports, limit, ids, ends);
    }
  }

  /** Over any number of runs, at most as many of them as the first total rank are productive, which
      is at most twice the number of groups. */
  lemma {:induction false} BackfillsConverge(fleets: seq<Fleet>, limit: nat)
    requires fleets != [] && forall r :: r in fleets[0].rows ==> ValidRow(r)
    requires forall j, k :: 0 <= j < k < |fleets| && k == j + 1 ==> NextRun(fleets[j], fleets[k], limit)
    ensures ProductiveRuns(fleets, limit) + TotalRank(fleets[|fleets| - 1].rows) <= TotalRank(fleets[0].rows)
    ensures TotalRank(fleets[0].rows) <= 2 * |fleets[0].rows|
  {
    RankBound(fleets[0].rows);
    if |fleets| > 1 {
      RunLowersRank(fleets[0], fleets[1], limit);
      BackfillsConverge(fleets[1..], limit);
    }
  }

  lemma {:induction false} RankBound(rows: seq<Group>)
    ensures TotalRank(rows) <= 2 * |rows|
    ensures TotalRank(rows) == 0
      <==> forall r :: r in rows ==> r.bf.status in {Some(COMPLETED), Some(FAILED), Some(CANCELLED)}
  {
    if rows != [] {
      RankBound(rows[1..]);
      assert forall r :: r in rows <==> r == rows[0] || r in rows[1..];
    }
  }

  // ---- The protocol makes these visits ----

  /** Every reachable row is valid, and a visit that does not reset leaves its backfill fields alone. */
  lemma ReachableRowsAreValid(s: State, creation: int, confirmedAt: int, observed: FilterValue, now: int)
    requires Inv(s)
    ensures ValidRow(Group(Row(s).bf, creation, confirmedAt))
    ensures Merge(Row(s), ConfirmPatch(s.cfg, creation, confirmedAt, observed, false, now)).bf == Row(s).bf
  {
    match Row(s).bf.status {
      case None =>
      case Some(status) =>
        match status { case PENDING => case RUNNING => case COMPLETED => case FAILED => case CANCELLED => }
    }
  }

  /** The tasks of the log group are among those of the account, and the same there. */
  predicate BelongTo(own: map<string, Task>, account: map<string, Task>) {
    forall id :: id in own ==> id in account && account[id] == own[id]
  }

  /** The step that the protocol takes from the start of a backfill when the service answers from
      the tasks of the whole account, according to its limit. */
  function Answer(s: State, account: map<string, Task>, limit: nat, id: string): Step
    requires s.pc.StartBackfill?
  {
    match PlanBackfill(s.pc.current.bf, s.pc.creation, s.pc.confirmedAt)
    case Poll(taskId) => if taskId in account then Go else TaskUnseen
    case Export(_, _) => if |ActiveTasks(account)| < limit then ExportStarted(id) else ExportLimited
    case _ => Go
  }

  /** The backfill fields as the visit leaves them once the pending write is done. */
  function Written(s: State): Backfill {
    if s.pc.WriteBackfill? then MergeBackfill(Row(s).bf, s.pc.patch) else Row(s).bf
  }

  lemma PolledIsKnown(s: State)
    requires Inv(s) && s.pc.StartBackfill?
    ensures s.pc.current.bf == Row(s).bf
    ensures PlanBackfill(Row(s).bf, s.pc.creation, s.pc.confirmedAt).Poll? ==> Row(s).bf.taskId.value in s.w.exports
  {
    hide ClockInv, SubInv, GapInv, ObjectInv, LiveInv, ReportInv, ExportInv, SourceInv, VanishedInv, EvidenceHeld;
  }

  /** The protocol makes the visit, up to the time of completion, and leaves the tasks of other
      groups as they are. */
  predicate MakesVisit(s: State, account: map<string, Task>, limit: nat, id: string)
    requires s.pc.StartBackfill?
  {
    var step, row := Answer(s, account, limit, id), Group(Row(s).bf, s.pc.creation, s.pc.confirmedAt);
    var (bf, account') := VisitRow(row, account, limit, id);
    && Enabled(s, step)
    && var t := Apply(s, step);
      && Written(t).(completedAt := bf.completedAt) == bf
      && BelongTo(t.w.exports, account') && account' - t.w.exports.Keys == account - s.w.exports.Keys
  }

  lemma PollMakesVisit(s: State, account: map<string, Task>, limit: nat, id: string)
    requires s.pc.StartBackfill? && s.pc.current.bf == Row(s).bf && BelongTo(s.w.exports, account)
    requires PlanBackfill(Row(s).bf, s.pc.creation, s.pc.confirmedAt).Poll? && Row(s).bf.taskId.value in s.w.exports
    ensures MakesVisit(s, account, limit, id)
  {
    assert account[Row(s).bf.taskId.value] == s.w.exports[Row(s).bf.taskId.value];
    hide ActiveTasks, IsComplete, Inspect, Outstanding, BelongTo;
  }

  lemma NoExportMakesVisit(s: State, account: map<string, Task>, limit: nat, id: string)
    requires s.pc.StartBackfill? && s.pc.current.bf == Row(s).bf && BelongTo(s.w.exports, account)
    requires var plan := PlanBackfill(Row(s).bf, s.pc.creation, s.pc.confirmedAt);
      plan.Keep? || plan.Skip? || (plan.Export? && |ActiveTasks(account)| >= limit)
    ensures MakesVisit(s, account, limit, id)
  {
    hide ActiveTasks, IsComplete, Inspect, Outstanding, BelongTo;
  }

  lemma ExportMakesVisit(s: State, account: map<string, Task>, limit: nat, id: string)
    requires s.pc.StartBackfill? && s.pc.current.bf == Row(s).bf && BelongTo(s.w.exports, account)
    requires PlanBackfill(Row(s).bf, s.pc.creation, s.pc.confirmedAt).Export? && |ActiveTasks(account)| < limit
    requires id != "" && id !in account
    ensures MakesVisit(s, account, limit, id)
  {
    hide ActiveTasks, IsComplete, Inspect, Outstanding;
  }

  /** A visit of a row is what the protocol does from `StartBackfill`, whatever tasks other log groups
      have in the account. */
  lemma VisitRefinesProtocol(s: State, account: map<string, Task>, limit: nat, id: string)
    requires Inv(s) && s.pc.StartBackfill? && BelongTo(s.w.exports, account) && id != "" && id !in account
    ensures MakesVisit(s, account, limit, id)
  {
    PolledIsKnown(s);
    hide Inv, MakesVisit, ActiveTasks, BelongTo;
    match PlanBackfill(Row(s).bf, s.pc.creation, s.pc.confirmedAt) {
      case Poll(_) => PollMakesVisit(s, account, limit, id);
      case Export(_, _) =>
        if |ActiveTasks(account)| < limit { ExportMakesVisit(s, account, limit, id); }
        else { NoExportMakesVisit(s, account, limit, id); }
      case _ => NoExportMakesVisit(s, account, limit, id);
    }
  }
}
