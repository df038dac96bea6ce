/** Concrete runs of the coverage protocol that show what the code does not promise. */
module CoverageTraces {
  import opened Basics
  import opened Telemetry
  import opened CoverageProtocol
  import opened CoverageInvariant
  import opened CoverageEvidence
  import opened CoverageGuarantees
  import opened CoverageRecovery

  ghost predicate Reachable(t: State) {
    exists init :: Init(init) && Reaches(init, t)
  }

  lemma Then(s: State, step: Step)
    requires Reachable(s) && Enabled(s, step)
    ensures Reachable(Apply(s, step))
  {
    var init :| Init(init) && Reaches(init, s);
    ReachesStep(init, s, step);
  }

  const CFG := Config("dev", "spans", "span-filter", "filter", "dest", "role", 60)
  const VALUE := FilterValue("dest", "role", "")
  const FIRST_GENERATION := NO_HISTORY.(generation := 1)
  const START := State(CFG, "app", 10, World(None, 0, [], 0, map[], multiset{}), None, Idle, NO_REPORT, NO_HISTORY)

  lemma ReachableInv(s: State)
    requires Reachable(s)
    ensures Inv(s)
  {
    hide Inv;
    var init :| Init(init) && Reaches(init, s);
    var steps :| Run(init, steps) == Some(s);
    RunKeepsInv(init, steps);
  }

  lemma ThenReaches(s: State, t: State)
    requires Reachable(s) && Reaches(s, t)
    ensures Reachable(t)
  {
    var init :| Init(init) && Reaches(init, s);
    ReachesTransitive(init, s, t);
  }

  const OUR_FILTER := [Filter("filter", VALUE)]

  /** The world of a log group created at 10 whose filters were last changed at `since`. */
  function WorldAt(since: int, filters: seq<Filter>, exports: map<string, Task>): World {
    World(Some(10), 10, filters, since, exports, multiset{})
  }

  lemma StartReachable()
    ensures Reachable(START)
  {
    ReachesItself(START);
    assert Init(START) && Reaches(START, START);
  }

  const NO_OBJECTS := BackfillObject(Some(""), Some(""), None, Some(""), Some(0))

  function Visited(at: int, coverage: Option<Coverage>, bf: Backfill, obj: BackfillObject, live: Live): Item {
    Item(Meta(Some("dev"), coverage, Some(""), Some(at)),
         Subscription(Some(true), Some(at), Some("dest"), Some("role"), Some(""), Some(10)),
         bf, obj, live)
  }

  const PENDING_BACKFILL := NO_BACKFILL.(status := Some(PENDING), taskId := Some(""))
  const SUBSCRIBED := Report(true, true, false, None, false)

  /** A new log group is visited, and its filter put, at time 15. */
  lemma FirstFilter(s: State)
    requires s == START.(clock := 15, w := WorldAt(15, OUR_FILTER, map[]),
                         pc := ReadClock(15, 10, None, VALUE, Some(15)), rep := SUBSCRIBED)
    ensures Reachable(s)
  {
    hide Reachable;
    StartReachable();
    Then(START, CreateGroup);
    var made := START.(w := WorldAt(10, [], map[]));
    Then(made, Tick(5));
    var ticked := made.(clock := 15);
    Then(ticked, Begin(15));
    var begun := ticked.(pc := DescribeGroup(15));
    Then(begun, Go);
    var described := begun.(pc := GetRow(15, Some(10)));
    Then(described, Go);
    var got := described.(pc := DescribeFilters(15, 10, None), rep := NO_REPORT.(matched := true));
    Then(got, Go);
    var absent := got.(pc := PutFilter(15, 10, None));
    Then(absent, Go);
  }

  const FIRST_RESET := START.(clock := 15, w := WorldAt(15, OUR_FILTER, map[]),
                              pc := WriteConfirmed(15, 10, VALUE, Some(15), true, 15), rep := SUBSCRIBED)

  lemma FirstReset()
    ensures Reachable(FIRST_RESET)
  {
    hide Reachable;
    var put := FIRST_RESET.(pc := ReadClock(15, 10, None, VALUE, Some(15)));
    FirstFilter(put);
    Then(put, Go);
  }

  /** Its row is confirmed for that time. */
  lemma FirstConfirmation(s: State)
    requires s == START.(clock := 15, w := WorldAt(15, OUR_FILTER, map[]),
                         item := Some(Visited(15, None, PENDING_BACKFILL, NO_OBJECTS, NO_LIVE)),
                         pc := StartBackfill(15, 10, 15, Visited(15, None, PENDING_BACKFILL, NO_OBJECTS, NO_LIVE)),
                         rep := SUBSCRIBED, h := FIRST_GENERATION)
    ensures Reachable(s)
  {
    hide Reachable;
    FirstReset();
    assert FIRST_RESET.w.exports.Keys == {};
    assert Renewed(NO_HISTORY, FIRST_RESET.w, 10) == FIRST_GENERATION;
    Then(FIRST_RESET, Go);
  }

  const FIRST_EXPORT := StartedPatch("t1", 10, 15)
  const FIRST_ROW := Visited(15, None, FIRST_EXPORT, NO_OBJECTS, NO_LIVE)
  const ONE_TASK := map["t1" := Task(10, 15, TaskActive)]

  /** The first export starts and is written down. */
  lemma FirstExportWritten(s: State)
    requires s == START.(clock := 15, w := WorldAt(15, OUR_FILTER, ONE_TASK),
                         item := Some(FIRST_ROW), pc := WriteCoverage(15, 15, FIRST_ROW), rep := SUBSCRIBED,
                         h := FIRST_GENERATION.(started := 1))
    ensures Reachable(s)
  {
    hide Reachable;
    var row := Visited(15, None, PENDING_BACKFILL, NO_OBJECTS, NO_LIVE);
    var confirmed := s.(w := s.w.(exports := map[]), item := Some(row), pc := StartBackfill(15, 10, 15, row),
                        h := FIRST_GENERATION);
    FirstConfirmation(confirmed);
    Then(confirmed, ExportStarted("t1"));
    var exporting := s.(item := Some(row), pc := WriteBackfill(15, 15, FIRST_EXPORT, ""));
    Then(exporting, Go);
  }

  /** Its run dies; then others drop the filter. */
  lemma FirstExport(s: State)
    requires s == START.(clock := 20, w := WorldAt(15, [], ONE_TASK),
                         item := Some(FIRST_ROW), rep := SUBSCRIBED,
                         h := FIRST_GENERATION.(started := 1, unwritten := true))
    ensures Reachable(s)
  {
    hide Reachable;
    var written := s.(clock := 15, w := s.w.(filters := OUR_FILTER), pc := WriteCoverage(15, 15, FIRST_ROW),
                      h := s.h.(unwritten := false));
    FirstExportWritten(written);
    Then(written, Kill);
    var idle := s.(clock := 15, w := s.w.(filters := OUR_FILTER));
    Then(idle, OthersSetFilters([]));
    Then(s.(clock := 15), Tick(5));
  }

  /** The next visit misses the filter at time 20. */
  lemma FilterMissedAgain(s: State)
    requires s == START.(clock := 20, w := WorldAt(15, [], ONE_TASK),
                         item := Some(FIRST_ROW), pc := PutFilter(20, 10, Some(FIRST_ROW)),
                         rep := NO_REPORT.(matched := true), h := FIRST_GENERATION.(started := 1))
    ensures Reachable(s)
  {
    hide Reachable;
    var ticked := START.(clock := 20, w := WorldAt(15, [], ONE_TASK),
                         item := Some(FIRST_ROW), rep := SUBSCRIBED, h := s.h.(unwritten := true));
    FirstExport(ticked);
    Then(ticked, Begin(20));
    var begun := ticked.(pc := DescribeGroup(20), rep := NO_REPORT, h := s.h);
    Then(begun, Go);
    var described := begun.(pc := GetRow(20, Some(10)));
    Then(described, Go);
    var got := described.(pc := DescribeFilters(20, 10, Some(FIRST_ROW)), rep := NO_REPORT.(matched := true));
    Then(got, Go);
  }

  /** It puts the filter back. */
  lemma FilterPutAgain(s: State)
    requires s == START.(clock := 20, w := WorldAt(20, OUR_FILTER, ONE_TASK),
                         item := Some(FIRST_ROW), pc := ReadClock(20, 10, Some(FIRST_ROW), VALUE, Some(20)),
                         rep := SUBSCRIBED, h := FIRST_GENERATION.(started := 1))
    ensures Reachable(s)
  {
    hide Reachable;
    var absent := s.(w := WorldAt(15, [], ONE_TASK), pc := PutFilter(20, 10, Some(FIRST_ROW)),
                     rep := NO_REPORT.(matched := true));
    FilterMissedAgain(absent);
    Then(absent, Go);
  }

  /** If that run dies before the confirming write, the filter is younger than the row says, and
      the next visit will find the row confirmed and the filter in place. */
  lemma AGapIsReachable() returns (s: State)
    ensures Reachable(s) && s.pc == Idle && Attached(s)
    ensures Row(s).sub.confirmedAt.GetOr(0) < s.w.since
    ensures !IsReset(s.item, s.w.group.GetOr(0), false, OurValue(s.cfg))
  {
    hide Reachable;
    var put := START.(clock := 20, w := WorldAt(20, OUR_FILTER, ONE_TASK),
                      item := Some(FIRST_ROW), pc := ReadClock(20, 10, Some(FIRST_ROW), VALUE, Some(20)),
                      rep := SUBSCRIBED, h := FIRST_GENERATION.(started := 1));
    FilterPutAgain(put);
    Then(put, Kill);
    s := Apply(put, Kill);
  }

  lemma CannotBeCovered(s: State)
    requires Reachable(s) && s.pc == Idle && !CanCover(s)
    ensures !CoveredSomeDay(s)
  {
    hide Init, Run, CoveredSomeDay, CanCover;
    var init :| Init(init) && Reaches(init, s);
    var steps :| Run(init, steps) == Some(s);
    CoverableExactly(init, steps, s);
  }

  /** The same gap is left without a kill, when the filter is put although the call raises: the run
      reports the failure, and the next visit finds filter and row in agreement. */
  lemma AnUnansweredPutLeavesAGap() returns (s: State)
    ensures Reachable(s) && s.pc == Idle && !s.h.unwritten && s.rep.failed.Some? && Attached(s)
    ensures Row(s).sub.confirmedAt.GetOr(0) < s.w.since
    ensures !IsReset(s.item, s.w.group.GetOr(0), false, OurValue(s.cfg))
  {
    hide Reachable;
    var absent := START.(clock := 20, w := WorldAt(15, [], ONE_TASK),
                         item := Some(FIRST_ROW), pc := PutFilter(20, 10, Some(FIRST_ROW)),
                         rep := NO_REPORT.(matched := true), h := FIRST_GENERATION.(started := 1));
    FilterMissedAgain(absent);
    Then(absent, PutUnanswered("timeout"));
    var raised := Apply(absent, PutUnanswered("timeout"));
    Then(raised, Go);
    s := Apply(raised, Go);
  }

  /** The first export ends without an object: nothing but a change of the group, its filters or the
      configuration lets the group ever be covered. */
  lemma EmptyExportIsFinal() returns (s: State)
    ensures Reachable(s) && s.pc == Idle && Attached(s)
    ensures s.w.exports == map["t1" := Task(10, 15, TaskCompleted)] && Row(s).bf.taskId == Some("t1")
    ensures !CoveredSomeDay(s)
  {
    hide Reachable, Inv, CoveredSomeDay;
    var written := START.(clock := 15, w := WorldAt(15, OUR_FILTER, ONE_TASK), item := Some(FIRST_ROW),
                          pc := WriteCoverage(15, 15, FIRST_ROW), rep := SUBSCRIBED,
                          h := FIRST_GENERATION.(started := 1));
    FirstExportWritten(written);
    Then(written, Kill);
    var idle := written.(pc := Idle, h := written.h.(unwritten := true));
    Then(idle, TaskProgress("t1", TaskCompleted));
    s := Apply(idle, TaskProgress("t1", TaskCompleted));
    CannotBeCovered(s);
  }

  /** Live deliveries may be recorded out of order, and the row keeps the last one recorded. */
  lemma LiveTimeIsNotMonotone() returns (s: State, step: Step)
    ensures Reachable(s) && Enabled(s, step) && step.RecordLive?
    ensures Row(Apply(s, step)).live.at.GetOr(0) < Row(s).live.at.GetOr(0)
  {
    StartReachable();
    var first := RecordLive(LiveRecord(30, "k", "x", "m", 1));
    Then(START, first);
    s, step := Apply(START, first), RecordLive(LiveRecord(20, "k", "x", "m", 1));
  }

  // ---- Evidence of another generation ----

  const OLD_OBJECT := ObjectRecord(18, "k1", "x1", "m1", "t1")

  /** The row is about to be reset at 20 while the first export is still running. */
  lemma MisledReset(s: State)
    requires s == START.(clock := 20, w := WorldAt(20, OUR_FILTER, ONE_TASK), item := Some(FIRST_ROW),
                         pc := WriteConfirmed(20, 10, VALUE, Some(20), true, 20),
                         rep := SUBSCRIBED.(drift := true), h := FIRST_GENERATION.(started := 1))
    ensures Reachable(s)
  {
    hide Reachable;
    var put := s.(pc := ReadClock(20, 10, Some(FIRST_ROW), VALUE, Some(20)), rep := SUBSCRIBED);
    FilterPutAgain(put);
    Then(put, Go);
  }

  /** A row can become "complete" on a backfill object that another export wrote, before the
      confirmed time: the evidence is some object since the last reset, tied to no export. */
  lemma EvidenceMayBeOld() returns (s: State)
    ensures Reachable(s) && CompletesExport(s)
    ensures forall r :: r in s.h.objects ==> r.at < Row(s).sub.confirmedAt.GetOr(0)
    ensures !OwnEvidence(s)
  {
    hide Reachable, Inv, Reaches, CompletesExport;
    var reset := START.(clock := 20, w := WorldAt(20, OUR_FILTER, ONE_TASK), item := Some(FIRST_ROW),
                        pc := WriteConfirmed(20, 10, VALUE, Some(20), true, 20),
                        rep := SUBSCRIBED.(drift := true), h := FIRST_GENERATION.(started := 1));
    MisledReset(reset);
    ReachableInv(reset);
    assert ONE_TASK["t1"].code == TaskActive;
    s := StrayEvidenceCompletes(reset, OLD_OBJECT);
    Then(reset, Go);
    ThenReaches(Apply(reset, Go), s);
  }

  /** It can do so although nothing of an earlier generation was to come: on an object of an export
      of its own generation that was lost, and that no row names. */
  lemma EvidenceMayBeLost() returns (s: State)
    ensures Reachable(s) && CompletesExport(s)
    ensures s.h.generation == 1 && !s.h.stale && !OwnEvidence(s)
  {
    hide Reachable, Inv, Reaches, CompletesExport, OwnEvidence;
    FirstReset();
    ReachableInv(FIRST_RESET);
    s := LostEvidenceCompletes(FIRST_RESET);
    Then(FIRST_RESET, Go);
    ThenReaches(Apply(FIRST_RESET, Go), s);
  }

  // ---- Two exports of one generation ----

  /** The run dies between starting the first export and writing it down. */
  lemma ExportIsLost(s: State)
    requires s == START.(clock := 15, w := WorldAt(15, OUR_FILTER, ONE_TASK),
                         item := Some(Visited(15, None, PENDING_BACKFILL, NO_OBJECTS, NO_LIVE)),
                         rep := SUBSCRIBED, h := FIRST_GENERATION.(started := 1, orphan := true, unwritten := true))
    ensures Reachable(s)
  {
    hide Reachable;
    var row := Visited(15, None, PENDING_BACKFILL, NO_OBJECTS, NO_LIVE);
    var confirmed := s.(w := s.w.(exports := map[]), pc := StartBackfill(15, 10, 15, row), h := FIRST_GENERATION);
    FirstConfirmation(confirmed);
    Then(confirmed, ExportStarted("t1"));
    var exporting := s.(pc := WriteBackfill(15, 15, FIRST_EXPORT, ""), h := FIRST_GENERATION.(started := 1));
    Then(exporting, Kill);
  }

  /** The next visit starts another export of the same generation. */
  lemma TwoExportsInAGeneration() returns (s: State)
    ensures Reachable(s) && s.h.generation == 1 && s.h.started == 2 && s.h.orphan
    ensures s.w.exports.Keys == {"t1", "t2"}
  {
    hide Reachable;
    var row := Visited(15, None, PENDING_BACKFILL, NO_OBJECTS, NO_LIVE);
    var lost := START.(clock := 15, w := WorldAt(15, OUR_FILTER, ONE_TASK), item := Some(row),
                       rep := SUBSCRIBED, h := FIRST_GENERATION.(started := 1, orphan := true, unwritten := true));
    ExportIsLost(lost);
    Then(lost, Begin(15));
    var begun := lost.(pc := DescribeGroup(15), rep := NO_REPORT, h := lost.h.(unwritten := false));
    Then(begun, Go);
    var described := begun.(pc := GetRow(15, Some(10)));
    Then(described, Go);
    var got := described.(pc := DescribeFilters(15, 10, Some(row)), rep := NO_REPORT.(matched := true));
    Then(got, Go);
    var owned := got.(pc := ReadClock(15, 10, Some(row), VALUE, None), rep := SUBSCRIBED);
    s := SecondExport(owned);
  }

  lemma SecondExport(owned: State) returns (s: State)
    requires owned == START.(clock := 15, w := WorldAt(15, OUR_FILTER, ONE_TASK),
                             item := Some(Visited(15, None, PENDING_BACKFILL, NO_OBJECTS, NO_LIVE)),
                             pc := ReadClock(15, 10, Some(Visited(15, None, PENDING_BACKFILL, NO_OBJECTS, NO_LIVE)),
                                             VALUE, None),
                             rep := SUBSCRIBED, h := FIRST_GENERATION.(started := 1, orphan := true))
    requires Reachable(owned)
    ensures Reachable(s) && s.h.generation == 1 && s.h.started == 2 && s.h.orphan
    ensures s.w.exports.Keys == {"t1", "t2"}
  {
    hide Reachable;
    var row := Visited(15, None, PENDING_BACKFILL, NO_OBJECTS, NO_LIVE);
    Then(owned, Go);
    var read := owned.(pc := WriteConfirmed(15, 10, VALUE, None, false, 15));
    Then(read, Go);
    var confirmed := read.(pc := StartBackfill(15, 10, 15, row));
    assert "t1"[1] != "t2"[1];
    assert "t2" !in confirmed.w.exports;
    Then(confirmed, ExportStarted("t2"));
    s := Apply(confirmed, ExportStarted("t2"));
  }
}
