/**
  The recorder of archived objects, the other writer of the coverage ledger: it counts the events
  of a live object for each log group and updates the rows with the protocol's recorder steps.
 */
module ManifestRecorder {
  import opened Basics
  import opened Telemetry
  import opened CoverageProtocol
  import opened CoverageInvariant
  import opened CoverageTheorems
  import opened BackfillKey
  import opened TelemetryServices
  import opened StringOrder

  /** A JSON object of the payload: its `logGroup`, or the empty string, and its number of events. */
  datatype Document = Document(logGroup: string, events: nat)

  /** The events that the documents hold for one log group. */
  function Tally(docs: seq<Document>, group: string): nat {
    if docs == [] then 0
    else
      var last := docs[|docs| - 1];
      Tally(docs[..|docs| - 1], group) + if last.logGroup == group then last.events else 0
  }

  predicate Named(docs: seq<Document>, group: string) {
    group != "" && exists d :: d in docs && d.logGroup == group
  }

  /** All events of documents that name a log group. */
  function AllEvents(docs: seq<Document>): nat {
    if docs == [] then 0
    else
      var last := docs[|docs| - 1];
      AllEvents(docs[..|docs| - 1]) + if last.logGroup != "" then last.events else 0
  }

  function SumTallies(docs: seq<Document>, groups: seq<string>): nat {
    if groups == [] then 0
    else SumTallies(docs, groups[..|groups| - 1]) + Tally(docs, groups[|groups| - 1])
  }

  lemma {:induction false} SumTalliesSkips(docs: seq<Document>, groups: seq<string>, last: Document)
    requires last.logGroup !in groups
    ensures SumTallies(docs + [last], groups) == SumTallies(docs, groups)
  {
    if groups != [] {
      SumTalliesSkips(docs, groups[..|groups| - 1], last);
      assert (docs + [last])[..|docs|] == docs;
    }
  }

  lemma {:induction false} SumTalliesAdds(docs: seq<Document>, groups: seq<string>, last: Document)
    requires Distinct(groups) && last.logGroup in groups
    ensures SumTallies(docs + [last], groups) == SumTallies(docs, groups) + last.events
  {
    var front, end := groups[..|groups| - 1], groups[|groups| - 1];
    assert (docs + [last])[..|docs|] == docs;
    if end == last.logGroup {
      SumTalliesSkips(docs, front, last);
    } else {
      SumTalliesAdds(docs, front, last);
    }
  }

  /** No event is lost or counted twice when a live object is split over its log groups. */
  lemma {:induction false} EventsConserved(docs: seq<Document>, groups: seq<string>)
    requires Distinct(groups) && "" !in groups
    requires forall d :: d in docs && d.logGroup != "" ==> d.logGroup in groups
    ensures SumTallies(docs, groups) == AllEvents(docs)
  {
    if docs == [] {
      NoTallies(groups);
    } else {
      var front, last := docs[..|docs| - 1], docs[|docs| - 1];
      assert front + [last] == docs;
      EventsConserved(front, groups);
      if last.logGroup != "" {
        SumTalliesAdds(front, groups, last);
      } else {
        SumTalliesSkips(front, groups, last);
      }
    }
  }

  lemma {:induction false} NoTallies(groups: seq<string>)
    ensures SumTallies([], groups) == 0
  {
    if groups != [] { NoTallies(groups[..|groups| - 1]); }
  }

  // ---- Among others ----

  /** A step that somebody else tries to make for a log group. */
  datatype Act = Act(group: string, step: Step)

  /** The act, if it is possible then. */
  function Done(groups: map<string, State>, act: Act): map<string, State> {
    if act.group in groups && Enabled(groups[act.group], act.step) then
      groups[act.group := Apply(groups[act.group], act.step)]
    else groups
  }

  /** What the acts of others, one after the other, make of the log groups. */
  function OthersDo(groups: map<string, State>, acts: seq<Act>): (r: map<string, State>)
    ensures r.Keys == groups.Keys
  {
    if acts == [] then groups else Done(OthersDo(groups, acts[..|acts| - 1]), acts[|acts| - 1])
  }

  /** What the act records for one log group. */
  function Records(groups: map<string, State>, act: Act, g: string): seq<LiveRecord> {
    if act.group == g && g in groups && act.step.RecordLive? && Enabled(groups[g], act.step) then [act.step.live]
    else []
  }

  /** The deliveries of one log group that others record by their acts. */
  function OthersRecord(groups: map<string, State>, acts: seq<Act>, g: string): seq<LiveRecord> {
    if acts == [] then []
    else
      var front := acts[..|acts| - 1];
      OthersRecord(groups, front, g) + Records(OthersDo(groups, front), acts[|acts| - 1], g)
  }

  /** The recorder has hashed the object and written its manifest. */
  predicate HasDigests(r: LiveRecord) { r.sha256 != "" && r.manifest != "" }

  /** The object as it is recorded for one log group. */
  function Part(docs: seq<Document>, r: LiveRecord, g: string): LiveRecord { r.(events := Tally(docs, g)) }

  /** When others act before each update: the log groups after the updates for `written`. */
  function Updated(docs: seq<Document>, r: LiveRecord, groups: map<string, State>, others: nat -> seq<Act>,
                   written: seq<string>): (result: map<string, State>)
    requires HasDigests(r)
    ensures result.Keys == groups.Keys
  {
    if written == [] then groups
    else
      var k := |written| - 1;
      var now := OthersDo(Updated(docs, r, groups, others, written[..k]), others(k));
      if written[k] in now then
        now[written[k] := Apply(now[written[k]], RecordLive(Part(docs, r, written[k])))]
      else now
  }

  /** And once they have acted again after the last update. */
  function WrittenAmong(docs: seq<Document>, r: LiveRecord, groups: map<string, State>, others: nat -> seq<Act>,
                        written: seq<string>): (result: map<string, State>)
    requires HasDigests(r)
    ensures result.Keys == groups.Keys
  {
    OthersDo(Updated(docs, r, groups, others, written), others(|written|))
  }

  /** The deliveries of one log group that others record, from the first act to the last. */
  function Theirs(docs: seq<Document>, r: LiveRecord, groups: map<string, State>, others: nat -> seq<Act>,
                  written: seq<string>, g: string): seq<LiveRecord>
    requires HasDigests(r)
  {
    if written == [] then OthersRecord(groups, others(0), g)
    else
      Theirs(docs, r, groups, others, written[..|written| - 1], g)
        + OthersRecord(Updated(docs, r, groups, others, written), others(|written|), g)
  }

  lemma StepRecords(s: State, step: Step)
    requires Enabled(s, step)
    ensures Apply(s, step).h.live == if step.RecordLive? then s.h.live + [step.live] else s.h.live
  {
    OnlyRecorderWritesEvidence(s, step);
    hide Advance;
  }

  lemma LiveUpdateIsStep(s: State, r: LiveRecord)
    requires HasDigests(r)
    ensures Enabled(s, RecordLive(r)) && Apply(s, RecordLive(r)).item == Some(RecordedLive(Row(s), r))
  {
    hide RecordedLive;
  }

  lemma ActRecords(groups: map<string, State>, act: Act, g: string)
    requires g in groups
    ensures g in Done(groups, act) && Done(groups, act)[g].h.live == groups[g].h.live + Records(groups, act, g)
    ensures Inv(groups[g]) ==> Inv(Done(groups, act)[g])
  {
    hide Inv, Enabled, Apply;
    if act.group == g && Enabled(groups[g], act.step) {
      StepRecords(groups[g], act.step);
      if Inv(groups[g]) { StepKeepsInv(groups[g], act.step); }
    }
  }

  lemma {:induction false} OthersRecordTheirs(groups: map<string, State>, acts: seq<Act>, g: string)
    requires g in groups
    ensures OthersDo(groups, acts)[g].h.live == groups[g].h.live + OthersRecord(groups, acts, g)
    ensures Inv(groups[g]) ==> Inv(OthersDo(groups, acts)[g])
  {
    if acts != [] {
      hide Inv, Done, Records;
      var front := acts[..|acts| - 1];
      OthersRecordTheirs(groups, front, g);
      ActRecords(OthersDo(groups, front), acts[|acts| - 1], g);
    }
  }

  /** After those of `before`, the deliveries are `theirs` in their order, with `ours` somewhere among them. */
  ghost predicate Interleaved(live: seq<LiveRecord>, before: seq<LiveRecord>, theirs: seq<LiveRecord>,
                              ours: LiveRecord) {
    exists k :: 0 <= k <= |theirs| && live == before + theirs[..k] + [ours] + theirs[k..]
  }

  lemma InterleavedGrows(live: seq<LiveRecord>, before: seq<LiveRecord>, theirs: seq<LiveRecord>, ours: LiveRecord,
                         more: seq<LiveRecord>)
    requires Interleaved(live, before, theirs, ours)
    ensures Interleaved(live + more, before, theirs + more, ours)
  {
    var k :| 0 <= k <= |theirs| && live == before + theirs[..k] + [ours] + theirs[k..];
    assert (theirs + more)[..k] == theirs[..k] && (theirs + more)[k..] == theirs[k..] + more;
  }

  lemma InterleavedLast(before: seq<LiveRecord>, theirs: seq<LiveRecord>, ours: LiveRecord)
    ensures Interleaved(before + theirs + [ours], before, theirs, ours)
  {
    assert theirs[..|theirs|] == theirs && theirs[|theirs|..] == [];
    assert before + theirs + [ours] == before + theirs[..|theirs|] + [ours] + theirs[|theirs|..];
  }

  lemma UpdatedSnoc(docs: seq<Document>, r: LiveRecord, groups: map<string, State>, others: nat -> seq<Act>,
                    front: seq<string>, name: string, g: string)
    requires HasDigests(r)
    ensures var before, step := WrittenAmong(docs, r, groups, others, front), RecordLive(Part(docs, r, name));
      Updated(docs, r, groups, others, front + [name])
        == if name in groups then before[name := Apply(before[name], step)] else before
    ensures var more := OthersRecord(Updated(docs, r, groups, others, front + [name]), others(|front| + 1), g);
      Theirs(docs, r, groups, others, front + [name], g) == Theirs(docs, r, groups, others, front, g) + more
  {
    hide Apply, OthersDo, OthersRecord, Tally;
    assert (front + [name])[..|front|] == front;
  }

  /** The update is recorded for its own group. */
  lemma UpdateRecords(s: State, r: LiveRecord)
    requires HasDigests(r)
    ensures Enabled(s, RecordLive(r)) && Apply(s, RecordLive(r)).h.live == s.h.live + [r]
    ensures Inv(s) ==> Inv(Apply(s, RecordLive(r)))
  {
    hide Inv;
    StepRecords(s, RecordLive(r));
    if Inv(s) { StepKeepsInv(s, RecordLive(r)); }
  }

  /** Whatever others do, and whoever else records: the deliveries of a log group are those there were and
      those of others, and if the group was written, once among them that of the recorder. */
  lemma {:induction false} HistoryIsTheirsAndOurs(docs: seq<Document>, r: LiveRecord, groups: map<string, State>,
                                                  others: nat -> seq<Act>, written: seq<string>, g: string)
    requires HasDigests(r) && Distinct(written) && g in groups
    ensures var after := WrittenAmong(docs, r, groups, others, written);
      var theirs := Theirs(docs, r, groups, others, written, g);
      && (g in written ==> Interleaved(after[g].h.live, groups[g].h.live, theirs, Part(docs, r, g)))
      && (g !in written ==> after[g].h.live == groups[g].h.live + theirs)
      && (Inv(groups[g]) ==> Inv(after[g]))
  {
    hide Inv, Enabled, Apply, Tally, Interleaved, OthersDo, OthersRecord;
    OthersRecordTheirs(Updated(docs, r, groups, others, written), others(|written|), g);
    if written != [] {
      var front, name := written[..|written| - 1], written[|written| - 1];
      HistoryIsTheirsAndOurs(docs, r, groups, others, front, g);
      assert written == front + [name];
      HistoryGrows(docs, r, groups, others, front, name, g);
    }
  }

  lemma HistoryGrows(docs: seq<Document>, r: LiveRecord, groups: map<string, State>, others: nat -> seq<Act>,
                     front: seq<string>, name: string, g: string)
    requires HasDigests(r) && name !in front && g in groups
    requires var before := WrittenAmong(docs, r, groups, others, front);
      var theirs := Theirs(docs, r, groups, others, front, g);
      && (g in front ==> Interleaved(before[g].h.live, groups[g].h.live, theirs, Part(docs, r, g)))
      && (g !in front ==> before[g].h.live == groups[g].h.live + theirs)
      && (Inv(groups[g]) ==> Inv(before[g]))
    ensures var written := front + [name];
      var after, theirs := WrittenAmong(docs, r, groups, others, written), Theirs(docs, r, groups, others, written, g);
      && (g in written ==> Interleaved(after[g].h.live, groups[g].h.live, theirs, Part(docs, r, g)))
      && (g !in written ==> after[g].h.live == groups[g].h.live + theirs)
      && (Inv(groups[g]) ==> Inv(after[g]))
  {
    hide Inv, Enabled, Apply, Tally, Interleaved, OthersDo, OthersRecord, Updated, Theirs;
    var before, now := WrittenAmong(docs, r, groups, others, front), Updated(docs, r, groups, others, front + [name]);
    var theirs, more := Theirs(docs, r, groups, others, front, g), OthersRecord(now, others(|front| + 1), g);
    UpdatedSnoc(docs, r, groups, others, front, name, g);
    OthersRecordTheirs(now, others(|front| + 1), g);
    if name == g {
      UpdateRecords(before[g], Part(docs, r, g));
      InterleavedLast(groups[g].h.live, theirs, Part(docs, r, g));
      InterleavedGrows(now[g].h.live, groups[g].h.live, theirs, Part(docs, r, g), more);
    } else if g in front {
      InterleavedGrows(now[g].h.live, groups[g].h.live, theirs, Part(docs, r, g), more);
    }
  }

  lemma {:induction false} SumEventsAdds(first: seq<LiveRecord>, second: seq<LiveRecord>)
    ensures SumEvents(first + second) == SumEvents(first) + SumEvents(second)
  {
    if second == [] {
      assert first + second == first;
    } else {
      SumEventsAdds(first, second[..|second| - 1]);
      assert (first + second)[..|first + second| - 1] == first + second[..|second| - 1];
    }
  }

  lemma InterleavedSums(live: seq<LiveRecord>, before: seq<LiveRecord>, theirs: seq<LiveRecord>, ours: LiveRecord)
    requires Interleaved(live, before, theirs, ours)
    ensures |live| == |before| + |theirs| + 1
    ensures SumEvents(live) == SumEvents(before) + SumEvents(theirs) + ours.events
  {
    hide SumEvents;
    var k :| 0 <= k <= |theirs| && live == before + theirs[..k] + [ours] + theirs[k..];
    SumEventsAdds(before + theirs[..k] + [ours], theirs[k..]);
    SumEventsAdds(before + theirs[..k], [ours]);
    SumEventsAdds(before, theirs[..k]);
    SumEventsAdds(theirs[..k], theirs[k..]);
    assert theirs[..k] + theirs[k..] == theirs;
    SumEventsOfOne(ours);
  }

  lemma SumEventsOfOne(r: LiveRecord)
    ensures SumEvents([r]) == r.events
  {
    assert [r][..0] == [];
  }

  /** However many write at once, the row counts every delivery once and every event of it: those of others,
      and that of the recorder exactly if the row was written. */
  lemma NoDeliveryIsLost(docs: seq<Document>, r: LiveRecord, groups: map<string, State>, others: nat -> seq<Act>,
                         written: seq<string>, g: string)
    requires HasDigests(r) && Distinct(written) && g in groups && Inv(groups[g])
    ensures var before, after := Row(groups[g]).live, Row(WrittenAmong(docs, r, groups, others, written)[g]).live;
      var theirs := Theirs(docs, r, groups, others, written, g);
      && after.objects.GetOr(0) == before.objects.GetOr(0) + |theirs| + (if g in written then 1 else 0)
      && after.events.GetOr(0)
         == before.events.GetOr(0) + SumEvents(theirs) + (if g in written then Tally(docs, g) else 0)
  {
    HistoryIsTheirsAndOurs(docs, r, groups, others, written, g);
    var after, theirs := WrittenAmong(docs, r, groups, others, written), Theirs(docs, r, groups, others, written, g);
    hide WrittenAmong, Theirs, Interleaved, SumEvents, Tally;
    hide ClockInv, SubInv, GapInv, BackfillInv, ObjectInv, PcInv, ReportInv, ExportInv, SourceInv, VanishedInv;
    if g in written {
      InterleavedSums(after[g].h.live, groups[g].h.live, theirs, Part(docs, r, g));
    } else {
      SumEventsAdds(groups[g].h.live, theirs);
    }
  }

  class Recorder {
    const ledger: CoverageLedger

    constructor (ledger: CoverageLedger)
      ensures this.ledger == ledger
    {
      this.ledger := ledger;
    }

    /** What the dict holds after some documents. */
    ghost predicate Counted(docs: seq<Document>, counts: map<string, nat>) {
      && (forall g :: g in counts <==> Named(docs, g))
      && (forall g :: g in counts ==> counts[g] == Tally(docs, g))
      && (forall g :: g != "" && g !in counts ==> Tally(docs, g) == 0)
    }

    lemma CountOneMore(docs: seq<Document>, i: nat, counts: map<string, nat>)
      requires i < |docs| && Counted(docs[..i], counts)
      ensures var d := docs[i];
        var events := (if d.logGroup in counts then counts[d.logGroup] else 0) + d.events;
        Counted(docs[..i + 1], if d.logGroup == "" then counts else counts[d.logGroup := events])
    {
      assert docs[..i + 1][..i] == docs[..i];
      assert docs[..i + 1] == docs[..i] + [docs[i]];
      forall g ensures Named(docs[..i + 1], g) <==> Named(docs[..i], g) || (g != "" && docs[i].logGroup == g) {
        if g != "" && docs[i].logGroup == g { assert docs[i] in docs[..i + 1]; }
      }
    }

    lemma NothingCounted(docs: seq<Document>)
      ensures Counted(docs[..0], map[])
    {
    }

    /** The counting loop of `record_object`: the dict and the order of its keys. */
    method CountEvents(docs: seq<Document>) returns (counts: map<string, nat>, order: seq<string>)
      ensures forall g :: g in counts <==> Named(docs, g)
      ensures forall g :: g in counts ==> counts[g] == Tally(docs, g)
      ensures Distinct(order) && forall g :: g in order <==> g in counts
    {
      hide Named, Tally;
      counts, order := map[], [];
      NothingCounted(docs);
      for i := 0 to |docs|
        invariant Counted(docs[..i], counts)
        invariant Distinct(order) && forall g :: g in order <==> g in counts
      {
        var group := docs[i].logGroup;
        CountOneMore(docs, i, counts);
        if group != "" {
          if group !in counts { order := order + [group]; }
          counts := counts[group := (if group in counts then counts[group] else 0) + docs[i].events];
        }
      }
      assert docs[..|docs|] == docs;
    }

    /** The rows are those of the log groups' protocol states. */
    ghost predicate Holds(groups: map<string, State>)
      reads ledger
    {
      forall g :: g in groups ==> ledger.Lookup(g) == groups[g].item
    }

    /** The row comes to be that of the state. */
    method Make(name: string, groups: map<string, State>, t: State)
      requires Holds(groups) && name in groups && (t.item.None? ==> groups[name].item.None?)
      modifies ledger
      ensures Holds(groups[name := t])
    {
      if t.item.Some? { ledger.table := ledger.table[name := t.item.value]; }
    }

    lemma KeepsItem(s: State, step: Step)
      requires Enabled(s, step)
      ensures Apply(s, step).item.None? ==> s.item.None?
    {
    }

    /** The acts of others, one after the other: of the reconciler, of other recorders, of the environment. */
    method Others(acts: seq<Act>, groups: map<string, State>) returns (after: map<string, State>)
      requires Holds(groups)
      modifies ledger
      ensures Holds(after) && after == OthersDo(groups, acts)
    {
      hide Enabled, Apply;
      after := groups;
      for i := 0 to |acts|
        invariant Holds(after) && after == OthersDo(groups, acts[..i])
      {
        var act := acts[i];
        assert acts[..i + 1][..i] == acts[..i];
        if act.group in after && Enabled(after[act.group], act.step) {
          KeepsItem(after[act.group], act.step);
          Make(act.group, after, Apply(after[act.group], act.step));
          after := after[act.group := Apply(after[act.group], act.step)];
        }
      }
      assert acts[..|acts|] == acts;
    }

    /** The atomic update of one row, which is a step of the protocol. */
    method UpdateRow(docs: seq<Document>, r: LiveRecord, groups: map<string, State>, group: string, events: nat)
      returns (after: map<string, State>)
      requires HasDigests(r) && group in groups && Holds(groups) && events == Tally(docs, group)
      modifies ledger
      ensures Enabled(groups[group], RecordLive(Part(docs, r, group)))
      ensures Holds(after) && after == groups[group := Apply(groups[group], RecordLive(Part(docs, r, group)))]
    {
      hide Apply, Enabled, RecordedLive, Tally;
      var update := r.(events := events);
      LiveUpdateIsStep(groups[group], update);
      ledger.table := ledger.table[group := RecordedLive(RowOf(ledger.Lookup(group)), update)];
      after := groups[group := Apply(groups[group], RecordLive(update))];
    }

    /** The next row update, after which others act again. */
    method UpdateNext(docs: seq<Document>, r: LiveRecord, ghost groups: map<string, State>, others: nat -> seq<Act>,
                      now: map<string, State>, i: nat, group: string, events: nat, ghost written: seq<string>)
      returns (after: map<string, State>)
      requires HasDigests(r) && group in now && Holds(now) && events == Tally(docs, group) && i == |written|
      requires now == WrittenAmong(docs, r, groups, others, written)
      modifies ledger
      ensures Holds(after) && after == WrittenAmong(docs, r, groups, others, written + [group])
    {
      hide Apply, Enabled, Tally, Updated, OthersDo, Theirs, Holds;
      UpdatedSnoc(docs, r, groups, others, written, group, group);
      after := UpdateRow(docs, r, now, group, events);
      after := Others(others(i + 1), after);
    }

    lemma StartsWithOthers(docs: seq<Document>, r: LiveRecord, groups: map<string, State>, others: nat -> seq<Act>)
      requires HasDigests(r)
      ensures WrittenAmong(docs, r, groups, others, []) == OthersDo(groups, others(0))
    {
    }

    /** `record_object` for a live object. The manifest and every row update may raise, and an
        exception in the middle leaves the rows written so far. Others act before each update, and
        after the last one. */
    method RecordLiveObject(docs: seq<Document>, r: LiveRecord, groups: map<string, State>, others: nat -> seq<Act>)
      returns (result: Result<seq<string>, string>, after: map<string, State>, ghost written: seq<string>)
      requires HasDigests(r)
      requires Holds(groups) && forall d :: d in docs && d.logGroup != "" ==> d.logGroup in groups
      modifies ledger
      ensures Holds(after) && after == WrittenAmong(docs, r, groups, others, written)
      ensures Distinct(written) && forall g :: g in written ==> Named(docs, g)
      ensures result.Ok? ==> Sorted(result.value) && multiset(result.value) == multiset(written)
      ensures result.Ok? ==> SumTallies(docs, written) == AllEvents(docs)
      ensures result.Ok? ==> forall g :: Named(docs, g) ==> g in written
      ensures (forall d :: d in docs ==> d.logGroup == "") ==> result.Err?
    {
      hide Tally, SumTallies, AllEvents, Sort, Sorted, OthersDo, WrittenAmong, Holds;
      written := [];
      after := Others(others(0), groups);
      StartsWithOthers(docs, r, groups, others);
      var counts, order := CountEvents(docs);
      if counts == map[] { return Err("live archive object has no logGroup evidence"), after, written; }
      var manifestFails: bool := *;
      if manifestFails { return Err("PutObject"), after, written; }
      for i := 0 to |order|
        invariant written == order[..i]
        invariant Holds(after) && after == WrittenAmong(docs, r, groups, others, written)
      {
        var fails: bool := *;
        if fails { return Err("UpdateItem"), after, written; }
        var group := order[i];
        assert order[..i + 1] == order[..i] + [group];
        after := UpdateNext(docs, r, groups, others, after, i, group, counts[group], written);
        written := order[..i + 1];
      }
      assert order[..|order|] == order;
      EventsConserved(docs, order);
      SortSorts(order);
      return Ok(Sort(order)), after, written;
    }

    /** `record_object` for a backfill object. */
    method RecordBackfillObject(r: ObjectRecord) returns (result: Result<seq<string>, string>)
      requires StartsWith(r.key, "backfill/")
      modifies ledger
      ensures BackfillLogGroup(r.key).GetOr("") == "" ==> result.Err?
      ensures result.Err? ==> ledger.table == old(ledger.table)
      ensures result.Ok? ==>
        var group := BackfillLogGroup(r.key).GetOr("");
        && result.value == [group]
        && ledger.table == old(ledger.table)[group := RecordedObject(RowOf(old(ledger.Lookup(group))), r)]
    {
      var group := BackfillLogGroup(r.key).GetOr("");
      if group == "" { return Err("backfill key has no log-group partition"); }
      var fails: bool := *;
      if fails { return Err("PutObject or UpdateItem"); }
      ledger.table := ledger.table[group := RecordedObject(RowOf(ledger.Lookup(group)), r)];
      return Ok([group]);
    }
  }
}
