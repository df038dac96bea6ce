/**
  The ledger table and the log service as the telemetry programs call them. Every call may raise,
  and the services count, for each log group, the calls that raised or were refused.
 */
module TelemetryServices {
  import opened Basics
  import opened Telemetry
  import opened CoverageProtocol

  function LookupIn(table: map<string, Item>, name: string): Option<Item> {
    if name in table then Some(table[name]) else None
  }

  class CoverageLedger {
    var table: map<string, Item>
    var raised: multiset<string>

    function Lookup(name: string): Option<Item>
      reads this
    {
      LookupIn(table, name)
    }

    method Get(name: string) returns (r: Result<Option<Item>, string>)
      modifies this`raised
      ensures r.Ok? ==> r.value == Lookup(name)
      ensures raised[name := 0] == old(raised)[name := 0]
      ensures raised[name] == old(raised)[name] + if r.Err? then 1 else 0
    {
      var fails: bool := *;
      if fails {
        raised := raised[name := raised[name] + 1];
        return Err("GetItem");
      }
      return Ok(Lookup(name));
    }

    /** Assigns the fields that the patch names, creates the row if needed, and returns all of it. */
    method Update(name: string, patch: Item) returns (r: Result<Item, string>)
      modifies this
      ensures r.Ok? ==> table == old(table)[name := Merge(RowOf(old(Lookup(name))), patch)] && r.value == table[name]
      ensures r.Err? ==> table == old(table)
      ensures table - {name} == old(table) - {name}
      ensures raised[name := 0] == old(raised)[name := 0]
      ensures raised[name] == old(raised)[name] + if r.Err? then 1 else 0
    {
      var fails: bool := *;
      if fails {
        raised := raised[name := raised[name] + 1];
        return Err("UpdateItem");
      }
      var row := Merge(RowOf(Lookup(name)), patch);
      table := table[name := row];
      return Ok(row);
    }
  }

  class LogsClient {
    var clock: int
    var worlds: map<string, World>
    var raised: multiset<string>
    var refused: multiset<string>

    /** `time.time()`: no earlier than the last reading. */
    method ReadClock() returns (t: int)
      modifies this`clock
      ensures t == clock && old(clock) <= clock
    {
      var ms: int := *;
      clock := if ms > 0 then clock + ms else clock;
      return clock;
    }

    method DescribeLogGroup(name: string) returns (r: Result<Option<int>, string>)
      requires name in worlds
      modifies this`raised
      ensures r.Ok? ==> r.value == worlds[name].group
      ensures raised[name := 0] == old(raised)[name := 0]
      ensures raised[name] == old(raised)[name] + if r.Err? then 1 else 0
    {
      var fails: bool := *;
      if fails {
        raised := raised[name := raised[name] + 1];
        return Err("DescribeLogGroups");
      }
      return Ok(worlds[name].group);
    }

    method DescribeSubscriptionFilters(name: string) returns (r: Result<seq<Filter>, string>)
      requires name in worlds
      modifies this`raised
      ensures r.Ok? ==> worlds[name].group.Some? && r.value == worlds[name].filters
      ensures raised[name := 0] == old(raised)[name := 0]
      ensures raised[name] == old(raised)[name] + if r.Err? then 1 else 0
    {
      var fails: bool := *;
      if fails || worlds[name].group.None? {
        raised := raised[name := raised[name] + 1];
        return Err("DescribeSubscriptionFilters");
      }
      return Ok(worlds[name].filters);
    }

    /** The world of the log group once the filter is put. */
    function WithFilter(name: string, f: Filter): World
      requires name in worlds
      reads this
    {
      worlds[name].(filters := Put(worlds[name].filters, f), since := clock)
    }

    /** The filter may be put although the call raises. */
    method PutSubscriptionFilter(name: string, f: Filter) returns (r: Result<(), string>)
      requires name in worlds
      modifies this`worlds, this`raised
      ensures worlds - {name} == old(worlds) - {name}
      ensures worlds != old(worlds) || r.Ok? ==>
        old(worlds)[name].group.Some? && worlds == old(worlds)[name := old(WithFilter(name, f))]
      ensures raised[name := 0] == old(raised)[name := 0]
      ensures raised[name] == old(raised)[name] + if r.Err? then 1 else 0
    {
      var fails: bool, unanswered: bool := *, *;
      if fails || worlds[name].group.None? {
        if unanswered && worlds[name].group.Some? { worlds := worlds[name := WithFilter(name, f)]; }
        raised := raised[name := raised[name] + 1];
        return Err("PutSubscriptionFilter");
      }
      worlds := worlds[name := WithFilter(name, f)];
      return Ok(());
    }

    method DescribeExportTask(name: string, taskId: string) returns (r: Result<Option<TaskCode>, string>)
      requires name in worlds
      modifies this`raised, this`refused
      ensures r.Ok? && r.value.Some? ==>
        taskId in worlds[name].exports && worlds[name].exports[taskId].code == r.value.value
      ensures raised[name := 0] == old(raised)[name := 0]
      ensures raised[name] == old(raised)[name] + if r.Err? then 1 else 0
      ensures refused[name := 0] == old(refused)[name := 0]
      ensures refused[name] == old(refused)[name] + if r.Ok? && r.value.None? then 1 else 0
    {
      var fails: bool, unseen: bool := *, *;
      if fails {
        raised := raised[name := raised[name] + 1];
        return Err("DescribeExportTasks");
      }
      if unseen || taskId !in worlds[name].exports {
        refused := refused[name := refused[name] + 1];
        return Ok(None);
      }
      return Ok(Some(worlds[name].exports[taskId].code));
    }

    /** The world of the log group once the export has started. */
    function WithExport(name: string, taskId: string, from: int, to: int): World
      requires name in worlds
      reads this
    {
      worlds[name].(exports := worlds[name].exports[taskId := Task(from, to, TaskActive)])
    }

    /** The new task's id, or the error code of the exception. Unless the limit is exceeded, the task may
        have started all the same; then `taskId` is its id, and otherwise empty. */
    method CreateExportTask(name: string, from: int, to: int)
      returns (r: Result<string, string>, ghost taskId: string)
      requires name in worlds
      modifies this`worlds, this`refused
      ensures worlds - {name} == old(worlds) - {name}
      ensures taskId == "" ==> worlds == old(worlds)
      ensures taskId != "" ==>
        taskId !in old(worlds)[name].exports && worlds == old(worlds)[name := old(WithExport(name, taskId, from, to))]
      ensures r.Ok? ==> r.value == taskId && taskId != ""
      ensures r == Err("LimitExceededException") ==> taskId == ""
      ensures refused[name := 0] == old(refused)[name := 0]
      ensures refused[name] == old(refused)[name] + if r.Err? then 1 else 0
    {
      var id: string, error: string, fails: bool, unanswered: bool := *, *, *, *;
      if fails || id == "" || id in worlds[name].exports {
        refused := refused[name := refused[name] + 1];
        taskId := "";
        if unanswered && error != "LimitExceededException" && id != "" && id !in worlds[name].exports {
          taskId := id;
          worlds := worlds[name := WithExport(name, id, from, to)];
        }
        return Err(error), taskId;
      }
      worlds := worlds[name := WithExport(name, id, from, to)];
      return Ok(id), id;
    }
  }
}
