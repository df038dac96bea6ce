/**
  The validated operation-to-Target index of an MCP descriptor: which descriptors and ledger entries
  are accepted, and that an accepted ledger is a partition of its operations.
 */
module TargetIndex {
  import opened Basics
  import opened Text
  import TargetNames
  import Slug

  datatype Json =
    | JNull
    | JBool(b: bool)
    | JNumber(n: int)
    | JString(s: string)
    | JList(items: seq<Json>)
    | JObject(fields: map<string, Json>)

  /** `d.get(key)`. */
  function Field(fields: map<string, Json>, key: string): Json {
    if key in fields then fields[key] else JNull
  }

  datatype Target = Target(name: string, sensitivity: string, operations: seq<string>, targetId: string)
  datatype Index = Index(split: bool, targets: seq<Target>, legacyName: Option<string>)

  const SENSITIVITIES: set<string> := {"READ", "CREATE", "UPDATE", "DELETE"}

  // ---- One entry ----

  predicate NonBlank(v: Json) { v.JString? && Trim(v.s) != "" }

  /** A text with something in it besides white space. */
  ghost predicate HasText(v: Json) { v.JString? && exists i :: 0 <= i < |v.s| && !IsSpace(v.s[i]) }

  lemma NonBlankHasText(v: Json)
    ensures NonBlank(v) <==> HasText(v)
  {
    if v.JString? { TrimIsBlank(v.s); }
  }

  /** `tuple(dict.fromkeys(s))`: the first occurrences, in order. */
  function Dedup(s: seq<string>): (r: seq<string>)
    ensures forall x :: x in r <==> x in s
    ensures forall i, j :: 0 <= i < j < |r| ==> r[i] != r[j]
  {
    if s == [] then []
    else
      var front := Dedup(s[..|s| - 1]);
      assert s == s[..|s| - 1] + [s[|s| - 1]];
      if s[|s| - 1] in front then front else front + [s[|s| - 1]]
  }

  /** The first `a` stands before every `b`. */
  ghost predicate Earlier(s: seq<string>, a: string, b: string) {
    exists k :: 0 <= k < |s| && s[k] == a && forall l :: 0 <= l <= k ==> s[l] != b
  }

  lemma {:induction false} DedupKeepsOrder(s: seq<string>)
    ensures forall i, j :: 0 <= i < j < |Dedup(s)| ==> Earlier(s, Dedup(s)[i], Dedup(s)[j])
  {
    if s != [] {
      var rest, r := s[..|s| - 1], Dedup(s);
      DedupKeepsOrder(rest);
      assert s == rest + [s[|s| - 1]];
      forall i, j | 0 <= i < j < |r| ensures Earlier(s, r[i], r[j]) {
        assert r[i] == Dedup(rest)[i] && r[i] in rest;
        if j < |Dedup(rest)| {
          assert Earlier(rest, r[i], r[j]);
          var k :| 0 <= k < |rest| && rest[k] == r[i] && forall l :: 0 <= l <= k ==> rest[l] != r[j];
          assert s[k] == r[i] && forall l :: 0 <= l <= k ==> s[l] != r[j];
        } else {
          var k :| 0 <= k < |rest| && rest[k] == r[i];
          assert s[k] == r[i] && forall l :: 0 <= l <= k ==> s[l] != r[j];
        }
      }
    }
  }

  function TrimAll(items: seq<Json>): (r: seq<string>)
    requires forall i :: 0 <= i < |items| ==> items[i].JString?
    ensures |r| == |items| && forall i :: 0 <= i < |items| ==> r[i] == Trim(items[i].s)
  {
    if items == [] then [] else [Trim(items[0].s)] + TrimAll(items[1..])
  }

  /** The target has the stripped name and id of the entry, and its operations, each once. */
  ghost predicate Describes(fields: map<string, Json>, t: Target) {
    var name, targetId := Field(fields, "gatewayTargetName"), Field(fields, "gatewayTargetId");
    var operations := Field(fields, "operations");
    && name.JString? && Trim(name.s) == t.name != "" && targetId.JString? && Trim(targetId.s) == t.targetId != ""
    && operations.JList?
    && (forall op :: op in t.operations <==> Spells(operations.items, op))
    && forall i, j :: 0 <= i < j < |t.operations| ==> SpelledEarlier(operations.items, t.operations[i], t.operations[j])
  }

  /** The first spelling of `a` stands before every spelling of `b`. */
  ghost predicate SpelledEarlier(items: seq<Json>, a: string, b: string) {
    exists k :: 0 <= k < |items| && IsSpelling(items[k], a) && forall l :: 0 <= l <= k ==> !IsSpelling(items[l], b)
  }

  ghost predicate Spells(items: seq<Json>, operation: string) {
    exists i :: 0 <= i < |items| && IsSpelling(items[i], operation)
  }

  /** The entry has a name, an id, the state "ready", a known sensitivity, and a non-empty list of
      operations; padding, and the case of state and sensitivity, do not matter. */
  ghost predicate IsComplete(fields: map<string, Json>) {
    && HasText(Field(fields, "gatewayTargetName")) && HasText(Field(fields, "gatewayTargetId"))
    && IsWord(Field(fields, "gatewayTargetState"), "ready")
    && (exists tag :: tag in SENSITIVITIES && IsTag(Field(fields, "sensitivity"), tag))
    && var operations := Field(fields, "operations");
       operations.JList? && operations.items != []
       && forall i :: 0 <= i < |operations.items| ==> HasText(operations.items[i])
  }

  predicate IsWord(v: Json, word: string) { v.JString? && LowerAscii(Trim(v.s)) == word }
  predicate IsTag(v: Json, tag: string) { v.JString? && Upper(Trim(v.s)) == tag }

  predicate IsSpelling(item: Json, operation: string) { item.JString? && Trim(item.s) == operation }

  lemma OperationsAreRead(items: seq<Json>)
    requires items != [] && forall i :: 0 <= i < |items| ==> NonBlank(items[i]) && items[i].JString?
    ensures var ops := Dedup(TrimAll(items));
      && ops != []
      && (forall i :: 0 <= i < |ops| ==> Trimmed(ops[i]) && ops[i] != "")
      && (forall op :: op in ops <==> Spells(items, op))
      && (forall i, j :: 0 <= i < j < |ops| ==> SpelledEarlier(items, ops[i], ops[j]))
  {
    var trimmed := TrimAll(items);
    var ops := Dedup(trimmed);
    assert trimmed[0] in ops;
    forall i | 0 <= i < |ops| ensures Trimmed(ops[i]) && ops[i] != "" {
      assert ops[i] in trimmed;
      var k :| 0 <= k < |trimmed| && trimmed[k] == ops[i];
      TrimIsTrimmed(items[k].s);
    }
    forall op ensures op in ops <==> Spells(items, op) {
      if op in trimmed {
        var k :| 0 <= k < |trimmed| && trimmed[k] == op;
        assert IsSpelling(items[k], op);
      }
      if i :| 0 <= i < |items| && IsSpelling(items[i], op) { assert trimmed[i] == op; }
    }
    DedupKeepsOrder(trimmed);
    forall i, j | 0 <= i < j < |ops| ensures SpelledEarlier(items, ops[i], ops[j]) {
      assert Earlier(trimmed, ops[i], ops[j]);
      var k :| 0 <= k < |trimmed| && trimmed[k] == ops[i] && forall l :: 0 <= l <= k ==> trimmed[l] != ops[j];
      assert IsSpelling(items[k], ops[i]);
    }
  }

  /** A complete entry of the target ledger, normalised; nothing for any other value. */
  function ReadTarget(raw: Json): (t: Option<Target>)
    ensures t.Some? ==> t.value.operations != [] && t.value.sensitivity in SENSITIVITIES
    ensures t.Some? ==>
      forall i, j :: 0 <= i < j < |t.value.operations| ==> t.value.operations[i] != t.value.operations[j]
    ensures t.Some? ==>
      forall i :: 0 <= i < |t.value.operations| ==> Trimmed(t.value.operations[i]) && t.value.operations[i] != ""
    ensures t.Some? ==> raw.JObject? && Describes(raw.fields, t.value)
  {
    if !raw.JObject? then None
    else
      var name := Field(raw.fields, "gatewayTargetName");
      var targetId := Field(raw.fields, "gatewayTargetId");
      var state := Field(raw.fields, "gatewayTargetState");
      var sensitivity := Field(raw.fields, "sensitivity");
      var operations := Field(raw.fields, "operations");
      var tag := if sensitivity.JString? then Upper(Trim(sensitivity.s)) else "";
      if NonBlank(name) && NonBlank(targetId)
         && state.JString? && LowerAscii(Trim(state.s)) == "ready"
         && tag in SENSITIVITIES
         && operations.JList? && operations.items != []
         && forall i :: 0 <= i < |operations.items| ==> NonBlank(operations.items[i])
      then
        OperationsAreRead(operations.items);
        var ops := Dedup(TrimAll(operations.items));
        Some(Target(Trim(name.s), tag, ops, Trim(targetId.s)))
      else None
  }

  /** An entry is accepted exactly when it is complete. */
  lemma AcceptsExactly(raw: Json)
    ensures ReadTarget(raw).Some? <==> raw.JObject? && IsComplete(raw.fields)
    ensures ReadTarget(raw).Some? ==> IsTag(Field(raw.fields, "sensitivity"), ReadTarget(raw).value.sensitivity)
  {
    assert "" !in SENSITIVITIES;
    forall v { NonBlankHasText(v); }
  }

  /** The sensitivities of the ledger are those that a target name can be made for. */
  lemma SensitivitiesHaveNames(name: string, v: Json, digest: Slug.Digest)
    requires v.JString?
    ensures (exists tag :: tag in SENSITIVITIES && IsTag(v, tag))
      <==> TargetNames.GatewayTargetName(name, Some(v.s), digest).Ok?
  {
    var tag := Upper(Trim(v.s));
    assert tag in SENSITIVITIES <==> exists t :: t in SENSITIVITIES && IsTag(v, t);
    hide Upper, Trim;
  }

  // ---- The whole ledger ----

  ghost predicate DisjointOperations(a: Target, b: Target) {
    forall op :: op in a.operations ==> op !in b.operations
  }

  /** Names and sensitivities are unique and no operation belongs to two targets. */
  ghost predicate IsPartition(targets: seq<Target>) {
    forall i, j :: 0 <= i < j < |targets| ==>
      && targets[i].name != targets[j].name
      && targets[i].sensitivity != targets[j].sensitivity
      && DisjointOperations(targets[i], targets[j])
  }

  ghost predicate ReadsAs(raws: seq<Json>, targets: seq<Target>) {
    |raws| == |targets| && forall i :: 0 <= i < |raws| ==> ReadTarget(raws[i]) == Some(targets[i])
  }

  /** Every entry is complete, and together they are a partition. */
  ghost predicate WellFormedLedger(raws: seq<Json>) {
    exists targets :: ReadsAs(raws, targets) && IsPartition(targets)
  }

  lemma ReadsAsUnique(raws: seq<Json>, a: seq<Target>, b: seq<Target>)
    requires ReadsAs(raws, a) && ReadsAs(raws, b)
    ensures a == b
  {
    forall i | 0 <= i < |a| ensures a[i] == b[i] { assert ReadTarget(raws[i]) == Some(a[i]); }
  }

  ghost predicate Clash(a: Target, b: Target) {
    a.name == b.name || a.sensitivity == b.sensitivity || !DisjointOperations(a, b)
  }

  /** What the loop's dict and sets hold about the targets so far. */
  ghost predicate Summary(targets: seq<Target>, owner: map<string, string>, names: set<string>,
                          sensitivities: set<string>) {
    && IsPartition(targets)
    && (forall n :: n in names <==> SomeName(targets, n))
    && (forall s :: s in sensitivities <==> SomeTag(targets, s))
    && (forall op :: op in owner <==> SomeOwner(targets, op))
    && (forall op :: op in owner ==> owner[op] in names)
  }

  /** One of the targets has the name, the sensitivity or the operation. */
  ghost predicate SomeName(targets: seq<Target>, x: string) {
    exists k :: 0 <= k < |targets| && targets[k].name == x
  }

  ghost predicate SomeTag(targets: seq<Target>, x: string) {
    exists k :: 0 <= k < |targets| && targets[k].sensitivity == x
  }

  ghost predicate SomeOwner(targets: seq<Target>, x: string) {
    exists k :: 0 <= k < |targets| && x in targets[k].operations
  }

  lemma SomeOneMore(targets: seq<Target>, target: Target, x: string)
    ensures SomeName(targets + [target], x) <==> SomeName(targets, x) || target.name == x
    ensures SomeTag(targets + [target], x) <==> SomeTag(targets, x) || target.sensitivity == x
    ensures SomeOwner(targets + [target], x) <==> SomeOwner(targets, x) || x in target.operations
  {
    var all := targets + [target];
    assert all[|targets|] == target;
    if k :| 0 <= k < |targets| && targets[k].name == x { assert all[k].name == x; }
    if k :| 0 <= k < |targets| && targets[k].sensitivity == x { assert all[k].sensitivity == x; }
    if k :| 0 <= k < |targets| && x in targets[k].operations { assert x in all[k].operations; }
  }

  lemma SummaryGrows(targets: seq<Target>, owner: map<string, string>, names: set<string>, sensitivities: set<string>,
                     target: Target, owner': map<string, string>)
    requires Summary(targets, owner, names, sensitivities)
    requires target.name !in names && target.sensitivity !in sensitivities
    requires forall op :: op in target.operations ==> op !in owner
    requires forall op :: op in owner' <==> op in owner || op in target.operations
    requires forall op :: op in owner' ==> owner'[op] == if op in owner then owner[op] else target.name
    ensures Summary(targets + [target], owner', names + {target.name}, sensitivities + {target.sensitivity})
  {
    forall k | 0 <= k < |targets| ensures !Clash(targets[k], target) {
      assert SomeName(targets, targets[k].name) && SomeTag(targets, targets[k].sensitivity);
      assert forall op :: op in targets[k].operations ==> SomeOwner(targets, op);
    }
    PartitionGrows(targets, target);
    hide IsPartition, SomeName, SomeTag, SomeOwner;
    forall x { SomeOneMore(targets, target, x); }
  }

  lemma PartitionGrows(targets: seq<Target>, target: Target)
    requires IsPartition(targets) && forall k :: 0 <= k < |targets| ==> !Clash(targets[k], target)
    ensures IsPartition(targets + [target])
  {
  }

  /** An entry that is incomplete, or clashes with an earlier one, spoils the ledger. */
  lemma Spoils(raws: seq<Json>, i: nat, targets: seq<Target>)
    requires i < |raws| && ReadsAs(raws[..i], targets)
    requires ReadTarget(raws[i]).None? || exists k :: 0 <= k < i && Clash(targets[k], ReadTarget(raws[i]).value)
    ensures !WellFormedLedger(raws)
  {
    forall all | ReadsAs(raws, all) ensures !IsPartition(all) {
      assert ReadsAs(raws[..i], all[..i]);
      ReadsAsUnique(raws[..i], targets, all[..i]);
      assert ReadTarget(raws[i]) == Some(all[i]);
      var k :| 0 <= k < i && Clash(targets[k], all[i]);
      assert targets[k] == all[..i][k] == all[k];
    }
  }

  /** The validation loop of `mcp_gateway_target_index`: it accepts exactly the well-formed
      ledgers, and returns their entries in order. */
  method ReadLedger(raws: seq<Json>) returns (r: Result<seq<Target>, string>)
    ensures r.Ok? <==> WellFormedLedger(raws)
    ensures r.Ok? ==> ReadsAs(raws, r.value) && IsPartition(r.value)
  {
    hide ReadTarget, Describes, NonBlank, Field, Trimmed;
    var targets: seq<Target> := [];
    var owner: map<string, string> := map[];
    var names: set<string>, sensitivities: set<string> := {}, {};
    for i := 0 to |raws|
      invariant ReadsAs(raws[..i], targets)
      invariant Summary(targets, owner, names, sensitivities)
    {
      var parsed := ReadTarget(raws[i]);
      if parsed.None? {
        Spoils(raws, i, targets);
        return Err("incomplete entry");
      }
      var target := parsed.value;
      if target.name in names || target.sensitivity in sensitivities {
        if target.name in names {
          var k :| 0 <= k < i && targets[k].name == target.name;
          assert Clash(targets[k], target);
        } else {
          var k :| 0 <= k < i && targets[k].sensitivity == target.sensitivity;
          assert Clash(targets[k], target);
        }
        Spoils(raws, i, targets);
        return Err("duplicate name or sensitivity");
      }
      var claimed, fits := Claim(owner, target.name, target.operations);
      if !fits {
        ClaimedTwice(targets, owner, names, sensitivities, target);
        Spoils(raws, i, targets);
        return Err("operation in two targets");
      }
      SummaryGrows(targets, owner, names, sensitivities, target, claimed);
      owner, names, sensitivities := claimed, names + {target.name}, sensitivities + {target.sensitivity};
      ReadsOneMore(raws, i, targets, target);
      targets := targets + [target];
    }
    assert raws[..|raws|] == raws;
    return Ok(targets);
  }

  lemma ReadsOneMore(raws: seq<Json>, i: nat, targets: seq<Target>, target: Target)
    requires i < |raws| && ReadsAs(raws[..i], targets) && ReadTarget(raws[i]) == Some(target)
    ensures ReadsAs(raws[..i + 1], targets + [target])
  {
    hide ReadTarget, Describes;
  }

  lemma ClaimedTwice(targets: seq<Target>, owner: map<string, string>, names: set<string>,
                     sensitivities: set<string>, target: Target)
    requires Summary(targets, owner, names, sensitivities)
    requires exists op :: op in target.operations && op in owner
    ensures exists k :: 0 <= k < |targets| && Clash(targets[k], target)
  {
    var op :| op in target.operations && op in owner;
    var k :| 0 <= k < |targets| && op in targets[k].operations;
    assert Clash(targets[k], target);
  }

  /** The `setdefault` loop: claims the operations for a new target, unless one has an owner. */
  method Claim(owner: map<string, string>, name: string, operations: seq<string>)
    returns (owner': map<string, string>, fits: bool)
    requires forall i, j :: 0 <= i < j < |operations| ==> operations[i] != operations[j]
    requires forall op :: op in owner ==> owner[op] != name
    ensures fits <==> forall op :: op in operations ==> op !in owner
    ensures fits ==> forall op :: op in owner' <==> op in owner || op in operations
    ensures fits ==> forall op :: op in owner' ==> owner'[op] == if op in owner then owner[op] else name
  {
    owner' := owner;
    for i := 0 to |operations|
      invariant forall k :: 0 <= k < i ==> operations[k] !in owner
      invariant forall op :: op in owner' <==> op in owner || op in operations[..i]
      invariant forall op :: op in owner' ==> owner'[op] == if op in owner then owner[op] else name
    {
      var operation := operations[i];
      if operation in owner' {
        if owner'[operation] != name { return owner', false; }
      } else {
        owner' := owner'[operation := name];
      }
    }
    fits := true;
  }

  // ---- The index of a descriptor ----

  /** The `mcp` object of the descriptor has a well-formed ledger, or no ledger and at most a
      legacy name. */
  ghost predicate WellFormedDescriptor(descriptors: Json) {
    descriptors.JObject? &&
    var mcp := Field(descriptors.fields, "mcp");
    mcp.JObject? &&
    if "gatewayTargets" in mcp.fields
    then mcp.fields["gatewayTargets"].JList? && WellFormedLedger(mcp.fields["gatewayTargets"].items)
    else Field(mcp.fields, "gatewayTargetName") == JNull || HasText(Field(mcp.fields, "gatewayTargetName"))
  }

  /** What every index that was read satisfies. */
  ghost predicate ValidIndex(index: Index) {
    if index.split then
      && index.legacyName.None? && IsPartition(index.targets)
      && forall i :: 0 <= i < |index.targets| ==> CompleteTarget(index.targets[i])
    else
      index.targets == [] && (index.legacyName.Some? ==> index.legacyName.value != "")
  }

  ghost predicate CompleteTarget(t: Target) {
    && t.sensitivity in SENSITIVITIES && t.operations != []
    && (forall i, j :: 0 <= i < j < |t.operations| ==> t.operations[i] != t.operations[j])
    && forall i :: 0 <= i < |t.operations| ==> Trimmed(t.operations[i]) && t.operations[i] != ""
  }

  /** `mcp_gateway_target_index`. */
  method ReadIndex(descriptors: Json) returns (r: Result<Index, string>)
    ensures r.Ok? <==> WellFormedDescriptor(descriptors)
    ensures r.Ok? ==> ValidIndex(r.value)
    ensures r.Ok? ==> r.value.split == ("gatewayTargets" in descriptors.fields["mcp"].fields)
    ensures r.Ok? && r.value.split ==>
      ReadsAs(descriptors.fields["mcp"].fields["gatewayTargets"].items, r.value.targets)
    ensures r.Ok? && !r.value.split ==>
      var legacy := Field(descriptors.fields["mcp"].fields, "gatewayTargetName");
      r.value.legacyName == if legacy.JString? then Some(Trim(legacy.s)) else None
  {
    var mcp := if descriptors.JObject? then Field(descriptors.fields, "mcp") else JNull;
    if !mcp.JObject? { return Err("malformed descriptor"); }
    if "gatewayTargets" !in mcp.fields {
      var legacy := Field(mcp.fields, "gatewayTargetName");
      NonBlankHasText(legacy);
      if legacy == JNull { return Ok(Index(false, [], None)); }
      if !NonBlank(legacy) { return Err("malformed legacy name"); }
      return Ok(Index(false, [], Some(Trim(legacy.s))));
    }
    var raw := mcp.fields["gatewayTargets"];
    if !raw.JList? { return Err("the ledger is not a list"); }
    var targets := ReadLedger(raw.items);
    if targets.Err? { return Err(targets.error); }
    forall i | 0 <= i < |targets.value| ensures CompleteTarget(targets.value[i]) {
      assert ReadTarget(raw.items[i]) == Some(targets.value[i]);
    }
    return Ok(Index(true, targets.value, None));
  }

  function Tags(targets: seq<Target>): set<string> { set t | t in targets :: t.sensitivity }

  lemma {:induction false} OneTagEach(targets: seq<Target>)
    requires IsPartition(targets)
    ensures |Tags(targets)| == |targets|
  {
    if targets != [] {
      var front, last := targets[..|targets| - 1], targets[|targets| - 1];
      OneTagEach(front);
      assert targets == front + [last];
      assert Tags(targets) == Tags(front) + {last.sensitivity};
      assert last.sensitivity !in Tags(front);
    }
  }

  lemma SubsetIsNoLarger(a: set<string>, b: set<string>)
    requires a <= b
    ensures |a| <= |b|
  {
    assert b == a + (b - a);
  }

  /** A split index has at most one target per sensitivity, hence at most four. */
  lemma AtMostFourTargets(index: Index)
    requires ValidIndex(index)
    ensures |index.targets| <= 4
  {
    if index.split {
      OneTagEach(index.targets);
      assert Tags(index.targets) <= SENSITIVITIES;
      SubsetIsNoLarger(Tags(index.targets), SENSITIVITIES);
    }
  }
}
