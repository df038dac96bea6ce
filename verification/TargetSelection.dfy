/**
  Looking operations up in a Target index: the owner of one operation, the bindings for a list
  of requested operations, and the projection that local development identities look up instead.
 */
module TargetSelection {
  import opened Basics
  import opened StringOrder
  import opened Text
  import opened TargetIndex

  // ---- The owner of one operation ----

  /** The first target that lists the operation. */
  function FirstOwner(targets: seq<Target>, operation: string): (t: Option<Target>) {
    if targets == [] then None
    else if operation in targets[0].operations then Some(targets[0])
    else FirstOwner(targets[1..], operation)
  }

  /** `McpGatewayTargetIndex.target_name`. */
  function TargetNameOf(index: Index, operationId: string): Option<string> {
    if !index.split then index.legacyName
    else match FirstOwner(index.targets, Trim(operationId)) case Some(t) => Some(t.name) case None => None
  }

  /** The search meets the only owner there is, wherever it stands. */
  lemma {:induction false} OwnerIsUnique(targets: seq<Target>, operation: string)
    requires IsPartition(targets)
    ensures FirstOwner(targets, operation).None?
      <==> forall i :: 0 <= i < |targets| ==> operation !in targets[i].operations
    ensures forall i :: 0 <= i < |targets| && operation in targets[i].operations ==>
      FirstOwner(targets, operation) == Some(targets[i])
  {
    if targets != [] {
      var rest := targets[1..];
      assert forall i :: 0 < i < |targets| ==> targets[i] == rest[i - 1];
      OwnerIsUnique(rest, operation);
      assert operation in targets[0].operations ==>
        forall i :: 0 < i < |targets| ==> DisjointOperations(targets[0], targets[i]);
    }
  }

  // ---- The bindings of a request ----

  ghost predicate Asks(operations: seq<Json>, x: string) {
    exists i :: 0 <= i < |operations| && HasText(operations[i]) && Trim(operations[i].s) == x
  }

  function Strings(operations: seq<Json>): (r: seq<string>)
    ensures forall x :: x in r ==> Trimmed(x) && x != ""
    ensures forall x :: x in r <==> Asks(operations, x)
  {
    if operations == [] then []
    else
      var front := Strings(operations[..|operations| - 1]);
      var last := operations[|operations| - 1];
      NonBlankHasText(last);
      if NonBlank(last) then TrimIsTrimmed(last.s); front + [Trim(last.s)] else front
  }

  /** The stripped, deduplicated request; other values and blanks are ignored. */
  function Requested(operations: seq<Json>): (r: seq<string>)
    ensures forall x :: x in r ==> Trimmed(x) && x != ""
    ensures forall x :: x in r <==> Asks(operations, x)
    ensures Distinct(r)
  {
    Dedup(Strings(operations))
  }

  /** One `a` stands before one `b`. */
  ghost predicate InThisOrder(s: seq<string>, a: string, b: string) {
    exists k, l :: 0 <= k < l < |s| && s[k] == a && s[l] == b
  }

  lemma OrderInTail(s: seq<string>, a: string, b: string)
    requires s != []
    ensures InThisOrder(s[1..], a, b) ==> InThisOrder(s, a, b)
    ensures a == s[0] && b in s[1..] ==> InThisOrder(s, a, b)
  {
    if k, l :| 0 <= k < l < |s[1..]| && s[1..][k] == a && s[1..][l] == b { assert s[k + 1] == a && s[l + 1] == b; }
    if a == s[0] && b in s[1..] {
      var l :| 0 <= l < |s[1..]| && s[1..][l] == b;
      assert s[0] == a && s[l + 1] == b;
    }
  }

  /** What of the operations is requested. */
  function Keep(operations: seq<string>, requested: seq<string>): (r: seq<string>)
    ensures forall x :: x in r <==> x in operations && x in requested
  {
    if operations == [] then []
    else (if operations[0] in requested then [operations[0]] else []) + Keep(operations[1..], requested)
  }

  ghost predicate InOrderOf(part: seq<string>, s: seq<string>) {
    forall i, j :: 0 <= i < j < |part| ==> InThisOrder(s, part[i], part[j])
  }

  lemma InOrderCons(part: seq<string>, s: seq<string>)
    requires s != [] && InOrderOf(part, s[1..]) && forall x :: x in part ==> x in s[1..]
    ensures InOrderOf(part, s) && InOrderOf([s[0]] + part, s)
  {
    forall x, y { OrderInTail(s, x, y); }
  }

  /** They are kept in their own order. */
  lemma {:induction false} KeepKeepsOrder(operations: seq<string>, requested: seq<string>)
    ensures InOrderOf(Keep(operations, requested), operations)
  {
    if operations != [] {
      hide InOrderOf;
      KeepKeepsOrder(operations[1..], requested);
      InOrderCons(Keep(operations[1..], requested), operations);
      assert [] + Keep(operations[1..], requested) == Keep(operations[1..], requested);
    } else {
      assert InOrderOf([], operations);
    }
  }

  function Narrow(target: Target, requested: seq<string>): Target {
    target.(operations := Keep(target.operations, requested))
  }

  /** The targets narrowed to the request, without those that it does not touch. */
  function NarrowAll(targets: seq<Target>, requested: seq<string>): seq<Target> {
    if targets == [] then []
    else
      var front, last := NarrowAll(targets[..|targets| - 1], requested), Narrow(targets[|targets| - 1], requested);
      if last.operations == [] then front else front + [last]
  }

  function Bindings(index: Index, operations: seq<Json>): seq<Target> {
    NarrowAll(index.targets, Requested(operations))
  }

  ghost predicate Owned(targets: seq<Target>, operation: string) {
    exists i :: 0 <= i < |targets| && operation in targets[i].operations
  }

  /** `McpGatewayTargetIndex.select`: it succeeds exactly when every requested operation is
      owned, and then returns the narrowed targets. */
  method Select(index: Index, operations: Option<seq<Json>>) returns (r: Result<seq<Target>, set<string>>)
    ensures !index.split ==> r == Ok([])
    ensures index.split && operations.None? ==> r.Err?
    ensures index.split && operations.Some? ==>
      (r.Ok? <==> forall op :: op in Requested(operations.value) ==> Owned(index.targets, op))
    ensures index.split && operations.Some? && r.Ok? ==> r.value == Bindings(index, operations.value)
    ensures index.split && operations.Some? && r.Err? ==>
      forall op :: op in r.error <==> op in Requested(operations.value) && !Owned(index.targets, op)
  {
    hide Requested, Strings, Keep, HasText, Asks;
    if !index.split { return Ok([]); }
    if operations.None? { return Err({}); }
    var requested := Requested(operations.value);
    var selected: seq<Target> := [];
    var claimed: set<string> := {};
    for i := 0 to |index.targets|
      invariant selected == NarrowAll(index.targets[..i], requested)
      invariant forall op :: op in claimed <==> op in requested && Owned(index.targets[..i], op)
    {
      var target := index.targets[i];
      var kept := Keep(target.operations, requested);
      OwnedByOneMore(index.targets, i);
      assert index.targets[..i + 1][..i] == index.targets[..i];
      if kept != [] {
        claimed := claimed + (set op | op in kept);
        selected := selected + [Target(target.name, target.sensitivity, kept, target.targetId)];
      } else {
        assert forall op :: op in target.operations && op in requested ==> op in kept;
      }
    }
    assert index.targets[..|index.targets|] == index.targets;
    var missing := (set op | op in requested) - claimed;
    if missing != {} {
      assert exists op :: op in missing;
      return Err(missing);
    }
    forall op | op in requested ensures op in claimed { assert op !in missing; }
    return Ok(selected);
  }

  lemma OwnedByOneMore(targets: seq<Target>, i: nat)
    requires i < |targets|
    ensures forall op :: Owned(targets[..i + 1], op) <==> Owned(targets[..i], op) || op in targets[i].operations
  {
    forall op ensures Owned(targets[..i + 1], op) <==> Owned(targets[..i], op) || op in targets[i].operations {
      if Owned(targets[..i], op) {
        var k :| 0 <= k < i && op in targets[k].operations;
        assert op in targets[..i + 1][k].operations;
      }
      if op in targets[i].operations { assert op in targets[..i + 1][i].operations; }
      if Owned(targets[..i + 1], op) && op !in targets[i].operations {
        var k :| 0 <= k < i + 1 && op in targets[..i + 1][k].operations;
        assert op in targets[..i][k].operations;
      }
    }
  }

  lemma KeepDistinct(operations: seq<string>, requested: seq<string>)
    requires Distinct(operations)
    ensures Distinct(Keep(operations, requested))
  {
    if operations != [] {
      KeepDistinct(operations[1..], requested);
      assert operations[0] !in operations[1..];
    }
  }

  lemma ConcatDistinct(a: seq<string>, b: seq<string>)
    requires Distinct(a) && Distinct(b) && forall x :: x in b ==> x !in a
    ensures Distinct(a + b)
  {
    forall i, j | 0 <= i < j < |a + b| ensures (a + b)[i] != (a + b)[j] {
      if i < |a| <= j { assert (a + b)[j] in b; }
    }
  }

  function AllOperations(targets: seq<Target>): seq<string> {
    if targets == [] then [] else AllOperations(targets[..|targets| - 1]) + targets[|targets| - 1].operations
  }

  ghost predicate Complete(targets: seq<Target>) {
    forall i :: 0 <= i < |targets| ==> CompleteTarget(targets[i])
  }

  /** `chosen` is what is left of some target of the index, and something is left. */
  ghost predicate NarrowedFrom(chosen: Target, targets: seq<Target>, requested: seq<string>) {
    chosen.operations != [] && exists i :: 0 <= i < |targets| && chosen == Narrow(targets[i], requested)
  }

  lemma {:induction false} NarrowAllIsNarrowed(targets: seq<Target>, requested: seq<string>)
    ensures forall k :: 0 <= k < |NarrowAll(targets, requested)| ==>
      NarrowedFrom(NarrowAll(targets, requested)[k], targets, requested)
  {
    if targets != [] {
      var n := |targets| - 1;
      NarrowAllIsNarrowed(targets[..n], requested);
      var chosen := NarrowAll(targets, requested);
      forall k | 0 <= k < |chosen| ensures NarrowedFrom(chosen[k], targets, requested) {
        if k < |NarrowAll(targets[..n], requested)| {
          var i :| 0 <= i < n && chosen[k] == Narrow(targets[..n][i], requested);
          assert chosen[k] == Narrow(targets[i], requested);
        } else {
          assert chosen[k] == Narrow(targets[n], requested);
        }
      }
    }
  }

  lemma {:induction false} NarrowAllOperations(targets: seq<Target>, requested: seq<string>)
    requires IsPartition(targets) && Complete(targets)
    ensures Distinct(AllOperations(NarrowAll(targets, requested)))
    ensures forall x :: x in AllOperations(NarrowAll(targets, requested)) <==> x in requested && Owned(targets, x)
  {
    if targets != [] {
      var n := |targets| - 1;
      NarrowAllOperations(targets[..n], requested);
      OwnedByOneMore(targets, n);
      assert targets[..n + 1] == targets;
      var front, last := NarrowAll(targets[..n], requested), Narrow(targets[n], requested);
      KeepDistinct(targets[n].operations, requested);
      assert forall x :: x in last.operations ==> !Owned(targets[..n], x) by {
        forall x, k | x in last.operations && 0 <= k < n ensures x !in targets[..n][k].operations {
          assert DisjointOperations(targets[k], targets[n]);
        }
      }
      if last.operations != [] {
        assert (front + [last])[..|front|] == front;
        assert AllOperations(front + [last]) == AllOperations(front) + last.operations;
        ConcatDistinct(AllOperations(front), last.operations);
      } else {
        assert forall x :: x in requested && x in targets[n].operations ==> x in last.operations;
      }
    }
  }

  lemma {:induction false} NarrowAllIsPartition(targets: seq<Target>, requested: seq<string>)
    requires IsPartition(targets)
    ensures IsPartition(NarrowAll(targets, requested))
  {
    if targets != [] {
      var n := |targets| - 1;
      NarrowAllIsPartition(targets[..n], requested);
      NarrowAllIsNarrowed(targets[..n], requested);
      var front := NarrowAll(targets[..n], requested);
      forall k | 0 <= k < |front|
        ensures front[k].name != targets[n].name && front[k].sensitivity != targets[n].sensitivity
        ensures DisjointOperations(front[k], Narrow(targets[n], requested))
      {
        assert NarrowedFrom(front[k], targets[..n], requested);
        var i :| 0 <= i < n && front[k] == Narrow(targets[..n][i], requested);
        assert DisjointOperations(targets[i], targets[n]);
      }
    }
  }

  /** The target is one of these but for operations, and has its operations in the same order. */
  ghost predicate IsPartOf(chosen: Target, targets: seq<Target>) {
    exists i :: 0 <= i < |targets| && IsPartOfTarget(chosen, targets[i])
  }

  ghost predicate IsPartOfTarget(chosen: Target, target: Target) {
    && chosen.name == target.name && chosen.sensitivity == target.sensitivity && chosen.targetId == target.targetId
    && InOrderOf(chosen.operations, target.operations)
  }

  lemma NarrowedIsPart(chosen: Target, targets: seq<Target>, requested: seq<string>)
    requires NarrowedFrom(chosen, targets, requested)
    ensures IsPartOf(chosen, targets)
  {
    var i :| 0 <= i < |targets| && chosen == Narrow(targets[i], requested);
    KeepKeepsOrder(targets[i].operations, requested);
    hide InOrderOf;
    assert IsPartOfTarget(chosen, targets[i]);
  }

  /** A successful selection splits the request exactly once: the result is again a partition,
      its operations are a permutation of the request, and the target that holds an operation
      is the one that the index names for it, which has them in the same order. */
  lemma SelectionSplitsTheRequest(index: Index, operations: seq<Json>)
    requires ValidIndex(index) && index.split
    requires forall op :: op in Requested(operations) ==> Owned(index.targets, op)
    ensures IsPartition(Bindings(index, operations))
    ensures multiset(AllOperations(Bindings(index, operations))) == multiset(Requested(operations))
    ensures forall k, op ::
      (0 <= k < |Bindings(index, operations)| && op in Bindings(index, operations)[k].operations) ==>
        TargetNameOf(index, op) == Some(Bindings(index, operations)[k].name)
    ensures forall k :: 0 <= k < |Bindings(index, operations)| ==>
      IsPartOf(Bindings(index, operations)[k], index.targets)
  {
    var requested := Requested(operations);
    var chosen := NarrowAll(index.targets, requested);
    NarrowAllIsPartition(index.targets, requested);
    NarrowAllOperations(index.targets, requested);
    SameElements(AllOperations(chosen), requested);
    NarrowAllIsNarrowed(index.targets, requested);
    forall k | 0 <= k < |chosen| ensures IsPartOf(chosen[k], index.targets) {
      NarrowedIsPart(chosen[k], index.targets, requested);
    }
    forall k, op | 0 <= k < |chosen| && op in chosen[k].operations
      ensures TargetNameOf(index, op) == Some(chosen[k].name)
    {
      assert NarrowedFrom(chosen[k], index.targets, requested);
      var i :| 0 <= i < |index.targets| && chosen[k] == Narrow(index.targets[i], requested);
      TrimIsTrimmed(op);
      OwnerIsUnique(index.targets, op);
    }
  }

  lemma SameElements(a: seq<string>, b: seq<string>)
    requires Distinct(a) && Distinct(b) && forall x :: x in a <==> x in b
    ensures multiset(a) == multiset(b)
  {
    DistinctByMultiset(a);
    DistinctByMultiset(b);
    forall x ensures multiset(a)[x] == multiset(b)[x] {
      assert x in a <==> x in multiset(a);
      assert x in b <==> x in multiset(b);
    }
  }

  // ---- The projection for local development ----

  datatype DevTarget = DevTarget(name: string, operations: seq<string>, sensitivity: string)

  function ProjectAll(targets: seq<Target>): (r: seq<DevTarget>)
    ensures |r| == |targets|
    ensures forall i :: 0 <= i < |r| ==>
      r[i] == DevTarget(targets[i].name, targets[i].operations, targets[i].sensitivity)
  {
    if targets == [] then []
    else [DevTarget(targets[0].name, targets[0].operations, targets[0].sensitivity)] + ProjectAll(targets[1..])
  }

  /** The targets that `catalog_dev_asset_context` copies out of an index. */
  function Project(index: Index): seq<DevTarget> {
    if index.split then ProjectAll(index.targets)
    else if index.legacyName.Some? && index.legacyName.value != "" then [DevTarget(index.legacyName.value, [], "")]
    else []
  }

  /** `DevAssetAuthorizationContext.target_name`. */
  function DevTargetName(targets: seq<DevTarget>, operationId: string): Option<string> {
    if targets == [] then None
    else if targets[0].operations == [] || operationId in targets[0].operations then Some(targets[0].name)
    else DevTargetName(targets[1..], operationId)
  }

  function ListedSensitivity(targets: seq<DevTarget>, operationId: string): Option<string> {
    if targets == [] then None
    else if operationId != "" && operationId in targets[0].operations then Some(targets[0].sensitivity)
    else ListedSensitivity(targets[1..], operationId)
  }

  /** `DevAssetAuthorizationContext.target_sensitivity`; empty when it is not known. */
  function DevSensitivity(targets: seq<DevTarget>, operationId: string): string {
    match ListedSensitivity(targets, operationId)
    case Some(sensitivity) => sensitivity
    case None => if |targets| == 1 && targets[0].operations == [] then targets[0].sensitivity else ""
  }

  /** A sensitivity is that of the first target that lists the operation; for an operation that no target lists,
      and for none, it is that of a sole target that lists nothing. */
  lemma {:induction false} DevSensitivityExactly(targets: seq<DevTarget>, operationId: string, i: nat)
    requires i <= |targets| && forall k :: 0 <= k < i ==> operationId !in targets[k].operations
    requires i < |targets| ==> operationId in targets[i].operations
    ensures operationId != "" && i < |targets| ==> DevSensitivity(targets, operationId) == targets[i].sensitivity
    ensures operationId == "" || i == |targets| ==>
      DevSensitivity(targets, operationId) ==
        if |targets| == 1 && targets[0].operations == [] then targets[0].sensitivity else ""
  {
    FirstListed(targets, operationId, i);
  }

  lemma {:induction false} FirstListed(targets: seq<DevTarget>, operationId: string, i: nat)
    requires i <= |targets| && forall k :: 0 <= k < i ==> operationId !in targets[k].operations
    requires i < |targets| ==> operationId in targets[i].operations
    ensures ListedSensitivity(targets, operationId) ==
      if operationId != "" && i < |targets| then Some(targets[i].sensitivity) else None
  {
    if operationId == "" {
      NothingIsUnlisted(targets);
    } else if i > 0 {
      FirstListed(targets[1..], operationId, i - 1);
    }
  }

  lemma {:induction false} NothingIsUnlisted(targets: seq<DevTarget>)
    ensures ListedSensitivity(targets, "") == None
  {
    if targets != [] { NothingIsUnlisted(targets[1..]); }
  }

  lemma {:induction false} ProjectionFollowsOwner(targets: seq<Target>, operation: string)
    requires Complete(targets)
    ensures DevTargetName(ProjectAll(targets), operation)
         == match FirstOwner(targets, operation) case Some(t) => Some(t.name) case None => None
    ensures ListedSensitivity(ProjectAll(targets), operation)
         == match FirstOwner(targets, operation) case Some(t) => Some(t.sensitivity) case None => None
  {
    if targets != [] {
      assert ProjectAll(targets)[1..] == ProjectAll(targets[1..]);
      ProjectionFollowsOwner(targets[1..], operation);
    }
  }

  lemma OwnedOperationsAreTrimmed(targets: seq<Target>, operation: string)
    requires IsPartition(targets) && Complete(targets) && FirstOwner(targets, operation).Some?
    ensures Trimmed(operation)
  {
    OwnerIsUnique(targets, operation);
    var i :| 0 <= i < |targets| && operation in targets[i].operations;
    assert CompleteTarget(targets[i]);
  }

  /** The projection names the same target as the index, except that it does not strip the
      operation: it misses exactly the padded spellings of an owned operation. */
  lemma ProjectionAgrees(index: Index, operationId: string)
    requires ValidIndex(index)
    ensures DevTargetName(Project(index), operationId) == TargetNameOf(index, operationId)
      <==> !index.split || Trimmed(operationId) || !Owned(index.targets, Trim(operationId))
    ensures index.split && !Trimmed(operationId) ==> DevTargetName(Project(index), operationId) == None
  {
    TrimIsTrimmed(operationId);
    if index.split {
      OwnerIsUnique(index.targets, Trim(operationId));
      ProjectionFollowsOwner(index.targets, operationId);
      if FirstOwner(index.targets, operationId).Some? {
        OwnedOperationsAreTrimmed(index.targets, operationId);
      }
    }
  }

  lemma SensitivityIsKnown(t: Target)
    requires CompleteTarget(t)
    ensures t.sensitivity != "" && t.operations != []
  {
    assert "" !in SENSITIVITIES;
  }

  lemma SplitSensitivity(index: Index, operationId: string)
    requires ValidIndex(index) && index.split
    ensures DevSensitivity(Project(index), operationId) != "" <==> Owned(index.targets, operationId)
    ensures forall i :: 0 <= i < |index.targets| && operationId in index.targets[i].operations ==>
      && DevSensitivity(Project(index), operationId) == index.targets[i].sensitivity
      && TargetNameOf(index, operationId) == Some(index.targets[i].name)
  {
    hide CompleteTarget, Trim, Trimmed;
    var targets := index.targets;
    OwnerIsUnique(targets, operationId);
    ProjectionFollowsOwner(targets, operationId);
    if Owned(targets, operationId) {
      var i :| 0 <= i < |targets| && operationId in targets[i].operations;
      SensitivityIsKnown(targets[i]);
      OwnedOperationsAreTrimmed(targets, operationId);
      TrimIsTrimmed(operationId);
    } else if |targets| == 1 {
      SensitivityIsKnown(targets[0]);
    }
  }

  /** A sensitivity is known exactly for the operations that a split index owns, and it is the
      one of the target that the index names. An unsplit target never gets one. */
  lemma SensitivityIsTheOwners(index: Index, operationId: string)
    requires ValidIndex(index)
    ensures DevSensitivity(Project(index), operationId) != "" <==> index.split && Owned(index.targets, operationId)
    ensures forall i :: 0 <= i < |index.targets| && operationId in index.targets[i].operations ==>
      && DevSensitivity(Project(index), operationId) == index.targets[i].sensitivity
      && TargetNameOf(index, operationId) == Some(index.targets[i].name)
  {
    if index.split {
      SplitSensitivity(index, operationId);
    } else {
      var dev := Project(index);
      assert dev != [] ==> dev[0].operations == [] && ListedSensitivity(dev[1..], operationId).None?;
      assert ListedSensitivity(dev, operationId).None?;
    }
  }
}
