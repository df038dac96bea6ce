/** `target___operation` tool names, and the two programs that take them apart. */
module ToolNames {
  import opened Basics
  import opened Slug
  import opened TargetNames

  const SEPARATOR := "___"

  function ToolName(target: string, operation: string): string { target + SEPARATOR + operation }

  /** `s.replace("-", "_")`. */
  function Underscored(s: string): (r: string)
    ensures |r| == |s| && forall i :: 0 <= i < |s| ==> r[i] == if s[i] == '-' then '_' else s[i]
  {
    if s == [] then [] else [if s[0] == '-' then '_' else s[0]] + Underscored(s[1..])
  }

  function Variants(target: string): seq<string> {
    if Underscored(target) == target then [target] else [target, Underscored(target)]
  }

  /** `gateway_tool_names`. */
  function RuntimeNames(target: string, operation: string): seq<string> {
    var variants := Variants(target);
    seq(|variants|, i requires 0 <= i < |variants| => ToolName(variants[i], operation))
  }

  /** The names of an operation are the one that Gateway exposes, and after it, if the target has a hyphen, the
      one with an underscore for every hyphen of the target. */
  lemma RuntimeNamesExactly(target: string, underscored: string, operation: string)
    requires |underscored| == |target|
    requires forall i :: 0 <= i < |target| ==> underscored[i] == if target[i] == '-' then '_' else target[i]
    ensures RuntimeNames(target, operation) ==
      if '-' in target then [target + "___" + operation, underscored + "___" + operation]
      else [target + "___" + operation]
    ensures '-' in target ==> target + "___" + operation != underscored + "___" + operation
  {
    assert Underscored(target) == underscored;
    if i :| 0 <= i < |target| && target[i] == '-' {
      assert (target + "___" + operation)[i] != (underscored + "___" + operation)[i];
    } else {
      assert underscored == target;
    }
  }

  ghost predicate SeparatorAt(s: string, i: int) {
    0 <= i <= |s| - 3 && s[i] == '_' && s[i + 1] == '_' && s[i + 2] == '_'
  }

  function FirstSeparator(s: string): (r: Option<nat>)
    ensures r.Some? ==> SeparatorAt(s, r.value) && forall i :: 0 <= i < r.value ==> !SeparatorAt(s, i)
    ensures r.None? ==> forall i :: !SeparatorAt(s, i)
  {
    if |s| < 3 then None
    else if s[0] == '_' && s[1] == '_' && s[2] == '_' then Some(0)
    else
      var rest := FirstSeparator(s[1..]);
      assert forall i :: SeparatorAt(s, i) && i > 0 ==> SeparatorAt(s[1..], i - 1);
      assert rest.Some? ==> SeparatorAt(s, rest.value + 1);
      match rest case None => None case Some(i) => Some(i + 1)
  }

  function LastSeparator(s: string): (r: Option<nat>)
    ensures r.Some? ==> SeparatorAt(s, r.value) && forall i :: r.value < i ==> !SeparatorAt(s, i)
    ensures r.None? ==> forall i :: !SeparatorAt(s, i)
  {
    if |s| < 3 then None
    else
      var n := |s| - 3;
      if s[n] == '_' && s[n + 1] == '_' && s[n + 2] == '_' then Some(n)
      else
        var front := s[..|s| - 1];
        assert forall i :: SeparatorAt(s, i) ==> SeparatorAt(front, i);
        assert forall i :: SeparatorAt(front, i) ==> SeparatorAt(s, i);
        LastSeparator(front)
  }

  datatype SplitName = SplitName(target: string, tool: string)

  /** `splitGatewayToolName`: at the first separator; without one it is all tool. */
  function SplitFirst(name: string): SplitName {
    match FirstSeparator(name)
    case None => SplitName("", name)
    case Some(i) => SplitName(name[..i], name[i + 3..])
  }

  /** The data target's `_tool_name`: what follows the last separator. */
  function AfterLast(name: string): string {
    match LastSeparator(name)
    case None => name
    case Some(i) => name[i + 3..]
  }

  /** A runtime spelling of a target name: no double underscore, and none at the end. */
  ghost predicate Clean(target: string) {
    && (forall i, j :: 0 <= i < j < |target| && j == i + 1 ==> target[i] != '_' || target[j] != '_')
    && (target != [] ==> target[|target| - 1] != '_')
  }

  lemma VariantsAreClean(target: string)
    requires Shaped(target)
    ensures forall v :: v in Variants(target) ==> Clean(v)
  {
    assert Clean(target) && Clean(Underscored(target));
  }

  lemma SplitFirstUndoesToolName(target: string, operation: string)
    requires Clean(target)
    ensures SplitFirst(ToolName(target, operation)) == SplitName(target, operation)
  {
    hide FirstSeparator;
    var name, n := ToolName(target, operation), |target|;
    assert SeparatorAt(name, n);
    forall i | 0 <= i < n ensures !SeparatorAt(name, i) {
      assert name[i] == target[i];
      assert i + 1 < n ==> name[i + 1] == target[i + 1];
    }
    assert FirstSeparator(name) == Some(n);
    assert name[..n] == target && name[n + 3..] == operation;
  }

  lemma RuntimeNamesSplit(target: string, operation: string)
    requires Shaped(target)
    ensures var names := RuntimeNames(target, operation);
      && names != [] && SplitFirst(names[0]) == SplitName(target, operation)
      && forall i :: 0 <= i < |names| ==>
           && SplitFirst(names[i]).tool == operation
           && SplitFirst(names[i]).target in [target, Underscored(target)]
  {
    hide SplitFirst, Shaped, Clean;
    var other := Underscored(target);
    VariantsAreClean(target);
    RuntimeNamesExactly(target, other, operation);
    if other != target { assert other == Variants(target)[1]; }
    assert target == Variants(target)[0];
    SplitFirstUndoesToolName(target, operation);
    SplitFirstUndoesToolName(other, operation);
  }

  /** Every runtime name of every target, with or without a sensitivity, splits back at the first separator to the
      operation and a spelling of the target: the first name to the target itself. */
  lemma ToolNameRoundTrip(name: string, tag: Option<Tag>, operation: string, digest: Digest)
    ensures var target := if tag.Some? then SplitTargetName(name, tag.value, digest) else TargetName(name, digest);
      var names := RuntimeNames(target, operation);
      && names != [] && SplitFirst(names[0]) == SplitName(target, operation)
      && forall i :: 0 <= i < |names| ==>
           && SplitFirst(names[i]).tool == operation
           && SplitFirst(names[i]).target in [target, Underscored(target)]
  {
    TargetsAreShaped(name, tag, digest);
    hide RuntimeNames, SplitFirst, Shaped, TargetName, SplitTargetName;
    var target := if tag.Some? then SplitTargetName(name, tag.value, digest) else TargetName(name, digest);
    RuntimeNamesSplit(target, operation);
  }

  lemma TargetsAreShaped(name: string, tag: Option<Tag>, digest: Digest)
    ensures Shaped(if tag.Some? then SplitTargetName(name, tag.value, digest) else TargetName(name, digest))
  {
    if tag.Some? { SplitTargetNameShape(name, tag.value, digest); } else { TargetNameShape(name, digest); }
  }

  lemma VariantsDetermine(s: string, t: string, v: string)
    requires Shaped(s) && Shaped(t) && v in Variants(s) && v in Variants(t)
    ensures s == t
  {
    assert |v| == |s| == |t|;
    forall i | 0 <= i < |s| ensures s[i] == t[i] {
      assert v[i] == s[i] || v[i] == Underscored(s)[i];
      assert v[i] == t[i] || v[i] == Underscored(t)[i];
    }
    assert s == t;
  }

  /** Different targets or operations share no runtime name. */
  lemma ToolNamesDiffer(s: string, a: string, t: string, b: string, name: string)
    requires Shaped(s) && Shaped(t)
    requires name in RuntimeNames(s, a) && name in RuntimeNames(t, b)
    ensures s == t && a == b
  {
    VariantsAreClean(s);
    VariantsAreClean(t);
    var i :| 0 <= i < |Variants(s)| && name == ToolName(Variants(s)[i], a);
    var j :| 0 <= j < |Variants(t)| && name == ToolName(Variants(t)[j], b);
    var v, w := Variants(s)[i], Variants(t)[j];
    assert v in Variants(s) && w in Variants(t);
    SplitFirstUndoesToolName(v, a);
    SplitFirstUndoesToolName(w, b);
    VariantsDetermine(s, t, v);
  }

  /** Each decoder takes a name apart at a separator: the one at the first, the other after the last. A name without
      one is all tool, and has no target. */
  lemma DecodersSplit(name: string, first: int, last: int)
    requires SeparatorAt(name, first) && forall i :: 0 <= i < first ==> !SeparatorAt(name, i)
    requires SeparatorAt(name, last) && forall i :: last < i <= |name| ==> !SeparatorAt(name, i)
    ensures SplitFirst(name).target + "___" + SplitFirst(name).tool == name && |SplitFirst(name).target| == first
    ensures AfterLast(name) == name[last + 3..]
    ensures forall bare :: (forall i :: !SeparatorAt(bare, i)) ==>
      SplitFirst(bare) == SplitName("", bare) && AfterLast(bare) == bare
  {
    hide FirstSeparator, LastSeparator;
    assert FirstSeparator(name) == Some(first) && LastSeparator(name) == Some(last);
    assert name == name[..first] + "___" + name[first + 3..];
  }

  lemma SeparatorInOperation(target: string, operation: string, i: int)
    ensures SeparatorAt(operation, i) <==> i >= 0 && SeparatorAt(ToolName(target, operation), |target| + 3 + i)
  {
  }

  /** The operation neither starts with an underscore nor contains the separator. */
  ghost predicate Plain(operation: string) {
    (operation == [] || operation[0] != '_') && forall i :: !SeparatorAt(operation, i)
  }

  /** The two decoders agree on a tool name, and the second one finds the operation, exactly when
      the operation is plain. */
  lemma DecodersAgree(target: string, operation: string)
    requires Clean(target)
    ensures AfterLast(ToolName(target, operation)) == operation <==> Plain(operation)
    ensures AfterLast(ToolName(target, operation)) == SplitFirst(ToolName(target, operation)).tool <==> Plain(operation)
  {
    hide FirstSeparator, LastSeparator, Clean, SplitFirst;
    var name, n := ToolName(target, operation), |target|;
    SplitFirstUndoesToolName(target, operation);
    assert SeparatorAt(name, n);
    var last := LastSeparator(name).value;
    assert operation != [] && operation[0] == '_' ==> SeparatorAt(name, n + 1);
    if last == n {
      assert AfterLast(name) == operation;
      forall i ensures !SeparatorAt(operation, i) {
        SeparatorInOperation(target, operation, i);
      }
    } else {
      assert |AfterLast(name)| < |operation|;
      if last < n + 3 {
        assert operation[0] == name[n + 3];
      } else {
        SeparatorInOperation(target, operation, last - n - 3);
      }
    }
  }
}
