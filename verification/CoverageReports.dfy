/** The lists of a run's report: how they grow, and that they are consistent. */
module CoverageReports {
  import opened Telemetry
  import opened CoverageProtocol
  import opened StringOrder

  datatype RunReport = RunReport(
    expected: seq<string>,
    matched: seq<string>,
    subscribed: seq<string>,
    covered: seq<string>,
    failed: map<string, string>,
    coverage: Coverage,
    drift: seq<string>)

  /** A list to which `name` was added if it was gained. */
  function Grown(list: seq<string>, gained: bool, name: string): seq<string> {
    if gained then list + [name] else list
  }

  /** The names whose flag is set, in order. */
  ghost function Flagged(names: seq<string>, flags: seq<bool>): seq<string>
    requires |names| == |flags|
  {
    if names == [] then []
    else
      var last := |names| - 1;
      Grown(Flagged(names[..last], flags[..last]), flags[last], names[last])
  }

  lemma FlaggedGrows(names: seq<string>, i: nat, flags: seq<bool>, flag: bool)
    requires i < |names| && |flags| == i
    ensures Flagged(names[..i + 1], flags + [flag]) == Grown(Flagged(names[..i], flags), flag, names[i])
  {
    assert names[..i + 1][..i] == names[..i];
    assert (flags + [flag])[..i] == flags;
  }

  ghost predicate Subsequence(a: seq<string>, b: seq<string>) {
    a == [] ||
    (b != [] &&
      (Subsequence(a, b[..|b| - 1])
       || (a[|a| - 1] == b[|b| - 1] && Subsequence(a[..|a| - 1], b[..|b| - 1]))))
  }

  lemma FlaggedMembers(names: seq<string>, flags: seq<bool>, n: string)
    requires |names| == |flags|
    ensures n in Flagged(names, flags) <==> exists k :: 0 <= k < |names| && names[k] == n && flags[k]
  {
    if names != [] {
      var last := |names| - 1;
      FlaggedMembers(names[..last], flags[..last], n);
      if k :| 0 <= k < |names| && names[k] == n && flags[k] {
        if k < last { assert names[..last][k] == n && flags[..last][k]; }
      }
    }
  }

  lemma FlaggedAll(names: seq<string>, flags: seq<bool>)
    requires |names| == |flags|
    ensures |Flagged(names, flags)| <= |names|
    ensures |Flagged(names, flags)| == |names| <==> forall k :: 0 <= k < |flags| ==> flags[k]
  {
    if names != [] {
      var last := |names| - 1;
      FlaggedAll(names[..last], flags[..last]);
      if flags[last] && forall k :: 0 <= k < last ==> flags[..last][k] {
        assert forall k :: 0 <= k < last ==> flags[..last][k] == flags[k];
      }
    }
  }

  lemma FlaggedNested(names: seq<string>, few: seq<bool>, many: seq<bool>)
    requires |names| == |few| == |many|
    requires forall k :: 0 <= k < |few| && few[k] ==> many[k]
    ensures Subsequence(Flagged(names, few), Flagged(names, many))
    ensures Subsequence(Flagged(names, many), names)
  {
    if names != [] {
      var last := |names| - 1;
      FlaggedNested(names[..last], few[..last], many[..last]);
      var a, b := Flagged(names[..last], few[..last]), Flagged(names[..last], many[..last]);
      if many[last] {
        assert (b + [names[last]])[..|b|] == b;
        if few[last] { assert (a + [names[last]])[..|a|] == a; }
      }
    }
  }

  /** The overall status of `reconcile`. */
  function OverallCoverage(expected: seq<string>, failed: map<string, string>, matched: seq<string>,
                           subscribed: seq<string>, covered: seq<string>): Coverage {
    if expected == [] || failed != map[] || |matched| != |expected|
       || |subscribed| != |expected| || |covered| != |expected|
    then Unknown else Complete
  }

  /** What the lists of a run say: the parts of its report. */
  datatype Lists = Lists(
    matched: seq<string>,
    subscribed: seq<string>,
    covered: seq<string>,
    failed: map<string, string>,
    drift: seq<string>)

  /** One flag per group for each of the lists. */
  datatype Flags = Flags(matched: seq<bool>, subscribed: seq<bool>, covered: seq<bool>, drift: seq<bool>)

  /** The lists after the visits of `names` are those of the flags, and the flags imply each other. */
  ghost predicate Listed(names: seq<string>, f: Flags, lists: Lists) {
    && |f.matched| == |f.subscribed| == |f.covered| == |f.drift| == |names|
    && lists.matched == Flagged(names, f.matched)
    && lists.subscribed == Flagged(names, f.subscribed)
    && lists.covered == Flagged(names, f.covered)
    && lists.drift == Flagged(names, f.drift)
    && (forall k :: 0 <= k < |names| ==>
          && (f.covered[k] ==> f.subscribed[k] && names[k] !in lists.failed)
          && (f.subscribed[k] ==> f.matched[k]))
    && (forall n :: n in lists.failed ==> n in names)
  }

  function AddFlags(f: Flags, rep: Report): Flags {
    Flags(f.matched + [rep.matched], f.subscribed + [rep.subscribed], f.covered + [rep.covered],
          f.drift + [rep.drift])
  }

  /** The lists after a visit with this report. */
  function AddReport(lists: Lists, rep: Report, name: string): Lists {
    Lists(Grown(lists.matched, rep.matched, name), Grown(lists.subscribed, rep.subscribed, name),
          Grown(lists.covered, rep.covered, name),
          if rep.failed.Some? then lists.failed[name := rep.failed.value] else lists.failed,
          Grown(lists.drift, rep.drift, name))
  }

  lemma ListedGrows(names: seq<string>, i: nat, f: Flags, rep: Report, lists: Lists)
    requires i < |names| && names[i] !in names[..i]
    requires Listed(names[..i], f, lists)
    requires (rep.covered ==> rep.subscribed && rep.failed.None?) && (rep.subscribed ==> rep.matched)
    ensures Listed(names[..i + 1], AddFlags(f, rep), AddReport(lists, rep, names[i]))
  {
    hide Flagged, Grown;
    FlaggedGrows(names, i, f.matched, rep.matched);
    FlaggedGrows(names, i, f.subscribed, rep.subscribed);
    FlaggedGrows(names, i, f.covered, rep.covered);
    FlaggedGrows(names, i, f.drift, rep.drift);
    assert names[..i + 1] == names[..i] + [names[i]];
  }

  function Overall(expected: seq<string>, lists: Lists): Coverage {
    OverallCoverage(expected, lists.failed, lists.matched, lists.subscribed, lists.covered)
  }

  /** The overall status is "complete" exactly when every expected group is covered. */
  lemma CompleteWhenAllCovered(expected: seq<string>, f: Flags, lists: Lists)
    requires Listed(expected, f, lists)
    ensures Overall(expected, lists) == Complete <==>
            (expected != [] && forall k :: 0 <= k < |expected| ==> f.covered[k])
  {
    hide Flagged;
    FlaggedAll(expected, f.matched);
    FlaggedAll(expected, f.subscribed);
    FlaggedAll(expected, f.covered);
    if forall k :: 0 <= k < |expected| ==> f.covered[k] {
      assert forall n :: n !in lists.failed;
    }
  }

  /** A name is in a list exactly if its flag is set. */
  ghost predicate IsFlagged(names: seq<string>, flags: seq<bool>, list: seq<string>)
    requires |names| == |flags|
  {
    forall k :: 0 <= k < |names| ==> (names[k] in list <==> flags[k])
  }

  lemma FlagsAreMembers(names: seq<string>, flags: seq<bool>)
    requires Distinct(names) && |names| == |flags|
    ensures IsFlagged(names, flags, Flagged(names, flags))
  {
    hide Flagged;
    forall n ensures n in Flagged(names, flags) <==> exists k :: 0 <= k < |names| && names[k] == n && flags[k] {
      FlaggedMembers(names, flags, n);
    }
  }

  /** Lists that follow flags which imply each other are nested and hold what the flags say, and the
      status is "complete" exactly when every expected group is covered. */
  lemma ReportIsConsistent(expected: seq<string>, f: Flags, lists: Lists)
    requires Distinct(expected) && Listed(expected, f, lists)
    ensures Subsequence(lists.covered, lists.subscribed) && Subsequence(lists.subscribed, lists.matched)
    ensures Subsequence(lists.matched, expected) && Subsequence(lists.drift, expected)
    ensures IsFlagged(expected, f.matched, lists.matched) && IsFlagged(expected, f.subscribed, lists.subscribed)
    ensures IsFlagged(expected, f.covered, lists.covered) && IsFlagged(expected, f.drift, lists.drift)
    ensures forall n :: n in lists.failed ==> n in expected && n !in lists.covered
    ensures Overall(expected, lists) == Complete <==>
            (expected != [] && forall n :: n in expected ==> n in lists.covered)
  {
    hide Flagged, Subsequence, Overall;
    FlaggedNested(expected, f.drift, f.drift);
    FlaggedNested(expected, f.subscribed, f.matched);
    FlaggedNested(expected, f.covered, f.subscribed);
    FlagsAreMembers(expected, f.matched);
    FlagsAreMembers(expected, f.subscribed);
    FlagsAreMembers(expected, f.covered);
    FlagsAreMembers(expected, f.drift);
    CompleteWhenAllCovered(expected, f, lists);
    if forall n :: n in expected ==> n in lists.covered {
      assert forall k :: 0 <= k < |expected| ==> expected[k] in lists.covered;
    }
  }

  lemma {:induction false} SubsequenceIsDistinct(a: seq<string>, b: seq<string>)
    requires Subsequence(a, b) && Distinct(b)
    ensures Distinct(a) && forall x :: x in a ==> x in b
  {
    if a != [] {
      var front := b[..|b| - 1];
      assert forall x :: x in front ==> x in b;
      if Subsequence(a, front) {
        SubsequenceIsDistinct(a, front);
      } else {
        SubsequenceIsDistinct(a[..|a| - 1], front);
        assert a == a[..|a| - 1] + [a[|a| - 1]];
        assert a[|a| - 1] !in front;
      }
    }
  }
}
