/** The collision check of target names, and the registry that it guards. */
module TargetRegistry {
  import opened Basics
  import opened Slug
  import opened TargetNames
  import opened Text

  datatype Record = Record(id: string, name: string, isMcp: bool, stored: string)

  /** `resolved_gateway_target_name`. */
  function ResolvedName(r: Record, digest: Digest): string {
    var stored := Trim(r.stored);
    if stored != [] then stored else TargetName(r.name, digest)
  }

  /** `find_gateway_target_name_collision`. */
  function FindCollision(records: seq<Record>, target: string, currentId: string, digest: Digest): (c: Option<Record>)
    ensures c.None? <==>
      forall i :: 0 <= i < |records| && records[i].isMcp && records[i].id != currentId ==>
        ResolvedName(records[i], digest) != target
    ensures c.Some? ==>
      exists i :: 0 <= i < |records| && c.value == records[i] && records[i].isMcp && records[i].id != currentId
        && ResolvedName(records[i], digest) == target
        && forall k :: 0 <= k < i && records[k].isMcp && records[k].id != currentId ==>
             ResolvedName(records[k], digest) != target
  {
    if records == [] then None
    else if records[0].id != currentId && records[0].isMcp && ResolvedName(records[0], digest) == target
    then Some(records[0])
    else FindCollision(records[1..], target, currentId, digest)
  }

  function IndexOf(records: seq<Record>, id: string): (r: Option<nat>)
    ensures r.None? <==> forall i :: 0 <= i < |records| ==> records[i].id != id
    ensures r.Some? ==> r.value < |records| && records[r.value].id == id
  {
    if records == [] then None
    else if records[0].id == id then Some(0)
    else match IndexOf(records[1..], id) case None => None case Some(i) => Some(i + 1)
  }

  /** The check passes for a registration when the listed records are `seen`; a record with a listed
      id is a re-registration. */
  predicate Passes(seen: seq<Record>, r: Record, digest: Digest) {
    var currentId := if IndexOf(seen, r.id).Some? then r.id else "";
    r.isMcp ==> FindCollision(seen, ResolvedName(r, digest), currentId, digest).None?
  }

  /** A record with a known id replaces that record. */
  function Store(records: seq<Record>, r: Record): (stored: seq<Record>)
    ensures r in stored && forall x :: x in stored ==> x == r || x in records
    ensures forall x :: x in records && x.id != r.id ==> x in stored
    ensures |stored| == if exists i :: 0 <= i < |records| && records[i].id == r.id then |records| else |records| + 1
  {
    var at := IndexOf(records, r.id);
    assert at.None? ==> (records + [r])[|records|] == r;
    assert at.Some? ==> records[at.value := r][at.value] == r;
    assert forall i :: 0 <= i < |records| && records[i].id != r.id ==>
      (if at.Some? then records[at.value := r] else records + [r])[i] == records[i];
    if at.Some? then records[at.value := r] else records + [r]
  }

  /** A registration that lists, checks and stores without another one in between. */
  function Admit(records: seq<Record>, r: Record, digest: Digest): seq<Record> {
    if Passes(records, r, digest) then Store(records, r) else records
  }

  /** Ids are non-empty and unique, and no two MCP records share a target name. */
  ghost predicate DistinctNames(records: seq<Record>, digest: Digest) {
    && (forall i :: 0 <= i < |records| ==> records[i].id != "")
    && (forall i, j :: 0 <= i < j < |records| ==>
          && records[i].id != records[j].id
          && (records[i].isMcp && records[j].isMcp ==>
                ResolvedName(records[i], digest) != ResolvedName(records[j], digest)))
  }

  /** Storing a record keeps the names distinct exactly when the check passes for the records that
      there are at that moment. */
  lemma StoreKeepsDistinctExactly(records: seq<Record>, r: Record, digest: Digest)
    requires DistinctNames(records, digest) && r.id != ""
    ensures DistinctNames(Store(records, r), digest) <==> Passes(records, r, digest)
  {
    hide ResolvedName;
    var at := IndexOf(records, r.id);
    var currentId := if at.Some? then r.id else "";
    var after := Store(records, r);
    if !Passes(records, r, digest) {
      var other := FindCollision(records, ResolvedName(r, digest), currentId, digest).value;
      var i :| 0 <= i < |records| && records[i] == other;
      var j := at.GetOr(|records|);
      assert after[i] == other && after[j] == r && i != j;
    }
  }

  function AdmitAll(records: seq<Record>, arrivals: seq<Record>, digest: Digest): seq<Record>
    decreases |arrivals|
  {
    if arrivals == [] then records
    else AdmitAll(Admit(records, arrivals[0], digest), arrivals[1..], digest)
  }

  /** Whatever registrations and re-registrations arrive, the admitted names stay distinct. */
  lemma {:induction false} RegistryStaysDistinct(records: seq<Record>, arrivals: seq<Record>, digest: Digest)
    requires DistinctNames(records, digest) && forall i :: 0 <= i < |arrivals| ==> arrivals[i].id != ""
    ensures DistinctNames(AdmitAll(records, arrivals, digest), digest)
    decreases |arrivals|
  {
    if arrivals != [] {
      StoreKeepsDistinctExactly(records, arrivals[0], digest);
      RegistryStaysDistinct(Admit(records, arrivals[0], digest), arrivals[1..], digest);
    }
  }

  // ---- Registrations that overlap ----

  /** The registry, and what each registration under way has listed. */
  datatype Registry = Registry(records: seq<Record>, listed: map<nat, seq<Record>>)

  /** The routers list the records, check, and store later, without a lock. */
  datatype Call = List(request: nat) | Create(request: nat, record: Record)

  predicate Creates(g: Registry, call: Call, digest: Digest) {
    call.Create? && call.request in g.listed && Passes(g.listed[call.request], call.record, digest)
  }

  function Answer(g: Registry, call: Call, digest: Digest): Registry {
    match call
    case List(request) => g.(listed := g.listed[request := g.records])
    case Create(request, record) => if Creates(g, call, digest) then g.(records := Store(g.records, record)) else g
  }

  /** The check passed for what was listed, and would no longer pass. */
  predicate Overtaken(g: Registry, call: Call, digest: Digest) {
    Creates(g, call, digest) && !Passes(g.records, call.record, digest)
  }

  ghost predicate AlwaysDistinct(g: Registry, calls: seq<Call>, digest: Digest)
    decreases |calls|
  {
    && DistinctNames(g.records, digest)
    && (calls != [] ==> AlwaysDistinct(Answer(g, calls[0], digest), calls[1..], digest))
  }

  predicate NeverOvertaken(g: Registry, calls: seq<Call>, digest: Digest)
    decreases |calls|
  {
    calls == [] || (!Overtaken(g, calls[0], digest) && NeverOvertaken(Answer(g, calls[0], digest), calls[1..], digest))
  }

  /** However the calls of any number of registrations interleave: the names stay distinct all the
      time if and only if no registration was overtaken. */
  lemma {:induction false} DistinctUnlessOvertaken(g: Registry, calls: seq<Call>, digest: Digest)
    requires DistinctNames(g.records, digest)
    requires forall k :: 0 <= k < |calls| && calls[k].Create? ==> calls[k].record.id != ""
    ensures AlwaysDistinct(g, calls, digest) <==> NeverOvertaken(g, calls, digest)
    decreases |calls|
  {
    if calls != [] {
      hide DistinctNames, Passes, Store;
      var call, next := calls[0], Answer(g, calls[0], digest);
      if call.Create? { StoreKeepsDistinctExactly(g.records, call.record, digest); }
      if !Overtaken(g, call, digest) {
        DistinctUnlessOvertaken(next, calls[1..], digest);
      }
    }
  }

  /** Two registrations for one target name that both list before either stores are both admitted. */
  lemma OverlapAdmitsBoth(a: Record, b: Record, digest: Digest)
    requires a.id != "" && b.id != "" && a.id != b.id && a.isMcp && b.isMcp
    requires ResolvedName(a, digest) == ResolvedName(b, digest)
    ensures var g0 := Registry([], map[]);
      var g1 := Answer(Answer(g0, List(0), digest), List(1), digest);
      var g2 := Answer(Answer(g1, Create(0, a), digest), Create(1, b), digest);
      g2.records == [a, b] && !DistinctNames(g2.records, digest)
  {
    hide ResolvedName;
    assert Store([], a) == [a];
    assert Store([a], b) == [a, b];
    assert [a, b][0].isMcp && [a, b][1].isMcp;
  }

  // ---- Sensitivity names ----

  /** A name with a sensitivity decodes to its base and its tag in one way only. */
  lemma SplitNameDecodes(a: string, t: Tag, b: string, u: Tag)
    requires a + Suffix(t) == b + Suffix(u)
    ensures a == b && t == u
  {
    var s := a + Suffix(t);
    var x, y := Suffix(t), Suffix(u);
    assert s[|s| - 1] == x[|x| - 1] && s[|s| - 1] == y[|y| - 1];
    assert s[|s| - 2] == x[|x| - 2] && s[|s| - 2] == y[|y| - 2];
    assert s[|s| - 4] == x[|x| - 4] && s[|s| - 4] == y[|y| - 4];
    assert |x| == |y| ==> s[|s| - |x|..] == x && s[|s| - |x|..] == y;
    assert |x| == |y| ==> a == s[..|s| - |x|] && b == s[..|s| - |x|];
    if t != u { SuffixesDiffer(t, u); }
  }

  lemma SuffixesDiffer(t: Tag, u: Tag)
    requires t != u
    ensures var x, y := Suffix(t), Suffix(u);
      x[|x| - 1] != y[|y| - 1] || x[|x| - 2] != y[|y| - 2] || x[|x| - 4] != y[|y| - 4]
  {
  }

  /** In a registry with distinct names, the split names of different records never coincide. */
  lemma SplitNamesDistinct(records: seq<Record>, i: nat, t: Tag, j: nat, u: Tag, digest: Digest)
    requires DistinctNames(records, digest) && i < |records| && j < |records|
    requires records[i].isMcp && records[j].isMcp
    ensures ResolvedName(records[i], digest) + Suffix(t) == ResolvedName(records[j], digest) + Suffix(u)
            <==> i == j && t == u
  {
    if ResolvedName(records[i], digest) + Suffix(t) == ResolvedName(records[j], digest) + Suffix(u) {
      SplitNameDecodes(ResolvedName(records[i], digest), t, ResolvedName(records[j], digest), u);
    }
  }

  // ---- Base names against sensitivity names ----

  lemma FooNames(digest: Digest)
    ensures TargetName("foo", digest) == "foo" && TargetName("foo-read", digest) == "foo-read"
    ensures forall id :: ResolvedName(Record(id, "foo", true, ""), digest) == "foo"
    ensures forall id :: ResolvedName(Record(id, "foo-read", true, ""), digest) == "foo-read"
  {
    hide Sub, StripLeft, StripRight, Lower, Scan, Cut;
    ShapedIsFixed("foo", digest);
    ShapedIsFixed("foo-read", digest);
    assert Trim("") == "";
  }

  /** The check compares base names only: it admits a record whose base name is the split name of
      another one. */
  lemma SplitNameMayBeABaseName(digest: Digest)
    ensures TargetName("foo-read", digest) == SplitTargetName("foo", READ, digest)
    ensures var records := AdmitAll([], [Record("1", "foo", true, ""), Record("2", "foo-read", true, "")], digest);
      && |records| == 2 && DistinctNames(records, digest)
      && ResolvedName(records[1], digest) == ResolvedName(records[0], digest) + Suffix(READ)
  {
    FooNames(digest);
    hide TargetName, ResolvedName;
    var foo, fooRead := Record("1", "foo", true, ""), Record("2", "foo-read", true, "");
    assert |"foo"| != |"foo-read"|;
    assert Admit([], foo, digest) == [foo];
    assert foo.id != fooRead.id;
    assert Admit([foo], fooRead, digest) == [foo, fooRead];
    assert [foo, fooRead][1..] == [fooRead] && [fooRead][1..] == [];
    assert AdmitAll([foo], [fooRead], digest) == [foo, fooRead];
    assert "foo-read" == "foo" + "-read";
  }

  /** The name of a record with one of the four sensitivities, or without. */
  function FullName(r: Record, tag: Option<Tag>, digest: Digest): string {
    ResolvedName(r, digest) + if tag.Some? then Suffix(tag.value) else ""
  }

  /** All names that the records can have as Targets are distinct. */
  ghost predicate AllNamesDistinct(records: seq<Record>, digest: Digest) {
    forall i, j, t, u ::
      (0 <= i < |records| && 0 <= j < |records| && records[i].isMcp && records[j].isMcp
       && FullName(records[i], t, digest) == FullName(records[j], u, digest)) ==>
        i == j && t == u
  }

  /** The name without the suffix of the tag, if it ends with it. */
  function Stem(name: string, tag: Tag): (b: Option<string>)
    ensures b.Some? ==> name == b.value + Suffix(tag)
    ensures forall s :: name == s + Suffix(tag) ==> b == Some(s)
  {
    var n := |name| - |Suffix(tag)|;
    assert forall s :: name == s + Suffix(tag) ==> s == name[..n];
    if n >= 0 && name[n..] == Suffix(tag) then Some(name[..n]) else None
  }

  /** What the check could see before it admits: the name of the record ends with a sensitivity,
      and what comes before it is the base name of a record. */
  ghost predicate StemCollides(records: seq<Record>, r: Record, tag: Tag, digest: Digest) {
    var stem := Stem(ResolvedName(r, digest), tag);
    stem.Some? && FindCollision(records, stem.value, "", digest).Some?
  }

  lemma StemOfAnother(records: seq<Record>, i: nat, j: nat, tag: Tag, digest: Digest)
    requires DistinctNames(records, digest) && i < |records| && j < |records| && records[i].isMcp
    requires ResolvedName(records[j], digest) == ResolvedName(records[i], digest) + Suffix(tag)
    ensures StemCollides(records, records[j], tag, digest)
  {
    assert Stem(ResolvedName(records[j], digest), tag) == Some(ResolvedName(records[i], digest));
    assert records[i].id != "";
  }

  /** In a registry that the check keeps, all names are distinct if and only if no record's name,
      without a sensitivity that it ends with, is the name of a record. */
  lemma AllNamesDistinctExactly(records: seq<Record>, digest: Digest)
    requires DistinctNames(records, digest)
    ensures AllNamesDistinct(records, digest) <==>
      !(exists j, tag :: 0 <= j < |records| && records[j].isMcp && StemCollides(records, records[j], tag, digest))
  {
    if j, tag :| 0 <= j < |records| && records[j].isMcp && StemCollides(records, records[j], tag, digest) {
      var stem := Stem(ResolvedName(records[j], digest), tag).value;
      var other := FindCollision(records, stem, "", digest).value;
      var i :| 0 <= i < |records| && records[i] == other;
      assert FullName(records[i], Some(tag), digest) == FullName(records[j], None, digest) by {
        assert ResolvedName(records[j], digest) + "" == ResolvedName(records[j], digest);
      }
    } else {
      forall i, j, t, u | 0 <= i < |records| && 0 <= j < |records| && records[i].isMcp && records[j].isMcp
        && FullName(records[i], t, digest) == FullName(records[j], u, digest) ensures i == j && t == u
      {
        DifferentNames(records, i, j, t, u, digest);
      }
    }
  }

  lemma DifferentNames(records: seq<Record>, i: nat, j: nat, t: Option<Tag>, u: Option<Tag>, digest: Digest)
    requires DistinctNames(records, digest) && i < |records| && j < |records| && records[i].isMcp && records[j].isMcp
    requires FullName(records[i], t, digest) == FullName(records[j], u, digest)
    requires forall k, tag :: 0 <= k < |records| && records[k].isMcp ==> !StemCollides(records, records[k], tag, digest)
    ensures i == j && t == u
  {
    var a, b := ResolvedName(records[i], digest), ResolvedName(records[j], digest);
    assert a + "" == a && b + "" == b;
    if t.Some? && u.Some? {
      SplitNamesDistinct(records, i, t.value, j, u.value, digest);
    } else if t.Some? {
      StemOfAnother(records, i, j, t.value, digest);
    } else if u.Some? {
      StemOfAnother(records, j, i, u.value, digest);
    }
  }

  /** A stored name counts without its padding, and a blank one not at all. */
  lemma StoredNameWins(r: Record, before: string, middle: string, after: string, digest: Digest)
    requires r.stored == before + middle + after && Trimmed(middle)
    requires forall c :: c in before || c in after ==> IsSpace(c)
    ensures ResolvedName(r, digest) == if middle != "" then middle else TargetName(r.name, digest)
  {
    TrimIsTheMiddle(before, middle, after);
  }

  /** Names that `gateway_target_name` produced are stored and resolved unchanged. */
  lemma StoredNamesResolve(r: Record, name: string, digest: Digest)
    requires r.stored == TargetName(name, digest)
    ensures ResolvedName(r, digest) == TargetName(name, digest)
  {
    TargetNameShape(name, digest);
    TrimIsTrimmed(r.stored);
    assert Alnum(r.stored[0]) && Alnum(r.stored[|r.stored| - 1]);
  }
}
