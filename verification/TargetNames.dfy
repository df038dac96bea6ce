/** What slugs and Gateway target names look like, when they agree, and when they can collide. */
module TargetNames {
  import opened Basics
  import opened Slug
  import opened Text

  // ---- Shapes ----

  ghost predicate NoDoubleHyphen(s: string) {
    forall i, j :: 0 <= i < j < |s| && j == i + 1 ==> s[i] != '-' || s[j] != '-'
  }

  /** ASCII alphanumerics and single hyphens, with no hyphen at either end. */
  ghost predicate Shaped(s: string) {
    && (forall i :: 0 <= i < |s| ==> Alnum(s[i]) || s[i] == '-')
    && NoDoubleHyphen(s)
    && (s != [] ==> s[0] != '-' && s[|s| - 1] != '-')
  }

  ghost predicate LowerShaped(s: string) {
    Shaped(s) && forall i :: 0 <= i < |s| ==> LowerAlnum(s[i]) || s[i] == '-'
  }

  ghost predicate HasAlnum(s: string) { exists i :: 0 <= i < |s| && Alnum(s[i]) }

  lemma {:induction false} SubShape(s: string, keep: char -> bool, inRun: bool)
    requires !keep('-')
    ensures var r := Sub(s, keep, inRun);
      && (forall i :: 0 <= i < |r| ==> keep(r[i]) || r[i] == '-')
      && NoDoubleHyphen(r)
      && (inRun && r != [] ==> r[0] != '-')
  {
    if s != [] {
      SubShape(s[1..], keep, !keep(s[0]));
      var rest := Sub(s[1..], keep, !keep(s[0]));
      var r := Sub(s, keep, inRun);
      if keep(s[0]) || !inRun {
        assert r[1..] == rest;
      } else {
        assert r == rest;
      }
    }
  }

  lemma {:induction false} SubKeeps(s: string, keep: char -> bool, inRun: bool)
    requires forall i :: 0 <= i < |s| ==> keep(s[i]) || s[i] == '-'
    requires NoDoubleHyphen(s) && (inRun && s != [] ==> s[0] != '-')
    ensures Sub(s, keep, inRun) == s
  {
    if s != [] {
      SubKeeps(s[1..], keep, !keep(s[0]));
      assert s == [s[0]] + s[1..];
    }
  }

  lemma {:induction false} StripLeftSlices(s: string, chars: string) returns (lo: nat)
    ensures lo <= |s| && StripLeft(s, chars) == s[lo..]
    ensures lo < |s| ==> s[lo] !in chars
    ensures forall i :: 0 <= i < lo ==> s[i] in chars
  {
    if s != [] && s[0] in chars {
      lo := StripLeftSlices(s[1..], chars);
      lo := lo + 1;
    } else {
      lo := 0;
    }
  }

  lemma {:induction false} StripRightSlices(s: string, chars: string) returns (hi: nat)
    ensures hi <= |s| && StripRight(s, chars) == s[..hi]
    ensures hi > 0 ==> s[hi - 1] !in chars
    ensures forall i :: hi <= i < |s| ==> s[i] in chars
  {
    if s != [] && s[|s| - 1] in chars {
      hi := StripRightSlices(s[..|s| - 1], chars);
    } else {
      hi := |s|;
    }
  }

  lemma StripSlices(s: string, chars: string) returns (lo: nat, hi: nat)
    ensures lo <= hi <= |s| && Strip(s, chars) == s[lo..hi]
    ensures lo < hi ==> s[lo] !in chars && s[hi - 1] !in chars
    ensures forall i :: 0 <= i < lo || hi <= i < |s| ==> s[i] in chars
  {
    lo := StripLeftSlices(s, chars);
    var n := StripRightSlices(s[lo..], chars);
    hi := lo + n;
  }

  ghost predicate HyphenJoined(s: string) {
    (forall i :: 0 <= i < |s| ==> Alnum(s[i]) || s[i] == '-') && NoDoubleHyphen(s) && (s != [] ==> s[|s| - 1] != '-')
  }

  lemma TailJoined(s: string)
    requires HyphenJoined(s) && s != []
    ensures HyphenJoined(s[1..]) && (Alnum(s[0]) || s[0] == '-')
    ensures s[0] == '-' ==> s[1..] != [] && s[1..][0] != '-'
  {
    assert forall i :: 0 <= i < |s[1..]| ==> s[1..][i] == s[i + 1];
  }

  lemma {:induction false} ScanShaped(s: string, mode: Mode)
    requires HyphenJoined(s)
    requires mode != Word ==> s != [] && s[0] != '-'
    ensures Scan(s, Alnum, mode) == if mode == Gap then "-" + s else s
  {
    if s != [] {
      hide HyphenJoined;
      TailJoined(s);
      assert s == [s[0]] + s[1..];
      if Alnum(s[0]) {
        ScanShaped(s[1..], Word);
      } else {
        ScanShaped(s[1..], Gap);
      }
    }
  }

  lemma {:induction false} ScanEmpty(s: string, mode: Mode)
    ensures Scan(s, Alnum, mode) == [] <==> !HasAlnum(s)
  {
    if s != [] {
      ScanEmpty(s[1..], AfterOther(mode));
      if Alnum(s[0]) {
        assert s[0] in Scan(s, Alnum, mode);
      } else {
        assert HasAlnum(s[1..]) <==> HasAlnum(s) by {
          if i :| 0 <= i < |s| && Alnum(s[i]) { assert s[1..][i - 1] == s[i]; }
          if i :| 0 <= i < |s[1..]| && Alnum(s[1..][i]) { assert s[i + 1] == s[1..][i]; }
        }
      }
    }
  }

  lemma {:induction false} LowerPointwise(s: string)
    requires forall i :: 0 <= i < |s| ==> !LowersToAscii(s[i])
    ensures |Lower(s)| == |s| && forall i :: 0 <= i < |s| ==> Lower(s)[i] == LowerChar(s[i])[0]
  {
    if s != [] {
      LowerPointwise(s[1..]);
      assert LowerChar(s[0]) == [LowerChar(s[0])[0]];
    }
  }

  /** Lower-case text has no upper-case ASCII letter. */
  lemma {:induction false} LowerHasNoUpper(s: string)
    ensures forall i :: 0 <= i < |Lower(s)| && Alnum(Lower(s)[i]) ==> LowerAlnum(Lower(s)[i])
  {
    if s != [] { LowerHasNoUpper(s[1..]); }
  }

  lemma LowerOfShaped(s: string)
    requires Shaped(s)
    ensures LowerShaped(Lower(s)) && |Lower(s)| == |s| && (LowerShaped(s) ==> Lower(s) == s)
  {
    LowerPointwise(s);
  }

  // ---- The normaliser computes the canonical form ----

  lemma StrippedRuns(name: string)
    ensures var stripped := Strip(Sub(name, Alnum, false), "-");
      Shaped(stripped) && Collapse(stripped) == stripped && Scan(stripped, Alnum, Start) == Scan(name, Alnum, Start)
  {
    hide Sub, StripLeft, StripRight, Scan;
    var runs := Sub(name, Alnum, false);
    SubShape(name, Alnum, false);
    var lo, hi := StripSlices(runs, "-");
    assert Shaped(Strip(runs, "-"));
    SubKeeps(Strip(runs, "-"), NotHyphen, false);
    SubKeepsScan(name, Alnum, false, Alnum, Start);
    StripKeepsScan(runs, "-", Alnum);
  }

  lemma PrefixIsCanonical(name: string)
    ensures AsciiPrefix(name) == Canonical(name) == Lower(Scan(name, Alnum, Start))
    ensures LowerShaped(AsciiPrefix(name))
    ensures AsciiPrefix(name) != [] <==> HasAlnum(name)
  {
    var stripped := Strip(Sub(name, Alnum, false), "-");
    StrippedRuns(name);
    if stripped != [] { ScanShaped(stripped, Start); }
    ScanJoinsWords(name, Alnum, Start);
    ScanEmpty(name, Start);
    LowerOfShaped(stripped);
  }

  // ---- Slugs ----

  /** A slug: `[a-z0-9][a-z0-9._-]*`, ending alphanumeric and without a double hyphen. */
  ghost predicate SlugShaped(s: string) {
    && s != [] && LowerAlnum(s[0]) && LowerAlnum(s[|s| - 1])
    && (forall i :: 0 <= i < |s| ==> SlugChar(s[i]))
    && NoDoubleHyphen(s)
  }

  lemma AsciiSlugShape(text: string)
    ensures AsciiSlug(text) != [] ==> SlugShaped(AsciiSlug(text))
  {
    hide Sub, StripLeft, StripRight, Lower;
    var subbed := Sub(Lower(text), SlugChar, false);
    SlugCharsOnly(Lower(text), false);
    SubShape(subbed, NotHyphen, false);
    CollapseKeepsChars(subbed, false);
    var lo, hi := StripSlices(Collapse(subbed), "-._");
    assert AsciiSlug(text) == Collapse(subbed)[lo..hi];
  }

  lemma AsciiSlugKeepsWords(text: string)
    ensures Scan(AsciiSlug(text), Alnum, Start) == Scan(Lower(text), Alnum, Start)
    ensures AsciiSlug(text) != [] <==> HasAlnum(Lower(text))
  {
    hide Sub, StripLeft, StripRight, Lower, Scan;
    var lower := Lower(text);
    LowerHasNoUpper(text);
    var subbed := Sub(lower, SlugChar, false);
    SubKeepsScan(lower, SlugChar, false, Alnum, Start);
    SubKeepsScan(subbed, NotHyphen, false, Alnum, Start);
    StripKeepsScan(Collapse(subbed), "-._", Alnum);
    AsciiSlugShape(text);
    ScanEmpty(AsciiSlug(text), Start);
    ScanEmpty(lower, Start);
  }

  function WithoutLastHyphen(s: string): string {
    if s != [] && s[|s| - 1] == '-' then s[..|s| - 1] else s
  }

  lemma LastHyphenOfTail(s: string)
    requires s != [] && (s[0] != '-' || |s| > 1)
    ensures WithoutLastHyphen(s) == [s[0]] + WithoutLastHyphen(s[1..])
  {
    assert s == [s[0]] + s[1..];
  }

  /** Slug characters without a double hyphen. */
  ghost predicate Collapsed(s: string) {
    (forall i :: 0 <= i < |s| ==> SlugChar(s[i])) && NoDoubleHyphen(s)
  }

  lemma CollapsedTail(s: string)
    requires Collapsed(s) && s != []
    ensures Collapsed(s[1..]) && SlugChar(s[0])
    ensures s[0] == '-' && s[1..] != [] ==> SlugChar(s[1..][0]) && s[1..][0] != '-'
  {
    assert forall i :: 0 <= i < |s[1..]| ==> s[1..][i] == s[i + 1];
  }

  /** The scan of such a text loses no more than a hyphen at the end. */
  lemma {:induction false} CollapsedScan(s: string)
    requires Collapsed(s)
    ensures Scan(s, SlugWord, Word) == WithoutLastHyphen(s)
  {
    if s != [] {
      hide SlugChar, Collapsed, WithoutLastHyphen;
      CollapsedTail(s);
      CollapsedScan(s[1..]);
      if s[0] != '-' || s[1..] != [] {
        LastHyphenOfTail(s);
        if s[0] == '-' { ScanAfterHyphen(s[1..]); }
      } else {
        assert WithoutLastHyphen(s) == "";
      }
    }
  }

  lemma ScanAfterHyphen(s: string)
    requires s != [] && SlugChar(s[0]) && s[0] != '-'
    ensures Scan(s, SlugWord, Gap) == "-" + Scan(s, SlugWord, Word)
  {
  }

  /** From the start, it also loses one there. */
  lemma CollapsedScanStarts(s: string)
    requires Collapsed(s)
    ensures Scan(s, SlugWord, Start) == WithoutLastHyphen(if s != [] && s[0] == '-' then s[1..] else s)
  {
    hide SlugChar;
    var bare := if s != [] && s[0] == '-' then s[1..] else s;
    assert bare != [] ==> bare[0] != '-';
    CollapsedScan(bare);
    assert Scan(bare, SlugWord, Word) == Scan(bare, SlugWord, Start);
  }

  /** A slug is the runs of lower-case alphanumerics, dots and underscores, joined with hyphens, without such
      punctuation at either end; a text without alphanumerics has its digest for a slug. */
  lemma SlugIsCanonical(text: string, digest: Digest)
    ensures Slugify(text, digest) ==
      if HasAlnum(Lower(text)) then Strip(JoinHyphen(Words(Lower(text), SlugWord)), "-._") else digest(text)
  {
    AsciiSlugIsCanonical(text);
    AsciiSlugKeepsWords(text);
  }

  lemma AsciiSlugIsCanonical(text: string)
    ensures AsciiSlug(text) == Strip(JoinHyphen(Words(Lower(text), SlugWord)), "-._")
  {
    hide Sub, StripLeft, StripRight, Lower, Scan, Words, JoinHyphen;
    var lower := Lower(text);
    var subbed := Sub(lower, SlugChar, false);
    var collapsed := Collapse(subbed);
    SlugCharsOnly(lower, false);
    SubShape(subbed, NotHyphen, false);
    CollapseKeepsChars(subbed, false);
    SubKeepsScan(lower, SlugChar, false, SlugWord, Start);
    SubKeepsScan(subbed, NotHyphen, false, SlugWord, Start);
    ScanJoinsWords(lower, SlugWord, Start);
    CollapsedScanStarts(collapsed);
    StripIgnoresHyphens(collapsed);
  }

  lemma StripIgnoresHyphens(s: string)
    ensures Strip(s, "-._") == Strip(WithoutLastHyphen(if s != [] && s[0] == '-' then s[1..] else s), "-._")
  {
    hide StripLeft, StripRight, Strip;
    var before := if s != [] && s[0] == '-' then "-" else "";
    var kept := WithoutLastHyphen(s[|before|..]);
    var after := s[|before| + |kept|..];
    assert s == before + kept + after;
    StripIgnoresEnds(before, kept, after, "-._");
  }

  lemma StripIgnoresEnds(before: string, s: string, after: string, chars: string)
    requires forall c :: c in before || c in after ==> c in chars
    ensures Strip(before + s + after, chars) == Strip(s, chars)
  {
    hide StripLeft, StripRight, Strip;
    var lo, hi := StripSlices(s, chars);
    assert before + s + after == (before + s[..lo]) + s[lo..hi] + (s[hi..] + after);
    StripIsTheMiddle(before + s[..lo], s[lo..hi], s[hi..] + after, chars);
  }

  lemma {:induction false} SlugCharsOnly(s: string, inRun: bool)
    ensures forall i :: 0 <= i < |Sub(s, SlugChar, inRun)| ==> SlugChar(Sub(s, SlugChar, inRun)[i])
  {
    if s != [] { SlugCharsOnly(s[1..], !SlugChar(s[0])); }
  }

  lemma {:induction false} CollapseKeepsChars(s: string, inRun: bool)
    requires forall i :: 0 <= i < |s| ==> SlugChar(s[i])
    ensures forall i :: 0 <= i < |Sub(s, NotHyphen, inRun)| ==> SlugChar(Sub(s, NotHyphen, inRun)[i])
  {
    if s != [] { CollapseKeepsChars(s[1..], s[0] == '-'); }
  }

  /** Every slug has the shape that an asset id segment needs. */
  lemma SlugIsSegment(text: string, digest: Digest)
    ensures SlugShaped(Slugify(text, digest))
  {
    AsciiSlugShape(text);
    var h: Hex8 := digest(text);
  }

  lemma SlugCharIsLower(c: char)
    requires SlugChar(c)
    ensures !LowersToAscii(c) && LowerChar(c)[0] == c
  {
  }

  lemma LowerFixesSlugs(s: string)
    requires SlugShaped(s)
    ensures Lower(s) == s
  {
    hide Lower, LowerChar, LowersToAscii, NoDoubleHyphen, SlugChar;
    forall i | 0 <= i < |s| ensures !LowersToAscii(s[i]) && LowerChar(s[i])[0] == s[i] { SlugCharIsLower(s[i]); }
    LowerPointwise(s);
  }

  lemma StripFixes(s: string, chars: string)
    requires s != [] && s[0] !in chars && s[|s| - 1] !in chars
    ensures Strip(s, chars) == s
  {
  }

  lemma SlugifyFixesSlugs(s: string, digest: Digest)
    requires SlugShaped(s)
    ensures Slugify(s, digest) == s
  {
    LowerFixesSlugs(s);
    SubKeeps(s, SlugChar, false);
    SubKeeps(s, NotHyphen, false);
    StripFixes(s, "-._");
  }

  lemma SlugifyIdempotent(text: string, digest: Digest)
    ensures Slugify(Slugify(text, digest), digest) == Slugify(text, digest)
  {
    SlugIsSegment(text, digest);
    SlugifyFixesSlugs(Slugify(text, digest), digest);
  }

  // ---- Target names ----

  lemma PrefixShape(name: string, digest: Digest)
    ensures LowerShaped(NormalizedPrefix(name, digest)) && NormalizedPrefix(name, digest) != []
  {
    PrefixIsCanonical(name);
    var h: Hex8 := digest(name);
  }

  lemma CutShape(s: string)
    requires LowerShaped(s) && s != []
    ensures LowerShaped(Cut(s)) && 0 < |Cut(s)| <= PREFIX_LIMIT
    ensures |s| <= PREFIX_LIMIT ==> Cut(s) == s
  {
    var hi := StripRightSlices(if |s| > PREFIX_LIMIT then s[..PREFIX_LIMIT] else s, "-");
  }

  /** Every target name without a sensitivity: lower-case words joined with hyphens, at most 93 long. */
  lemma TargetNameShape(name: string, digest: Digest)
    ensures LowerShaped(TargetName(name, digest)) && 0 < |TargetName(name, digest)| <= 93
  {
    PrefixShape(name, digest);
    CutShape(NormalizedPrefix(name, digest));
  }

  /** A target name is the canonical form of the name, or "mcp-" and the digest of a name without alphanumerics,
      cut at the last place that leaves at most 93 characters and no hyphen at the end. */
  lemma TargetNameExactly(name: string, digest: Digest)
    ensures var full := if HasAlnum(name) then Canonical(name) else "mcp-" + digest(name);
      var cut := TargetName(name, digest);
      && cut <= full && 0 < |cut| <= 93 && cut[|cut| - 1] != '-'
      && forall i :: |cut| <= i < 93 && i < |full| ==> full[i] == '-'
  {
    PrefixIsCanonical(name);
    PrefixShape(name, digest);
    var full := NormalizedPrefix(name, digest);
    CutShape(full);
    var hi := StripRightSlices(if |full| > PREFIX_LIMIT then full[..PREFIX_LIMIT] else full, "-");
  }

  lemma SuffixShape(tag: Tag)
    ensures var x := Suffix(tag); 5 <= |x| <= 7 && x[0] == '-' && forall k :: 0 < k < |x| ==> LowerAlnum(x[k])
  {
  }

  lemma AppendSuffix(s: string, tag: Tag)
    requires LowerShaped(s) && s != []
    ensures LowerShaped(s + Suffix(tag))
  {
    SuffixShape(tag);
    var x := Suffix(tag);
    var r := s + x;
    forall i, j | 0 <= i < j < |r| && j == i + 1 ensures r[i] != '-' || r[j] != '-' {
      if j < |s| {
        assert s[i] != '-' || s[j] != '-';
      } else if i >= |s| {
        assert r[j] == x[j - |s|];
      }
    }
  }

  /** A target name with a sensitivity has the same shape, and is at most 100 long. */
  lemma SplitTargetNameShape(name: string, tag: Tag, digest: Digest)
    ensures LowerShaped(SplitTargetName(name, tag, digest)) && 0 < |SplitTargetName(name, tag, digest)| <= 100
  {
    TargetNameShape(name, digest);
    AppendSuffix(TargetName(name, digest), tag);
    SuffixShape(tag);
  }

  // ---- Sensitivities ----

  /** The entry of `SENSITIVITY_TARGET_SUFFIXES` for a sensitivity in upper case. */
  function TagOf(sensitivity: string): Option<Tag> {
    if sensitivity == "READ" then Some(READ)
    else if sensitivity == "CREATE" then Some(CREATE)
    else if sensitivity == "UPDATE" then Some(UPDATE)
    else if sensitivity == "DELETE" then Some(DELETE)
    else None
  }

  /** `gateway_target_name`. */
  function GatewayTargetName(name: string, sensitivity: Option<string>, digest: Digest): Result<string, string> {
    match sensitivity
    case None => Ok(TargetName(name, digest))
    case Some(s) =>
      match TagOf(Upper(Trim(s)))
      case None => Err("unknown sensitivity")
      case Some(tag) => Ok(SplitTargetName(name, tag, digest))
  }

  predicate IsSensitivity(word: string) { word in {"read", "create", "update", "delete"} }

  /** However it is padded, and whatever the case of its letters: each of the four sensitivities is appended in
      lower case, after a hyphen, and every other one is refused. */
  lemma SensitivityIsAppended(name: string, before: string, word: string, after: string, digest: Digest)
    requires (forall c :: c in before || c in after ==> IsSpace(c)) && Trimmed(word)
    ensures var r, base := GatewayTargetName(name, Some(before + word + after), digest), TargetName(name, digest);
      && (r.Ok? <==> IsSensitivity(LowerAscii(word)))
      && (r.Ok? ==> r.value == base + "-" + LowerAscii(word))
  {
    hide IsSensitivity, TargetName, TagOf, Suffix, Upper, LowerAscii, Trim, Trimmed, IsSpace;
    TrimIsTheMiddle(before, word, after);
    TagsAgree(word);
    Reassociate(TargetName(name, digest), "-", LowerAscii(word));
  }

  lemma Reassociate(a: string, b: string, c: string)
    ensures a + (b + c) == a + b + c
  {
  }

  lemma TagsAgree(word: string)
    ensures var tag := TagOf(Upper(word));
      && (tag.Some? <==> IsSensitivity(LowerAscii(word)))
      && (tag.Some? ==> Suffix(tag.value) == "-" + LowerAscii(word))
  {
    hide Upper, LowerAscii, Suffix;
    assert Upper(word) == "READ" <==> LowerAscii(word) == "read" by { CasesAgree(word, "READ", "read"); }
    assert Upper(word) == "CREATE" <==> LowerAscii(word) == "create" by { CasesAgree(word, "CREATE", "create"); }
    assert Upper(word) == "UPDATE" <==> LowerAscii(word) == "update" by { CasesAgree(word, "UPDATE", "update"); }
    assert Upper(word) == "DELETE" <==> LowerAscii(word) == "delete" by { CasesAgree(word, "DELETE", "delete"); }
    SuffixIs();
  }

  lemma SuffixIs()
    ensures Suffix(READ) == "-" + "read" && Suffix(CREATE) == "-" + "create"
    ensures Suffix(UPDATE) == "-" + "update" && Suffix(DELETE) == "-" + "delete"
  {
  }

  lemma CasesAgree(word: string, capitals: string, letters: string)
    requires |capitals| == |letters|
    requires forall k :: 0 <= k < |capitals| ==>
      'A' <= capitals[k] <= 'Z' && letters[k] as int == capitals[k] as int + 32
    ensures Upper(word) == capitals <==> LowerAscii(word) == letters
  {
    hide Upper, LowerAscii;
  }

  /** The number of `[0-9a-zA-Z][-]?` groups that the whole string consists of. */
  function GroupCount(s: string): Option<nat> {
    if s == [] then Some(0)
    else if !Alnum(s[0]) then None
    else
      match GroupCount(if |s| > 1 && s[1] == '-' then s[2..] else s[1..])
      case None => None
      case Some(n) => Some(n + 1)
  }

  /** The Gateway's own rule: `([0-9a-zA-Z][-]?){1,100}`. */
  predicate GatewayAccepts(s: string) {
    GroupCount(s).Some? && 1 <= GroupCount(s).value <= NAME_LIMIT
  }

  lemma {:induction false} ShapedCounts(s: string)
    requires (forall i :: 0 <= i < |s| ==> Alnum(s[i]) || s[i] == '-') && NoDoubleHyphen(s) && (s != [] ==> s[0] != '-')
    ensures GroupCount(s).Some? && GroupCount(s).value <= |s| && (s != [] ==> GroupCount(s).value >= 1)
  {
    if s != [] {
      ShapedCounts(if |s| > 1 && s[1] == '-' then s[2..] else s[1..]);
    }
  }

  /** The Gateway accepts every target name, with or without a sensitivity. */
  lemma GatewayAcceptsTargetNames(name: string, tag: Tag, digest: Digest)
    ensures GatewayAccepts(TargetName(name, digest)) && GatewayAccepts(SplitTargetName(name, tag, digest))
  {
    TargetNameShape(name, digest);
    SplitTargetNameShape(name, tag, digest);
    ShapedCounts(TargetName(name, digest));
    ShapedCounts(SplitTargetName(name, tag, digest));
  }

  lemma ShapedIsFixed(s: string, digest: Digest)
    requires LowerShaped(s) && 0 < |s| <= PREFIX_LIMIT
    ensures TargetName(s, digest) == s
  {
    hide Scan, Lower, Sub, StripLeft, StripRight, Words, JoinHyphen;
    PrefixIsCanonical(s);
    ScanShaped(s, Start);
    LowerOfShaped(s);
    CutShape(s);
  }

  lemma TargetNameIdempotent(name: string, digest: Digest)
    ensures TargetName(TargetName(name, digest), digest) == TargetName(name, digest)
  {
    TargetNameShape(name, digest);
    ShapedIsFixed(TargetName(name, digest), digest);
  }

  /** For every name: its slug and the name itself give the same target name if and only if the name
      has an ASCII alphanumeric and lowering it does not change its canonical form, up to the cut. */
  lemma LegacyAgreementExactly(name: string, digest: Digest)
    ensures TargetName(Slugify(name, digest), digest) == TargetName(name, digest)
      <==> HasAlnum(name) && Cut(Canonical(Lower(name))) == Cut(Canonical(name))
  {
    hide Lower, Scan, Cut, Canonical, AsciiPrefix, AsciiSlug;
    var slug := Slugify(name, digest);
    PrefixIsCanonical(name);
    PrefixIsCanonical(slug);
    PrefixIsCanonical(Lower(name));
    AsciiSlugKeepsWords(name);
    LowerKeepsAlnum(name);
    if HasAlnum(name) {
    } else if HasAlnum(Lower(name)) {
      OnlyLoweredLetters(name, digest);
    } else {
      HashNamesDiffer(name, digest);
    }
  }

  lemma {:induction false} LowerKeepsAlnum(name: string)
    ensures HasAlnum(name) ==> HasAlnum(Lower(name))
  {
    if i :| 0 <= i < |name| && Alnum(name[i]) {
      var c := LowerChar(name[i]);
      LowerAppends(name[..i], name[i..]);
      assert name == name[..i] + name[i..];
      assert Lower(name)[|Lower(name[..i])|] == c[0];
    }
  }

  /** A name whose only ASCII letters come from lowering has a slug of these letters alone, while
      its own target name is a hash. */
  lemma OnlyLoweredLetters(name: string, digest: Digest)
    requires !HasAlnum(name) && HasAlnum(Lower(name))
    ensures TargetName(Slugify(name, digest), digest) != TargetName(name, digest)
  {
    var slug := Slugify(name, digest);
    AsciiSlugKeepsWords(name);
    PrefixIsCanonical(name);
    PrefixIsCanonical(slug);
    LoweredLetters(name);
    ScanFirst(Lower(name));
    ScanEmpty(Lower(name), Start);
    PrefixShape(name, digest);
    PrefixShape(slug, digest);
    CutKeepsFirst(NormalizedPrefix(name, digest));
    CutKeepsFirst(NormalizedPrefix(slug, digest));
  }

  lemma {:induction false} LoweredLetters(name: string)
    requires !HasAlnum(name)
    ensures forall c :: c in Lower(name) && Alnum(c) ==> c == 'i' || c == 'k'
  {
    if name != [] {
      assert !Alnum(name[0]);
      assert forall i :: 0 <= i < |name[1..]| ==> name[1..][i] == name[i + 1];
      LoweredLetters(name[1..]);
    }
  }

  /** The scan starts with the first alphanumeric. */
  lemma {:induction false} ScanFirst(s: string)
    ensures Scan(s, Alnum, Start) != [] ==> Alnum(Scan(s, Alnum, Start)[0]) && Scan(s, Alnum, Start)[0] in s
  {
    if s != [] && !Alnum(s[0]) { ScanFirst(s[1..]); }
  }

  lemma CutKeepsFirst(s: string)
    requires LowerShaped(s) && s != []
    ensures Cut(s) != [] && Cut(s)[0] == s[0]
  {
    CutShape(s);
    var hi := StripRightSlices(if |s| > PREFIX_LIMIT then s[..PREFIX_LIMIT] else s, "-");
  }

  /** The name of a record that was stored as a slug normalises to the same target name exactly
      when the name has an ASCII alphanumeric: both are the canonical form, cut. */
  lemma LegacyAgreement(name: string, digest: Digest)
    requires forall i :: 0 <= i < |name| ==> !LowersToAscii(name[i])
    ensures TargetName(Slugify(name, digest), digest) == TargetName(name, digest) <==> HasAlnum(name)
    ensures HasAlnum(name) ==> TargetName(name, digest) == Cut(Canonical(name))
  {
    var slug := Slugify(name, digest);
    PrefixIsCanonical(name);
    PrefixIsCanonical(slug);
    AsciiSlugKeepsWords(name);
    LowerKeepsScan(name, Start);
    ScanEmpty(name, Start);
    ScanEmpty(Lower(name), Start);
    LowerNonempty(Scan(name, Alnum, Start));
    if HasAlnum(name) {
      LowerTwice(name);
    } else {
      HashNamesDiffer(name, digest);
    }
  }

  lemma LowerNonempty(s: string)
    ensures Lower(s) == [] <==> s == []
  {
  }

  lemma LowerTwice(name: string)
    ensures Lower(Lower(Scan(name, Alnum, Start))) == Lower(Scan(name, Alnum, Start))
  {
    PrefixIsCanonical(name);
    LowerOfShaped(AsciiPrefix(name));
  }

  lemma HashNamesDiffer(name: string, digest: Digest)
    requires !HasAlnum(name) && Slugify(name, digest) == digest(name)
    ensures TargetName(Slugify(name, digest), digest) != TargetName(name, digest)
  {
    PrefixIsCanonical(name);
    PrefixShape(name, digest);
    CutShape(NormalizedPrefix(name, digest));
    HexIsShaped(digest(name));
    ShapedIsFixed(digest(name), digest);
    assert |TargetName(digest(name), digest)| == 8 && |TargetName(name, digest)| == 12;
  }

  lemma HexIsShaped(h: Hex8)
    ensures LowerShaped(h)
  {
  }

  /** A character that is not alphanumeric leaves the letter before it as the target name. */
  lemma LetterAndOther(c: char, digest: Digest)
    requires !Alnum(c)
    ensures TargetName(['a', c], digest) == "a"
  {
    var name := ['a', c];
    assert name[1..] == [c] && [c][1..] == [];
    assert Scan([c], Alnum, Word) == [];
    assert Scan(name, Alnum, Start) == "a";
    hide Scan, Lower, Cut;
    PrefixIsCanonical(name);
    LowerFixesSlugs("a");
    CutShape("a");
  }

  lemma KelvinSlug(digest: Digest)
    ensures Slugify("a\U{212A}", digest) == "ak"
  {
    var name := "a\U{212A}";
    assert name[1..] == "\U{212A}" && name[1..][1..] == "";
    assert Lower(name[1..]) == "k" && Lower(name) == "ak";
    LowerFixesSlugs("ak");
    hide Lower, Sub, StripLeft, StripRight;
    SlugifyFixesSlugs("ak", digest);
  }

  /** The Kelvin sign lowers to an ASCII letter, so the two routes to a target name disagree on it. */
  lemma KelvinDisagrees(digest: Digest)
    ensures TargetName(Slugify("a\U{212A}", digest), digest) == "ak"
    ensures TargetName("a\U{212A}", digest) == "a"
  {
    hide Slugify, TargetName;
    KelvinSlug(digest);
    ShapedIsFixed("ak", digest);
    LetterAndOther('\U{212A}', digest);
  }

  lemma DottedILower()
    ensures Lower("a\U{0130}") == "ai\U{0307}"
  {
    var name, rest := "a\U{0130}", "i\U{0307}";
    assert name[1..] == "\U{0130}" && name[1..][1..] == "";
    assert Lower(name[1..]) == rest;
    assert Lower(name) == "a" + rest;
  }

  lemma DottedISub()
    ensures Sub("ai\U{0307}", SlugChar, false) == "ai-"
  {
    var s, t, u := "ai\U{0307}", "i\U{0307}", "\U{0307}";
    assert s[1..] == t && t[1..] == u && u[1..] == "";
    assert Sub(u, SlugChar, false) == "-";
    assert Sub(t, SlugChar, false) == "i-";
  }

  lemma DottedISlug(digest: Digest)
    ensures Slugify("a\U{0130}", digest) == "ai"
  {
    hide Lower;
    DottedILower();
    DottedISub();
    hide Sub;
    SubKeeps("ai-", NotHyphen, false);
    assert "ai-"[..2] == "ai";
    assert StripRight("ai-", "-._") == StripRight("ai", "-._") == "ai";
  }

  /** So does the capital dotted I. */
  lemma DottedIDisagrees(digest: Digest)
    ensures TargetName(Slugify("a\U{0130}", digest), digest) == "ai"
    ensures TargetName("a\U{0130}", digest) == "a"
  {
    hide Slugify, TargetName;
    DottedISlug(digest);
    ShapedIsFixed("ai", digest);
    LetterAndOther('\U{0130}', digest);
  }
}
