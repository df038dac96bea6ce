/** Slugs and Gateway target names: the string passes of the normalisers, and what they promise. */
module Slug {

  // ---- Characters ----

  predicate Digit(c: char) { '0' <= c <= '9' }
  predicate LowerAlnum(c: char) { 'a' <= c <= 'z' || Digit(c) }
  predicate Alnum(c: char) { LowerAlnum(c) || 'A' <= c <= 'Z' }
  predicate SlugChar(c: char) { LowerAlnum(c) || c == '.' || c == '_' || c == '-' }
  predicate NotHyphen(c: char) { c != '-' }

  /** The classes by code points of ASCII. */
  lemma CharacterClasses(c: char)
    ensures Digit(c) <==> 48 <= c as int <= 57
    ensures LowerAlnum(c) <==> 48 <= c as int <= 57 || 97 <= c as int <= 122
    ensures Alnum(c) <==> 48 <= c as int <= 57 || 65 <= c as int <= 90 || 97 <= c as int <= 122
    ensures SlugChar(c) <==> LowerAlnum(c) || c as int in {45, 46, 95}
  {
  }

  /** The two characters outside ASCII whose lower case contains ASCII. */
  predicate LowersToAscii(c: char) { c == '\U{0130}' || c == '\U{212A}' }

  /** `c.lower()`, for every character up to which non-ASCII characters it consists of. */
  function LowerChar(c: char): (r: string)
    ensures !LowersToAscii(c) ==> |r| == 1 && (Alnum(r[0]) <==> Alnum(c)) && (Alnum(c) ==> LowerAlnum(r[0]))
    ensures r != []
    ensures 65 <= c as int <= 90 ==> r[0] as int == c as int + 32
    ensures !LowersToAscii(c) && !(65 <= c as int <= 90) ==> r[0] == c
  {
    if 'A' <= c <= 'Z' then [(c as int + 32) as char]
    else if c == '\U{0130}' then ['i', '\U{0307}']
    else if c == '\U{212A}' then ['k']
    else [c]
  }

  function Lower(s: string): string {
    if s == [] then [] else LowerChar(s[0]) + Lower(s[1..])
  }

  /** Eight lower-case hexadecimal digits, the start of a SHA-256 digest. */
  predicate IsHex8(s: string) {
    |s| == 8 && forall i :: 0 <= i < 8 ==> Digit(s[i]) || 'a' <= s[i] <= 'f'
  }

  type Hex8 = s: string | IsHex8(s) witness "00000000"
  type Digest = string -> Hex8

  // ---- String passes ----

  /** Every run of characters that are not kept becomes one hyphen; `inRun` is whether the text
      so far ends in such a run. */
  function Sub(s: string, keep: char -> bool, inRun: bool): string {
    if s == [] then []
    else if keep(s[0]) then [s[0]] + Sub(s[1..], keep, false)
    else (if inRun then [] else ['-']) + Sub(s[1..], keep, true)
  }

  /** Runs of hyphens become one hyphen. */
  function Collapse(s: string): string { Sub(s, NotHyphen, false) }

  function StripLeft(s: string, chars: string): string {
    if s != [] && s[0] in chars then StripLeft(s[1..], chars) else s
  }

  function StripRight(s: string, chars: string): string {
    if s != [] && s[|s| - 1] in chars then StripRight(s[..|s| - 1], chars) else s
  }

  function Strip(s: string, chars: string): string { StripRight(StripLeft(s, chars), chars) }

  /** The text between the characters that are stripped. */
  lemma {:induction false} StripIsTheMiddle(before: string, middle: string, after: string, chars: string)
    requires forall c :: c in before || c in after ==> c in chars
    requires middle == "" || (middle[0] !in chars && middle[|middle| - 1] !in chars)
    ensures Strip(before + middle + after, chars) == middle
    decreases |before| + |after|
  {
    var s := before + middle + after;
    if middle == "" && before + after != "" {
      assert s == before + after && s[0] in chars;
      if before == "" {
        assert s[1..] == "" + "" + after[1..];
        StripIsTheMiddle("", "", after[1..], chars);
      } else {
        assert s[1..] == before[1..] + "" + after;
        StripIsTheMiddle(before[1..], "", after, chars);
      }
    } else if before != "" {
      assert s[1..] == before[1..] + middle + after;
      StripIsTheMiddle(before[1..], middle, after, chars);
    } else if after != "" {
      assert StripLeft(s, chars) == s;
      assert s[..|s| - 1] == "" + middle + after[..|after| - 1];
      StripIsTheMiddle("", middle, after[..|after| - 1], chars);
      assert StripLeft(s[..|s| - 1], chars) == s[..|s| - 1];
    } else {
      assert s == middle;
    }
  }

  // ---- The normalisers ----

  function AsciiSlug(text: string): string {
    Strip(Collapse(Sub(Lower(text), SlugChar, false)), "-._")
  }

  /** `slugify`. */
  function Slugify(text: string, digest: Digest): string {
    var s := AsciiSlug(text);
    if s != [] then s else digest(text)
  }

  function AsciiPrefix(name: string): string {
    Lower(Collapse(Strip(Sub(name, Alnum, false), "-")))
  }

  /** `normalized_gateway_target_prefix`. */
  function NormalizedPrefix(name: string, digest: Digest): string {
    var s := AsciiPrefix(name);
    if s != [] then s else "mcp-" + digest(name)
  }

  datatype Tag = READ | CREATE | UPDATE | DELETE

  const NAME_LIMIT := 100
  const PREFIX_LIMIT := 93

  function Suffix(tag: Tag): string {
    match tag case READ => "-read" case CREATE => "-create" case UPDATE => "-update" case DELETE => "-delete"
  }

  function Cut(s: string): string {
    StripRight(if |s| > PREFIX_LIMIT then s[..PREFIX_LIMIT] else s, "-")
  }

  /** `gateway_target_name` without a sensitivity. */
  function TargetName(name: string, digest: Digest): string { Cut(NormalizedPrefix(name, digest)) }

  /** `gateway_target_name` with one. */
  function SplitTargetName(name: string, tag: Tag, digest: Digest): string { TargetName(name, digest) + Suffix(tag) }

  // ---- The reference: alphanumeric runs joined with hyphens ----

  /** The length of the run of word characters at the front. */
  function RunLength(s: string, word: char -> bool): (n: nat)
    ensures n <= |s|
  {
    if s != [] && word(s[0]) then 1 + RunLength(s[1..], word) else 0
  }

  /** The runs of word characters. */
  function Words(s: string, word: char -> bool): seq<string>
    decreases |s|
  {
    if s == [] then []
    else if !word(s[0]) then Words(s[1..], word)
    else [s[..RunLength(s, word)]] + Words(s[RunLength(s, word)..], word)
  }

  function JoinHyphen(words: seq<string>): string {
    if words == [] then []
    else if |words| == 1 then words[0]
    else words[0] + "-" + JoinHyphen(words[1..])
  }

  /** The lower-case alphanumeric runs of the text, joined with hyphens. */
  function Canonical(s: string): string { Lower(JoinHyphen(Words(s, Alnum))) }

  /** The characters of slugs other than the hyphen. */
  predicate SlugWord(c: char) { SlugChar(c) && c != '-' }

  // ---- The same in one pass ----

  datatype Mode = Start | Word | Gap

  function AfterOther(mode: Mode): Mode { if mode == Start then Start else Gap }

  function Scan(s: string, word: char -> bool, mode: Mode): string {
    if s == [] then []
    else if word(s[0]) then (if mode == Gap then "-" else "") + [s[0]] + Scan(s[1..], word, Word)
    else Scan(s[1..], word, AfterOther(mode))
  }

  lemma {:induction false} ScanRun(s: string, word: char -> bool)
    ensures Scan(s, word, Word) == s[..RunLength(s, word)] + Scan(s[RunLength(s, word)..], word, Word)
  {
    if s != [] && word(s[0]) {
      ScanRun(s[1..], word);
      assert s[..RunLength(s, word)] == [s[0]] + s[1..][..RunLength(s[1..], word)];
      assert s[RunLength(s, word)..] == s[1..][RunLength(s[1..], word)..];
    }
  }

  lemma ScanWord(s: string, word: char -> bool, mode: Mode)
    requires s != [] && word(s[0])
    ensures Scan(s, word, mode)
         == (if mode == Gap then "-" else "") + (s[..RunLength(s, word)] + Scan(s[RunLength(s, word)..], word, Word))
  {
    hide RunLength;
    ScanRun(s, word);
    assert Scan(s, word, Word) == [s[0]] + Scan(s[1..], word, Word);
    assert Scan(s, word, mode) == (if mode == Gap then "-" else "") + Scan(s, word, Word);
  }

  /** The one-pass scan joins the words. */
  lemma {:induction false} ScanJoinsWords(s: string, word: char -> bool, mode: Mode)
    requires mode == Word ==> s == [] || !word(s[0])
    ensures Scan(s, word, mode)
         == if mode == Start || Words(s, word) == [] then JoinHyphen(Words(s, word))
            else "-" + JoinHyphen(Words(s, word))
    decreases |s|
  {
    if s == [] {
    } else if !word(s[0]) {
      ScanJoinsWords(s[1..], word, AfterOther(mode));
    } else {
      hide Scan, JoinHyphen;
      var first, rest := s[..RunLength(s, word)], s[RunLength(s, word)..];
      RunEnds(s, word);
      ScanWord(s, word, mode);
      ScanJoinsWords(rest, word, Word);
      JoinCons(first, Words(rest, word));
      assert Words(s, word) == [first] + Words(rest, word);
    }
  }

  lemma JoinCons(word: string, words: seq<string>)
    ensures JoinHyphen([word] + words) == word + if words != [] then "-" + JoinHyphen(words) else []
  {
    assert ([word] + words)[1..] == words;
  }

  lemma {:induction false} RunEnds(s: string, word: char -> bool)
    ensures RunLength(s, word) == |s| || !word(s[RunLength(s, word)])
  {
    if s != [] && word(s[0]) { RunEnds(s[1..], word); }
  }

  // ---- Passes that do not change the scan ----

  lemma {:induction false} SubKeepsScan(s: string, keep: char -> bool, inRun: bool, word: char -> bool, mode: Mode)
    requires (forall i :: 0 <= i < |s| && word(s[i]) ==> keep(s[i])) && !word('-')
    requires inRun ==> mode != Word
    ensures Scan(Sub(s, keep, inRun), word, mode) == Scan(s, word, mode)
  {
    if s != [] {
      if keep(s[0]) {
        SubKeepsScan(s[1..], keep, false, word, if word(s[0]) then Word else AfterOther(mode));
        assert Sub(s, keep, inRun)[1..] == Sub(s[1..], keep, false);
      } else {
        SubKeepsScan(s[1..], keep, true, word, AfterOther(mode));
        if inRun {
          assert Sub(s, keep, inRun) == Sub(s[1..], keep, true);
        } else {
          assert Sub(s, keep, inRun)[1..] == Sub(s[1..], keep, true);
        }
      }
    }
  }

  lemma {:induction false} StripLeftKeepsScan(s: string, chars: string, word: char -> bool)
    requires forall c :: c in chars ==> !word(c)
    ensures Scan(StripLeft(s, chars), word, Start) == Scan(s, word, Start)
  {
    if s != [] && s[0] in chars { StripLeftKeepsScan(s[1..], chars, word); }
  }

  lemma {:induction false} ScanIgnoresTail(s: string, c: char, word: char -> bool, mode: Mode)
    requires !word(c)
    ensures Scan(s + [c], word, mode) == Scan(s, word, mode)
  {
    if s != [] {
      assert (s + [c])[1..] == s[1..] + [c];
      ScanIgnoresTail(s[1..], c, word, if word(s[0]) then Word else AfterOther(mode));
    }
  }

  lemma {:induction false} StripRightKeepsScan(s: string, chars: string, word: char -> bool)
    requires forall c :: c in chars ==> !word(c)
    ensures Scan(StripRight(s, chars), word, Start) == Scan(s, word, Start)
  {
    if s != [] && s[|s| - 1] in chars {
      assert s == s[..|s| - 1] + [s[|s| - 1]];
      ScanIgnoresTail(s[..|s| - 1], s[|s| - 1], word, Start);
      StripRightKeepsScan(s[..|s| - 1], chars, word);
    }
  }

  lemma StripKeepsScan(s: string, chars: string, word: char -> bool)
    requires forall c :: c in chars ==> !word(c)
    ensures Scan(Strip(s, chars), word, Start) == Scan(s, word, Start)
  {
    StripLeftKeepsScan(s, chars, word);
    StripRightKeepsScan(StripLeft(s, chars), chars, word);
  }

  /** Lower case does not move word boundaries, unless a character outside ASCII becomes ASCII. */
  lemma {:induction false} LowerKeepsScan(s: string, mode: Mode)
    requires forall c :: c in s ==> !LowersToAscii(c)
    ensures Scan(Lower(s), Alnum, mode) == Lower(Scan(s, Alnum, mode))
  {
    if s != [] {
      var mode' := if Alnum(s[0]) then Word else AfterOther(mode);
      LowerKeepsScan(s[1..], mode');
      assert Lower(s)[1..] == Lower(s[1..]);
      if Alnum(s[0]) {
        LowerAppends((if mode == Gap then "-" else "") + [s[0]], Scan(s[1..], Alnum, Word));
        LowerAppends(if mode == Gap then "-" else "", [s[0]]);
        assert Lower([s[0]]) == LowerChar(s[0]) && Lower("-") == "-";
      }
    }
  }

  lemma {:induction false} LowerAppends(a: string, b: string)
    ensures Lower(a + b) == Lower(a) + Lower(b)
  {
    if a == [] {
      assert a + b == b;
    } else {
      assert (a + b)[1..] == a[1..] + b;
      LowerAppends(a[1..], b);
    }
  }
}
