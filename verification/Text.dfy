/** `str.strip()` and `str.upper()` as the programs use them. */
module Text {

  /** The characters that `str.strip()` removes. */
  predicate IsSpace(c: char) {
    '\t' <= c <= '\r' || '\U{1C}' <= c <= ' ' || c == '\U{85}' || c == '\U{A0}' || c == '\U{1680}'
    || '\U{2000}' <= c <= '\U{200A}' || c == '\U{2028}' || c == '\U{2029}' || c == '\U{202F}'
    || c == '\U{205F}' || c == '\U{3000}'
  }

  function TrimStart(s: string): string {
    if s != [] && IsSpace(s[0]) then TrimStart(s[1..]) else s
  }

  function TrimEnd(s: string): string {
    if s != [] && IsSpace(s[|s| - 1]) then TrimEnd(s[..|s| - 1]) else s
  }

  function Trim(s: string): string { TrimEnd(TrimStart(s)) }

  predicate Trimmed(s: string) { s == [] || (!IsSpace(s[0]) && !IsSpace(s[|s| - 1])) }

  lemma {:induction false} TrimStartEnds(s: string)
    ensures TrimStart(s) != [] ==> !IsSpace(TrimStart(s)[0])
  {
    if s != [] && IsSpace(s[0]) { TrimStartEnds(s[1..]); }
  }

  lemma {:induction false} TrimEndEnds(s: string)
    ensures TrimEnd(s) <= s && (TrimEnd(s) != [] ==> !IsSpace(TrimEnd(s)[|TrimEnd(s)| - 1]))
  {
    if s != [] && IsSpace(s[|s| - 1]) { TrimEndEnds(s[..|s| - 1]); }
  }

  lemma TrimIsTrimmed(s: string)
    ensures Trimmed(Trim(s)) && (Trimmed(s) ==> Trim(s) == s)
  {
    TrimStartEnds(s);
    TrimEndEnds(TrimStart(s));
  }

  /** The text between white space. */
  lemma {:induction false} TrimIsTheMiddle(before: string, middle: string, after: string)
    requires (forall c :: c in before || c in after ==> IsSpace(c)) && Trimmed(middle)
    ensures Trim(before + middle + after) == middle
    decreases |before| + |after|
  {
    var s := before + middle + after;
    if middle == "" && before + after != "" {
      assert s == before + after && IsSpace(s[0]);
      if before == "" {
        assert s[1..] == "" + "" + after[1..];
        TrimIsTheMiddle("", "", after[1..]);
      } else {
        assert s[1..] == before[1..] + "" + after;
        TrimIsTheMiddle(before[1..], "", after);
      }
    } else if before != "" {
      assert s[1..] == before[1..] + middle + after;
      TrimIsTheMiddle(before[1..], middle, after);
    } else if after != "" {
      assert TrimStart(s) == s;
      assert s[..|s| - 1] == "" + middle + after[..|after| - 1];
      TrimIsTheMiddle("", middle, after[..|after| - 1]);
      assert TrimStart(s[..|s| - 1]) == s[..|s| - 1];
    } else {
      assert s == middle;
    }
  }

  lemma {:induction false} TrimIsBlank(s: string)
    ensures Trim(s) == "" <==> forall i :: 0 <= i < |s| ==> IsSpace(s[i])
  {
    if s != "" && IsSpace(s[0]) {
      TrimIsBlank(s[1..]);
      assert s == [s[0]] + s[1..];
    } else if s != "" {
      TrimEndKeepsFirst(s);
    }
  }

  lemma {:induction false} TrimEndKeepsFirst(s: string)
    requires s != "" && !IsSpace(s[0])
    ensures TrimEnd(s) != ""
  {
    if IsSpace(s[|s| - 1]) { TrimEndKeepsFirst(s[..|s| - 1]); }
  }

  /** `s.upper()` on ASCII letters; no other character has an upper case in a sensitivity tag. */
  function Upper(s: string): (r: string)
    ensures |r| == |s|
    ensures forall i :: 0 <= i < |s| ==>
      if 97 <= s[i] as int <= 122 then r[i] as int == s[i] as int - 32 else r[i] == s[i]
  {
    if s == [] then []
    else [if 'a' <= s[0] <= 'z' then (s[0] as int - 32) as char else s[0]] + Upper(s[1..])
  }

  /** `s.lower()` on ASCII letters; no other character has a lower case in the word `ready`. */
  function LowerAscii(s: string): (r: string)
    ensures |r| == |s|
    ensures forall i :: 0 <= i < |s| ==>
      if 65 <= s[i] as int <= 90 then r[i] as int == s[i] as int + 32 else r[i] == s[i]
  {
    if s == [] then []
    else [if 'A' <= s[0] <= 'Z' then (s[0] as int + 32) as char else s[0]] + LowerAscii(s[1..])
  }

  /** The text before the first `c`. */
  function Until(s: string, c: char): string {
    if s == [] || s[0] == c then [] else [s[0]] + Until(s[1..], c)
  }

  lemma {:induction false} UntilStops(e: string, c: char, rest: string)
    requires c !in e
    ensures Until(e + [c] + rest, c) == e
  {
    if e != [] {
      assert (e + [c] + rest)[1..] == e[1..] + [c] + rest;
      UntilStops(e[1..], c, rest);
    }
  }

  /** `pattern` occurs in `text` at position `p`. */
  ghost predicate At(text: string, p: int, pattern: string) {
    0 <= p && p + |pattern| <= |text| && text[p..p + |pattern|] == pattern
  }
}
