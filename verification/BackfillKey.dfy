/**
  The S3 keys of backfill exports: percent-encoding (sections 2.1 and 2.3 of RFC 3986) and the
  search for the `log-group=` segment. A string is a sequence of bytes here, one per character.
 */
module BackfillKey {
  import opened Basics

  predicate IsBytes(s: string) {
    forall i :: 0 <= i < |s| ==> s[i] as int < 256
  }

  predicate Unreserved(c: char) {
    'a' <= c <= 'z' || 'A' <= c <= 'Z' || '0' <= c <= '9' || c == '_' || c == '.' || c == '-' || c == '~'
  }

  function HexDigit(n: int): char
    requires 0 <= n < 16
  {
    "0123456789ABCDEF"[n]
  }

  /** The value of a hexadecimal digit in either case. */
  function HexValue(c: char): (r: Option<int>)
    ensures r.Some? ==> 0 <= r.value < 16
  {
    if '0' <= c <= '9' then Some(c as int - '0' as int)
    else if 'A' <= c <= 'F' then Some(c as int - 'A' as int + 10)
    else if 'a' <= c <= 'f' then Some(c as int - 'a' as int + 10)
    else None
  }

  /** `quote(s, safe='')`. */
  function Quote(s: string): string
    requires IsBytes(s)
  {
    if s == [] then []
    else
      (if Unreserved(s[0]) then [s[0]]
       else ['%', HexDigit(s[0] as int / 16), HexDigit(s[0] as int % 16)])
      + Quote(s[1..])
  }

  lemma {:induction false} QuoteAppends(a: string, b: string)
    requires IsBytes(a) && IsBytes(b)
    ensures IsBytes(a + b) && Quote(a + b) == Quote(a) + Quote(b)
  {
    if a == "" {
      assert a + b == b;
    } else {
      assert (a + b)[1..] == a[1..] + b;
      QuoteAppends(a[1..], b);
    }
  }

  /** `d` is the upper-case hexadecimal digit for `n`. */
  predicate IsDigitFor(d: char, n: int) { 0 <= n < 16 && d as int == if n < 10 then 48 + n else 55 + n }

  /** Each byte is printed for itself: letters, digits and `-._~` as they are, every other one as a percent sign
      and two upper-case hexadecimal digits, the higher one first. */
  lemma QuoteExactly(before: string, c: char, after: string, p: char, high: int, q: char, low: int)
    requires IsBytes(before) && IsBytes(after)
    requires c as int == 16 * high + low && IsDigitFor(p, high) && IsDigitFor(q, low)
    ensures IsBytes(before + [c] + after)
    ensures var code := c as int;
      var bare := 48 <= code <= 57 || 65 <= code <= 90 || 97 <= code <= 122 || code in {45, 46, 95, 126};
      Quote(before + [c] + after) == Quote(before) + (if bare then [c] else ['%', p, q]) + Quote(after)
  {
    DigitIs(p, high);
    DigitIs(q, low);
    hide HexDigit;
    QuoteAppends(before, [c]);
    QuoteAppends(before + [c], after);
    assert [c][1..] == "";
    assert c as int / 16 == high && c as int % 16 == low;
  }

  lemma DigitIs(d: char, n: int)
    requires IsDigitFor(d, n)
    ensures HexDigit(n) == d
  {
  }

  predicate StartsWithEscape(s: string) {
    |s| >= 3 && s[0] == '%' && HexValue(s[1]).Some? && HexValue(s[2]).Some?
  }

  function EscapedByte(s: string): char
    requires StartsWithEscape(s)
  {
    (HexValue(s[1]).value * 16 + HexValue(s[2]).value) as char
  }

  /** `unquote(s)`: a percent sign that starts no escape stays. */
  function Unquote(s: string): string {
    if s == [] then []
    else if StartsWithEscape(s) then [EscapedByte(s)] + Unquote(s[3..])
    else [s[0]] + Unquote(s[1..])
  }

  /** `e` is some URL-encoding of `s`: each byte literally, unless it is a percent sign, or escaped. */
  ghost predicate Encodes(e: string, s: string) {
    if s == [] then e == []
    else
      || (e != [] && e[0] == s[0] && s[0] != '%' && Encodes(e[1..], s[1..]))
      || (StartsWithEscape(e) && EscapedByte(e) == s[0] && Encodes(e[3..], s[1..]))
  }

  lemma {:induction false} UnquoteUndoesEncoding(e: string, s: string)
    requires Encodes(e, s)
    ensures Unquote(e) == s
  {
    if s != [] {
      assert s == [s[0]] + s[1..];
      if e != [] && e[0] == s[0] && s[0] != '%' && Encodes(e[1..], s[1..]) {
        UnquoteUndoesEncoding(e[1..], s[1..]);
      } else {
        UnquoteUndoesEncoding(e[3..], s[1..]);
      }
    }
  }

  lemma {:induction false} QuoteEncodes(s: string)
    requires IsBytes(s)
    ensures Encodes(Quote(s), s)
    ensures forall c :: c in Quote(s) ==> Unreserved(c) || c == '%'
  {
    if s != [] {
      QuoteEncodes(s[1..]);
      var q, n := Quote(s), s[0] as int;
      if Unreserved(s[0]) {
        assert q[1..] == Quote(s[1..]);
      } else {
        assert q[3..] == Quote(s[1..]);
        HexRoundTrip(n / 16);
        HexRoundTrip(n % 16);
        assert n == n / 16 * 16 + n % 16;
      }
    }
  }

  /** The digits of an escape: 0 to 9, then A to F in either case. */
  lemma DigitsOfEscapes(c: char, n: int)
    requires 0 <= n < 16
    ensures HexValue(c) == Some(n) <==> if n < 10 then c as int == 48 + n else c as int in {55 + n, 87 + n}
  {
  }

  lemma HexRoundTrip(n: int)
    requires 0 <= n < 16
    ensures HexValue(HexDigit(n)) == Some(n) && Unreserved(HexDigit(n))
  {
  }

  // ---- Key segments ----

  /** `s.split(sep)`. */
  function Split(s: string, sep: char): (r: seq<string>)
    ensures r != []
  {
    if s == [] then [[]]
    else
      var rest := Split(s[1..], sep);
      if s[0] == sep then [[]] + rest else [[s[0]] + rest[0]] + rest[1..]
  }

  lemma {:induction false} SplitAtSeparator(a: string, sep: char, b: string)
    requires sep !in a
    ensures Split(a + [sep] + b, sep) == [a] + Split(b, sep)
  {
    var s := a + [sep] + b;
    if a == [] {
      assert s[1..] == b;
    } else {
      assert s[1..] == a[1..] + [sep] + b;
      SplitAtSeparator(a[1..], sep, b);
      assert a == [a[0]] + a[1..];
    }
  }

  const PARTITION := "log-group="

  predicate StartsWith(s: string, prefix: string) { prefix <= s }

  /** `_backfill_log_group` on the segments of a key. */
  function LogGroupOf(segments: seq<string>): Option<string> {
    if segments == [] then None
    else if StartsWith(segments[0], PARTITION) then Some(Unquote(segments[0][|PARTITION|..]))
    else LogGroupOf(segments[1..])
  }

  function BackfillLogGroup(key: string): Option<string> { LogGroupOf(Split(key, '/')) }

  /** The key of an exported object under `_backfill_prefix`. */
  function BackfillObjectKey(stage: string, name: string, suffix: string): string
    requires IsBytes(name)
  {
    "backfill/stage=" + stage + "/log-group=" + Quote(name) + "/" + suffix
  }

  lemma KeyIs(stage: string, name: string, suffix: string)
    requires IsBytes(name)
    ensures BackfillObjectKey(stage, name, suffix)
         == "backfill/stage=" + stage + "/" + PARTITION + Quote(name) + "/" + suffix
  {
    assert "backfill/stage=" + stage + "/log-group=" == "backfill/stage=" + stage + "/" + PARTITION;
  }

  lemma SplitKey(stage: string, quoted: string, suffix: string)
    requires '/' !in stage && '/' !in quoted
    ensures Split("backfill/stage=" + stage + "/" + PARTITION + quoted + "/" + suffix, '/')
         == ["backfill", "stage=" + stage, PARTITION + quoted] + Split(suffix, '/')
  {
    hide Split;
    var second, third := "stage=" + stage, PARTITION + quoted;
    var tail := third + ['/'] + suffix;
    assert "backfill/stage=" + stage + "/" + PARTITION + quoted + "/" + suffix
        == "backfill" + ['/'] + (second + ['/'] + tail);
    SplitAtSeparator("backfill", '/', second + ['/'] + tail);
    SplitAtSeparator(second, '/', tail);
    SplitAtSeparator(third, '/', suffix);
  }

  lemma FindPartition(first: string, second: string, quoted: string, rest: seq<string>)
    requires !StartsWith(first, PARTITION) && !StartsWith(second, PARTITION)
    ensures LogGroupOf([first, second, PARTITION + quoted] + rest) == Some(Unquote(quoted))
  {
    var segments := [first, second, PARTITION + quoted] + rest;
    assert segments[1..][1..] == [PARTITION + quoted] + rest;
    assert (PARTITION + quoted)[|PARTITION|..] == quoted;
    assert LogGroupOf(segments[1..][1..]) == Some(Unquote(quoted));
    assert LogGroupOf(segments[1..]) == Some(Unquote(quoted));
  }

  lemma KeyNamesGroup(stage: string, name: string, suffix: string)
    requires IsBytes(name) && '/' !in stage
    ensures "backfill/" <= BackfillObjectKey(stage, name, suffix)
    ensures BackfillLogGroup(BackfillObjectKey(stage, name, suffix)) == Some(name)
  {
    var key := BackfillObjectKey(stage, name, suffix);
    assert "backfill/" <= key;
    KeyIs(stage, name, suffix);
    hide BackfillObjectKey, Quote, Unquote;
    QuoteEncodes(name);
    UnquoteUndoesEncoding(Quote(name), name);
    SplitKey(stage, Quote(name), suffix);
    assert "backfill"[0] == 'b' && PARTITION[0] == 'l' && ("stage=" + stage)[0] == 's';
    FindPartition("backfill", "stage=" + stage, Quote(name), Split(suffix, '/'));
  }

  /** For every log-group name and every export suffix: whatever URL-encoding of the key the event
      carries, decoding it once and then the partition segment again gives the name back. */
  lemma BackfillKeyRoundTrip(stage: string, name: string, suffix: string, eventKey: string)
    requires IsBytes(name) && '/' !in stage
    requires Encodes(eventKey, BackfillObjectKey(stage, name, suffix))
    ensures "backfill/" <= Unquote(eventKey)
    ensures BackfillLogGroup(Unquote(eventKey)) == Some(name)
  {
    UnquoteUndoesEncoding(eventKey, BackfillObjectKey(stage, name, suffix));
    KeyNamesGroup(stage, name, suffix);
  }

  // ---- Event keys that write a space as a plus sign ----

  /** The URL-encoding of S3 event keys: a space becomes a plus sign; every other byte stands for
      itself, unless it is a percent or plus sign, or is escaped. */
  ghost predicate EventEncodes(e: string, s: string) {
    if s == [] then e == []
    else if s[0] == ' ' then e != [] && e[0] == '+' && EventEncodes(e[1..], s[1..])
    else
      || (e != [] && e[0] == s[0] && s[0] != '%' && s[0] != '+' && EventEncodes(e[1..], s[1..]))
      || (StartsWithEscape(e) && EscapedByte(e) == s[0] && EventEncodes(e[3..], s[1..]))
  }

  /** What `unquote` makes of it: the spaces stay plus signs. */
  function Plussed(s: string): (r: string)
    ensures |r| == |s| && forall i :: 0 <= i < |s| ==> r[i] == if s[i] == ' ' then '+' else s[i]
  {
    if s == [] then [] else [if s[0] == ' ' then '+' else s[0]] + Plussed(s[1..])
  }

  lemma {:induction false} UnquoteLeavesPlus(e: string, s: string)
    requires EventEncodes(e, s)
    ensures Unquote(e) == Plussed(s)
  {
    if s == [] {
    } else if s[0] == ' ' {
      UnquoteLeavesPlus(e[1..], s[1..]);
    } else if e != [] && e[0] == s[0] && s[0] != '%' && s[0] != '+' && EventEncodes(e[1..], s[1..]) {
      UnquoteLeavesPlus(e[1..], s[1..]);
    } else {
      UnquoteLeavesPlus(e[3..], s[1..]);
    }
  }

  lemma PlussedParts(head: string, stage: string, middle: string, suffix: string)
    requires ' ' !in head && ' ' !in middle
    ensures Plussed(head + stage + middle + suffix) == head + Plussed(stage) + middle + Plussed(suffix)
  {
  }

  function KeyMiddle(name: string): string
    requires IsBytes(name)
  {
    "/log-group=" + Quote(name) + "/"
  }

  lemma MiddleHasNoSpace(name: string)
    requires IsBytes(name)
    ensures ' ' !in KeyMiddle(name)
  {
    QuoteEncodes(name);
    hide Quote;
  }

  lemma KeyInParts(stage: string, name: string, suffix: string)
    requires IsBytes(name)
    ensures BackfillObjectKey(stage, name, suffix) == "backfill/stage=" + stage + KeyMiddle(name) + suffix
  {
    hide Quote;
  }

  lemma PlussedKey(stage: string, name: string, suffix: string)
    requires IsBytes(name)
    ensures Plussed(BackfillObjectKey(stage, name, suffix)) == BackfillObjectKey(Plussed(stage), name, Plussed(suffix))
  {
    hide BackfillObjectKey, KeyMiddle, Plussed;
    MiddleHasNoSpace(name);
    KeyInParts(stage, name, suffix);
    KeyInParts(Plussed(stage), name, Plussed(suffix));
    PlussedParts("backfill/stage=", stage, KeyMiddle(name), suffix);
  }

  /** The recorder still finds the name of the log group, in any event; the key as a whole comes
      back if and only if it has no space. */
  lemma EventKeyRoundTrip(stage: string, name: string, suffix: string, eventKey: string)
    requires IsBytes(name) && '/' !in stage
    requires EventEncodes(eventKey, BackfillObjectKey(stage, name, suffix))
    ensures "backfill/" <= Unquote(eventKey)
    ensures BackfillLogGroup(Unquote(eventKey)) == Some(name)
    ensures Unquote(eventKey) == BackfillObjectKey(stage, name, suffix)
      <==> ' ' !in BackfillObjectKey(stage, name, suffix)
  {
    var key := BackfillObjectKey(stage, name, suffix);
    UnquoteLeavesPlus(eventKey, key);
    PlussedKey(stage, name, suffix);
    KeyNamesGroup(Plussed(stage), name, Plussed(suffix));
    assert forall i :: 0 <= i < |key| ==> Plussed(key)[i] == if key[i] == ' ' then '+' else key[i];
  }
}
