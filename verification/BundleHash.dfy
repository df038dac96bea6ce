/** The byte string whose digest names a tooling bundle. */
module BundleHash {
  import opened Text

  const NUL: char := '\0'

  /** Every file contributes its path and its body, each followed by a NUL byte. */
  function Frame(files: seq<string>, bodies: seq<string>): string
    requires |files| == |bodies|
  {
    if files == [] then [] else files[0] + [NUL] + bodies[0] + [NUL] + Frame(files[1..], bodies[1..])
  }

  lemma {:induction false} FrameOneMore(files: seq<string>, bodies: seq<string>, i: nat)
    requires i < |files| == |bodies|
    ensures Frame(files[..i + 1], bodies[..i + 1])
         == Frame(files[..i], bodies[..i]) + files[i] + [NUL] + bodies[i] + [NUL]
  {
    if i > 0 {
      FrameOneMore(files[1..], bodies[1..], i - 1);
      assert files[..i + 1][1..] == files[1..][..i] && bodies[..i + 1][1..] == bodies[1..][..i];
      assert files[..i][1..] == files[1..][..i - 1] && bodies[..i][1..] == bodies[1..][..i - 1];
    } else {
      assert files[..1][1..] == [] && bodies[..1][1..] == [];
    }
  }

  /** The loop that feeds the digest. */
  method HashInput(files: seq<string>, bodies: seq<string>) returns (input: string)
    requires |files| == |bodies|
    ensures input == Frame(files, bodies)
  {
    input := [];
    for i := 0 to |files|
      invariant input == Frame(files[..i], bodies[..i])
    {
      FrameOneMore(files, bodies, i);
      input := input + files[i];
      input := input + ['\0'];
      input := input + bodies[i];
      input := input + ['\0'];
    }
    assert files[..|files|] == files && bodies[..|bodies|] == bodies;
  }

  predicate NulFree(texts: seq<string>) {
    forall i :: 0 <= i < |texts| ==> NUL !in texts[i]
  }

  /** Bodies without a NUL byte can be told apart by what is hashed. */
  lemma {:induction false} FramingIsInjective(files: seq<string>, a: seq<string>, b: seq<string>)
    requires |files| == |a| == |b| && NulFree(a) && NulFree(b)
    ensures Frame(files, a) == Frame(files, b) <==> a == b
  {
    if files != [] && Frame(files, a) == Frame(files, b) {
      var after := Frame(files, a)[|files[0]| + 1..];
      var restA, restB := Frame(files[1..], a[1..]), Frame(files[1..], b[1..]);
      assert after == a[0] + [NUL] + restA;
      assert after == b[0] + [NUL] + restB;
      UntilStops(a[0], NUL, restA);
      UntilStops(b[0], NUL, restB);
      assert restA == after[|a[0]| + 1..] == restB;
      FramingIsInjective(files[1..], a[1..], b[1..]);
      assert a == [a[0]] + a[1..] && b == [b[0]] + b[1..];
    }
  }

  // ---- Bodies that hold NUL bytes ----

  function Marker(name: string): string { [NUL] + name + [NUL] }

  /** The hash input after the first path and its NUL byte. */
  function Rest(names: seq<string>, bodies: seq<string>): string
    requires |bodies| == |names| + 1
  {
    if names == [] then bodies[0] + [NUL] else bodies[0] + Marker(names[0]) + Rest(names[1..], bodies[1..])
  }

  lemma {:induction false} FrameIsRest(files: seq<string>, bodies: seq<string>)
    requires |files| == |bodies| && files != []
    ensures Frame(files, bodies) == files[0] + [NUL] + Rest(files[1..], bodies)
  {
    if |files| > 1 {
      FrameIsRest(files[1..], bodies[1..]);
      assert files[1..][1..] == files[2..];
    } else {
      assert files[1..] == [] && bodies[1..] == [];
    }
  }

  /** Between two neighbouring bodies, the boundary could also be read somewhere else. */
  ghost predicate MovableAt(names: seq<string>, bodies: seq<string>, i: nat, p: int)
    requires |bodies| == |names| + 1 && i < |names|
  {
    p != |bodies[i]| && At(bodies[i] + Marker(names[i]) + bodies[i + 1], p, Marker(names[i]))
  }

  ghost predicate Movable(names: seq<string>, bodies: seq<string>)
    requires |bodies| == |names| + 1
  {
    exists i: nat, p: int :: i < |names| && MovableAt(names, bodies, i, p)
  }

  lemma MovableLater(names: seq<string>, bodies: seq<string>)
    requires |bodies| == |names| + 1 && names != []
    requires Movable(names[1..], bodies[1..])
    ensures Movable(names, bodies)
  {
    var i: nat, p: int :| i < |names| - 1 && MovableAt(names[1..], bodies[1..], i, p);
    assert MovableAt(names, bodies, i + 1, p);
  }

  /** The marker that `b` places after its first body lies in `a` as well: either between the
      first two bodies of `a`, or beyond them. */
  lemma MarkerInside(name: string, a0: string, a1: string, after: string, p: nat)
    requires At(a0 + Marker(name) + (a1 + after), p, Marker(name)) && p <= |a0| + |a1|
    ensures At(a0 + Marker(name) + a1, p, Marker(name))
  {
    var text, part := a0 + Marker(name) + (a1 + after), a0 + Marker(name) + a1;
    assert text == part + after;
    assert text[p..p + |Marker(name)|] == part[p..p + |Marker(name)|];
  }

  lemma RestStarts(names: seq<string>, bodies: seq<string>) returns (after: string)
    requires |bodies| == |names| + 1
    ensures Rest(names, bodies) == bodies[0] + after
  {
    after := if names == [] then [NUL] else Marker(names[0]) + Rest(names[1..], bodies[1..]);
    assert names != [] ==> bodies[0] + Marker(names[0]) + Rest(names[1..], bodies[1..]) == bodies[0] + after;
  }

  /** If the boundary of `b` comes later than that of `a`, some boundary of `a` can be moved. */
  lemma {:induction false} LaterBoundary(names: seq<string>, a: seq<string>, b: seq<string>, skipped: string)
    requires |a| == |b| == |names| + 1
    requires Rest(names, a) == skipped + Rest(names, b)
    requires |skipped| + |b[0]| > |a[0]|
    ensures Movable(names, a)
    decreases names
  {
    if names != [] {
      var marker, p := Marker(names[0]), |skipped| + |b[0]|;
      var text, restB := Rest(names, a), Rest(names[1..], b[1..]);
      assert text == (skipped + b[0]) + marker + restB;
      assert At(text, p, marker);
      var after := RestStarts(names[1..], a[1..]);
      if p <= |a[0]| + |a[1]| {
        assert text == a[0] + marker + (a[1] + after);
        MarkerInside(names[0], a[0], a[1], after, p);
        assert MovableAt(names, a, 0, p);
      } else {
        var n := |a[0]| + |marker|;
        assert text[n..] == Rest(names[1..], a[1..]);
        var skipped' := text[n..p + |marker|];
        assert text[n..] == skipped' + restB;
        LaterBoundary(names[1..], a[1..], b[1..], skipped');
        MovableLater(names, a);
      }
    }
  }

  lemma OneBody(a: seq<string>, b: seq<string>)
    requires |a| == |b| == 1
    ensures a[0] + [NUL] == b[0] + [NUL] ==> a == b
  {
    assert (a[0] + [NUL])[..|a[0]|] == a[0] && (b[0] + [NUL])[..|b[0]|] == b[0];
    assert |a[0] + [NUL]| == |a[0]| + 1 && |b[0] + [NUL]| == |b[0]| + 1;
    assert a == [a[0]] && b == [b[0]];
  }

  lemma {:induction false} CollisionsMoveABoundary(names: seq<string>, a: seq<string>, b: seq<string>)
    requires |a| == |b| == |names| + 1
    requires Rest(names, a) == Rest(names, b) && a != b
    ensures Movable(names, a)
  {
    if |a[0]| < |b[0]| {
      assert [] + Rest(names, b) == Rest(names, b);
      LaterBoundary(names, a, b, []);
    } else if names == [] {
      OneBody(a, b);
    } else {
      var text, marker := Rest(names, a), Marker(names[0]);
      var restA, restB := Rest(names[1..], a[1..]), Rest(names[1..], b[1..]);
      assert text == a[0] + marker + restA && text == b[0] + marker + restB;
      if |b[0]| < |a[0]| {
        var after := RestStarts(names[1..], a[1..]);
        assert At(text, |b[0]|, marker);
        assert text == a[0] + marker + (a[1] + after);
        MarkerInside(names[0], a[0], a[1], after, |b[0]|);
        assert MovableAt(names, a, 0, |b[0]|);
      } else {
        assert a[0] == text[..|a[0]|] == b[0];
        assert restA == text[|a[0]| + |marker|..] == restB;
        assert a == [a[0]] + a[1..] && b == [b[0]] + b[1..];
        CollisionsMoveABoundary(names[1..], a[1..], b[1..]);
        MovableLater(names, a);
      }
    }
  }

  /** Moving a boundary gives other bodies with the same hash input. */
  lemma {:induction false} MovedBoundaryCollides(names: seq<string>, a: seq<string>, i: nat, p: int)
      returns (b: seq<string>)
    requires |a| == |names| + 1 && i < |names| && MovableAt(names, a, i, p)
    ensures |b| == |a| && b != a && Rest(names, b) == Rest(names, a)
  {
    if i > 0 {
      var rest := MovedBoundaryCollides(names[1..], a[1..], i - 1, p);
      b := [a[0]] + rest;
      assert b[1..] == rest && a == [a[0]] + a[1..];
    } else {
      var marker := Marker(names[0]);
      var text := a[0] + marker + a[1];
      var before, behind := text[..p], text[p + |marker|..];
      b := [before, behind] + a[2..];
      assert |before| != |a[0]|;
      assert text == before + marker + behind;
      SwapSecond(names[1..], a[1..], behind, b[1..]);
      var after := RestStarts(names[1..], a[1..]);
      assert Rest(names, a) == text + after;
      assert Rest(names, b) == before + marker + (behind + after);
      assert before + marker + (behind + after) == text + after;
    }
  }

  lemma SwapSecond(names: seq<string>, a: seq<string>, body: string, b: seq<string>)
    requires |a| == |names| + 1 && b == [body] + a[1..]
    ensures forall after :: Rest(names, a) == a[0] + after ==> Rest(names, b) == body + after
  {
    assert b[1..] == a[1..];
    var rest := if names == [] then [NUL] else Marker(names[0]) + Rest(names[1..], a[1..]);
    assert names != [] ==> a[0] + Marker(names[0]) + Rest(names[1..], a[1..]) == a[0] + rest;
    assert names != [] ==> body + Marker(names[0]) + Rest(names[1..], a[1..]) == body + rest;
    forall after | Rest(names, a) == a[0] + after ensures Rest(names, b) == body + after {
      assert rest == (a[0] + rest)[|a[0]|..] == (a[0] + after)[|a[0]|..] == after;
    }
  }

  /** Exactly when a list of bodies shares its hash input with another one. */
  lemma AmbiguousExactlyWhenMovable(files: seq<string>, a: seq<string>)
    requires |files| == |a| && files != []
    ensures (exists b: seq<string> :: |b| == |files| && b != a && Frame(files, b) == Frame(files, a))
      <==> Movable(files[1..], a)
  {
    var names := files[1..];
    forall b: seq<string> | |b| == |files|
      ensures Frame(files, b) == Frame(files, a) <==> Rest(names, b) == Rest(names, a)
    {
      FrameIsRest(files, a);
      FrameIsRest(files, b);
      SamePrefix(files[0] + [NUL], Rest(names, a), Rest(names, b));
    }
    if b: seq<string> :| |b| == |files| && b != a && Frame(files, b) == Frame(files, a) {
      CollisionsMoveABoundary(names, a, b);
    }
    if Movable(names, a) {
      var i: nat, p: int :| i < |names| && MovableAt(names, a, i, p);
      var b := MovedBoundaryCollides(names, a, i, p);
    }
  }

  /** In particular, bodies without a NUL byte share it with no list at all. */
  lemma NulFreeIsUnambiguous(files: seq<string>, a: seq<string>)
    requires |files| == |a| && files != [] && NulFree(files) && NulFree(a)
    ensures !Movable(files[1..], a)
  {
    var names := files[1..];
    forall i: nat, p: int | i < |names| && p != |a[i]| ensures !MovableAt(names, a, i, p) {
      var marker := Marker(names[i]);
      var text := a[i] + marker + a[i + 1];
      assert NUL !in a[i] && NUL !in a[i + 1] && NUL !in files[i + 1];
      var n := |a[i]| + |marker|;
      assert forall k :: 0 <= k < |text| ==>
        (text[k] == if k < |a[i]| then a[i][k] else if k < n then marker[k - |a[i]|] else a[i + 1][k - n]);
      assert forall k :: 0 < k < |marker| - 1 ==> marker[k] == names[i][k - 1];
      assert forall k :: 0 <= k < |text| && text[k] == NUL ==> k == |a[i]| || k == n - 1;
      assert 0 <= p && p + |marker| <= |text| ==> text[p..p + |marker|][0] == text[p];
      assert 0 <= p && p + |marker| <= |text| ==> text[p..p + |marker|][|marker| - 1] == text[p + |marker| - 1];
    }
  }

  lemma SamePrefix(prefix: string, a: string, b: string)
    ensures prefix + a == prefix + b <==> a == b
  {
    assert (prefix + a)[|prefix|..] == a && (prefix + b)[|prefix|..] == b;
  }

  /** With NUL bytes they cannot: a body may hold what looks like the start of the next file. */
  lemma FramingCollides()
    ensures Frame(["p", "q"], ["1", "2" + [NUL] + "q" + [NUL] + "3"])
         == Frame(["p", "q"], ["1" + [NUL] + "q" + [NUL] + "2", "3"])
  {
    var files := ["p", "q"];
    var a, b := ["1", "2" + [NUL] + "q" + [NUL] + "3"], ["1" + [NUL] + "q" + [NUL] + "2", "3"];
    assert files[1..] == ["q"] && a[1..] == [a[1]] && b[1..] == [b[1]];
    assert ["q"][1..] == [] && [a[1]][1..] == [] && [b[1]][1..] == [];
    assert Frame(["q"], [a[1]]) == "q" + [NUL] + a[1] + [NUL];
    assert Frame(["q"], [b[1]]) == "q" + [NUL] + b[1] + [NUL];
    assert Frame(files, a) == "p" + [NUL] + a[0] + [NUL] + ("q" + [NUL] + a[1] + [NUL]);
    assert Frame(files, b) == "p" + [NUL] + b[0] + [NUL] + ("q" + [NUL] + b[1] + [NUL]);
  }
}
