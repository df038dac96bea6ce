/**
  The `perms` claim of a token: a set of permissions printed as one comma-delimited string,
  which authorization policies test with a substring pattern.
 */
module PermissionClaims {
  import opened Basics
  import opened StringOrder
  import opened Text

  datatype Permission = Permission(connectionId: string, capability: string)

  predicate Encodable(component: string) {
    component != "" && Trimmed(component) && ',' !in component && '|' !in component
  }

  predicate Valid(p: Permission) { Encodable(p.connectionId) && Encodable(p.capability) }

  /** Role markers hold everywhere, so that they are written without a connection. */
  predicate IsRole(capability: string) { "role:" <= capability }

  function Element(p: Permission): string {
    if IsRole(p.capability) then p.capability else p.connectionId + "|" + p.capability
  }

  function Elements(permissions: seq<Permission>): seq<string> {
    seq(|permissions|, i requires 0 <= i < |permissions| => Element(permissions[i]))
  }

  /** `",".join(s)`. */
  function Join(s: seq<string>): string {
    if s == [] then "" else if |s| == 1 then s[0] else s[0] + "," + Join(s[1..])
  }

  function Claim(elements: seq<string>): string { "," + Join(Sort(elements)) + "," }

  /** A text that would not come back out of the claim: nothing, padded, or with one of the delimiters. */
  ghost predicate Unprintable(text: string) {
    |text| == 0 || IsSpace(text[0]) || IsSpace(text[|text| - 1])
    || exists i :: 0 <= i < |text| && (text[i] == ',' || text[i] == '|')
  }

  /** `_encode_permissions`, for the order in which the set happens to be iterated: it is
      refused exactly when some permission has a part that cannot be printed. */
  method EncodePermissions(permissions: seq<Permission>) returns (r: Result<string, string>)
    ensures r.Err? <==>
      exists i :: 0 <= i < |permissions|
        && (Unprintable(permissions[i].connectionId) || Unprintable(permissions[i].capability))
    ensures r.Ok? ==> r.value == Claim(Elements(permissions))
  {
    var encoded: seq<string> := [];
    for i := 0 to |permissions|
      invariant forall k :: 0 <= k < i ==>
        !Unprintable(permissions[k].connectionId) && !Unprintable(permissions[k].capability)
      invariant |encoded| == i && forall k :: 0 <= k < i ==> encoded[k] == Element(permissions[k])
    {
      var p := permissions[i];
      if !Encodable(p.connectionId) || !Encodable(p.capability) {
        return Err("a permission that a claim cannot hold");
      }
      if IsRole(p.capability) {
        encoded := encoded + [p.capability];
      } else {
        encoded := encoded + [p.connectionId + "|" + p.capability];
      }
    }
    assert encoded == Elements(permissions);
    return Ok("," + Join(Sort(encoded)) + ",");
  }

  // ---- The substring test ----

  /** What a policy's `like "*pattern*"` tests. */
  ghost predicate Contains(text: string, pattern: string) {
    exists p :: At(text, p, pattern)
  }

  predicate IsToken(s: string) { s != "" && ',' !in s }

  function Delimited(x: string): string { "," + x + "," }

  /** After a comma, the text up to the next comma is the first element. */
  lemma FirstToken(x: string, e: string, rest: string)
    requires IsToken(x) && ',' !in e
    ensures At("," + e + "," + rest, 0, Delimited(x)) <==> x == e
  {
    var text, pattern := "," + e + "," + rest, Delimited(x);
    UntilStops(e, ',', rest);
    assert text[1..] == e + "," + rest;
    if At(text, 0, pattern) {
      var after := text[|pattern|..];
      assert text == pattern + after;
      assert text[1..] == x + "," + after;
      UntilStops(x, ',', after);
    }
    if x == e { assert text[..|pattern|] == pattern; }
  }

  /** An occurrence that does not start at the first comma starts at a later one. */
  lemma LaterToken(e: string, tail: string, p: int, x: string)
    requires ',' !in e && p != 0
    ensures At("," + e + tail, p, Delimited(x)) <==> At(tail, p - 1 - |e|, Delimited(x))
  {
    var text, pattern := "," + e + tail, Delimited(x);
    if 0 < p && p + |pattern| <= |text| {
      assert p <= |e| ==> text[p] == e[p - 1];
      assert text[p..p + |pattern|] == pattern ==> text[p..p + |pattern|][0] == text[p] == ',';
      assert p > |e| ==> text[p..p + |pattern|] == tail[p - 1 - |e|..p - 1 - |e| + |pattern|];
    }
  }

  lemma Cons(x: string, e: string, tail: string)
    requires IsToken(x) && ',' !in e && tail != "" && tail[0] == ','
    ensures Contains("," + e + tail, Delimited(x)) <==> x == e || Contains(tail, Delimited(x))
  {
    var text := "," + e + tail;
    assert text == "," + e + "," + tail[1..];
    FirstToken(x, e, tail[1..]);
    if p :| At(text, p, Delimited(x)) {
      if p != 0 {
        LaterToken(e, tail, p, x);
        assert At(tail, p - 1 - |e|, Delimited(x));
      }
    }
    if q :| At(tail, q, Delimited(x)) {
      LaterToken(e, tail, q + 1 + |e|, x);
      assert At(text, q + 1 + |e|, Delimited(x));
    }
  }

  /** A text that is shorter than a delimited token does not contain it. */
  lemma TooShort(text: string, x: string)
    requires |text| < |x| + 2
    ensures !Contains(text, Delimited(x))
  {
  }

  lemma TokenHasText(x: string)
    requires IsToken(x)
    ensures x != "" && ',' !in x
  {
  }

  lemma DelimitedJoin(elements: seq<string>)
    requires |elements| > 1
    ensures Delimited(Join(elements)) == "," + elements[0] + Delimited(Join(elements[1..]))
  {
  }

  lemma DelimitedStarts(s: string)
    ensures Delimited(s) != "" && Delimited(s)[0] == ','
  {
  }

  /** A delimited token occurs in a joined list exactly when it is one of the elements. */
  lemma {:induction false} JoinMembership(x: string, elements: seq<string>)
    requires IsToken(x) && forall e :: e in elements ==> IsToken(e)
    ensures Contains(Delimited(Join(elements)), Delimited(x)) <==> x in elements
  {
    if elements == [] {
      TooShort(Delimited(""), x);
    } else if |elements| == 1 {
      hide Contains;
      assert Delimited(Join(elements)) == "," + elements[0] + ",";
      assert elements[0] in elements;
      TooShort(",", x);
      Cons(x, elements[0], ",");
    } else {
      hide Contains, Delimited, Join, IsToken;
      var first, rest := elements[0], elements[1..];
      assert elements == [first] + rest;
      DelimitedJoin(elements);
      DelimitedStarts(Join(rest));
      TokenHasText(first);
      Cons(x, first, Delimited(Join(rest)));
      JoinMembership(x, rest);
    }
  }

  lemma {:induction false} ElementsAreTokens(permissions: seq<Permission>)
    requires forall i :: 0 <= i < |permissions| ==> Valid(permissions[i])
    ensures forall e :: e in Elements(permissions) ==> IsToken(e)
  {
    forall e | e in Elements(permissions) ensures IsToken(e) {
      var i :| 0 <= i < |permissions| && e == Element(permissions[i]);
      assert Valid(permissions[i]);
    }
  }

  /** Soundness of the test: for every nonempty comma-free token. */
  lemma ClaimMembership(permissions: seq<Permission>, x: string)
    requires IsToken(x) && forall i :: 0 <= i < |permissions| ==> Valid(permissions[i])
    ensures Contains(Claim(Elements(permissions)), Delimited(x)) <==> x in Elements(permissions)
  {
    ElementsAreTokens(permissions);
    SortSorts(Elements(permissions));
    JoinMembership(x, Sort(Elements(permissions)));
  }

  /** The printed form of a permission tells whether it is a role, and which permission it is. */
  lemma ElementIsRole(p: Permission, role: string)
    requires '|' !in role
    ensures Element(p) == role ==> IsRole(p.capability) && p.capability == role
  {
    assert (p.connectionId + "|" + p.capability)[|p.connectionId|] == '|';
  }

  lemma ElementIsScoped(p: Permission, c: string, k: string)
    requires Valid(p) && '|' !in c && '|' !in k
    ensures Element(p) == c + "|" + k ==> p == Permission(c, k)
  {
    UntilStops(c, '|', k);
    UntilStops(p.connectionId, '|', p.capability);
    assert (c + "|" + k)[|c| + 1..] == k;
    assert (p.connectionId + "|" + p.capability)[|p.connectionId| + 1..] == p.capability;
    assert '|' in c + "|" + k by { assert (c + "|" + k)[|c|] == '|'; }
  }

  /** The administrator pattern matches exactly the holders of that role, on any connection. */
  lemma RoleTest(permissions: seq<Permission>, role: string)
    requires "role:" <= role && ',' !in role && '|' !in role
    requires forall i :: 0 <= i < |permissions| ==> Valid(permissions[i])
    ensures Contains(Claim(Elements(permissions)), Delimited(role))
      <==> exists i :: 0 <= i < |permissions| && permissions[i].capability == role
  {
    ClaimMembership(permissions, role);
    if role in Elements(permissions) {
      var i :| 0 <= i < |permissions| && Elements(permissions)[i] == role;
      ElementIsRole(permissions[i], role);
    }
    if i :| 0 <= i < |permissions| && permissions[i].capability == role {
      assert Elements(permissions)[i] == role;
    }
  }

  /** A scoped pattern matches exactly the holders of that capability on that connection. */
  lemma ScopedTest(permissions: seq<Permission>, c: string, k: string)
    requires ',' !in c && '|' !in c && ',' !in k && '|' !in k && !("role:" <= k)
    requires forall i :: 0 <= i < |permissions| ==> Valid(permissions[i])
    ensures Contains(Claim(Elements(permissions)), Delimited(c + "|" + k)) <==> Permission(c, k) in permissions
  {
    var x := c + "|" + k;
    ClaimMembership(permissions, x);
    if x in Elements(permissions) {
      var i :| 0 <= i < |permissions| && Elements(permissions)[i] == x;
      ElementIsScoped(permissions[i], c, k);
    }
    if Permission(c, k) in permissions {
      var i :| 0 <= i < |permissions| && permissions[i] == Permission(c, k);
      assert Elements(permissions)[i] == x;
    }
  }

  // ---- Iteration order, and what the claim determines ----

  lemma RemoveAt<T>(s: seq<T>, j: nat)
    requires j < |s|
    ensures multiset(s[..j] + s[j + 1..]) == multiset(s) - multiset{s[j]}
  {
    assert s == s[..j] + ([s[j]] + s[j + 1..]);
  }

  lemma ElementsRemoveAt(s: seq<Permission>, j: nat)
    requires j < |s|
    ensures Element(s[j]) in multiset(Elements(s))
    ensures multiset(Elements(s[..j] + s[j + 1..])) == multiset(Elements(s)) - multiset{Element(s[j])}
  {
    var elements := Elements(s);
    assert elements[j] == Element(s[j]);
    RemoveAt(elements, j);
    assert elements[..j] + elements[j + 1..] == Elements(s[..j] + s[j + 1..]);
  }

  lemma Match(a: seq<Permission>, b: seq<Permission>) returns (j: nat)
    requires multiset(a) == multiset(b) && a != []
    ensures j < |b| && b[j] == a[0]
    ensures multiset(a[..0] + a[0 + 1..]) == multiset(b[..j] + b[j + 1..])
  {
    assert a[0] in multiset(b);
    j :| 0 <= j < |b| && b[j] == a[0];
    RemoveAt(a, 0);
    RemoveAt(b, j);
  }

  lemma {:induction false} ElementsFollowMultiset(a: seq<Permission>, b: seq<Permission>)
    requires multiset(a) == multiset(b)
    ensures multiset(Elements(a)) == multiset(Elements(b))
  {
    if a == [] {
      assert |multiset(b)| == 0;
    } else {
      var j := Match(a, b);
      ElementsFollowMultiset(a[..0] + a[0 + 1..], b[..j] + b[j + 1..]);
      ElementsRemoveAt(a, 0);
      ElementsRemoveAt(b, j);
      Restore(multiset(Elements(a)), multiset(Elements(b)), Element(a[0]));
    }
  }

  lemma Restore(a: multiset<string>, b: multiset<string>, x: string)
    requires x in a && x in b && a - multiset{x} == b - multiset{x}
    ensures a == b
  {
    assert a == (a - multiset{x}) + multiset{x};
  }

  /** The claim does not depend on the order in which the set is iterated. */
  lemma ClaimIgnoresOrder(a: seq<Permission>, b: seq<Permission>)
    requires multiset(a) == multiset(b)
    ensures Claim(Elements(a)) == Claim(Elements(b))
  {
    ElementsFollowMultiset(a, b);
    SortSorts(Elements(a));
    SortSorts(Elements(b));
    SortedUnique(Sort(Elements(a)), Sort(Elements(b)));
  }

  /** Equal claims grant the same: the same scoped permissions and the same roles. */
  lemma ClaimDetermines(a: seq<Permission>, b: seq<Permission>, p: Permission)
    requires forall i :: 0 <= i < |a| ==> Valid(a[i])
    requires forall i :: 0 <= i < |b| ==> Valid(b[i])
    requires Claim(Elements(a)) == Claim(Elements(b))
    requires p in a
    ensures if "role:" <= p.capability then exists i :: 0 <= i < |b| && b[i].capability == p.capability else p in b
  {
    if IsRole(p.capability) {
      RoleTest(a, p.capability);
      RoleTest(b, p.capability);
    } else {
      ScopedTest(a, p.connectionId, p.capability);
      ScopedTest(b, p.connectionId, p.capability);
    }
  }
}
