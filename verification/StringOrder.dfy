/**
The lexicographic order of strings, and what a sorted map finds with it.
*/
module StringOrder {
  import opened Options

  predicate Below(a: string, b: string)
    decreases |a|
  {
    b != [] && (a == [] || a[0] < b[0] || (a[0] == b[0] && Below(a[1..], b[1..])))
  }

  predicate UpTo(a: string, b: string) { a == b || Below(a, b) }

  lemma {:induction false} BelowIrreflexive(a: string)
    ensures !Below(a, a)
    decreases |a|
  {
    if a != [] { BelowIrreflexive(a[1..]); }
  }

  lemma {:induction false} BelowTransitive(a: string, b: string, c: string)
    requires Below(a, b) && Below(b, c)
    ensures Below(a, c)
    decreases |a|
  {
    if a != [] && a[0] == b[0] && b[0] == c[0] { BelowTransitive(a[1..], b[1..], c[1..]); }
  }

  lemma {:induction false} BelowTotal(a: string, b: string)
    ensures Below(a, b) || a == b || Below(b, a)
    decreases |a|
  {
    if a != [] && b != [] && a[0] == b[0] {
      BelowTotal(a[1..], b[1..]);
      assert a == [a[0]] + a[1..] && b == [b[0]] + b[1..];
    }
  }

  lemma UpToTransitive(a: string, b: string, c: string)
    requires UpTo(a, b) && UpTo(b, c)
    ensures UpTo(a, c)
  {
    if Below(a, b) && Below(b, c) { BelowTransitive(a, b, c); }
  }

  lemma UpToAntisymmetric(a: string, b: string)
    requires UpTo(a, b) && UpTo(b, a)
    ensures a == b
  {
    if a != b { BelowTransitive(a, b, a); BelowIrreflexive(a); }
  }

  lemma UpToTotal(a: string, b: string)
    ensures UpTo(a, b) || UpTo(b, a)
  {
    BelowTotal(a, b);
  }

  // ---------------------------------------------------------------- the first element not below a key

  ghost predicate IsFirst(ks: set<string>, key: string, b: string) {
    b in ks && UpTo(key, b) && forall c :: c in ks && UpTo(key, c) ==> UpTo(b, c)
  }

  ghost predicate Reaches(ks: set<string>, key: string) {
    exists b :: b in ks && UpTo(key, b)
  }

  lemma {:induction false} FirstExists(ks: set<string>, key: string) returns (b: string)
    requires Reaches(ks, key)
    ensures IsFirst(ks, key, b)
    decreases ks
  {
    var x :| x in ks && UpTo(key, x);
    var rest := ks - {x};
    assert forall c :: c in ks ==> c == x || c in rest;
    if Reaches(rest, key) {
      var y := FirstExists(rest, key);
      UpToTotal(x, y);
      if UpTo(x, y) {
        b := x;
        forall c | c in ks && UpTo(key, c) ensures UpTo(b, c) { if c != x { UpToTransitive(x, y, c); } }
      } else {
        b := y;
      }
    } else {
      b := x;
    }
  }

  lemma FirstUnique(ks: set<string>, key: string, a: string, b: string)
    requires IsFirst(ks, key, a) && IsFirst(ks, key, b)
    ensures a == b
  {
    UpToAntisymmetric(a, b);
  }

  /** The first element that is not below `key`. */
  ghost function First(ks: set<string>, key: string): (b: string)
    requires Reaches(ks, key)
    ensures IsFirst(ks, key, b)
  {
    assert exists b :: IsFirst(ks, key, b) by { var b := FirstExists(ks, key); }
    var b :| IsFirst(ks, key, b);
    b
  }

  lemma FirstIs(ks: set<string>, key: string, b: string)
    requires IsFirst(ks, key, b)
    ensures Reaches(ks, key) && First(ks, key) == b
  {
    FirstUnique(ks, key, First(ks, key), b);
  }

  lemma EmptyFirst(c: string)
    ensures UpTo("", c)
  {
  }

  lemma LowerThanAll(ks: set<string>)
    ensures ks != {} ==> Reaches(ks, "")
  {
    if ks != {} { var x :| x in ks; EmptyFirst(x); }
  }

  /** The first of `ks` that is not below `key`. */
  method FindFirst(ks: set<string>, key: string) returns (r: Option<string>)
    ensures r.Some? == Reaches(ks, key)
    ensures r.Some? ==> IsFirst(ks, key, r.value)
  {
    r := None;
    var rest := ks;
    while rest != {}
      invariant rest <= ks
      invariant r.None? ==> forall c :: c in ks && c !in rest ==> !UpTo(key, c)
      invariant r.Some? ==> r.value in ks && UpTo(key, r.value) && forall c :: c in ks && c !in rest && UpTo(key, c) ==> UpTo(r.value, c)
      decreases rest
    {
      var c :| c in rest;
      if UpTo(key, c) {
        if r.None? {
          r := Some(c);
        } else {
          UpToTotal(c, r.value);
          if UpTo(c, r.value) {
            forall d | d in ks && d !in rest && UpTo(key, d) ensures UpTo(c, d) { UpToTransitive(c, r.value, d); }
            r := Some(c);
          }
        }
      }
      rest := rest - {c};
    }
  }

  ghost predicate Ascending(s: seq<string>) {
    forall i, j :: 0 <= i < j < |s| ==> Below(s[i], s[j])
  }

  /** All of `ks` in ascending order. */
  method SortedKeys(ks: set<string>) returns (s: seq<string>)
    ensures Ascending(s) && forall k :: k in ks <==> k in s
  {
    s := [];
    var rest := ks;
    while rest != {}
      invariant rest <= ks && Ascending(s)
      invariant forall k :: k in ks <==> k in s || k in rest
      invariant forall i, k :: 0 <= i < |s| && k in rest ==> Below(s[i], k)
      decreases rest
    {
      LowerThanAll(rest);
      var r := FindFirst(rest, "");
      var b := r.value;
      forall k | k in rest && k != b ensures Below(b, k) { EmptyFirst(k); }
      s := s + [b];
      rest := rest - {b};
    }
  }
}
