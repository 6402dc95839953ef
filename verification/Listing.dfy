/**
Listing a bucket page by page (`list_objects_v2`). The files of the bucket are
taken in ascending order; a page goes from the first file past the marker to
where its key count is used up, and its continuation token is the key of the
last file it looked at.
*/
module Listing {
  import opened Options
  import opened StringOrder

  const DEFAULT_MAX := 1000

  /** Which of the files to list. */
  datatype Filter = Filter(bucket: string, prefix: Option<string>, delimiter: Option<string>)
  {
    /** Where the bucket's files live. */
    function Base(): string { "/" + bucket + "/" }

    function PrefixLength(): nat { if prefix.Some? then |prefix.value| else 0 }
  }

  datatype Query = Query(filter: Filter, maxKeys: Option<int>, startAfter: Option<string>, token: Option<string>)
  {
    function Max(): int { if maxKeys.Some? then maxKeys.value else DEFAULT_MAX }

    /** `startAfter` is preferred to the continuation token. */
    function Marker(): string {
      if startAfter.Some? then startAfter.value else if token.Some? then token.value else ""
    }
  }

  datatype Page = Page(
    contents: seq<string>,
    commonPrefixes: seq<string>,
    truncated: bool,
    nextToken: Option<string>)

  // ---------------------------------------------------------------- one file

  predicate EndsWith(s: string, suffix: string) {
    |suffix| <= |s| && s[|s| - |suffix|..] == suffix
  }

  predicate Internal(f: string) {
    EndsWith(f, ".s3keep") || EndsWith(f, ".s3_mpu_completed") || EndsWith(f, ".meta")
  }

  /** The first place where `d` occurs in `s`. */
  function Find(s: string, d: string): (r: Option<nat>)
    ensures r.Some? ==> r.value + |d| <= |s| && s[r.value..r.value + |d|] == d
  {
    if d <= s then Some(0)
    else if s == [] then None
    else
      var rest := Find(s[1..], d);
      if rest.None? then None else Some(rest.value + 1)
  }

  ghost predicate OccursAt(s: string, d: string, i: nat) {
    i + |d| <= |s| && s[i..i + |d|] == d
  }

  lemma {:induction false} FindIsFirst(s: string, d: string)
    ensures Find(s, d).None? <==> forall i: nat :: !OccursAt(s, d, i)
    ensures Find(s, d).Some? ==> OccursAt(s, d, Find(s, d).value) && forall i: nat :: i < Find(s, d).value ==> !OccursAt(s, d, i)
    decreases |s|
  {
    assert OccursAt(s, d, 0) <==> d <= s;
    if !(d <= s) && s != [] {
      FindIsFirst(s[1..], d);
      forall i: nat | i > 0 ensures OccursAt(s, d, i) <==> OccursAt(s[1..], d, i - 1) { OccursLater(s, d, i); }
    }
    if Find(s, d).Some? { assert OccursAt(s, d, Find(s, d).value); }
  }

  lemma OccursLater(s: string, d: string, i: nat)
    requires s != [] && i > 0
    ensures OccursAt(s, d, i) <==> OccursAt(s[1..], d, i - 1)
  {
    if i + |d| <= |s| { assert s[1..][i - 1..i - 1 + |d|] == s[i..i + |d|]; }
  }

  /** A file is left out, folded into a common prefix, or listed under its key. */
  datatype Kind = Hidden | Folded(prefix: string) | Listed(key: string)

  function KeyOf(w: Filter, f: string): string { if w.Base() <= f then f[|w.Base()|..] else f }

  function Classify(w: Filter, f: string): (k: Kind)
    ensures k.Listed? ==> k.key == KeyOf(w, f)
  {
    var key := KeyOf(w, f);
    if Internal(f) || !(w.Base() <= f) || (w.prefix.Some? && !(w.prefix.value <= key)) then Hidden
    else if w.delimiter.None? then Listed(key)
    else
      var at := Find(key[w.PrefixLength()..], w.delimiter.value);
      if at.None? then Listed(key)
      else Folded(key[..w.PrefixLength() + at.value + |w.delimiter.value|])
  }

  /** A marker file, a completed upload or a metadata file: some name followed by a reserved ending. */
  ghost predicate Reserved(f: string) {
    exists s :: f == s + ".s3keep" || f == s + ".s3_mpu_completed" || f == s + ".meta"
  }

  lemma InternalMeans(f: string)
    ensures Internal(f) <==> Reserved(f)
  {
    EndsIff(f, ".s3keep");
    EndsIff(f, ".s3_mpu_completed");
    EndsIff(f, ".meta");
  }

  lemma EndsIff(f: string, suffix: string)
    ensures EndsWith(f, suffix) <==> exists s :: f == s + suffix
  {
    if EndsWith(f, suffix) { assert f == f[..|f| - |suffix|] + suffix; }
  }

  /** What a query asks to see: the file with this key in the bucket, not reserved, under the prefix. */
  ghost predicate Wanted(w: Filter, f: string, key: string) {
    f == "/" + w.bucket + "/" + key && !Reserved(f) && (w.prefix.Some? ==> exists rest :: key == w.prefix.value + rest)
  }

  lemma KeyOnly(w: Filter, f: string, key: string)
    ensures f == "/" + w.bucket + "/" + key <==> w.Base() <= f && key == KeyOf(w, f)
  {
    if w.Base() <= f { assert f == w.Base() + f[|w.Base()|..]; }
    if f == "/" + w.bucket + "/" + key { assert f == w.Base() + key; }
  }

  lemma PrefixIff(p: string, key: string)
    ensures p <= key <==> exists rest :: key == p + rest
  {
    if p <= key { assert key == p + key[|p|..]; }
  }

  lemma WantedIff(w: Filter, f: string, key: string)
    ensures Wanted(w, f, key) <==> key == KeyOf(w, f) && !Classify(w, f).Hidden?
  {
    hide Find, Internal, Reserved, KeyOf;
    InternalMeans(f);
    KeyOnly(w, f, key);
    if w.prefix.Some? { PrefixIff(w.prefix.value, key); }
  }

  /** A file with key `key`, under a prefix of `p` characters, that shows is listed unless the delimiter occurs after the prefix; then it
      is folded into its key up to and including the first occurrence. */
  ghost predicate Shows(key: string, p: nat, d: Option<string>, kind: Kind) {
    && p <= |key|
    && (kind == Listed(key) <==> d.None? || forall i: nat :: !OccursAt(key[p..], d.value, i))
    && (kind.Folded? ==> d.Some? && exists i: nat :: FoldedAt(key, p, d.value, kind, i))
  }

  /** Folded at place `i` after the first `p` characters, where the delimiter occurs for the first time. */
  ghost predicate FoldedAt(key: string, p: nat, d: string, kind: Kind, i: nat)
    requires p <= |key|
  {
    && OccursAt(key[p..], d, i) && kind == Folded(key[..p + i + |d|])
    && forall j: nat :: j < i ==> !OccursAt(key[p..], d, j)
  }

  lemma ShownAs(w: Filter, f: string)
    requires !Classify(w, f).Hidden?
    ensures Shows(KeyOf(w, f), if w.prefix.Some? then |w.prefix.value| else 0, w.delimiter, Classify(w, f))
  {
    hide Find, Internal, KeyOf;
    if w.delimiter.Some? {
      var key, p, d := KeyOf(w, f), w.PrefixLength(), w.delimiter.value;
      FindIsFirst(key[p..], d);
      var at := Find(key[p..], d);
      if at.Some? {
        assert FoldedAt(key, p, d, Classify(w, f), at.value);
      }
    }
  }

  /** Exactly the wanted files show, as the prefix and the delimiter ask. */
  lemma ClassifyMeans(w: Filter, f: string)
    ensures Classify(w, f).Hidden? <==> forall key :: !Wanted(w, f, key)
    ensures forall key :: Wanted(w, f, key) ==>
              Shows(key, if w.prefix.Some? then |w.prefix.value| else 0, w.delimiter, Classify(w, f))
  {
    hide Classify, Wanted, KeyOf, Shows;
    forall key ensures Wanted(w, f, key) <==> key == KeyOf(w, f) && !Classify(w, f).Hidden? { WantedIff(w, f, key); }
    if !Classify(w, f).Hidden? { ShownAs(w, f); assert Wanted(w, f, KeyOf(w, f)); }
  }

  function Kinds(w: Filter): string -> Kind { f => Classify(w, f) }

  // ---------------------------------------------------------------- a run of files

  /** The key of a file, if it is listed. */
  function Entry(kind: string -> Kind, f: string): (r: seq<string>)
    ensures |r| <= 1
  {
    var k := kind(f);
    if k.Listed? then [k.key] else []
  }

  /** The keys of the files that are listed. */
  function Keys(kind: string -> Kind, files: seq<string>): seq<string> {
    if files == [] then [] else Keys(kind, files[..|files| - 1]) + Entry(kind, files[|files| - 1])
  }

  /** With one more file; each prefix is given once. */
  function Fold(kind: string -> Kind, before: seq<string>, f: string): seq<string> {
    var k := kind(f);
    if k.Folded? && k.prefix !in before then before + [k.prefix] else before
  }

  /** The common prefixes that files are folded into, as they come up. */
  function Prefixes(kind: string -> Kind, files: seq<string>): seq<string> {
    if files == [] then [] else Fold(kind, Prefixes(kind, files[..|files| - 1]), files[|files| - 1])
  }

  lemma {:induction false} KeysAppend(kind: string -> Kind, a: seq<string>, b: seq<string>)
    ensures Keys(kind, a + b) == Keys(kind, a) + Keys(kind, b)
  {
    hide Entry;
    if b == [] {
      assert a + b == a;
    } else {
      var last := |b| - 1;
      KeysAppend(kind, a, b[..last]);
      assert (a + b)[..|a + b| - 1] == a + b[..last] && (a + b)[|a + b| - 1] == b[last];
    }
  }

  /** Runs that share no common prefix. */
  lemma {:induction false} PrefixesAppend(kind: string -> Kind, a: seq<string>, b: seq<string>)
    requires forall i, j :: 0 <= i < |a| && 0 <= j < |b| && kind(b[j]).Folded? ==> kind(a[i]) != kind(b[j])
    ensures Prefixes(kind, a + b) == Prefixes(kind, a) + Prefixes(kind, b)
    decreases |b|
  {
    hide Fold;
    if b == [] {
      assert a + b == a;
    } else {
      var last := |b| - 1;
      PrefixesAppend(kind, a, b[..last]);
      assert (a + b)[..|a + b| - 1] == a + b[..last] && (a + b)[|a + b| - 1] == b[last];
      if kind(b[last]).Folded? && kind(b[last]).prefix in Prefixes(kind, a) {
        var i := FoldedBy(kind, a, kind(b[last]).prefix);
      }
      FoldApart(kind, Prefixes(kind, a), Prefixes(kind, b[..last]), b[last]);
    }
  }

  lemma FoldApart(kind: string -> Kind, a: seq<string>, b: seq<string>, f: string)
    requires kind(f).Folded? ==> kind(f).prefix !in a
    ensures Fold(kind, a + b, f) == a + Fold(kind, b, f)
  {
  }

  lemma {:induction false} FoldedBy(kind: string -> Kind, files: seq<string>, p: string) returns (i: nat)
    requires p in Prefixes(kind, files)
    ensures i < |files| && kind(files[i]) == Folded(p)
    decreases |files|
  {
    var last := |files| - 1;
    if p in Prefixes(kind, files[..last]) { i := FoldedBy(kind, files[..last], p); } else { i := last; }
  }

  lemma FoldHas(kind: string -> Kind, before: seq<string>, f: string, p: string)
    ensures p in Fold(kind, before, f) <==> p in before || kind(f) == Folded(p)
  {
  }

  /** One more file at the end of a run. */
  lemma RunStep(kind: string -> Kind, files: seq<string>, first: nat, i: nat)
    requires first <= i < |files|
    ensures Keys(kind, files[first..i + 1]) == Keys(kind, files[first..i]) + Entry(kind, files[i])
    ensures Prefixes(kind, files[first..i + 1]) == Fold(kind, Prefixes(kind, files[first..i]), files[i])
  {
    var run := files[first..i + 1];
    assert run[..|run| - 1] == files[first..i] && run[|run| - 1] == files[i];
  }

  lemma EmptyRun(kind: string -> Kind, files: seq<string>, i: nat)
    requires i <= |files|
    ensures Keys(kind, files[i..i]) == [] && Prefixes(kind, files[i..i]) == []
  {}

  lemma {:induction false} KeysShort(kind: string -> Kind, files: seq<string>)
    ensures |Keys(kind, files)| <= |files|
  {
    if files != [] { KeysShort(kind, files[..|files| - 1]); }
  }

  // ---------------------------------------------------------------- one page

  /** The files of a bucket, in order. */
  ghost predicate InOrder(w: Filter, files: seq<string>) {
    Ascending(files) && forall i :: 0 <= i < |files| ==> w.Base() <= files[i]
  }

  function Past(files: seq<string>, path: string): (i: nat)
    ensures i <= |files| && (i < |files| ==> Below(path, files[i])) && forall j :: 0 <= j < i ==> !Below(path, files[j])
  {
    if files == [] || Below(path, files[0]) then 0 else 1 + Past(files[1..], path)
  }

  /** The first file past the marker. */
  function FirstFile(q: Query, files: seq<string>): (i: nat)
    ensures i <= |files|
  {
    if q.Marker() == "" then 0 else Past(files, q.filter.Base() + q.Marker())
  }

  /** Where a page that has `count` keys by file `i` ends. */
  function EndFrom(kind: string -> Kind, max: int, files: seq<string>, i: nat, count: nat): (e: nat)
    requires i <= |files|
    ensures i <= e <= |files|
    decreases |files| - i
  {
    if i == |files| || count >= max then i
    else EndFrom(kind, max, files, i + 1, count + |Entry(kind, files[i])|)
  }

  function End(q: Query, files: seq<string>): (e: nat)
    ensures FirstFile(q, files) <= e <= |files|
  {
    EndFrom(Kinds(q.filter), q.Max(), files, FirstFile(q, files), 0)
  }

  /** The key of the last file looked at; before the first file there is none. */
  function TokenAt(w: Filter, files: seq<string>, end: nat): Option<string>
    requires end <= |files|
  {
    if 0 < end < |files| then Some(KeyOf(w, files[end - 1])) else None
  }

  function PageOf(q: Query, files: seq<string>): Page {
    var first, end := FirstFile(q, files), End(q, files);
    Page(Keys(Kinds(q.filter), files[first..end]), Prefixes(Kinds(q.filter), files[first..end]), end < |files|, TokenAt(q.filter, files, end))
  }

  /** How many keys there are from file `first` to file `i`. */
  function Count(kind: string -> Kind, files: seq<string>, first: nat, i: nat): nat
    requires first <= i <= |files|
  {
    |Keys(kind, files[first..i])|
  }

  lemma CountStep(kind: string -> Kind, files: seq<string>, first: nat, i: nat)
    requires first <= i < |files|
    ensures Count(kind, files, first, i + 1) == Count(kind, files, first, i) + |Entry(kind, files[i])|
  {
    hide Keys, Entry;
    RunStep(kind, files, first, i);
  }

  /** A page ends at the first point where it has enough keys. */
  lemma {:induction false} EndIsFirst(kind: string -> Kind, max: int, files: seq<string>, first: nat, i: nat)
    requires first <= i <= |files|
    requires forall j :: first <= j < i ==> Count(kind, files, first, j) < max
    ensures var e := EndFrom(kind, max, files, i, Count(kind, files, first, i));
            && (e < |files| ==> Count(kind, files, first, e) >= max)
            && forall j :: first <= j < e ==> Count(kind, files, first, j) < max
    decreases |files| - i
  {
    hide Count, Entry;
    if i < |files| && Count(kind, files, first, i) < max {
      CountStep(kind, files, first, i);
      EndIsFirst(kind, max, files, first, i + 1);
    }
  }

  /** A page that is cut short moves on and is full. */
  lemma TruncatedPage(q: Query, files: seq<string>)
    requires q.Max() >= 1 && PageOf(q, files).truncated
    ensures FirstFile(q, files) < End(q, files) < |files|
    ensures |PageOf(q, files).contents| == q.Max()
    ensures Entry(Kinds(q.filter), files[End(q, files) - 1]) != []
  {
    hide Keys, Prefixes, Entry, FirstFile, EndFrom;
    var first, end := FirstFile(q, files), End(q, files);
    EmptyRun(Kinds(q.filter), files, first);
    EndIsFirst(Kinds(q.filter), q.Max(), files, first, first);
    assert Count(Kinds(q.filter), files, first, first) == 0;
    assert first < end;
    CountStep(Kinds(q.filter), files, first, end - 1);
  }

  // ---------------------------------------------------------------- following the token

  lemma {:induction false} PrefixNotBelow(p: string, f: string)
    requires p <= f
    ensures !Below(f, p)
    decreases |p|
  {
    if p != [] { PrefixNotBelow(p[1..], f[1..]); }
  }

  /** The file at the place of the bucket itself, whose key is empty, comes first. */
  lemma EmptyKeyFirst(w: Filter, files: seq<string>, i: nat)
    requires InOrder(w, files) && i < |files| && KeyOf(w, files[i]) == ""
    ensures i == 0 && files[0] == w.Base()
  {
    assert files[i] == w.Base();
    PrefixNotBelow(w.Base(), files[0]);
  }

  /** The file that a token names is the one before the next page. */
  lemma PastFile(files: seq<string>, i: nat)
    requires Ascending(files) && i < |files|
    ensures Past(files, files[i]) == i + 1
  {
    var p := Past(files, files[i]);
    BelowIrreflexive(files[i]);
    if p < i {
      assert Below(files[p], files[i]);
      BelowTransitive(files[i], files[p], files[i]);
    }
  }

  /** Following the token of a page. */
  function Next(q: Query, files: seq<string>): Query { q.(token := PageOf(q, files).nextToken) }

  /** The next page starts where this one ended, unless the last key was empty. */
  lemma NextStart(q: Query, files: seq<string>)
    requires InOrder(q.filter, files) && q.startAfter.None? && q.Max() >= 1 && PageOf(q, files).truncated
    requires KeyOf(q.filter, files[End(q, files) - 1]) != ""
    ensures FirstFile(Next(q, files), files) == End(q, files)
  {
    hide Keys, Prefixes, EndFrom, Past, Entry;
    TruncatedPage(q, files);
    var last := files[End(q, files) - 1];
    assert q.filter.Base() + KeyOf(q.filter, last) == last;
    PastFile(files, End(q, files) - 1);
  }

  /** The query for page `n` when every token is followed. */
  function QueryAt(q: Query, files: seq<string>, n: nat): Query {
    if n == 0 then q else Next(QueryAt(q, files, n - 1), files)
  }

  function Nth(q: Query, files: seq<string>, n: nat): Page { PageOf(QueryAt(q, files, n), files) }

  /** The contents of the first `n` pages. */
  function Joined(q: Query, files: seq<string>, n: nat): seq<string> {
    if n == 0 then [] else Joined(q, files, n - 1) + Nth(q, files, n - 1).contents
  }

  /** The common prefixes of the first `n` pages. */
  function JoinedPrefixes(q: Query, files: seq<string>, n: nat): seq<string> {
    if n == 0 then [] else JoinedPrefixes(q, files, n - 1) + Nth(q, files, n - 1).commonPrefixes
  }

  lemma {:induction false} SameQuery(q: Query, files: seq<string>, n: nat)
    ensures var r := QueryAt(q, files, n); r.filter == q.filter && r.maxKeys == q.maxKeys && r.startAfter == q.startAfter
  {
    hide PageOf;
    if n > 0 { SameQuery(q, files, n - 1); }
  }

  /** Pages of one key, and the first file is listed under the empty key: its token is no marker. */
  ghost predicate Sticks(q: Query, files: seq<string>) {
    q.Max() == 1 && |files| > 1 && files[0] == q.filter.Base() && Classify(q.filter, files[0]).Listed?
  }

  ghost predicate Truncated(q: Query, files: seq<string>, n: nat) {
    forall k :: 0 <= k < n ==> Nth(q, files, k).truncated
  }

  /** A listing from the start that follows only the token. */
  ghost predicate Pages(q: Query, files: seq<string>) {
    InOrder(q.filter, files) && q.Max() >= 1 && q.startAfter.None? && q.token.None?
  }

  /** The last key of a full page is only empty if paging sticks. */
  lemma LastKey(q: Query, files: seq<string>)
    requires InOrder(q.filter, files) && q.Max() >= 1 && !Sticks(q, files) && PageOf(q, files).truncated
    ensures 0 < End(q, files) && KeyOf(q.filter, files[End(q, files) - 1]) != ""
  {
    hide Keys, Prefixes, EndFrom, FirstFile, Classify, KeyOf;
    TruncatedPage(q, files);
    var first, end := FirstFile(q, files), End(q, files);
    if KeyOf(q.filter, files[end - 1]) == "" {
      EmptyKeyFirst(q.filter, files, end - 1);
      OneFile(Kinds(q.filter), files);
    }
  }

  lemma OneFile(kind: string -> Kind, files: seq<string>)
    requires files != []
    ensures Keys(kind, files[0..1]) == Entry(kind, files[0])
  {
    hide Entry;
    RunStep(kind, files, 0, 0);
    EmptyRun(kind, files, 0);
  }

  /** While pages are cut short, they cover the files from the first on without gap or overlap. */
  lemma {:induction false} PagesCover(q: Query, files: seq<string>, n: nat)
    requires Pages(q, files) && !Sticks(q, files) && Truncated(q, files, n)
    ensures FirstFile(QueryAt(q, files, n), files) >= n
    ensures Covered(q, files, n, FirstFile(QueryAt(q, files, n), files))
    ensures SplitsAt(q.filter, files, FirstFile(QueryAt(q, files, n), files))
  {
    hide Keys, Prefixes, EndFrom, FirstFile, InOrder, Sticks, PageOf, Covered, Classify, Entry;
    if n == 0 {
      NoMarker(q, files);
      NoneCovered(q, files);
    } else {
      var r := QueryAt(q, files, n - 1);
      PagesCover(q, files, n - 1);
      SameQuery(q, files, n - 1);
      assert Nth(q, files, n - 1).truncated && r.Max() == q.Max();
      SameSticks(q, r, files);
      LastKey(r, files);
      NextStart(r, files);
      TruncatedPage(r, files);
      CoverPage(q, files, n - 1);
      ListedSplits(q.filter, files, End(r, files));
    }
  }

  /** The first `n` pages hold what is to be listed of the files up to `i`. */
  ghost predicate Covered(q: Query, files: seq<string>, n: nat, i: nat)
    requires i <= |files|
  {
    && Joined(q, files, n) == Keys(Kinds(q.filter), files[..i])
    && JoinedPrefixes(q, files, n) == Prefixes(Kinds(q.filter), files[..i])
  }

  // ---------------------------------------------------------------- pages share no common prefix

  /** What lies between two extensions of `p` extends `p`. */
  lemma {:induction false} ExtensionsTogether(p: string, a: string, b: string, c: string)
    requires p <= a && p <= c && Below(a, b) && Below(b, c)
    ensures p <= b
    decreases |p|
  {
    if p != [] {
      ExtensionsTogether(p[1..], a[1..], b[1..], c[1..]);
      assert b == [b[0]] + b[1..];
    }
  }

  /** A file under a common prefix is folded, too. */
  lemma FoldedToo(w: Filter, f: string, g: string)
    requires Classify(w, f).Folded? && Classify(w, f).prefix <= KeyOf(w, g)
    ensures !Classify(w, g).Listed?
  {
    hide Find, Internal, KeyOf;
    if !Classify(w, g).Hidden? {
      var p, d := w.PrefixLength(), w.delimiter.value;
      var a, b := KeyOf(w, f), KeyOf(w, g);
      var i := Find(a[p..], d).value;
      assert a[..p + i + |d|] == b[..p + i + |d|];
      assert b[p..][i..i + |d|] == b[..p + i + |d|][p + i..] == a[..p + i + |d|][p + i..] == a[p..][i..i + |d|];
      assert OccursAt(b[p..], d, i);
      FindIsFirst(b[p..], d);
    }
  }

  /** No file that is listed lies between two files folded into one common prefix. */
  lemma NoneBetween(w: Filter, files: seq<string>, i: nat, m: nat, j: nat)
    requires InOrder(w, files) && i < m < j < |files| && Classify(w, files[m]).Listed? && Classify(w, files[i]).Folded?
    ensures Classify(w, files[i]) != Classify(w, files[j])
  {
    hide Classify, KeyOf;
    if Classify(w, files[i]) == Classify(w, files[j]) {
      var p := Classify(w, files[i]).prefix;
      FoldedPrefix(w, files[i]);
      FoldedPrefix(w, files[j]);
      KeysBelow(w, files[i], files[m]);
      KeysBelow(w, files[m], files[j]);
      ExtensionsTogether(p, KeyOf(w, files[i]), KeyOf(w, files[m]), KeyOf(w, files[j]));
      FoldedToo(w, files[i], files[m]);
    }
  }

  lemma FoldedPrefix(w: Filter, f: string)
    requires Classify(w, f).Folded?
    ensures Classify(w, f).prefix <= KeyOf(w, f)
  {
    hide Find, Internal;
  }

  /** No common prefix occurs both before and after place `i`. */
  ghost predicate SplitsAt(w: Filter, files: seq<string>, i: nat)
    requires i <= |files|
  {
    forall j, k :: 0 <= j < i <= k < |files| && Classify(w, files[k]).Folded? ==> Classify(w, files[j]) != Classify(w, files[k])
  }

  lemma ListedSplits(w: Filter, files: seq<string>, i: nat)
    requires InOrder(w, files) && 0 < i <= |files| && Entry(Kinds(w), files[i - 1]) != []
    ensures SplitsAt(w, files, i)
  {
    hide Classify, InOrder;
    forall j, k | 0 <= j < i <= k < |files| && Classify(w, files[k]).Folded? ensures Classify(w, files[j]) != Classify(w, files[k]) {
      if j < i - 1 && Classify(w, files[j]).Folded? { NoneBetween(w, files, j, i - 1, k); }
    }
  }

  lemma {:induction false} BelowDrop(p: string, a: string, b: string)
    requires Below(p + a, p + b)
    ensures Below(a, b)
  {
    if p == [] {
      assert p + a == a && p + b == b;
    } else {
      assert (p + a)[1..] == p[1..] + a && (p + b)[1..] == p[1..] + b;
      BelowDrop(p[1..], a, b);
    }
  }

  lemma KeysBelow(w: Filter, f: string, g: string)
    requires w.Base() <= f && w.Base() <= g && Below(f, g)
    ensures Below(KeyOf(w, f), KeyOf(w, g))
  {
    assert f == w.Base() + KeyOf(w, f) && g == w.Base() + KeyOf(w, g);
    BelowDrop(w.Base(), KeyOf(w, f), KeyOf(w, g));
  }

  lemma NoneCovered(q: Query, files: seq<string>)
    ensures Covered(q, files, 0, 0)
  {}

  lemma CoverPage(q: Query, files: seq<string>, n: nat)
    requires QueryAt(q, files, n).filter == q.filter
    requires Covered(q, files, n, FirstFile(QueryAt(q, files, n), files))
    requires SplitsAt(q.filter, files, FirstFile(QueryAt(q, files, n), files))
    ensures Covered(q, files, n + 1, End(QueryAt(q, files, n), files))
  {
    hide Keys, Prefixes, EndFrom, FirstFile, QueryAt, Classify;
    var r := QueryAt(q, files, n);
    var first, end := FirstFile(r, files), End(r, files);
    assert files[..first] + files[first..end] == files[..end];
    KeysAppend(Kinds(q.filter), files[..first], files[first..end]);
    PrefixesAppend(Kinds(q.filter), files[..first], files[first..end]);
  }

  lemma NoMarker(q: Query, files: seq<string>)
    requires q.Marker() == ""
    ensures FirstFile(q, files) == 0
  {}

  lemma SameSticks(q: Query, r: Query, files: seq<string>)
    requires r.filter == q.filter && r.maxKeys == q.maxKeys
    ensures Sticks(q, files) == Sticks(r, files)
  {}

  /** Following the token reaches a last page, and all pages together are the whole listing. */
  lemma PagingIsListing(q: Query, files: seq<string>) returns (n: nat)
    requires Pages(q, files) && !Sticks(q, files)
    ensures n <= |files| && Truncated(q, files, n) && !Nth(q, files, n).truncated
    ensures Joined(q, files, n + 1) == Keys(Kinds(q.filter), files)
    ensures JoinedPrefixes(q, files, n + 1) == Prefixes(Kinds(q.filter), files)
  {
    hide Keys, Prefixes, EndFrom, FirstFile, Pages, Sticks, QueryAt, PageOf, Joined, JoinedPrefixes;
    n := 0;
    while Nth(q, files, n).truncated
      invariant n <= |files| && Truncated(q, files, n)
      decreases |files| - n
    {
      MoreFiles(q, files, n);
      n := n + 1;
    }
    PagesCover(q, files, n);
    SameQuery(q, files, n);
    CoverPage(q, files, n);
    LastEnd(QueryAt(q, files, n), files);
    assert files[..|files|] == files;
  }

  lemma MoreFiles(q: Query, files: seq<string>, n: nat)
    requires Pages(q, files) && !Sticks(q, files) && Truncated(q, files, n) && Nth(q, files, n).truncated
    ensures n < |files|
  {
    hide Keys, Prefixes, EndFrom, FirstFile, Sticks, QueryAt, PageOf, Joined, JoinedPrefixes;
    PagesCover(q, files, n);
    SameQuery(q, files, n);
    TruncatedPage(QueryAt(q, files, n), files);
  }

  lemma LastEnd(q: Query, files: seq<string>)
    requires !PageOf(q, files).truncated
    ensures End(q, files) == |files|
  {}

  /** With room for all keys, one page is the whole listing. */
  lemma OnePageListsAll(q: Query, files: seq<string>)
    requires q.Marker() == "" && q.Max() >= |files|
    ensures PageOf(q, files).contents == Keys(Kinds(q.filter), files) && !PageOf(q, files).truncated
  {
    hide Keys, Prefixes, Classify, EndFrom;
    var end := End(q, files);
    NoMarker(q, files);
    EmptyRun(Kinds(q.filter), files, 0);
    EndIsFirst(Kinds(q.filter), q.Max(), files, 0, 0);
    KeysShort(Kinds(q.filter), files[0..end]);
    assert files[0..|files|] == files;
  }

  /** When paging sticks, every page is the first one. */
  lemma {:induction false} StuckForever(q: Query, files: seq<string>, n: nat)
    requires Pages(q, files) && Sticks(q, files)
    ensures FirstFile(QueryAt(q, files, n), files) == 0
    ensures Nth(q, files, n).truncated && Nth(q, files, n).contents == [""]
  {
    hide PageOf, FirstFile, Sticks;
    SameQuery(q, files, n);
    if n > 0 {
      StuckForever(q, files, n - 1);
      SameQuery(q, files, n - 1);
      SameSticks(q, QueryAt(q, files, n - 1), files);
      StuckPage(QueryAt(q, files, n - 1), files);
    }
    NoMarker(QueryAt(q, files, n), files);
    SameSticks(q, QueryAt(q, files, n), files);
    StuckPage(QueryAt(q, files, n), files);
  }

  lemma StuckPage(q: Query, files: seq<string>)
    requires Sticks(q, files) && FirstFile(q, files) == 0
    ensures PageOf(q, files).truncated && PageOf(q, files).contents == [""] && PageOf(q, files).nextToken == Some("")
  {
    hide Keys, Prefixes;
    OneFile(Kinds(q.filter), files);
    assert KeyOf(q.filter, files[0]) == "";
    assert EndFrom(Kinds(q.filter), 1, files, 1, 1) == 1;
  }

  /** Following the token ends exactly when paging does not stick. */
  lemma PagingEndsIff(q: Query, files: seq<string>)
    requires Pages(q, files)
    ensures (exists n :: !Nth(q, files, n).truncated) <==> !Sticks(q, files)
  {
    hide Nth, Sticks, Pages;
    if Sticks(q, files) {
      forall n: nat ensures Nth(q, files, n).truncated { StuckForever(q, files, n); }
    } else {
      var n := PagingIsListing(q, files);
    }
  }

  /** `startAfter` hides the token: every page is the first one. */
  lemma {:induction false} StartAfterRepeats(q: Query, files: seq<string>, n: nat)
    requires q.startAfter.Some?
    ensures Nth(q, files, n) == PageOf(q, files)
  {
    hide Keys, Prefixes, EndFrom, Past, TokenAt;
    if n > 0 { StartAfterRepeats(q, files, n - 1); }
    SameQuery(q, files, n);
  }

  // ---------------------------------------------------------------- what a listing holds

  ghost predicate ListedIn(w: Filter, files: seq<string>, k: string) {
    exists i :: 0 <= i < |files| && Classify(w, files[i]) == Listed(k)
  }

  lemma ListedLast(w: Filter, files: seq<string>, k: string)
    requires files != []
    ensures ListedIn(w, files, k) <==> ListedIn(w, files[..|files| - 1], k) || Classify(w, files[|files| - 1]) == Listed(k)
  {
    hide Classify;
    var rest := files[..|files| - 1];
    assert forall i :: 0 <= i < |rest| ==> rest[i] == files[i];
  }

  /** A listing has exactly the keys of the listed files, in order and each once. */
  lemma {:induction false} KeysExact(w: Filter, files: seq<string>)
    requires InOrder(w, files)
    ensures Ascending(Keys(Kinds(w), files))
    ensures forall k :: k in Keys(Kinds(w), files) <==> ListedIn(w, files, k)
    decreases |files|
  {
    hide Classify, KeyOf, ListedIn;
    if files == [] {
      NothingListed(w);
    } else {
      var last := |files| - 1;
      var rest, f := files[..last], files[last];
      KeysExact(w, rest);
      forall k ensures k in Keys(Kinds(w), files) <==> ListedIn(w, files, k) { ListedLast(w, files, k); }
      forall k | k in Keys(Kinds(w), rest) && Classify(w, f).Listed? ensures Below(k, KeyOf(w, f)) { ListedBelow(w, files, k); }
    }
  }

  lemma NothingListed(w: Filter)
    ensures forall k :: !ListedIn(w, [], k)
  {
  }

  lemma ListedBelow(w: Filter, files: seq<string>, k: string)
    requires InOrder(w, files) && files != [] && ListedIn(w, files[..|files| - 1], k)
    ensures Below(k, KeyOf(w, files[|files| - 1]))
  {
    hide Internal, Find;
    var rest := files[..|files| - 1];
    var i :| 0 <= i < |rest| && Classify(w, rest[i]) == Listed(k);
    assert files[i] == rest[i];
    KeysBelow(w, files[i], files[|files| - 1]);
  }

  /** Common prefixes are exactly those that files are folded into, each once. */
  lemma {:induction false} PrefixesExact(w: Filter, files: seq<string>)
    ensures forall i, j :: 0 <= i < j < |Prefixes(Kinds(w), files)| ==> Prefixes(Kinds(w), files)[i] != Prefixes(Kinds(w), files)[j]
    ensures forall p :: p in Prefixes(Kinds(w), files) <==> exists i :: 0 <= i < |files| && Classify(w, files[i]) == Folded(p)
  {
    hide Classify;
    if files != [] {
      var last := |files| - 1;
      var rest, f := files[..last], files[last];
      PrefixesExact(w, rest);
      forall p ensures p in Prefixes(Kinds(w), files) <==> exists i :: 0 <= i < |files| && Classify(w, files[i]) == Folded(p) {
        FoldHas(Kinds(w), Prefixes(Kinds(w), rest), f, p);
        if p in Prefixes(Kinds(w), rest) {
          var i :| 0 <= i < |rest| && Classify(w, rest[i]) == Folded(p);
          assert files[i] == rest[i];
        }
        if i :| 0 <= i < |files| && Classify(w, files[i]) == Folded(p) {
          if i < last { assert rest[i] == files[i]; }
        }
      }
    }
  }

  // ---------------------------------------------------------------- the handler

  /** Which file comes first; all of them when there is no marker. */
  method FindStart(q: Query, files: seq<string>) returns (start: nat)
    requires InOrder(q.filter, files)
    ensures start == FirstFile(q, files)
  {
    if q.Marker() == "" { return 0; }
    var path := q.filter.Base() + q.Marker();
    start := 0;
    while start < |files| && !Below(path, files[start])
      invariant start <= |files| && Past(files, path) == start + Past(files[start..], path)
    {
      assert files[start..][1..] == files[start + 1..];
      start := start + 1;
    }
  }

  /** The files of the bucket among all files, in order. */
  ghost predicate FilesOf(w: Filter, all: set<string>, files: seq<string>) {
    InOrder(w, files) && forall f :: f in files <==> f in all && w.Base() <= f
  }

  method ListObjectsV2(q: Query, all: set<string>) returns (page: Page)
    ensures exists files :: FilesOf(q.filter, all, files) && page == PageOf(q, files)
  {
    hide Classify, FirstFile, Keys, Prefixes;
    var w := q.filter;
    var sorted := SortedKeys(set f | f in all && w.Base() <= f);
    ghost var files := sorted;
    forall i | 0 <= i < |files| ensures w.Base() <= files[i] { assert files[i] in files; }
    var i := FindStart(q, sorted);
    ghost var first := i;
    var contents, prefixes, count := [], [], 0;
    var truncated, token := false, None;
    EmptyRun(Kinds(w), files, i);
    while i < |sorted|
      invariant first <= i <= |sorted|
      invariant contents == Keys(Kinds(w), files[first..i]) && prefixes == Prefixes(Kinds(w), files[first..i])
      invariant count == |contents| && EndFrom(Kinds(w), q.Max(), files, i, count) == End(q, files)
      invariant !truncated && token == None
    {
      if count >= q.Max() {
        truncated := true;
        if i > 0 { token := Some(KeyOf(w, sorted[i - 1])); }
        break;
      }
      RunStep(Kinds(w), files, first, i);
      match Classify(w, sorted[i]) {
        case Hidden =>
        case Folded(prefix) => if prefix !in prefixes { prefixes := prefixes + [prefix]; }
        case Listed(key) =>
          contents := contents + [key];
          count := count + 1;
      }
      i := i + 1;
    }
    assert i == End(q, files);
    page := Page(contents, prefixes, truncated, token);
    assert FilesOf(w, all, files);
  }

  /** The order of the files is determined by which files there are. */
  lemma {:induction false} OneOrder(a: seq<string>, b: seq<string>)
    requires Ascending(a) && Ascending(b) && forall f :: f in a <==> f in b
    ensures a == b
  {
    HasSome(a, b);
    HasSome(b, a);
    if a != [] {
      SameFirst(a, b);
      forall f ensures f in a[1..] <==> f in b[1..] { TailHas(a, f); TailHas(b, f); }
      OneOrder(a[1..], b[1..]);
      assert a == [a[0]] + a[1..] && b == [b[0]] + b[1..];
    }
  }

  lemma HasSome(a: seq<string>, b: seq<string>)
    requires forall f :: f in a ==> f in b
    ensures a != [] ==> b != []
  {
    if a != [] { assert a[0] in b; }
  }

  lemma SameFirst(a: seq<string>, b: seq<string>)
    requires a != [] && b != [] && Ascending(a) && Ascending(b) && forall f :: f in a <==> f in b
    ensures a[0] == b[0]
  {
    var i :| 0 <= i < |b| && b[i] == a[0] by { assert a[0] in b; }
    var j :| 0 <= j < |a| && a[j] == b[0] by { assert b[0] in a; }
    if i > 0 && j > 0 {
      BelowTransitive(a[0], b[0], a[0]);
      BelowIrreflexive(a[0]);
    }
  }

  lemma TailHas(a: seq<string>, f: string)
    requires a != [] && Ascending(a)
    ensures f in a[1..] <==> f in a && f != a[0]
  {
    BelowIrreflexive(a[0]);
    if f in a && f != a[0] {
      var i :| 0 <= i < |a| && a[i] == f;
      assert a[1..][i - 1] == f;
    }
  }
}
