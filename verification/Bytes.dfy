/**
Bytes, and cutting a sequence into chunks of equal length.
*/
module Bytes {

  type Byte = x: nat | x < 256

  datatype Result<T> = Ok(value: T) | Err(error: string)

  function Min(a: nat, b: nat): nat { if a < b then a else b }

  /** Chunks of `n` elements; only the last may be shorter. */
  function Chunks<T>(s: seq<T>, n: nat): seq<seq<T>>
    requires n > 0
    decreases |s|
  {
    if s == [] then [] else if |s| <= n then [s] else [s[..n]] + Chunks(s[n..], n)
  }

  function Concat<T>(ss: seq<seq<T>>): seq<T> {
    if ss == [] then [] else ss[0] + Concat(ss[1..])
  }

  lemma {:induction false} ChunksConcat<T>(s: seq<T>, n: nat)
    requires n > 0
    ensures Concat(Chunks(s, n)) == s
    decreases |s|
  {
    if |s| > n {
      ChunksConcat(s[n..], n);
      assert Chunks(s, n)[1..] == Chunks(s[n..], n);
      assert s == s[..n] + s[n..];
    } else if s != [] {
      assert [s][1..] == [];
    }
  }

  /** How many chunks there are. */
  lemma {:induction false} ChunkCount<T>(s: seq<T>, n: nat, k: nat)
    requires n > 0 && k < |Chunks(s, n)|
    ensures k * n < |s|
    ensures Chunks(s, n)[k] == s[k * n..Min(k * n + n, |s|)]
    decreases k
  {
    if k > 0 {
      ChunkCount(s[n..], n, k - 1);
      assert Chunks(s, n)[k] == Chunks(s[n..], n)[k - 1];
      assert (k - 1) * n + n == k * n;
    }
  }

  lemma {:induction false} ChunkExists<T>(s: seq<T>, n: nat, k: nat)
    requires n > 0 && k * n < |s|
    ensures k < |Chunks(s, n)|
    decreases k
  {
    if k > 0 {
      assert (k - 1) * n + n == k * n;
      assert (k - 1) * n >= 0;
      ChunkExists(s[n..], n, k - 1);
    }
  }

  lemma {:induction false} EqualChunks<T>(s: seq<T>, n: nat, k: nat)
    requires n > 0 && |s| == n * k
    ensures |Chunks(s, n)| == k && forall i :: 0 <= i < k ==> |Chunks(s, n)[i]| == n
    decreases k
  {
    if k == 0 {
    } else if k == 1 {
      assert n * k == n;
    } else {
      assert n * k == n + n * (k - 1) && n * (k - 1) >= n;
      EqualChunks(s[n..], n, k - 1);
    }
  }

  lemma {:induction false} ConcatAppend<T>(ss: seq<seq<T>>, tt: seq<seq<T>>)
    ensures Concat(ss + tt) == Concat(ss) + Concat(tt)
  {
    if ss == [] {
      assert ss + tt == tt;
    } else {
      ConcatAppend(ss[1..], tt);
      assert (ss + tt)[1..] == ss[1..] + tt && (ss + tt)[0] == ss[0];
      assert ss[0] + (Concat(ss[1..]) + Concat(tt)) == (ss[0] + Concat(ss[1..])) + Concat(tt);
    }
  }

  /** Where part `i` starts in the whole. */
  function Start<T>(parts: seq<seq<T>>, i: nat): nat
    requires i <= |parts|
  {
    |Concat(parts[..i])|
  }

  /** A part is where it should be in the whole. */
  lemma PartAt<T>(parts: seq<seq<T>>, i: nat)
    requires i < |parts|
    ensures Start(parts, i + 1) == Start(parts, i) + |parts[i]| <= |Concat(parts)|
    ensures Concat(parts)[Start(parts, i)..Start(parts, i + 1)] == parts[i]
  {
    ConcatAppend(parts[..i], [parts[i]]);
    assert parts[..i + 1] == parts[..i] + [parts[i]];
    assert Concat([parts[i]]) == parts[i] + Concat([]);
    ConcatAppend(parts[..i + 1], parts[i + 1..]);
    assert parts == parts[..i + 1] + parts[i + 1..];
  }

  lemma {:induction false} StartsRise<T>(parts: seq<seq<T>>, i: nat, j: nat)
    requires i <= j <= |parts|
    ensures Start(parts, i) <= Start(parts, j)
    decreases j
  {
    if i < j {
      StartsRise(parts, i, j - 1);
      PartAt(parts, j - 1);
    }
  }

  lemma SliceSlice<T>(s: seq<T>, a: nat, b: nat, i: nat, j: nat)
    requires a <= b <= |s| && i <= j <= b - a
    ensures s[a..b][i..j] == s[a + i..a + j]
  {
    forall k | 0 <= k < j - i ensures s[a..b][i..j][k] == s[a + i..a + j][k] {
      assert s[a..b][i + k] == s[a + (i + k)];
    }
  }

  lemma SliceJoin<T>(s: seq<T>, a: nat, b: nat, c: nat)
    requires a <= b <= c <= |s|
    ensures s[a..b] + s[b..c] == s[a..c]
  {}
}
