/**
Erasure-coded blocks: padding, cutting into shards, joining and truncating. The
code itself is a parameter, assumed only to be systematic and to restore all
shards from any `k` of them.
*/
module Erasure {
  import opened Options
  import opened Bytes

  type Shard = seq<Byte>

  const MAX_SHARDS := 256

  /** Parity shards from data shards, and all shards from some of them. */
  datatype Code = Code(parity: seq<Shard> -> seq<Shard>, restore: seq<Option<Shard>> -> Option<seq<Shard>>)

  /** What is left of `shards` when only some can be read. */
  ghost predicate Survives(shards: seq<Shard>, left: seq<Option<Shard>>) {
    |left| == |shards| && forall i :: 0 <= i < |left| ==> left[i].None? || left[i] == Some(shards[i])
  }

  function Available(left: seq<Option<Shard>>): nat {
    if left == [] then 0 else Available(left[..|left| - 1]) + if left[|left| - 1].Some? then 1 else 0
  }

  ghost predicate Equal(shards: seq<Shard>, n: nat) {
    forall i :: 0 <= i < |shards| ==> |shards[i]| == n
  }

  /** Any `k` of the `k + m` shards determine the rest. */
  ghost predicate Restores(c: Code, k: nat, m: nat) {
    && (forall data: seq<Shard>, n: nat :: |data| == k && Equal(data, n) ==> |c.parity(data)| == m)
    && (forall data: seq<Shard>, n: nat, left: seq<Option<Shard>> ::
          |data| == k && Equal(data, n) && Survives(data + c.parity(data), left) && Available(left) >= k ==>
            c.restore(left) == Some(data + c.parity(data)))
  }

  /** The simplest code there is: one data shard, and copies of it. */
  function Copies(m: nat): Code {
    Code(data => if |data| == 1 then Repeat(data[0], m) else [], left => Recopied(left))
  }

  function Repeat(s: Shard, n: nat): seq<Shard> { seq(n, _ => s) }

  function Recopied(left: seq<Option<Shard>>): Option<seq<Shard>> {
    var s := FirstOf(left);
    if s.None? then None else Some(Repeat(s.value, |left|))
  }

  function FirstOf(left: seq<Option<Shard>>): (r: Option<Shard>)
    ensures if r.Some? then r in left else forall i :: 0 <= i < |left| ==> left[i].None?
  {
    if left == [] then None else if left[0].Some? then left[0] else FirstOf(left[1..])
  }

  lemma {:induction false} NothingLeft(left: seq<Option<Shard>>)
    requires forall i :: 0 <= i < |left| ==> left[i].None?
    ensures Available(left) == 0
    decreases |left|
  {
    if left != [] { NothingLeft(left[..|left| - 1]); }
  }

  /** So there are codes to which all of this applies. */
  lemma CopiesRestore(m: nat)
    ensures Restores(Copies(m), 1, m)
  {
    forall data: seq<Shard>, n: nat, left: seq<Option<Shard>> |
      |data| == 1 && Equal(data, n) && Survives(data + Copies(m).parity(data), left) && Available(left) >= 1
      ensures Copies(m).restore(left) == Some(data + Copies(m).parity(data))
    {
      CopyRestores(m, data[0], left);
      assert data == [data[0]];
    }
  }

  lemma CopyRestores(m: nat, s: Shard, left: seq<Option<Shard>>)
    requires Survives([s] + Repeat(s, m), left) && Available(left) >= 1
    ensures Recopied(left) == Some([s] + Repeat(s, m))
  {
    hide Available;
    var all := [s] + Repeat(s, m);
    if FirstOf(left).None? { NothingLeft(left); }
    var i :| 0 <= i < |left| && left[i] == FirstOf(left);
    assert all[i] == s;
    assert Repeat(s, |left|) == all;
  }

  /** Bytes per shard, rounded up. */
  function ShardLen(len: nat, k: nat): (n: nat)
    requires k > 0
    ensures n * k >= len && (n > 0 ==> (n - 1) * k < len)
  {
    RoundUp(len, k);
    (len + k - 1) / k
  }

  lemma RoundUp(len: nat, k: nat)
    requires k > 0
    ensures var n := (len + k - 1) / k; n >= 0 && n * k >= len && (n > 0 ==> (n - 1) * k < len)
  {
    var n := (len + k - 1) / k;
    assert len + k - 1 == n * k + (len + k - 1) % k;
    assert (n - 1) * k == n * k - k;
  }

  function Zeros(n: nat): seq<Byte> { seq(n, _ => 0) }

  function Pad(data: seq<Byte>, n: nat): seq<Byte>
    requires |data| <= n
  {
    data + Zeros(n - |data|)
  }

  function Encode(c: Code, data: seq<Byte>, k: nat, m: nat): Result<seq<Shard>> {
    if k == 0 || m == 0 then Err("shard counts must be positive")
    else if data == [] then Err("data must not be empty")
    else if k + m > MAX_SHARDS then Err("too many shards")
    else
      var n := ShardLen(|data|, k);
      var shards := Chunks(Pad(data, n * k), n);
      Ok(shards + c.parity(shards))
  }

  function Truncate(s: seq<Byte>, n: nat): seq<Byte> { s[..Min(n, |s|)] }

  function AllSome(left: seq<Option<Shard>>): bool { forall i :: 0 <= i < |left| ==> left[i].Some? }

  function Values(left: seq<Option<Shard>>): seq<Shard>
    requires AllSome(left)
  {
    seq(|left|, i requires 0 <= i < |left| => left[i].value)
  }

  /** The bytes that decoding yields, if any. */
  function Decoded(c: Code, left: seq<Option<Shard>>, k: nat, m: nat, len: nat): Option<seq<Byte>> {
    var all := c.restore(left);
    if k == 0 || m == 0 || k + m > MAX_SHARDS || all.None? || |all.value| < k then None
    else Some(Truncate(Concat(all.value[..k]), len))
  }

  function AsOption<T>(r: Result<T>): Option<T> { if r.Ok? then Some(r.value) else None }

  /** Restore, join the data shards, cut off the padding. */
  method Decode(c: Code, left: seq<Option<Shard>>, k: nat, m: nat, len: nat) returns (r: Result<seq<Byte>>)
    ensures AsOption(r) == Decoded(c, left, k, m, len)
  {
    if k == 0 || m == 0 || k + m > MAX_SHARDS { return Err("unsupported shard counts"); }
    var all := c.restore(left);
    if all.None? { return Err("not enough shards"); }
    if |all.value| < k { return Err("data shard missing after reconstruction"); }
    var joined := Join(all.value[..k]);
    r := Ok(Truncate(joined, len));
  }

  method Join(shards: seq<Shard>) returns (joined: seq<Byte>)
    ensures joined == Concat(shards)
  {
    joined := [];
    var i := 0;
    while i < |shards|
      invariant i <= |shards| && joined + Concat(shards[i..]) == Concat(shards)
    {
      assert shards[i..][1..] == shards[i + 1..];
      joined := joined + shards[i];
      i := i + 1;
    }
    assert shards[i..] == [];
  }

  /** The data shards of an encoded block hold the data, padded. */
  lemma DataShards(data: seq<Byte>, k: nat)
    requires k > 0 && data != []
    ensures var n := ShardLen(|data|, k);
            var shards := Chunks(Pad(data, n * k), n);
            n > 0 && |shards| == k && Equal(shards, n) && Truncate(Concat(shards), |data|) == data
  {
    var n := ShardLen(|data|, k);
    assert n > 0;
    var padded := Pad(data, n * k);
    EqualChunks(padded, n, k);
    ChunksConcat(padded, n);
  }

  /** What encoding gives: the padded data in `k` shards, then `m` parity shards. */
  lemma Encoded(c: Code, data: seq<Byte>, k: nat, m: nat) returns (shards: seq<Shard>)
    requires Restores(c, k, m) && k > 0 && m > 0 && k + m <= MAX_SHARDS && data != []
    ensures |shards| == k && Truncate(Concat(shards), |data|) == data
    ensures Encode(c, data, k, m) == Ok(shards + c.parity(shards)) && |c.parity(shards)| == m
    ensures forall left :: Survives(shards + c.parity(shards), left) && Available(left) >= k ==>
                             c.restore(left) == Some(shards + c.parity(shards))
  {
    hide Concat, Available, Chunks, Truncate, Pad;
    DataShards(data, k);
    var n := ShardLen(|data|, k);
    shards := Chunks(Pad(data, n * k), n);
  }

  /** From any `k` surviving shards, decoding gives back the data. */
  lemma DecodeUndoesEncode(c: Code, data: seq<Byte>, k: nat, m: nat, left: seq<Option<Shard>>)
    requires Restores(c, k, m) && k > 0 && m > 0 && k + m <= MAX_SHARDS && data != []
    requires Survives(Encode(c, data, k, m).value, left) && Available(left) >= k
    ensures Decoded(c, left, k, m, |data|) == Some(data)
  {
    hide Concat, Available, Encode, Restores, Survives, Truncate;
    var shards := Encoded(c, data, k, m);
    assert (shards + c.parity(shards))[..k] == shards;
  }

  // ---------------------------------------------------------------- reading a block

  /** The bytes of a block, from the shards that could be fetched. */
  function Assembled(c: Code, left: seq<Option<Shard>>, k: nat, m: nat, len: nat): Option<seq<Byte>>
    requires |left| == k + m
  {
    if Available(left) < k then None
    else if AllSome(left[..k]) then Some(Truncate(Concat(Values(left[..k])), len))
    else Decoded(c, left, k, m, len)
  }

  /** One slot per shard; a location beyond the last shard is ignored. */
  function Slots(fetched: seq<Option<Shard>>, total: nat): seq<Option<Shard>> {
    seq(total, i => if 0 <= i < |fetched| then fetched[i] else None)
  }

  /** Put each fetched shard in its slot and count them. */
  method FillSlots(fetched: seq<Option<Shard>>, total: nat) returns (slots: seq<Option<Shard>>, available: nat)
    ensures slots == Slots(fetched, total) && available == Available(slots)
  {
    hide Available;
    slots := seq(total, _ => None);
    available := 0;
    NoneAvailable(total);
    for i := 0 to |fetched|
      invariant slots == Slots(fetched[..i], total) && available == Available(slots)
    {
      if i < total && fetched[i].Some? {
        Filled(slots, i, fetched[i].value);
        slots := slots[i := fetched[i]];
        available := available + 1;
      }
    }
    assert fetched[..|fetched|] == fetched;
  }

  /** Join the data shards if all are there, otherwise decode. */
  method ReadEcBlock(c: Code, fetched: seq<Option<Shard>>, k: nat, m: nat, len: nat) returns (r: Result<seq<Byte>>)
    ensures AsOption(r) == Assembled(c, Slots(fetched, k + m), k, m, len)
  {
    hide Slots, Available, Decoded, Concat;
    var slots, available := FillSlots(fetched, k + m);
    SlotCount(fetched, k + m);
    if available < k { return Err("block unrecoverable"); }
    var complete := true;
    var i := 0;
    while i < k
      invariant i <= k && complete == AllSome(slots[..i])
    {
      assert slots[..i + 1] == slots[..i] + [slots[i]];
      complete := complete && slots[i].Some?;
      i := i + 1;
    }
    if complete {
      var joined := Join(Values(slots[..k]));
      r := Ok(Truncate(joined, len));
    } else {
      r := Decode(c, slots, k, m, len);
    }
  }

  lemma SlotCount(fetched: seq<Option<Shard>>, total: nat)
    ensures |Slots(fetched, total)| == total
  {}

  lemma {:induction false} NoneAvailable(n: nat)
    ensures Available(seq(n, _ => None)) == 0
  {
    if n > 0 {
      NoneAvailable(n - 1);
      assert seq<Option<Shard>>(n, _ => None)[..n - 1] == seq<Option<Shard>>(n - 1, _ => None);
    }
  }

  lemma {:induction false} Filled(slots: seq<Option<Shard>>, i: nat, shard: Shard)
    requires i < |slots| && slots[i].None?
    ensures Available(slots[i := Some(shard)]) == Available(slots) + 1
    decreases |slots|
  {
    var last := |slots| - 1;
    if i == last {
      assert slots[i := Some(shard)][..last] == slots[..last];
    } else {
      Filled(slots[..last], i, shard);
      assert slots[i := Some(shard)][..last] == slots[..last][i := Some(shard)];
    }
  }

  /** As long as `k` shards can be fetched, reading gives back the data, and otherwise nothing. */
  lemma ReadUndoesEncode(c: Code, data: seq<Byte>, k: nat, m: nat, left: seq<Option<Shard>>)
    requires Restores(c, k, m) && k > 0 && m > 0 && k + m <= MAX_SHARDS && data != []
    requires Survives(Encode(c, data, k, m).value, left)
    ensures |left| == k + m
    ensures Assembled(c, left, k, m, |data|) == if Available(left) >= k then Some(data) else None
  {
    hide Concat, Available, Encode, Restores, Truncate, Decoded;
    var shards := Encoded(c, data, k, m);
    if Available(left) >= k {
      if AllSome(left[..k]) {
        assert Values(left[..k]) == shards by {
          forall i | 0 <= i < k ensures Values(left[..k])[i] == shards[i] {
            assert left[i] == Some((shards + c.parity(shards))[i]);
          }
        }
      } else {
        DecodeUndoesEncode(c, data, k, m, left);
      }
    }
  }
}
