/**
Block checksums: one CRC per 512 bytes, kept as big-endian words in a file
beside the block, and checked for a whole block or for the chunks of a window.
The CRC itself is a parameter.
*/
module Checksums {
  import opened Options
  import opened Bytes

  const CHUNK := 512

  type Word = x: nat | x < 0x1_0000_0000

  type Crc = seq<Byte> -> Word

  /** The checksum of every chunk. */
  function Sums(crc: Crc, data: seq<Byte>): seq<Word> {
    var chunks := Chunks(data, CHUNK);
    seq(|chunks|, i requires 0 <= i < |chunks| => crc(chunks[i]))
  }

  /** The bytes of chunk `i`. */
  function ChunkAt(data: seq<Byte>, i: nat): seq<Byte>
    requires i * CHUNK <= |data|
  {
    data[i * CHUNK..Min(i * CHUNK + CHUNK, |data|)]
  }

  lemma SumAt(crc: Crc, data: seq<Byte>, i: nat)
    ensures i < |Sums(crc, data)| <==> i * CHUNK < |data|
    ensures i < |Sums(crc, data)| ==> Sums(crc, data)[i] == crc(ChunkAt(data, i))
  {
    if i < |Chunks(data, CHUNK)| { ChunkCount(data, CHUNK, i); }
    if i * CHUNK < |data| { ChunkExists(data, CHUNK, i); }
  }

  method CalculateChecksums(crc: Crc, data: seq<Byte>) returns (sums: seq<Word>)
    ensures sums == Sums(crc, data)
  {
    sums := [];
    var chunks := Chunks(data, CHUNK);
    for i := 0 to |chunks|
      invariant sums == Sums(crc, data)[..i]
    {
      sums := sums + [crc(chunks[i])];
    }
  }

  // ---------------------------------------------------------------- the checksum file

  function BigEndian(x: Word): seq<Byte> {
    var a := x / 256;
    var b := a / 256;
    [b / 256, b % 256, a % 256, x % 256]
  }

  /** The most significant byte comes first: words are ordered like their bytes. */
  lemma BigEndianOrders(x: Word, y: Word)
    requires x < y
    ensures var a, b := BigEndian(x), BigEndian(y);
            exists i :: 0 <= i < 4 && a[i] < b[i] && a[..i] == b[..i]
  {
    var a, b := BigEndian(x), BigEndian(y);
    if a[0] != b[0] { assert a[..0] == b[..0]; }
    else if a[1] != b[1] { assert a[..1] == b[..1]; }
    else if a[2] != b[2] { assert a[..2] == b[..2]; }
    else { assert a[..3] == b[..3]; }
  }

  function FromBigEndian(b: seq<Byte>): Word
    requires |b| == 4
  {
    ((b[0] as int * 256 + b[1]) * 256 + b[2]) * 256 + b[3]
  }

  lemma WordBack(x: Word)
    ensures FromBigEndian(BigEndian(x)) == x
  {
    var a := x / 256;
    var b := a / 256;
    assert x == a * 256 + x % 256 && a == b * 256 + a % 256 && b == b / 256 * 256 + b % 256;
  }

  lemma LastByte(high: nat, low: Byte)
    ensures (high * 256 + low) / 256 == high && (high * 256 + low) % 256 == low
  {}

  lemma BytesBack(b: seq<Byte>)
    requires |b| == 4
    ensures BigEndian(FromBigEndian(b)) == b
  {
    var c := b[0] as int * 256 + b[1];
    var d := c * 256 + b[2];
    LastByte(b[0], b[1]);
    LastByte(c, b[2]);
    LastByte(d, b[3]);
  }

  function MetaBytes(sums: seq<Word>): seq<Byte> {
    if sums == [] then [] else BigEndian(sums[0]) + MetaBytes(sums[1..])
  }

  /** Whole words only: up to three bytes at the end are ignored. */
  function ParseMeta(meta: seq<Byte>): seq<Word> {
    if |meta| < 4 then [] else [FromBigEndian(meta[..4])] + ParseMeta(meta[4..])
  }

  lemma {:induction false} ParseUndoesWrite(sums: seq<Word>)
    ensures ParseMeta(MetaBytes(sums)) == sums
  {
    if sums != [] {
      var head, tail := BigEndian(sums[0]), MetaBytes(sums[1..]);
      assert (head + tail)[..4] == head && (head + tail)[4..] == tail;
      WordBack(sums[0]);
      ParseUndoesWrite(sums[1..]);
    }
  }

  lemma {:induction false} WriteUndoesParse(meta: seq<Byte>)
    ensures |MetaBytes(ParseMeta(meta))| == |meta| - |meta| % 4 && MetaBytes(ParseMeta(meta)) <= meta
  {
    if |meta| >= 4 {
      BytesBack(meta[..4]);
      WriteUndoesParse(meta[4..]);
      var words := ParseMeta(meta);
      assert words[1..] == ParseMeta(meta[4..]);
      assert meta == meta[..4] + meta[4..];
    }
  }

  // ---------------------------------------------------------------- what the checks accept

  /** The checksum file matches the data. */
  ghost predicate Accepts(crc: Crc, meta: Option<seq<Byte>>, data: seq<Byte>) {
    meta.Some? && ParseMeta(meta.value) == Sums(crc, data)
  }

  /** First and last chunk of a window. */
  function FirstChunk(offset: nat): nat { offset / CHUNK }

  function LastChunk(offset: nat, length: nat): nat {
    (if offset + length == 0 then 0 else offset + length - 1) / CHUNK
  }

  /** Byte `b` lies in chunk `i`. */
  predicate InChunk(b: nat, i: nat) { i * CHUNK <= b < i * CHUNK + CHUNK }

  /** The chunks of a window are exactly those that hold one of its bytes. */
  lemma WindowMeans(offset: nat, length: nat, i: nat)
    requires length > 0
    ensures FirstChunk(offset) <= i <= LastChunk(offset, length) <==> exists b: nat :: offset <= b < offset + length && InChunk(b, i)
  {
    var last := offset + length - 1;
    if FirstChunk(offset) <= i <= LastChunk(offset, length) {
      var b := if i * CHUNK < offset then offset else i * CHUNK;
      assert InChunk(b, i);
    }
    if b: nat :| offset <= b < offset + length && InChunk(b, i) {
      assert b / CHUNK == i;
      assert offset / CHUNK <= b / CHUNK <= last / CHUNK;
    }
  }

  /** Every chunk of the window that has a checksum starts inside the block and matches it. */
  ghost predicate AcceptsWindow(crc: Crc, meta: Option<seq<Byte>>, data: Option<seq<Byte>>, offset: nat, length: nat) {
    && meta.Some? && data.Some?
    && forall i ::
         FirstChunk(offset) <= i <= LastChunk(offset, length) && i < |ParseMeta(meta.value)| ==>
           ChunkMatches(crc, data.value, ParseMeta(meta.value), i)
  }

  ghost predicate ChunkMatches(crc: Crc, data: seq<Byte>, sums: seq<Word>, i: nat)
    requires i < |sums|
  {
    i * CHUNK <= |data| && crc(ChunkAt(data, i)) == sums[i]
  }

  /** What has just been written is accepted. */
  lemma WrittenAccepted(crc: Crc, data: seq<Byte>)
    ensures Accepts(crc, Some(MetaBytes(Sums(crc, data))), data)
  {
    ParseUndoesWrite(Sums(crc, data));
  }

  /** A block that is accepted whole is accepted in every window. */
  lemma WholeThenWindow(crc: Crc, meta: Option<seq<Byte>>, data: seq<Byte>, offset: nat, length: nat)
    requires Accepts(crc, meta, data)
    ensures AcceptsWindow(crc, meta, Some(data), offset, length)
  {
    hide Sums, ParseMeta;
    var sums := ParseMeta(meta.value);
    forall i | 0 <= i < |sums| ensures ChunkMatches(crc, data, sums, i) { SumAt(crc, data, i); }
  }

  /** The window of the whole block, with the right number of checksums, is the full check. */
  lemma WindowThenWhole(crc: Crc, meta: seq<Byte>, data: seq<Byte>)
    ensures Accepts(crc, Some(meta), data) <==>
            |ParseMeta(meta)| == |Sums(crc, data)| && AcceptsWindow(crc, Some(meta), Some(data), 0, |data|)
  {
    hide Sums, ParseMeta;
    var sums := ParseMeta(meta);
    if Accepts(crc, Some(meta), data) {
      WholeThenWindow(crc, Some(meta), data, 0, |data|);
    }
    if |sums| == |Sums(crc, data)| && AcceptsWindow(crc, Some(meta), Some(data), 0, |data|) {
      forall i | 0 <= i < |sums| ensures sums[i] == Sums(crc, data)[i] {
        SumAt(crc, data, i);
        assert i <= LastChunk(0, |data|);
        assert ChunkMatches(crc, data, sums, i);
      }
      assert sums == Sums(crc, data);
    }
  }

  // ---------------------------------------------------------------- the storage directories

  const META := ".meta"

  function Lookup(files: map<string, seq<Byte>>, name: string): Option<seq<Byte>> {
    if name in files then Some(files[name]) else None
  }

  class Storage {
    var hot: map<string, seq<Byte>>
    var cold: Option<map<string, seq<Byte>>>
    const crc: Crc

    constructor (crc: Crc, cold: Option<map<string, seq<Byte>>>)
      ensures this.crc == crc && hot == map[] && this.cold == cold
    {
      this.crc := crc;
      hot := map[];
      this.cold := cold;
    }

    /** The checksum file of a block, wherever it is. */
    function MetaOf(id: string): Option<seq<Byte>>
      reads this
    {
      if id + META in hot then Some(hot[id + META])
      else if cold.Some? then Lookup(cold.value, id + META)
      else None
    }

    method WriteBlock(id: string, data: seq<Byte>)
      modifies this`hot
      ensures hot == old(hot)[id := data][id + META := MetaBytes(Sums(crc, data))]
      ensures Lookup(hot, id) == Some(data) && Accepts(crc, MetaOf(id), data)
    {
      var sums := CalculateChecksums(crc, data);
      var meta := FlattenWords(sums);
      hot := hot[id := data];
      hot := hot[id + META := meta];
      assert |id + META| != |id|;
      WrittenAccepted(crc, data);
    }

    method VerifyBlock(id: string, data: seq<Byte>) returns (r: Result<()>)
      ensures r.Ok? <==> Accepts(crc, MetaOf(id), data)
      ensures r == Err("Checksum file missing") <==> MetaOf(id).None?
      ensures r == Err("Checksum count mismatch") <==>
              MetaOf(id).Some? && |ParseMeta(MetaOf(id).value)| != |Sums(crc, data)|
    {
      hide ParseMeta, Sums;
      var meta := MetaOf(id);
      if meta.None? { return Err("Checksum file missing"); }
      var expected := ParseMeta(meta.value);
      var actual := CalculateChecksums(crc, data);
      if |expected| != |actual| { return Err("Checksum count mismatch"); }
      for i := 0 to |expected|
        invariant expected[..i] == actual[..i]
      {
        if expected[i] != actual[i] { return Err("Checksum mismatch at chunk"); }
        assert expected[..i + 1] == expected[..i] + [expected[i]];
      }
      assert expected[..|expected|] == expected && actual[..|expected|] == actual;
      r := Ok(());
    }

    /** Only the chunks of the window, read in order from the block's file in the hot directory. */
    method VerifyPartialRead(id: string, offset: nat, length: nat) returns (r: Result<()>)
      ensures r.Ok? <==> AcceptsWindow(crc, Lookup(hot, id + META), Lookup(hot, id), offset, length)
    {
      hide ParseMeta;
      var meta := Lookup(hot, id + META);
      if meta.None? { return Err("Checksum file missing"); }
      var sums := ParseMeta(meta.value);
      var file := Lookup(hot, id);
      if file.None? { return Err("block file missing"); }
      var data := file.value;
      var last := LastChunk(offset, length);
      var i := FirstChunk(offset);
      var cursor := i * CHUNK;
      while i <= last
        invariant FirstChunk(offset) <= i
        invariant i * CHUNK <= |data| ==> cursor == i * CHUNK
        invariant forall j :: FirstChunk(offset) <= j < i && j < |sums| ==> ChunkMatches(crc, data, sums, j)
        decreases last + 1 - i
      {
        if i >= |sums| { break; }
        var at := i * CHUNK;
        if |data| < at {
          assert !ChunkMatches(crc, data, sums, i);
          return Err("read past the end");
        }
        var len := Min(CHUNK, |data| - at);
        var buffer := data[cursor..cursor + len];
        cursor := cursor + len;
        assert buffer == ChunkAt(data, i);
        assert ChunkMatches(crc, data, sums, i) <==> crc(buffer) == sums[i];
        if crc(buffer) != sums[i] { return Err("Checksum mismatch at chunk"); }
        i := i + 1;
      }
      r := Ok(());
    }
  }

  method FlattenWords(sums: seq<Word>) returns (meta: seq<Byte>)
    ensures meta == MetaBytes(sums)
  {
    meta := [];
    for i := 0 to |sums|
      invariant meta + MetaBytes(sums[i..]) == MetaBytes(sums)
    {
      assert sums[i..][1..] == sums[i + 1..];
      meta := meta + BigEndian(sums[i]);
    }
  }
}
