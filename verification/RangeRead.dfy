/**
Reading part of a file: which part of which block to ask for, and what a chunk
server makes of the request.
*/
module RangeRead {
  import opened Options
  import opened Bytes
  import opened Erasure

  /** A block's length in the metadata, and what its locations return: the bytes, or a shard each. */
  datatype Block =
    | Plain(size: nat, stored: Option<seq<Byte>>)
    | Coded(size: nat, fetched: seq<Option<Shard>>, k: nat, m: nat, originalSize: nat)

  /** What a chunk server returns; length 0 asks for everything from the offset on. */
  function ServeRange(data: seq<Byte>, offset: nat, length: nat): (r: Option<seq<Byte>>)
    ensures r.Some? <==> offset < |data|
    ensures r.Some? ==> |r.value| == if length == 0 then |data| - offset else Min(length, |data| - offset)
    ensures r.Some? ==> forall i :: 0 <= i < |r.value| ==> r.value[i] == data[offset + i]
  {
    if offset >= |data| then None
    else
      var wanted := if length == 0 then |data| - offset else length;
      Some(data[offset..offset + Min(wanted, |data| - offset)])
  }

  /** All of a block's bytes, if they can be read. */
  function BlockBytes(c: Code, b: Block): Option<seq<Byte>> {
    match b
    case Plain(_, stored) => if stored.Some? then ServeRange(stored.value, 0, 0) else None
    case Coded(_, fetched, k, m, n) => Assembled(c, Slots(fetched, k + m), k, m, n)
  }

  /** The file was written as `parts`: no part is empty and what can still be read is as written. */
  ghost predicate Holds(c: Code, blocks: seq<Block>, parts: seq<seq<Byte>>) {
    && |blocks| == |parts|
    && forall i :: 0 <= i < |blocks| ==>
         && parts[i] != [] && blocks[i].size == |parts[i]|
         && (BlockBytes(c, blocks[i]).Some? ==> BlockBytes(c, blocks[i]) == Some(parts[i]))
  }

  /** An erasure-coded block whose fetched shards are some of those written can be a part. */
  lemma CodedHolds(c: Code, data: seq<Byte>, k: nat, m: nat, left: seq<Option<Shard>>)
    requires Restores(c, k, m) && k > 0 && m > 0 && k + m <= MAX_SHARDS && data != []
    requires Survives(Encode(c, data, k, m).value, left)
    ensures Holds(c, [Coded(|data|, left, k, m, |data|)], [data])
    ensures BlockBytes(c, Coded(|data|, left, k, m, |data|)).Some? <==> Available(left) >= k
  {
    hide Restores, Survives, Encode, Assembled, Available;
    ReadUndoesEncode(c, data, k, m, left);
    assert Slots(left, k + m) == left;
  }

  /** The whole file: every block, in order. */
  method GetFileContent(c: Code, blocks: seq<Block>, ghost parts: seq<seq<Byte>>) returns (r: Result<seq<Byte>>)
    requires Holds(c, blocks, parts)
    ensures r.Ok? <==> forall i :: 0 <= i < |blocks| ==> BlockBytes(c, blocks[i]).Some?
    ensures r.Ok? ==> r.value == Concat(parts)
  {
    hide Concat, BlockBytes;
    var result: seq<Byte> := [];
    ConcatEmpty(parts[..0]);
    for i := 0 to |blocks|
      invariant result == Concat(parts[..i])
      invariant forall j :: 0 <= j < i ==> BlockBytes(c, blocks[j]).Some?
    {
      var data := BlockBytes(c, blocks[i]);
      if data.None? { return Err("block unreadable"); }
      ConcatLast(parts, i);
      result := result + data.value;
    }
    assert parts[..|blocks|] == parts;
    r := Ok(result);
  }

  lemma ConcatEmpty(parts: seq<seq<Byte>>)
    requires parts == []
    ensures Concat(parts) == []
  {}

  lemma ConcatLast(parts: seq<seq<Byte>>, i: nat)
    requires i < |parts|
    ensures Concat(parts[..i + 1]) == Concat(parts[..i]) + parts[i]
  {
    ConcatAppend(parts[..i], [parts[i]]);
    assert parts[..i + 1] == parts[..i] + [parts[i]];
    assert Concat([parts[i]]) == parts[i] + Concat([]);
  }

  /** What is asked of one block: from where, and how much. */
  datatype SubRead = SubRead(offset: nat, length: nat)

  function Minus(a: nat, b: nat): nat { if a < b then 0 else a - b }

  /** The part of a block of `size` bytes at `start` that lies in `[offset, end)`. */
  function SubReadOf(size: nat, start: nat, offset: nat, end: nat): (s: SubRead)
    requires size > 0 && start < end && offset < start + size && offset <= end
    ensures s.offset < size && s.offset + s.length <= size
    ensures offset < end <==> s.length > 0
  {
    var from := Minus(offset, start);
    SubRead(from, Min(size, end - start) - from)
  }

  /** Carry out one sub-read: the server cuts a plain block, the client an erasure-coded one. */
  method ReadPart(c: Code, b: Block, s: SubRead) returns (r: Option<seq<Byte>>)
    requires BlockBytes(c, b).Some? ==> |BlockBytes(c, b).value| == b.size
    requires s.offset < b.size && s.offset + s.length <= b.size
    ensures r.Some? <==> BlockBytes(c, b).Some?
    ensures r.Some? && (s.length > 0 || b.Coded?) ==> r.value == BlockBytes(c, b).value[s.offset..s.offset + s.length]
    ensures r.Some? && s.length == 0 && b.Plain? ==> r.value == BlockBytes(c, b).value[s.offset..]
  {
    hide Assembled, Slots;
    match b
    case Coded(_, fetched, k, m, n) =>
      var full := ReadEcBlock(c, fetched, k, m, n);
      if full.Err? { return None; }
      r := Some(full.value[s.offset..Min(s.offset + s.length, |full.value|)]);
    case Plain(_, stored) =>
      if stored.None? { return None; }
      r := ServeRange(stored.value, s.offset, s.length);
  }

  /** Does part `i` of the file meet `[offset, end)` as the block loop sees it? */
  ghost predicate Touched(parts: seq<seq<Byte>>, i: nat, offset: nat, end: nat)
    requires i < |parts|
  {
    Start(parts, i) < end && offset < Start(parts, i + 1)
  }

  /** Among the first `n` blocks, `offset` falls strictly inside none but an erasure-coded one. */
  ghost predicate CleanUpTo(blocks: seq<Block>, parts: seq<seq<Byte>>, offset: nat, n: nat)
    requires n <= |blocks| == |parts|
  {
    forall i :: 0 <= i < n && Inside(parts, i, offset) ==> blocks[i].Coded?
  }

  /** `offset` is where a block starts, or falls inside an erasure-coded block. */
  ghost predicate CutsCleanly(blocks: seq<Block>, parts: seq<seq<Byte>>, offset: nat)
    requires |blocks| == |parts|
  {
    CleanUpTo(blocks, parts, offset, |blocks|)
  }

  /** `offset` falls strictly inside part `i`. */
  ghost predicate Inside(parts: seq<seq<Byte>>, i: nat, offset: nat)
    requires i < |parts|
  {
    Start(parts, i) < offset < Start(parts, i + 1)
  }

  /** What reading nothing at `offset` gives after `n` blocks: nothing, or all that is left of the plain block there. */
  ghost predicate RestUpTo(blocks: seq<Block>, parts: seq<seq<Byte>>, offset: nat, n: nat, r: seq<Byte>)
    requires n <= |blocks| == |parts|
  {
    && (CleanUpTo(blocks, parts, offset, n) ==> r == [])
    && forall i :: 0 <= i < n && Inside(parts, i, offset) && blocks[i].Plain? ==> IsRest(parts, i, offset, r)
  }

  /** `r` is part `i` from `offset` on. */
  ghost predicate IsRest(parts: seq<seq<Byte>>, i: nat, offset: nat, r: seq<Byte>)
    requires i < |parts|
  {
    Start(parts, i) <= offset <= Start(parts, i) + |parts[i]| && r == parts[i][offset - Start(parts, i)..]
  }

  function Later(a: nat, b: nat): nat { if a < b then b else a }

  /** What has been read once the blocks up to `position` have been looked at. */
  ghost predicate ReadUpTo(all: seq<Byte>, result: seq<Byte>, offset: nat, end: nat, position: nat) {
    && offset <= end <= |all| && position <= |all|
    && result == all[offset..Later(offset, Min(end, position))]
  }

  lemma ReadOn(all: seq<Byte>, result: seq<Byte>, offset: nat, end: nat, start: nat, part: seq<Byte>)
    requires ReadUpTo(all, result, offset, end, start) && offset < end
    requires part != [] && start + |part| <= |all| && part == all[start..start + |part|]
    requires start < end && offset < start + |part|
    ensures var s := SubReadOf(|part|, start, offset, end);
            ReadUpTo(all, result + part[s.offset..s.offset + s.length], offset, end, start + |part|)
  {
    var s := SubReadOf(|part|, start, offset, end);
    var low := Later(offset, Min(end, start));
    var high := Later(offset, Min(end, start + |part|));
    assert start + s.offset == low && start + s.offset + s.length == high;
    SliceSlice(all, start, start + |part|, s.offset, s.offset + s.length);
    SliceJoin(all, offset, low, high);
  }

  /** The state of the block loop after `i` blocks. */
  ghost predicate Reading(c: Code, blocks: seq<Block>, parts: seq<seq<Byte>>, offset: nat, end: nat, result: seq<Byte>, i: nat)
    requires i <= |blocks| == |parts|
  {
    && (offset < end ==> ReadUpTo(Concat(parts), result, offset, end, Start(parts, i)))
    && (offset == end ==> RestUpTo(blocks, parts, offset, i, result))
    && forall j :: 0 <= j < i && Touched(parts, j, offset, end) ==> BlockBytes(c, blocks[j]).Some?
  }

  lemma StartReading(c: Code, blocks: seq<Block>, parts: seq<seq<Byte>>, offset: nat, end: nat)
    requires Holds(c, blocks, parts) && offset <= end <= |Concat(parts)|
    ensures Start(parts, 0) == 0
    ensures Reading(c, blocks, parts, offset, end, [], 0)
  {}

  /** A block before the range adds nothing. */
  lemma SkipBlock(c: Code, blocks: seq<Block>, parts: seq<seq<Byte>>, offset: nat, end: nat, result: seq<Byte>, i: nat)
    requires Holds(c, blocks, parts) && i < |blocks| && Reading(c, blocks, parts, offset, end, result, i)
    requires Start(parts, i + 1) <= offset <= end
    ensures Reading(c, blocks, parts, offset, end, result, i + 1)
  {
    hide Concat, BlockBytes, Start;
    PartAt(parts, i);
  }

  /** Blocks past the range add nothing. */
  lemma StopAt(c: Code, blocks: seq<Block>, parts: seq<seq<Byte>>, offset: nat, end: nat, result: seq<Byte>, i: nat)
    requires Holds(c, blocks, parts) && i <= |blocks| && Reading(c, blocks, parts, offset, end, result, i)
    requires offset <= end <= Start(parts, i)
    ensures Reading(c, blocks, parts, offset, end, result, |blocks|)
  {
    hide Concat, BlockBytes, Start;
    forall j | i <= j <= |parts| ensures Start(parts, i) <= Start(parts, j) { StartsRise(parts, i, j); }
    WholeStart(parts);
  }

  lemma WholeStart(parts: seq<seq<Byte>>)
    ensures Start(parts, |parts|) == |Concat(parts)|
  {
    assert parts[..|parts|] == parts;
  }

  /** A block in the range adds its part of it, or what is left of it when nothing was asked for. */
  lemma ReadBlock(c: Code, blocks: seq<Block>, parts: seq<seq<Byte>>, offset: nat, end: nat, result: seq<Byte>, i: nat, data: seq<Byte>)
    requires Holds(c, blocks, parts) && i < |blocks| && Reading(c, blocks, parts, offset, end, result, i)
    requires offset <= end && Touched(parts, i, offset, end) && BlockBytes(c, blocks[i]).Some?
    requires offset < Start(parts, i) + |parts[i]|
    requires var s := SubReadOf(|parts[i]|, Start(parts, i), offset, end);
             data == if s.length == 0 && blocks[i].Plain? then parts[i][s.offset..] else parts[i][s.offset..s.offset + s.length]
    ensures Reading(c, blocks, parts, offset, end, result + data, i + 1)
  {
    hide Concat, BlockBytes, Start, ReadUpTo;
    PartAt(parts, i);
    if offset < end {
      ReadOn(Concat(parts), result, offset, end, Start(parts, i), parts[i]);
    } else {
      forall j | 0 <= j <= i ensures Start(parts, j) <= Start(parts, i) { StartsRise(parts, j, i); }
      forall j | 0 <= j < i ensures !Inside(parts, j, offset) { StartsRise(parts, j + 1, i); }
      assert CleanUpTo(blocks, parts, offset, i);
      assert CleanUpTo(blocks, parts, offset, i + 1) <==> blocks[i].Coded?;
    }
  }

  /** Read `length` bytes from `offset`; `asked` is what was asked of the blocks. */
  method ReadFileRange(c: Code, blocks: seq<Block>, size: nat, offset: nat, length: nat, ghost parts: seq<seq<Byte>>)
    returns (r: Result<seq<Byte>>, asked: seq<SubRead>)
    requires Holds(c, blocks, parts) && |Concat(parts)| == size
    ensures var end := offset + Min(length, Minus(size, offset));
            r.Ok? <==> offset < size && forall i :: 0 <= i < |blocks| && Touched(parts, i, offset, end) ==> BlockBytes(c, blocks[i]).Some?
    ensures r.Ok? ==>
              (r.value == Concat(parts)[offset..offset + Min(length, size - offset)] <==>
               length > 0 || CutsCleanly(blocks, parts, offset))
    ensures r.Ok? && length == 0 ==> RestUpTo(blocks, parts, offset, |blocks|, r.value)
    ensures length > 0 ==> forall i :: 0 <= i < |asked| ==> asked[i].length > 0
  {
    hide Concat, BlockBytes, Start, Reading, CleanUpTo, RestUpTo;
    asked := [];
    if offset >= size { return Err("offset exceeds file size"), asked; }
    var end := offset + Min(length, size - offset);
    var result: seq<Byte> := [];
    var position := 0;
    StartReading(c, blocks, parts, offset, end);
    var i := 0;
    while i < |blocks|
      invariant i <= |blocks| && position == Start(parts, i) && Reading(c, blocks, parts, offset, end, result, i)
      invariant forall j :: 0 <= j < |asked| && length > 0 ==> asked[j].length > 0
      decreases |blocks| - i
    {
      var b := blocks[i];
      var start := position;
      PartAt(parts, i);
      position := position + b.size;
      if position <= offset {
        SkipBlock(c, blocks, parts, offset, end, result, i);
        i := i + 1;
        continue;
      }
      if start >= end { break; }
      var s := SubReadOf(b.size, start, offset, end);
      asked := asked + [s];
      var data := ReadPart(c, b, s);
      if data.None? { return Err("block unreadable"), asked; }
      ReadBlock(c, blocks, parts, offset, end, result, i, data.value);
      result := result + data.value;
      i := i + 1;
    }
    WholeStart(parts);
    StopAt(c, blocks, parts, offset, end, result, i);
    Finished(c, blocks, parts, offset, end, result);
    r := Ok(result);
  }

  lemma Finished(c: Code, blocks: seq<Block>, parts: seq<seq<Byte>>, offset: nat, end: nat, result: seq<Byte>)
    requires Holds(c, blocks, parts) && offset <= end <= |Concat(parts)| && Reading(c, blocks, parts, offset, end, result, |blocks|)
    ensures result == Concat(parts)[offset..end] <==> offset < end || CutsCleanly(blocks, parts, offset)
    ensures offset == end ==> RestUpTo(blocks, parts, offset, |blocks|, result)
    ensures forall i :: 0 <= i < |blocks| && Touched(parts, i, offset, end) ==> BlockBytes(c, blocks[i]).Some?
  {
    hide Concat, BlockBytes, Start;
    WholeStart(parts);
    if offset == end && !CutsCleanly(blocks, parts, offset) {
      var i :| 0 <= i < |blocks| && Inside(parts, i, offset) && !blocks[i].Coded?;
      PartAt(parts, i);
      assert IsRest(parts, i, offset, result);
    }
  }

  /** Reading nothing strictly inside a plain block gives back the rest of that block. */
  lemma EmptyRangeInside(c: Code, blocks: seq<Block>, parts: seq<seq<Byte>>, offset: nat, i: nat, r: seq<Byte>)
    requires Holds(c, blocks, parts) && i < |blocks| && Inside(parts, i, offset) && blocks[i].Plain?
    ensures !CutsCleanly(blocks, parts, offset)
    ensures RestUpTo(blocks, parts, offset, |blocks|, r) <==> IsRest(parts, i, offset, r)
    ensures IsRest(parts, i, offset, r) ==> r != []
  {
    hide Concat, Start, BlockBytes;
    PartAt(parts, i);
    forall j | 0 <= j < |parts| && Inside(parts, j, offset) ensures j == i {
      if j < i { StartsRise(parts, j + 1, i); }
      if i < j { StartsRise(parts, i + 1, j); }
    }
  }

  /** There are such files: a single plain block. */
  lemma OneBlockInside(c: Code, data: seq<Byte>, offset: nat)
    requires 0 < offset < |data|
    ensures Holds(c, [Plain(|data|, Some(data))], [data]) && Inside([data], 0, offset)
    ensures IsRest([data], 0, offset, data[offset..])
  {
    var parts := [data];
    assert data[0..0 + |data|] == data;
    PartAt(parts, 0);
    assert Start(parts, 0) == 0;
  }
}
