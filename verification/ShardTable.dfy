/**
How keys are routed to shards, by ranges of keys or by a hash ring, and how
adding, splitting, merging and removing shards changes the routing.
*/
module ShardTable {
  import opened Options
  import opened StringOrder

  type ShardId = string
  type Key = string
  type Peers = seq<string>
  type Ranges = map<Key, ShardId>
  type Ring = map<nat, ShardId>

  /** The boundary that closes the last range. */
  const LAST: Key := "\U{10FFFF}"
  const MIDDLE: Key := "/m"

  datatype Strategy =
    | ConsistentHash(ring: Ring, virtualNodes: nat)
    | Range(ranges: Ranges)

  datatype Table = Table(strategy: Strategy, shards: set<ShardId>, peers: map<ShardId, Peers>)

  // ---------------------------------------------------------------- range routing

  /** The shard whose boundary is the first one not below the key. */
  ghost function RangeOwner(ranges: Ranges, key: Key): Option<ShardId> {
    if Reaches(ranges.Keys, key) then Some(ranges[First(ranges.Keys, key)]) else None
  }

  function AddedRanges(ranges: Ranges, id: ShardId): Ranges {
    if ranges == map[] then map[LAST := id]
    else if |ranges| == 1 then map[MIDDLE := id, LAST := OnlyValue(ranges)]
    else ranges["z-" + id := id]
  }

  function OnlyValue(ranges: Ranges): ShardId
    requires |ranges| == 1
  {
    var b :| b in ranges;
    assert forall c :: c in ranges ==> c == b by { OnlyKey(ranges, b); }
    ranges[b]
  }

  lemma OnlyKey(ranges: Ranges, b: Key)
    requires |ranges| == 1 && b in ranges
    ensures forall c :: c in ranges ==> c == b
  {
    var rest := ranges.Keys - {b};
    assert |rest| == 0;
    assert forall c :: c in ranges.Keys ==> c == b || c in rest;
  }

  /** The first boundary that belongs to a shard. */
  ghost predicate IsBoundaryOf(ranges: Ranges, id: ShardId, b: Key) {
    b in ranges && ranges[b] == id && forall c :: c in ranges && ranges[c] == id ==> UpTo(b, c)
  }

  ghost predicate HasBoundary(ranges: Ranges, id: ShardId) {
    exists b :: b in ranges && ranges[b] == id
  }

  /** Every key up to the last boundary is routed to a registered shard; a shard has at most one range. */
  ghost predicate RangesOk(t: Table) {
    && t.strategy.Range?
    && t.shards == t.peers.Keys
    && (t.strategy.ranges != map[] ==> LAST in t.strategy.ranges)
    && (forall b :: b in t.strategy.ranges ==> UpTo(b, LAST) && t.strategy.ranges[b] in t.shards)
    && OneRangeEach(t.strategy.ranges)
  }

  ghost predicate OneRangeEach(ranges: Ranges) {
    forall b, c :: b in ranges && c in ranges && ranges[b] == ranges[c] ==> b == c
  }

  lemma OwnerRegistered(t: Table, key: Key)
    requires RangesOk(t) && t.strategy.ranges != map[] && UpTo(key, LAST)
    ensures var o := RangeOwner(t.strategy.ranges, key);
            o.Some? && o.value in t.shards && o.value in t.peers
  {
    assert LAST in t.strategy.ranges.Keys;
  }

  lemma OwnerIs(ranges: Ranges, key: Key, b: Key)
    requires IsFirst(ranges.Keys, key, b)
    ensures RangeOwner(ranges, key) == Some(ranges[b])
  {
    FirstIs(ranges.Keys, key, b);
  }

  // ---------------------------------------------------------------- splitting

  ghost predicate CanSplit(t: Table, key: Key, id: ShardId) {
    t.strategy.Range? && id !in t.shards && key !in t.strategy.ranges && Reaches(t.strategy.ranges.Keys, key)
  }

  function SplitAt(t: Table, key: Key, id: ShardId, ps: Peers): Table
    requires t.strategy.Range?
  {
    Table(Range(t.strategy.ranges[key := id]), t.shards + {id}, t.peers[id := ps])
  }

  /** The keys after the previous boundary, up to the split key. */
  ghost predicate InSplit(ranges: Ranges, split: Key, key: Key) {
    UpTo(key, split) && forall b :: b in ranges ==> Below(b, key) || UpTo(split, b)
  }

  /** A split moves exactly the keys after the previous boundary, up to the split key. */
  lemma SplitMoves(t: Table, split: Key, id: ShardId, ps: Peers, key: Key)
    requires t.strategy.Range?
    ensures var t' := SplitAt(t, split, id, ps);
            && t'.strategy.Range? && t'.shards == t.shards + {id} && t'.peers == t.peers + map[id := ps]
            && RangeOwner(t'.strategy.ranges, key) ==
               if InSplit(t.strategy.ranges, split, key) then Some(id) else RangeOwner(t.strategy.ranges, key)
  {
    BoundaryMoves(t.strategy.ranges, split, id, key);
  }

  /** A boundary, new or taken over, gets exactly the keys after the previous one. */
  lemma BoundaryMoves(ranges: Ranges, split: Key, id: ShardId, key: Key)
    ensures RangeOwner(ranges[split := id], key) == if InSplit(ranges, split, key) then Some(id) else RangeOwner(ranges, key)
  {
    var after := ranges[split := id];
    if InSplit(ranges, split, key) {
      forall c | c in after.Keys && UpTo(key, c) ensures UpTo(split, c) {
        if c != split && Below(c, key) { BelowNotUpTo(c, key); }
      }
      OwnerIs(after, key, split);
    } else if Reaches(ranges.Keys, key) {
      var b := First(ranges.Keys, key);
      assert b in after.Keys;
      if UpTo(key, split) {
        var c :| c in ranges && !Below(c, key) && !UpTo(split, c);
        UpToTotal(key, c);
        UpToTotal(split, c);
        assert UpTo(key, c);
        UpToTransitive(b, c, split);
        if b == split { UpToAntisymmetric(c, split); }
      }
      assert IsFirst(after.Keys, key, b);
      OwnerIs(after, key, b);
    } else {
      forall b | b in after.Keys ensures !UpTo(key, b) {
        if b == split && UpTo(key, split) {
          var c :| c in ranges && !Below(c, key) && !UpTo(split, c);
          UpToTotal(key, c);
        }
      }
      assert !Reaches(after.Keys, key);
    }
  }

  // ---------------------------------------------------------------- adding

  /** What becomes of a key when a range shard is added. The first shard gets everything up to the last
      boundary. The second gets the keys up to "/m", and the first keeps the rest. A later one gets
      the keys after the previous boundary, up to "z-" and its name. */
  ghost predicate AddGives(before: Ranges, after: Ranges, id: ShardId, key: Key) {
    if before == map[] then RangeOwner(after, key) == if UpTo(key, LAST) then Some(id) else None
    else if |before| == 1 then
      forall b :: b in before ==>
        RangeOwner(after, key) == if UpTo(key, MIDDLE) then Some(id) else if UpTo(key, LAST) then Some(before[b]) else None
    else RangeOwner(after, key) == if InSplit(before, "z-" + id, key) then Some(id) else RangeOwner(before, key)
  }

  lemma AddMoves(ranges: Ranges, id: ShardId, key: Key)
    ensures AddGives(ranges, AddedRanges(ranges, id), id, key)
  {
    var after := AddedRanges(ranges, id);
    if ranges == map[] {
      OneBoundary(after, LAST, key);
    } else if |ranges| == 1 {
      forall b | b in ranges
        ensures RangeOwner(after, key) == if UpTo(key, MIDDLE) then Some(id) else if UpTo(key, LAST) then Some(ranges[b]) else None {
        OnlyKey(ranges, b);
        TwoBoundaries(after, key);
      }
    } else {
      BoundaryMoves(ranges, "z-" + id, id, key);
    }
  }

  lemma OneBoundary(ranges: Ranges, b: Key, key: Key)
    requires ranges.Keys == {b}
    ensures RangeOwner(ranges, key) == if UpTo(key, b) then Some(ranges[b]) else None
  {
    if UpTo(key, b) { OwnerIs(ranges, key, b); }
  }

  lemma TwoBoundaries(ranges: Ranges, key: Key)
    requires ranges.Keys == {MIDDLE, LAST}
    ensures RangeOwner(ranges, key) ==
            if UpTo(key, MIDDLE) then Some(ranges[MIDDLE]) else if UpTo(key, LAST) then Some(ranges[LAST]) else None
  {
    assert Below(MIDDLE, LAST);
    if UpTo(key, MIDDLE) { OwnerIs(ranges, key, MIDDLE); }
    else if UpTo(key, LAST) { OwnerIs(ranges, key, LAST); }
  }

  /** In a well-formed map the second shard takes only the keys up to "/m" away. */
  lemma SecondKeepsRest(t: Table, id: ShardId, key: Key)
    requires RangesOk(t) && |t.strategy.ranges| == 1
    ensures RangeOwner(AddedRanges(t.strategy.ranges, id), key) ==
            if UpTo(key, MIDDLE) then Some(id) else RangeOwner(t.strategy.ranges, key)
  {
    var ranges := t.strategy.ranges;
    AddMoves(ranges, id, key);
    OnlyKey(ranges, LAST);
    OneBoundary(ranges, LAST, key);
  }

  // ---------------------------------------------------------------- removing

  function BoundariesOf(ranges: Ranges, id: ShardId): set<Key> { set b | b in ranges && ranges[b] == id }

  /** The first boundary of another shard that is not below the key. */
  ghost predicate NextOther(ranges: Ranges, id: ShardId, key: Key, b: Key) {
    && b in ranges && ranges[b] != id && UpTo(key, b)
    && forall c :: c in ranges && ranges[c] != id && UpTo(key, c) ==> UpTo(b, c)
  }

  /** Removing a range shard leaves the other keys where they are; its own go to the next boundary of
      another shard, or nowhere if there is none. */
  lemma RemoveGives(ranges: Ranges, id: ShardId, key: Key)
    ensures var before, after := RangeOwner(ranges, key), RangeOwner(ranges - BoundariesOf(ranges, id), key);
            && (before != Some(id) ==> after == before)
            && (forall b :: NextOther(ranges, id, key, b) ==> after == Some(ranges[b]))
            && (after.Some? ==> after.value != id && exists b :: NextOther(ranges, id, key, b))
  {
    var rest := ranges - BoundariesOf(ranges, id);
    forall b | NextOther(ranges, id, key, b) ensures RangeOwner(rest, key) == Some(ranges[b]) {
      OwnerIs(rest, key, b);
    }
    if Reaches(rest.Keys, key) {
      var b := First(rest.Keys, key);
      assert NextOther(ranges, id, key, b);
    }
    if RangeOwner(ranges, key) != Some(id) && Reaches(ranges.Keys, key) {
      var b := First(ranges.Keys, key);
      assert NextOther(ranges, id, key, b);
    } else if !Reaches(ranges.Keys, key) {
      assert !Reaches(rest.Keys, key);
    }
  }

  lemma BelowNotUpTo(a: Key, b: Key)
    requires Below(a, b)
    ensures !UpTo(b, a)
  {
    if UpTo(b, a) { UpToAntisymmetric(a, b); BelowIrreflexive(a); }
  }

  // ---------------------------------------------------------------- merging

  /** The ranges after the victim's boundary `vk` is dropped in favour of `retained`. */
  ghost function MergedRanges(ranges: Ranges, vk: Key, retained: ShardId): Ranges {
    var rest := ranges - {vk};
    if vk != LAST then rest
    else if HasBoundary(rest, retained) then (rest - {BoundaryOf(rest, retained)})[LAST := retained]
    else rest[LAST := retained]
  }

  lemma BoundaryExists(ranges: Ranges, id: ShardId) returns (b: Key)
    requires HasBoundary(ranges, id)
    ensures IsBoundaryOf(ranges, id, b)
  {
    var ks := set c | c in ranges && ranges[c] == id;
    var x :| x in ranges && ranges[x] == id;
    assert x in ks;
    LowerThanAll(ks);
    assert Reaches(ks, "");
    b := FirstExists(ks, "");
    forall c | c in ranges && ranges[c] == id ensures UpTo(b, c) { assert c in ks; EmptyFirst(c); }
  }

  ghost function BoundaryOf(ranges: Ranges, id: ShardId): (b: Key)
    requires HasBoundary(ranges, id)
    ensures IsBoundaryOf(ranges, id, b)
  {
    assert exists b :: IsBoundaryOf(ranges, id, b) by { var b := BoundaryExists(ranges, id); }
    var b :| IsBoundaryOf(ranges, id, b);
    b
  }

  ghost predicate CanMerge(t: Table, victim: ShardId, retained: ShardId) {
    t.strategy.Range? && victim in t.shards && retained in t.shards && HasBoundary(t.strategy.ranges, victim)
  }

  ghost function MergedTable(t: Table, victim: ShardId, retained: ShardId): Table
    requires CanMerge(t, victim, retained)
  {
    Table(Range(MergedRanges(t.strategy.ranges, BoundaryOf(t.strategy.ranges, victim), retained)),
          t.shards - {victim}, t.peers - {victim})
  }

  /** `b` is the boundary right after `a`. */
  ghost predicate Follows(ranges: Ranges, a: Key, b: Key) {
    a in ranges && b in ranges && Below(a, b) && forall c :: c in ranges ==> UpTo(c, a) || UpTo(b, c)
  }

  /** Merging moves exactly the victim's keys, and all of them, to the retained shard. */
  ghost predicate MergeExact(ranges: Ranges, after: Ranges, victim: ShardId, retained: ShardId) {
    forall key :: UpTo(key, LAST) ==>
      RangeOwner(after, key) == if RangeOwner(ranges, key) == Some(victim) then Some(retained) else RangeOwner(ranges, key)
  }

  /** The retained shard is next to the victim: right after it, or, when the victim has
      the last range, right before it or without a range of its own. */
  ghost predicate Adjacent(ranges: Ranges, victim: ShardId, retained: ShardId)
    requires HasBoundary(ranges, victim)
  {
    var vk := BoundaryOf(ranges, victim);
    if vk != LAST then HasBoundary(ranges, retained) && Follows(ranges, vk, BoundaryOf(ranges, retained))
    else !HasBoundary(ranges, retained) || Follows(ranges, BoundaryOf(ranges, retained), vk)
  }

  ghost predicate Closed(ranges: Ranges) {
    && LAST in ranges && OneRangeEach(ranges)
    && forall b :: b in ranges ==> UpTo(b, LAST)
  }

  lemma OwnerUnique(ranges: Ranges, key: Key, id: ShardId)
    requires Closed(ranges) && UpTo(key, LAST) && HasBoundary(ranges, id)
    ensures RangeOwner(ranges, key) == Some(id) <==> IsFirst(ranges.Keys, key, BoundaryOf(ranges, id))
  {
    assert Reaches(ranges.Keys, key) by { assert LAST in ranges.Keys; }
    if IsFirst(ranges.Keys, key, BoundaryOf(ranges, id)) { OwnerIs(ranges, key, BoundaryOf(ranges, id)); }
  }

  /** Dropping a boundary hands its keys to the next one. */
  lemma DropBoundary(ranges: Ranges, vk: Key, next: Key, key: Key)
    requires Follows(ranges, vk, next)
    ensures RangeOwner(ranges - {vk}, key)
         == if IsFirst(ranges.Keys, key, vk) then Some(ranges[next]) else RangeOwner(ranges, key)
  {
    var after := ranges - {vk};
    BelowIrreflexive(vk);
    if IsFirst(ranges.Keys, key, vk) {
      UpToTransitive(key, vk, next);
      forall c | c in after.Keys && UpTo(key, c) ensures UpTo(next, c) {
        if UpTo(c, vk) { UpToAntisymmetric(c, vk); }
      }
      OwnerIs(after, key, next);
    } else if Reaches(ranges.Keys, key) {
      var b := First(ranges.Keys, key);
      assert b != vk && b in after.Keys;
      assert IsFirst(after.Keys, key, b);
      OwnerIs(after, key, b);
    } else {
      assert !Reaches(after.Keys, key);
    }
  }

  /** Moving the last boundary from one owner to another. */
  lemma Relabel(ranges: Ranges, b: Key, id: ShardId, key: Key)
    requires b in ranges
    ensures RangeOwner(ranges[b := id], key)
         == if IsFirst(ranges.Keys, key, b) then Some(id) else RangeOwner(ranges, key)
  {
    assert ranges[b := id].Keys == ranges.Keys;
    if Reaches(ranges.Keys, key) {
      var f := First(ranges.Keys, key);
      OwnerIs(ranges[b := id], key, f);
      if IsFirst(ranges.Keys, key, b) { FirstUnique(ranges.Keys, key, f, b); }
    }
  }

  lemma NextExists(ranges: Ranges, a: Key, top: Key) returns (b: Key)
    requires a in ranges && top in ranges && Below(a, top)
    ensures Follows(ranges, a, b) && UpTo(b, top)
  {
    var ks := set c | c in ranges && Below(a, c);
    assert top in ks;
    LowerThanAll(ks);
    b := FirstExists(ks, "");
    forall c | c in ranges ensures UpTo(c, a) || UpTo(b, c) {
      BelowTotal(a, c);
      if Below(a, c) { assert c in ks; EmptyFirst(c); }
    }
    EmptyFirst(top);
  }

  lemma MergeIntoNext(ranges: Ranges, victim: ShardId, retained: ShardId)
    requires Closed(ranges) && victim != retained && HasBoundary(ranges, victim) && Adjacent(ranges, victim, retained)
    requires BoundaryOf(ranges, victim) != LAST
    ensures MergeExact(ranges, MergedRanges(ranges, BoundaryOf(ranges, victim), retained), victim, retained)
  {
    var vk, rk := BoundaryOf(ranges, victim), BoundaryOf(ranges, retained);
    forall key | UpTo(key, LAST)
      ensures RangeOwner(ranges - {vk}, key) == if RangeOwner(ranges, key) == Some(victim) then Some(retained) else RangeOwner(ranges, key) {
      DropBoundary(ranges, vk, rk, key);
      OwnerUnique(ranges, key, victim);
    }
  }

  /** What merging away the last range amounts to. */
  lemma MergedLast(ranges: Ranges, victim: ShardId, retained: ShardId)
    requires Closed(ranges) && victim != retained && ranges[LAST] == victim
    ensures MergedRanges(ranges, LAST, retained)
         == if HasBoundary(ranges, retained) then ranges[LAST := retained] - {BoundaryOf(ranges, retained)}
            else ranges[LAST := retained]
  {
    var rest := ranges - {LAST};
    if HasBoundary(ranges, retained) {
      var rk := BoundaryOf(ranges, retained);
      assert rk in rest && rest[rk] == retained;
      assert BoundaryOf(rest, retained) == rk;
      assert (rest - {rk})[LAST := retained] == ranges[LAST := retained] - {rk};
    } else {
      assert rest[LAST := retained] == ranges[LAST := retained];
    }
  }

  lemma MergeLast(ranges: Ranges, victim: ShardId, retained: ShardId)
    requires Closed(ranges) && victim != retained && ranges[LAST] == victim && HasBoundary(ranges, victim)
    requires HasBoundary(ranges, retained) ==> Follows(ranges, BoundaryOf(ranges, retained), LAST)
    ensures MergeExact(ranges, MergedRanges(ranges, LAST, retained), victim, retained)
  {
    MergedLast(ranges, victim, retained);
    var after := MergedRanges(ranges, LAST, retained);
    var moved := ranges[LAST := retained];
    assert BoundaryOf(ranges, victim) == LAST;
    forall key | UpTo(key, LAST)
      ensures RangeOwner(after, key) == if RangeOwner(ranges, key) == Some(victim) then Some(retained) else RangeOwner(ranges, key) {
      Relabel(ranges, LAST, retained, key);
      OwnerUnique(ranges, key, victim);
      if HasBoundary(ranges, retained) {
        var rk := BoundaryOf(ranges, retained);
        assert Follows(moved, rk, LAST);
        DropBoundary(moved, rk, LAST, key);
        assert moved.Keys == ranges.Keys;
        OwnerUnique(ranges, key, retained);
      }
    }
  }

  /** Merging is exact if and only if the two shards are adjacent. */
  lemma MergeExactIffAdjacent(ranges: Ranges, victim: ShardId, retained: ShardId)
    requires Closed(ranges) && victim != retained && HasBoundary(ranges, victim)
    ensures MergeExact(ranges, MergedRanges(ranges, BoundaryOf(ranges, victim), retained), victim, retained)
       <==> Adjacent(ranges, victim, retained)
  {
    var vk := BoundaryOf(ranges, victim);
    if Adjacent(ranges, victim, retained) {
      if vk == LAST { MergeLast(ranges, victim, retained); } else { MergeIntoNext(ranges, victim, retained); }
    }
    if MergeExact(ranges, MergedRanges(ranges, vk, retained), victim, retained) {
      if vk == LAST { ExactLast(ranges, victim, retained); } else { ExactNext(ranges, victim, retained); }
    }
  }

  lemma ExactNext(ranges: Ranges, victim: ShardId, retained: ShardId)
    requires Closed(ranges) && victim != retained && HasBoundary(ranges, victim) && BoundaryOf(ranges, victim) != LAST
    requires MergeExact(ranges, ranges - {BoundaryOf(ranges, victim)}, victim, retained)
    ensures Adjacent(ranges, victim, retained)
  {
    var vk := BoundaryOf(ranges, victim);
    var nb := NextExists(ranges, vk, LAST);
    DropBoundary(ranges, vk, nb, vk);
    OwnerUnique(ranges, vk, victim);
    assert IsFirst(ranges.Keys, vk, vk);
    assert RangeOwner(ranges - {vk}, vk) == Some(ranges[nb]);
    assert BoundaryOf(ranges, retained) == nb;
  }

  lemma ExactLast(ranges: Ranges, victim: ShardId, retained: ShardId)
    requires Closed(ranges) && victim != retained && HasBoundary(ranges, victim) && BoundaryOf(ranges, victim) == LAST
    requires MergeExact(ranges, MergedRanges(ranges, LAST, retained), victim, retained)
    ensures Adjacent(ranges, victim, retained)
  {
    hide MergedRanges, RangeOwner;
    if HasBoundary(ranges, retained) {
      var rk := BoundaryOf(ranges, retained);
      var nb := NextExists(ranges, rk, LAST);
      MergedLast(ranges, victim, retained);
      var moved := ranges[LAST := retained];
      NextOwner(ranges, moved, rk, nb);
      OwnerUnique(ranges, rk, retained);
      assert IsFirst(ranges.Keys, rk, rk);
      assert RangeOwner(moved - {rk}, rk) == Some(retained);
      BelowIrreflexive(rk);
      assert nb == LAST;
    }
  }

  lemma NextOwner(ranges: Ranges, moved: Ranges, rk: Key, nb: Key)
    requires Follows(ranges, rk, nb) && moved.Keys == ranges.Keys
    ensures RangeOwner(moved - {rk}, rk) == Some(moved[nb])
  {
    assert rk in moved && nb in moved && Follows(moved, rk, nb);
    assert IsFirst(moved.Keys, rk, rk);
    DropBoundary(moved, rk, nb, rk);
  }

  // ---------------------------------------------------------------- runs of changes

  datatype Change =
    | Add(id: ShardId, ps: Peers)
    | Split(key: Key, id: ShardId, ps: Peers)
    | Merge(victim: ShardId, retained: ShardId)

  function AddedTable(t: Table, id: ShardId, ps: Peers): Table
    requires t.strategy.Range?
  {
    if id in t.shards then t.(peers := t.peers[id := ps])
    else Table(Range(AddedRanges(t.strategy.ranges, id)), t.shards + {id}, t.peers[id := ps])
  }

  /** A change that is not possible leaves the table as it is. */
  ghost function Changed(t: Table, c: Change): Table
    requires t.strategy.Range?
  {
    match c
    case Add(id, ps) => AddedTable(t, id, ps)
    case Split(key, id, ps) => if CanSplit(t, key, id) then SplitAt(t, key, id, ps) else t
    case Merge(v, r) => if CanMerge(t, v, r) then MergedTable(t, v, r) else t
  }

  /** The change merges the shard with the last boundary into itself: it is unregistered and keeps the boundary. */
  ghost predicate Strands(t: Table, c: Change)
    requires t.strategy.Range?
  {
    c.Merge? && c.victim == c.retained && CanMerge(t, c.victim, c.retained) && BoundaryOf(t.strategy.ranges, c.victim) == LAST
  }

  lemma AddKeeps(t: Table, id: ShardId, ps: Peers)
    requires RangesOk(t)
    ensures RangesOk(AddedTable(t, id, ps))
    ensures id !in t.shards ==> AddedTable(t, id, ps).strategy.ranges != map[]
  {
    var ranges := t.strategy.ranges;
    if id !in t.shards {
      var after := AddedRanges(ranges, id);
      if ranges == map[] {
        assert LAST in after;
      } else if |ranges| == 1 {
        OnlyKey(ranges, LAST);
        assert UpTo(MIDDLE, LAST) && MIDDLE in after;
      } else {
        assert ("z-" + id)[0] == 'z' && LAST[0] == '\U{10FFFF}';
        assert UpTo("z-" + id, LAST) && "z-" + id in after;
      }
    }
  }

  lemma SplitKeeps(t: Table, key: Key, id: ShardId, ps: Peers)
    requires RangesOk(t) && CanSplit(t, key, id)
    ensures RangesOk(SplitAt(t, key, id, ps))
  {
    var b := First(t.strategy.ranges.Keys, key);
    UpToTransitive(key, b, LAST);
  }

  lemma MergeKeeps(t: Table, v: ShardId, r: ShardId)
    requires RangesOk(t) && CanMerge(t, v, r) && !Strands(t, Merge(v, r))
    ensures RangesOk(MergedTable(t, v, r))
  {
    var ranges := t.strategy.ranges;
    var vk := BoundaryOf(ranges, v);
    if vk == LAST { MergedLast(ranges, v, r); }
  }

  /** Merging the last shard into itself leaves the last keys to a shard that is not registered. */
  lemma StrandedOwner(t: Table, v: ShardId)
    requires RangesOk(t) && Strands(t, Merge(v, v))
    ensures var t' := MergedTable(t, v, v); RangeOwner(t'.strategy.ranges, LAST) == Some(v) && v !in t'.shards && v !in t'.peers
  {
    var after := MergedTable(t, v, v).strategy.ranges;
    assert LAST in after && after[LAST] == v;
    assert forall b :: b in after ==> UpTo(b, LAST);
    FirstIs(after.Keys, LAST, LAST);
  }

  /** A change keeps the table well formed exactly if it does not merge the last shard into itself. */
  lemma ChangeKeepsIff(t: Table, c: Change)
    requires RangesOk(t)
    ensures RangesOk(Changed(t, c)) <==> !Strands(t, c)
  {
    match c
    case Add(id, ps) => AddKeeps(t, id, ps);
    case Split(key, id, ps) => if CanSplit(t, key, id) { SplitKeeps(t, key, id, ps); }
    case Merge(v, r) =>
      if Strands(t, c) { StrandedOwner(t, v); assert LAST in Changed(t, c).strategy.ranges; }
      else if CanMerge(t, v, r) { MergeKeeps(t, v, r); }
  }

  const NO_SHARDS := Table(Range(map[]), {}, map[])

  ghost function After(cs: seq<Change>): (t: Table)
    ensures t.strategy.Range?
  {
    if cs == [] then NO_SHARDS else Changed(After(cs[..|cs| - 1]), cs[|cs| - 1])
  }

  ghost predicate StrandsAt(cs: seq<Change>, i: nat)
    requires i < |cs|
  {
    Strands(After(cs[..i]), cs[i])
  }

  /** No change merges the last shard into itself. */
  ghost predicate Sensible(cs: seq<Change>) {
    forall i :: 0 <= i < |cs| ==> !StrandsAt(cs, i)
  }

  lemma SensibleBefore(cs: seq<Change>)
    requires Sensible(cs) && cs != []
    ensures Sensible(cs[..|cs| - 1]) && !Strands(After(cs[..|cs| - 1]), cs[|cs| - 1])
  {
    var before := cs[..|cs| - 1];
    assert !StrandsAt(cs, |cs| - 1);
    forall i | 0 <= i < |before| ensures !StrandsAt(before, i) {
      assert !StrandsAt(cs, i);
      assert before[..i] == cs[..i];
    }
  }

  lemma {:induction false} RunsOk(cs: seq<Change>)
    requires Sensible(cs)
    ensures RangesOk(After(cs))
    decreases |cs|
  {
    if cs != [] {
      SensibleBefore(cs);
      RunsOk(cs[..|cs| - 1]);
      ChangeKeepsIff(After(cs[..|cs| - 1]), cs[|cs| - 1]);
    }
  }

  ghost predicate OkAt(cs: seq<Change>, i: nat)
    requires i <= |cs|
  {
    RangesOk(After(cs[..i]))
  }

  /** The table is well formed throughout a run exactly if no change merges the last shard into itself. */
  lemma RunsOkIff(cs: seq<Change>)
    ensures (forall i :: 0 <= i <= |cs| ==> OkAt(cs, i)) <==> Sensible(cs)
  {
    hide RangesOk, Strands, After;
    if Sensible(cs) {
      forall i | 0 <= i <= |cs| ensures OkAt(cs, i) { SensibleUpTo(cs, i); RunsOk(cs[..i]); }
    } else {
      var i :| 0 <= i < |cs| && StrandsAt(cs, i);
      if OkAt(cs, i) {
        ChangeKeepsIff(After(cs[..i]), cs[i]);
        OneMore(cs, i);
        assert !OkAt(cs, i + 1);
      }
    }
  }

  lemma OneMore(cs: seq<Change>, i: nat)
    requires i < |cs|
    ensures After(cs[..i + 1]) == Changed(After(cs[..i]), cs[i])
  {
    assert cs[..i + 1][..i] == cs[..i];
  }

  lemma SensibleUpTo(cs: seq<Change>, i: nat)
    requires Sensible(cs) && i <= |cs|
    ensures Sensible(cs[..i])
  {
    forall j | 0 <= j < i ensures !StrandsAt(cs[..i], j) {
      assert !StrandsAt(cs, j);
      assert cs[..i][..j] == cs[..j];
    }
  }

  /** The first shard, merged into itself, owns every key and is not registered. */
  lemma StrandedRun(id: ShardId, ps: Peers)
    ensures var t := After([Add(id, ps), Merge(id, id)]); RangeOwner(t.strategy.ranges, LAST) == Some(id) && t.shards == {}
  {
    var cs := [Add(id, ps), Merge(id, id)];
    var t := After([Add(id, ps)]);
    assert cs[..0] == [] && cs[..1] == [Add(id, ps)] && cs[..2] == cs;
    OneMore(cs, 0);
    OneMore(cs, 1);
    AddKeeps(NO_SHARDS, id, ps);
    assert LAST in t.strategy.ranges && t.strategy.ranges[LAST] == id && t.shards == {id};
    assert HasBoundary(t.strategy.ranges, id) && BoundaryOf(t.strategy.ranges, id) == LAST;
    StrandedOwner(t, id);
  }

  lemma StaysOccupied(t: Table, c: Change)
    requires RangesOk(t) && t.strategy.ranges != map[] && !Strands(t, c)
    ensures Changed(t, c).strategy.ranges != map[]
  {
    match c
    case Add(id, ps) => AddKeeps(t, id, ps);
    case Split(key, id, ps) => if CanSplit(t, key, id) { assert key in Changed(t, c).strategy.ranges; }
    case Merge(v, r) =>
      if CanMerge(t, v, r) {
        var vk := BoundaryOf(t.strategy.ranges, v);
        if vk == LAST { MergedLast(t.strategy.ranges, v, r); }
        assert LAST in Changed(t, c).strategy.ranges;
      }
  }

  /** Without boundaries there are no shards. */
  lemma {:induction false} EmptyTogether(cs: seq<Change>)
    requires Sensible(cs)
    ensures After(cs).strategy.ranges == map[] ==> After(cs).shards == {}
    decreases |cs|
  {
    if cs != [] {
      var before := cs[..|cs| - 1];
      SensibleBefore(cs);
      EmptyTogether(before);
      RunsOk(before);
      if After(before).strategy.ranges != map[] { StaysOccupied(After(before), cs[|cs| - 1]); }
      else { FirstShard(After(before), cs[|cs| - 1]); }
    }
  }

  lemma FirstShard(t: Table, c: Change)
    requires RangesOk(t) && t.strategy.ranges == map[] && t.shards == {}
    ensures if c.Add? then Changed(t, c).strategy.ranges != map[] else Changed(t, c).shards == {}
  {
    if c.Add? { AddKeeps(t, c.id, c.ps); }
  }

  /** There are boundaries exactly when some change added a shard. */
  lemma {:induction false} OccupiedIff(cs: seq<Change>)
    requires Sensible(cs)
    ensures After(cs).strategy.ranges != map[] <==> exists i :: 0 <= i < |cs| && cs[i].Add?
    decreases |cs|
  {
    if cs != [] {
      var last := |cs| - 1;
      var before := cs[..last];
      SensibleBefore(cs);
      OccupiedIff(before);
      RunsOk(before);
      EmptyTogether(before);
      assert forall i :: 0 <= i < last ==> before[i] == cs[i];
      if After(before).strategy.ranges != map[] {
        StaysOccupied(After(before), cs[last]);
      } else {
        FirstShard(After(before), cs[last]);
        if !cs[last].Add? { NoShardsNoChange(After(before), cs[last]); }
      }
    }
  }

  lemma NoShardsNoChange(t: Table, c: Change)
    requires t.strategy.Range? && t.strategy.ranges == map[] && !c.Add?
    ensures Changed(t, c).strategy.ranges == map[]
  {
  }

  /** After any run of changes in which some shard was added and none merges the last shard into
      itself, every key up to the last boundary has exactly one owner, registered with its peers. */
  lemma EveryKeyOwned(cs: seq<Change>, key: Key)
    requires Sensible(cs) && UpTo(key, LAST) && exists i :: 0 <= i < |cs| && cs[i].Add?
    ensures var t := After(cs);
            var o := RangeOwner(t.strategy.ranges, key);
            o.Some? && o.value in t.shards && o.value in t.peers
  {
    RunsOk(cs);
    OccupiedIff(cs);
    OwnerRegistered(After(cs), key);
  }

  /** Merging the shard that a split made undoes the split. */
  lemma MergeUndoesSplit(t: Table, key: Key, id: ShardId, ps: Peers, retained: ShardId)
    requires RangesOk(t) && CanSplit(t, key, id) && retained in t.shards
    ensures var s := SplitAt(t, key, id, ps);
            CanMerge(s, id, retained) && MergedTable(s, id, retained) == t
  {
    var s := SplitAt(t, key, id, ps);
    SplitKeeps(t, key, id, ps);
    assert s.strategy.ranges[key] == id;
    assert BoundaryOf(s.strategy.ranges, id) == key;
    assert key != LAST;
    assert s.strategy.ranges - {key} == t.strategy.ranges;
    assert s.peers - {id} == t.peers && s.shards - {id} == t.shards;
  }

  // ---------------------------------------------------------------- hash ring

  /** The point that serves hash `h`: the first from there on, or the first of all. */
  ghost predicate Serves(points: set<nat>, h: nat, p: nat) {
    && p in points
    && if exists c :: c in points && c >= h then p >= h && (forall c :: c in points && c >= h ==> p <= c)
       else forall c :: c in points ==> p <= c
  }

  lemma {:induction false} LeastPoint(points: set<nat>) returns (p: nat)
    requires points != {}
    ensures p in points && forall c :: c in points ==> p <= c
    decreases points
  {
    var x :| x in points;
    var rest := points - {x};
    assert forall c :: c in points ==> c == x || c in rest;
    p := x;
    if rest != {} {
      var y := LeastPoint(rest);
      if y < x { p := y; }
    }
  }

  lemma ServerExists(points: set<nat>, h: nat) returns (p: nat)
    requires points != {}
    ensures Serves(points, h, p)
  {
    var above := set c | c in points && c >= h;
    if above != {} {
      p := LeastPoint(above);
      assert p in points && p >= h;
      forall c | c in points && c >= h ensures p <= c { assert c in above; }
    } else {
      p := LeastPoint(points);
      assert forall c :: c in points && c >= h ==> c in above;
    }
  }

  ghost function RingOwner(ring: Ring, h: nat): Option<ShardId> {
    if ring == map[] then None else Some(ring[ServingPoint(ring.Keys, h)])
  }

  ghost function ServingPoint(points: set<nat>, h: nat): (p: nat)
    requires points != {}
    ensures Serves(points, h, p)
  {
    assert exists p :: Serves(points, h, p) by { var p := ServerExists(points, h); }
    var p :| Serves(points, h, p);
    p
  }

  lemma ServesOnce(points: set<nat>, h: nat, p: nat, q: nat)
    requires Serves(points, h, p) && Serves(points, h, q)
    ensures p == q
  {
  }

  lemma RingOwnerIs(ring: Ring, h: nat, p: nat)
    requires Serves(ring.Keys, h, p)
    ensures RingOwner(ring, h) == Some(ring[p])
  {
    ServesOnce(ring.Keys, h, p, ServingPoint(ring.Keys, h));
  }

  /** A new shard takes over its points, also those that others had. */
  function AddedRing(ring: Ring, points: set<nat>, id: ShardId): Ring {
    ring + map p | p in points :: if p in points then id else ""
  }

  function PointsOf(ring: Ring, id: ShardId): set<nat> { set p | p in ring && ring[p] == id }

  function RemovedRing(ring: Ring, id: ShardId): Ring {
    ring - PointsOf(ring, id)
  }

  /** Adding a shard moves keys to the new shard only. */
  lemma AddMovesToNew(ring: Ring, points: set<nat>, id: ShardId, h: nat)
    ensures var after := RingOwner(AddedRing(ring, points, id), h);
            after == RingOwner(ring, h) || after == Some(id)
  {
    var after := AddedRing(ring, points, id);
    if after != map[] {
      var p := ServerExists(after.Keys, h);
      RingOwnerIs(after, h, p);
      if p !in points {
        assert p in ring && ring.Keys <= after.Keys;
        assert Serves(ring.Keys, h, p);
        RingOwnerIs(ring, h, p);
      }
    } else {
      assert ring == map[];
    }
  }

  /** Removing a shard moves its own keys only, and none stay with it. */
  lemma RemoveMovesOwn(ring: Ring, id: ShardId, h: nat)
    ensures var after := RingOwner(RemovedRing(ring, id), h);
            && after != Some(id)
            && (RingOwner(ring, h) != Some(id) ==> after == RingOwner(ring, h))
  {
    var after := RemovedRing(ring, id);
    if ring != map[] {
      var p := ServerExists(ring.Keys, h);
      RingOwnerIs(ring, h, p);
      if ring[p] != id {
        assert p in after && after.Keys <= ring.Keys;
        assert Serves(after.Keys, h, p);
        RingOwnerIs(after, h, p);
      }
    } else {
      assert after == map[];
    }
  }

  /** Removing a shard undoes adding it, unless it had taken over points of others. */
  lemma RemoveUndoesAdd(ring: Ring, points: set<nat>, id: ShardId)
    requires forall p :: p in ring ==> ring[p] != id
    ensures RemovedRing(AddedRing(ring, points, id), id) == ring <==> points !! ring.Keys
  {
    var back := RemovedRing(AddedRing(ring, points, id), id);
    if !(points !! ring.Keys) {
      var p :| p in points && p in ring.Keys;
      assert p !in back;
    } else {
      assert back == ring;
    }
  }
}
