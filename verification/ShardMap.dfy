/**
The shard map object. Sorted maps are scanned in ascending order.
*/
module ShardMap {
  import opened Options
  import opened StringOrder
  import opened ShardTable

  function Digit(d: nat): char
    requires d < 10
  {
    "0123456789"[d]
  }

  function Decimal(n: nat): string {
    if n < 10 then [Digit(n)] else Decimal(n / 10) + [Digit(n % 10)]
  }

  /** The ring points of a shard's first `n` virtual nodes. */
  function Points(hash: Key -> nat, id: ShardId, n: nat): set<nat> {
    if n == 0 then {} else Points(hash, id, n - 1) + {hash(id + ":" + Decimal(n - 1))}
  }

  /** The value of a string of digits. */
  function Value(s: string): nat
    requires forall i :: 0 <= i < |s| ==> '0' <= s[i] <= '9'
  {
    if s == "" then 0 else Value(s[..|s| - 1]) * 10 + (s[|s| - 1] - '0') as nat
  }

  /** The decimal form has the right value and no needless zero in front. */
  lemma {:induction false} DecimalMeans(n: nat)
    ensures (forall i :: 0 <= i < |Decimal(n)| ==> '0' <= Decimal(n)[i] <= '9') && Value(Decimal(n)) == n
    ensures Decimal(n) != "" && (n > 0 ==> Decimal(n)[0] != '0')
  {
    if n >= 10 {
      DecimalMeans(n / 10);
      assert Decimal(n)[..|Decimal(n)| - 1] == Decimal(n / 10);
    } else {
      assert Decimal(n)[..0] == "";
    }
  }

  /** Point `p` is that of virtual node `i`: the hash of the shard's name, a colon and the number. */
  predicate IsPoint(hash: Key -> nat, id: ShardId, i: nat, p: nat) { p == hash(id + ":" + Decimal(i)) }

  /** A shard has the points of its virtual nodes and no others. */
  lemma {:induction false} PointsMean(hash: Key -> nat, id: ShardId, n: nat, p: nat)
    ensures p in Points(hash, id, n) <==> exists i :: 0 <= i < n && IsPoint(hash, id, i, p)
  {
    if n > 0 {
      PointsMean(hash, id, n - 1, p);
      assert IsPoint(hash, id, n - 1, p) <==> p == hash(id + ":" + Decimal(n - 1));
    }
  }

  class ShardMap {
    const hash: Key -> nat
    var strategy: Strategy
    var shards: set<ShardId>
    var peers: map<ShardId, Peers>

    function View(): Table
      reads this
    {
      Table(strategy, shards, peers)
    }

    constructor (hash: Key -> nat, strategy: Strategy)
      ensures this.hash == hash && View() == Table(strategy, {}, map[])
    {
      this.hash := hash;
      this.strategy := strategy;
      shards, peers := {}, map[];
    }

    method RingPoints(id: ShardId, n: nat) returns (points: set<nat>)
      ensures points == Points(hash, id, n)
      ensures forall p :: p in points <==> exists i :: 0 <= i < n && IsPoint(hash, id, i, p)
    {
      points := {};
      var i := 0;
      while i < n
        invariant i <= n && points == Points(hash, id, i)
      {
        points := points + {hash(id + ":" + Decimal(i))};
        i := i + 1;
      }
      forall p ensures p in points <==> exists j :: 0 <= j < n && IsPoint(hash, id, j, p) {
        PointsMean(hash, id, n, p);
      }
    }

    /** Register a shard; a shard that is already there only gets new peers. */
    method AddShard(id: ShardId, ps: Peers)
      modifies this
      ensures strategy.Range? == old(strategy.Range?)
      ensures old(strategy).Range? ==> View() == AddedTable(old(View()), id, ps)
      ensures shards == old(shards) + {id} && peers == old(peers)[id := ps]
      ensures old(strategy).ConsistentHash? ==>
                strategy == if id in old(shards) then old(strategy)
                            else old(strategy).(ring := AddedRing(old(strategy).ring, Points(hash, id, old(strategy).virtualNodes), id))
      ensures old(strategy).Range? && id !in old(shards) ==>
                forall key :: AddGives(old(strategy).ranges, strategy.ranges, id, key)
      ensures old(strategy).ConsistentHash? && id !in old(shards) ==>
                && (forall i, p :: 0 <= i < old(strategy).virtualNodes && IsPoint(hash, id, i, p) ==>
                      p in strategy.ring && strategy.ring[p] == id)
                && (forall p :: p in strategy.ring && strategy.ring[p] != id ==>
                      p in old(strategy).ring && strategy.ring[p] == old(strategy).ring[p])
    {
      peers := peers[id := ps];
      if id in shards { return; }
      shards := shards + {id};
      match strategy
      case ConsistentHash(ring, n) =>
        var points := RingPoints(id, n);
        strategy := strategy.(ring := AddedRing(ring, points, id));
      case Range(ranges) =>
        forall key ensures AddGives(ranges, AddedRanges(ranges, id), id, key) { AddMoves(ranges, id, key); }
        if ranges == map[] {
          strategy := Range(map[LAST := id]);
        } else if |ranges| == 1 {
          strategy := Range(map[MIDDLE := id, LAST := OnlyValue(ranges)]);
        } else {
          strategy := Range(ranges["z-" + id := id]);
        }
    }

    /** Drop every ring point or boundary of a shard. */
    method RemoveShard(id: ShardId)
      modifies this
      ensures id !in old(shards) ==> View() == old(View())
      ensures id in old(shards) ==> shards == old(shards) - {id} && peers == old(peers) - {id}
      ensures id in old(shards) && old(strategy).ConsistentHash? ==> strategy == old(strategy).(ring := RemovedRing(old(strategy).ring, id))
      ensures id in old(shards) && old(strategy).Range? ==>
                strategy == Range(old(strategy).ranges - BoundariesOf(old(strategy).ranges, id))
    {
      if id !in shards { return; }
      shards := shards - {id};
      peers := peers - {id};
      match strategy
      case ConsistentHash(ring, n) =>
        var rest, kept := ring.Keys, ring;
        while rest != {}
          invariant rest <= ring.Keys
          invariant kept == ring - (PointsOf(ring, id) - rest)
          decreases rest
        {
          var p :| p in rest;
          if ring[p] == id { kept := kept - {p}; }
          rest := rest - {p};
        }
        strategy := strategy.(ring := kept);
      case Range(ranges) =>
        var rest, kept := ranges.Keys, ranges;
        while rest != {}
          invariant rest <= ranges.Keys
          invariant kept == ranges - (BoundariesOf(ranges, id) - rest)
          decreases rest
        {
          var b :| b in rest;
          if ranges[b] == id { kept := kept - {b}; }
          rest := rest - {b};
        }
        strategy := Range(kept);
    }

    /** The shard responsible for a key. */
    method GetShard(key: Key) returns (r: Option<ShardId>)
      ensures r == match strategy
                   case Range(ranges) => RangeOwner(ranges, key)
                   case ConsistentHash(ring, _) => RingOwner(ring, hash(key))
    {
      match strategy
      case Range(ranges) =>
        var b := FindFirst(ranges.Keys, key);
        if b.Some? {
          OwnerIs(ranges, key, b.value);
          r := Some(ranges[b.value]);
        } else {
          r := None;
        }
      case ConsistentHash(ring, n) =>
        if ring == map[] { return None; }
        var p := ServingPointOf(ring.Keys, hash(key));
        RingOwnerIs(ring, hash(key), p);
        r := Some(ring[p]);
    }

    /** Cut a range in two at `key`; the lower part goes to a new shard. */
    method SplitShard(key: Key, id: ShardId, ps: Peers) returns (ok: bool)
      modifies this
      ensures ok == CanSplit(old(View()), key, id)
      ensures View() == if ok then SplitAt(old(View()), key, id, ps) else old(View())
    {
      if strategy.ConsistentHash? || id in shards || key in strategy.ranges { return false; }
      var b := FindFirst(strategy.ranges.Keys, key);
      if b.None? { return false; }
      strategy := Range(strategy.ranges[key := id]);
      shards := shards + {id};
      peers := peers[id := ps];
      return true;
    }

    /** The first boundary that belongs to a shard. */
    static method FindBoundary(ranges: Ranges, id: ShardId) returns (r: Option<Key>)
      ensures r.Some? == HasBoundary(ranges, id)
      ensures r.Some? ==> r.value == BoundaryOf(ranges, id)
    {
      var ks := SortedKeys(ranges.Keys);
      r := None;
      var i := 0;
      while i < |ks|
        invariant i <= |ks| && r.None?
        invariant forall j :: 0 <= j < i ==> ks[j] in ranges && ranges[ks[j]] != id
      {
        assert ks[i] in ranges.Keys;
        if ranges[ks[i]] == id {
          BoundaryIs(ranges, id, ks, i);
          return Some(ks[i]);
        }
        i := i + 1;
      }
    }

    /** Give the victim's range up in favour of the retained shard. */
    method MergeShards(victim: ShardId, retained: ShardId) returns (ok: bool)
      modifies this
      ensures ok == CanMerge(old(View()), victim, retained)
      ensures View() == if ok then MergedTable(old(View()), victim, retained) else old(View())
      ensures ok ==> shards == old(shards) - {victim} && peers == old(peers) - {victim}
    {
      if strategy.ConsistentHash? || victim !in shards || retained !in shards { return false; }
      var vk := FindBoundary(strategy.ranges, victim);
      if vk.None? { return false; }
      var ranges := strategy.ranges - {vk.value};
      if vk.value == LAST {
        var rk := FindBoundary(ranges, retained);
        if rk.Some? { ranges := ranges - {rk.value}; }
        ranges := ranges[LAST := retained];
      }
      strategy := Range(ranges);
      shards := shards - {victim};
      peers := peers - {victim};
      return true;
    }

    /** The shards right before and right after a shard. */
    method GetNeighbors(id: ShardId) returns (before: Option<ShardId>, after: Option<ShardId>)
      ensures strategy.ConsistentHash? || !HasBoundary(strategy.ranges, id) ==> before.None? && after.None?
      ensures strategy.Range? && HasBoundary(strategy.ranges, id) ==>
                && IsBefore(strategy.ranges, BoundaryOf(strategy.ranges, id), before)
                && IsAfter(strategy.ranges, BoundaryOf(strategy.ranges, id), after)
    {
      if strategy.ConsistentHash? { return None, None; }
      var ranges := strategy.ranges;
      var ks := SortedKeys(ranges.Keys);
      var prev: Option<ShardId> := None;
      var i := 0;
      while i < |ks|
        invariant i <= |ks| && prev == if i == 0 then None else Some(ranges[ks[i - 1]])
        invariant forall j :: 0 <= j < i ==> ks[j] in ranges && ranges[ks[j]] != id
      {
        assert ks[i] in ranges.Keys;
        if ranges[ks[i]] == id {
          BoundaryIs(ranges, id, ks, i);
          NeighborsAre(ranges, ks, i);
          if i + 1 < |ks| { assert ks[i + 1] in ranges.Keys; }
          return prev, if i + 1 < |ks| then Some(ranges[ks[i + 1]]) else None;
        }
        prev := Some(ranges[ks[i]]);
        i := i + 1;
      }
      return None, None;
    }
  }

  ghost predicate IsBefore(ranges: Ranges, b: Key, r: Option<ShardId>) {
    if r.Some? then exists a :: Follows(ranges, a, b) && ranges[a] == r.value
    else forall a :: a in ranges ==> UpTo(b, a)
  }

  ghost predicate IsAfter(ranges: Ranges, b: Key, r: Option<ShardId>) {
    if r.Some? then exists c :: Follows(ranges, b, c) && ranges[c] == r.value
    else forall c :: c in ranges ==> UpTo(c, b)
  }

  lemma BoundaryIs(ranges: Ranges, id: ShardId, ks: seq<Key>, i: nat)
    requires Ascending(ks) && (forall k :: k in ranges.Keys <==> k in ks) && i < |ks| && ks[i] in ranges && ranges[ks[i]] == id
    requires forall j :: 0 <= j < i ==> ks[j] in ranges && ranges[ks[j]] != id
    ensures HasBoundary(ranges, id) && BoundaryOf(ranges, id) == ks[i]
  {
    forall c | c in ranges && ranges[c] == id ensures UpTo(ks[i], c) {
      assert c in ranges.Keys;
      var j :| 0 <= j < |ks| && ks[j] == c;
    }
    UpToAntisymmetric(ks[i], BoundaryOf(ranges, id));
  }

  lemma NeighborsAre(ranges: Ranges, ks: seq<Key>, i: nat)
    requires Ascending(ks) && (forall k :: k in ranges.Keys <==> k in ks) && i < |ks|
    ensures i > 0 ==> Follows(ranges, ks[i - 1], ks[i])
    ensures i + 1 < |ks| ==> Follows(ranges, ks[i], ks[i + 1])
    ensures i == 0 ==> forall c :: c in ranges ==> UpTo(ks[0], c)
    ensures i + 1 == |ks| ==> forall c :: c in ranges ==> UpTo(c, ks[i])
  {
    assert forall j :: 0 <= j < |ks| ==> ks[j] in ks;
    forall c | c in ranges ensures exists j :: 0 <= j < |ks| && ks[j] == c { assert c in ranges.Keys; }
  }

  method ServingPointOf(points: set<nat>, h: nat) returns (p: nat)
    requires points != {}
    ensures Serves(points, h, p)
  {
    var least, from := 0, 0;
    var any, above := false, false;
    var rest := points;
    while rest != {}
      invariant rest <= points && (rest != points ==> any)
      invariant any ==> least in points && forall c :: c in points && c !in rest ==> least <= c
      invariant above ==> from in points && from >= h && forall c :: c in points && c !in rest && c >= h ==> from <= c
      invariant !above ==> forall c :: c in points && c !in rest ==> c < h
      decreases rest
    {
      var c :| c in rest;
      if !any || c < least { least := c; }
      if c >= h && (!above || c < from) { above, from := true, c; }
      any := true;
      rest := rest - {c};
    }
    p := if above then from else least;
  }

  /** Merging the left neighbour of a shard into it moves exactly the neighbour's keys. */
  lemma LeftNeighborMerges(ranges: Ranges, victim: ShardId, id: ShardId)
    requires Closed(ranges) && HasBoundary(ranges, id) && victim != id && IsBefore(ranges, BoundaryOf(ranges, id), Some(victim))
    ensures HasBoundary(ranges, victim)
    ensures MergeExact(ranges, MergedRanges(ranges, BoundaryOf(ranges, victim), id), victim, id)
  {
    var b := BoundaryOf(ranges, id);
    var a :| Follows(ranges, a, b) && ranges[a] == victim;
    assert BoundaryOf(ranges, victim) == a;
    BelowNotUpTo(a, b);
    assert a != LAST;
    MergeExactIffAdjacent(ranges, victim, id);
  }
}
