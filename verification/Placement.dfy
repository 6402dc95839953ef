/**
Choosing servers for replicas: best space first within a rack, one server per
rack and round, so that racks are used evenly.
*/
module Placement {
  import opened Sorting

  const MAX_SPACE := 0xFFFF_FFFF_FFFF_FFFF

  type Space = x: nat | x <= MAX_SPACE
  type RackKey = string

  datatype Candidate = Candidate(address: string, rack: string, space: Space)

  /** Servers without a rack each count as a rack of their own. */
  function KeyOf(c: Candidate): RackKey {
    if c.rack == "" then "__addr__" + c.address else c.rack
  }

  /** Servers with a rack are on one rack if they name the same, those without if they are the same server. */
  lemma SameRack(c: Candidate, d: Candidate)
    requires (c.rack == "") == (d.rack == "")
    ensures KeyOf(c) == KeyOf(d) <==> if c.rack == "" then c.address == d.address else c.rack == d.rack
  {
    if c.rack == "" && KeyOf(c) == KeyOf(d) { assert c.address == KeyOf(c)[8..] == KeyOf(d)[8..] == d.address; }
  }

  function BestFirst(servers: seq<Candidate>): seq<Candidate> {
    SortBy(servers, (c: Candidate) => MAX_SPACE - c.space)
  }

  /** The servers of one rack, in the given order. */
  function OnRack(s: seq<Candidate>, k: RackKey): seq<Candidate> {
    if s == [] then []
    else OnRack(s[..|s| - 1], k) + if KeyOf(s[|s| - 1]) == k then [s[|s| - 1]] else []
  }

  function KeysOf(s: seq<Candidate>): set<RackKey> { set c | c in s :: KeyOf(c) }

  function Min(a: nat, b: nat): nat { if a < b then a else b }

  function Addresses(s: seq<Candidate>): seq<string> {
    seq(|s|, i requires 0 <= i < |s| => s[i].address)
  }

  lemma OnRackSnoc(s: seq<Candidate>, c: Candidate, k: RackKey)
    ensures OnRack(s + [c], k) == OnRack(s, k) + if KeyOf(c) == k then [c] else []
  {
    assert (s + [c])[..|s|] == s;
  }

  lemma {:induction false} OnRackHolds(s: seq<Candidate>, k: RackKey)
    ensures forall c :: c in OnRack(s, k) <==> c in s && KeyOf(c) == k
    decreases |s|
  {
    if s != [] {
      OnRackHolds(s[..|s| - 1], k);
      forall c | c in s && KeyOf(c) == k ensures c in OnRack(s, k) { assert c == s[|s| - 1] || c in s[..|s| - 1]; }
      forall c | c in OnRack(s, k) ensures c in s && KeyOf(c) == k {
        assert c in OnRack(s[..|s| - 1], k) || c == s[|s| - 1];
      }
    }
  }

  lemma {:induction false} CountOnRack(s: seq<Candidate>, c: Candidate)
    ensures multiset(s)[c] == multiset(OnRack(s, KeyOf(c)))[c]
    decreases |s|
  {
    if s != [] {
      CountOnRack(s[..|s| - 1], c);
      assert s == s[..|s| - 1] + [s[|s| - 1]];
    }
  }

  ghost predicate MostSpaceFirst(s: seq<Candidate>) {
    forall i, j :: 0 <= i < j < |s| ==> s[i].space >= s[j].space
  }

  /** The servers of a rack come with the most free space first. */
  lemma {:induction false} OnRackSorted(s: seq<Candidate>, k: RackKey)
    requires MostSpaceFirst(s)
    ensures MostSpaceFirst(OnRack(s, k))
    decreases |s|
  {
    if s != [] {
      var rest, o := s[..|s| - 1], s[|s| - 1];
      OnRackSorted(rest, k);
      OnRackHolds(rest, k);
      var b := OnRack(rest, k);
      forall i | 0 <= i < |b| ensures b[i].space >= o.space {
        assert b[i] in rest;
        var j :| 0 <= j < |rest| && rest[j] == b[i];
        assert s[j] == b[i];
      }
    }
  }

  lemma BestFirstSorted(servers: seq<Candidate>)
    ensures var s := BestFirst(servers);
            && MostSpaceFirst(s)
            && multiset(s) == multiset(servers) && |s| == |servers|
  {
    var key := (c: Candidate) => MAX_SPACE - c.space;
    SortBySorts(servers, key);
    var s := BestFirst(servers);
    forall i, j | 0 <= i < j < |s| ensures s[i].space >= s[j].space { assert key(s[i]) <= key(s[j]); }
  }

  // ---------------------------------------------------------------- taking turns

  /** Racks with distinct keys, none of them empty. */
  ghost predicate RacksOk(racks: seq<seq<Candidate>>, keys: seq<RackKey>) {
    && |racks| == |keys|
    && (forall r :: 0 <= r < |racks| ==> racks[r] != [] && forall c :: c in racks[r] ==> KeyOf(c) == keys[r])
    && (forall r, q :: 0 <= r < q < |keys| ==> keys[r] != keys[q])
  }

  function Total(racks: seq<seq<Candidate>>): nat {
    if racks == [] then 0 else Total(racks[..|racks| - 1]) + |racks[|racks| - 1]|
  }

  function Sum(ps: seq<nat>): nat {
    if ps == [] then 0 else Sum(ps[..|ps| - 1]) + ps[|ps| - 1]
  }

  /** After `k` full rounds and the first `r` racks of the next. */
  ghost predicate Turn(racks: seq<seq<Candidate>>, positions: seq<nat>, k: nat, r: nat) {
    && |positions| == |racks| && r <= |racks|
    && forall j :: 0 <= j < |racks| ==> positions[j] == Min(if j < r then k + 1 else k, |racks[j]|)
  }

  ghost predicate Picked(racks: seq<seq<Candidate>>, keys: seq<RackKey>, positions: seq<nat>, selected: seq<Candidate>)
    requires |racks| == |keys| == |positions|
  {
    && (forall j :: 0 <= j < |racks| ==> positions[j] <= |racks[j]| && OnRack(selected, keys[j]) == racks[j][..positions[j]])
    && (forall c :: c in selected ==> KeyOf(c) in keys)
    && |selected| == Sum(positions)
  }

  lemma {:induction false} SumUpdate(ps: seq<nat>, j: nat)
    requires j < |ps|
    ensures Sum(ps[j := ps[j] + 1]) == Sum(ps) + 1
    decreases |ps|
  {
    var up := ps[j := ps[j] + 1];
    if j == |ps| - 1 {
      assert up[..j] == ps[..j];
    } else {
      SumUpdate(ps[..|ps| - 1], j);
      assert up[..|ps| - 1] == ps[..|ps| - 1][j := ps[j] + 1];
    }
  }

  lemma {:induction false} SumAll(racks: seq<seq<Candidate>>, ps: seq<nat>)
    requires |ps| == |racks| && forall j :: 0 <= j < |ps| ==> ps[j] <= |racks[j]|
    ensures Sum(ps) <= Total(racks)
    ensures Sum(ps) == Total(racks) <==> forall j :: 0 <= j < |ps| ==> ps[j] == |racks[j]|
    decreases |ps|
  {
    if ps != [] { SumAll(racks[..|racks| - 1], ps[..|ps| - 1]); }
  }

  lemma {:induction false} SumZero(ps: seq<nat>)
    requires forall j :: 0 <= j < |ps| ==> ps[j] == 0
    ensures Sum(ps) == 0
    decreases |ps|
  {
    if ps != [] { SumZero(ps[..|ps| - 1]); }
  }

  lemma PickOne(racks: seq<seq<Candidate>>, keys: seq<RackKey>, positions: seq<nat>, selected: seq<Candidate>, r: nat)
    requires RacksOk(racks, keys) && |positions| == |racks| && Picked(racks, keys, positions, selected)
    requires r < |racks| && positions[r] < |racks[r]|
    ensures Picked(racks, keys, positions[r := positions[r] + 1], selected + [racks[r][positions[r]]])
  {
    hide OnRack, Sum;
    var c := racks[r][positions[r]];
    assert c in racks[r];
    SumUpdate(positions, r);
    forall j | 0 <= j < |racks|
      ensures OnRack(selected + [c], keys[j]) == racks[j][..positions[r := positions[r] + 1][j]] {
      OnRackSnoc(selected, c, keys[j]);
    }
  }

  lemma NothingPicked(racks: seq<seq<Candidate>>, keys: seq<RackKey>, positions: seq<nat>)
    requires |racks| == |keys| == |positions| && forall j :: 0 <= j < |positions| ==> positions[j] == 0
    ensures Picked(racks, keys, positions, []) && Turn(racks, positions, 0, 0)
  {
    SumZero(positions);
  }

  lemma TurnStep(racks: seq<seq<Candidate>>, positions: seq<nat>, k: nat, r: nat)
    requires Turn(racks, positions, k, r) && r < |racks|
    ensures Turn(racks, if positions[r] < |racks[r]| then positions[r := positions[r] + 1] else positions, k, r + 1)
  {
  }

  lemma PositionIs(racks: seq<seq<Candidate>>, positions: seq<nat>, k: nat, r: nat)
    requires Turn(racks, positions, k, r) && r < |racks|
    ensures positions[r] < |racks[r]| <==> k < |racks[r]|
    ensures k < |racks[r]| ==> positions[r] == k
  {
  }

  lemma TurnNext(racks: seq<seq<Candidate>>, positions: seq<nat>, k: nat)
    requires Turn(racks, positions, k, |racks|)
    ensures Turn(racks, positions, k + 1, 0)
  {
  }

  lemma PickedSum(racks: seq<seq<Candidate>>, keys: seq<RackKey>, positions: seq<nat>, selected: seq<Candidate>)
    requires |racks| == |keys| == |positions| && Picked(racks, keys, positions, selected)
    ensures |selected| <= Total(racks)
    ensures |selected| == Total(racks) <==> forall j :: 0 <= j < |racks| ==> positions[j] == |racks[j]|
  {
    SumAll(racks, positions);
  }

  /** The servers in the order of `k` full rounds and the first `r` racks of the next. */
  function Rounds(racks: seq<seq<Candidate>>, k: nat, r: nat): seq<Candidate>
    requires r <= |racks|
    decreases k, r
  {
    if r > 0 then Rounds(racks, k, r - 1) + if k < |racks[r - 1]| then [racks[r - 1][k]] else []
    else if k > 0 then Rounds(racks, k - 1, |racks|)
    else []
  }

  /** The first server comes from the first rack. */
  lemma {:induction false} RoundsFirst(racks: seq<seq<Candidate>>, k: nat, r: nat)
    requires r <= |racks| && forall j :: 0 <= j < |racks| ==> racks[j] != []
    ensures Rounds(racks, k, r) != [] ==> racks != [] && Rounds(racks, k, r)[0] == racks[0][0]
    decreases k, r
  {
    if r > 0 {
      RoundsFirst(racks, k, r - 1);
      if k > 0 { AllRound(racks, k, r - 1); }
      else if r > 1 { RoundsFirst(racks, 0, 1); SomePicked(racks, r - 1); }
    } else if k > 0 {
      RoundsFirst(racks, k - 1, |racks|);
    }
  }

  lemma {:induction false} SomePicked(racks: seq<seq<Candidate>>, r: nat)
    requires 0 < r <= |racks| && racks[0] != []
    ensures Rounds(racks, 0, r) != []
    decreases r
  {
    if r > 1 { SomePicked(racks, r - 1); }
  }

  lemma {:induction false} AllRound(racks: seq<seq<Candidate>>, k: nat, r: nat)
    requires r <= |racks| && k > 0 && racks != [] && racks[0] != []
    ensures Rounds(racks, k, r) != []
    decreases k, r
  {
    if r > 0 { AllRound(racks, k, r - 1); }
    else if k > 1 { AllRound(racks, k - 1, |racks|); }
    else { SomePicked(racks, |racks|); }
  }

  /** Go round the racks until `n` servers are chosen or none is left. */
  method RoundRobin(racks: seq<seq<Candidate>>, ghost keys: seq<RackKey>, n: nat)
    returns (selected: seq<Candidate>, ghost positions: seq<nat>, ghost k: nat, ghost r: nat)
    requires RacksOk(racks, keys)
    ensures |positions| == |racks| && Picked(racks, keys, positions, selected) && Turn(racks, positions, k, r)
    ensures |selected| == Min(n, Total(racks))
    ensures r <= |racks| && selected == Rounds(racks, k, r)
  {
    hide Picked, Turn, Total;
    selected, k, r := [], 0, 0;
    var at: seq<nat> := seq(|racks|, _ => 0);
    NothingPicked(racks, keys, at);
    PickedSum(racks, keys, at, selected);
    while true
      invariant |at| == |racks| && Picked(racks, keys, at, selected) && Turn(racks, at, k, 0)
      invariant |selected| <= n && |selected| <= Total(racks) && selected == Rounds(racks, k, 0)
      decreases Total(racks) - |selected|
    {
      var before := |selected|;
      var i := 0;
      while i < |racks|
        invariant i <= |racks| && |at| == |racks| && Picked(racks, keys, at, selected) && Turn(racks, at, k, i)
        invariant before <= |selected| <= n && |selected| <= Total(racks)
        invariant selected == Rounds(racks, k, i)
        invariant before == |selected| ==> forall j :: 0 <= j < i ==> at[j] >= |racks[j]|
      {
        if |selected| >= n {
          positions, r := at, i;
          return;
        }
        var pos := at[i];
        TurnStep(racks, at, k, i);
        PositionIs(racks, at, k, i);
        if pos < |racks[i]| {
          PickOne(racks, keys, at, selected, i);
          selected := selected + [racks[i][pos]];
          at := at[i := pos + 1];
          PickedSum(racks, keys, at, selected);
        }
        i := i + 1;
      }
      if |selected| == before {
        AllTaken(racks, keys, at, selected);
        positions, r := at, |racks|;
        return;
      }
      TurnNext(racks, at, k);
      k := k + 1;
    }
  }

  lemma AllTaken(racks: seq<seq<Candidate>>, keys: seq<RackKey>, positions: seq<nat>, selected: seq<Candidate>)
    requires |racks| == |keys| == |positions| && Picked(racks, keys, positions, selected)
    requires forall j :: 0 <= j < |racks| ==> positions[j] >= |racks[j]|
    ensures |selected| == Total(racks)
  {
    PickedSum(racks, keys, positions, selected);
  }

  // ---------------------------------------------------------------- what it guarantees

  /** No rack is ahead of another by more than one server, unless the other is used up. */
  lemma TurnBalanced(racks: seq<seq<Candidate>>, positions: seq<nat>, k: nat, r: nat, a: nat, b: nat)
    requires Turn(racks, positions, k, r) && a < |racks| && b < |racks| && positions[a] > positions[b] + 1
    ensures positions[b] == |racks[b]|
  {
  }

  function Used(positions: seq<nat>): nat {
    if positions == [] then 0 else Used(positions[..|positions| - 1]) + if positions[|positions| - 1] > 0 then 1 else 0
  }

  lemma {:induction false} UsedPrefix(positions: seq<nat>, r: nat)
    requires r <= |positions| && forall j :: 0 <= j < |positions| ==> positions[j] == if j < r then 1 else 0
    ensures Used(positions) == r == Sum(positions)
    decreases |positions|
  {
    if positions != [] {
      var rest := positions[..|positions| - 1];
      UsedPrefix(rest, Min(r, |rest|));
    }
  }

  lemma {:induction false} UsedAll(positions: seq<nat>)
    requires forall j :: 0 <= j < |positions| ==> positions[j] > 0
    ensures Used(positions) == |positions| <= Sum(positions)
    decreases |positions|
  {
    if positions != [] { UsedAll(positions[..|positions| - 1]); }
  }

  /** As many racks are used as there are racks, or servers asked for. */
  lemma TurnCovers(racks: seq<seq<Candidate>>, positions: seq<nat>, k: nat, r: nat, n: nat)
    requires Turn(racks, positions, k, r) && (forall j :: 0 <= j < |racks| ==> racks[j] != [])
    requires Sum(positions) == Min(n, Total(racks))
    ensures Used(positions) == Min(n, |racks|)
  {
    TotalAtLeast(racks);
    if k == 0 { UsedPrefix(positions, r); } else { UsedAll(positions); }
  }

  lemma {:induction false} TotalAtLeast(racks: seq<seq<Candidate>>)
    requires forall j :: 0 <= j < |racks| ==> racks[j] != []
    ensures |racks| <= Total(racks)
    decreases |racks|
  {
    if racks != [] { TotalAtLeast(racks[..|racks| - 1]); }
  }

  // ---------------------------------------------------------------- grouping by rack

  lemma KeysSnoc(s: seq<Candidate>, c: Candidate)
    ensures KeysOf(s + [c]) == KeysOf(s) + {KeyOf(c)}
  {
    assert forall x :: x in s + [c] <==> x in s || x == c;
  }

  lemma NoneOnRack(s: seq<Candidate>, k: RackKey)
    requires k !in KeysOf(s)
    ensures OnRack(s, k) == []
  {
    OnRackHolds(s, k);
    assert |OnRack(s, k)| == 0 || OnRack(s, k)[0] in OnRack(s, k);
  }

  method GroupByRack(s: seq<Candidate>) returns (buckets: map<RackKey, seq<Candidate>>)
    ensures buckets.Keys == KeysOf(s) && forall k :: k in buckets ==> buckets[k] == OnRack(s, k)
  {
    hide OnRack, KeysOf;
    buckets := map[];
    var i := 0;
    NoKeys();
    while i < |s|
      invariant i <= |s| && buckets.Keys == KeysOf(s[..i])
      invariant forall k :: k in buckets ==> buckets[k] == OnRack(s[..i], k)
    {
      assert s[..i + 1] == s[..i] + [s[i]];
      var k := KeyOf(s[i]);
      if k !in buckets { NoneOnRack(s[..i], k); }
      KeysSnoc(s[..i], s[i]);
      forall x ensures OnRack(s[..i + 1], x) == OnRack(s[..i], x) + if x == k then [s[i]] else [] {
        OnRackSnoc(s[..i], s[i], x);
      }
      buckets := buckets[k := (if k in buckets then buckets[k] else []) + [s[i]]];
      i := i + 1;
    }
    assert s[..i] == s;
  }

  lemma NoKeys()
    ensures KeysOf([]) == {}
  {
  }

  ghost predicate Distinct(s: seq<RackKey>) {
    forall i, j :: 0 <= i < j < |s| ==> s[i] != s[j]
  }

  /** The keys of a hash map, in whatever order it has. */
  method Enumerate(ks: set<RackKey>) returns (order: seq<RackKey>)
    ensures Distinct(order) && forall k :: k in ks <==> k in order
  {
    order := [];
    var rest := ks;
    while rest != {}
      invariant rest <= ks && Distinct(order)
      invariant forall k :: k in ks <==> k in order || k in rest
      invariant forall i :: 0 <= i < |order| ==> order[i] !in rest
      decreases rest
    {
      var k :| k in rest;
      order := order + [k];
      rest := rest - {k};
    }
  }

  function BestSpace(buckets: map<RackKey, seq<Candidate>>, k: RackKey): nat {
    if k in buckets && buckets[k] != [] then MAX_SPACE - buckets[k][0].space else 0
  }

  ghost predicate RacksDescend(racks: seq<seq<Candidate>>) {
    forall i, j :: 0 <= i < j < |racks| && racks[i] != [] && racks[j] != [] ==> racks[i][0].space >= racks[j][0].space
  }

  /** The racks by their best server; equally good racks may come in any order. */
  method RackList(buckets: map<RackKey, seq<Candidate>>) returns (racks: seq<seq<Candidate>>, ghost keys: seq<RackKey>)
    requires forall k :: k in buckets ==> buckets[k] != [] && forall c :: c in buckets[k] ==> KeyOf(c) == k
    ensures RacksOk(racks, keys) && (forall k :: k in buckets <==> k in keys)
    ensures forall r :: 0 <= r < |racks| ==> keys[r] in buckets && racks[r] == buckets[keys[r]]
    ensures RacksDescend(racks)
  {
    var order := Enumerate(buckets.Keys);
    var sorted := SortBy(order, (k: RackKey) => BestSpace(buckets, k));
    SortedKeysOk(order, (k: RackKey) => BestSpace(buckets, k));
    keys := sorted;
    assert forall i :: 0 <= i < |sorted| ==> sorted[i] in sorted;
    racks := seq(|sorted|, i requires 0 <= i < |sorted| && sorted[i] in buckets => buckets[sorted[i]]);
    RacksSorted(buckets, order, sorted, racks);
  }

  lemma RacksSorted(buckets: map<RackKey, seq<Candidate>>, order: seq<RackKey>, sorted: seq<RackKey>, racks: seq<seq<Candidate>>)
    requires sorted == SortBy(order, (k: RackKey) => BestSpace(buckets, k)) && |racks| == |sorted|
    requires forall r :: 0 <= r < |racks| ==> sorted[r] in buckets && racks[r] == buckets[sorted[r]] != []
    ensures RacksDescend(racks)
  {
    var key := (k: RackKey) => BestSpace(buckets, k);
    SortBySorts(order, key);
    forall i, j | 0 <= i < j < |racks| ensures racks[i][0].space >= racks[j][0].space {
      assert key(sorted[i]) <= key(sorted[j]);
    }
  }

  lemma SortedKeysOk(order: seq<RackKey>, key: RackKey -> nat)
    requires Distinct(order)
    ensures Distinct(SortBy(order, key)) && forall k :: k in SortBy(order, key) <==> k in order
  {
    SortBySorts(order, key);
    var sorted := SortBy(order, key);
    DistinctKept(order, sorted);
    forall k ensures k in sorted <==> k in order { assert k in multiset(sorted) <==> k in multiset(order); }
  }

  lemma DistinctKept(a: seq<RackKey>, b: seq<RackKey>)
    requires (forall i, j :: 0 <= i < j < |a| ==> a[i] != a[j]) && multiset(a) == multiset(b)
    ensures forall i, j :: 0 <= i < j < |b| ==> b[i] != b[j]
  {
    forall i, j | 0 <= i < j < |b| ensures b[i] != b[j] {
      if b[i] == b[j] {
        TwiceInMultiset(b, i, j);
        OnceInMultiset(a, b[i]);
      }
    }
  }

  lemma TwiceInMultiset<T>(b: seq<T>, i: nat, j: nat)
    requires i < j < |b| && b[i] == b[j]
    ensures multiset(b)[b[i]] >= 2
  {
    assert b == b[..i] + [b[i]] + b[i + 1..j] + [b[j]] + b[j + 1..];
  }

  lemma {:induction false} OnceInMultiset<T>(a: seq<T>, x: T)
    requires forall i, j :: 0 <= i < j < |a| ==> a[i] != a[j]
    ensures multiset(a)[x] <= 1
    decreases |a|
  {
    if a != [] {
      var rest := a[..|a| - 1];
      OnceInMultiset(rest, x);
      assert a == rest + [a[|a| - 1]];
    }
  }

  // ---------------------------------------------------------------- the selection

  /** From every rack, the servers with the most space, in that order. */
  ghost predicate BestOfEach(servers: seq<Candidate>, picked: seq<Candidate>) {
    forall k: RackKey :: OnRack(picked, k) <= OnRack(BestFirst(servers), k)
  }

  /** No rack gives two servers more than another that still has some left. */
  ghost predicate Even(servers: seq<Candidate>, picked: seq<Candidate>) {
    forall a, b :: a in KeysOf(servers) && b in KeysOf(servers) && |OnRack(picked, a)| > |OnRack(picked, b)| + 1 ==>
      OnRack(picked, b) == OnRack(BestFirst(servers), b)
  }

  lemma TotalIsAll(racks: seq<seq<Candidate>>, keys: seq<RackKey>, s: seq<Candidate>)
    requires RacksOk(racks, keys) && (forall k :: k in KeysOf(s) ==> k in keys)
    requires forall r :: 0 <= r < |racks| ==> racks[r] == OnRack(s, keys[r])
    ensures Total(racks) == |s|
  {
    TotalCounts(keys, s);
    TotalSizes(racks, keys, s);
  }

  function RackSizes(keys: seq<RackKey>, s: seq<Candidate>): nat {
    if keys == [] then 0 else RackSizes(keys[..|keys| - 1], s) + |OnRack(s, keys[|keys| - 1])|
  }

  lemma {:induction false} TotalSizes(racks: seq<seq<Candidate>>, keys: seq<RackKey>, s: seq<Candidate>)
    requires |racks| == |keys| && forall r :: 0 <= r < |racks| ==> racks[r] == OnRack(s, keys[r])
    ensures Total(racks) == RackSizes(keys, s)
    decreases |keys|
  {
    if keys != [] { TotalSizes(racks[..|racks| - 1], keys[..|keys| - 1], s); }
  }

  lemma {:induction false} SizesStep(keys: seq<RackKey>, s: seq<Candidate>, c: Candidate)
    requires Distinct(keys)
    ensures RackSizes(keys, s + [c]) == RackSizes(keys, s) + if KeyOf(c) in keys then 1 else 0
    decreases |keys|
  {
    if keys != [] {
      var rest, k := keys[..|keys| - 1], keys[|keys| - 1];
      SizesStep(rest, s, c);
      OnRackSnoc(s, c, k);
      assert KeyOf(c) in keys <==> KeyOf(c) in rest || KeyOf(c) == k;
      assert k !in rest;
    }
  }

  lemma {:induction false} SizesNone(keys: seq<RackKey>)
    ensures RackSizes(keys, []) == 0
    decreases |keys|
  {
    if keys != [] { SizesNone(keys[..|keys| - 1]); }
  }

  lemma {:induction false} TotalCounts(keys: seq<RackKey>, s: seq<Candidate>)
    requires Distinct(keys) && forall k :: k in KeysOf(s) ==> k in keys
    ensures RackSizes(keys, s) == |s|
    decreases |s|
  {
    if s == [] {
      SizesNone(keys);
    } else {
      var rest, c := s[..|s| - 1], s[|s| - 1];
      assert s == rest + [c];
      KeysSnoc(rest, c);
      TotalCounts(keys, rest);
      SizesStep(keys, rest, c);
    }
  }

  lemma {:induction false} UsedSet(keys: seq<RackKey>, positions: seq<nat>, used: set<RackKey>)
    requires Distinct(keys) && |keys| == |positions|
    requires forall k :: k in used <==> exists r :: 0 <= r < |keys| && keys[r] == k && positions[r] > 0
    ensures |used| == Used(positions)
    decreases |keys|
  {
    if keys != [] {
      var m := |keys| - 1;
      var rest := used - {keys[m]};
      forall k ensures k in rest <==> exists r :: 0 <= r < m && keys[..m][r] == k && positions[..m][r] > 0 {
        if k in rest {
          var r :| 0 <= r < |keys| && keys[r] == k && positions[r] > 0;
          assert keys[..m][r] == k && positions[..m][r] > 0;
        } else if r :| 0 <= r < m && keys[..m][r] == k && positions[..m][r] > 0 {
          assert keys[r] == k && positions[r] > 0;
          assert k in used;
        }
      }
      UsedSet(keys[..m], positions[..m], rest);
      if positions[m] > 0 {
        assert keys[m] in used;
        assert used == rest + {keys[m]};
      } else {
        assert keys[m] !in used;
        assert used == rest;
      }
    } else {
      assert used == {};
    }
  }

  function RacksUsed(servers: seq<Candidate>, picked: seq<Candidate>): set<RackKey> {
    set k | k in KeysOf(servers) && OnRack(picked, k) != []
  }

  lemma {:induction false} AllUsed(n: nat)
    ensures Used(seq(n, _ => 1)) == n
    decreases n
  {
    if n > 0 {
      AllUsed(n - 1);
      var ones: seq<nat> := seq(n, _ => 1);
      assert ones[..n - 1] == seq(n - 1, _ => 1);
    }
  }

  lemma KeyCount(keys: seq<RackKey>, ks: set<RackKey>)
    requires Distinct(keys) && forall k :: k in ks <==> k in keys
    ensures |ks| == |keys|
  {
    var ones: seq<nat> := seq(|keys|, _ => 1);
    AllUsed(|keys|);
    forall k ensures k in ks <==> exists r :: 0 <= r < |keys| && keys[r] == k && ones[r] > 0 {
      if k in ks { var r :| 0 <= r < |keys| && keys[r] == k; assert ones[r] > 0; }
    }
    UsedSet(keys, ones, ks);
  }

  /** What was picked, rack by rack, given the racks and how far each was used. */
  lemma PickedShape(servers: seq<Candidate>, racks: seq<seq<Candidate>>, keys: seq<RackKey>, positions: seq<nat>,
                    picked: seq<Candidate>, k: nat, r: nat)
    requires RacksOk(racks, keys) && |positions| == |racks| && Picked(racks, keys, positions, picked) && Turn(racks, positions, k, r)
    requires (forall x :: x in KeysOf(servers) <==> x in keys)
    requires forall j :: 0 <= j < |racks| ==> racks[j] == OnRack(BestFirst(servers), keys[j])
    ensures BestOfEach(servers, picked) && Even(servers, picked)
  {
    hide OnRack, BestFirst, KeysOf;
    forall x: RackKey ensures OnRack(picked, x) <= OnRack(BestFirst(servers), x) {
      if x in keys {
        var j :| 0 <= j < |keys| && keys[j] == x;
      } else {
        NoneOfRack(picked, keys, x);
      }
    }
    forall a, b | a in KeysOf(servers) && b in KeysOf(servers) && |OnRack(picked, a)| > |OnRack(picked, b)| + 1
      ensures OnRack(picked, b) == OnRack(BestFirst(servers), b) {
      var i :| 0 <= i < |keys| && keys[i] == a;
      var j :| 0 <= j < |keys| && keys[j] == b;
      TurnBalanced(racks, positions, k, r, i, j);
    }
  }

  /** The largest free space on a rack. */
  function BestOn(servers: seq<Candidate>, k: RackKey): nat {
    var rack := OnRack(BestFirst(servers), k);
    if rack == [] then 0 else rack[0].space
  }

  /** A rack is preferred to another that still has servers left only if its best server is at least as good. */
  ghost predicate BestRacksFirst(servers: seq<Candidate>, picked: seq<Candidate>) {
    forall a, b :: a in KeysOf(servers) && b in KeysOf(servers) && |OnRack(picked, a)| > |OnRack(picked, b)|
                   && OnRack(picked, b) != OnRack(BestFirst(servers), b) ==>
      BestOn(servers, a) >= BestOn(servers, b)
  }

  lemma PickedOrder(servers: seq<Candidate>, racks: seq<seq<Candidate>>, keys: seq<RackKey>, positions: seq<nat>,
                    picked: seq<Candidate>, k: nat, r: nat)
    requires RacksOk(racks, keys) && |positions| == |racks| && Picked(racks, keys, positions, picked) && Turn(racks, positions, k, r)
    requires RacksDescend(racks) && forall x :: x in KeysOf(servers) <==> x in keys
    requires forall j :: 0 <= j < |racks| ==> racks[j] == OnRack(BestFirst(servers), keys[j])
    ensures BestRacksFirst(servers, picked)
  {
    hide OnRack, BestFirst, KeysOf;
    forall a, b | a in KeysOf(servers) && b in KeysOf(servers) && |OnRack(picked, a)| > |OnRack(picked, b)|
                  && OnRack(picked, b) != OnRack(BestFirst(servers), b)
      ensures BestOn(servers, a) >= BestOn(servers, b) {
      var i :| 0 <= i < |keys| && keys[i] == a;
      var j :| 0 <= j < |keys| && keys[j] == b;
      assert racks[j][..|racks[j]|] == racks[j];
      assert positions[j] < |racks[j]|;
      assert i < r <= j;
    }
  }

  lemma NoneOfRack(picked: seq<Candidate>, keys: seq<RackKey>, x: RackKey)
    requires (forall c :: c in picked ==> KeyOf(c) in keys) && x !in keys
    ensures OnRack(picked, x) == []
  {
    NoneOnRack(picked, x);
  }

  lemma UsedIs(servers: seq<Candidate>, racks: seq<seq<Candidate>>, keys: seq<RackKey>, positions: seq<nat>, picked: seq<Candidate>)
    requires RacksOk(racks, keys) && |positions| == |racks| && Picked(racks, keys, positions, picked)
    requires forall x :: x in KeysOf(servers) <==> x in keys
    ensures |RacksUsed(servers, picked)| == Used(positions) && |KeysOf(servers)| == |keys|
  {
    hide OnRack, KeysOf;
    var used := RacksUsed(servers, picked);
    forall x ensures x in used <==> exists j :: 0 <= j < |keys| && keys[j] == x && positions[j] > 0 {
      if x in used { var j :| 0 <= j < |keys| && keys[j] == x; assert OnRack(picked, keys[j]) == racks[j][..positions[j]]; }
    }
    UsedSet(keys, positions, used);
    KeyCount(keys, KeysOf(servers));
  }

  lemma PickedWithin(servers: seq<Candidate>, picked: seq<Candidate>)
    requires BestOfEach(servers, picked)
    ensures multiset(picked) <= multiset(servers)
  {
    BestFirstSorted(servers);
    forall c ensures multiset(picked)[c] <= multiset(servers)[c] {
      CountOnRack(picked, c);
      CountOnRack(BestFirst(servers), c);
      PrefixCount(OnRack(picked, KeyOf(c)), OnRack(BestFirst(servers), KeyOf(c)), c);
    }
  }

  lemma PrefixCount(a: seq<Candidate>, b: seq<Candidate>, c: Candidate)
    requires a <= b
    ensures multiset(a)[c] <= multiset(b)[c]
  {
    assert b == a + b[|a|..];
  }

  /** Servers for `n` replicas. */
  method SelectServers(servers: seq<Candidate>, n: nat) returns (selected: seq<string>, ghost picked: seq<Candidate>)
    ensures selected == Addresses(picked) && |selected| == Min(n, |servers|)
    ensures multiset(picked) <= multiset(servers)
    ensures BestOfEach(servers, picked) && Even(servers, picked) && BestRacksFirst(servers, picked)
    ensures |RacksUsed(servers, picked)| == Min(n, |KeysOf(servers)|)
    ensures forall c :: c in servers && picked != [] ==> picked[0].space >= c.space
  {
    hide Rounds, BestOfEach, Even, BestRacksFirst, RacksDescend, RacksUsed, OnRack, BestFirst, KeysOf, Picked, Turn, Total, RacksOk;
    var candidates := BestFirst(servers);
    BestFirstSorted(servers);
    SameKeys(servers, candidates);
    var buckets := GroupByRack(candidates);
    BucketsOk(candidates, buckets);
    var racks, keys := RackList(buckets);
    RackCount(racks, keys);
    var chosen, positions, k, r := RoundRobin(racks, keys, n);
    PickedShape(servers, racks, keys, positions, chosen, k, r);
    PickedOrder(servers, racks, keys, positions, chosen, k, r);
    FirstIsBest(servers, racks, keys, k, r);
    PickedWithin(servers, chosen);
    UsedIs(servers, racks, keys, positions, chosen);
    TotalIsAll(racks, keys, candidates);
    Covered(racks, keys, positions, chosen, k, r, n);
    selected, picked := Addresses(chosen), chosen;
  }

  /** The server picked first has the most space of all. */
  lemma FirstIsBest(servers: seq<Candidate>, racks: seq<seq<Candidate>>, keys: seq<RackKey>, k: nat, r: nat)
    requires RacksOk(racks, keys) && RacksDescend(racks) && r <= |racks|
    requires forall x :: x in KeysOf(servers) <==> x in keys
    requires forall j :: 0 <= j < |racks| ==> racks[j] == OnRack(BestFirst(servers), keys[j])
    ensures forall c :: c in servers && Rounds(racks, k, r) != [] ==> Rounds(racks, k, r)[0].space >= c.space
  {
    hide OnRack, BestFirst, Rounds;
    RoundsFirst(racks, k, r);
    forall c | c in servers && Rounds(racks, k, r) != [] ensures Rounds(racks, k, r)[0].space >= c.space {
      assert KeyOf(c) in KeysOf(servers);
      var j :| 0 <= j < |keys| && keys[j] == KeyOf(c);
      BestOfRack(servers, c);
    }
  }

  lemma BestOfRack(servers: seq<Candidate>, c: Candidate)
    requires c in servers
    ensures var rack := OnRack(BestFirst(servers), KeyOf(c)); rack != [] && rack[0].space >= c.space
  {
    hide OnRack, BestFirst;
    BestFirstSorted(servers);
    assert c in multiset(servers);
    OnRackHolds(BestFirst(servers), KeyOf(c));
    OnRackSorted(BestFirst(servers), KeyOf(c));
    assert c in OnRack(BestFirst(servers), KeyOf(c));
  }

  lemma RackCount(racks: seq<seq<Candidate>>, keys: seq<RackKey>)
    requires RacksOk(racks, keys)
    ensures |racks| == |keys|
  {
  }

  lemma SameKeys(a: seq<Candidate>, b: seq<Candidate>)
    requires multiset(a) == multiset(b)
    ensures KeysOf(a) == KeysOf(b)
  {
    assert forall c :: c in a <==> c in multiset(a);
    assert forall c :: c in b <==> c in multiset(b);
    assert forall c :: c in a <==> c in b;
  }

  lemma BucketsOk(s: seq<Candidate>, buckets: map<RackKey, seq<Candidate>>)
    requires buckets.Keys == KeysOf(s) && forall k :: k in buckets ==> buckets[k] == OnRack(s, k)
    ensures forall k :: k in buckets ==> buckets[k] != [] && forall c :: c in buckets[k] ==> KeyOf(c) == k
  {
    hide OnRack;
    forall k | k in buckets ensures buckets[k] != [] && forall c :: c in buckets[k] ==> KeyOf(c) == k {
      OnRackHolds(s, k);
      var c :| c in s && KeyOf(c) == k;
      assert c in OnRack(s, k);
    }
  }

  lemma Covered(racks: seq<seq<Candidate>>, keys: seq<RackKey>, positions: seq<nat>, picked: seq<Candidate>, k: nat, r: nat, n: nat)
    requires RacksOk(racks, keys) && |positions| == |racks| && Picked(racks, keys, positions, picked) && Turn(racks, positions, k, r)
    requires |picked| == Min(n, Total(racks))
    ensures Used(positions) == Min(n, |racks|)
  {
    TurnCovers(racks, positions, k, r, n);
  }

  /** If every server has its own address, so has every server picked. */
  lemma AddressesDistinct(servers: seq<Candidate>, picked: seq<Candidate>, i: nat, j: nat)
    requires forall a, b :: 0 <= a < b < |servers| ==> servers[a].address != servers[b].address
    requires multiset(picked) <= multiset(servers) && i < j < |picked|
    ensures Addresses(picked)[i] != Addresses(picked)[j]
  {
    if picked[i].address == picked[j].address {
      assert picked[i] in multiset(picked) && picked[j] in multiset(picked);
      assert picked[i] in servers && picked[j] in servers;
      assert picked[i] == picked[j];
      TwiceInMultiset(picked, i, j);
      OnceInMultiset(servers, picked[i]);
    }
  }
}
