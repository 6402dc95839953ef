/**
The whole checker: split the history into registers that renames link together
and registers that stand alone, test each part, and put the parts together.
*/
module Checker {
  import opened Options
  import opened CheckerModel
  import opened CheckerSearch
  import opened CheckerRegister
  import opened CheckerExact

  const AMBIGUOUS_LIMIT := 15

  ghost predicate WellFormedAll(ops: seq<Operation>) {
    forall o :: o in ops ==> WellFormed(o)
  }

  // ---------------------------------------------------------------- splitting

  function RenameKeys(ops: seq<Operation>): set<Key> {
    if ops == [] then {}
    else RenameKeys(ops[..|ops| - 1]) + if ops[|ops| - 1].op.Rename? then Touches(ops[|ops| - 1]) else {}
  }

  function LinkedOps(ops: seq<Operation>, links: set<Key>): seq<Operation> {
    if ops == [] then []
    else LinkedOps(ops[..|ops| - 1], links) + if Linked(ops[|ops| - 1], links) then [ops[|ops| - 1]] else []
  }

  function SimpleOps(ops: seq<Operation>, links: set<Key>): seq<Operation> {
    if ops == [] then []
    else SimpleOps(ops[..|ops| - 1], links) + if Linked(ops[|ops| - 1], links) then [] else [ops[|ops| - 1]]
  }

  /** The operations on the keys `ks`. */
  function OpsOn(ops: seq<Operation>, ks: set<Key>): seq<Operation> {
    if ops == [] then []
    else
      var o := ops[|ops| - 1];
      OpsOn(ops[..|ops| - 1], ks) + if !o.op.Rename? && o.op.path in ks then [o] else []
  }

  function KeysOf(ops: seq<Operation>): set<Key> {
    if ops == [] then {}
    else KeysOf(ops[..|ops| - 1]) + if ops[|ops| - 1].op.Rename? then {} else {ops[|ops| - 1].op.path}
  }

  function AmbiguousCount(ops: seq<Operation>): nat {
    if ops == [] then 0 else AmbiguousCount(ops[..|ops| - 1]) + if Ambiguous(ops[|ops| - 1]) then 1 else 0
  }

  lemma {:induction false} SplitAll(ops: seq<Operation>, links: set<Key>)
    ensures multiset(ops) == multiset(SimpleOps(ops, links)) + multiset(LinkedOps(ops, links))
    decreases |ops|
  {
    if ops != [] {
      SplitAll(ops[..|ops| - 1], links);
      assert ops == ops[..|ops| - 1] + [ops[|ops| - 1]];
    }
  }

  lemma {:induction false} LinkedHold(ops: seq<Operation>, links: set<Key>)
    ensures forall o :: o in LinkedOps(ops, links) ==> o in ops && Linked(o, links)
    decreases |ops|
  {
    if ops != [] { LinkedHold(ops[..|ops| - 1], links); }
  }

  lemma {:induction false} SimpleHold(ops: seq<Operation>, links: set<Key>)
    ensures forall o :: o in SimpleOps(ops, links) ==> o in ops && !o.op.Rename? && o.op.path !in links
    decreases |ops|
  {
    if ops != [] { SimpleHold(ops[..|ops| - 1], links); }
  }

  lemma {:induction false} RenameKeysHold(ops: seq<Operation>, o: Operation)
    requires o in ops && o.op.Rename?
    ensures Touches(o) <= RenameKeys(ops)
    decreases |ops|
  {
    if o != ops[|ops| - 1] { RenameKeysHold(ops[..|ops| - 1], o); }
  }

  lemma {:induction false} OpsOnHold(ops: seq<Operation>, ks: set<Key>)
    ensures forall o :: o in OpsOn(ops, ks) ==> o in ops && !o.op.Rename? && o.op.path in ks
    decreases |ops|
  {
    if ops != [] { OpsOnHold(ops[..|ops| - 1], ks); }
  }

  /** Operations on two disjoint sets of keys. */
  lemma {:induction false} OpsOnSplit(ops: seq<Operation>, a: set<Key>, b: set<Key>)
    requires a !! b
    ensures multiset(OpsOn(ops, a + b)) == multiset(OpsOn(ops, a)) + multiset(OpsOn(ops, b))
    decreases |ops|
  {
    if ops != [] {
      OpsOnSplit(ops[..|ops| - 1], a, b);
    }
  }

  lemma {:induction false} OpsOnNone(ops: seq<Operation>)
    ensures OpsOn(ops, {}) == []
    decreases |ops|
  {
    if ops != [] { OpsOnNone(ops[..|ops| - 1]); }
  }

  lemma {:induction false} OpsOnAll(ops: seq<Operation>, ks: set<Key>)
    requires forall i :: 0 <= i < |ops| ==> !ops[i].op.Rename? && ops[i].op.path in ks
    ensures OpsOn(ops, ks) == ops
    decreases |ops|
  {
    if ops != [] {
      OpsOnAll(ops[..|ops| - 1], ks);
      assert ops == ops[..|ops| - 1] + [ops[|ops| - 1]];
    }
  }

  lemma {:induction false} KeysOfHold(ops: seq<Operation>)
    ensures forall o :: o in ops && !o.op.Rename? ==> o.op.path in KeysOf(ops)
    decreases |ops|
  {
    if ops != [] {
      KeysOfHold(ops[..|ops| - 1]);
      forall o | o in ops && !o.op.Rename? ensures o.op.path in KeysOf(ops) {
        assert o == ops[|ops| - 1] || o in ops[..|ops| - 1];
      }
    }
  }

  lemma {:induction false} KeysOfFree(ops: seq<Operation>, links: set<Key>)
    requires forall o :: o in ops ==> !o.op.Rename? && o.op.path !in links
    ensures KeysOf(ops) !! links
    decreases |ops|
  {
    if ops != [] {
      assert ops[|ops| - 1] in ops && forall x :: x in ops[..|ops| - 1] ==> x in ops;
      KeysOfFree(ops[..|ops| - 1], links);
    }
  }

  // ---------------------------------------------------------------- putting parts together

  /** A part of the history, on its own keys, is explained by some timely order. */
  ghost predicate PartOk(links: set<Key>, ops: multiset<Operation>, ks: set<Key>) {
    exists order :: Explains(links, ops, order) && Timely(order) && Within(order, ks)
  }

  lemma PartsJoin(links: set<Key>, x: multiset<Operation>, y: multiset<Operation>, ka: set<Key>, kb: set<Key>)
    requires PartOk(links, x, ka) && PartOk(links, y, kb) && ka !! kb
    ensures PartOk(links, x + y, ka + kb)
  {
    var a :| Explains(links, x, a) && Timely(a) && Within(a, ka);
    var b :| Explains(links, y, b) && Timely(b) && Within(b, kb);
    hide Explains, Timely, Within;
    MergeExplains(links, x, y, a, b, ka, kb);
  }

  /** All registers that stand alone, one key after the other. */
  lemma {:induction false} SimplePart(links: set<Key>, simple: seq<Operation>, ks: set<Key>)
    requires WellFormedAll(simple) && ks !! links
    requires forall k :: k in ks ==> Accepts(OpsOn(simple, {k}))
    ensures PartOk(links, multiset(OpsOn(simple, ks)), ks)
    decreases ks
  {
    hide Accepts, Explains, Timely, Within;
    if ks == {} {
      OpsOnNone(simple);
      NothingOk(links);
    } else {
      var k :| k in ks;
      var rest := ks - {k};
      SimplePart(links, simple, rest);
      OneKey(links, simple, k);
      OpsOnSplit(simple, rest, {k});
      PartsJoin(links, multiset(OpsOn(simple, rest)), multiset(OpsOn(simple, {k})), rest, {k});
      assert rest + {k} == ks;
    }
  }

  lemma NothingOk(links: set<Key>)
    ensures PartOk(links, multiset{}, {})
  {
    var none: seq<Placed> := [];
    assert Explains(links, multiset{}, none) && Timely(none) && Within(none, {});
  }

  lemma OneKey(links: set<Key>, simple: seq<Operation>, k: Key)
    requires WellFormedAll(simple) && k !in links && Accepts(OpsOn(simple, {k}))
    ensures PartOk(links, multiset(OpsOn(simple, {k})), {k})
  {
    hide Accepts, Explains, Timely, Within;
    OpsOnHold(simple, {k});
    var order := RegisterSound(links, OpsOn(simple, {k}), k);
  }

  // ---------------------------------------------------------------- the linked part

  function Blank(ks: set<Key>): Registers { map k | k in ks :: None }

  lemma BlankAgrees(ks: set<Key>, on: set<Key>)
    ensures Agree(Blank(ks), map[], on) && Agree(map[], Blank(ks), on)
  {
  }

  /** Every operation may touch linked keys only. */
  ghost predicate LinkedOnly(ops: seq<Operation>, links: set<Key>) {
    forall o :: o in ops ==> Linked(o, links) && Touches(o) <= links
  }

  lemma ScheduleExplains(ops: seq<Operation>, limit: bool, ks: set<Key>, links: set<Key>)
    requires LinkedOnly(ops, links) && Indices(ops, All(|ops|)) && Schedulable(ops, limit, Blank(ks), All(|ops|))
    ensures PartOk(links, multiset(ops), links)
    ensures limit ==> LinearizableApplied(links, multiset(ops))
  {
    var all := All(|ops|);
    var choices :| Schedules(ops, limit, Blank(ks), all, choices);
    hide Schedules, LinkedStep, Blank;
    ScheduleIndices(ops, limit, Blank(ks), all, choices);
    PlaceTimely(ops, limit, Blank(ks), all, choices, 0);
    PlaceRuns(ops, limit, Blank(ks), all, choices, 0, links);
    var order := Place(ops, choices, 0);
    ChosenAll(ops, |ops|);
    assert ops[..|ops|] == ops;
    LinkedWithin(order, ops, links);
    BlankAgrees(ks, links);
    RunAgree(links, Blank(ks), map[], order, links);
    ExplainsIff(links, multiset(ops), order);
    TimelyIsRealTime(order);
    if limit { PlaceApplied(ops, Blank(ks), all, choices, 0); }
  }

  lemma LinkedWithin(order: seq<Placed>, ops: seq<Operation>, links: set<Key>)
    requires Ops(order) == multiset(ops) && LinkedOnly(ops, links)
    ensures Within(order, links)
  {
    forall p | p in order ensures Touches(p.op) <= links {
      PlacedIsOp(order, p);
      assert p.op in ops;
    }
  }

  lemma ExplainsSchedule(ops: seq<Operation>, limit: bool, ks: set<Key>, links: set<Key>)
    requires LinkedOnly(ops, links) && WellFormedAll(ops) && Indices(ops, All(|ops|))
    requires if limit then LinearizableApplied(links, multiset(ops)) else Linearizable(links, multiset(ops))
    ensures Schedulable(ops, limit, Blank(ks), All(|ops|))
  {
    var order :| Explains(links, multiset(ops), order) && RealTime(order) && (limit ==> AllApplied(order));
    LinkedWithin(order, ops, links);
    BlankAgrees(ks, links);
    ExplainsIff(links, multiset(ops), order);
    RunAgree(links, map[], Blank(ks), order, links);
    ChosenAll(ops, |ops|);
    assert ops[..|ops|] == ops;
    ScheduleExists(ops, limit, Blank(ks), All(|ops|), order, links);
  }

  method CountAmbiguous(ops: seq<Operation>) returns (n: nat)
    ensures n == AmbiguousCount(ops)
  {
    n := 0;
    var k := 0;
    while k < |ops|
      invariant k <= |ops| && n == AmbiguousCount(ops[..k])
    {
      assert ops[..k + 1][..k] == ops[..k];
      if Ambiguous(ops[k]) { n := n + 1; }
      k := k + 1;
    }
    assert ops[..k] == ops;
  }

  method AllKeys(ops: seq<Operation>) returns (ks: set<Key>)
    ensures forall o :: o in ops ==> Touches(o) <= ks
  {
    ks := {};
    var k := 0;
    while k < |ops|
      invariant k <= |ops| && forall j :: 0 <= j < k ==> Touches(ops[j]) <= ks
    {
      ks := ks + Touches(ops[k]);
      k := k + 1;
    }
  }

  lemma {:induction false} CountAppend(a: seq<Operation>, b: seq<Operation>)
    ensures AmbiguousCount(a + b) == AmbiguousCount(a) + AmbiguousCount(b)
    decreases |b|
  {
    if b == [] {
      assert a + b == a;
    } else {
      var last := |b| - 1;
      CountAppend(a, b[..last]);
      assert (a + b)[..|a| + last] == a + b[..last];
    }
  }

  lemma CountWithout(ops: seq<Operation>, p: nat)
    requires p < |ops|
    ensures AmbiguousCount(ops) == AmbiguousCount(ops[..p] + ops[p + 1..]) + if Ambiguous(ops[p]) then 1 else 0
  {
    hide AmbiguousCount;
    CountAppend(ops[..p], ops[p + 1..]);
    CountAppend(ops[..p] + [ops[p]], ops[p + 1..]);
    CountAppend(ops[..p], [ops[p]]);
    CountOne(ops[p]);
    assert ops == ops[..p] + [ops[p]] + ops[p + 1..];
  }

  lemma CountOne(o: Operation)
    ensures AmbiguousCount([o]) == if Ambiguous(o) then 1 else 0
  {
    assert [o][..0] == [];
  }

  lemma OneOut(ops: seq<Operation>, p: nat)
    requires p < |ops|
    ensures multiset(ops[..p] + ops[p + 1..]) == multiset(ops) - multiset{ops[p]}
  {
    assert ops == ops[..p] + [ops[p]] + ops[p + 1..];
  }

  /** How many operations are ambiguous does not depend on their order. */
  lemma {:induction false} CountAnyOrder(a: seq<Operation>, b: seq<Operation>)
    requires multiset(a) == multiset(b)
    ensures AmbiguousCount(a) == AmbiguousCount(b)
    decreases |a|
  {
    if a == [] {
      assert |multiset(b)| == 0;
    } else {
      var last := |a| - 1;
      assert a[last] in multiset(b);
      var p :| 0 <= p < |b| && b[p] == a[last];
      OneOut(a, last);
      OneOut(b, p);
      CountWithout(b, p);
      assert a[..last] + a[last + 1..] == a[..last];
      CountAnyOrder(a[..last], b[..p] + b[p + 1..]);
    }
  }

  /** The search over everything that renames link. It accepts exactly the histories that some
      order explains; with too many ambiguous operations, those that some order explains
      without leaving any of them out. */
  method CheckRenameLinked(ops: seq<Operation>, ghost links: set<Key>) returns (ok: bool)
    requires LinkedOnly(ops, links)
    ensures ok && WellFormedAll(ops) ==> PartOk(links, multiset(ops), links)
    ensures WellFormedAll(ops) ==>
              ok == if AmbiguousCount(ops) <= AMBIGUOUS_LIMIT then Linearizable(links, multiset(ops))
                    else LinearizableApplied(links, multiset(ops))
  {
    hide LinkedOnly, WellFormedAll, ByInvoke, Linearizable, LinearizableApplied, PartOk, Schedulable, Blank;
    var sorted := ByInvoke(ops);
    var ks := AllKeys(sorted);
    var n := CountAmbiguous(sorted);
    var search := new Search(sorted, n > AMBIGUOUS_LIMIT);
    ok := search.TryLinearize(Blank(ks));
    if WellFormedAll(ops) {
      SortedSame(ops, links);
      CountAnyOrder(sorted, ops);
      HistoryFormed(search, sorted);
      if ok {
        ScheduleExplains(sorted, search.limit, ks, links);
        LinearizablePart(links, multiset(ops), links);
      } else if if search.limit then LinearizableApplied(links, multiset(ops)) else Linearizable(links, multiset(ops)) {
        ExplainsSchedule(sorted, search.limit, ks, links);
      }
    }
  }

  lemma HistoryFormed(search: Search, ops: seq<Operation>)
    requires WellFormedAll(ops) && search.ops == ops
    ensures search.WellFormedHistory()
  {
  }

  lemma SortedSame(ops: seq<Operation>, links: set<Key>)
    requires WellFormedAll(ops) && LinkedOnly(ops, links)
    ensures WellFormedAll(ByInvoke(ops)) && LinkedOnly(ByInvoke(ops), links) && multiset(ByInvoke(ops)) == multiset(ops)
  {
    InvokeSorted(ops);
  }

  lemma LinearizablePart(links: set<Key>, ops: multiset<Operation>, ks: set<Key>)
    requires PartOk(links, ops, ks)
    ensures Linearizable(links, ops)
  {
    var order :| Explains(links, ops, order) && Timely(order) && Within(order, ks);
    TimelyIsRealTime(order);
  }

  // ---------------------------------------------------------------- the whole checker

  method FindRenameKeys(ops: seq<Operation>) returns (links: set<Key>)
    ensures links == RenameKeys(ops)
  {
    links := {};
    var k := 0;
    while k < |ops|
      invariant k <= |ops| && links == RenameKeys(ops[..k])
    {
      assert ops[..k + 1][..k] == ops[..k];
      if ops[k].op.Rename? { links := links + {ops[k].op.src, ops[k].op.dst}; }
      k := k + 1;
    }
    assert ops[..k] == ops;
  }

  method SplitHistory(ops: seq<Operation>, links: set<Key>) returns (linked: seq<Operation>, simple: seq<Operation>)
    ensures linked == LinkedOps(ops, links) && simple == SimpleOps(ops, links)
  {
    linked, simple := [], [];
    var k := 0;
    while k < |ops|
      invariant k <= |ops| && linked == LinkedOps(ops[..k], links) && simple == SimpleOps(ops[..k], links)
    {
      assert ops[..k + 1][..k] == ops[..k];
      if Linked(ops[k], links) { linked := linked + [ops[k]]; } else { simple := simple + [ops[k]]; }
      k := k + 1;
    }
    assert ops[..k] == ops;
  }

  lemma GroupStep(ops: seq<Operation>, i: nat)
    requires i < |ops| && !ops[i].op.Rename?
    ensures KeysOf(ops[..i + 1]) == KeysOf(ops[..i]) + {ops[i].op.path}
    ensures forall k :: OpsOn(ops[..i + 1], {k}) == OpsOn(ops[..i], {k}) + if k == ops[i].op.path then [ops[i]] else []
  {
    assert ops[..i + 1][..i] == ops[..i];
  }

  lemma GroupNone()
    ensures KeysOf([]) == {} && forall k :: OpsOn([], {k}) == []
  {
  }

  method GroupByKey(ops: seq<Operation>) returns (groups: map<Key, seq<Operation>>)
    requires forall o :: o in ops ==> !o.op.Rename?
    ensures groups.Keys == KeysOf(ops) && forall k :: k in groups ==> groups[k] == OpsOn(ops, {k})
  {
    hide OpsOn, KeysOf;
    GroupNone();
    groups := map[];
    var i := 0;
    assert ops[..0] == [];
    while i < |ops|
      invariant i <= |ops| && groups.Keys == KeysOf(ops[..i])
      invariant forall k :: k in groups ==> groups[k] == OpsOn(ops[..i], {k})
      invariant forall k :: k !in groups ==> OpsOn(ops[..i], {k}) == []
    {
      assert ops[i] in ops;
      GroupStep(ops, i);
      var k := ops[i].op.path;
      groups := groups[k := (if k in groups then groups[k] else []) + [ops[i]]];
      i := i + 1;
    }
    assert ops[..i] == ops;
  }

  method CheckGroups(groups: map<Key, seq<Operation>>) returns (ok: bool)
    ensures ok == forall k :: k in groups ==> Accepts(groups[k])
  {
    hide Accepts;
    ok := true;
    var rest := groups.Keys;
    while rest != {}
      invariant rest <= groups.Keys
      invariant ok == forall k :: k in groups && k !in rest ==> Accepts(groups[k])
      decreases rest
    {
      var k :| k in rest;
      var good := CheckSingleRegister(groups[k]);
      if !good { ok := false; }
      rest := rest - {k};
    }
  }

  /** The operations on every key that no rename touches can be arranged. */
  ghost predicate RegistersOk(ops: seq<Operation>, links: set<Key>) {
    var simple := SimpleOps(ops, links);
    forall k :: k in KeysOf(simple) ==> Arrangeable(links, OpsOn(simple, {k}))
  }

  /** Some order explains what renames link; with too many ambiguous operations, without leaving any of them out. */
  ghost predicate LinkedOk(ops: seq<Operation>, links: set<Key>) {
    var linked := LinkedOps(ops, links);
    if AmbiguousCount(linked) <= AMBIGUOUS_LIMIT then Linearizable(links, multiset(linked))
    else LinearizableApplied(links, multiset(linked))
  }

  lemma RegistersIff(ops: seq<Operation>, links: set<Key>)
    requires WellFormedAll(ops)
    ensures var simple := SimpleOps(ops, links);
            RegistersOk(ops, links) <==> forall k :: k in KeysOf(simple) ==> Accepts(OpsOn(simple, {k}))
  {
    hide Accepts, Arrangeable;
    var simple := SimpleOps(ops, links);
    SimpleHold(ops, links);
    KeysOfFree(simple, links);
    forall k | k in KeysOf(simple) ensures Accepts(OpsOn(simple, {k})) <==> Arrangeable(links, OpsOn(simple, {k})) {
      OpsOnHold(simple, {k});
      AcceptsIff(links, OpsOn(simple, {k}), k);
    }
  }

  lemma NothingLinked(links: set<Key>)
    ensures Linearizable(links, multiset([])) && AmbiguousCount([]) == 0
  {
    NothingOk(links);
    LinearizablePart(links, multiset{}, {});
  }

  /** The keys that renames link are exactly the sources and destinations of renames. */
  lemma {:induction false} RenameKeysMean(ops: seq<Operation>, k: Key)
    ensures k in RenameKeys(ops) <==> exists o :: o in ops && o.op.Rename? && (k == o.op.src || k == o.op.dst)
    decreases |ops|
  {
    if ops != [] {
      RenameKeysMean(ops[..|ops| - 1], k);
      assert forall o :: o in ops <==> o in ops[..|ops| - 1] || o == ops[|ops| - 1];
    }
  }

  /** The places of the operations that never returned, or failed, or whose outcome is unknown. */
  function Undecided(ops: seq<Operation>): set<nat> {
    set i: nat | i < |ops| && (ops[i].ret == 0 || ops[i].result == Error || ops[i].result == Unknown)
  }

  lemma UndecidedSnoc(ops: seq<Operation>, o: Operation)
    ensures Undecided(ops + [o]) == Undecided(ops) + if Ambiguous(o) then {|ops|} else {}
  {
    var all := ops + [o];
    forall i: nat ensures i in Undecided(all) <==> i in Undecided(ops) + if Ambiguous(o) then {|ops|} else {} {
      if i < |ops| { assert all[i] == ops[i]; }
    }
  }

  lemma {:induction false} AmbiguousCountMeans(ops: seq<Operation>)
    ensures AmbiguousCount(ops) == |Undecided(ops)|
    decreases |ops|
  {
    if ops != [] {
      var rest, o := ops[..|ops| - 1], ops[|ops| - 1];
      AmbiguousCountMeans(rest);
      UndecidedSnoc(rest, o);
      assert ops == rest + [o];
    }
  }

  /** The answer is yes exactly if every register that stands alone can be arranged and what renames link
      is linearizable. Then one total order of all operations respects real time and explains
      every read and every rename. */
  method CheckLinearizability(ops: seq<Operation>) returns (ok: bool)
    ensures WellFormedAll(ops) ==> ok == (RegistersOk(ops, RenameKeys(ops)) && LinkedOk(ops, RenameKeys(ops)))
    ensures ok && WellFormedAll(ops) ==> Linearizable(RenameKeys(ops), multiset(ops))
  {
    hide RenameKeys, LinkedOps, SimpleOps, Accepts, Linearizable, LinearizableApplied, PartOk, WellFormedAll, RegistersOk, AmbiguousCount;
    var links := FindRenameKeys(ops);
    var linked, simple := SplitHistory(ops, links);
    SimpleHold(ops, links);
    LinkedKeys(ops, links);
    var groups := GroupByKey(simple);
    ok := CheckGroups(groups);
    var linkedOk := true;
    if linked != [] { linkedOk := CheckRenameLinked(linked, links); }
    ok := ok && linkedOk;
    if WellFormedAll(ops) {
      PartsFormed(ops, links);
      RegistersIff(ops, links);
      NothingLinked(links);
    }
    if ok && WellFormedAll(ops) {
      if linked == [] { NothingOk(links); PartWider(links, multiset{}, {}, links); }
      Together(ops, links, simple, linked);
    }
  }

  lemma LinkedKeys(ops: seq<Operation>, links: set<Key>)
    requires links == RenameKeys(ops)
    ensures LinkedOnly(LinkedOps(ops, links), links)
  {
    LinkedHold(ops, links);
    forall o | o in LinkedOps(ops, links) ensures Touches(o) <= links {
      if o.op.Rename? { RenameKeysHold(ops, o); }
    }
  }

  lemma PartsFormed(ops: seq<Operation>, links: set<Key>)
    requires WellFormedAll(ops)
    ensures WellFormedAll(LinkedOps(ops, links)) && WellFormedAll(SimpleOps(ops, links))
  {
    LinkedHold(ops, links);
    SimpleHold(ops, links);
  }

  lemma PartWider(links: set<Key>, ops: multiset<Operation>, ks: set<Key>, more: set<Key>)
    requires PartOk(links, ops, ks) && ks <= more
    ensures PartOk(links, ops, more)
  {
    var order :| Explains(links, ops, order) && Timely(order) && Within(order, ks);
    assert Within(order, more);
  }

  lemma Together(ops: seq<Operation>, links: set<Key>, simple: seq<Operation>, linked: seq<Operation>)
    requires simple == SimpleOps(ops, links) && linked == LinkedOps(ops, links) && WellFormedAll(simple)
    requires forall k :: k in KeysOf(simple) ==> Accepts(OpsOn(simple, {k}))
    requires PartOk(links, multiset(linked), links)
    ensures Linearizable(links, multiset(ops))
  {
    hide Accepts, PartOk, WellFormedAll, Linearizable;
    SimpleHold(ops, links);
    KeysOfFree(simple, links);
    var ks := KeysOf(simple);
    SimplePart(links, simple, ks);
    KeysOfHold(simple);
    assert forall i :: 0 <= i < |simple| ==> simple[i] in simple;
    OpsOnAll(simple, ks);
    SplitAll(ops, links);
    PartsJoin(links, multiset(simple), multiset(linked), ks, links);
    LinearizablePart(links, multiset(ops), ks + links);
  }
}
