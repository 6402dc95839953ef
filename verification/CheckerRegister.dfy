/**
The test for one register that no rename touches: every write takes effect at a
fixed instant, and every read must fit between two of them.
*/
module CheckerRegister {
  import opened Options
  import opened Sorting
  import opened CheckerModel

  /** A value that the register takes on at instant `ts`; the initial one has no source. */
  datatype WriteEvent = WriteEvent(ts: nat, value: Option<Hash>, source: Option<Operation>)

  const INITIAL := WriteEvent(0, None, None)

  /** A write counts from its return, or from its call if it never returned. */
  function EffectTime(o: Operation): nat { if o.ret > 0 then o.ret else o.invoke }

  predicate IsWrite(o: Operation) { o.op.Put? || o.op.Delete? }

  function EventOf(o: Operation): WriteEvent {
    WriteEvent(EffectTime(o), if o.op.Put? then Some(o.op.hash) else None, Some(o))
  }

  function ByInvoke(ops: seq<Operation>): seq<Operation> { SortBy(ops, (o: Operation) => o.invoke) }

  function ByEffect(ws: seq<WriteEvent>): seq<WriteEvent> { SortBy(ws, (w: WriteEvent) => w.ts) }

  function WritesIn(s: seq<Operation>): seq<WriteEvent> {
    if s == [] then []
    else WritesIn(s[..|s| - 1]) + if IsWrite(s[|s| - 1]) then [EventOf(s[|s| - 1])] else []
  }

  function ReadsIn(s: seq<Operation>): seq<Operation> {
    if s == [] then []
    else ReadsIn(s[..|s| - 1]) + if s[|s| - 1].op.Get? then [s[|s| - 1]] else []
  }

  /** The values of the register, in the order in which it takes them on. */
  function Timeline(ops: seq<Operation>): seq<WriteEvent> {
    ByEffect([INITIAL] + WritesIn(ByInvoke(ops)))
  }

  /** Read `r` may have seen value `i`: it appeared before the read returned and the
      next one did not appear before the read was called. */
  predicate Visible(ws: seq<WriteEvent>, i: nat, r: Operation)
    requires i < |ws|
  {
    && ws[i].ts <= r.ret
    && ws[i].value == ReadValue(r)
    && (i + 1 < |ws| ==> ws[i + 1].ts > r.invoke)
  }

  ghost predicate ReadOk(ws: seq<WriteEvent>, r: Operation) {
    Skipped(r) || exists i: nat :: i < |ws| && Visible(ws, i, r)
  }

  ghost predicate Accepts(ops: seq<Operation>) {
    forall r :: r in ReadsIn(ByInvoke(ops)) ==> ReadOk(Timeline(ops), r)
  }

  // ---------------------------------------------------------------- the test

  method SplitOps(s: seq<Operation>) returns (writes: seq<WriteEvent>, gets: seq<Operation>)
    ensures writes == [INITIAL] + WritesIn(s) && gets == ReadsIn(s)
  {
    writes, gets := [INITIAL], [];
    var k := 0;
    while k < |s|
      invariant k <= |s| && writes == [INITIAL] + WritesIn(s[..k]) && gets == ReadsIn(s[..k])
    {
      assert s[..k + 1][..k] == s[..k];
      match s[k].op {
        case Put(_, _) => writes := writes + [EventOf(s[k])];
        case Delete(_) => writes := writes + [EventOf(s[k])];
        case Get(_) => gets := gets + [s[k]];
        case Rename(_, _) =>
      }
      k := k + 1;
    }
    assert s[..k] == s;
  }

  method FindVisible(ws: seq<WriteEvent>, r: Operation) returns (found: bool)
    requires Sorted(ws, (w: WriteEvent) => w.ts)
    ensures found == exists i: nat :: i < |ws| && Visible(ws, i, r)
  {
    var i := 0;
    while i < |ws|
      invariant i <= |ws|
      invariant forall j: nat :: j < i ==> !Visible(ws, j, r)
    {
      if ws[i].ts > r.ret {
        assert forall j :: i < j < |ws| ==> ws[i].ts <= ws[j].ts by { SortedPair(ws, i); }
        return false;
      }
      if ws[i].value == ReadValue(r) {
        var overwritten := i + 1 < |ws| && ws[i + 1].ts <= r.invoke;
        if !overwritten {
          assert Visible(ws, i, r);
          return true;
        }
      }
      i := i + 1;
    }
    return false;
  }

  lemma SortedPair(ws: seq<WriteEvent>, i: nat)
    requires Sorted(ws, (w: WriteEvent) => w.ts)
    ensures forall j :: i < j < |ws| ==> ws[i].ts <= ws[j].ts
  {
    var key := (w: WriteEvent) => w.ts;
    forall j | i < j < |ws| ensures ws[i].ts <= ws[j].ts { assert key(ws[i]) <= key(ws[j]); }
  }

  method CheckSingleRegister(ops: seq<Operation>) returns (ok: bool)
    ensures ok == Accepts(ops)
  {
    var sorted := ByInvoke(ops);
    var writes, gets := SplitOps(sorted);
    var ws := ByEffect(writes);
    SortBySorts(writes, (w: WriteEvent) => w.ts);
    ok := true;
    var k := 0;
    while k < |gets|
      invariant k <= |gets|
      invariant ok == forall j :: 0 <= j < k ==> ReadOk(ws, gets[j])
    {
      if !Skipped(gets[k]) {
        var found := FindVisible(ws, gets[k]);
        if !found { ok := false; }
      }
      k := k + 1;
    }
    if !ok {
      ghost var j :| 0 <= j < k && !ReadOk(ws, gets[j]);
      assert gets[j] in gets;
    }
  }

  // ---------------------------------------------------------------- an order that explains the reads

  /** Read `r` can be put between value `i` and the next one. */
  ghost predicate Fits(ws: seq<WriteEvent>, i: nat, r: Operation) {
    && i < |ws|
    && (r.ret > 0 ==> ws[i].ts <= r.ret)
    && (i + 1 < |ws| ==> ws[i + 1].ts > r.invoke)
    && (Skipped(r) || ws[i].value == ReadValue(r))
  }

  /** A read that says nothing fits after the last value that appeared before its call. */
  lemma {:induction false} LastBefore(ws: seq<WriteEvent>, n: nat, r: Operation) returns (i: nat)
    requires n < |ws| && ws[n].ts <= r.invoke && Skipped(r) && WellFormed(r)
    ensures Fits(ws, i, r)
    decreases |ws| - n
  {
    if n + 1 < |ws| && ws[n + 1].ts <= r.invoke { i := LastBefore(ws, n + 1, r); } else { i := n; }
  }

  lemma SlotExists(ws: seq<WriteEvent>, r: Operation)
    requires ws != [] && ws[0] == INITIAL && ReadOk(ws, r) && WellFormed(r)
    ensures exists i: nat :: Fits(ws, i, r)
  {
    if Skipped(r) {
      var i := LastBefore(ws, 0, r);
    } else {
      var i: nat :| i < |ws| && Visible(ws, i, r);
      assert Fits(ws, i, r);
    }
  }

  ghost predicate HasSlot(ws: seq<WriteEvent>, r: Operation) { exists i: nat :: Fits(ws, i, r) }

  /** The value after which read `r` is put. */
  ghost function SlotOf(ws: seq<WriteEvent>, r: Operation): (i: nat)
    requires HasSlot(ws, r)
    ensures Fits(ws, i, r)
  {
    var i: nat :| Fits(ws, i, r);
    i
  }

  ghost predicate AllFit(ws: seq<WriteEvent>, gets: seq<Operation>) {
    forall r :: r in gets ==> HasSlot(ws, r)
  }

  /** The reads put after value `i`, in the given order. */
  ghost function GetsAt(ws: seq<WriteEvent>, gets: seq<Operation>, i: nat): seq<Operation>
    requires AllFit(ws, gets)
  {
    if gets == [] then []
    else
      var rest, r := gets[..|gets| - 1], gets[|gets| - 1];
      assert r in gets && (forall x :: x in rest ==> x in gets);
      GetsAt(ws, rest, i) + if SlotOf(ws, r) == i then [r] else []
  }

  /** The reads put after one of the first `k` values. */
  ghost function GetsBelow(ws: seq<WriteEvent>, gets: seq<Operation>, k: nat): multiset<Operation>
    requires AllFit(ws, gets)
  {
    if gets == [] then multiset{}
    else
      var rest, r := gets[..|gets| - 1], gets[|gets| - 1];
      assert r in gets && (forall x :: x in rest ==> x in gets);
      GetsBelow(ws, rest, k) + if SlotOf(ws, r) < k then multiset{r} else multiset{}
  }

  lemma {:induction false} GetsBelowStep(ws: seq<WriteEvent>, gets: seq<Operation>, k: nat)
    requires AllFit(ws, gets)
    ensures GetsBelow(ws, gets, k + 1) == GetsBelow(ws, gets, k) + multiset(GetsAt(ws, gets, k))
    decreases |gets|
  {
    if gets != [] {
      var rest := gets[..|gets| - 1];
      assert gets[|gets| - 1] in gets && (forall x :: x in rest ==> x in gets);
      GetsBelowStep(ws, rest, k);
    }
  }

  lemma {:induction false} GetsBelowEnds(ws: seq<WriteEvent>, gets: seq<Operation>)
    requires AllFit(ws, gets)
    ensures GetsBelow(ws, gets, 0) == multiset{} && GetsBelow(ws, gets, |ws|) == multiset(gets)
    decreases |gets|
  {
    if gets != [] {
      var rest := gets[..|gets| - 1];
      assert gets[|gets| - 1] in gets && (forall x :: x in rest ==> x in gets);
      GetsBelowEnds(ws, rest);
      assert gets == rest + [gets[|gets| - 1]];
    }
  }

  function Later(a: nat, b: nat): nat { if a < b then b else a }

  function PlaceGets(ts: nat, rs: seq<Operation>): seq<Placed> {
    if rs == [] then []
    else PlaceGets(ts, rs[..|rs| - 1]) + [Placed(rs[|rs| - 1], Later(ts, rs[|rs| - 1].invoke), true)]
  }

  /** Value `i` and the reads put after it. */
  ghost function Segment(ws: seq<WriteEvent>, gets: seq<Operation>, i: nat): seq<Placed>
    requires AllFit(ws, gets) && i < |ws|
  {
    (if ws[i].source.Some? then [Placed(ws[i].source.value, ws[i].ts, true)] else [])
    + PlaceGets(ws[i].ts, GetsAt(ws, gets, i))
  }

  ghost function OrderUpTo(ws: seq<WriteEvent>, gets: seq<Operation>, k: nat): seq<Placed>
    requires AllFit(ws, gets) && k <= |ws|
  {
    if k == 0 then [] else OrderUpTo(ws, gets, k - 1) + Segment(ws, gets, k - 1)
  }

  // ---------------------------------------------------------------- its operations

  function Sources(ws: seq<WriteEvent>): multiset<Operation> {
    if ws == [] then multiset{}
    else Sources(ws[..|ws| - 1]) + if ws[|ws| - 1].source.Some? then multiset{ws[|ws| - 1].source.value} else multiset{}
  }

  lemma {:induction false} OpsAppend(a: seq<Placed>, b: seq<Placed>)
    ensures Ops(a + b) == Ops(a) + Ops(b)
    decreases |b|
  {
    if b == [] {
      assert a + b == a;
    } else {
      var c := b[..|b| - 1];
      assert (a + b)[..|a + b| - 1] == a + c;
      OpsAppend(a, c);
    }
  }

  lemma {:induction false} PlaceGetsOps(ts: nat, rs: seq<Operation>)
    ensures Ops(PlaceGets(ts, rs)) == multiset(rs)
    decreases |rs|
  {
    if rs != [] {
      PlaceGetsOps(ts, rs[..|rs| - 1]);
      OpsSnoc(PlaceGets(ts, rs[..|rs| - 1]), Placed(rs[|rs| - 1], Later(ts, rs[|rs| - 1].invoke), true));
      assert rs == rs[..|rs| - 1] + [rs[|rs| - 1]];
    }
  }

  lemma SegmentOps(ws: seq<WriteEvent>, gets: seq<Operation>, i: nat)
    requires AllFit(ws, gets) && i < |ws|
    ensures Ops(Segment(ws, gets, i))
         == (if ws[i].source.Some? then multiset{ws[i].source.value} else multiset{}) + multiset(GetsAt(ws, gets, i))
  {
    var head := if ws[i].source.Some? then [Placed(ws[i].source.value, ws[i].ts, true)] else [];
    OpsAppend(head, PlaceGets(ws[i].ts, GetsAt(ws, gets, i)));
    PlaceGetsOps(ws[i].ts, GetsAt(ws, gets, i));
    if head != [] { OpsSnoc([], head[0]); assert [] + head == head; }
  }

  lemma NoOps()
    ensures Ops([]) == multiset{}
  {
  }

  lemma SumFour(a: multiset<Operation>, b: multiset<Operation>, c: multiset<Operation>, d: multiset<Operation>)
    ensures a + b + (c + d) == a + c + (b + d)
  {
  }

  lemma {:induction false} OrderOps(ws: seq<WriteEvent>, gets: seq<Operation>, k: nat)
    requires AllFit(ws, gets) && k <= |ws|
    ensures Ops(OrderUpTo(ws, gets, k)) == Sources(ws[..k]) + GetsBelow(ws, gets, k)
    decreases k
  {
    hide GetsAt, GetsBelow, Segment, AllFit, Ops;
    if k == 0 {
      assert Ops([]) == multiset{} by { NoOps(); }
      GetsBelowEnds(ws, gets);
    } else {
      OrderOps(ws, gets, k - 1);
      OpsAppend(OrderUpTo(ws, gets, k - 1), Segment(ws, gets, k - 1));
      SegmentOps(ws, gets, k - 1);
      GetsBelowStep(ws, gets, k - 1);
      assert ws[..k][..k - 1] == ws[..k - 1];
      var own := if ws[k - 1].source.Some? then multiset{ws[k - 1].source.value} else multiset{};
      SumFour(Sources(ws[..k - 1]), GetsBelow(ws, gets, k - 1), own, multiset(GetsAt(ws, gets, k - 1)));
    }
  }

  // ---------------------------------------------------------------- its instants

  lemma TimelyAppend(a: seq<Placed>, b: seq<Placed>, t: nat)
    requires Timely(a) && Timely(b)
    requires (forall p :: p in a ==> p.point <= t) && (forall p :: p in b ==> t <= p.point)
    ensures Timely(a + b)
  {
    var all := a + b;
    forall i | 0 <= i < |all| ensures InTime(all[i]) {
      if i < |a| { assert all[i] == a[i]; } else { assert all[i] == b[i - |a|]; }
    }
    forall i, j | 0 <= i < j < |all| ensures all[i].point <= all[j].point {
      if j < |a| { assert all[i] == a[i] && all[j] == a[j]; }
      else if i >= |a| { assert all[i] == b[i - |a|] && all[j] == b[j - |a|]; }
      else { assert all[i] in a && all[j] in b; }
    }
  }

  lemma SnocSorted(g: seq<Operation>, r: Operation)
    requires SortedInvokes(g) && forall x :: x in g ==> x.invoke <= r.invoke
    ensures SortedInvokes(g + [r])
  {
  }

  lemma {:induction false} GetsAtHolds(ws: seq<WriteEvent>, gets: seq<Operation>, i: nat, top: nat)
    requires AllFit(ws, gets) && SortedInvokes(gets) && forall r :: r in gets ==> r.invoke <= top
    ensures forall r :: r in GetsAt(ws, gets, i) ==> r in gets && Fits(ws, i, r)
    ensures SortedInvokes(GetsAt(ws, gets, i))
    decreases |gets|
  {
    hide Fits;
    if gets != [] {
      var rest, r := gets[..|gets| - 1], gets[|gets| - 1];
      assert r in gets && (forall x :: x in rest ==> x in gets);
      forall x | x in rest ensures x.invoke <= r.invoke { var j :| 0 <= j < |rest| && rest[j] == x; assert gets[j] == x; }
      GetsAtHolds(ws, rest, i, r.invoke);
      var g := GetsAt(ws, rest, i);
      if SlotOf(ws, r) == i { SnocSorted(g, r); }
    }
  }

  ghost predicate SortedInvokes(rs: seq<Operation>) {
    forall i, j :: 0 <= i < j < |rs| ==> rs[i].invoke <= rs[j].invoke
  }

  lemma {:induction false} PlaceGetsTimely(ws: seq<WriteEvent>, i: nat, rs: seq<Operation>)
    requires SortedInvokes(rs) && i < |ws| && forall r :: r in rs ==> Fits(ws, i, r) && WellFormed(r)
    requires i + 1 < |ws| ==> ws[i].ts <= ws[i + 1].ts
    ensures Timely(PlaceGets(ws[i].ts, rs))
    ensures forall p :: p in PlaceGets(ws[i].ts, rs) ==> ws[i].ts <= p.point && (i + 1 < |ws| ==> p.point <= ws[i + 1].ts)
    ensures forall p :: p in PlaceGets(ws[i].ts, rs) ==> exists r :: r in rs && p.point == Later(ws[i].ts, r.invoke)
    decreases |rs|
  {
    if rs != [] {
      var rest, r := rs[..|rs| - 1], rs[|rs| - 1];
      assert r in rs && forall x :: x in rest ==> x in rs;
      PlaceGetsTimely(ws, i, rest);
      var done, p := PlaceGets(ws[i].ts, rest), Placed(r, Later(ws[i].ts, r.invoke), true);
      forall q | q in done ensures q.point <= p.point {
        var x :| x in rest && q.point == Later(ws[i].ts, x.invoke);
        var j :| 0 <= j < |rest| && rest[j] == x;
        assert rs[j] == x;
      }
      TimelySnoc(done, p);
    }
  }

  lemma SegmentTimely(ws: seq<WriteEvent>, gets: seq<Operation>, i: nat, top: nat)
    requires AllFit(ws, gets) && SortedInvokes(gets) && i < |ws| && (forall r :: r in gets ==> WellFormed(r) && r.invoke <= top)
    requires i + 1 < |ws| ==> ws[i].ts <= ws[i + 1].ts
    requires ws[i].source.Some? ==> InTime(Placed(ws[i].source.value, ws[i].ts, true))
    ensures Timely(Segment(ws, gets, i))
    ensures forall p :: p in Segment(ws, gets, i) ==> ws[i].ts <= p.point && (i + 1 < |ws| ==> p.point <= ws[i + 1].ts)
  {
    GetsAtHolds(ws, gets, i, top);
    hide GetsAt, Fits;
    PlaceGetsTimely(ws, i, GetsAt(ws, gets, i));
    if ws[i].source.Some? {
      TimelyAppend([Placed(ws[i].source.value, ws[i].ts, true)], PlaceGets(ws[i].ts, GetsAt(ws, gets, i)), ws[i].ts);
    }
  }

  /** Values appear in the order of their instants, each within its write's interval. */
  ghost predicate Chronicle(ws: seq<WriteEvent>) {
    && ws != [] && ws[0] == INITIAL
    && (forall i, j :: 0 <= i < j < |ws| ==> ws[i].ts <= ws[j].ts)
    && (forall i :: 0 < i < |ws| ==> ws[i].source.Some? && IsWrite(ws[i].source.value) && ws[i] == EventOf(ws[i].source.value)
                                     && WellFormed(ws[i].source.value))
  }

  lemma {:induction false} OrderTimely(ws: seq<WriteEvent>, gets: seq<Operation>, k: nat, top: nat)
    requires Chronicle(ws) && AllFit(ws, gets) && SortedInvokes(gets) && k <= |ws|
    requires forall r :: r in gets ==> WellFormed(r) && r.invoke <= top
    ensures Timely(OrderUpTo(ws, gets, k))
    ensures k < |ws| ==> forall p :: p in OrderUpTo(ws, gets, k) ==> p.point <= ws[k].ts
    decreases k
  {
    hide AllFit, SortedInvokes, Segment;
    if k > 0 {
      OrderTimely(ws, gets, k - 1, top);
      SegmentTimely(ws, gets, k - 1, top);
      TimelyAppend(OrderUpTo(ws, gets, k - 1), Segment(ws, gets, k - 1), ws[k - 1].ts);
    }
  }

  // ---------------------------------------------------------------- its effect

  lemma {:induction false} RunAppend(links: set<Key>, st: Registers, a: seq<Placed>, b: seq<Placed>)
    requires RunFrom(links, st, a).Some?
    ensures RunFrom(links, st, a + b) == RunFrom(links, RunFrom(links, st, a).value, b)
    decreases |b|
  {
    if b == [] {
      assert a + b == a;
    } else {
      var c := b[..|b| - 1];
      assert (a + b)[..|a + b| - 1] == a + c;
      RunAppend(links, st, a, c);
    }
  }

  lemma {:induction false} GetsRun(links: set<Key>, st: Registers, ts: nat, rs: seq<Operation>, key: Key)
    requires key !in links
    requires forall r :: r in rs ==> r.op == Get(key) && (Skipped(r) || Value(st, key) == ReadValue(r))
    ensures RunFrom(links, st, PlaceGets(ts, rs)) == Some(st)
    decreases |rs|
  {
    if rs != [] {
      var rest, r := rs[..|rs| - 1], rs[|rs| - 1];
      assert r in rs && forall x :: x in rest ==> x in rs;
      GetsRun(links, st, ts, rest, key);
      RunSnoc(links, st, PlaceGets(ts, rest), Placed(r, Later(ts, r.invoke), true));
    }
  }

  /** All operations are on this one key. */
  ghost predicate OnKey(ops: seq<Operation>, key: Key) {
    forall o :: o in ops ==> !o.op.Rename? && o.op.path == key
  }

  lemma WriteRun(links: set<Key>, st: Registers, w: WriteEvent, key: Key)
    requires key !in links && w.source.Some? && IsWrite(w.source.value) && w == EventOf(w.source.value) && w.source.value.op.path == key
    ensures var r := RunFrom(links, st, [Placed(w.source.value, w.ts, true)]);
            r.Some? && Value(r.value, key) == w.value
  {
    var p := Placed(w.source.value, w.ts, true);
    RunSnoc(links, st, [], p);
    assert [] + [p] == [p];
  }

  lemma SegmentRun(links: set<Key>, st: Registers, ws: seq<WriteEvent>, gets: seq<Operation>, i: nat, key: Key, top: nat)
    requires Chronicle(ws) && AllFit(ws, gets) && i < |ws| && key !in links && OnKey(gets, key) && SortedInvokes(gets)
    requires (forall r :: r in gets ==> r.op.Get? && r.invoke <= top) && (i == 0 ==> Value(st, key) == None)
    requires i > 0 ==> ws[i].source.value.op.path == key
    ensures var r := RunFrom(links, st, Segment(ws, gets, i)); r.Some? && Value(r.value, key) == ws[i].value
  {
    GetsAtHolds(ws, gets, i, top);
    var rs := GetsAt(ws, gets, i);
    hide GetsAt, SortedInvokes, AllFit, SlotOf;
    if i == 0 {
      GetsRun(links, st, ws[i].ts, rs, key);
      assert [] + PlaceGets(ws[i].ts, rs) == PlaceGets(ws[i].ts, rs);
    } else {
      WriteRun(links, st, ws[i], key);
      var head := [Placed(ws[i].source.value, ws[i].ts, true)];
      GetsRun(links, RunFrom(links, st, head).value, ws[i].ts, rs, key);
      RunAppend(links, st, head, PlaceGets(ws[i].ts, rs));
    }
  }

  lemma {:induction false} OrderRun(links: set<Key>, ws: seq<WriteEvent>, gets: seq<Operation>, k: nat, key: Key, top: nat)
    requires Chronicle(ws) && AllFit(ws, gets) && k <= |ws| && key !in links && OnKey(gets, key) && SortedInvokes(gets)
    requires forall r :: r in gets ==> r.op.Get? && r.invoke <= top
    requires forall i :: 0 < i < |ws| ==> ws[i].source.value.op.path == key
    ensures var r := RunFrom(links, map[], OrderUpTo(ws, gets, k));
            r.Some? && Value(r.value, key) == if k == 0 then None else ws[k - 1].value
    decreases k
  {
    hide AllFit, SortedInvokes, Segment, OnKey;
    if k > 0 {
      OrderRun(links, ws, gets, k - 1, key, top);
      var st := RunFrom(links, map[], OrderUpTo(ws, gets, k - 1)).value;
      SegmentRun(links, st, ws, gets, k - 1, key, top);
      RunAppend(links, map[], OrderUpTo(ws, gets, k - 1), Segment(ws, gets, k - 1));
    }
  }

  // ---------------------------------------------------------------- soundness

  lemma {:induction false} SourcesInsert(w: WriteEvent, ws: seq<WriteEvent>)
    ensures Sources(Insert(w, ws, (x: WriteEvent) => x.ts))
         == Sources(ws) + if w.source.Some? then multiset{w.source.value} else multiset{}
    decreases |ws|
  {
    var key := (x: WriteEvent) => x.ts;
    var r := Insert(w, ws, key);
    if ws == [] || key(ws[|ws| - 1]) <= key(w) {
      assert r == ws + [w] && r[..|ws|] == ws;
    } else {
      var rest := ws[..|ws| - 1];
      SourcesInsert(w, rest);
      assert r[..|r| - 1] == Insert(w, rest, key);
    }
  }

  lemma {:induction false} SourcesSorted(ws: seq<WriteEvent>)
    ensures Sources(ByEffect(ws)) == Sources(ws)
    decreases |ws|
  {
    if ws != [] {
      SourcesSorted(ws[..|ws| - 1]);
      SourcesInsert(ws[|ws| - 1], ByEffect(ws[..|ws| - 1]));
    }
  }

  lemma {:induction false} SourcesFront(w: WriteEvent, ws: seq<WriteEvent>)
    requires w.source == None
    ensures Sources([w] + ws) == Sources(ws)
    decreases |ws|
  {
    var all := [w] + ws;
    if ws == [] {
      assert all[..0] == [];
    } else {
      assert all[..|all| - 1] == [w] + ws[..|ws| - 1];
      SourcesFront(w, ws[..|ws| - 1]);
    }
  }

  /** Reads and writes together are all operations. */
  lemma {:induction false} SplitCovers(s: seq<Operation>)
    requires forall o :: o in s ==> !o.op.Rename?
    ensures Sources(WritesIn(s)) + multiset(ReadsIn(s)) == multiset(s)
    decreases |s|
  {
    hide Sources, EventOf, WritesIn, ReadsIn;
    if s == [] {
      NothingSplit();
    } else {
      var rest, o := s[..|s| - 1], s[|s| - 1];
      assert forall x :: x in rest ==> x in s;
      SplitCovers(rest);
      assert s == rest + [o];
      assert multiset(s) == multiset(rest) + multiset{o};
      SplitStep(s, rest, o, Sources(WritesIn(rest)), multiset(ReadsIn(rest)));
    }
  }

  lemma SplitStep(s: seq<Operation>, rest: seq<Operation>, o: Operation, w: multiset<Operation>, g: multiset<Operation>)
    requires s != [] && rest == s[..|s| - 1] && o == s[|s| - 1] && o in s && !o.op.Rename?
    requires w == Sources(WritesIn(rest)) && g == multiset(ReadsIn(rest))
    ensures Sources(WritesIn(s)) + multiset(ReadsIn(s)) == w + g + multiset{o}
  {
    hide Sources, EventOf;
    if IsWrite(o) {
      EventSource(o);
      SourcesSnoc(WritesIn(rest), EventOf(o));
      assert ReadsIn(s) == ReadsIn(rest);
      SumSwap(w, multiset{o}, g);
    } else {
      assert WritesIn(s) == WritesIn(rest) && ReadsIn(s) == ReadsIn(rest) + [o];
      SumAssoc(w, g, multiset{o});
    }
  }

  lemma SumSwap(a: multiset<Operation>, b: multiset<Operation>, c: multiset<Operation>)
    ensures a + b + c == a + c + b
  {
  }

  lemma SumAssoc(a: multiset<Operation>, b: multiset<Operation>, c: multiset<Operation>)
    ensures a + (b + c) == a + b + c
  {
  }

  lemma NothingSplit()
    ensures Sources(WritesIn([])) == multiset{} && ReadsIn([]) == []
  {
  }

  lemma EventSource(o: Operation)
    ensures EventOf(o).source == Some(o)
  {
  }

  lemma SourcesSnoc(ws: seq<WriteEvent>, w: WriteEvent)
    requires w.source.Some?
    ensures Sources(ws + [w]) == Sources(ws) + multiset{w.source.value}
  {
    assert (ws + [w])[..|ws|] == ws;
  }

  lemma {:induction false} WritesInHold(s: seq<Operation>)
    ensures forall w :: w in WritesIn(s) ==> w.source.Some? && w.source.value in s && IsWrite(w.source.value) && w == EventOf(w.source.value)
    decreases |s|
  {
    if s != [] {
      assert s[|s| - 1] in s && forall x :: x in s[..|s| - 1] ==> x in s;
      WritesInHold(s[..|s| - 1]);
    }
  }

  lemma {:induction false} ReadsInHold(s: seq<Operation>)
    requires SortedInvokes(s)
    ensures forall r :: r in ReadsIn(s) ==> r in s && r.op.Get?
    ensures SortedInvokes(ReadsIn(s))
    decreases |s|
  {
    if s != [] {
      var rest, o := s[..|s| - 1], s[|s| - 1];
      assert o in s && forall x :: x in rest ==> x in s;
      ReadsInHold(rest);
      var g := ReadsIn(rest);
      forall x | x in g ensures x.invoke <= o.invoke {
        var k :| 0 <= k < |rest| && rest[k] == x;
        assert s[k] == x;
      }
      assert ReadsIn(s) == if o.op.Get? then g + [o] else g + [];
      hide ReadsIn, SortedInvokes;
      if o.op.Get? { SnocSorted(g, o); } else { assert g + [] == g; }
    }
  }

  lemma InvokeSorted(ops: seq<Operation>)
    ensures SortedInvokes(ByInvoke(ops)) && multiset(ByInvoke(ops)) == multiset(ops)
    ensures forall o :: o in ByInvoke(ops) ==> o in ops
  {
    var key := (o: Operation) => o.invoke;
    SortBySorts(ops, key);
    var s := ByInvoke(ops);
    forall i, j | 0 <= i < j < |s| ensures s[i].invoke <= s[j].invoke { assert key(s[i]) <= key(s[j]); }
    forall o | o in s ensures o in ops { assert o in multiset(s); }
  }

  lemma EffectSorted(es: seq<WriteEvent>)
    ensures var rest := ByEffect(es);
            && (forall i, j :: 0 <= i < j < |rest| ==> rest[i].ts <= rest[j].ts)
            && (forall i :: 0 <= i < |rest| ==> rest[i] in es)
  {
    var key := (w: WriteEvent) => w.ts;
    SortBySorts(es, key);
    var rest := ByEffect(es);
    forall i, j | 0 <= i < j < |rest| ensures rest[i].ts <= rest[j].ts { assert key(rest[i]) <= key(rest[j]); }
    forall i | 0 <= i < |rest| ensures rest[i] in es { assert rest[i] in multiset(rest); }
  }

  lemma TimelineIs(ops: seq<Operation>)
    ensures Timeline(ops) == [INITIAL] + ByEffect(WritesIn(ByInvoke(ops)))
  {
    SortByFront(INITIAL, WritesIn(ByInvoke(ops)), (w: WriteEvent) => w.ts);
  }

  lemma TimelineShape(ops: seq<Operation>)
    requires forall o :: o in ops ==> WellFormed(o)
    ensures Chronicle(Timeline(ops))
    ensures forall i :: 0 < i < |Timeline(ops)| ==> Timeline(ops)[i].source.value in ops
    ensures Sources(Timeline(ops)) == Sources(WritesIn(ByInvoke(ops)))
  {
    hide ByEffect, ByInvoke, WritesIn, Sources, Timeline;
    var es := WritesIn(ByInvoke(ops));
    InvokeSorted(ops);
    WritesInHold(ByInvoke(ops));
    TimelineIs(ops);
    EffectSorted(es);
    SourcesSorted(es);
    SourcesFront(INITIAL, ByEffect(es));
  }

  /** What the construction needs to know about the reads. */
  lemma GetsShape(ops: seq<Operation>)
    requires Accepts(ops) && forall o :: o in ops ==> WellFormed(o)
    ensures var gets := ReadsIn(ByInvoke(ops));
            && AllFit(Timeline(ops), gets) && SortedInvokes(gets)
            && forall r :: r in gets ==> r in ops && r.op.Get?
  {
    hide ByInvoke, Timeline, ReadsIn, SortedInvokes;
    var s := ByInvoke(ops);
    InvokeSorted(ops);
    ReadsInHold(s);
    TimelineShape(ops);
    forall r | r in ReadsIn(s) ensures HasSlot(Timeline(ops), r) { SlotExists(Timeline(ops), r); }
  }

  lemma AllOperations(ops: seq<Operation>)
    requires (forall o :: o in ops ==> !o.op.Rename? && WellFormed(o))
    ensures Sources(Timeline(ops)) + multiset(ReadsIn(ByInvoke(ops))) == multiset(ops)
  {
    hide ByInvoke, Timeline, ReadsIn, WritesIn, Sources;
    InvokeSorted(ops);
    TimelineShape(ops);
    SplitCovers(ByInvoke(ops));
  }

  /** If the test accepts, all operations on the key can be put into one order, each at an
      instant of its own interval, in which every read sees the latest write. */
  lemma RegisterSound(links: set<Key>, ops: seq<Operation>, key: Key) returns (order: seq<Placed>)
    requires Accepts(ops) && OnKey(ops, key) && key !in links && forall o :: o in ops ==> WellFormed(o)
    ensures Explains(links, multiset(ops), order) && Timely(order) && Within(order, {key})
    ensures var ws, gets := Timeline(ops), ReadsIn(ByInvoke(ops)); AllFit(ws, gets) && order == OrderUpTo(ws, gets, |ws|)
  {
    hide Timeline, ByInvoke, Accepts, Chronicle, SortedInvokes, OrderUpTo, AllFit, ReadsIn, Sources, Timely, Within;
    var ws, gets := Timeline(ops), ReadsIn(ByInvoke(ops));
    GetsShape(ops);
    TimelineShape(ops);
    AllOperations(ops);
    order := OrderUpTo(ws, gets, |ws|);
    OrderTimely(ws, gets, |ws|, MAX_TIME);
    OnKeyParts(ops, ws, gets, key);
    OrderRun(links, ws, gets, |ws|, key, MAX_TIME);
    OrderOps(ws, gets, |ws|);
    GetsBelowEnds(ws, gets);
    assert ws[..|ws|] == ws;
    ExplainsIff(links, multiset(ops), order);
    OpsWithin(order, ops, key);
  }

  lemma OnKeyParts(ops: seq<Operation>, ws: seq<WriteEvent>, gets: seq<Operation>, key: Key)
    requires OnKey(ops, key) && (forall r :: r in gets ==> r in ops)
    requires Chronicle(ws) && forall i :: 0 < i < |ws| ==> ws[i].source.value in ops
    ensures OnKey(gets, key) && forall i :: 0 < i < |ws| ==> ws[i].source.value.op.path == key
  {
  }

  lemma OpsWithin(order: seq<Placed>, ops: seq<Operation>, key: Key)
    requires Ops(order) == multiset(ops) && OnKey(ops, key)
    ensures Within(order, {key})
  {
    forall p | p in order ensures Touches(p.op) <= {key} {
      PlacedIsOp(order, p);
      assert p.op in ops;
    }
  }

  lemma {:induction false} PlacedIsOp(order: seq<Placed>, p: Placed)
    requires p in order
    ensures p.op in Ops(order)
    decreases |order|
  {
    if p != order[|order| - 1] { PlacedIsOp(order[..|order| - 1], p); }
  }
}
