/**
What the test of a single register accepts: exactly the histories that an order
explains in which every write happens at its effect time, writes at one instant
in the order of their calls, and no read comes before a write that had taken
effect when it was called.
*/
module CheckerExact {
  import opened Options
  import opened Sorting
  import opened CheckerModel
  import opened CheckerRegister

  function WritesOnly(s: seq<Operation>): seq<Operation> {
    if s == [] then []
    else WritesOnly(s[..|s| - 1]) + if s[|s| - 1].op.Put? || s[|s| - 1].op.Delete? then [s[|s| - 1]] else []
  }

  /** The writes by effect time, then by call, then as they come. */
  function EffectOrder(ops: seq<Operation>): seq<Operation> {
    SortBy(WritesOnly(SortBy(ops, (o: Operation) => o.invoke)), (o: Operation) => if o.ret > 0 then o.ret else o.invoke)
  }

  /** The writes of an order. */
  function WritesOf(order: seq<Placed>): seq<Operation> {
    if order == [] then []
    else
      var o := order[|order| - 1].op;
      WritesOf(order[..|order| - 1]) + if o.op.Put? || o.op.Delete? then [o] else []
  }

  /** Every write happens at its return, or at its call if it never returned. */
  ghost predicate AtEffect(order: seq<Placed>) {
    forall i :: 0 <= i < |order| && IsWrite(order[i].op) ==>
      order[i].point == if order[i].op.ret > 0 then order[i].op.ret else order[i].op.invoke
  }

  /** A read that comes before a write was called before its effect. */
  ghost predicate ReadsInTime(order: seq<Placed>) {
    forall i, j :: 0 <= i < j < |order| && order[i].op.op.Get? && IsWrite(order[j].op) ==> order[i].op.invoke < order[j].point
  }

  ghost predicate Arranged(links: set<Key>, ops: seq<Operation>, order: seq<Placed>) {
    && Explains(links, multiset(ops), order) && Timely(order)
    && AtEffect(order) && ReadsInTime(order) && WritesOf(order) == EffectOrder(ops)
  }

  ghost predicate Arrangeable(links: set<Key>, ops: seq<Operation>) {
    exists order :: Arranged(links, ops, order)
  }

  // ---------------------------------------------------------------- the timeline holds the writes in this order

  function SourceSeq(ws: seq<WriteEvent>): seq<Operation> {
    if ws == [] then []
    else SourceSeq(ws[..|ws| - 1]) + if ws[|ws| - 1].source.Some? then [ws[|ws| - 1].source.value] else []
  }

  ghost predicate Events(ws: seq<WriteEvent>) {
    forall w :: w in ws ==> w.source.Some? && w == EventOf(w.source.value)
  }

  lemma SourceSnoc(ws: seq<WriteEvent>, w: WriteEvent)
    ensures SourceSeq(ws + [w]) == SourceSeq(ws) + if w.source.Some? then [w.source.value] else []
  {
    assert (ws + [w])[..|ws|] == ws;
  }

  lemma InsertSnoc<T>(x: T, s: seq<T>, y: T, key: T -> nat)
    ensures Insert(x, s + [y], key) == if key(y) <= key(x) then s + [y] + [x] else Insert(x, s, key) + [y]
  {
    assert (s + [y])[..|s|] == s;
  }

  lemma EventMeans(w: WriteEvent)
    requires w.source.Some? && w == EventOf(w.source.value)
    ensures w.ts == EffectTime(w.source.value)
  {
  }

  lemma {:induction false} SourceInsert(w: WriteEvent, ws: seq<WriteEvent>)
    requires Events(ws) && w.source.Some? && w == EventOf(w.source.value)
    ensures SourceSeq(Insert(w, ws, (x: WriteEvent) => x.ts)) == Insert(w.source.value, SourceSeq(ws), EffectTime)
    decreases |ws|
  {
    hide EventOf, EffectTime;
    var key := (x: WriteEvent) => x.ts;
    if ws == [] {
      SourceSnoc([], w);
      assert [] + [w] == [w];
    } else {
      var rest, last := ws[..|ws| - 1], ws[|ws| - 1];
      assert ws == rest + [last] && last in ws && forall x :: x in rest ==> x in ws;
      hide Insert, SourceSeq;
      EventMeans(w);
      EventMeans(last);
      SourceInsert(w, rest);
      SourceSnoc(rest, last);
      SourceSnoc(ws, w);
      SourceSnoc(Insert(w, rest, key), last);
      InsertSnoc(w, rest, last, key);
      InsertSnoc(w.source.value, SourceSeq(rest), last.source.value, EffectTime);
    }
  }

  lemma {:induction false} SourceSorted(ws: seq<WriteEvent>)
    requires Events(ws)
    ensures SourceSeq(ByEffect(ws)) == SortBy(SourceSeq(ws), EffectTime) && Events(ByEffect(ws))
    decreases |ws|
  {
    var key := (x: WriteEvent) => x.ts;
    if ws != [] {
      var rest, last := ws[..|ws| - 1], ws[|ws| - 1];
      assert last in ws && forall x :: x in rest ==> x in ws;
      SourceSorted(rest);
      SourceInsert(last, ByEffect(rest));
      InsertElements(last, ByEffect(rest), key);
      assert SourceSeq(ws)[..|SourceSeq(ws)| - 1] == SourceSeq(rest);
    }
  }

  lemma {:induction false} SourceWrites(s: seq<Operation>)
    ensures SourceSeq(WritesIn(s)) == WritesOnly(s) && Events(WritesIn(s))
    decreases |s|
  {
    hide EventOf, SourceSeq;
    if s == [] {
      NoSources();
    } else {
      var rest, o := s[..|s| - 1], s[|s| - 1];
      SourceWrites(rest);
      EventSource(o);
      SourceSnoc(WritesIn(rest), EventOf(o));
      assert WritesIn(rest) + [] == WritesIn(rest);
    }
  }

  lemma NoSources()
    ensures SourceSeq([]) == []
  {
  }

  lemma {:induction false} SourceFront(w: WriteEvent, ws: seq<WriteEvent>)
    requires w.source == None
    ensures SourceSeq([w] + ws) == SourceSeq(ws)
    decreases |ws|
  {
    var all := [w] + ws;
    if ws == [] {
      assert all[..0] == [];
    } else {
      assert all[..|all| - 1] == [w] + ws[..|ws| - 1];
      SourceFront(w, ws[..|ws| - 1]);
    }
  }

  lemma SameSort(s: seq<Operation>)
    ensures SortBy(s, EffectTime) == SortBy(s, (o: Operation) => if o.ret > 0 then o.ret else o.invoke)
  {
    SortAlike(s, EffectTime, (o: Operation) => if o.ret > 0 then o.ret else o.invoke);
  }

  lemma {:induction false} InsertAlike(x: Operation, s: seq<Operation>, f: Operation -> nat, g: Operation -> nat)
    requires forall o :: f(o) == g(o)
    ensures Insert(x, s, f) == Insert(x, s, g)
    decreases |s|
  {
    if s != [] { InsertAlike(x, s[..|s| - 1], f, g); }
  }

  lemma {:induction false} SortAlike(s: seq<Operation>, f: Operation -> nat, g: Operation -> nat)
    requires forall o :: f(o) == g(o)
    ensures SortBy(s, f) == SortBy(s, g)
    decreases |s|
  {
    if s != [] {
      SortAlike(s[..|s| - 1], f, g);
      InsertAlike(s[|s| - 1], SortBy(s[..|s| - 1], f), f, g);
    }
  }

  lemma TimelineSources(ops: seq<Operation>)
    ensures SourceSeq(Timeline(ops)) == EffectOrder(ops)
  {
    hide SortBy, WritesIn, WritesOnly;
    var s := ByInvoke(ops);
    TimelineIs(ops);
    SourceWrites(s);
    SourceSorted(WritesIn(s));
    SourceFront(INITIAL, ByEffect(WritesIn(s)));
    SameSort(WritesOnly(s));
  }

  /** After the initial value, the sources are those of the events one by one. */
  lemma {:induction false} SourceAt(ws: seq<WriteEvent>, k: nat)
    requires Chronicle(ws) && k < |ws|
    ensures |SourceSeq(ws[..k + 1])| == k
    ensures forall j :: 0 < j <= k ==> SourceSeq(ws[..k + 1])[j - 1] == ws[j].source.value
    decreases k
  {
    assert ws[..k + 1][..k] == ws[..k];
    if k > 0 { SourceAt(ws, k - 1); } else { assert ws[..0] == []; }
  }

  // ---------------------------------------------------------------- accepted histories are arranged

  lemma {:induction false} WritesAppend(a: seq<Placed>, b: seq<Placed>)
    ensures WritesOf(a + b) == WritesOf(a) + WritesOf(b)
    decreases |b|
  {
    if b == [] {
      assert a + b == a;
    } else {
      assert (a + b)[..|a + b| - 1] == a + b[..|b| - 1];
      WritesAppend(a, b[..|b| - 1]);
    }
  }

  lemma {:induction false} PlaceGetsReads(ts: nat, rs: seq<Operation>)
    requires forall r :: r in rs ==> r.op.Get?
    ensures WritesOf(PlaceGets(ts, rs)) == [] && forall p :: p in PlaceGets(ts, rs) ==> p.op in rs
    decreases |rs|
  {
    if rs != [] {
      var rest := rs[..|rs| - 1];
      assert rs[|rs| - 1] in rs && forall x :: x in rest ==> x in rs;
      PlaceGetsReads(ts, rest);
      assert PlaceGets(ts, rs)[..|PlaceGets(ts, rs)| - 1] == PlaceGets(ts, rest);
    }
  }

  /** The order up to value `k`: its writes, and where its reads and writes are. */
  ghost predicate Built(ws: seq<WriteEvent>, order: seq<Placed>, k: nat)
    requires k <= |ws|
  {
    && WritesOf(order) == SourceSeq(ws[..k]) && AtEffect(order) && ReadsInTime(order)
    && (k < |ws| ==> forall p :: p in order && p.op.op.Get? ==> p.op.invoke < ws[k].ts)
  }

  lemma {:induction false} OrderBuilt(ws: seq<WriteEvent>, gets: seq<Operation>, k: nat)
    requires Chronicle(ws) && AllFit(ws, gets) && SortedInvokes(gets) && k <= |ws|
    requires forall r :: r in gets ==> r.op.Get? && r.invoke <= MAX_TIME
    ensures Built(ws, OrderUpTo(ws, gets, k), k)
    decreases k
  {
    hide GetsAt, AllFit, SortedInvokes, Chronicle, Built, Piece, Segment, Fits;
    if k == 0 {
      BuiltNothing(ws);
    } else {
      OrderBuilt(ws, gets, k - 1);
      GetsAtHolds(ws, gets, k - 1, MAX_TIME);
      SegmentBuilt(ws, gets, k - 1);
      BuiltOn(ws, OrderUpTo(ws, gets, k - 1), Segment(ws, gets, k - 1), k - 1);
    }
  }

  lemma BuiltNothing(ws: seq<WriteEvent>)
    requires Chronicle(ws)
    ensures Built(ws, [], 0)
  {
  }

  /** A piece that begins with the write of value `i`, if it has one, and goes on with reads that fit. */
  ghost predicate Piece(ws: seq<WriteEvent>, s: seq<Placed>, i: nat)
    requires i < |ws|
  {
    && WritesOf(s) == (if ws[i].source.Some? then [ws[i].source.value] else [])
    && (forall j :: 0 <= j < |s| && IsWrite(s[j].op) ==> j == 0 && s[j].point == ws[i].ts == EffectTime(s[j].op))
    && (i + 1 < |ws| ==> forall p :: p in s && p.op.op.Get? ==> p.op.invoke < ws[i + 1].ts)
  }

  lemma SegmentBuilt(ws: seq<WriteEvent>, gets: seq<Operation>, i: nat)
    requires Chronicle(ws) && AllFit(ws, gets) && i < |ws| && forall r :: r in gets ==> r.op.Get?
    requires forall r :: r in GetsAt(ws, gets, i) ==> r in gets && Fits(ws, i, r)
    ensures Piece(ws, Segment(ws, gets, i), i)
  {
    hide GetsAt, AllFit, PlaceGets, SlotOf;
    var rs := GetsAt(ws, gets, i);
    PlaceGetsReads(ws[i].ts, rs);
    var tail := PlaceGets(ws[i].ts, rs);
    var head := if ws[i].source.Some? then [Placed(ws[i].source.value, ws[i].ts, true)] else [];
    WritesAppend(head, tail);
    if head != [] { assert head[..0] == []; assert WritesOf(head) == [ws[i].source.value]; }
    var s := Segment(ws, gets, i);
    forall j | |head| <= j < |s| ensures !IsWrite(s[j].op) { assert s[j] in tail; }
  }

  lemma BuiltOn(ws: seq<WriteEvent>, a: seq<Placed>, s: seq<Placed>, i: nat)
    requires Chronicle(ws) && i < |ws| && Built(ws, a, i) && Piece(ws, s, i)
    ensures Built(ws, a + s, i + 1)
  {
    hide WritesOf, SourceSeq;
    var all := a + s;
    WritesAppend(a, s);
    assert ws[..i + 1] == ws[..i] + [ws[i]];
    SourceSnoc(ws[..i], ws[i]);
    forall j | 0 <= j < |all| && IsWrite(all[j].op) ensures all[j].point == EffectTime(all[j].op) {
      if j < |a| { assert all[j] == a[j]; } else { assert all[j] == s[j - |a|]; }
    }
    forall j, l | 0 <= j < l < |all| && all[j].op.op.Get? && IsWrite(all[l].op) ensures all[j].op.invoke < all[l].point {
      if l < |a| { assert all[j] == a[j] && all[l] == a[l]; }
      else { assert all[l] == s[l - |a|]; assert j < |a| && a[j] in a; }
    }
    forall p | p in all && p.op.op.Get? && i + 1 < |ws| ensures p.op.invoke < ws[i + 1].ts {
      if p in a { assert ws[i].ts <= ws[i + 1].ts; }
    }
  }

  /** The order that the test stands for. */
  lemma AcceptedArranged(links: set<Key>, ops: seq<Operation>, key: Key)
    requires Accepts(ops) && OnKey(ops, key) && key !in links && forall o :: o in ops ==> WellFormed(o)
    ensures Arrangeable(links, ops)
  {
    hide Timeline, Accepts, Chronicle, SortedInvokes, OrderUpTo, AllFit, ReadsIn, Timely, Within, Explains, Built;
    var ws, gets := Timeline(ops), ReadsIn(ByInvoke(ops));
    GetsShape(ops);
    TimelineShape(ops);
    var order := RegisterSound(links, ops, key);
    OrderBuilt(ws, gets, |ws|);
    TimelineSources(ops);
    BuiltMeans(ws, order);
    assert Arranged(links, ops, order);
  }

  lemma BuiltMeans(ws: seq<WriteEvent>, order: seq<Placed>)
    requires Built(ws, order, |ws|)
    ensures WritesOf(order) == SourceSeq(ws) && AtEffect(order) && ReadsInTime(order)
  {
    assert ws[..|ws|] == ws;
  }

  // ---------------------------------------------------------------- arranged histories are accepted

  /** On a key that no rename touches, the latest write decides. */
  lemma {:induction false} HoldsLatest(links: set<Key>, order: seq<Placed>, key: Key)
    requires key !in links && Within(order, {key}) && forall p :: p in order ==> !p.op.op.Rename?
    ensures var ws := WritesOf(order);
            Holds(links, map[], order, key) == if ws == [] then None else EventOf(ws[|ws| - 1]).value
    decreases |order|
  {
    if order != [] {
      var before, p := order[..|order| - 1], order[|order| - 1];
      assert p in order && forall q :: q in before ==> q in order;
      HoldsLatest(links, before, key);
      assert p.op.op.path in Touches(p.op);
    }
  }

  lemma {:induction false} WritesPrefix(order: seq<Placed>, i: nat)
    requires i <= |order|
    ensures WritesOf(order[..i]) <= WritesOf(order)
    decreases |order|
  {
    if i < |order| {
      WritesPrefix(order[..|order| - 1], i);
      assert order[..|order| - 1][..i] == order[..i];
    } else {
      assert order[..i] == order;
    }
  }

  /** Where write `n` of an order is. */
  lemma {:induction false} WriteAt(order: seq<Placed>, n: nat) returns (j: nat)
    requires n < |WritesOf(order)|
    ensures j < |order| && IsWrite(order[j].op) && order[j].op == WritesOf(order)[n] && |WritesOf(order[..j])| == n
    decreases |order|
  {
    var before := order[..|order| - 1];
    if n < |WritesOf(before)| {
      j := WriteAt(before, n);
      assert before[..j] == order[..j];
    } else {
      j := |order| - 1;
    }
  }

  /** A write comes before a place if and only if it is among the writes before it. */
  lemma {:induction false} WritesGrow(order: seq<Placed>, i: nat, j: nat)
    requires i <= j <= |order|
    ensures |WritesOf(order[..i])| <= |WritesOf(order[..j])|
  {
    WritesPrefix(order[..j], i);
    assert order[..j][..i] == order[..i];
  }

  /** The writes of an arranged order are the values of the timeline after the initial one. */
  lemma WritesAreValues(ops: seq<Operation>, order: seq<Placed>)
    requires (forall o :: o in ops ==> WellFormed(o)) && WritesOf(order) == EffectOrder(ops)
    ensures var ws := Timeline(ops);
            && Chronicle(ws) && |WritesOf(order)| == |ws| - 1
            && forall n :: 0 < n < |ws| ==> WritesOf(order)[n - 1] == ws[n].source.value
  {
    hide EffectOrder, Timeline, WritesOf, SourceSeq;
    var ws := Timeline(ops);
    TimelineShape(ops);
    TimelineSources(ops);
    SourceAt(ws, |ws| - 1);
    assert ws[..|ws|] == ws;
  }

  /** A read returns the value of the latest write before it. */
  lemma ReadsLatest(links: set<Key>, ops: seq<Operation>, key: Key, order: seq<Placed>, j: nat)
    requires OnKey(ops, key) && key !in links && Explains(links, multiset(ops), order)
    requires j < |order| && order[j].op.op.Get? && !Skipped(order[j].op)
    ensures var seen := WritesOf(order[..j]);
            ReadValue(order[j].op) == if seen == [] then None else EventOf(seen[|seen| - 1]).value
  {
    hide EventOf, Holds, WritesOf, Ops, LastPossible;
    var before := order[..j];
    OpsWithin(order, ops, key);
    forall p | p in order ensures !p.op.op.Rename? && p.op.op.path == key { PlacedIsOp(order, p); assert p.op in ops; }
    assert order[j] in order && (forall p :: p in before ==> p in order);
    HoldsLatest(links, before, key);
    assert LastPossible(links, map[], order[..j + 1]);
    assert order[..j + 1][..j] == before;
    ReadPossible(links, order[..j + 1], key);
  }

  lemma ReadPossible(links: set<Key>, order: seq<Placed>, key: Key)
    requires order != [] && LastPossible(links, map[], order) && order[|order| - 1].op.op == Get(key) && !Skipped(order[|order| - 1].op)
    ensures ReadValue(order[|order| - 1].op) == Holds(links, map[], order[..|order| - 1], key)
  {
  }

  /** A read that the order explains sees value `n` of the timeline, if `n` writes come before it. */
  lemma SeesValue(links: set<Key>, ops: seq<Operation>, key: Key, order: seq<Placed>, j: nat)
    requires OnKey(ops, key) && key !in links && (forall o :: o in ops ==> WellFormed(o))
    requires Arranged(links, ops, order) && j < |order| && order[j].op.op.Get? && !Skipped(order[j].op)
    ensures exists n: nat :: n < |Timeline(ops)| && Visible(Timeline(ops), n, order[j].op)
  {
    hide Timeline, Explains, EffectOrder, WritesOf, Skipped, ReadValue;
    var ws, r, seen := Timeline(ops), order[j].op, WritesOf(order[..j]);
    var n := |seen|;
    WritesAreValues(ops, order);
    WritesPrefix(order, j);
    ReadsLatest(links, ops, key, order, j);
    assert InTime(order[j]);
    assert r.ret > 0 by { SaysSomething(r); }
    if n > 0 {
      assert seen[n - 1] == WritesOf(order)[n - 1];
      var i := WriteAt(order, n - 1);
      if i >= j { WritesGrow(order, j, i); }
    }
    if n + 1 < |ws| {
      var l := WriteAt(order, n);
      if l < j { NotYet(order, l, j); }
      assert order[l].point == ws[n + 1].ts;
    }
    assert Visible(ws, n, r);
  }

  lemma SaysSomething(r: Operation)
    requires !Skipped(r)
    ensures r.ret > 0
  {
  }

  /** Write `l` is among the writes before every later place. */
  lemma NotYet(order: seq<Placed>, l: nat, j: nat)
    requires l < j <= |order| && IsWrite(order[l].op)
    ensures |WritesOf(order[..l])| < |WritesOf(order[..j])|
  {
    assert order[..l + 1][..l] == order[..l];
    WritesGrow(order, l + 1, j);
  }

  lemma ArrangedAccepted(links: set<Key>, ops: seq<Operation>, key: Key)
    requires Arrangeable(links, ops) && OnKey(ops, key) && key !in links && forall o :: o in ops ==> WellFormed(o)
    ensures Accepts(ops)
  {
    hide Timeline, Arranged, Visible, Skipped, ByInvoke, SortedInvokes;
    var order :| Arranged(links, ops, order);
    InvokeSorted(ops);
    ReadsInHold(ByInvoke(ops));
    forall r | r in ReadsIn(ByInvoke(ops)) ensures ReadOk(Timeline(ops), r) {
      if !Skipped(r) {
        var j := ReadPlace(links, ops, order, r);
        SeesValue(links, ops, key, order, j);
      }
    }
  }

  lemma ReadPlace(links: set<Key>, ops: seq<Operation>, order: seq<Placed>, r: Operation) returns (j: nat)
    requires Arranged(links, ops, order) && r in ops
    ensures j < |order| && order[j].op == r
  {
    assert r in multiset(ops);
    j := OpsMember(order, r);
  }

  /** The test accepts exactly the histories of a key that can be arranged. */
  lemma AcceptsIff(links: set<Key>, ops: seq<Operation>, key: Key)
    requires OnKey(ops, key) && key !in links && forall o :: o in ops ==> WellFormed(o)
    ensures Accepts(ops) <==> Arrangeable(links, ops)
  {
    hide Accepts, Arrangeable;
    if Accepts(ops) { AcceptedArranged(links, ops, key); }
    if Arrangeable(links, ops) { ArrangedAccepted(links, ops, key); }
  }
}
