/**
The backtracking search for an order of operations that renames link together.
*/
module CheckerSearch {
  import opened CheckerModel

  /** The next operation, and whether it takes effect. */
  datatype Choice = Choice(index: nat, applied: bool)

  function Position(s: seq<nat>, x: nat): (p: nat)
    requires x in s
    ensures p < |s| && s[p] == x
  {
    if s[0] == x then 0 else 1 + Position(s[1..], x)
  }

  /** `s` without element `p`. */
  function Without(s: seq<nat>, p: nat): seq<nat>
    requires p < |s|
  {
    s[..p] + s[p + 1..]
  }

  ghost predicate Distinct(s: seq<nat>) {
    forall i, j :: 0 <= i < j < |s| ==> s[i] != s[j]
  }

  ghost predicate Indices(ops: seq<Operation>, s: seq<nat>) {
    && Distinct(s)
    && (forall i :: i in s ==> i < |ops|)
    && (forall j :: 0 <= j < |s| ==> s[j] < |ops|)
  }

  /** Nothing that remains had returned before operation `i` was called. */
  ghost predicate Ready(ops: seq<Operation>, remaining: seq<nat>, i: nat)
    requires i < |ops| && Indices(ops, remaining)
  {
    forall j :: j in remaining ==> !Precedes(ops[j], ops[i])
  }

  predicate MayChoose(limit: bool, o: Operation, applied: bool) {
    Ambiguous(o) && limit ==> applied
  }

  lemma WithoutIndices(ops: seq<Operation>, s: seq<nat>, p: nat)
    requires Indices(ops, s) && p < |s|
    ensures Indices(ops, Without(s, p)) && s[p] !in Without(s, p)
    ensures forall x :: x in s && x != s[p] ==> x in Without(s, p)
    ensures forall x :: x in Without(s, p) ==> x in s
  {
    var w := Without(s, p);
    forall i, j | 0 <= i < j < |w| ensures w[i] != w[j] {
      var i', j' := if i < p then i else i + 1, if j < p then j else j + 1;
      assert w[i] == s[i'] && w[j] == s[j'];
    }
    forall x | x in s && x != s[p] ensures x in w {
      var i :| 0 <= i < |s| && s[i] == x;
      assert if i < p then w[i] == x else w[i - 1] == x;
    }
    forall x | x in w ensures x in s && x != s[p] {
      var i :| 0 <= i < |w| && w[i] == x;
      assert if i < p then s[i] == x else s[i + 1] == x;
    }
  }

  /** `order` is a way to go through all of `remaining` from state `st`: nothing jumps
      ahead of what had returned before its call, and every result is possible. */
  ghost predicate Schedules(ops: seq<Operation>, limit: bool, st: Registers, remaining: seq<nat>, order: seq<Choice>)
    requires Indices(ops, remaining)
    decreases |order|
  {
    if order == [] then remaining == []
    else Starts(ops, limit, st, remaining, order[0])
         && (WithoutIndices(ops, remaining, Position(remaining, order[0].index));
             Schedules(ops, limit, LinkedStep(ops[order[0].index], st, order[0].applied).value,
                       Without(remaining, Position(remaining, order[0].index)), order[1..]))
  }

  ghost predicate Starts(ops: seq<Operation>, limit: bool, st: Registers, remaining: seq<nat>, c: Choice)
    requires Indices(ops, remaining)
  {
    && c.index in remaining
    && Ready(ops, remaining, c.index)
    && MayChoose(limit, ops[c.index], c.applied)
    && LinkedStep(ops[c.index], st, c.applied).Some?
  }

  ghost predicate Schedulable(ops: seq<Operation>, limit: bool, st: Registers, remaining: seq<nat>)
    requires Indices(ops, remaining)
  {
    exists order :: Schedules(ops, limit, st, remaining, order)
  }

  /** Some order begins with choice `c`. */
  ghost predicate SchedulableFrom(ops: seq<Operation>, limit: bool, st: Registers, remaining: seq<nat>, c: Choice)
    requires Indices(ops, remaining)
  {
    Starts(ops, limit, st, remaining, c)
    && (WithoutIndices(ops, remaining, Position(remaining, c.index));
        Schedulable(ops, limit, LinkedStep(ops[c.index], st, c.applied).value,
                    Without(remaining, Position(remaining, c.index))))
  }

  lemma ChoiceOfOrder(ops: seq<Operation>, limit: bool, st: Registers, remaining: seq<nat>, order: seq<Choice>)
    requires Indices(ops, remaining) && remaining != [] && Schedules(ops, limit, st, remaining, order)
    ensures order != [] && SchedulableFrom(ops, limit, st, remaining, order[0])
  {
    hide LinkedStep, Ready;
    var c, rest := order[0], order[1..];
    WithoutIndices(ops, remaining, Position(remaining, c.index));
    assert Schedules(ops, limit, LinkedStep(ops[c.index], st, c.applied).value, Without(remaining, Position(remaining, c.index)), rest);
  }

  lemma OrderOfChoice(ops: seq<Operation>, limit: bool, st: Registers, remaining: seq<nat>, c: Choice)
    requires Indices(ops, remaining) && SchedulableFrom(ops, limit, st, remaining, c)
    ensures Schedulable(ops, limit, st, remaining)
  {
    hide LinkedStep, Ready;
    WithoutIndices(ops, remaining, Position(remaining, c.index));
    var rest :| Schedules(ops, limit, LinkedStep(ops[c.index], st, c.applied).value,
                          Without(remaining, Position(remaining, c.index)), rest);
    assert ([c] + rest)[1..] == rest;
    assert Schedules(ops, limit, st, remaining, [c] + rest);
  }

  /** An order exists exactly if one exists for some first choice. */
  lemma FirstChoice(ops: seq<Operation>, limit: bool, st: Registers, remaining: seq<nat>)
    requires Indices(ops, remaining) && remaining != []
    ensures Schedulable(ops, limit, st, remaining) <==> exists c :: SchedulableFrom(ops, limit, st, remaining, c)
  {
    hide Schedules, SchedulableFrom, Indices;
    if order: seq<Choice> :| Schedules(ops, limit, st, remaining, order) {
      ChoiceOfOrder(ops, limit, st, remaining, order);
    }
    if c: Choice :| SchedulableFrom(ops, limit, st, remaining, c) {
      OrderOfChoice(ops, limit, st, remaining, c);
    }
  }

  lemma NothingRemains(ops: seq<Operation>, limit: bool, st: Registers)
    ensures Indices(ops, []) && Schedulable(ops, limit, st, [])
  {
    assert Schedules(ops, limit, st, [], []);
  }

  lemma IndexKnown(ops: seq<Operation>, remaining: seq<nat>, i: nat)
    requires Indices(ops, remaining) && i in remaining
    ensures i < |ops|
  {
  }

  lemma StartsReady(ops: seq<Operation>, limit: bool, st: Registers, remaining: seq<nat>)
    requires Indices(ops, remaining)
    ensures forall c :: SchedulableFrom(ops, limit, st, remaining, c) ==>
              c.index in remaining && c.index < |ops| && Ready(ops, remaining, c.index)
  {
  }

  lemma FromMeans(ops: seq<Operation>, limit: bool, st: Registers, remaining: seq<nat>, i: nat, a: bool)
    requires Indices(ops, remaining) && i in remaining && Ready(ops, remaining, i)
    ensures Indices(ops, Without(remaining, Position(remaining, i)))
    ensures var next := LinkedStep(ops[i], st, a);
            SchedulableFrom(ops, limit, st, remaining, Choice(i, a)) <==>
            MayChoose(limit, ops[i], a) && next.Some? && Schedulable(ops, limit, next.value, Without(remaining, Position(remaining, i)))
  {
    WithoutIndices(ops, remaining, Position(remaining, i));
  }

  /** In a well-formed history the operation that returns first is always ready. */
  lemma SomeoneReady(ops: seq<Operation>, remaining: seq<nat>, least: Time)
    requires Indices(ops, remaining) && remaining != []
    requires forall o :: o in ops ==> WellFormed(o)
    requires forall i :: i in remaining && ops[i].ret > 0 ==> least <= ops[i].ret
    requires least == MAX_TIME || exists i :: i in remaining && ops[i].ret == least && least > 0
    ensures exists i :: i in remaining && ops[i].invoke <= least
  {
    if least == MAX_TIME {
      assert remaining[0] in remaining && ops[remaining[0]].invoke <= MAX_TIME;
    } else {
      var i :| i in remaining && ops[i].ret == least && least > 0;
      assert ops[i] in ops;
    }
  }

  function All(n: nat): seq<nat> { seq(n, i requires 0 <= i < n => i) }

  lemma AllIndices(ops: seq<Operation>)
    ensures Indices(ops, All(|ops|))
  {
  }

  /** Some order of exactly what remains respects real time, and every result is possible in it; with
      the limit, nothing ambiguous is left out. */
  ghost predicate Orderable(links: set<Key>, ops: seq<Operation>, limit: bool, st: Registers, remaining: seq<nat>)
    requires Indices(ops, remaining)
  {
    exists order ::
      Ops(order) == Chosen(ops, remaining) && Possible(links, st, order) && RealTime(order) && (limit ==> AllApplied(order))
  }

  /** Renames are about everywhere. */
  ghost predicate AllLinked(ops: seq<Operation>, links: set<Key>) { forall o :: o in ops ==> Linked(o, links) }

  class Search {
    const ops: seq<Operation>
    const limit: bool
    var linearized: seq<nat>
    var remaining: seq<nat>

    constructor (ops: seq<Operation>, limit: bool)
      ensures Valid() && this.ops == ops && this.limit == limit && linearized == [] && remaining == All(|ops|)
    {
      this.ops := ops;
      this.limit := limit;
      linearized := [];
      remaining := All(|ops|);
      new;
      AllIndices(ops);
    }

    ghost predicate Valid()
      reads this
    {
      Indices(ops, remaining)
    }

    ghost predicate WellFormedHistory()
    {
      forall o :: o in ops ==> WellFormed(o)
    }

    /** The earliest return among what remains. */
    method MinReturn() returns (least: Time)
      requires Valid()
      ensures forall i :: i in remaining && ops[i].ret > 0 ==> least <= ops[i].ret
      ensures least == MAX_TIME || exists i :: i in remaining && ops[i].ret == least && least > 0
    {
      least := MAX_TIME;
      var k := 0;
      while k < |remaining|
        invariant k <= |remaining|
        invariant forall j :: 0 <= j < k && ops[remaining[j]].ret > 0 ==> least <= ops[remaining[j]].ret
        invariant least == MAX_TIME || exists i :: i in remaining && ops[i].ret == least && least > 0
      {
        var r := ops[remaining[k]].ret;
        if r > 0 && r < least { least := r; }
        k := k + 1;
      }
    }

    /** What remains and was called no later than the earliest return. */
    method Candidates() returns (cs: seq<nat>)
      requires Valid()
      ensures forall i :: i in cs <==> i in remaining && Ready(ops, remaining, i)
      ensures WellFormedHistory() && remaining != [] ==> cs != []
    {
      var least := MinReturn();
      cs := [];
      var k := 0;
      while k < |remaining|
        invariant k <= |remaining|
        invariant forall i :: i in cs <==> i in remaining[..k] && ops[i].invoke <= least
      {
        if ops[remaining[k]].invoke <= least { cs := cs + [remaining[k]]; }
        k := k + 1;
      }
      assert remaining[..k] == remaining;
      forall i | i in remaining ensures ops[i].invoke <= least <==> Ready(ops, remaining, i) {
        ReadyMeans(ops, remaining, i, least);
      }
      if WellFormedHistory() && remaining != [] { SomeoneReady(ops, remaining, least); }
    }

    /** Take the operation at `pos` next. */
    method Take(pos: nat)
      requires Valid() && pos < |remaining|
      modifies this
      ensures Valid() && remaining == Without(old(remaining), pos) && linearized == old(linearized) + [old(remaining)[pos]]
      ensures |remaining| == old(|remaining|) - 1
    {
      WithoutIndices(ops, remaining, pos);
      linearized := linearized + [remaining[pos]];
      remaining := remaining[..pos] + remaining[pos + 1..];
    }

    /** Undo `Take`. */
    method PutBack(pos: nat, idx: nat)
      requires pos <= |remaining| && linearized != []
      modifies this
      ensures remaining == old(remaining)[..pos] + [idx] + old(remaining)[pos..]
      ensures linearized == old(linearized)[..old(|linearized|) - 1]
    {
      linearized := linearized[..|linearized| - 1];
      remaining := remaining[..pos] + [idx] + remaining[pos..];
    }

    /** Go through what remains, from state `st`. Whenever the answer is no, both lists
        are as before. For a well-formed history the answer is yes exactly if an order exists. */
    method TryLinearize(st: Registers) returns (ok: bool)
      requires Valid()
      modifies this
      ensures !ok ==> remaining == old(remaining) && linearized == old(linearized)
      ensures WellFormedHistory() ==> ok == Schedulable(ops, limit, st, old(remaining))
      ensures forall links :: WellFormedHistory() && AllLinked(ops, links) ==> ok == Orderable(links, ops, limit, st, old(remaining))
      ensures ok ==> remaining == [] && old(linearized) <= linearized
      decreases |remaining|, 1
    {
      hide Schedulable, SchedulableFrom, Ready, Indices, Orderable, AllLinked;
      forall links | WellFormedHistory() && AllLinked(ops, links)
        ensures Schedulable(ops, limit, st, remaining) <==> Orderable(links, ops, limit, st, remaining) {
        SchedulableMeans(links, ops, limit, st, remaining);
      }
      if remaining == [] {
        NothingRemains(ops, limit, st);
        return true;
      }
      FirstChoice(ops, limit, st, remaining);
      StartsReady(ops, limit, st, remaining);
      var cs := Candidates();
      if cs == [] {
        ok := TryAll(st);
        return;
      }
      var k := 0;
      while k < |cs|
        invariant k <= |cs| && remaining == old(remaining) && linearized == old(linearized)
        invariant WellFormedHistory() ==>
                    forall c: Choice :: c.index in cs[..k] ==> !SchedulableFrom(ops, limit, st, remaining, c)
        decreases |cs| - k
      {
        ok := TryFirst(st, cs[k]);
        if ok { return; }
        assert cs[..k + 1] == cs[..k] + [cs[k]];
        k := k + 1;
      }
      assert cs[..k] == cs;
      ok := false;
    }

    /** Nothing is ready, which well-formed histories rule out: try everything that remains,
        whatever its result. */
    method TryAll(st: Registers) returns (ok: bool)
      requires Valid()
      modifies this
      ensures !ok ==> remaining == old(remaining) && linearized == old(linearized)
      ensures ok ==> remaining == [] && old(linearized) <= linearized
      decreases |remaining|, 0
    {
      var cs := remaining;
      var k := 0;
      while k < |cs|
        invariant k <= |cs| && remaining == old(remaining) == cs && linearized == old(linearized)
        decreases |cs| - k
      {
        var idx := cs[k];
        var pos := Position(remaining, idx);
        Take(pos);
        ok := TryLinearize(ApplyOp(ops[idx], st));
        if ok { return; }
        if !limit {
          ok := TryLinearize(st);
          if ok { return; }
        }
        PutBack(pos, idx);
        k := k + 1;
      }
      ok := false;
    }

    /** Try operation `idx` first. */
    method TryFirst(st: Registers, idx: nat) returns (ok: bool)
      requires Valid() && idx in remaining && Ready(ops, remaining, idx)
      modifies this
      ensures !ok ==> remaining == old(remaining) && linearized == old(linearized)
      ensures WellFormedHistory() ==>
                ok == (SchedulableFrom(ops, limit, st, old(remaining), Choice(idx, true))
                       || SchedulableFrom(ops, limit, st, old(remaining), Choice(idx, false)))
      ensures ok ==> remaining == [] && old(linearized) <= linearized
      decreases |remaining|, 0
    {
      hide Schedulable, SchedulableFrom, Ready, ApplyOp, CheckAndApply, Indices;
      FromMeans(ops, limit, st, remaining, idx, true);
      FromMeans(ops, limit, st, remaining, idx, false);
      IndexKnown(ops, remaining, idx);
      var pos := Position(remaining, idx);
      Take(pos);
      var o := ops[idx];
      if Ambiguous(o) {
        ok := TryLinearize(ApplyOp(o, st));
        if !ok && !limit {
          ok := TryLinearize(st);
        }
      } else {
        var next := CheckAndApply(o, st);
        ok := false;
        if next.Some? { ok := TryLinearize(next.value); }
      }
      if !ok {
        PutBack(pos, idx);
        assert remaining == old(remaining);
      }
    }
  }

  lemma ReadyMeans(ops: seq<Operation>, remaining: seq<nat>, i: nat, least: Time)
    requires Indices(ops, remaining) && i in remaining
    requires forall j :: j in remaining && ops[j].ret > 0 ==> least <= ops[j].ret
    requires least == MAX_TIME || exists j :: j in remaining && ops[j].ret == least && least > 0
    ensures ops[i].invoke <= least <==> Ready(ops, remaining, i)
  {
    if least != MAX_TIME {
      var j :| j in remaining && ops[j].ret == least && least > 0;
      if Ready(ops, remaining, i) { assert !Precedes(ops[j], ops[i]); }
    }
  }

  // ---------------------------------------------------------------- what a schedule means

  function Chosen(ops: seq<Operation>, s: seq<nat>): multiset<Operation>
    requires forall j :: 0 <= j < |s| ==> s[j] < |ops|
  {
    if s == [] then multiset{} else Chosen(ops, s[..|s| - 1]) + multiset{ops[s[|s| - 1]]}
  }

  lemma ChosenLast(ops: seq<Operation>, s: seq<nat>)
    requires s != [] && forall j :: 0 <= j < |s| ==> s[j] < |ops|
    ensures Chosen(ops, s) == Chosen(ops, s[..|s| - 1]) + multiset{ops[s[|s| - 1]]}
  {
  }

  lemma SwapLast(m: multiset<Operation>, a: Operation, b: Operation)
    ensures m + multiset{a} + multiset{b} == m + multiset{b} + multiset{a}
  {
  }

  lemma {:induction false} ChosenWithout(ops: seq<Operation>, s: seq<nat>, p: nat)
    requires p < |s| && forall j :: 0 <= j < |s| ==> s[j] < |ops|
    ensures Chosen(ops, s) == Chosen(ops, Without(s, p)) + multiset{ops[s[p]]}
    decreases |s|
  {
    hide Chosen;
    var w := Without(s, p);
    var s0 := s[..|s| - 1];
    ChosenLast(ops, s);
    if p == |s| - 1 {
      assert w == s0;
    } else {
      ChosenWithout(ops, s0, p);
      assert w[..|w| - 1] == Without(s0, p) && w[|w| - 1] == s[|s| - 1];
      assert forall j :: 0 <= j < |w| ==> w[j] == s[if j < p then j else j + 1];
      ChosenLast(ops, w);
      SwapLast(Chosen(ops, Without(s0, p)), ops[s[p]], ops[s[|s| - 1]]);
    }
  }

  lemma {:induction false} ChosenMember(ops: seq<Operation>, s: seq<nat>, i: nat)
    requires i in s && forall j :: 0 <= j < |s| ==> s[j] < |ops|
    ensures i < |ops| && ops[i] in Chosen(ops, s)
    decreases |s|
  {
    if s[|s| - 1] != i { ChosenMember(ops, s[..|s| - 1], i); }
  }

  lemma {:induction false} ChosenFind(ops: seq<Operation>, s: seq<nat>, o: Operation) returns (i: nat)
    requires (forall j :: 0 <= j < |s| ==> s[j] < |ops|) && o in Chosen(ops, s)
    ensures i in s && i < |ops| && ops[i] == o
    decreases |s|
  {
    if ops[s[|s| - 1]] == o { i := s[|s| - 1]; }
    else { i := ChosenFind(ops, s[..|s| - 1], o); }
  }

  function Max(a: nat, b: nat): nat { if a < b then b else a }

  /** Give every operation of a schedule the latest call among it and its predecessors as its instant. */
  function Place(ops: seq<Operation>, order: seq<Choice>, top: nat): seq<Placed>
    requires forall c :: c in order ==> c.index < |ops|
  {
    if order == [] then []
    else
      var c := order[0];
      var p := Max(top, ops[c.index].invoke);
      [Placed(ops[c.index], p, c.applied)] + Place(ops, order[1..], p)
  }

  lemma {:induction false} ScheduleIndices(ops: seq<Operation>, limit: bool, st: Registers, remaining: seq<nat>, order: seq<Choice>)
    requires Indices(ops, remaining) && Schedules(ops, limit, st, remaining, order)
    ensures forall c :: c in order ==> c.index < |ops|
    decreases |order|
  {
    if order != [] {
      var p := Position(remaining, order[0].index);
      WithoutIndices(ops, remaining, p);
      ScheduleIndices(ops, limit, LinkedStep(ops[order[0].index], st, order[0].applied).value, Without(remaining, p), order[1..]);
      forall c | c in order ensures c.index < |ops| { assert c == order[0] || c in order[1..]; }
    }
  }

  /** The instants rise and lie between call and return. */
  lemma {:induction false} PlaceTimely(ops: seq<Operation>, limit: bool, st: Registers, remaining: seq<nat>, order: seq<Choice>, top: nat)
    requires Indices(ops, remaining) && Schedules(ops, limit, st, remaining, order)
    requires forall c :: c in order ==> c.index < |ops|
    requires forall j :: j in remaining && ops[j].ret > 0 ==> top <= ops[j].ret
    ensures Timely(Place(ops, order, top)) && forall p :: p in Place(ops, order, top) ==> p.point >= top
    decreases |order|
  {
    if order != [] {
      var i := order[0].index;
      var pos := Position(remaining, i);
      var rest, next := Without(remaining, pos), LinkedStep(ops[i], st, order[0].applied).value;
      WithoutIndices(ops, remaining, pos);
      var p := Max(top, ops[i].invoke);
      forall j | j in remaining && ops[j].ret > 0 ensures p <= ops[j].ret { assert !Precedes(ops[j], ops[i]); }
      forall c | c in order[1..] ensures c.index < |ops| { assert c in order; }
      PlaceTimely(ops, limit, next, rest, order[1..], p);
      TimelyCons(Placed(ops[i], p, order[0].applied), Place(ops, order[1..], p));
    }
  }

  /** A schedule goes through exactly what remains and explains it. */
  lemma {:induction false} PlaceRuns(ops: seq<Operation>, limit: bool, st: Registers, remaining: seq<nat>, order: seq<Choice>, top: nat,
                                     links: set<Key>)
    requires Indices(ops, remaining) && Schedules(ops, limit, st, remaining, order)
    requires (forall c :: c in order ==> c.index < |ops|) && (forall o :: o in ops ==> Linked(o, links))
    ensures Ops(Place(ops, order, top)) == Chosen(ops, remaining)
    ensures RunFrom(links, st, Place(ops, order, top)).Some?
    decreases |order|
  {
    if order != [] {
      var i := order[0].index;
      var pos := Position(remaining, i);
      var rest, next := Without(remaining, pos), LinkedStep(ops[i], st, order[0].applied).value;
      WithoutIndices(ops, remaining, pos);
      forall c | c in order[1..] ensures c.index < |ops| { assert c in order; }
      var p := Max(top, ops[i].invoke);
      PlaceRuns(ops, limit, next, rest, order[1..], p, links);
      var x := Placed(ops[i], p, order[0].applied);
      var tail := Place(ops, order[1..], p);
      OpsFront(x, tail);
      RunFront(links, st, x, tail);
      ChosenWithout(ops, remaining, pos);
      assert ops[i] in ops;
    }
  }

  /** With the limit, a schedule leaves nothing ambiguous out. */
  lemma {:induction false} PlaceApplied(ops: seq<Operation>, st: Registers, remaining: seq<nat>, order: seq<Choice>, top: nat)
    requires Indices(ops, remaining) && Schedules(ops, true, st, remaining, order)
    requires forall c :: c in order ==> c.index < |ops|
    ensures AllApplied(Place(ops, order, top))
    decreases |order|
  {
    if order != [] {
      var i := order[0].index;
      var pos := Position(remaining, i);
      WithoutIndices(ops, remaining, pos);
      forall c | c in order[1..] ensures c.index < |ops| { assert c in order; }
      PlaceApplied(ops, LinkedStep(ops[i], st, order[0].applied).value, Without(remaining, pos), order[1..], Max(top, ops[i].invoke));
    }
  }

  /** The first operation of an order that respects real time is ready. */
  lemma FirstIsReady(ops: seq<Operation>, remaining: seq<nat>, order: seq<Placed>, i: nat)
    requires Indices(ops, remaining) && i in remaining && order != [] && WellFormed(ops[i]) && ops[i] == order[0].op
    requires Ops(order) == Chosen(ops, remaining) && RealTime(order)
    ensures Ready(ops, remaining, i)
  {
    hide Chosen, Ops;
    forall j | j in remaining ensures !Precedes(ops[j], ops[i]) {
      ChosenMember(ops, remaining, j);
      var k := OpsMember(order, ops[j]);
      if k > 0 { assert !Precedes(order[k].op, order[0].op); }
    }
  }

  /** Conversely, every order that explains the operations and respects real time is found. */
  lemma {:induction false} ScheduleExists(ops: seq<Operation>, limit: bool, st: Registers, remaining: seq<nat>, order: seq<Placed>, links: set<Key>)
    requires Indices(ops, remaining) && (forall o :: o in ops ==> Linked(o, links) && WellFormed(o))
    requires Ops(order) == Chosen(ops, remaining) && RunFrom(links, st, order).Some? && RealTime(order)
    requires limit ==> AllApplied(order)
    ensures Schedulable(ops, limit, st, remaining)
    decreases |order|
  {
    hide LinkedStep, SimpleStep, RealTime, Ready, Schedulable;
    if order == [] {
      NothingChosen(ops, remaining);
      NothingRemains(ops, limit, st);
    } else {
      var x, tail := order[0], order[1..];
      assert order == [x] + tail;
      OpsFront(x, tail);
      RunFront(links, st, x, tail);
      var i := ChosenFind(ops, remaining, x.op);
      var pos := Position(remaining, i);
      WithoutIndices(ops, remaining, pos);
      ChosenWithout(ops, remaining, pos);
      assert ops[i] in ops;
      FirstIsReady(ops, remaining, order, i);
      Cancel(Ops(tail), Chosen(ops, Without(remaining, pos)), x.op);
      RealTimeTail(order);
      ScheduleExists(ops, limit, Step(links, x.op, st, x.applied).value, Without(remaining, pos), tail, links);
      FromMeans(ops, limit, st, remaining, i, x.applied);
      FirstChoice(ops, limit, st, remaining);
    }
  }

  /** Searching through choices is searching for an order. */
  lemma SchedulableMeans(links: set<Key>, ops: seq<Operation>, limit: bool, st: Registers, remaining: seq<nat>)
    requires Indices(ops, remaining) && AllLinked(ops, links) && forall o :: o in ops ==> WellFormed(o)
    ensures Schedulable(ops, limit, st, remaining) <==> Orderable(links, ops, limit, st, remaining)
  {
    hide Schedules, Possible, RealTime, AllApplied, Chosen, Ops;
    if Schedulable(ops, limit, st, remaining) {
      var choices :| Schedules(ops, limit, st, remaining, choices);
      ScheduleIndices(ops, limit, st, remaining, choices);
      var order := Place(ops, choices, 0);
      PlaceTimely(ops, limit, st, remaining, choices, 0);
      TimelyIsRealTime(order);
      PlaceRuns(ops, limit, st, remaining, choices, 0, links);
      RunMeans(links, st, order);
      if limit { PlaceApplied(ops, st, remaining, choices, 0); }
    }
    if Orderable(links, ops, limit, st, remaining) {
      var order :| Ops(order) == Chosen(ops, remaining) && Possible(links, st, order) && RealTime(order) && (limit ==> AllApplied(order));
      RunMeans(links, st, order);
      ScheduleExists(ops, limit, st, remaining, order, links);
    }
  }

  lemma Cancel(a: multiset<Operation>, b: multiset<Operation>, x: Operation)
    requires multiset{x} + a == b + multiset{x}
    ensures a == b
  {
    assert a == (multiset{x} + a) - multiset{x};
    assert b == (b + multiset{x}) - multiset{x};
  }

  lemma NothingChosen(ops: seq<Operation>, remaining: seq<nat>)
    requires Indices(ops, remaining) && Chosen(ops, remaining) == multiset{}
    ensures remaining == []
  {
  }

  lemma AllLast(n: nat)
    requires n > 0
    ensures All(n)[..n - 1] == All(n - 1) && All(n)[n - 1] == n - 1
  {
  }

  lemma ChosenNone(ops: seq<Operation>)
    ensures Chosen(ops, []) == multiset{}
  {
  }

  lemma {:induction false} ChosenAll(ops: seq<Operation>, n: nat)
    requires n <= |ops|
    ensures (forall j :: 0 <= j < |All(n)| ==> All(n)[j] < |ops|) && Chosen(ops, All(n)) == multiset(ops[..n])
    decreases n
  {
    hide Chosen;
    if n == 0 {
      assert All(0) == [];
      ChosenNone(ops);
    } else {
      ChosenAll(ops, n - 1);
      AllLast(n);
      ChosenLast(ops, All(n));
      assert ops[..n] == ops[..n - 1] + [ops[n - 1]];
    }
  }
}
