/**
Histories of file operations, what each operation may do to the registers it
touches, and what it means for a history to be linearizable.
*/
module CheckerModel {
  import opened Options

  const MAX_TIME := 0xFFFF_FFFF_FFFF_FFFF

  type Time = t: nat | t <= MAX_TIME
  type Key = string
  type Hash = string

  datatype OpType =
    | Put(path: Key, hash: Hash)
    | Get(path: Key)
    | Delete(path: Key)
    | Rename(src: Key, dst: Key)

  datatype OpResult = Ok | NotFound | Error | PutOk(hash: Hash) | GetOk(hash: Hash) | Unknown

  /** `ret` 0 stands for an operation whose return was never seen. */
  datatype Operation = Operation(id: nat, client: string, op: OpType, invoke: Time, ret: Time, result: OpResult)

  type Registers = map<Key, Option<Hash>>

  function Value(st: Registers, k: Key): Option<Hash> {
    if k in st then st[k] else None
  }

  predicate Ambiguous(o: Operation) {
    o.ret == 0 || o.result.Error? || o.result.Unknown?
  }

  predicate WellFormed(o: Operation) {
    o.ret > 0 ==> o.invoke <= o.ret
  }

  /** The effect of an operation that may or may not have taken place. */
  function ApplyOp(o: Operation, st: Registers): Registers {
    match o.op
    case Put(p, h) => st[p := Some(h)]
    case Get(_) => st
    case Delete(p) => st[p := None]
    case Rename(s, d) => if Value(st, s).Some? then st[d := Value(st, s)][s := None] else st
  }

  /** The state after an operation whose result was observed, if that result is possible. */
  function CheckAndApply(o: Operation, st: Registers): Option<Registers> {
    match o.op
    case Put(p, h) =>
      if o.result.Ok? || o.result.PutOk? then Some(st[p := Some(h)])
      else if o.result.Error? then None
      else Some(st)
    case Get(p) =>
      (match o.result
       case GetOk(h) => if Value(st, p) == Some(h) then Some(st) else None
       case NotFound => if Value(st, p) == None then Some(st) else None
       case Ok => if Value(st, p) == None then Some(st) else None
       case _ => Some(st))
    case Delete(p) =>
      if o.result.NotFound? then (if Value(st, p) == None then Some(st) else None)
      else Some(st[p := None])
    case Rename(s, d) =>
      (match o.result
       case Ok => if Value(st, s).Some? then Some(st[d := Value(st, s)][s := None]) else None
       case NotFound => if Value(st, s) == None then Some(st) else None
       case Error => None
       case _ => Some(st))
  }

  // ---------------------------------------------------------------- what a history means

  /** Reads whose result says nothing. */
  predicate Skipped(o: Operation) {
    o.ret == 0 || !(o.result.GetOk? || o.result.NotFound? || o.result.Ok?)
  }

  function ReadValue(o: Operation): Option<Hash> {
    if o.result.GetOk? then Some(o.result.hash) else None
  }

  /** On a key that no rename touches a write takes effect whatever its result. */
  function SimpleStep(o: Operation, st: Registers): Option<Registers> {
    match o.op
    case Put(p, h) => Some(st[p := Some(h)])
    case Delete(p) => Some(st[p := None])
    case Get(p) => if Skipped(o) || Value(st, p) == ReadValue(o) then Some(st) else None
    case Rename(_, _) => Some(st)
  }

  /** On keys that renames touch, an ambiguous operation is applied or not. */
  function LinkedStep(o: Operation, st: Registers, applied: bool): Option<Registers> {
    if Ambiguous(o) then Some(if applied then ApplyOp(o, st) else st)
    else if applied then CheckAndApply(o, st)
    else None
  }

  function Touches(o: Operation): set<Key> {
    match o.op
    case Put(p, _) => {p}
    case Get(p) => {p}
    case Delete(p) => {p}
    case Rename(s, d) => {s, d}
  }

  predicate Linked(o: Operation, links: set<Key>) {
    o.op.Rename? || o.op.path in links
  }

  function Step(links: set<Key>, o: Operation, st: Registers, applied: bool): Option<Registers> {
    if Linked(o, links) then LinkedStep(o, st, applied) else SimpleStep(o, st)
  }

  /** An operation in a total order: at which instant, and whether it took effect. */
  datatype Placed = Placed(op: Operation, point: nat, applied: bool)

  function RunFrom(links: set<Key>, st: Registers, order: seq<Placed>): Option<Registers> {
    if order == [] then Some(st)
    else
      var r := RunFrom(links, st, order[..|order| - 1]);
      if r.None? then None else Step(links, order[|order| - 1].op, r.value, order[|order| - 1].applied)
  }

  function Ops(order: seq<Placed>): multiset<Operation> {
    if order == [] then multiset{} else Ops(order[..|order| - 1]) + multiset{order[|order| - 1].op}
  }

  // ---------------------------------------------------------------- what an order says

  /** The operation changes something. Where no rename is about, every write does. Elsewhere, one that
      may or may not have taken place does if the order says so, and one that returned does if
      its result says so. */
  predicate TakesEffect(links: set<Key>, p: Placed) {
    var o := p.op;
    if !Linked(o, links) then true
    else if o.ret == 0 || o.result == Error || o.result == Unknown then p.applied
    else
      match o.op
      case Put(_, _) => o.result == Ok || o.result.PutOk?
      case Delete(_) => o.result != NotFound
      case Rename(_, _) => o.result == Ok
      case Get(_) => false
  }

  /** What a key holds after the operations of an order, traced back to the latest one that changed it:
      a put gives its hash, a delete or a rename away nothing, and a rename to the key what its
      source held before. Renaming nothing changes nothing. */
  function Holds(links: set<Key>, st: Registers, order: seq<Placed>, k: Key): Option<Hash> {
    if order == [] then Value(st, k)
    else
      var before, p := order[..|order| - 1], order[|order| - 1];
      if !TakesEffect(links, p) then Holds(links, st, before, k)
      else
        match p.op.op
        case Put(q, h) => if k == q then Some(h) else Holds(links, st, before, k)
        case Delete(q) => if k == q then None else Holds(links, st, before, k)
        case Get(_) => Holds(links, st, before, k)
        case Rename(s, d) =>
          if Holds(links, st, before, s).None? || (k != s && k != d) then Holds(links, st, before, k)
          else if k == s then None
          else Holds(links, st, before, s)
  }

  /** The result of the last operation of an order is possible: a read returned what its key holds,
      a rename that succeeded found its source, and what was not found is not there. Where
      renames are about, what returned has taken place. */
  predicate LastPossible(links: set<Key>, st: Registers, order: seq<Placed>)
    requires order != []
  {
    var before, p := order[..|order| - 1], order[|order| - 1];
    var o := p.op;
    o.ret > 0 && o.result != Error && o.result != Unknown ==>
      && (Linked(o, links) ==> p.applied)
      && match o.op
         case Put(_, _) => true
         case Get(k) =>
           && (o.result.GetOk? ==> Holds(links, st, before, k) == Some(o.result.hash))
           && (o.result == NotFound || o.result == Ok ==> Holds(links, st, before, k) == None)
         case Delete(k) => o.result == NotFound && k in links ==> Holds(links, st, before, k) == None
         case Rename(s, _) =>
           && (o.result == Ok ==> Holds(links, st, before, s).Some?)
           && (o.result == NotFound ==> Holds(links, st, before, s) == None)
  }

  ghost predicate Possible(links: set<Key>, st: Registers, order: seq<Placed>) {
    forall i :: 0 < i <= |order| ==> LastPossible(links, st, order[..i])
  }

  /** One step of a run finds the last result possible exactly if it is, and leaves what the order says. */
  lemma StepMeans(links: set<Key>, st: Registers, order: seq<Placed>, now: Registers)
    requires order != [] && forall k :: Value(now, k) == Holds(links, st, order[..|order| - 1], k)
    ensures var p := order[|order| - 1];
            var next := Step(links, p.op, now, p.applied);
            && (next.Some? <==> LastPossible(links, st, order))
            && (next.Some? ==> forall k :: Value(next.value, k) == Holds(links, st, order, k))
  {
    var p := order[|order| - 1];
    var next := Step(links, p.op, now, p.applied);
    if next.Some? {
      forall k ensures Value(next.value, k) == Holds(links, st, order, k) {
        assert Value(now, k) == Holds(links, st, order[..|order| - 1], k);
        match p.op.op
        case Put(_, _) =>
        case Get(_) =>
        case Delete(_) =>
        case Rename(s, d) => assert Value(now, s) == Holds(links, st, order[..|order| - 1], s);
      }
    }
  }

  /** A run succeeds exactly if every result is possible, and ends in what the order says. */
  lemma {:induction false} RunMeans(links: set<Key>, st: Registers, order: seq<Placed>)
    ensures RunFrom(links, st, order).Some? <==> Possible(links, st, order)
    ensures var r := RunFrom(links, st, order); r.Some? ==> forall k :: Value(r.value, k) == Holds(links, st, order, k)
    decreases |order|
  {
    hide Step, Holds, LastPossible;
    if order == [] {
      NothingYet(links, st);
    } else {
      var before := order[..|order| - 1];
      RunMeans(links, st, before);
      PossibleSnoc(links, st, order);
      var r := RunFrom(links, st, before);
      if r.Some? { StepMeans(links, st, order, r.value); }
    }
  }

  lemma NothingYet(links: set<Key>, st: Registers)
    ensures forall k :: Holds(links, st, [], k) == Value(st, k)
  {
  }

  lemma PossibleSnoc(links: set<Key>, st: Registers, order: seq<Placed>)
    requires order != []
    ensures Possible(links, st, order) <==> Possible(links, st, order[..|order| - 1]) && LastPossible(links, st, order)
  {
    hide LastPossible;
    var before := order[..|order| - 1];
    assert order[..|order|] == order;
    assert forall i :: 0 < i <= |before| ==> before[..i] == order[..i];
    if Possible(links, st, order) {
      forall i | 0 < i <= |before| ensures LastPossible(links, st, before[..i]) { assert before[..i] == order[..i]; }
      assert LastPossible(links, st, order[..|order|]);
    } else {
      var i :| 0 < i <= |order| && !LastPossible(links, st, order[..i]);
      if i < |order| { assert before[..i] == order[..i]; }
    }
  }

  /** Every operation happens at an instant between its call and its return. */
  ghost predicate Timely(order: seq<Placed>) {
    && (forall i :: 0 <= i < |order| ==> InTime(order[i]))
    && (forall i, j :: 0 <= i < j < |order| ==> order[i].point <= order[j].point)
  }

  predicate InTime(p: Placed) {
    p.op.invoke <= p.point && (p.op.ret > 0 ==> p.point <= p.op.ret)
  }

  /** A total order of exactly the operations `ops` that explains every result. */
  ghost predicate Explains(links: set<Key>, ops: multiset<Operation>, order: seq<Placed>) {
    Ops(order) == ops && Possible(links, map[], order)
  }

  lemma ExplainsIff(links: set<Key>, ops: multiset<Operation>, order: seq<Placed>)
    ensures Explains(links, ops, order) <==> Ops(order) == ops && RunFrom(links, map[], order).Some?
  {
    RunMeans(links, map[], order);
  }

  /** `a` had returned before `b` was called. */
  predicate Precedes(a: Operation, b: Operation) {
    0 < a.ret < b.invoke
  }

  /** No operation comes before one that had already returned when it was called. */
  ghost predicate RealTime(order: seq<Placed>) {
    forall i, j :: 0 <= i < j < |order| ==> !Precedes(order[j].op, order[i].op)
  }

  ghost predicate Linearizable(links: set<Key>, ops: multiset<Operation>) {
    exists order :: Explains(links, ops, order) && RealTime(order)
  }

  /** Every operation that may or may not have taken place did. */
  ghost predicate AllApplied(order: seq<Placed>) {
    forall i :: 0 <= i < |order| && Ambiguous(order[i].op) ==> order[i].applied
  }

  /** Some order explains the operations even though nothing ambiguous is left out. */
  ghost predicate LinearizableApplied(links: set<Key>, ops: multiset<Operation>) {
    exists order :: Explains(links, ops, order) && RealTime(order) && AllApplied(order)
  }

  lemma TimelyIsRealTime(order: seq<Placed>)
    requires Timely(order)
    ensures RealTime(order)
  {
    forall i, j | 0 <= i < j < |order| ensures !Precedes(order[j].op, order[i].op) {
      assert InTime(order[i]) && InTime(order[j]);
    }
  }

  // ---------------------------------------------------------------- independence of keys

  ghost predicate Agree(s: Registers, t: Registers, ks: set<Key>) {
    forall k :: k in ks ==> Value(s, k) == Value(t, k)
  }

  ghost predicate AgreeAfter(a: Option<Registers>, b: Option<Registers>, ks: set<Key>) {
    a.Some? == b.Some? && (a.Some? ==> Agree(a.value, b.value, ks))
  }

  lemma CheckLocal(o: Operation, s: Registers, t: Registers, ks: set<Key>)
    requires Touches(o) <= ks && Agree(s, t, ks)
    ensures AgreeAfter(CheckAndApply(o, s), CheckAndApply(o, t), ks)
  {
    match o.op
    case Put(p, h) => assert p in ks;
    case Get(p) => assert p in ks;
    case Delete(p) => assert p in ks;
    case Rename(a, b) => assert a in ks && b in ks;
  }

  lemma ApplyLocal(o: Operation, s: Registers, t: Registers, ks: set<Key>)
    requires Touches(o) <= ks && Agree(s, t, ks)
    ensures Agree(ApplyOp(o, s), ApplyOp(o, t), ks)
  {
    match o.op
    case Put(p, h) => assert p in ks;
    case Get(p) =>
    case Delete(p) => assert p in ks;
    case Rename(a, b) => assert a in ks && b in ks;
  }

  lemma SimpleLocal(o: Operation, s: Registers, t: Registers, ks: set<Key>)
    requires Touches(o) <= ks && Agree(s, t, ks)
    ensures AgreeAfter(SimpleStep(o, s), SimpleStep(o, t), ks)
  {
    match o.op
    case Put(p, h) => assert p in ks;
    case Get(p) => assert p in ks;
    case Delete(p) => assert p in ks;
    case Rename(a, b) =>
  }

  /** A step looks at, and changes, only the keys that its operation touches. */
  lemma StepLocal(links: set<Key>, o: Operation, s: Registers, t: Registers, applied: bool, ks: set<Key>)
    requires Touches(o) <= ks && Agree(s, t, ks)
    ensures AgreeAfter(Step(links, o, s, applied), Step(links, o, t, applied), ks)
  {
    hide CheckAndApply, ApplyOp, SimpleStep, Touches, Linked;
    CheckLocal(o, s, t, ks);
    ApplyLocal(o, s, t, ks);
    SimpleLocal(o, s, t, ks);
  }

  lemma StepElsewhere(links: set<Key>, o: Operation, s: Registers, applied: bool, ks: set<Key>)
    requires Touches(o) !! ks && Step(links, o, s, applied).Some?
    ensures Agree(Step(links, o, s, applied).value, s, ks)
  {
    match o.op
    case Put(p, h) => assert p in Touches(o);
    case Get(p) =>
    case Delete(p) => assert p in Touches(o);
    case Rename(a, b) => assert a in Touches(o) && b in Touches(o);
  }

  // ---------------------------------------------------------------- merging orders

  /** Two orders merged by their instants, from the back. */
  function Merge(a: seq<Placed>, b: seq<Placed>): seq<Placed>
    decreases |a| + |b|
  {
    if a == [] then b
    else if b == [] then a
    else if a[|a| - 1].point > b[|b| - 1].point then Merge(a[..|a| - 1], b) + [a[|a| - 1]]
    else Merge(a, b[..|b| - 1]) + [b[|b| - 1]]
  }

  lemma {:induction false} MergeOps(a: seq<Placed>, b: seq<Placed>)
    ensures Ops(Merge(a, b)) == Ops(a) + Ops(b)
    decreases |a| + |b|
  {
    if a != [] && b != [] {
      if a[|a| - 1].point > b[|b| - 1].point {
        var m := Merge(a[..|a| - 1], b);
        MergeOps(a[..|a| - 1], b);
        OpsSnoc(m, a[|a| - 1]);
      } else {
        var m := Merge(a, b[..|b| - 1]);
        MergeOps(a, b[..|b| - 1]);
        OpsSnoc(m, b[|b| - 1]);
      }
    }
  }

  lemma OpsSnoc(m: seq<Placed>, p: Placed)
    ensures Ops(m + [p]) == Ops(m) + multiset{p.op}
  {
    assert (m + [p])[..|m|] == m;
  }

  lemma RunSnoc(links: set<Key>, st: Registers, m: seq<Placed>, p: Placed)
    ensures var r := RunFrom(links, st, m);
            RunFrom(links, st, m + [p]) == if r.None? then None else Step(links, p.op, r.value, p.applied)
  {
    assert (m + [p])[..|m|] == m;
  }

  lemma TimelySnoc(m: seq<Placed>, p: Placed)
    requires Timely(m) && InTime(p) && (forall q :: q in m ==> q.point <= p.point)
    ensures Timely(m + [p])
  {
  }

  lemma {:induction false} MergeElements(a: seq<Placed>, b: seq<Placed>)
    ensures forall q :: q in Merge(a, b) ==> q in a || q in b
    decreases |a| + |b|
  {
    if a != [] && b != [] {
      if a[|a| - 1].point > b[|b| - 1].point { MergeElements(a[..|a| - 1], b); }
      else { MergeElements(a, b[..|b| - 1]); }
    }
  }

  lemma {:induction false} MergeTimely(a: seq<Placed>, b: seq<Placed>)
    requires Timely(a) && Timely(b)
    ensures Timely(Merge(a, b))
    decreases |a| + |b|
  {
    if a != [] && b != [] {
      var x, y := a[|a| - 1], b[|b| - 1];
      if x.point > y.point {
        MergeTimely(a[..|a| - 1], b);
        MergeElements(a[..|a| - 1], b);
        TimelySnoc(Merge(a[..|a| - 1], b), x);
      } else {
        MergeTimely(a, b[..|b| - 1]);
        MergeElements(a, b[..|b| - 1]);
        TimelySnoc(Merge(a, b[..|b| - 1]), y);
      }
    }
  }

  ghost predicate Within(order: seq<Placed>, ks: set<Key>) {
    forall p :: p in order ==> Touches(p.op) <= ks
  }

  /** Merging two orders over disjoint keys: each sees the state it saw on its own. */
  lemma {:induction false} MergeRun(links: set<Key>, st: Registers, a: seq<Placed>, b: seq<Placed>, ka: set<Key>, kb: set<Key>)
    requires ka !! kb && Within(a, ka) && Within(b, kb)
    requires RunFrom(links, st, a).Some? && RunFrom(links, st, b).Some?
    ensures var r := RunFrom(links, st, Merge(a, b));
            && r.Some?
            && Agree(r.value, RunFrom(links, st, a).value, ka)
            && Agree(r.value, RunFrom(links, st, b).value, kb)
    decreases |a| + |b|
  {
    if a == [] {
      RunElsewhere(links, st, b, kb, ka);
    } else if b == [] {
      RunElsewhere(links, st, a, ka, kb);
    } else if a[|a| - 1].point > b[|b| - 1].point {
      var a0, x := a[..|a| - 1], a[|a| - 1];
      MergeRun(links, st, a0, b, ka, kb);
      LastStep(links, st, a0, x, Merge(a0, b), ka, kb);
    } else {
      var b0, y := b[..|b| - 1], b[|b| - 1];
      MergeRun(links, st, a, b0, ka, kb);
      LastStep(links, st, b0, y, Merge(a, b0), kb, ka);
    }
  }

  lemma LastStep(links: set<Key>, st: Registers, a: seq<Placed>, x: Placed, m: seq<Placed>, ka: set<Key>, kb: set<Key>)
    requires ka !! kb && Touches(x.op) <= ka
    requires RunFrom(links, st, a).Some? && RunFrom(links, st, m).Some?
    requires Step(links, x.op, RunFrom(links, st, a).value, x.applied).Some?
    requires Agree(RunFrom(links, st, m).value, RunFrom(links, st, a).value, ka)
    ensures var r := RunFrom(links, st, m + [x]);
            && r.Some?
            && Agree(r.value, Step(links, x.op, RunFrom(links, st, a).value, x.applied).value, ka)
            && Agree(r.value, RunFrom(links, st, m).value, kb)
  {
    hide Step;
    RunSnoc(links, st, m, x);
    StepLocal(links, x.op, RunFrom(links, st, m).value, RunFrom(links, st, a).value, x.applied, ka);
    StepElsewhere(links, x.op, RunFrom(links, st, m).value, x.applied, kb);
  }

  lemma {:induction false} RunElsewhere(links: set<Key>, st: Registers, a: seq<Placed>, ka: set<Key>, kb: set<Key>)
    requires ka !! kb && Within(a, ka) && RunFrom(links, st, a).Some?
    ensures Agree(RunFrom(links, st, a).value, st, kb)
    decreases |a|
  {
    if a != [] {
      var a0 := a[..|a| - 1];
      RunElsewhere(links, st, a0, ka, kb);
      StepElsewhere(links, a[|a| - 1].op, RunFrom(links, st, a0).value, a[|a| - 1].applied, kb);
    }
  }

  /** Histories over disjoint keys can be put together. */
  lemma MergeExplains(links: set<Key>, x: multiset<Operation>, y: multiset<Operation>, a: seq<Placed>, b: seq<Placed>,
                      ka: set<Key>, kb: set<Key>)
    requires ka !! kb && Within(a, ka) && Within(b, kb) && Timely(a) && Timely(b)
    requires Explains(links, x, a) && Explains(links, y, b)
    ensures Explains(links, x + y, Merge(a, b)) && Timely(Merge(a, b)) && Within(Merge(a, b), ka + kb)
  {
    MergeOps(a, b);
    MergeTimely(a, b);
    ExplainsIff(links, x, a);
    ExplainsIff(links, y, b);
    ExplainsIff(links, x + y, Merge(a, b));
    MergeRun(links, map[], a, b, ka, kb);
    MergeElements(a, b);
  }

  // ---------------------------------------------------------------- from the front

  lemma {:induction false} RunFront(links: set<Key>, st: Registers, p: Placed, rest: seq<Placed>)
    ensures var first := Step(links, p.op, st, p.applied);
            RunFrom(links, st, [p] + rest) == if first.None? then None else RunFrom(links, first.value, rest)
    decreases |rest|
  {
    hide Step;
    var all := [p] + rest;
    if rest == [] {
      assert all[..0] == [];
    } else {
      var r := rest[..|rest| - 1];
      assert all[..|all| - 1] == [p] + r && all[|all| - 1] == rest[|rest| - 1];
      RunFront(links, st, p, r);
    }
  }

  lemma {:induction false} OpsFront(p: Placed, rest: seq<Placed>)
    ensures Ops([p] + rest) == multiset{p.op} + Ops(rest)
    decreases |rest|
  {
    var all := [p] + rest;
    if rest == [] {
      assert all[..0] == [];
    } else {
      var r := rest[..|rest| - 1];
      assert all[..|all| - 1] == [p] + r && all[|all| - 1] == rest[|rest| - 1];
      OpsFront(p, r);
    }
  }

  lemma TimelyCons(p: Placed, tail: seq<Placed>)
    requires InTime(p) && Timely(tail) && forall q :: q in tail ==> q.point >= p.point
    ensures Timely([p] + tail)
  {
    var all := [p] + tail;
    forall k | 0 <= k < |all| ensures InTime(all[k]) { if k > 0 { assert all[k] == tail[k - 1]; } }
    forall k, l | 0 <= k < l < |all| ensures all[k].point <= all[l].point {
      assert all[l] == tail[l - 1] && tail[l - 1] in tail;
      if k > 0 { assert all[k] == tail[k - 1]; }
    }
  }

  lemma RealTimeTail(order: seq<Placed>)
    requires order != [] && RealTime(order)
    ensures RealTime(order[1..])
  {
    var tail := order[1..];
    forall k, l | 0 <= k < l < |tail| ensures !Precedes(tail[l].op, tail[k].op) {
      assert tail[l] == order[l + 1] && tail[k] == order[k + 1];
    }
  }

  lemma {:induction false} OpsMember(order: seq<Placed>, o: Operation) returns (i: nat)
    requires o in Ops(order)
    ensures i < |order| && order[i].op == o
    decreases |order|
  {
    if order[|order| - 1].op == o { i := |order| - 1; }
    else { i := OpsMember(order[..|order| - 1], o); }
  }

  /** States that agree on the keys of an order are interchangeable for it. */
  lemma {:induction false} RunAgree(links: set<Key>, s: Registers, t: Registers, order: seq<Placed>, ks: set<Key>)
    requires Agree(s, t, ks) && Within(order, ks)
    ensures AgreeAfter(RunFrom(links, s, order), RunFrom(links, t, order), ks)
    decreases |order|
  {
    hide Step;
    if order != [] {
      var rest, p := order[..|order| - 1], order[|order| - 1];
      RunAgree(links, s, t, rest, ks);
      var a, b := RunFrom(links, s, rest), RunFrom(links, t, rest);
      if a.Some? { StepLocal(links, p.op, a.value, b.value, p.applied, ks); }
    }
  }
}
