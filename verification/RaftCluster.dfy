/**
A whole cluster: nodes, the messages sent so far, and a ledger of what was
applied and answered. Nodes react in any order, messages are lost, reordered or
delivered again at will, and any node may crash within any reaction and restart.
*/
module RaftCluster {
  import opened Quorum
  import opened Master
  import opened RaftProtocol
  import opened RaftNode
  import opened RaftReplies
  import opened RaftCrash

  /** Where a request was put: the log index and the term of its leader. */
  datatype Slot = Slot(index: nat, term: nat)

  /** An entry applied, by which node, and in which role and term. */
  datatype Deed = Deed(index: nat, entry: Entry, node: Id, role: Role, term: nat)

  /** Everything ever handed in, placed, applied and answered, and the requests that were
      lost when the node that had taken them crashed. */
  datatype Ledger = Ledger(
    issued: map<Request, Command>, placed: map<Request, Slot>, applied: set<Deed>, answers: set<Reply>,
    lost: set<Request>)

  datatype Cluster = Cluster(cfg: ClusterConfiguration, nodes: map<Id, Node>, net: set<Packet>, ledger: Ledger)

  ghost predicate StartsBlank(c: Cluster, id: Id)
    requires id in c.nodes
  {
    c.nodes[id] == Boot(c.cfg, id, BLANK)
  }

  ghost predicate Start(c: Cluster) {
    && Populated(c.cfg)
    && c.nodes.Keys == AllMembers(c.cfg)
    && (forall id {:trigger StartsBlank(c, id)} :: id in c.nodes ==> StartsBlank(c, id))
    && c.net == {}
    && c.ledger == Ledger(map[], map[], {}, {}, {})
  }

  /** Clients never hand in one request twice. */
  ghost predicate Fresh(g: Ledger, ev: Event) {
    ev.Clients? ==>
      && (forall r :: r in ev.requests ==> r.request !in g.issued)
      && (forall i, j :: 0 <= i < j < |ev.requests| ==> ev.requests[i].request != ev.requests[j].request)
  }

  function Issues(ev: Event): map<Request, Command> {
    if ev.Clients? then Commands(ev.requests) else map[]
  }

  function Commands(reqs: seq<ClientRequest>): map<Request, Command> {
    if reqs == [] then map[]
    else Commands(reqs[..|reqs| - 1])[reqs[|reqs| - 1].request := reqs[|reqs| - 1].command]
  }

  /** Where a leader of `term` puts the requests when its next index is `start`. */
  function SlotsOf(reqs: seq<ClientRequest>, start: nat, term: nat): map<Request, Slot> {
    if reqs == [] then map[]
    else SlotsOf(reqs[..|reqs| - 1], start, term)[reqs[|reqs| - 1].request := Slot(start + |reqs| - 1, term)]
  }

  function Places(n: Node, ev: Event): map<Request, Slot>
    requires n.HasLog()
  {
    if ev.Clients? && n.role == Leader then SlotsOf(ev.requests, n.LastIndex() + 1, n.term) else map[]
  }

  function Deeds(e: Effect): set<Deed> {
    set a | a in e.applies :: Deed(a.index, a.entry, e.node.id, e.node.role, e.node.term)
  }

  /** What reaches the outside: all of it, or, when the node crashes, some of it;
      nothing but refusals can get out before the last write. */
  datatype Outcome = Outcome(
    sent: set<Packet>, applied: set<Deed>, answers: set<Reply>, placed: bool, lost: set<Request>)

  function Whole(e: Effect): Outcome {
    Outcome(e.sent, Deeds(e), e.replies, true, {})
  }

  /** Those who wait once the batch is saved, or before that. */
  function Held(n: Node, ev: Event, placed: bool): map<nat, Request>
    requires n.HasLog()
  {
    if placed then Waiting(n, ev) else n.pending
  }

  ghost predicate Answered(answers: set<Reply>, r: Request) {
    Reply(r, true) in answers || Reply(r, false) in answers
  }

  /** A positive answer gets out only after the entry at the client's index was applied. */
  ghost predicate BackedUp(waiting: map<nat, Request>, o: Outcome, r: Reply) {
    exists d :: d in o.applied && d.index in waiting && waiting[d.index] == r.request
  }

  ghost predicate Partial(n: Node, ev: Event, e: Effect, k: nat, o: Outcome)
    requires n.HasLog()
  {
    && o.sent <= e.sent
    && o.applied <= Deeds(e)
    && o.answers <= e.replies
    && (forall r :: r in o.answers && r.ok ==> BackedUp(Waiting(n, ev), o, r))
    && (k < |e.writes| ==> o.sent == {} && o.applied == {} && (forall r :: r in o.answers ==> !r.ok) && !o.placed)
    && (k == |e.writes| ==> o.placed)
    && var held := Held(n, ev, o.placed);
       forall r :: r in o.lost <==> (r in held.Values || r in Issues(ev)) && !Answered(o.answers, r)
  }

  datatype Happening =
    | Reacts(id: Id, event: Event)
    | Crashes(id: Id, event: Event, cut: nat, outcome: Outcome)

  function Record(g: Ledger, n: Node, ev: Event, o: Outcome): Ledger
    requires n.HasLog()
  {
    Ledger(g.issued + Issues(ev),
           if o.placed then g.placed + Places(n, ev) else g.placed,
           g.applied + o.applied, g.answers + o.answers, g.lost + o.lost)
  }

  function After(c: Cluster, id: Id, ev: Event, n': Node, o: Outcome): Cluster
    requires id in c.nodes && c.nodes[id].HasLog()
  {
    Cluster(c.cfg, c.nodes[id := n'], c.net + o.sent, Record(c.ledger, c.nodes[id], ev, o))
  }

  ghost predicate Happens(c: Cluster, c': Cluster, h: Happening) {
    && h.id in c.nodes && c.nodes[h.id].HasLog()
    && Enabled(h.id, h.event, c.net)
    && Fresh(c.ledger, h.event)
    && var n := c.nodes[h.id];
       var e := React(c.cfg, n, h.event);
       match h
       case Reacts(id, ev) => c' == After(c, id, ev, e.node, Whole(e))
       case Crashes(id, ev, k, o) =>
         && k <= |e.writes| && Partial(n, ev, e, k, o)
         && c' == After(c, id, ev, Boot(c.cfg, id, ApplyWrites(n.db, e.writes[..k])), o)
  }

  /** Where crashes may cut in: anywhere, nowhere that tears a log, or nowhere that leaves a
      truncation or a snapshot half done. */
  datatype Scope = AnyPoint | LogsWhole | AllWhole

  predicate Admits(scope: Scope, ws: seq<Write>, k: nat) {
    && (scope != AnyPoint ==> !TearsLog(ws, k))
    && (scope == AllWhole ==> !HalvesSnapshot(ws, k))
  }

  predicate Admitted(c: Cluster, h: Happening, scope: Scope)
    requires h.id in c.nodes && c.nodes[h.id].HasLog()
  {
    h.Crashes? ==> Admits(scope, React(c.cfg, c.nodes[h.id], h.event).writes, h.cut)
  }

  ghost predicate Advances(c: Cluster, c': Cluster, scope: Scope) {
    exists h :: Happens(c, c', h) && Admitted(c, h, scope)
  }

  ghost predicate AdvanceAt(cs: seq<Cluster>, i: nat, scope: Scope)
    requires 0 < i < |cs|
  {
    Advances(cs[i - 1], cs[i], scope)
  }

  ghost predicate Runs(cs: seq<Cluster>, scope: Scope) {
    && |cs| > 0
    && Start(cs[0])
    && (forall i :: 0 < i < |cs| ==> AdvanceAt(cs, i, scope))
  }

  /** No crash tears a log; snapshots may be left half done. */
  ghost predicate Execution(cs: seq<Cluster>) { Runs(cs, LogsWhole) }

  /** Whatever runs with fewer crash points runs with more. */
  lemma RunsWider(cs: seq<Cluster>, narrow: Scope, wide: Scope)
    requires Runs(cs, narrow) && (wide == narrow || narrow == AllWhole || wide == AnyPoint)
    ensures Runs(cs, wide)
  {
    hide React, Fresh, Partial, Boot, TearsLog, HalvesSnapshot;
    forall i | 0 < i < |cs| ensures AdvanceAt(cs, i, wide) {
      assert AdvanceAt(cs, i, narrow);
      var h :| Happens(cs[i - 1], cs[i], h) && Admitted(cs[i - 1], h, narrow);
      assert Admitted(cs[i - 1], h, wide);
    }
  }

  // ---------------------------------------------------------------- the books

  /** Whoever waits at a node was placed by it in its present term and has no answer yet. */
  ghost predicate WaitsOk(g: Ledger, n: Node) {
    && LeaderWaits(n)
    && (forall i :: i in n.pending ==>
          && n.pending[i] in g.placed && g.placed[n.pending[i]] == Slot(i, n.term)
          && (forall r :: r in g.answers ==> r.request != n.pending[i]))
  }

  /** Only what was handed in is placed or answered; no two requests share a place, and nobody has
      two different answers. */
  ghost predicate Tidy(g: Ledger) {
    && (forall r :: r in g.placed ==> r in g.issued)
    && (forall r, q :: r in g.placed && q in g.placed && g.placed[r] == g.placed[q] ==> r == q)
    && (forall r, q :: r in g.answers && q in g.answers && r.request == q.request ==> r == q)
    && (forall r :: r in g.answers ==> r.request in g.issued)
  }

  ghost predicate BothLead(c: Cluster, a: Id, b: Id) {
    && a in c.nodes && b in c.nodes && c.nodes[a].role == Leader && c.nodes[b].role == Leader
    && c.nodes[a].term == c.nodes[b].term
  }

  ghost predicate OneLeaderEach(c: Cluster) {
    forall a, b :: BothLead(c, a, b) ==> a == b
  }

  /** A leader's log reaches beyond every place it has given. */
  ghost predicate Behind(g: Ledger, n: Node) {
    n.HasLog() && (n.role == Leader ==> forall r :: r in g.placed && g.placed[r].term == n.term ==> g.placed[r].index <= n.LastIndex())
  }

  ghost predicate NodeOrderly(g: Ledger, n: Node) {
    CommitKnown(n) && WaitsOk(g, n) && Behind(g, n)
  }

  ghost predicate Orderly(c: Cluster) {
    Tidy(c.ledger) && OneLeaderEach(c) && forall id :: id in c.nodes ==> NodeOrderly(c.ledger, c.nodes[id])
  }

  /** The books are in order, and node `id` may see event `ev`. */
  ghost predicate Poised(c: Cluster, id: Id, ev: Event) {
    Orderly(c) && id in c.nodes && Fresh(c.ledger, ev) && Enabled(id, ev, c.net)
  }

  lemma PoisedFacts(c: Cluster, id: Id, ev: Event)
    requires Poised(c, id, ev)
    ensures id in c.nodes && c.nodes[id].HasLog() && CommitKnown(c.nodes[id]) && WaitsOk(c.ledger, c.nodes[id])
    ensures Behind(c.ledger, c.nodes[id]) && Tidy(c.ledger) && Fresh(c.ledger, ev)
  {
    hide WaitsOk, Fresh, OneLeaderEach, Tidy;
    assert NodeOrderly(c.ledger, c.nodes[id]);
  }

  // ---------------------------------------------------------------- new requests

  lemma {:induction false} CommandsAt(reqs: seq<ClientRequest>, j: nat)
    requires j < |reqs|
    requires forall i, k :: 0 <= i < k < |reqs| ==> reqs[i].request != reqs[k].request
    ensures reqs[j].request in Commands(reqs) && Commands(reqs)[reqs[j].request] == reqs[j].command
    decreases |reqs|
  {
    if j < |reqs| - 1 { CommandsAt(reqs[..|reqs| - 1], j); }
  }

  lemma {:induction false} CommandsOnly(reqs: seq<ClientRequest>, r: Request)
    requires r in Commands(reqs)
    ensures exists j :: 0 <= j < |reqs| && reqs[j].request == r
    decreases |reqs|
  {
    if r != reqs[|reqs| - 1].request { CommandsOnly(reqs[..|reqs| - 1], r); }
  }

  lemma {:induction false} SlotsAt(reqs: seq<ClientRequest>, start: nat, term: nat, j: nat)
    requires j < |reqs|
    requires forall i, k :: 0 <= i < k < |reqs| ==> reqs[i].request != reqs[k].request
    ensures var m := SlotsOf(reqs, start, term); reqs[j].request in m && m[reqs[j].request] == Slot(start + j, term)
    decreases |reqs|
  {
    if j < |reqs| - 1 { SlotsAt(reqs[..|reqs| - 1], start, term, j); }
  }

  lemma {:induction false} SlotsOnly(reqs: seq<ClientRequest>, start: nat, term: nat, r: Request) returns (j: nat)
    requires r in SlotsOf(reqs, start, term)
    ensures j < |reqs| && reqs[j].request == r
    decreases |reqs|
  {
    if r == reqs[|reqs| - 1].request { j := |reqs| - 1; }
    else { j := SlotsOnly(reqs[..|reqs| - 1], start, term, r); }
  }

  /** A new place belongs to a request of the batch, at the next free indices. */
  lemma PlacesOnly(g: Ledger, n: Node, ev: Event, r: Request) returns (j: nat)
    requires n.HasLog() && Fresh(g, ev) && r in Places(n, ev)
    ensures ev.Clients? && n.role == Leader && j < |ev.requests| && ev.requests[j].request == r && r !in g.issued
    ensures Places(n, ev)[r] == Slot(n.LastIndex() + 1 + j, n.term)
    ensures r in Issues(ev) && Issues(ev)[r] == ev.requests[j].command
  {
    j := SlotsOnly(ev.requests, n.LastIndex() + 1, n.term, r);
    SlotsAt(ev.requests, n.LastIndex() + 1, n.term, j);
    CommandsAt(ev.requests, j);
  }

  lemma IssuesNew(g: Ledger, ev: Event, r: Request)
    requires Fresh(g, ev) && r in Issues(ev)
    ensures r !in g.issued
  {
    CommandsOnly(ev.requests, r);
  }

  lemma NewWaitingPlaced(g: Ledger, n: Node, ev: Event, i: nat)
    requires n.HasLog() && Fresh(g, ev) && i in NewPending(n, ev)
    ensures var r := NewPending(n, ev)[i];
            && n.role == Leader && r in Issues(ev) && r !in g.issued
            && r in Places(n, ev) && Places(n, ev)[r] == Slot(i, n.term)
  {
    hide Commands, SlotsOf;
    var j := i - (n.LastIndex() + 1);
    assert ev.requests[j] in ev.requests;
    SlotsAt(ev.requests, n.LastIndex() + 1, n.term, j);
    CommandsAt(ev.requests, j);
  }

  /** Whoever waits during the reaction is placed at the index where it waits. */
  lemma WaitingPlaced(g: Ledger, n: Node, ev: Event, i: nat)
    requires n.HasLog() && Fresh(g, ev) && WaitsOk(g, n) && (forall r :: r in g.placed ==> r in g.issued)
    requires i in n.pending + NewPending(n, ev)
    ensures var r := (n.pending + NewPending(n, ev))[i];
            && n.role == Leader
            && r in g.placed + Places(n, ev) && (g.placed + Places(n, ev))[r] == Slot(i, n.term)
            && ((i in n.pending && r == n.pending[i] && r in g.placed) || (r in Issues(ev) && r !in g.issued))
  {
    if i in NewPending(n, ev) {
      NewWaitingPlaced(g, n, ev, i);
    } else {
      var r := n.pending[i];
      if r in Places(n, ev) { var j := PlacesOnly(g, n, ev, r); }
    }
  }

  // ---------------------------------------------------------------- one reaction

  /** No request waits at two nodes. */
  lemma NotWaitingTwice(c: Cluster, a: Id, i: nat, b: Id, j: nat)
    requires Orderly(c) && a in c.nodes && b in c.nodes && i in c.nodes[a].pending && j in c.nodes[b].pending
    requires c.nodes[a].pending[i] == c.nodes[b].pending[j]
    ensures a == b && i == j
  {
    hide Tidy;
    assert NodeOrderly(c.ledger, c.nodes[a]) && NodeOrderly(c.ledger, c.nodes[b]);
    assert BothLead(c, a, b);
  }

  lemma AnswerSource(g: Ledger, n: Node, ev: Event, e: Effect, r: Reply) returns (i: nat)
    requires n.HasLog() && Fresh(g, ev) && WaitsOk(g, n) && (forall r :: r in g.placed ==> r in g.issued)
    requires (forall q :: q in g.answers ==> q.request in g.issued)
    requires AnswersOne(e, r, n.pending + NewPending(n, ev), RefusedBy(n, ev))
    ensures r.request in g.issued + Issues(ev)
    ensures (i in n.pending && n.pending[i] == r.request) || r.request !in g.issued
    ensures forall q :: q in g.answers ==> q.request != r.request
  {
    if !r.ok && r.request in RefusedBy(n, ev) {
      var j :| 0 <= j < |ev.requests| && ev.requests[j].request == r.request;
      CommandsAt(ev.requests, j);
      i := 0;
    } else {
      i :| i in n.pending + NewPending(n, ev) && (n.pending + NewPending(n, ev))[i] == r.request;
      hide NewPending;
      WaitingPlaced(g, n, ev, i);
    }
  }

  /** An answer goes to someone who has none yet ... */
  lemma AnswerIsNew(c: Cluster, id: Id, ev: Event, r: Reply) returns (i: nat)
    requires Poised(c, id, ev) && r in React(c.cfg, c.nodes[id], ev).replies
    ensures r.request in c.ledger.issued + Issues(ev)
    ensures (i in c.nodes[id].pending && c.nodes[id].pending[i] == r.request) || r.request !in c.ledger.issued
    ensures forall q :: q in c.ledger.answers ==> q.request != r.request
  {
    hide React, Poised, Fresh, NewPending, AnswersOne;
    PoisedFacts(c, id, ev);
    var g, n := c.ledger, c.nodes[id];
    ReactAnswers(c.cfg, n, ev);
    var e := React(c.cfg, n, ev);
    hide WaitsOk;
    i := AnswerSource(g, n, ev, e, r);
  }

  /** ... and does not wait elsewhere. */
  lemma AnswerIsLocal(c: Cluster, id: Id, ev: Event, r: Reply, x: Id, k: nat)
    requires Poised(c, id, ev) && r in React(c.cfg, c.nodes[id], ev).replies
    requires x in c.nodes && x != id && k in c.nodes[x].pending
    ensures c.nodes[x].pending[k] != r.request
  {
    hide React, Fresh;
    var i := AnswerIsNew(c, id, ev, r);
    WaiterIssued(c, x, k);
    hide Orderly;
    if c.nodes[x].pending[k] == r.request { NotWaitingTwice(c, x, k, id, i); }
  }

  lemma WaiterIssued(c: Cluster, x: Id, j: nat)
    requires Orderly(c) && x in c.nodes && j in c.nodes[x].pending
    ensures c.nodes[x].pending[j] in c.ledger.placed && c.nodes[x].pending[j] in c.ledger.issued
    ensures c.nodes[x].role == Leader && c.ledger.placed[c.nodes[x].pending[j]] == Slot(j, c.nodes[x].term)
    ensures !Answered(c.ledger.answers, c.nodes[x].pending[j])
  {
    assert NodeOrderly(c.ledger, c.nodes[x]);
  }

  /** New places are later in the same reign than every earlier one. */
  lemma PlaceIsFree(c: Cluster, id: Id, ev: Event, r: Request, q: Request)
    requires Poised(c, id, ev) && r in Places(c.nodes[id], ev) && q in c.ledger.placed
    ensures c.ledger.placed[q] != Places(c.nodes[id], ev)[r]
  {
    hide Poised, Fresh;
    PoisedFacts(c, id, ev);
    var j := PlacesOnly(c.ledger, c.nodes[id], ev, r);
  }

  lemma PlacesApart(g: Ledger, n: Node, ev: Event, r: Request, q: Request)
    requires n.HasLog() && Fresh(g, ev) && r in Places(n, ev) && q in Places(n, ev) && Places(n, ev)[r] == Places(n, ev)[q]
    ensures r == q
  {
    var i := PlacesOnly(g, n, ev, r);
    var j := PlacesOnly(g, n, ev, q);
  }

  /** An old request is not among the new ones. */
  lemma OldPlaced(g: Ledger, n: Node, ev: Event, r: Request)
    requires Tidy(g) && Fresh(g, ev) && n.HasLog() && r in g.placed
    ensures r !in Places(n, ev) && r !in Issues(ev) && r in g.issued
  {
    if r in Places(n, ev) { var j := PlacesOnly(g, n, ev, r); }
    if r in Issues(ev) { IssuesNew(g, ev, r); }
  }

  lemma PlacesDistinct(c: Cluster, id: Id, ev: Event, r: Request, q: Request)
    requires Poised(c, id, ev)
    requires var m := c.ledger.placed + Places(c.nodes[id], ev); r in m && q in m && m[r] == m[q]
    ensures r == q
  {
    hide Poised, React, Fresh;
    PoisedFacts(c, id, ev);
    var g, n := c.ledger, c.nodes[id];
    if r in Places(n, ev) && q in Places(n, ev) { PlacesApart(g, n, ev, r, q); }
    else if r in Places(n, ev) { PlaceIsFree(c, id, ev, r, q); }
    else if q in Places(n, ev) { PlaceIsFree(c, id, ev, q, r); }
  }

  lemma OneAnswer(c: Cluster, id: Id, ev: Event, got: set<Reply>, r: Reply, q: Reply)
    requires Poised(c, id, ev) && got <= React(c.cfg, c.nodes[id], ev).replies
    requires r in c.ledger.answers + got && q in c.ledger.answers + got && r.request == q.request
    ensures r == q
  {
    hide Poised, React, AnswersOne, Fresh;
    PoisedFacts(c, id, ev);
    ReactAnswers(c.cfg, c.nodes[id], ev);
    if r in got { var i := AnswerIsNew(c, id, ev, r); }
    if q in got { var i := AnswerIsNew(c, id, ev, q); }
  }

  lemma AnswersIssued(c: Cluster, id: Id, ev: Event, got: set<Reply>, r: Reply)
    requires Poised(c, id, ev) && got <= React(c.cfg, c.nodes[id], ev).replies && r in c.ledger.answers + got
    ensures r.request in c.ledger.issued + Issues(ev)
  {
    hide React, Poised;
    PoisedFacts(c, id, ev);
    if r in got { var i := AnswerIsNew(c, id, ev, r); }
  }

  /** The ledger stays tidy, whatever part of the reaction gets out. */
  lemma TidyAfter(c: Cluster, id: Id, ev: Event, o: Outcome)
    requires Poised(c, id, ev) && o.answers <= React(c.cfg, c.nodes[id], ev).replies
    ensures c.nodes[id].HasLog() && Tidy(Record(c.ledger, c.nodes[id], ev, o))
  {
    hide React, Poised, Fresh, Places, Issues, WaitsOk, Behind;
    PoisedFacts(c, id, ev);
    var g, n := c.ledger, c.nodes[id];
    var g' := Record(g, n, ev, o);
    forall r | r in g'.placed ensures r in g'.issued {
      if r !in g.placed { var j := PlacesOnly(g, n, ev, r); }
    }
    forall r, q | r in g'.placed && q in g'.placed && g'.placed[r] == g'.placed[q] ensures r == q {
      if o.placed { PlacesDistinct(c, id, ev, r, q); }
    }
    forall r, q | r in g'.answers && q in g'.answers && r.request == q.request ensures r == q {
      OneAnswer(c, id, ev, o.answers, r, q);
    }
    forall r | r in g'.answers ensures r.request in g'.issued { AnswersIssued(c, id, ev, o.answers, r); }
  }

  // ---------------------------------------------------------------- who waits

  lemma WaitsHere(g: Ledger, n: Node, ev: Event, e: Effect, got: set<Reply>, g': Ledger, i: nat)
    requires n.HasLog() && Fresh(g, ev) && WaitsOk(g, n) && (forall r :: r in g.placed ==> r in g.issued)
    requires (forall q :: q in g.answers ==> q.request in g.issued)
    requires AnswersFrom(n, e, n.pending + NewPending(n, ev), RefusedBy(n, ev)) && got <= e.replies
    requires g'.placed == g.placed + Places(n, ev) && g'.answers == g.answers + got && i in e.node.pending
    ensures e.node.pending[i] in g'.placed && g'.placed[e.node.pending[i]] == Slot(i, e.node.term)
    ensures forall r :: r in g'.answers ==> r.request != e.node.pending[i]
  {
    hide NewPending, Fresh, Places;
    WaitingPlaced(g, n, ev, i);
    forall r | r in g'.answers ensures r.request != e.node.pending[i] {
      if r in got {
        assert AnswersOne(e, r, n.pending + NewPending(n, ev), RefusedBy(n, ev));
        if k :| k in n.pending + NewPending(n, ev) && (n.pending + NewPending(n, ev))[k] == r.request && k !in e.node.pending {
          WaitingPlaced(g, n, ev, k);
        }
      }
    }
  }

  /** At the node that reacts. */
  lemma WaitsAfter(c: Cluster, id: Id, ev: Event, got: set<Reply>, g': Ledger)
    requires Poised(c, id, ev) && c.nodes[id].HasLog() && got <= React(c.cfg, c.nodes[id], ev).replies
    requires g'.placed == c.ledger.placed + Places(c.nodes[id], ev) && g'.answers == c.ledger.answers + got
    ensures WaitsOk(g', React(c.cfg, c.nodes[id], ev).node)
  {
    hide React, Poised, Fresh, AnswersOne;
    PoisedFacts(c, id, ev);
    var g, n := c.ledger, c.nodes[id];
    var e := React(c.cfg, n, ev);
    ReactAnswers(c.cfg, n, ev);
    forall i | i in e.node.pending
      ensures e.node.pending[i] in g'.placed && g'.placed[e.node.pending[i]] == Slot(i, e.node.term)
      ensures forall r :: r in g'.answers ==> r.request != e.node.pending[i]
    {
      WaitsHere(g, n, ev, e, got, g', i);
    }
  }

  lemma WaitsElsewhere(c: Cluster, id: Id, ev: Event, got: set<Reply>, g': Ledger, x: Id)
    requires Poised(c, id, ev) && got <= React(c.cfg, c.nodes[id], ev).replies && x in c.nodes && x != id
    requires c.nodes[id].HasLog() && g'.answers == c.ledger.answers + got
    requires g'.placed == c.ledger.placed || g'.placed == c.ledger.placed + Places(c.nodes[id], ev)
    ensures WaitsOk(g', c.nodes[x])
  {
    hide React, Fresh;
    PoisedFacts(c, id, ev);
    var g, n, m := c.ledger, c.nodes[id], c.nodes[x];
    assert NodeOrderly(g, m);
    hide Poised;
    forall i | i in m.pending
      ensures m.pending[i] in g'.placed && g'.placed[m.pending[i]] == Slot(i, m.term)
      ensures forall r :: r in g'.answers ==> r.request != m.pending[i]
    {
      OldPlaced(g, n, ev, m.pending[i]);
      forall r | r in g'.answers ensures r.request != m.pending[i] {
        if r in got { AnswerIsLocal(c, id, ev, r, x, i); }
      }
    }
  }

  lemma NobodyWaits(g: Ledger, n: Node)
    requires n.pending == map[]
    ensures WaitsOk(g, n)
  {
  }

  lemma PositiveSlot(g: Ledger, n: Node, ev: Event, e: Effect, r: Reply) returns (i: nat)
    requires n.HasLog() && Fresh(g, ev) && WaitsOk(g, n) && (forall r :: r in g.placed ==> r in g.issued)
    requires AnswersOne(e, r, n.pending + NewPending(n, ev), RefusedBy(n, ev)) && r.ok
    ensures i <= e.node.commit
    ensures r.request in g.placed + Places(n, ev) && (g.placed + Places(n, ev))[r.request] == Slot(i, n.term)
  {
    i :| i in n.pending + NewPending(n, ev) && (n.pending + NewPending(n, ev))[i] == r.request && i <= e.node.commit;
    WaitingPlaced(g, n, ev, i);
  }
}
