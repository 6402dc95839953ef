/**
What becomes of every request, wherever crashes cut in: an answer, waiting at the
leader that took it, or the crash of the node that had it. And what a positive
answer rests on: the leader of the request's term has applied the very entry that
it appended for it.
*/
module RaftAccounts {
  import opened Quorum
  import opened Master
  import opened RaftProtocol
  import opened RaftNode
  import opened RaftReplies
  import opened RaftCrash
  import opened RaftCluster
  import opened RaftElections
  import opened RaftPlaces

  ghost predicate WaitsAt(c: Cluster, id: Id, k: nat, r: Request) {
    id in c.nodes && k in c.nodes[id].pending && c.nodes[id].pending[k] == r
  }

  ghost predicate Waits(c: Cluster, r: Request) {
    exists id, k :: WaitsAt(c, id, k, r)
  }

  /** The deed that entitles a client to a positive answer: its entry, applied by the leader that took it. */
  ghost predicate Entitles(g: Ledger, d: Deed, r: Request) {
    && d in g.applied && r in g.placed && r in g.issued
    && d.index == g.placed[r].index && d.entry == Entry(g.placed[r].term, g.issued[r])
    && d.term == g.placed[r].term && d.role == Leader
  }

  ghost predicate DoneFor(g: Ledger, r: Request) {
    exists d :: Entitles(g, d, r)
  }

  ghost predicate AccountedFor(c: Cluster, r: Request) {
    r in c.ledger.lost || Answered(c.ledger.answers, r) || Waits(c, r)
  }

  ghost predicate Gone(c: Cluster, r: Request) {
    r in c.ledger.issued && !Answered(c.ledger.answers, r) && !Waits(c, r)
  }

  ghost predicate Accounts(c: Cluster) {
    && (forall a :: a in c.ledger.answers && a.ok ==> DoneFor(c.ledger, a.request))
    && (forall r :: r in c.ledger.issued ==> AccountedFor(c, r))
    && (forall r :: r in c.ledger.lost ==> Gone(c, r))
  }

  // ---------------------------------------------------------------- one step, complete or cut

  /** Who was held or is new waits on, has an answer, or is lost; nobody else waits. */
  ghost predicate Hands(held: map<nat, Request>, news: map<Request, Command>, n': Node, o: Outcome) {
    && (forall k :: k in held ==>
          (k in n'.pending && n'.pending[k] == held[k]) || Answered(o.answers, held[k]) || held[k] in o.lost)
    && (forall k :: k in n'.pending ==> k in held && n'.pending[k] == held[k])
    && (forall r :: r in news ==> r in n'.pending.Values || Answered(o.answers, r) || r in o.lost)
    && (forall r :: r in o.lost ==> n'.pending == map[] && (r in held.Values || r in news) && !Answered(o.answers, r))
  }

  /** Node `id` reacts to `ev`, is `n'` afterwards, and `o` gets out. */
  ghost predicate Turn(c: Cluster, id: Id, ev: Event, n': Node, o: Outcome) {
    && Poised(c, id, ev)
    && o.answers <= React(c.cfg, c.nodes[id], ev).replies
    && o.applied <= Deeds(React(c.cfg, c.nodes[id], ev))
    && (forall r :: r in o.answers && r.ok ==> o.placed && BackedUp(Waiting(c.nodes[id], ev), o, r))
    && Comes(c.cfg, c.nodes[id], ev, n') && Caught(n')
    && (n'.pending == map[] || (o.placed && n' == React(c.cfg, c.nodes[id], ev).node))
    && Hands(Held(c.nodes[id], ev, o.placed), Issues(ev), n', o)
  }

  lemma ReadyNode(c: Cluster, id: Id, ev: Event)
    requires Poised(c, id, ev)
    ensures id in c.nodes && c.nodes[id].HasLog()
  {
    hide Fresh, WaitsOk;
    PoisedFacts(c, id, ev);
  }

  lemma WholeTurn(c: Cluster, id: Id, ev: Event)
    requires Poised(c, id, ev) && Caught(c.nodes[id])
    ensures var e := React(c.cfg, c.nodes[id], ev); Turn(c, id, ev, e.node, Whole(e))
  {
    hide React, Poised, Fresh, Waiting;
    PoisedFacts(c, id, ev);
    var n := c.nodes[id];
    var e := React(c.cfg, n, ev);
    ReactServes(c.cfg, n, ev);
    ReactCaught(c.cfg, n, ev);
    var o, waiting := Whole(e), Waiting(n, ev);
    forall r | r in o.answers && r.ok ensures BackedUp(waiting, o, r) {
      var a :| a in e.applies && a.index in waiting && waiting[a.index] == r.request;
      assert Deed(a.index, a.entry, e.node.id, e.node.role, e.node.term) in o.applied;
    }
    forall k | k in waiting
      ensures (k in e.node.pending && e.node.pending[k] == waiting[k]) || Answered(o.answers, waiting[k]) {
      assert Attended(e, k, waiting);
    }
    forall r | r in Issues(ev) ensures r in e.node.pending.Values || Answered(o.answers, r) {
      NewServed(c, id, ev, r);
    }
  }

  /** Whoever comes with the event waits afterwards or is answered. */
  lemma NewServed(c: Cluster, id: Id, ev: Event, r: Request)
    requires Poised(c, id, ev) && r in Issues(ev)
    ensures var e := React(c.cfg, c.nodes[id], ev); r in e.node.pending.Values || Answered(e.replies, r)
  {
    hide Poised, Fresh, Waiting, Commands, CommitIfAlone;
    PoisedFacts(c, id, ev);
    var n := c.nodes[id];
    CommandsOnly(ev.requests, r);
    var j :| 0 <= j < |ev.requests| && ev.requests[j].request == r;
    if n.role == Leader {
        ReactServes(c.cfg, n, ev);
      assert r in Places(n, ev) by { InPlaces(c.ledger, n, ev, j); }
      var k := NewWaits(c, id, ev, r);
      assert Attended(React(c.cfg, n, ev), k, Waiting(n, ev));
    } else {
      assert ev.requests[j] in ev.requests;
      assert Reply(r, false) in React(c.cfg, n, ev).replies;
    }
  }

  lemma InPlaces(g: Ledger, n: Node, ev: Event, j: nat)
    requires n.HasLog() && n.role == Leader && Fresh(g, ev) && ev.Clients? && j < |ev.requests|
    ensures ev.requests[j].request in Places(n, ev)
  {
    SlotsAt(ev.requests, n.LastIndex() + 1, n.term, j);
  }

  lemma CutTurn(c: Cluster, id: Id, ev: Event, n': Node, k: nat, o: Outcome)
    requires Poised(c, id, ev) && n'.pending == map[] && n'.role == Follower && n'.term >= c.nodes[id].term && Caught(n')
    requires k <= |React(c.cfg, c.nodes[id], ev).writes| && Partial(c.nodes[id], ev, React(c.cfg, c.nodes[id], ev), k, o)
    ensures Turn(c, id, ev, n', o)
  {
    hide React, Poised, Waiting, Deeds, BackedUp;
    ReadyNode(c, id, ev);
    var held := Held(c.nodes[id], ev, o.placed);
    forall i | i in held ensures Answered(o.answers, held[i]) || held[i] in o.lost { assert held[i] in held.Values; }
  }

  // ---------------------------------------------------------------- what a step keeps

  /** Slots and answers of old requests stay. */
  lemma OldKept(c: Cluster, id: Id, ev: Event, n': Node, o: Outcome, r: Request)
    requires Poised(c, id, ev) && r in c.ledger.placed
    ensures var g' := After(c, id, ev, n', o).ledger; r in g'.placed && g'.placed[r] == c.ledger.placed[r]
    ensures r in c.ledger.issued && r !in Places(c.nodes[id], ev) && r !in Issues(ev)
  {
    hide React, Poised, Fresh, WaitsOk;
    PoisedFacts(c, id, ev);
    OldPlaced(c.ledger, c.nodes[id], ev, r);
  }

  lemma DoneAfter(c: Cluster, poll: Poll, id: Id, ev: Event, n': Node, o: Outcome, a: Reply)
    requires Turn(c, id, ev, n', o) && Accounts(c) && Polled(c, poll) && SlotsLed(c, poll)
    requires a in After(c, id, ev, n', o).ledger.answers && a.ok
    ensures DoneFor(After(c, id, ev, n', o).ledger, a.request)
  {
    hide React, Poised, Hands, Places, Issues;
    ReadyNode(c, id, ev);
    var g, g' := c.ledger, After(c, id, ev, n', o).ledger;
    if a in g.answers {
      var d :| Entitles(g, d, a.request);
      OldKept(c, id, ev, n', o, a.request);
      assert Entitles(g', d, a.request);
    } else {
      NewlyDone(c, poll, id, ev, n', o, a);
    }
  }

  lemma NewlyDone(c: Cluster, poll: Poll, id: Id, ev: Event, n': Node, o: Outcome, a: Reply)
    requires Turn(c, id, ev, n', o) && a in o.answers && a.ok && Polled(c, poll) && SlotsLed(c, poll)
    ensures DoneFor(After(c, id, ev, n', o).ledger, a.request)
  {
    hide React, Poised, Hands, Places, Issues, Fresh, NewPending, Polled, SlotsLed, Deeds, Comes;
    PoisedFacts(c, id, ev);
    var n := c.nodes[id];
    var waiting := Waiting(n, ev);
    var d :| d in o.applied && d.index in waiting && waiting[d.index] == a.request;
    hide BackedUp, Hands;
    WaiterDone(c, poll, id, ev, d, a);
    assert Entitles(After(c, id, ev, n', o).ledger, d, a.request);
  }

  /** The deed behind a positive answer applied the client's own entry. */
  lemma WaiterDone(c: Cluster, poll: Poll, id: Id, ev: Event, d: Deed, a: Reply)
    requires Poised(c, id, ev) && c.nodes[id].HasLog() && Polled(c, poll) && SlotsLed(c, poll)
    requires var e := React(c.cfg, c.nodes[id], ev); d in Deeds(e) && a in e.replies && a.ok
    requires d.index in Waiting(c.nodes[id], ev) && Waiting(c.nodes[id], ev)[d.index] == a.request
    ensures var placed, issued := c.ledger.placed + Places(c.nodes[id], ev), c.ledger.issued + Issues(ev);
            && a.request in placed && a.request in issued && placed[a.request] == Slot(d.index, d.term)
            && d.entry == Entry(d.term, issued[a.request]) && d.role == Leader
  {
    hide React, Poised, Places, Issues, Fresh, AnswersOne, NewPending, Polled, SlotsLed, Deeds, Behind;
    PoisedFacts(c, id, ev);
    var n := c.nodes[id];
    ReactAnswers(c.cfg, n, ev);
    WaitingPlaced(c.ledger, n, ev, d.index);
    hide WaitsOk, Tidy;
    PlaceHolds(c, poll, id, ev, a.request);
    DeedEntry(c.cfg, n, ev, d);
  }

  /** What a deed applied is the entry of the log. */
  lemma DeedEntry(cfg: ClusterConfiguration, n: Node, ev: Event, d: Deed)
    requires n.HasLog() && CommitKnown(n) && d in Deeds(React(cfg, n, ev))
    ensures var n' := React(cfg, n, ev).node;
            && d.role == n'.role && d.term == n'.term && d.node == n'.id
            && 0 < d.index - n'.snapIndex < |n'.log| && d.entry == n'.log[d.index - n'.snapIndex]
  {
    hide React;
    var e := React(cfg, n, ev);
    ReactApplies(cfg, n, ev);
    var a :| a in e.applies && d == Deed(a.index, a.entry, e.node.id, e.node.role, e.node.term);
    var j :| 0 <= j < |e.applies| && e.applies[j] == a;
    assert AppliesAt(n, e, j);
  }

  /** A new request does not displace one that already waits. */
  lemma StillWaiting(c: Cluster, id: Id, ev: Event, k: nat)
    requires Poised(c, id, ev) && k in c.nodes[id].pending
    ensures k in Waiting(c.nodes[id], ev) && Waiting(c.nodes[id], ev)[k] == c.nodes[id].pending[k]
    ensures c.nodes[id].pending[k] in c.ledger.placed && c.ledger.placed[c.nodes[id].pending[k]] == Slot(k, c.nodes[id].term)
  {
    hide React, Poised, Fresh, NewPending, Places;
    PoisedFacts(c, id, ev);
    var n := c.nodes[id];
    var r := n.pending[k];
    if k in NewPending(n, ev) {
      NewWaitingPlaced(c.ledger, n, ev, k);
      PlaceIsFree(c, id, ev, NewPending(n, ev)[k], r);
    }
  }

  /** Every new request waits at its slot during the reaction. */
  lemma NewWaits(c: Cluster, id: Id, ev: Event, r: Request) returns (k: nat)
    requires Poised(c, id, ev) && r in Places(c.nodes[id], ev)
    ensures k in Waiting(c.nodes[id], ev) && Waiting(c.nodes[id], ev)[k] == r
  {
    hide React, Poised, Fresh, WaitsOk, Places;
    PoisedFacts(c, id, ev);
    var n := c.nodes[id];
    var j := PlacesOnly(c.ledger, n, ev, r);
    k := n.LastIndex() + 1 + j;
    assert NewPending(n, ev)[k] == RequestsOf(ev.requests)[j];
  }

  /** Who is held comes out accounted for. */
  lemma HeldAccounted(c: Cluster, id: Id, ev: Event, n': Node, o: Outcome, k: nat)
    requires id in c.nodes && c.nodes[id].HasLog() && Hands(Held(c.nodes[id], ev, o.placed), Issues(ev), n', o)
    requires k in Held(c.nodes[id], ev, o.placed)
    ensures AccountedFor(After(c, id, ev, n', o), Held(c.nodes[id], ev, o.placed)[k])
  {
    hide Places, Issues, Held;
    var c' := After(c, id, ev, n', o);
    var r := Held(c.nodes[id], ev, o.placed)[k];
    if k in n'.pending && n'.pending[k] == r { assert WaitsAt(c', id, k, r); }
  }

  lemma IssuedAccounted(c: Cluster, id: Id, ev: Event, n': Node, o: Outcome, r: Request)
    requires Turn(c, id, ev, n', o) && Accounts(c) && r in After(c, id, ev, n', o).ledger.issued
    ensures AccountedFor(After(c, id, ev, n', o), r)
  {
    hide React, Poised, Places, Issues, Waiting, Gone, DoneFor;
    ReadyNode(c, id, ev);
    var c', n := After(c, id, ev, n', o), c.nodes[id];
    if r in c.ledger.issued {
      assert AccountedFor(c, r);
      if Waits(c, r) {
        var x, k :| WaitsAt(c, x, k, r);
        if x == id {
          StillWaiting(c, id, ev, k);
          HeldAccounted(c, id, ev, n', o, k);
        } else {
          assert WaitsAt(c', x, k, r);
        }
      }
    } else if k :| k in n'.pending && n'.pending[k] == r {
      assert WaitsAt(c', id, k, r);
    }
  }

  /** Who is held is unanswered so far. */
  lemma HeldUnanswered(c: Cluster, id: Id, ev: Event, n': Node, o: Outcome, k: nat)
    requires Poised(c, id, ev) && k in Held(c.nodes[id], ev, o.placed)
    ensures var r := Held(c.nodes[id], ev, o.placed)[k];
            && r in After(c, id, ev, n', o).ledger.issued && !Answered(c.ledger.answers, r)
            && (r in c.ledger.issued ==> WaitsAt(c, id, k, r))
  {
    hide React, Poised, Fresh, NewPending, Places, Issues;
    PoisedFacts(c, id, ev);
    if o.placed { WaitingPlaced(c.ledger, c.nodes[id], ev, k); }
  }

  /** Only somebody who waits, or comes with the event, is answered ... */
  lemma AnsweredWaited(c: Cluster, id: Id, ev: Event, o: Outcome, r: Request)
    requires Poised(c, id, ev) && o.answers <= React(c.cfg, c.nodes[id], ev).replies
    requires r in c.ledger.issued && Answered(o.answers, r)
    ensures Waits(c, r)
  {
    hide React, Poised;
    var a := if Reply(r, true) in o.answers then Reply(r, true) else Reply(r, false);
    var i := AnswerIsNew(c, id, ev, a);
    ReadyNode(c, id, ev);
    assert WaitsAt(c, id, i, r);
  }

  /** ... or waits afterwards. */
  lemma WaitsWaited(c: Cluster, id: Id, ev: Event, n': Node, o: Outcome, r: Request)
    requires Turn(c, id, ev, n', o) && r in c.ledger.issued && Waits(After(c, id, ev, n', o), r)
    ensures Waits(c, r)
  {
    hide React, Poised, Places, Issues, Held, Deeds, BackedUp;
    ReadyNode(c, id, ev);
    var x, k :| WaitsAt(After(c, id, ev, n', o), x, k, r);
    if x == id { HeldUnanswered(c, id, ev, n', o, k); } else { assert WaitsAt(c, x, k, r); }
  }

  /** A lost request stays so: nobody answers it, and it waits nowhere. */
  lemma OldLost(c: Cluster, id: Id, ev: Event, n': Node, o: Outcome, r: Request)
    requires Turn(c, id, ev, n', o) && Accounts(c) && r in c.ledger.lost
    ensures Gone(After(c, id, ev, n', o), r)
  {
    hide React, Poised, Places, Issues, Hands, DoneFor, AccountedFor, Deeds, BackedUp, Waits;
    ReadyNode(c, id, ev);
    assert Gone(c, r);
    if Answered(o.answers, r) { AnsweredWaited(c, id, ev, o, r); }
    if Waits(After(c, id, ev, n', o), r) { WaitsWaited(c, id, ev, n', o, r); }
  }

  lemma NewLost(c: Cluster, id: Id, ev: Event, n': Node, o: Outcome, r: Request)
    requires Turn(c, id, ev, n', o) && r in o.lost
    ensures Gone(After(c, id, ev, n', o), r)
  {
    hide React, Places, Issues, Held, DoneFor, AccountedFor, Deeds, BackedUp, Fresh;
    var c' := After(c, id, ev, n', o);
    var held := Held(c.nodes[id], ev, o.placed);
    if r in Issues(ev) {
      NewUnknown(c, id, ev, r);
      if Waits(c', r) {
        var x, j :| WaitsAt(c', x, j, r);
        assert x != id;
        WaiterIssued(c, x, j);
      }
    } else {
      var k :| k in held && held[k] == r;
      HeldUnanswered(c, id, ev, n', o, k);
      if Waits(c', r) {
        var x, j :| WaitsAt(c', x, j, r);
        assert x != id;
        WaiterIssued(c, x, j);
        NotWaitingTwice(c, x, j, id, k);
      }
    }
  }

  /** Nothing is known of a new request yet. */
  lemma NewUnknown(c: Cluster, id: Id, ev: Event, r: Request)
    requires Poised(c, id, ev) && r in Issues(ev)
    ensures r !in c.ledger.issued && !Answered(c.ledger.answers, r)
  {
    hide Poised, Fresh, WaitsOk, Issues;
    PoisedFacts(c, id, ev);
    IssuesNew(c.ledger, ev, r);
  }

  lemma TurnAccounts(c: Cluster, poll: Poll, id: Id, ev: Event, n': Node, o: Outcome)
    requires Turn(c, id, ev, n', o) && Accounts(c) && Polled(c, poll) && SlotsLed(c, poll)
    ensures Accounts(After(c, id, ev, n', o))
  {
    hide Turn, Polled, SlotsLed, AccountedFor, Gone, DoneFor, Places, Issues;
    assert id in c.nodes && c.nodes[id].HasLog() by { TurnNode(c, id, ev, n', o); }
    var c' := After(c, id, ev, n', o);
    forall a | a in c'.ledger.answers && a.ok ensures DoneFor(c'.ledger, a.request) { DoneAfter(c, poll, id, ev, n', o, a); }
    forall r | r in c'.ledger.issued ensures AccountedFor(c', r) { IssuedAccounted(c, id, ev, n', o, r); }
    forall r | r in c'.ledger.lost ensures Gone(c', r) {
      if r in c.ledger.lost { OldLost(c, id, ev, n', o, r); } else { NewLost(c, id, ev, n', o, r); }
    }
  }

  lemma TurnNode(c: Cluster, id: Id, ev: Event, n': Node, o: Outcome)
    requires Turn(c, id, ev, n', o)
    ensures id in c.nodes && c.nodes[id].HasLog()
  {
    hide React, Hands, Deeds, BackedUp, Fresh;
  }

  // ---------------------------------------------------------------- every run

  /** The poll, the books and the accounts fit together. */
  ghost predicate Ordered(c: Cluster, poll: Poll) {
    && Polled(c, poll) && Orderly(c) && SlotsLed(c, poll) && DeedsLed(c, poll) && Accounts(c)
    && forall id :: id in c.nodes ==> Caught(c.nodes[id])
  }

  lemma TurnOrderly(c: Cluster, poll: Poll, id: Id, ev: Event, n': Node, o: Outcome, poll': Poll)
    requires Ordered(c, poll) && Turn(c, id, ev, n', o) && PollGrows(poll, poll') && c.nodes[id].HasLog()
    requires Polled(After(c, id, ev, n', o), poll')
    ensures Orderly(After(c, id, ev, n', o)) && SlotsLed(After(c, id, ev, n', o), poll')
  {
    hide React, Polled, PollGrows, SlotsLed, DeedsLed, Accounts, WaitsOk, Behind, Tidy, OneLeaderEach, Hands, Comes, Places, Issues, Poised, Deeds, BackedUp;
    assert id in c.nodes by { TurnNode(c, id, ev, n', o); }
    var c' := After(c, id, ev, n', o);
    SlotsAfter(c, poll, id, ev, n', o, poll');
    LeadersAhead(c', poll');
    TidyAfter(c, id, ev, o);
    forall x | x in c'.nodes ensures NodeOrderly(c'.ledger, c'.nodes[x]) {
      if x != id { WaitsElsewhere(c, id, ev, o.answers, c'.ledger, x); }
      else if n'.pending == map[] { NobodyWaits(c'.ledger, n'); }
      else { WaitsAfter(c, id, ev, o.answers, c'.ledger); }
    }
  }

  lemma TurnOrdered(c: Cluster, poll: Poll, id: Id, ev: Event, n': Node, o: Outcome, poll': Poll)
    requires Ordered(c, poll) && Turn(c, id, ev, n', o) && PollGrows(poll, poll') && c.nodes[id].HasLog()
    requires Polled(After(c, id, ev, n', o), poll') && DeedsLed(After(c, id, ev, n', o), poll')
    ensures Ordered(After(c, id, ev, n', o), poll')
  {
    TurnOrderly(c, poll, id, ev, n', o, poll');
    hide React, Polled, PollGrows, SlotsLed, DeedsLed, Accounts, Orderly, Hands, Comes, Places, Issues, Poised, Deeds, BackedUp, Held;
    TurnAccounts(c, poll, id, ev, n', o);
  }

  lemma HappensTurn(c: Cluster, poll: Poll, c': Cluster, h: Happening) returns (o: Outcome)
    requires Ordered(c, poll) && Happens(c, c', h)
    ensures h.id in c'.nodes && Turn(c, h.id, h.event, c'.nodes[h.id], o) && c.nodes[h.id].HasLog()
    ensures c' == After(c, h.id, h.event, c'.nodes[h.id], o)
  {
    hide React, Fresh, Enabled, Accounts, Partial, Turn, Boot, Polled, SlotsLed, DeedsLed, Orderly, Record;
    var id, ev, n := h.id, h.event, c.nodes[h.id];
    var e := React(c.cfg, n, ev);
    assert Poised(c, id, ev);
    match h
    case Reacts(_, _) =>
      o := Whole(e);
      WholeTurn(c, id, ev);
    case Crashes(_, _, k, out) =>
      o := out;
      var db := ApplyWrites(n.db, e.writes[..k]);
      assert NodePolled(c.cfg, poll, id, n) by { ThisPolled(c, poll, id); }
      RestartTerm(c.cfg, n, ev, k);
      CutTurn(c, id, ev, Boot(c.cfg, id, db), k, o);
  }

  lemma ThisPolled(c: Cluster, poll: Poll, id: Id)
    requires Polled(c, poll) && id in c.nodes
    ensures NodePolled(c.cfg, poll, id, c.nodes[id])
  {
    hide NodePolled;
  }

  /** A restarted node follows, in its old term or a later one, and nobody waits at it. */
  lemma RestartTerm(cfg: ClusterConfiguration, n: Node, ev: Event, k: nat)
    requires n.HasLog() && Saved(n) && k <= |React(cfg, n, ev).writes|
    ensures var b := Boot(cfg, n.id, ApplyWrites(n.db, React(cfg, n, ev).writes[..k]));
            b.pending == map[] && b.role == Follower && b.term >= n.term && Caught(b)
  {
    hide React, Proper, AllMembers, ApplyWrites;
    ReactProper(cfg, n, ev);
    PrefixSteady(n, React(cfg, n, ev).writes, k);
  }

  lemma AdvanceOrdered(c: Cluster, poll: Poll, c': Cluster) returns (poll': Poll)
    requires Ordered(c, poll) && Advances(c, c', AnyPoint)
    ensures Ordered(c', poll') && PollGrows(poll, poll')
  {
    hide Polled, PollGrows, React, Turn, SlotsLed, DeedsLed, Accounts, Orderly, After, Noting, Fresh, Partial, Boot;
    var h :| Happens(c, c', h) && Admitted(c, h, AnyPoint);
    hide Happens;
    var o := HappensTurn(c, poll, c', h);
    HappensPolled(c, poll, c', h);
    DeedsAfter(c, poll, c', h);
    poll' := Noting(poll, h.id, c'.nodes[h.id]);
    TurnOrdered(c, poll, h.id, h.event, c'.nodes[h.id], o, poll');
  }

  lemma StartOrdered(c: Cluster)
    requires Start(c)
    ensures Ordered(c, map[])
  {
    StartPolled(c);
    hide AllMembers, LoadEntries, Polled;
    LeadersAhead(c, map[]);
    forall id | id in c.nodes ensures Caught(c.nodes[id]) && NodeOrderly(c.ledger, c.nodes[id]) {
      assert StartsBlank(c, id);
    }
  }

  ghost predicate OrdersAll(cs: seq<Cluster>, polls: seq<Poll>) {
    && |polls| == |cs|
    && (forall i :: 0 <= i < |cs| ==> Ordered(cs[i], polls[i]))
    && (forall i, j :: 0 <= i <= j < |cs| ==> PollGrows(polls[i], polls[j]))
  }

  /** Every run is in order, wherever crashes cut in. */
  lemma {:induction false} RunsOrdered(cs: seq<Cluster>) returns (polls: seq<Poll>)
    requires Runs(cs, AnyPoint)
    ensures OrdersAll(cs, polls)
    decreases |cs|
  {
    hide Ordered, Advances, Start;
    if |cs| == 1 {
      StartOrdered(cs[0]);
      polls := [map[]];
    } else {
      var k := |cs| - 1;
      var cs0 := cs[..k];
      assert Runs(cs0, AnyPoint) by {
        forall i | 0 < i < |cs0| ensures AdvanceAt(cs0, i, AnyPoint) { assert AdvanceAt(cs, i, AnyPoint); }
      }
      var ps := RunsOrdered(cs0);
      assert AdvanceAt(cs, k, AnyPoint) && cs0[k - 1] == cs[k - 1];
      var p := AdvanceOrdered(cs[k - 1], ps[k - 1], cs[k]);
      polls := ps + [p];
      forall i, j | 0 <= i <= j < |cs| ensures PollGrows(polls[i], polls[j]) {
        if i < k && j == k { assert PollGrows(ps[i], ps[k - 1]); }
      }
    }
  }

  lemma RunsOrderly(cs: seq<Cluster>, i: nat)
    requires Runs(cs, AnyPoint) && i < |cs|
    ensures Orderly(cs[i]) && Accounts(cs[i])
  {
    hide Runs, Orderly, Accounts;
    var polls := RunsOrdered(cs);
    assert Ordered(cs[i], polls[i]);
  }

  // ---------------------------------------------------------------- along an execution

  /** Nothing in the ledger is ever taken back. */
  ghost predicate LedgerStays(g: Ledger, g': Ledger) {
    && (forall r :: r in g.issued ==> r in g'.issued && g'.issued[r] == g.issued[r])
    && (forall r :: r in g.placed ==> r in g'.placed && g'.placed[r] == g.placed[r])
    && g.applied <= g'.applied && g.answers <= g'.answers && g.lost <= g'.lost
  }

  lemma TurnStays(c: Cluster, id: Id, ev: Event, n': Node, o: Outcome)
    requires Poised(c, id, ev)
    ensures id in c.nodes && c.nodes[id].HasLog() && LedgerStays(c.ledger, After(c, id, ev, n', o).ledger)
  {
    hide React, Poised, Places, Issues, Fresh, WaitsOk;
    PoisedFacts(c, id, ev);
    var g' := After(c, id, ev, n', o).ledger;
    forall r | r in c.ledger.placed ensures r in g'.placed && g'.placed[r] == c.ledger.placed[r] {
      OldKept(c, id, ev, n', o, r);
    }
    forall r | r in c.ledger.issued ensures r in g'.issued && g'.issued[r] == c.ledger.issued[r] {
      if r in Issues(ev) { IssuesNew(c.ledger, ev, r); }
    }
  }

  lemma AdvanceStays(c: Cluster, c': Cluster)
    requires Orderly(c) && Advances(c, c', AnyPoint)
    ensures LedgerStays(c.ledger, c'.ledger)
  {
    hide Orderly, React, Fresh, Enabled, Partial, Boot, Admitted, LedgerStays, After;
    var h :| Happens(c, c', h);
    match h
    case Reacts(id, ev) =>
      var e := React(c.cfg, c.nodes[id], ev);
      TurnStays(c, id, ev, e.node, Whole(e));
    case Crashes(id, ev, k, o) =>
      var e := React(c.cfg, c.nodes[id], ev);
      TurnStays(c, id, ev, Boot(c.cfg, id, ApplyWrites(c.nodes[id].db, e.writes[..k])), o);
  }

  lemma {:induction false} LedgerNeverShrinks(cs: seq<Cluster>, i: nat, j: nat)
    requires Runs(cs, AnyPoint) && i <= j < |cs|
    ensures LedgerStays(cs[i].ledger, cs[j].ledger)
  {
    hide Orderly, Advances;
    if i < j {
      LedgerNeverShrinks(cs, i, j - 1);
      RunsOrderly(cs, j - 1);
      assert AdvanceAt(cs, j, AnyPoint);
      AdvanceStays(cs[j - 1], cs[j]);
    }
  }
}
