/**
What holds for clients over every run, wherever crashes cut in, even where they tear
logs: a positive answer is backed by the client's own entry, nobody is answered twice
or forgotten, and whoever waits is told when the leader stops leading.
*/
module RaftClients {
  import opened Quorum
  import opened RaftProtocol
  import opened RaftNode
  import opened RaftReplies
  import opened RaftCrash
  import opened RaftCluster
  import opened RaftElections
  import opened RaftPlaces
  import opened RaftAccounts

  // ---------------------------------------------------------------- answers

  /** A client hears Ok only if the very entry appended for it was applied, by the only leader
      there ever is of the term in which it was appended. */
  lemma AnsweredIsApplied(cs: seq<Cluster>, i: nat, r: Reply) returns (d: Deed)
    requires Runs(cs, AnyPoint) && i < |cs| && r in cs[i].ledger.answers && r.ok
    ensures var g := cs[i].ledger;
            && r.request in g.issued && r.request in g.placed && d in g.applied
            && var s := g.placed[r.request];
               && d.index == s.index && d.entry == Entry(s.term, g.issued[r.request])
               && d.role == Leader && d.term == s.term
    ensures forall j, b :: 0 <= j < |cs| && b in cs[j].nodes && cs[j].nodes[b].role == Leader && cs[j].nodes[b].term == d.term ==>
              b == d.node
  {
    hide Runs, Orderly, Accounts;
    RunsOrderly(cs, i);
    d := TheDeed(cs[i], r);
    forall j, b | 0 <= j < |cs| && b in cs[j].nodes && cs[j].nodes[b].role == Leader && cs[j].nodes[b].term == d.term
      ensures b == d.node {
      DoerLeads(cs, i, d, j, b);
    }
  }

  lemma TheDeed(c: Cluster, r: Reply) returns (d: Deed)
    requires Accounts(c) && r in c.ledger.answers && r.ok
    ensures Entitles(c.ledger, d, r.request)
  {
    assert DoneFor(c.ledger, r.request);
    d :| Entitles(c.ledger, d, r.request);
  }

  /** Who applied something as leader of a term is the only leader of that term, ever. */
  lemma DoerLeads(cs: seq<Cluster>, i: nat, d: Deed, j: nat, b: Id)
    requires Runs(cs, AnyPoint) && i < |cs| && d in cs[i].ledger.applied && d.role == Leader
    requires j < |cs| && b in cs[j].nodes && cs[j].nodes[b].role == Leader && cs[j].nodes[b].term == d.term
    ensures b == d.node
  {
    hide Runs, Orderly, Accounts, SlotsLed, ElectedBy, AllMembers, Support, PollGrows;
    var polls := RunsOrdered(cs);
    assert Ordered(cs[i], polls[i]) && Ordered(cs[j], polls[j]);
    assert NodePolled(cs[j].cfg, polls[j], b, cs[j].nodes[b]);
    if i <= j {
      SameMembers(cs, i, j);
      ElectedStays(cs[i].cfg, polls[i], polls[j], d.term, d.node);
      OneElected(cs[j].cfg, polls[j], d.term, d.node, b);
    } else {
      SameMembers(cs, j, i);
      ElectedStays(cs[j].cfg, polls[j], polls[i], d.term, b);
      OneElected(cs[i].cfg, polls[i], d.term, d.node, b);
    }
  }

  /** And that node has led the term since: at every earlier moment from the placing on, the
      client was waiting there. */
  lemma AnsweredSince(cs: seq<Cluster>, i: nat, r: Reply, j: nat) returns (d: Deed)
    requires Runs(cs, AnyPoint) && i < |cs| && r in cs[i].ledger.answers && r.ok
    requires j <= i && r.request in cs[j].ledger.placed && !Answered(cs[j].ledger.answers, r.request)
    ensures r.request in cs[i].ledger.placed && Entitles(cs[i].ledger, d, r.request)
    ensures d.node in cs[j].nodes && cs[j].nodes[d.node].role == Leader && cs[j].nodes[d.node].term == d.term
    ensures WaitsAt(cs[j], d.node, d.index, r.request)
  {
    hide Runs, Accounts;
    d := AnsweredIsApplied(cs, i, r);
    LedgerNeverShrinks(cs, j, i);
    RunsOrderly(cs, i);
    RunsOrderly(cs, j);
    var x, k := StillThere(cs[j], cs[i], r);
    WaiterIssued(cs[j], x, k);
  }

  lemma StillThere(c: Cluster, c': Cluster, r: Reply) returns (x: Id, k: nat)
    requires Accounts(c) && Accounts(c') && LedgerStays(c.ledger, c'.ledger)
    requires r in c'.ledger.answers && r.request in c.ledger.issued && !Answered(c.ledger.answers, r.request)
    ensures WaitsAt(c, x, k, r.request)
  {
    assert r == Reply(r.request, r.ok);
    assert AccountedFor(c, r.request);
    assert r.request in c'.ledger.lost ==> Gone(c', r.request);
    x, k :| WaitsAt(c, x, k, r.request);
  }

  /** Nobody is forgotten: every request ever handed in is in exactly one of three places. It
      waits at the leader that took it, it has its answer, or the node that had it crashed. */
  lemma NobodyForgotten(cs: seq<Cluster>, i: nat, r: Request)
    requires Runs(cs, AnyPoint) && i < |cs| && r in cs[i].ledger.issued
    ensures var c := cs[i];
            && (Waits(c, r) || Answered(c.ledger.answers, r) || r in c.ledger.lost)
            && !(Waits(c, r) && Answered(c.ledger.answers, r))
            && !(Waits(c, r) && r in c.ledger.lost)
            && !(Answered(c.ledger.answers, r) && r in c.ledger.lost)
  {
    hide Runs, Orderly;
    RunsOrderly(cs, i);
    assert AccountedFor(cs[i], r);
    assert r in cs[i].ledger.lost ==> Gone(cs[i], r);
    if Waits(cs[i], r) {
      var x, k :| WaitsAt(cs[i], x, k, r);
      WaiterIssued(cs[i], x, k);
    }
  }

  /** The answers that a happening hands out. */
  ghost function Given(c: Cluster, h: Happening): set<Reply>
    requires h.id in c.nodes && c.nodes[h.id].HasLog()
  {
    match h
    case Reacts(id, ev) => React(c.cfg, c.nodes[id], ev).replies
    case Crashes(_, _, _, o) => o.answers
  }

  /** Nobody is answered twice: whoever gets an answer has none yet, gets only this one, and
      waits at no more than one index of one node. */
  lemma OneAnswerEach(cs: seq<Cluster>, i: nat, h: Happening, r: Reply)
    requires Runs(cs, AnyPoint) && i + 1 < |cs| && Happens(cs[i], cs[i + 1], h) && r in Given(cs[i], h)
    ensures !Answered(cs[i].ledger.answers, r.request)
    ensures forall q :: q in Given(cs[i], h) && q.request == r.request ==> q == r
    ensures forall x, j, y, k :: WaitsAt(cs[i], x, j, r.request) && WaitsAt(cs[i], y, k, r.request) ==> x == y && j == k
  {
    hide Runs, Orderly, Accounts, React, Boot, Fresh, Enabled, Deeds, BackedUp, Held;
    var c := cs[i];
    RunsOrderly(cs, i);
    var a := AnswerIsNew(c, h.id, h.event, r);
    forall q | q in Given(c, h) && q.request == r.request ensures q == r {
      OneAnswer(c, h.id, h.event, Given(c, h), r, q);
    }
    forall x, j, y, k | WaitsAt(c, x, j, r.request) && WaitsAt(c, y, k, r.request) ensures x == y && j == k {
      NotWaitingTwice(c, x, j, y, k);
    }
  }

  // ---------------------------------------------------------------- waiting

  /** Only a leader keeps clients waiting, and nobody who waits has an answer. */
  lemma WaitingUnanswered(cs: seq<Cluster>, i: nat, id: Id, k: nat)
    requires Runs(cs, AnyPoint) && i < |cs| && id in cs[i].nodes && k in cs[i].nodes[id].pending
    ensures cs[i].nodes[id].role == Leader
    ensures forall r :: r in cs[i].ledger.answers ==> r.request != cs[i].nodes[id].pending[k]
  {
    hide Runs, Accounts, Tidy, OneLeaderEach;
    RunsOrderly(cs, i);
    assert NodeOrderly(cs[i].ledger, cs[i].nodes[id]);
  }

  /** Whoever waits goes on waiting at the same leader, or is answered, or the leader crashes.
      If the leader goes on without leading that term, the answer is a refusal. */
  lemma StepDownTurnsAway(cs: seq<Cluster>, i: nat, h: Happening, id: Id, k: nat)
    requires Runs(cs, AnyPoint) && i + 1 < |cs| && Happens(cs[i], cs[i + 1], h)
    requires id in cs[i].nodes && k in cs[i].nodes[id].pending
    ensures id in cs[i + 1].nodes
    ensures var n, n', g' := cs[i].nodes[id], cs[i + 1].nodes[id], cs[i + 1].ledger;
            var r := n.pending[k];
            var leads := n'.role == Leader && n'.term == n.term;
            && (WaitsAt(cs[i + 1], id, k, r) ==> leads)
            && (WaitsAt(cs[i + 1], id, k, r) || Answered(g'.answers, r) || r in g'.lost)
            && (h.Crashes? && h.id == id ==> Answered(g'.answers, r) || r in g'.lost)
            && (r in g'.lost ==> h.Crashes? && h.id == id)
            && (h.Reacts? && !leads ==> Reply(r, false) in g'.answers)
  {
    hide Runs, Orderly, React, Boot, Fresh, Enabled, Partial;
    var c := cs[i];
    RunsOrderly(cs, i);
    WaiterIssued(c, id, k);
    var r := c.nodes[id].pending[k];
    assert r !in c.ledger.lost by {
      assert WaitsAt(c, id, k, r);
      assert r in c.ledger.lost ==> Gone(c, r);
    }
    hide Accounts;
    match h
    case Reacts(x, ev) =>
      if x == id { ServedBy(c, id, ev, k); }
      else { assert WaitsAt(cs[i + 1], id, k, r); }
    case Crashes(x, ev, j, o) =>
      LostOnly(c, x, ev, j, o, id, k);
      BootWaits(c.cfg, x, ApplyWrites(c.nodes[x].db, React(c.cfg, c.nodes[x], ev).writes[..j]));
      if x != id { assert WaitsAt(cs[i + 1], id, k, r); }
  }

  lemma BootWaits(cfg: ClusterConfiguration, id: Id, db: Store)
    ensures Boot(cfg, id, db).pending == map[]
  {
  }

  lemma ServedBy(c: Cluster, id: Id, ev: Event, k: nat)
    requires Poised(c, id, ev) && k in c.nodes[id].pending
    ensures var n, e := c.nodes[id], React(c.cfg, c.nodes[id], ev);
            var r := n.pending[k];
            var leads := e.node.role == Leader && e.node.term == n.term;
            && ((k in e.node.pending && e.node.pending[k] == r) || Answered(e.replies, r))
            && (k in e.node.pending ==> leads) && (!leads ==> Reply(r, false) in e.replies)
  {
    hide React, Poised, Fresh, AnswersOne, Waiting, Behind, Tidy;
    PoisedFacts(c, id, ev);
    var n := c.nodes[id];
    StillWaiting(c, id, ev, k);
    ReactAnswers(c.cfg, n, ev);
    ReactServes(c.cfg, n, ev);
    assert Attended(React(c.cfg, n, ev), k, Waiting(n, ev));
  }

  /** A crash loses only those who wait at the crashing node. */
  lemma LostOnly(c: Cluster, x: Id, ev: Event, j: nat, o: Outcome, id: Id, k: nat)
    requires Poised(c, x, ev) && c.nodes[x].HasLog() && Partial(c.nodes[x], ev, React(c.cfg, c.nodes[x], ev), j, o)
    requires id in c.nodes && k in c.nodes[id].pending
    ensures var r := c.nodes[id].pending[k];
            && (x == id ==> Answered(o.answers, r) || r in o.lost)
            && (r in o.lost ==> x == id)
  {
    hide React, Fresh, Orderly, Waiting, Deeds, BackedUp, Issues;
    var r, held := c.nodes[id].pending[k], Held(c.nodes[x], ev, o.placed);
    if x == id {
      StillWaiting(c, id, ev, k);
      assert held[k] == r && r in held.Values;
    } else if r in o.lost {
      WaiterIssued(c, id, k);
      if r in Issues(ev) { NewUnknown(c, x, ev, r); }
      var i :| i in held && held[i] == r;
      HeldUnanswered(c, x, ev, c.nodes[x], o, i);
      NotWaitingTwice(c, id, k, x, i);
    }
  }
}
