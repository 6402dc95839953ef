/**
How a run goes on: one more complete reaction, or a crash and a restart.
*/
module RaftMoves {
  import opened Quorum
  import opened RaftNode
  import opened RaftReplies
  import opened RaftCrash
  import opened RaftCluster

  /** The cluster after a complete reaction. */
  function Reacted(c: Cluster, id: Id, ev: Event): Cluster
    requires id in c.nodes && c.nodes[id].HasLog()
  {
    var e := React(c.cfg, c.nodes[id], ev);
    After(c, id, ev, e.node, Whole(e))
  }

  lemma ReactedHappens(c: Cluster, id: Id, ev: Event)
    requires id in c.nodes && c.nodes[id].HasLog() && Enabled(id, ev, c.net) && Fresh(c.ledger, ev)
    ensures forall scope :: Advances(c, Reacted(c, id, ev), scope)
  {
    hide React, Fresh;
    assert Happens(c, Reacted(c, id, ev), Reacts(id, ev));
    forall scope ensures Advances(c, Reacted(c, id, ev), scope) { assert Admitted(c, Reacts(id, ev), scope); }
  }

  lemma RunsOn(cs: seq<Cluster>, c: Cluster, scope: Scope)
    requires Runs(cs, scope) && Advances(cs[|cs| - 1], c, scope)
    ensures Runs(cs + [c], scope)
  {
    hide Advances, Start;
    var ds := cs + [c];
    forall i | 0 < i < |ds| ensures AdvanceAt(ds, i, scope) {
      if i < |cs| { assert AdvanceAt(cs, i, scope); }
    }
  }

  lemma OnlyClientsFresh(g: Ledger, ev: Event)
    requires !ev.Clients?
    ensures Fresh(g, ev)
  {
  }

  lemma ReactedShape(c: Cluster, id: Id, ev: Event)
    requires id in c.nodes && c.nodes[id].HasLog()
    ensures var e, c' := React(c.cfg, c.nodes[id], ev), Reacted(c, id, ev);
            && c'.cfg == c.cfg && c'.nodes == c.nodes[id := e.node] && c'.net == c.net + e.sent
            && c'.ledger.applied == c.ledger.applied + Deeds(e) && c'.ledger.answers == c.ledger.answers + e.replies
            && c'.ledger.issued == c.ledger.issued + Issues(ev) && c'.ledger.placed == c.ledger.placed + Places(c.nodes[id], ev)
            && (!ev.Clients? ==> c'.ledger.issued == c.ledger.issued && c'.ledger.placed == c.ledger.placed)
  {
    hide React, Deeds;
  }

  lemma CrashHappens(c: Cluster, id: Id, ev: Event, k: nat, o: Outcome, scope: Scope)
    requires id in c.nodes && c.nodes[id].HasLog() && Enabled(id, ev, c.net) && !ev.Clients?
    requires k <= |React(c.cfg, c.nodes[id], ev).writes| && Partial(c.nodes[id], ev, React(c.cfg, c.nodes[id], ev), k, o)
    requires Admits(scope, React(c.cfg, c.nodes[id], ev).writes, k)
    ensures Advances(c, After(c, id, ev, Boot(c.cfg, id, ApplyWrites(c.nodes[id].db, React(c.cfg, c.nodes[id], ev).writes[..k])), o), scope)
  {
    hide React, Partial, Boot, After;
    var c' := After(c, id, ev, Boot(c.cfg, id, ApplyWrites(c.nodes[id].db, React(c.cfg, c.nodes[id], ev).writes[..k])), o);
    assert Happens(c, c', Crashes(id, ev, k, o)) && Admitted(c, Crashes(id, ev, k, o), scope);
  }

  /** The books except for who is lost. */
  ghost predicate SameBooks(g: Ledger, g': Ledger) {
    g' == g.(lost := g'.lost)
  }

  lemma AfterShape(c: Cluster, id: Id, ev: Event, n': Node, o: Outcome)
    requires id in c.nodes && c.nodes[id].HasLog() && !ev.Clients? && o.sent == {} && o.applied == {} && o.answers == {}
    ensures var c' := After(c, id, ev, n', o);
            c'.cfg == c.cfg && c'.nodes == c.nodes[id := n'] && c'.net == c.net && SameBooks(c.ledger, c'.ledger)
  {
    var c' := After(c, id, ev, n', o);
    assert c'.ledger == c.ledger.(lost := c'.ledger.lost);
  }

  /** A node that stops between two events, and restarts. */
  lemma Rebooted(c: Cluster, id: Id, scope: Scope) returns (c': Cluster)
    requires id in c.nodes && c.nodes[id].HasLog()
    ensures Advances(c, c', scope) && c'.cfg == c.cfg && c'.nodes == c.nodes[id := Boot(c.cfg, id, c.nodes[id].db)]
    ensures c'.net == c.net && SameBooks(c.ledger, c'.ledger)
  {
    hide Boot, ApplyLogs, After, Advances;
    var n := c.nodes[id];
    ApplyLogsQuiet(n);
    NoWrites(n.db);
    var o := Outcome({}, {}, {}, true, Waiting(n, ApplyTick).Values);
    CrashHappens(c, id, ApplyTick, 0, o, scope);
    AfterShape(c, id, ApplyTick, Boot(c.cfg, id, n.db), o);
    assert ApplyLogs(n).writes[..0] == [];
    c' := After(c, id, ApplyTick, Boot(c.cfg, id, n.db), o);
  }
}
