/**
What holds over every execution of the cluster: any interleaving of reactions,
lost and repeated messages, and crashes with restarts that tear no log.
*/
module RaftTheorems {
  import opened Quorum
  import opened Master
  import opened RaftProtocol
  import opened RaftInvariant
  import opened RaftSafety
  import opened RaftNode
  import opened RaftStorage
  import opened RaftRefinement
  import opened RaftCluster
  import opened RaftAccounts
  import opened RaftExplained

  /** Worlds that explain two moments of an execution. */
  lemma TwoMoments(cs: seq<Cluster>, i: nat, j: nat) returns (u: World, w: World)
    requires Execution(cs) && i <= j < |cs|
    ensures Explains(cs[i], u) && Explains(cs[j], w) && Inv(u) && Inv(w) && Grows(u, w)
  {
    hide Explains, Execution, Inv, Grows, Reachable;
    var ws := ExecutionExplained(cs);
    u, w := ws[i], ws[j];
    ExplainsReachable(cs[i], u);
    ExplainsReachable(cs[j], w);
    ReachableInv(u);
    ReachableInv(w);
    ReachGrows(u, w);
  }

  lemma ExplainsReachable(c: Cluster, w: World)
    requires Explains(c, w)
    ensures Reachable(w)
  {
  }

  lemma MirrorOf(c: Cluster, w: World, id: Id)
    requires Explains(c, w) && id in c.nodes
    ensures id in w.servers && Mirrors(id, c.nodes[id], w.servers[id])
  {
  }

  lemma LedgerOf(c: Cluster, w: World)
    requires Explains(c, w)
    ensures PlacedOk(c.ledger, w.past) && AppliedOk(c.ledger, w.cfg, w.past) && AnswersOk(c.ledger, w.cfg, w.past)
  {
  }

  // ---------------------------------------------------------------- commands

  /** No two nodes ever apply different commands at one index. */
  lemma SameCommandEverywhere(cs: seq<Cluster>, i: nat, a: Deed, b: Deed)
    requires Execution(cs) && i < |cs| && a in cs[i].ledger.applied && b in cs[i].ledger.applied
    requires a.index == b.index
    ensures a.entry == b.entry
  {
    hide Explains, Execution, Inv, Grows, Reachable;
    var u, w := TwoMoments(cs, i, i);
    LedgerOf(cs[i], w);
    hide Entrenched, EntrenchedSince;
    EntrenchedOnce(w, a.index, a.entry, b.entry);
  }

  /** What a node has committed at one moment and what another has at a later one agree. */
  lemma CommittedAgree(u: World, w: World, a: Id, b: Id, k: nat)
    requires Inv(u) && Inv(w) && Grows(u, w) && a in u.servers && b in w.servers
    requires 0 < k <= u.servers[a].commit && k <= w.servers[b].commit
    ensures k <= |u.servers[a].log| && k <= |w.servers[b].log| && u.servers[a].log[k - 1] == w.servers[b].log[k - 1]
  {
    hide Inv, Entrenched, EntrenchedSince;
    CommittedEntrenched(u, a, k);
    CommittedEntrenched(w, b, k);
    EntrenchedGrows(u.cfg, u.past, w.past, k, u.servers[a].log[k - 1]);
    EntrenchedOnce(w, k, u.servers[a].log[k - 1], w.servers[b].log[k - 1]);
  }

  /** A leader holds everything that a node of an equal or earlier term ever committed,
      as far as neither has compacted it away. */
  lemma LeadersHoldCommitted(cs: seq<Cluster>, i: nat, j: nat, a: Id, b: Id, k: nat)
    requires Execution(cs) && i <= j < |cs| && a in cs[i].nodes && b in cs[j].nodes
    requires cs[j].nodes[b].role == Leader && cs[i].nodes[a].term <= cs[j].nodes[b].term
    requires cs[i].nodes[a].snapIndex < k <= cs[i].nodes[a].commit && cs[j].nodes[b].snapIndex < k
    ensures var m, n := cs[i].nodes[a], cs[j].nodes[b];
            k - m.snapIndex < |m.log| && k - n.snapIndex < |n.log| && m.log[k - m.snapIndex] == n.log[k - n.snapIndex]
  {
    hide Explains, Execution, Reachable, Inv, Grows, Durable;
    var u, w := TwoMoments(cs, i, j);
    MirrorOf(cs[i], u, a);
    MirrorOf(cs[j], w, b);
    var m, n, s, t := cs[i].nodes[a], cs[j].nodes[b], u.servers[a], w.servers[b];
    LeaderHasCommitted(u, w, a, b);
    OffsetAt(m.log, m.snapIndex, m.snapTerm, s.log, k);
    OffsetAt(n.log, n.snapIndex, n.snapTerm, t.log, k);
    assert s.log[..s.commit][k - 1] == t.log[k - 1];
  }

  lemma LeaderHasCommitted(u: World, w: World, a: Id, b: Id)
    requires Inv(u) && Inv(w) && Grows(u, w) && a in u.servers && b in w.servers
    requires w.servers[b].role == Leader && u.servers[a].term <= w.servers[b].term
    ensures u.servers[a].commit <= |u.servers[a].log| && u.servers[a].log[..u.servers[a].commit] <= w.servers[b].log
  {
    var s, t := u.servers[a], w.servers[b];
    assert ServerOk(u.cfg, u.past, a, s);
    assert ServerOk(w.cfg, w.past, b, t);
    SettledGrows(u.cfg, u.past, w.past, s.log, s.log, s.commit, s.term, s.term);
    SettledInReign(w, s.log, s.commit, s.term, t.term);
  }

  // ---------------------------------------------------------------- clients

  /** Nothing but the client's own entry is ever applied at the index of an answered request. */
  lemma AnsweredAlone(cs: seq<Cluster>, i: nat, r: Reply, a: Deed)
    requires Execution(cs) && i < |cs| && r in cs[i].ledger.answers && r.ok && a in cs[i].ledger.applied
    ensures var g := cs[i].ledger;
            && r.request in g.issued && r.request in g.placed
            && var s := g.placed[r.request]; (a.index == s.index ==> a.entry == Entry(s.term, g.issued[r.request]))
  {
    hide Explains, Execution, Inv, Grows, Reachable, Entrenched, EntrenchedSince;
    var u, w := TwoMoments(cs, i, i);
    LedgerOf(cs[i], w);
    var g := cs[i].ledger;
    var s := g.placed[r.request];
    KeptIsEntrenched(w.cfg, w.past, s, g.issued[r.request]);
    if a.index == s.index { EntrenchedOnce(w, s.index, a.entry, Entry(s.term, g.issued[r.request])); }
  }

  /** Acknowledged means durable: from then on, every leader of that term or a later one has
      the very entry in its log, at its index, unless it is compacted into its snapshot. */
  lemma AnsweredSurvives(cs: seq<Cluster>, i: nat, j: nat, r: Reply, b: Id)
    requires Execution(cs) && i <= j < |cs| && r in cs[i].ledger.answers && r.ok
    requires b in cs[j].nodes && cs[j].nodes[b].role == Leader
    ensures var g, n := cs[i].ledger, cs[j].nodes[b];
            && r.request in g.issued && r.request in g.placed
            && var s := g.placed[r.request];
               s.term <= n.term ==>
                 && s.index < n.snapIndex + |n.log|
                 && (n.snapIndex < s.index ==> n.log[s.index - n.snapIndex] == Entry(s.term, g.issued[r.request]))
  {
    hide Explains, Execution, Inv, Grows, Reachable, EntrenchedSince, Entrenched, Durable;
    var u, w := TwoMoments(cs, i, j);
    LedgerOf(cs[i], u);
    MirrorOf(cs[j], w, b);
    var g, n := cs[i].ledger, cs[j].nodes[b];
    var s, cmd := g.placed[r.request], g.issued[r.request];
    if s.term <= n.term {
      LeaderKeepsAnswered(u, w, b, s, cmd);
      OffsetLast(n.log, n.snapIndex, n.snapTerm, w.servers[b].log);
      if n.snapIndex < s.index { OffsetAt(n.log, n.snapIndex, n.snapTerm, w.servers[b].log, s.index); }
    }
  }

  lemma LeaderKeepsAnswered(u: World, w: World, b: Id, s: Slot, cmd: Command)
    requires Inv(w) && Grows(u, w) && Kept(u.cfg, u.past, s, cmd)
    requires b in w.servers && w.servers[b].role == Leader && s.term <= w.servers[b].term
    ensures 0 < s.index <= |w.servers[b].log| && w.servers[b].log[s.index - 1] == Entry(s.term, cmd)
  {
    hide Keeps, NetOk, Settled, EntrenchedSince;
    KeptGrows(u.cfg, u.past, w.past, s, cmd);
    assert ServerOk(w.cfg, w.past, b, w.servers[b]);
    KeptInReign(w, s, cmd, w.servers[b].term);
  }

  /** No two requests share a place. */
  lemma PlacedApart(cs: seq<Cluster>, i: nat)
    requires Execution(cs) && i < |cs|
    ensures var g := cs[i].ledger; forall r, q :: r in g.placed && q in g.placed && g.placed[r] == g.placed[q] ==> r == q
  {
    hide NodeOrderly, Accounts, OneLeaderEach;
    RunsWider(cs, LogsWhole, AnyPoint);
    RunsOrderly(cs, i);
  }

  /** Different requests answered positively occupy different indices of the log. */
  lemma AnsweredApart(cs: seq<Cluster>, i: nat, r: Reply, q: Reply)
    requires Execution(cs) && i < |cs| && r in cs[i].ledger.answers && q in cs[i].ledger.answers && r.ok && q.ok
    requires r.request != q.request
    ensures var g := cs[i].ledger;
            r.request in g.placed && q.request in g.placed && g.placed[r.request].index != g.placed[q.request].index
  {
    hide Explains, Execution, Inv, Grows, Reachable, Entrenched, EntrenchedSince, Stands;
    var u, w := TwoMoments(cs, i, i);
    LedgerOf(cs[i], w);
    PlacedApart(cs, i);
    var g := cs[i].ledger;
    var s, t := g.placed[r.request], g.placed[q.request];
    if s.index == t.index {
      KeptIsEntrenched(w.cfg, w.past, s, g.issued[r.request]);
      KeptIsEntrenched(w.cfg, w.past, t, g.issued[q.request]);
      EntrenchedOnce(w, s.index, Entry(s.term, g.issued[r.request]), Entry(t.term, g.issued[q.request]));
    }
  }

  // ---------------------------------------------------------------- compaction

  /** A snapshot changes neither the entries above the cut nor any term from the cut on. */
  lemma SnapshotKeepsEntries(n: Node, k: nat)
    requires AppliedKnown(n) && n.applied <= k <= n.LastIndex()
    ensures var n' := CreateSnapshot(n).node;
            && n'.HasLog() && n'.LastIndex() == n.LastIndex()
            && n'.log[k - n.applied].term == n.log[k - n.snapIndex].term
            && (k > n.applied ==> n'.log[k - n.applied] == n.log[k - n.snapIndex])
  {
  }
}
