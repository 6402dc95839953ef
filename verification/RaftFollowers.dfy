/**
What the messages of a cluster promise, in every execution: followers' logs agree
with the leader's as far as the messages they accepted reach.
*/
module RaftFollowers {
  import opened Quorum
  import opened RaftProtocol
  import opened RaftInvariant
  import opened RaftNode
  import opened RaftStorage
  import opened RaftReplies
  import opened RaftRefinement
  import opened RaftCluster
  import opened RaftExplained
  import opened RaftTheorems

  // ---------------------------------------------------------------- messages

  lemma PacketOf(c: Cluster, w: World, p: Packet)
    requires Explains(c, w) && Inv(w) && p in c.net
    ensures p in w.net && PacketOk(w.cfg, w.past, p)
  {
    hide Reachable, Mirrors, WaitsOk, LedgerOk, PacketOk;
  }

  /** A message never announces more committed entries than it brings the follower up to. */
  lemma LeaderCommitCovered(cs: seq<Cluster>, i: nat, id: Id, m: Message)
    requires Execution(cs) && i < |cs| && m.Append? && Packet(id, m) in cs[i].net
    ensures m.leaderCommit <= m.prevIndex + |m.entries|
  {
    hide Explains, Execution, Reachable, Inv, Grows, Settled;
    var u, w := TwoMoments(cs, i, i);
    PacketOf(cs[i], w, Packet(id, m));
  }

  // ---------------------------------------------------------------- accepting

  /** `log'` is `log`, cut at slot `k` and continued with the entries from there on. The cut is at
      the end of the log or at a conflict. */
  ghost predicate CutAndContinued(log: seq<Entry>, p: nat, es: seq<Entry>, log': seq<Entry>, k: nat) {
    && p <= k <= |log| && k < p + |es|
    && log' == log[..k] + es[k - p..]
    && (k < |log| ==> log[k].term != es[k - p].term)
  }

  /** Nothing was dropped unless an entry conflicted. */
  ghost predicate OnlyConflictsCut(log: seq<Entry>, p: nat, es: seq<Entry>, log': seq<Entry>) {
    log' == log || exists k :: CutAndContinued(log, p, es, log', k)
  }

  lemma MergeShape(log: seq<Entry>, p: nat, es: seq<Entry>)
    requires p <= |log|
    ensures var r := Merge(log, p, es);
            && p + |es| <= |r| && (p > 0 ==> r[p - 1] == log[p - 1])
            && (es != [] ==> r[p + |es| - 1].term == es[|es| - 1].term)
            && OnlyConflictsCut(log, p, es, r)
  {
    AgreeingMeans(log, p, es);
    var k := Agreeing(log, p, es);
    if k < |es| { assert CutAndContinued(log, p, es, Merge(log, p, es), p + k); }
  }

  /** What an accepted message does to a node. */
  lemma AcceptShape(n: Node, m: Message)
    requires n.HasLog() && m.Append? && m.term >= n.term && PrevMatches(n, m)
    ensures var n' := HandleAppend(n, m).node;
            && n'.log == Merge(n.log, m.prevIndex - n.snapIndex + 1, m.entries)
            && n'.snapIndex == n.snapIndex && n'.snapTerm == n.snapTerm
            && (n'.commit == n.commit || n'.commit <= m.leaderCommit)
  {
    hide ApplyLogs, ApplyWrites, Merge, AdoptWrites;
    var e := StepDown(n, m.term);
    var a := Then(e, Adopt(e.node, m.prevIndex, m.entries));
    ApplyLogsKeep(a.node.(commit := Min(m.leaderCommit, a.node.LastIndex())));
  }

  /** The end of the message, as a full log sees it. */
  lemma AcceptedEnd(n: Node, n': Node, m: Message, full: seq<Entry>)
    requires n.HasLog() && m.Append? && PrevMatches(n, m) && Tracks(n', full) && n'.HasLog()
    requires n'.log == Merge(n.log, m.prevIndex - n.snapIndex + 1, m.entries)
    requires n'.snapIndex == n.snapIndex && n'.snapTerm == n.snapTerm
    ensures var last := m.prevIndex + |m.entries|;
            && last <= |full| && last <= n'.LastIndex()
            && TermAt(full, last) == if m.entries == [] then m.prevTerm else m.entries[|m.entries| - 1].term
  {
    hide Merge, Durable;
    var p := m.prevIndex - n.snapIndex + 1;
    MergeShape(n.log, p, m.entries);
    OffsetAt(n'.log, n'.snapIndex, n'.snapTerm, full, m.prevIndex + |m.entries|);
  }

  /** A log that ends a message with the right term holds the leader's log up to there. */
  lemma PieceMatches(w: World, id: Id, m: Message, last: nat)
    requires Inv(w) && id in w.servers && m.Append? && Packet(id, m) in w.net && last == m.prevIndex + |m.entries|
    requires last <= |w.servers[id].log|
    requires TermAt(w.servers[id].log, last) == if m.entries == [] then m.prevTerm else m.entries[|m.entries| - 1].term
    ensures m.term in w.past.reigns && last <= |w.past.reigns[m.term].log|
    ensures w.servers[id].log[..last] == w.past.reigns[m.term].log[..last]
  {
    hide Keeps, Settled, BallotsOk, Grounded;
    var s := w.servers[id];
    assert PacketOk(w.cfg, w.past, Packet(id, m));
    assert ServerOk(w.cfg, w.past, id, s);
    assert ReignOk(w.cfg, w.past, m.term);
    var full := w.past.reigns[m.term].log;
    if last > 0 { LogMatching(w.past, s.log, full, last - 1); }
  }

  /** The step that accepts message `m` at node `id`. */
  ghost predicate AcceptsAt(cs: seq<Cluster>, i: nat, id: Id, m: Message) {
    && i + 1 < |cs| && m.Append? && Happens(cs[i], cs[i + 1], Reacts(id, Deliver(m)))
    && m.term >= cs[i].nodes[id].term && PrevMatches(cs[i].nodes[id], m)
  }

  /** After a message was accepted: the log reaches to its end, was cut only at a conflict,
      and the commit index did not pass that end by this message. */
  lemma FollowerAgrees(cs: seq<Cluster>, i: nat, id: Id, m: Message)
    requires Execution(cs) && AcceptsAt(cs, i, id, m)
    ensures id in cs[i + 1].nodes
    ensures var n, n', last := cs[i].nodes[id], cs[i + 1].nodes[id], m.prevIndex + |m.entries|;
            && n'.HasLog() && n'.snapIndex == n.snapIndex && last <= n'.LastIndex()
            && (n'.commit == n.commit || n'.commit <= last)
            && OnlyConflictsCut(n.log, m.prevIndex - n.snapIndex + 1, m.entries, n'.log)
  {
    hide Explains, Execution, Reachable, Inv, Grows, HandleAppend, Merge, PrevMatches;
    var n, n' := cs[i].nodes[id], cs[i + 1].nodes[id];
    assert n' == HandleAppend(n, m).node;
    AcceptShape(n, m);
    PrevFits(n, m);
    MergeShape(n.log, m.prevIndex - n.snapIndex + 1, m.entries);
    LeaderCommitCovered(cs, i, id, m);
  }

  lemma PrevFits(n: Node, m: Message)
    requires m.Append? && PrevMatches(n, m)
    ensures n.snapIndex <= m.prevIndex && m.prevIndex - n.snapIndex < |n.log|
  {
  }

  /** The follower's log is then the leader's log of that term up to the end of the message, whenever
      one looks at that leader: its log reaches that far from then on, and no entry differs. */
  lemma FollowerMatchesLeader(cs: seq<Cluster>, i: nat, id: Id, m: Message, j: nat, b: Id, k: nat)
    requires Execution(cs) && AcceptsAt(cs, i, id, m)
    requires j < |cs| && b in cs[j].nodes && cs[j].nodes[b].role == Leader && cs[j].nodes[b].term == m.term
    requires id in cs[i + 1].nodes && cs[i + 1].nodes[id].snapIndex < k <= m.prevIndex + |m.entries| && cs[j].nodes[b].snapIndex < k
    ensures var n', l := cs[i + 1].nodes[id], cs[j].nodes[b];
            && n'.HasLog() && l.HasLog() && k <= n'.LastIndex() && (j > i ==> k <= l.LastIndex())
            && (k <= l.LastIndex() ==> n'.log[k - n'.snapIndex] == l.log[k - l.snapIndex])
  {
    hide Explains, Execution, Reachable, Inv, Grows, Happens, PrevMatches, Tracks;
    var ws := ExecutionExplained(cs);
    var w, u := ws[i + 1], ws[j];
    assert Explains(cs[i + 1], w) && Explains(cs[j], u);
    FollowerPrefix(cs, i, id, m, w);
    MirrorOf(cs[i + 1], w, id);
    MirrorOf(cs[j], u, b);
    ExplainsReachable(cs[i + 1], w);
    ExplainsReachable(cs[j], u);
    var n', l, s, t := cs[i + 1].nodes[id], cs[j].nodes[b], w.servers[id], u.servers[b];
    assert t.log <= w.past.reigns[m.term].log || (j > i && w.past.reigns[m.term].log <= t.log) by {
      if i < j { ReachGrows(w, u); LeaderLater(w, u, b, m.term); } else { ReachGrows(u, w); LeaderEarlier(u, w, b, m.term); }
    }
    if j > i { ReachGrows(w, u); LeaderLater(w, u, b, m.term); }
    SameSlot(n', s.log, l, t.log, w.past.reigns[m.term].log, m.prevIndex + |m.entries|, k);
  }

  /** Two nodes whose full logs share a prefix with a third agree on it. */
  lemma SameSlot(a: Node, fa: seq<Entry>, b: Node, fb: seq<Entry>, full: seq<Entry>, last: nat, k: nat)
    requires Tracks(a, fa) && Tracks(b, fb) && last <= |fa| && last <= |full| && fa[..last] == full[..last]
    requires fb <= full || full <= fb
    requires a.snapIndex < k <= last && b.snapIndex < k
    ensures a.HasLog() && b.HasLog() && k <= a.LastIndex() && (full <= fb ==> k <= b.LastIndex())
    ensures k <= b.LastIndex() ==> a.log[k - a.snapIndex] == b.log[k - b.snapIndex]
  {
    hide Durable;
    OffsetLast(a.log, a.snapIndex, a.snapTerm, fa);
    OffsetLast(b.log, b.snapIndex, b.snapTerm, fb);
    OffsetAt(a.log, a.snapIndex, a.snapTerm, fa, k);
    assert fa[k - 1] == fa[..last][k - 1] == full[k - 1];
    if k <= b.LastIndex() { OffsetAt(b.log, b.snapIndex, b.snapTerm, fb, k); }
  }

  /** The world that explains the cluster after the step agrees on the prefix. */
  lemma FollowerPrefix(cs: seq<Cluster>, i: nat, id: Id, m: Message, w: World)
    requires Execution(cs) && AcceptsAt(cs, i, id, m) && Explains(cs[i + 1], w)
    ensures id in w.servers && m.term in w.past.reigns
    ensures var last := m.prevIndex + |m.entries|;
            && last <= |w.servers[id].log| && last <= |w.past.reigns[m.term].log|
            && w.servers[id].log[..last] == w.past.reigns[m.term].log[..last]
  {
    hide Explains, Execution, Reachable, Inv, Grows, HandleAppend, Merge, PrevMatches, Piece;
    var n, n' := cs[i].nodes[id], cs[i + 1].nodes[id];
    assert n' == HandleAppend(n, m).node && Packet(id, m) in cs[i + 1].net;
    AcceptShape(n, m);
    PrevFits(n, m);
    FollowerAgrees(cs, i, id, m);
    MirrorOf(cs[i + 1], w, id);
    AcceptedEnd(n, n', m, w.servers[id].log);
    ExplainsReachable(cs[i + 1], w);
    ReachableInv(w);
    PacketOf(cs[i + 1], w, Packet(id, m));
    PieceMatches(w, id, m, m.prevIndex + |m.entries|);
  }

  lemma LeaderLater(w: World, u: World, b: Id, t: nat)
    requires Reachable(w) && Reachable(u) && Grows(w, u) && t in w.past.reigns
    requires b in u.servers && u.servers[b].role == Leader && u.servers[b].term == t
    ensures w.past.reigns[t].log <= u.servers[b].log
  {
    hide Reachable, Keeps, NetOk, Settled, Grounded;
    ReachableInv(u);
    assert ServerOk(u.cfg, u.past, b, u.servers[b]);
  }

  lemma LeaderEarlier(u: World, w: World, b: Id, t: nat)
    requires Reachable(u) && Reachable(w) && Grows(u, w)
    requires b in u.servers && u.servers[b].role == Leader && u.servers[b].term == t
    ensures t in w.past.reigns && u.servers[b].log <= w.past.reigns[t].log
  {
    hide Reachable, Keeps, NetOk, Settled, Grounded;
    ReachableInv(u);
    assert ServerOk(u.cfg, u.past, b, u.servers[b]);
  }
}
