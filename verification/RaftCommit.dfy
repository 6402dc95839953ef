/**
The commit scan: a leader looks only at the indices its peers reported, takes the
largest one that a joint majority holds, and checks the term of that one entry.
Nothing that may be committed is missed.
*/
module RaftCommit {
  import opened Quorum
  import opened RaftProtocol
  import opened RaftInvariant
  import opened RaftNode
  import opened RaftStorage
  import opened RaftReplies
  import opened RaftCluster
  import opened RaftExplained
  import opened RaftTheorems

  lemma {:induction false} LowestMatch(matches: map<Id, nat>, s: set<Id>) returns (low: Id)
    requires s != {} && s <= matches.Keys
    ensures low in s && forall x :: x in s ==> matches[low] <= matches[x]
  {
    var x :| x in s;
    var rest := s - {x};
    low := x;
    if rest != {} {
      var l := LowestMatch(matches, rest);
      if matches[l] < matches[x] { low := l; }
    }
    forall y | y in s ensures matches[low] <= matches[y] { assert y == x || y in rest; }
  }

  lemma NobodyIsNoQuorum(cfg: ClusterConfiguration)
    requires Populated(cfg)
    ensures !HasJointMajority(cfg, {})
  {
    if HasJointMajority(cfg, {}) { var i := QuorumsMeet(cfg, {}, {}); }
  }

  /** Among all indices, reported or not, the scan finds the largest that a joint
      majority holds. */
  lemma BestIsLargest(cfg: ClusterConfiguration, matches: map<Id, nat>, fallback: nat, k: nat)
    requires Populated(cfg) && Acknowledged(cfg, matches, k)
    ensures k <= BestIndex(cfg, matches, fallback)
  {
    var held := HeldBy(matches, k);
    NobodyIsNoQuorum(cfg);
    assert held != {};
    var low := LowestMatch(matches, held);
    var v := matches[low];
    assert held <= HeldBy(matches, v);
    QuorumGrows(cfg, held, HeldBy(matches, v));
    assert v in AgreedIndices(cfg, matches);
  }

  /** The terms in a log never fall, and never exceed the server's own. */
  predicate TermsRise(n: Node) {
    && (forall i, j :: 0 < i <= j < |n.log| ==> n.log[i].term <= n.log[j].term)
    && (forall i :: 0 < i < |n.log| ==> n.log[i].term <= n.term)
  }

  /** Every index that a leader may commit is committed at once. */
  lemma ScanMissesNothing(cfg: ClusterConfiguration, n: Node, k: nat)
    requires Populated(cfg) && n.HasLog() && n.snapIndex <= n.commit < k && TermsRise(n)
    requires forall p :: p in MatchTable(cfg, n) ==> MatchTable(cfg, n)[p] <= n.LastIndex()
    requires Acknowledged(cfg, MatchTable(cfg, n), k) && k <= n.LastIndex() && n.log[k - n.snapIndex].term == n.term
    ensures k <= AdvanceCommitIndex(cfg, n).node.commit
  {
    var table := MatchTable(cfg, n);
    var best := BestIndex(cfg, table, n.commit);
    BestIsLargest(cfg, table, n.commit, k);
    BestIsReported(cfg, table, n.commit);
    hide BestIndex, MatchTable, Acknowledged;
    assert n.log[k - n.snapIndex].term <= n.log[best - n.snapIndex].term;
    ApplyLogsKeep(n.(commit := best));
  }

  lemma BestIsReported(cfg: ClusterConfiguration, matches: map<Id, nat>, fallback: nat)
    ensures var b := BestIndex(cfg, matches, fallback); b == fallback || exists p :: p in matches && matches[p] == b
  {
  }

  // ---------------------------------------------------------------- in every execution

  lemma GroundedTermsRise(w: World, id: Id, i: nat, j: nat)
    requires Inv(w) && id in w.servers && i <= j < |w.servers[id].log|
    ensures w.servers[id].log[i].term <= w.servers[id].log[j].term <= w.servers[id].term
  {
    var s := w.servers[id];
    assert ServerOk(w.cfg, w.past, id, s);
    assert GroundedAt(w.past, s.log, j);
    var t := s.log[j].term;
    assert ReignOk(w.cfg, w.past, t);
    assert s.log[i] == s.log[..j + 1][i] == w.past.reigns[t].log[..j + 1][i];
  }

  lemma TermsAlwaysRise(cs: seq<Cluster>, m: nat, id: Id)
    requires Execution(cs) && m < |cs| && id in cs[m].nodes
    ensures TermsRise(cs[m].nodes[id])
  {
    hide Explains, Execution, Inv, Grows;
    var u, w := TwoMoments(cs, m, m);
    MirrorOf(cs[m], w, id);
    var n, s := cs[m].nodes[id], w.servers[id];
    hide Durable;
    forall i, j | 0 < i <= j < |n.log| ensures n.log[i].term <= n.log[j].term <= n.term {
      OffsetAt(n.log, n.snapIndex, n.snapTerm, s.log, n.snapIndex + i);
      OffsetAt(n.log, n.snapIndex, n.snapTerm, s.log, n.snapIndex + j);
      GroundedTermsRise(w, id, n.snapIndex + i - 1, n.snapIndex + j - 1);
    }
  }

  lemma MatchesWithinLog(w: World, id: Id, p: Id)
    requires Inv(w) && id in w.servers && w.servers[id].role == Leader && p in w.servers[id].matched
    ensures w.servers[id].matched[p] <= |w.servers[id].log|
  {
    var s := w.servers[id];
    assert ServerOk(w.cfg, w.past, id, s);
    assert AckOk(w.past, p, s.term);
  }

  /** In every execution, a leader's scan commits every index that a joint majority
      holds and that carries the leader's own term. */
  lemma LeadersCommitAll(cs: seq<Cluster>, m: nat, id: Id, k: nat)
    requires Execution(cs) && m < |cs| && id in cs[m].nodes
    requires var n := cs[m].nodes[id];
             && n.HasLog() && n.role == Leader && n.commit < k <= n.LastIndex() && n.snapIndex <= n.commit
             && n.log[k - n.snapIndex].term == n.term && Acknowledged(cs[m].cfg, MatchTable(cs[m].cfg, n), k)
    ensures k <= AdvanceCommitIndex(cs[m].cfg, cs[m].nodes[id]).node.commit
  {
    hide Explains, Execution, Grows, AdvanceCommitIndex, Acknowledged, TermsRise;
    var u, w := TwoMoments(cs, m, m);
    assert Populated(w.cfg) by { assert Members(w); }
    hide Inv;
    MirrorOf(cs[m], w, id);
    assert w.cfg == cs[m].cfg by { SameConfiguration(cs[m], w); }
    var n, s := cs[m].nodes[id], w.servers[id];
    OffsetLast(n.log, n.snapIndex, n.snapTerm, s.log);
    hide Tracks;
    forall p | p in MatchTable(w.cfg, n) ensures MatchTable(w.cfg, n)[p] <= n.LastIndex() {
      if p != n.id { MatchesWithinLog(w, id, p); }
    }
    TermsAlwaysRise(cs, m, id);
    ScanMissesNothing(w.cfg, n, k);
  }

  lemma SameConfiguration(c: Cluster, w: World)
    requires Explains(c, w)
    ensures w.cfg == c.cfg
  {
  }
}
