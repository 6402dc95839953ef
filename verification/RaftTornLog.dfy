/**
An execution that goes wrong: a crash that tears a log. The entries that were to be
deleted come back behind newer ones, their term makes the node look outdated, and
it votes for a candidate that lacks an entry whose client was told Ok.
*/
module RaftTornLog {
  import opened Options
  import opened Quorum
  import opened Master
  import opened RaftProtocol
  import opened RaftInvariant
  import opened RaftNode
  import opened RaftStorage
  import opened RaftReplies
  import opened RaftReplication
  import opened RaftCrash
  import opened RaftCluster
  import opened RaftMoves
  import opened RaftDuties
  import opened RaftExplained
  import opened RaftTheorems
  import opened RaftCommit
  import opened RaftHazards
  import opened RaftMishaps

  // ---------------------------------------------------------------- reactions of three nodes

  const TRIO := Simple(map[0 := "a", 1 := "b", 2 := "c"], 0)

  lemma TrioMembers()
    ensures Populated(TRIO) && AllMembers(TRIO) == {0, 1, 2}
  {
    assert TRIO.members.Keys == {0, 1, 2};
  }

  lemma TrioMajority(voters: set<Id>, a: Id, b: Id)
    requires a != b && {a, b} <= {0, 1, 2} && {a, b} <= voters
    ensures HasJointMajority(TRIO, voters)
  {
    TrioMembers();
    assert {a, b} <= voters * {0, 1, 2};
    SubsetSize({a, b}, voters * {0, 1, 2});
    assert |{0, 1, 2}| == 3;
  }

  lemma OneIsNoMajority(a: Id)
    ensures !HasJointMajority(TRIO, {a})
  {
    TrioMembers();
    SubsetSize({a} * {0, 1, 2}, {a});
    assert |{0, 1, 2}| == 3;
  }

  /** No node has committed or compacted anything. */
  ghost predicate Young(n: Node) {
    n.HasLog() && n.id in {0, 1, 2} && n.snapIndex == n.snapTerm == n.commit == n.applied == 0
  }

  /** A leader that nobody has acknowledged anything to. */
  ghost predicate Leads(n: Node) {
    && Young(n) && n.role == Leader
    && n.next.Keys == n.matched.Keys == {0, 1, 2} - {n.id}
    && (forall p :: p in n.matched ==> n.matched[p] == 0)
    && (forall p :: p in n.next ==> 0 < n.next[p] <= |n.log|)
  }

  lemma Stands(n: Node, p: Id)
    requires Young(n) && n.role != Leader && p in {0, 1, 2} && p != n.id
    ensures var e := React(TRIO, n, ElectionTimeout);
            && e.node == n.(role := Candidate, term := n.term + 1, votedFor := Some(n.id), voters := {n.id}, db := e.node.db)
            && Packet(p, RequestVote(n.term + 1, n.id, n.LastIndex(), n.LastTerm())) in e.sent
  {
    hide React;
    TrioMembers();
    assert |{0, 1, 2}| == 3;
    ElectionDuty(TRIO, n);
  }

  lemma Grants(n: Node, m: Message)
    requires n.HasLog() && m.RequestVote? && m.term > n.term && NotOlder(m, n)
    ensures var e := React(TRIO, n, Deliver(m));
            && e.node == n.(role := Follower, term := m.term, votedFor := Some(m.candidate), pending := e.node.pending, db := e.node.db)
            && Packet(m.candidate, VoteReply(m.term, true, n.id)) in e.sent
  {
    hide React;
    VoteDuty(TRIO, n, m);
  }

  lemma Wins(n: Node, m: Message)
    requires Young(n) && n.role == Candidate && m.VoteReply? && m.granted && m.term == n.term && n.id in n.voters
    requires m.peer in {0, 1, 2} && m.peer != n.id
    ensures var n' := React(TRIO, n, Deliver(m)).node;
            && Leads(n') && n'.id == n.id && n'.term == n.term && n'.log == n.log + [Entry(n.term, NoOp)]
            && forall p :: p in n'.next ==> n'.next[p] == |n.log| + 1
  {
    hide ApplyWrites, Numbered, ApplyLogs, AllMembers, HasJointMajority;
    TrioMembers();
    var n1 := n.(voters := n.voters + {m.peer});
    TrioMajority(n1.voters, n.id, m.peer);
    assert m.peer in Peers(TRIO, TakeOffice(TRIO, n1).node);
  }

  lemma Takes(n: Node, rs: seq<ClientRequest>)
    requires Leads(n) && rs != []
    ensures var n' := React(TRIO, n, Clients(rs)).node;
            n' == n.(log := n.log + EntriesOf(n.term, rs), pending := n.pending + Numbered(RequestsOf(rs), n.LastIndex() + 1), db := n'.db)
  {
    hide ApplyWrites, Numbered, ApplyLogs, AllMembers;
    TrioMembers();
    var e := Enqueue(n, rs);
    var p: Id := if n.id == 0 then 1 else 0;
    assert p in Peers(TRIO, e.node);
  }

  /** The message that a leader sends to peer `p`. */
  function Offer(n: Node, p: Id): Message
    requires p in n.next && 0 < n.next[p] <= |n.log|
  {
    Append(n.term, n.id, n.next[p] - 1, n.log[n.next[p] - 1].term, n.log[n.next[p]..], n.commit)
  }

  lemma Sends(n: Node, p: Id)
    requires Leads(n) && p in n.next
    ensures React(TRIO, n, HeartbeatTick).node == n && Packet(p, Offer(n, p)) in React(TRIO, n, HeartbeatTick).sent
  {
    hide AllMembers;
    TrioMembers();
    assert NextFor(n, Peers(TRIO, n)) == n.next;
    assert p in Peers(TRIO, n) && Heartbeat(n, p) == Some(Offer(n, p));
    assert Packet(p, Heartbeat(n, p).value) in Beats(n, Peers(TRIO, n));
  }

  /** A follower of term `t`, with the log it had. */
  function Following(n: Node, t: nat): Node {
    n.(role := Follower, term := t, votedFor := if t > n.term then None else n.votedFor)
  }

  lemma Refuses(n: Node, m: Message)
    requires n.HasLog() && m.Append? && m.term >= n.term && !PrevMatches(n, m)
    ensures var e := React(TRIO, n, Deliver(m));
            && e.node == Following(n, m.term).(pending := e.node.pending, db := e.node.db)
            && Packet(m.leader, AppendReply(m.term, false, RefusalHint(n, m), n.id)) in e.sent
  {
    hide ApplyWrites, AcceptAppend, RefusalHint, HandleRequestVote, HandleVoteReply, HandleAppendReply;
  }

  lemma Accepts(n: Node, m: Message)
    requires n.HasLog() && m.Append? && m.term >= n.term && PrevMatches(n, m) && m.leaderCommit <= n.commit
    ensures var e := React(TRIO, n, Deliver(m));
            && e.node == Following(n, m.term).(log := Merge(n.log, m.prevIndex - n.snapIndex + 1, m.entries),
                                               pending := e.node.pending, db := e.node.db)
            && Packet(m.leader, AppendReply(m.term, true, m.prevIndex + |m.entries|, n.id)) in e.sent
  {
    hide ApplyWrites, Merge, AdoptWrites, ApplyLogs, HandleRequestVote, HandleVoteReply, HandleAppendReply;
  }

  /** As long as nobody acknowledges anything, nothing is committed. */
  lemma NothingToCommit(n: Node)
    requires Young(n) && (forall p :: p in n.matched ==> n.matched[p] == 0)
    ensures AdvanceCommitIndex(TRIO, n) == Idle(n)
  {
    hide ApplyLogs, AllMembers, BestIndex, HasJointMajority;
    var table := MatchTable(TRIO, n);
    var best := BestIndex(TRIO, table, n.commit);
    BestIsReported(TRIO, table, n.commit);
    if best > 0 {
      BestIsHeld(TRIO, table, n.commit);
      assert HeldBy(table, best) == {n.id};
      OneIsNoMajority(n.id);
    }
  }

  lemma Retries(n: Node, m: Message)
    requires Leads(n) && m.AppendReply? && m.term == n.term && !m.success && m.peer in n.next && n.next[m.peer] > 1
    ensures var n' := React(TRIO, n, Deliver(m)).node;
            n' == n.(next := n.next[m.peer := n.next[m.peer] - 1]) && Leads(n')
  {
    hide AdvanceCommitIndex, AllMembers;
    TrioMembers();
    NothingToCommit(Recorded(TRIO, n, m));
  }

  /** One acknowledgement of its last entry, of its own term, is enough. */
  lemma Commits(n: Node, m: Message)
    requires Leads(n) && m.AppendReply? && m.term == n.term && m.success && m.peer in n.next
    requires m.matchIndex == n.LastIndex() > 0 && n.LastTerm() == n.term
    ensures var e := React(TRIO, n, Deliver(m));
            && e.node.commit == n.LastIndex() && e.node.log == n.log && e.node.role == Leader && e.node.term == n.term
            && e.node.id == n.id && e.node.snapIndex == 0
            && Apply(n.LastIndex(), n.log[|n.log| - 1]) in e.applies
            && (n.LastIndex() in n.pending ==> Reply(n.pending[n.LastIndex()], true) in e.replies)
  {
    hide ApplyLogs, AllMembers, BestIndex, HasJointMajority;
    TrioMembers();
    var n1 := Recorded(TRIO, n, m);
    var table := MatchTable(TRIO, n1);
    var k := n.LastIndex();
    TrioMajority(HeldBy(table, k), n.id, m.peer);
    BestIsLargest(TRIO, table, n1.commit, k);
    BestIsReported(TRIO, table, n1.commit);
    assert BestIndex(TRIO, table, n1.commit) == k;
    AppliesLast(n1.(commit := k));
  }

  lemma AppliesLast(n: Node)
    requires n.HasLog() && n.snapIndex == n.applied == 0 && n.commit == n.LastIndex() > 0
    ensures var e := ApplyLogs(n);
            && e.node == n.(applied := n.commit, app := e.node.app, pending := e.node.pending)
            && Apply(n.commit, n.log[|n.log| - 1]) in e.applies
            && (n.commit in n.pending ==> Reply(n.pending[n.commit], true) in e.replies)
  {
    hide ApplyLogs, Replay;
    if n.commit in n.pending { ApplyLogsTells(n, n.commit); }
    ApplyLogsKeep(n);
    ApplyLogsReaches(n);
    ApplyLogsLog(n);
    assert AppliesAt(n, ApplyLogs(n), n.commit - 1);
  }

  // ---------------------------------------------------------------- steps of the cluster

  ghost predicate Trio(c: Cluster) { c.cfg == TRIO && c.nodes.Keys == {0, 1, 2} }

  /** An execution of the three nodes that ends in `c`. */
  ghost predicate Ends(cs: seq<Cluster>, c: Cluster, scope: Scope) {
    && |cs| > 0 && cs[|cs| - 1] == c && Runs(cs, scope)
    && Trio(c) && forall id :: id in {0, 1, 2} ==> c.nodes[id].HasLog() && c.nodes[id].id == id
  }

  ghost predicate Adds(g: Ledger, g': Ledger) { g.applied <= g'.applied && g.answers <= g'.answers }

  /** Nothing is taken back, no request comes in, and only the nodes in `ids` change. */
  ghost predicate Onward(s: seq<Cluster>, c: Cluster, cs: seq<Cluster>, c': Cluster, ids: set<Id>)
    requires Trio(c) && Trio(c')
  {
    && s <= cs && c.net <= c'.net && Adds(c.ledger, c'.ledger)
    && c'.ledger.issued == c.ledger.issued && c'.ledger.placed == c.ledger.placed
    && forall x :: x in {0, 1, 2} && x !in ids ==> c'.nodes[x] == c.nodes[x]
  }

  lemma OnwardThen(s: seq<Cluster>, c: Cluster, s1: seq<Cluster>, c1: Cluster, s2: seq<Cluster>, c2: Cluster, a: set<Id>, b: set<Id>)
    requires Trio(c) && Trio(c1) && Trio(c2) && Onward(s, c, s1, c1, a) && Onward(s1, c1, s2, c2, b)
    ensures Onward(s, c, s2, c2, a + b)
  {
  }

  /** One more complete reaction. */
  lemma Goes(s: seq<Cluster>, c: Cluster, scope: Scope, id: Id, ev: Event) returns (cs: seq<Cluster>, c': Cluster)
    requires Ends(s, c, scope) && id in {0, 1, 2} && Enabled(id, ev, c.net) && (ev.Clients? ==> Fresh(c.ledger, ev))
    requires React(TRIO, c.nodes[id], ev).node.HasLog() && React(TRIO, c.nodes[id], ev).node.id == id
    ensures var e := React(TRIO, c.nodes[id], ev);
            && Ends(cs, c', scope) && c'.nodes == c.nodes[id := e.node]
            && s <= cs && c.net <= c'.net && Adds(c.ledger, c'.ledger)
            && e.sent <= c'.net && Deeds(e) <= c'.ledger.applied && e.replies <= c'.ledger.answers
            && c'.ledger.issued == c.ledger.issued + Issues(ev) && c'.ledger.placed == c.ledger.placed + Places(c.nodes[id], ev)
            && (!ev.Clients? ==> Onward(s, c, cs, c', {id}))
  {
    hide React, Runs, Reacted, Deeds, Advances, Fresh;
    if !ev.Clients? { OnlyClientsFresh(c.ledger, ev); }
    ReactedHappens(c, id, ev);
    c' := Reacted(c, id, ev);
    ReactedShape(c, id, ev);
    RunsOn(s, c', scope);
    cs := s + [c'];
  }

  /** Node `n` comes out as `n'`, with its log, in a given role and term. */
  ghost predicate Becomes(n: Node, n': Node, role: Role, term: nat) {
    Young(n') && n'.role == role && n'.term == term && n'.log == n.log
  }

  /** Node `a` stands. */
  lemma Asks(s: seq<Cluster>, c: Cluster, scope: Scope, a: Id, b: Id) returns (cs: seq<Cluster>, c': Cluster)
    requires Ends(s, c, scope) && {a, b} <= {0, 1, 2} && a != b && Young(c.nodes[a]) && c.nodes[a].role != Leader
    ensures Ends(cs, c', scope) && Onward(s, c, cs, c', {a})
    ensures Becomes(c.nodes[a], c'.nodes[a], Candidate, c.nodes[a].term + 1) && a in c'.nodes[a].voters
    ensures var n := c.nodes[a]; Packet(b, RequestVote(n.term + 1, a, n.LastIndex(), n.LastTerm())) in c'.net
  {
    hide React, Runs, Deeds;
    Stands(c.nodes[a], b);
    cs, c' := Goes(s, c, scope, a, ElectionTimeout);
  }

  /** Node `b` votes for a candidate. */
  lemma Agrees(s: seq<Cluster>, c: Cluster, scope: Scope, b: Id, ask: Message) returns (cs: seq<Cluster>, c': Cluster)
    requires Ends(s, c, scope) && b in {0, 1, 2} && Young(c.nodes[b])
    requires ask.RequestVote? && Packet(b, ask) in c.net && ask.term > c.nodes[b].term && NotOlder(ask, c.nodes[b])
    ensures Ends(cs, c', scope) && Onward(s, c, cs, c', {b})
    ensures Becomes(c.nodes[b], c'.nodes[b], Follower, ask.term)
    ensures Packet(ask.candidate, VoteReply(ask.term, true, b)) in c'.net
  {
    hide React, Runs, Deeds;
    Grants(c.nodes[b], ask);
    cs, c' := Goes(s, c, scope, b, Deliver(ask));
  }

  /** A leader of term `t` that was just elected with log `log`. */
  ghost predicate Elected(n: Node, t: nat, log: seq<Entry>) {
    && Leads(n) && n.term == t && n.log == log + [Entry(t, NoOp)]
    && forall p :: p in n.next ==> n.next[p] == |log| + 1
  }

  /** Node `a` counts the vote of node `b` and leads. */
  lemma Prevails(s: seq<Cluster>, c: Cluster, scope: Scope, a: Id, b: Id) returns (cs: seq<Cluster>, c': Cluster)
    requires Ends(s, c, scope) && {a, b} <= {0, 1, 2} && a != b
    requires Young(c.nodes[a]) && c.nodes[a].role == Candidate && a in c.nodes[a].voters
    requires Packet(a, VoteReply(c.nodes[a].term, true, b)) in c.net
    ensures Ends(cs, c', scope) && Onward(s, c, cs, c', {a})
    ensures Elected(c'.nodes[a], c.nodes[a].term, c.nodes[a].log)
  {
    hide React, Runs, Deeds;
    var yes := VoteReply(c.nodes[a].term, true, b);
    Wins(c.nodes[a], yes);
    cs, c' := Goes(s, c, scope, a, Deliver(yes));
  }

  /** Node `a` stands, node `b` votes for it, and it leads. */
  lemma Elects(s: seq<Cluster>, c: Cluster, scope: Scope, a: Id, b: Id) returns (cs: seq<Cluster>, c': Cluster)
    requires Ends(s, c, scope) && {a, b} <= {0, 1, 2} && a != b
    requires Young(c.nodes[a]) && c.nodes[a].role != Leader && Young(c.nodes[b]) && c.nodes[b].term <= c.nodes[a].term
    requires NotOlder(RequestVote(c.nodes[a].term + 1, a, c.nodes[a].LastIndex(), c.nodes[a].LastTerm()), c.nodes[b])
    ensures Ends(cs, c', scope) && Onward(s, c, cs, c', {a, b})
    ensures Elected(c'.nodes[a], c.nodes[a].term + 1, c.nodes[a].log)
    ensures Becomes(c.nodes[b], c'.nodes[b], Follower, c.nodes[a].term + 1)
  {
    var n, v := c.nodes[a], c.nodes[b];
    var s1, c1 := Asks(s, c, scope, a, b);
    assert Trio(c1) && c1.nodes[b] == v;
    var s2, c2 := Agrees(s1, c1, scope, b, RequestVote(n.term + 1, a, n.LastIndex(), n.LastTerm()));
    assert Trio(c2) && c2.nodes[a] == c1.nodes[a];
    hide Ends, Elected, Young, Onward;
    cs, c' := ElectsRest(s, c, s1, c1, s2, c2, scope, a, b);
  }

  lemma ElectsRest(s: seq<Cluster>, c: Cluster, s1: seq<Cluster>, c1: Cluster, s2: seq<Cluster>, c2: Cluster, scope: Scope, a: Id, b: Id)
    returns (cs: seq<Cluster>, c': Cluster)
    requires Trio(c) && Trio(c1) && Ends(s2, c2, scope) && {a, b} <= {0, 1, 2} && a != b
    requires Onward(s, c, s1, c1, {a}) && Onward(s1, c1, s2, c2, {b})
    requires Young(c2.nodes[a]) && c2.nodes[a].role == Candidate && a in c2.nodes[a].voters
    requires Packet(a, VoteReply(c2.nodes[a].term, true, b)) in c2.net
    ensures Ends(cs, c', scope) && Onward(s, c, cs, c', {a, b})
    ensures Elected(c'.nodes[a], c2.nodes[a].term, c2.nodes[a].log) && c'.nodes[b] == c2.nodes[b]
  {
    hide Runs, Elected, Young;
    cs, c' := Prevails(s2, c2, scope, a, b);
    OnwardThen(s, c, s1, c1, s2, c2, {a}, {b});
    OnwardThen(s, c, s2, c2, cs, c', {a} + {b}, {a});
    assert {a} + {b} + {a} == {a, b};
  }

  /** Leader `l` offers peer `p` what it takes to be next. */
  lemma Offers(s: seq<Cluster>, c: Cluster, scope: Scope, l: Id, p: Id) returns (cs: seq<Cluster>, c': Cluster)
    requires Ends(s, c, scope) && {l, p} <= {0, 1, 2} && l != p && Leads(c.nodes[l])
    ensures Ends(cs, c', scope) && Onward(s, c, cs, c', {}) && Packet(p, Offer(c.nodes[l], p)) in c'.net
  {
    hide React, Runs, Deeds;
    Sends(c.nodes[l], p);
    cs, c' := Goes(s, c, scope, l, HeartbeatTick);
  }

  /** Leader `l` hears that peer `p` refused. */
  lemma Hears(s: seq<Cluster>, c: Cluster, scope: Scope, l: Id, p: Id, hint: nat) returns (cs: seq<Cluster>, c': Cluster)
    requires Ends(s, c, scope) && {l, p} <= {0, 1, 2} && l != p && Leads(c.nodes[l]) && c.nodes[l].next[p] > 1
    requires Packet(l, AppendReply(c.nodes[l].term, false, hint, p)) in c.net
    ensures Ends(cs, c', scope) && Onward(s, c, cs, c', {l})
    ensures var n := c.nodes[l]; c'.nodes[l] == n.(next := n.next[p := n.next[p] - 1]) && Leads(c'.nodes[l])
  {
    hide React, Runs, Deeds;
    var no := AppendReply(c.nodes[l].term, false, hint, p);
    Retries(c.nodes[l], no);
    cs, c' := Goes(s, c, scope, l, Deliver(no));
  }

  /** Peer `p` refuses message `m`. */
  lemma Declines(s: seq<Cluster>, c: Cluster, scope: Scope, p: Id, m: Message) returns (cs: seq<Cluster>, c': Cluster, hint: nat)
    requires Ends(s, c, scope) && p in {0, 1, 2} && Young(c.nodes[p])
    requires m.Append? && Packet(p, m) in c.net && m.term >= c.nodes[p].term && !PrevMatches(c.nodes[p], m)
    ensures Ends(cs, c', scope) && Onward(s, c, cs, c', {p}) && Becomes(c.nodes[p], c'.nodes[p], Follower, m.term)
    ensures Packet(m.leader, AppendReply(m.term, false, hint, p)) in c'.net
  {
    hide React, Runs, Deeds, PrevMatches, RefusalHint;
    Refuses(c.nodes[p], m);
    cs, c' := Goes(s, c, scope, p, Deliver(m));
    hint := RefusalHint(c.nodes[p], m);
  }

  /** Peer `p` refuses what leader `l` offers, and the leader hears of it. */
  lemma Rejects(s: seq<Cluster>, c: Cluster, scope: Scope, l: Id, p: Id) returns (cs: seq<Cluster>, c': Cluster, hint: nat)
    requires Ends(s, c, scope) && {l, p} <= {0, 1, 2} && l != p && Leads(c.nodes[l]) && c.nodes[l].next[p] > 1
    requires Young(c.nodes[p]) && c.nodes[p].term <= c.nodes[l].term && !PrevMatches(c.nodes[p], Offer(c.nodes[l], p))
    ensures Ends(cs, c', scope) && Onward(s, c, cs, c', {p, l})
    ensures Becomes(c.nodes[p], c'.nodes[p], Follower, c.nodes[l].term)
    ensures var n := c.nodes[l]; c'.nodes[l] == n.(next := n.next[p := n.next[p] - 1]) && Leads(c'.nodes[l])
    ensures Packet(l, AppendReply(c.nodes[l].term, false, hint, p)) in c'.net
  {
    hide Runs, PrevMatches, Young;
    var n := c.nodes[l];
    var s1, c1 := Offers(s, c, scope, l, p);
    assert Trio(c1) && c1.nodes[l] == n && c1.nodes[p] == c.nodes[p];
    var s2, c2, h := Declines(s1, c1, scope, p, Offer(n, p));
    hint := h;
    assert Trio(c2) && c2.nodes[l] == n;
    OnwardThen(s, c, s1, c1, s2, c2, {}, {p});
    assert {} + {p} == {p};
    hide Onward, Becomes;
    cs, c' := RejectsRest(s, c, s2, c2, scope, l, p, hint);
  }

  lemma RejectsRest(s: seq<Cluster>, c: Cluster, s2: seq<Cluster>, c2: Cluster, scope: Scope, l: Id, p: Id, hint: nat)
    returns (cs: seq<Cluster>, c': Cluster)
    requires Trio(c) && Ends(s2, c2, scope) && Onward(s, c, s2, c2, {p}) && {l, p} <= {0, 1, 2} && l != p
    requires Leads(c2.nodes[l]) && c2.nodes[l].next[p] > 1 && Packet(l, AppendReply(c2.nodes[l].term, false, hint, p)) in c2.net
    ensures Ends(cs, c', scope) && Onward(s, c, cs, c', {p, l}) && c'.nodes[p] == c2.nodes[p]
    ensures var n := c2.nodes[l]; c'.nodes[l] == n.(next := n.next[p := n.next[p] - 1]) && Leads(c'.nodes[l])
    ensures Packet(l, AppendReply(c2.nodes[l].term, false, hint, p)) in c'.net
  {
    hide Runs, Young;
    cs, c' := Hears(s2, c2, scope, l, p, hint);
    OnwardThen(s, c, s2, c2, cs, c', {p}, {l});
    assert {p} + {l} == {p, l};
  }

  /** Peer `p` takes message `m` and acknowledges. */
  lemma Adopts(s: seq<Cluster>, c: Cluster, scope: Scope, p: Id, m: Message) returns (cs: seq<Cluster>, c': Cluster)
    requires Ends(s, c, scope) && p in {0, 1, 2} && Young(c.nodes[p])
    requires m.Append? && Packet(p, m) in c.net && m.term >= c.nodes[p].term && PrevMatches(c.nodes[p], m) && m.leaderCommit == 0
    requires Merge(c.nodes[p].log, m.prevIndex + 1, m.entries) != []
    ensures Ends(cs, c', scope) && Onward(s, c, cs, c', {p}) && c'.nodes[p] == HandleAppend(c.nodes[p], m).node
    ensures var n' := c'.nodes[p];
            Young(n') && n'.role == Follower && n'.term == m.term && n'.log == Merge(c.nodes[p].log, m.prevIndex + 1, m.entries)
    ensures Packet(m.leader, AppendReply(m.term, true, m.prevIndex + |m.entries|, p)) in c'.net
  {
    hide Runs, Deeds, Merge, HandleAppend;
    Accepts(c.nodes[p], m);
    cs, c' := Goes(s, c, scope, p, Deliver(m));
  }

  /** Leader `l` hears that peer `p` holds its last entry, commits it and applies it. */
  lemma Settles(s: seq<Cluster>, c: Cluster, scope: Scope, l: Id, p: Id) returns (cs: seq<Cluster>, c': Cluster)
    requires Ends(s, c, scope) && {l, p} <= {0, 1, 2} && l != p && Leads(c.nodes[l])
    requires c.nodes[l].LastIndex() > 0 && c.nodes[l].LastTerm() == c.nodes[l].term
    requires Packet(l, AppendReply(c.nodes[l].term, true, c.nodes[l].LastIndex(), p)) in c.net
    ensures Ends(cs, c', scope) && Onward(s, c, cs, c', {l})
    ensures var n, n' := c.nodes[l], c'.nodes[l];
            && n'.commit == n.LastIndex() && n'.log == n.log && n'.term == n.term && n'.snapIndex == 0
            && Deed(n.LastIndex(), n.log[|n.log| - 1], l, Leader, n.term) in c'.ledger.applied
            && (n.LastIndex() in n.pending ==> Reply(n.pending[n.LastIndex()], true) in c'.ledger.answers)
  {
    hide React, Runs, Leads;
    var n := c.nodes[l];
    var yes := AppendReply(n.term, true, n.LastIndex(), p);
    LeadsYoung(n);
    Commits(n, yes);
    var e := React(TRIO, n, Deliver(yes));
    cs, c' := Goes(s, c, scope, l, Deliver(yes));
    assert Deed(n.LastIndex(), n.log[|n.log| - 1], l, Leader, n.term) in Deeds(e);
  }

  lemma LeadsYoung(n: Node)
    requires Leads(n)
    ensures Young(n) && n.role == Leader && forall p :: p in {0, 1, 2} && p != n.id ==> p in n.next
  {
  }

  // ---------------------------------------------------------------- the story

  const ONE := [Entry(0, NoOp)]
  const TWO := [Entry(0, NoOp), Entry(2, NoOp)]
  const THREE := [Entry(0, NoOp), Entry(2, NoOp), Entry(3, NoOp), Entry(3, CREATE)]
  const FOUR := [Entry(0, NoOp), Entry(2, NoOp), Entry(4, NoOp), Entry(4, DELETE)]

  /** What node 0 has at the end of its reign, and what it comes back with. */
  const OLD := [Entry(0, NoOp), Entry(1, NoOp), Entry(1, CREATE), Entry(1, CREATE), Entry(1, CREATE)]
  const BACK := [Entry(0, NoOp), Entry(2, NoOp), Entry(3, NoOp), Entry(3, CREATE), Entry(1, CREATE)]

  const DELETE := MasterCmd(DeleteFile("f"))
  const REQUESTS := [ClientRequest(CREATE, 0), ClientRequest(CREATE, 1), ClientRequest(CREATE, 2)]

  /** Every request so far has a number below `k`. */
  ghost predicate IssuedBelow(c: Cluster, k: nat) { forall r :: r in c.ledger.issued ==> r < k }

  /** Request `r`, for `cmd`, has its place. */
  ghost predicate PlacedAt(c: Cluster, r: Request, s: Slot, cmd: Command) {
    r in c.ledger.placed && c.ledger.placed[r] == s && r in c.ledger.issued && c.ledger.issued[r] == cmd
  }

  /** The leader has put `cmd` into its log, for request `r`. */
  ghost predicate Took(n: Node, n': Node, r: Request, cmd: Command) {
    && Leads(n') && n'.id == n.id && n'.log == n.log + [Entry(n.term, cmd)] && n'.term == n.term && n'.next == n.next
    && n'.LastIndex() in n'.pending && n'.pending[n'.LastIndex()] == r
  }

  lemma TakesOne(n: Node, r: Request, cmd: Command)
    requires Leads(n)
    ensures Took(n, React(TRIO, n, Clients([ClientRequest(cmd, r)])).node, r, cmd)
  {
    hide React;
    var rs := [ClientRequest(cmd, r)];
    Takes(n, rs);
    assert EntriesOf(n.term, rs) == [Entry(n.term, cmd)] && RequestsOf(rs) == [r];
  }

  lemma TookShape(n: Node, n': Node, r: Request, cmd: Command)
    requires Took(n, n', r, cmd)
    ensures n'.HasLog() && n'.id == n.id
  {
  }

  /** Leader `l` takes a request. */
  lemma Enters(s: seq<Cluster>, c: Cluster, scope: Scope, l: Id, r: Request, cmd: Command) returns (cs: seq<Cluster>, c': Cluster)
    requires Ends(s, c, scope) && l in {0, 1, 2} && Leads(c.nodes[l]) && IssuedBelow(c, r)
    ensures Ends(cs, c', scope) && s <= cs && c.net <= c'.net && Adds(c.ledger, c'.ledger)
    ensures Took(c.nodes[l], c'.nodes[l], r, cmd) && forall x :: x in {0, 1, 2} && x != l ==> c'.nodes[x] == c.nodes[x]
    ensures c'.ledger.issued == c.ledger.issued + map[r := cmd]
    ensures c'.ledger.placed == c.ledger.placed + map[r := Slot(c.nodes[l].LastIndex() + 1, c.nodes[l].term)]
  {
    hide React, Runs, Deeds, Leads, Places, Issues, Fresh, IssuedBelow, Took, Adds, Young;
    var n, rs := c.nodes[l], [ClientRequest(cmd, r)];
    LeadsYoung(n);
    OnePlace(n, rs);
    IsFresh(c, cmd, r);
    TakesOne(n, r, cmd);
    TookShape(n, React(TRIO, n, Clients(rs)).node, r, cmd);
    cs, c' := Goes(s, c, scope, l, Clients(rs));
  }

  lemma BooksAfter(c: Cluster, c': Cluster, r: Request, s: Slot, cmd: Command)
    requires IssuedBelow(c, r) && c'.ledger.issued == c.ledger.issued + map[r := cmd] && c'.ledger.placed == c.ledger.placed + map[r := s]
    ensures PlacedAt(c', r, s, cmd) && IssuedBelow(c', r + 1)
  {
  }

  lemma IsFresh(c: Cluster, cmd: Command, r: Request)
    requires IssuedBelow(c, r)
    ensures Fresh(c.ledger, Clients([ClientRequest(cmd, r)]))
  {
  }

  lemma OnePlace(n: Node, rs: seq<ClientRequest>)
    requires n.HasLog() && n.role == Leader && |rs| == 1
    ensures Issues(Clients(rs)) == map[rs[0].request := rs[0].command]
    ensures Places(n, Clients(rs)) == map[rs[0].request := Slot(n.LastIndex() + 1, n.term)]
  {
    assert rs[..0] == [];
    assert Commands(rs[..0]) == map[] && SlotsOf(rs[..0], n.LastIndex() + 1, n.term) == map[];
  }

  ghost predicate Has(n: Node, role: Role, term: nat, log: seq<Entry>) {
    Young(n) && n.role == role && n.term == term && n.log == log
  }

  lemma BlankTrio() returns (c: Cluster)
    ensures Ends([c], c, AllWhole) && c.ledger.issued == map[]
    ensures Has(c.nodes[0], Follower, 0, ONE) && Has(c.nodes[1], Follower, 0, ONE) && Has(c.nodes[2], Follower, 0, ONE)
  {
    hide Boot, Runs, AllMembers;
    TrioMembers();
    BootBlank(TRIO, 0);
    BootBlank(TRIO, 1);
    BootBlank(TRIO, 2);
    BlankStarts(TRIO, {0, 1, 2});
    c := Blank(TRIO, {0, 1, 2});
  }

  /** Node 0 leads term 1 and takes three requests, which go nowhere. */
  lemma FirstReign() returns (cs: seq<Cluster>, c: Cluster)
    ensures Ends(cs, c, AllWhole) && IssuedBelow(c, 3)
    ensures Has(c.nodes[0], Leader, 1, OLD) && Has(c.nodes[1], Follower, 1, ONE) && Has(c.nodes[2], Follower, 0, ONE)
  {
    hide React, Runs, Deeds, Leads, Issues, Places, Fresh;
    var c0 := BlankTrio();
    var s1, c1 := Elects([c0], c0, AllWhole, 0, 1);
    FirstBatch(c1.nodes[0], c1.ledger);
    cs, c := Goes(s1, c1, AllWhole, 0, Clients(REQUESTS));
  }

  lemma FirstBatch(n: Node, g: Ledger)
    requires Elected(n, 1, ONE) && g.issued == map[]
    ensures Fresh(g, Clients(REQUESTS)) && forall r :: r in Issues(Clients(REQUESTS)) ==> r < 3
    ensures Has(React(TRIO, n, Clients(REQUESTS)).node, Leader, 1, OLD) && React(TRIO, n, Clients(REQUESTS)).node.id == n.id
  {
    hide React, Commands;
    Takes(n, REQUESTS);
    assert n.log + EntriesOf(1, REQUESTS) == OLD;
    forall r | r in Issues(Clients(REQUESTS)) ensures r < 3 { CommandsOnly(REQUESTS, r); }
  }

  /** Node 2 leads term 2 ... */
  lemma SecondReign() returns (cs: seq<Cluster>, c: Cluster)
    ensures Ends(cs, c, AllWhole) && IssuedBelow(c, 3)
    ensures Has(c.nodes[0], Leader, 1, OLD) && Has(c.nodes[1], Follower, 2, ONE) && Elected(c.nodes[2], 2, ONE)
  {
    hide Runs, Leads;
    var s0, c0 := FirstReign();
    var s1, c1 := Asks(s0, c0, AllWhole, 2, 1);
    assert Has(c1.nodes[2], Candidate, 1, ONE) && Has(c1.nodes[1], Follower, 1, ONE);
    cs, c := Elects(s1, c1, AllWhole, 2, 1);
  }

  const FIRST := Append(2, 2, 0, 0, [Entry(2, NoOp)], 0)

  /** ... and offers its first entry to node 1 ... */
  lemma Offered() returns (cs: seq<Cluster>, c: Cluster)
    ensures Ends(cs, c, AllWhole) && IssuedBelow(c, 3) && Packet(1, FIRST) in c.net
    ensures Has(c.nodes[0], Leader, 1, OLD) && Has(c.nodes[1], Follower, 2, ONE) && Has(c.nodes[2], Leader, 2, TWO)
  {
    hide Runs;
    var s0, c0 := SecondReign();
    assert Has(c0.nodes[2], Leader, 2, TWO);
    var s1, c1, hint := Rejects(s0, c0, AllWhole, 2, 1);
    cs, c := Offers(s1, c1, AllWhole, 2, 1);
    assert Offer(c1.nodes[2], 1) == FIRST;
  }

  /** ... which takes it. */
  lemma Shared() returns (cs: seq<Cluster>, c: Cluster)
    ensures Ends(cs, c, AllWhole) && IssuedBelow(c, 3)
    ensures Has(c.nodes[0], Leader, 1, OLD) && Has(c.nodes[1], Follower, 2, TWO) && Has(c.nodes[2], Leader, 2, TWO)
  {
    hide Runs, HandleAppend;
    var s0, c0 := Offered();
    assert Merge(ONE, 1, FIRST.entries) == TWO;
    cs, c := Adopts(s0, c0, AllWhole, 1, FIRST);
  }

  /** Request 3 has its place in term 3, and waits at node 1. */
  ghost predicate Awaited(c: Cluster)
    requires 1 in c.nodes
  {
    && PlacedAt(c, 3, Slot(3, 3), CREATE) && IssuedBelow(c, 4)
    && 3 in c.nodes[1].pending && c.nodes[1].pending[3] == 3
  }

  /** Node 1 leads term 3 ... */
  lemma Elevated() returns (cs: seq<Cluster>, c: Cluster)
    ensures Ends(cs, c, AllWhole) && IssuedBelow(c, 3)
    ensures Has(c.nodes[0], Leader, 1, OLD) && Elected(c.nodes[1], 3, TWO) && Has(c.nodes[2], Follower, 3, TWO)
  {
    hide Runs, Leads;
    var s0, c0 := Shared();
    cs, c := Elects(s0, c0, AllWhole, 1, 2);
  }

  /** A leader that was elected with log TWO and took one request. */
  lemma TookFirst(n: Node, n': Node, t: nat, r: Request, cmd: Command, log: seq<Entry>)
    requires Elected(n, t, TWO) && Took(n, n', r, cmd) && n.id != 0 && log == TWO + [Entry(t, NoOp), Entry(t, cmd)]
    ensures Has(n', Leader, t, log) && Leads(n') && n'.next[0] == 3 && 3 in n'.pending && n'.pending[3] == r
  {
  }

  lemma ElectedShape(n: Node, t: nat)
    requires Elected(n, t, TWO)
    ensures Leads(n) && n.HasLog() && n.LastIndex() == 2 && n.term == t
  {
  }

  /** ... and takes a request. */
  lemma ThirdReign() returns (cs: seq<Cluster>, c: Cluster)
    ensures Ends(cs, c, AllWhole) && Awaited(c)
    ensures Has(c.nodes[0], Leader, 1, OLD) && Has(c.nodes[2], Follower, 3, TWO)
    ensures Has(c.nodes[1], Leader, 3, THREE) && Leads(c.nodes[1]) && c.nodes[1].next[0] == 3
  {
    hide Runs, Leads, Elected, Took, Has, IssuedBelow, PlacedAt, Adds;
    var s0, c0 := Elevated();
    ElectedShape(c0.nodes[1], 3);
    cs, c := Enters(s0, c0, AllWhole, 1, 3, CREATE);
    assert Trio(c) && c.nodes[0] == c0.nodes[0] && c.nodes[2] == c0.nodes[2];
    hide Ends;
    BooksAfter(c0, c, 3, Slot(3, 3), CREATE);
    TookFirst(c0.nodes[1], c.nodes[1], 3, 3, CREATE, THREE);
  }

  const CONFLICT := Append(3, 1, 0, 0, [Entry(2, NoOp), Entry(3, NoOp), Entry(3, CREATE)], 0)

  /** Node 0 refuses what is new ... */
  lemma Behindhand() returns (cs: seq<Cluster>, c: Cluster, hint: nat)
    ensures Ends(cs, c, AllWhole) && Awaited(c) && Packet(1, AppendReply(3, false, hint, 0)) in c.net
    ensures Has(c.nodes[0], Follower, 3, OLD) && Has(c.nodes[1], Leader, 3, THREE) && Leads(c.nodes[1]) && c.nodes[1].next[0] == 2
    ensures Has(c.nodes[2], Follower, 3, TWO)
  {
    hide Runs;
    var s0, c0 := ThirdReign();
    cs, c, hint := Rejects(s0, c0, AllWhole, 1, 0);
  }

  /** ... and, when its answer is heard twice, is sent the log from the start. */
  lemma Conflict() returns (cs: seq<Cluster>, c: Cluster)
    ensures Ends(cs, c, AllWhole) && Awaited(c) && Packet(0, CONFLICT) in c.net
    ensures Has(c.nodes[0], Follower, 3, OLD) && Has(c.nodes[1], Leader, 3, THREE) && Leads(c.nodes[1])
    ensures Has(c.nodes[2], Follower, 3, TWO)
  {
    hide Runs;
    var s0, c0, hint := Behindhand();
    var s1, c1 := Hears(s0, c0, AllWhole, 1, 0, hint);
    cs, c := Offers(s1, c1, AllWhole, 1, 0);
    assert Offer(c1.nodes[1], 0) == CONFLICT;
  }

  /** Node 0 would drop four entries and save three. */
  lemma Tearing(n: Node, full: seq<Entry>)
    requires Has(n, Follower, 3, OLD) && Tracks(n, full)
    ensures Truncates(n, CONFLICT) && CutOf(n, CONFLICT) == 0 && NewOf(n, CONFLICT) == CONFLICT.entries && Before(n, CONFLICT) == 0
    ensures n.LastIndex() == 4 && full == OLD[1..]
  {
    hide Durable;
    assert Agreeing(n.log, 1, CONFLICT.entries) == 0;
    assert n.log[1] == full[0] && n.log[2] == full[1] && n.log[3] == full[2] && n.log[4] == full[3];
  }

  /** Node 0 crashes after the first of four deletes. */
  lemma Tears(s: seq<Cluster>, c: Cluster, full: seq<Entry>) returns (cs: seq<Cluster>, c': Cluster)
    requires Ends(s, c, AnyPoint) && Packet(0, CONFLICT) in c.net && Has(c.nodes[0], Follower, 3, OLD) && Tracks(c.nodes[0], full)
    ensures Ends(cs, c', AnyPoint) && Onward(s, c, cs, c', {0}) && Has(c'.nodes[0], Follower, 3, ONE)
    ensures Truncates(c.nodes[0], CONFLICT) && 1 <= |HandleAppend(c.nodes[0], CONFLICT).writes| && Before(c.nodes[0], CONFLICT) == 0
    ensures c'.nodes[0] == Torn(TRIO, c.nodes[0], CONFLICT, 1)
  {
    hide Runs, HandleAppend, Tracks, Truncates, Torn, Advances;
    var n := c.nodes[0];
    Tearing(n, full);
    TornStore(n, full, CONFLICT, 1);
    TornRestart(TRIO, n, full, CONFLICT, 1);
    c' := TornAppend(c, full);
    assert n.log[..1] == ONE;
    TornShape(n, full, 1);
    RunsOn(s, c', AnyPoint);
    cs := s + [c'];
  }

  lemma TornShape(n: Node, full: seq<Entry>, j: nat)
    requires Has(n, Follower, 3, OLD) && Tracks(n, full) && Truncates(n, CONFLICT) && 0 < j <= n.LastIndex() - CutOf(n, CONFLICT)
    ensures Before(n, CONFLICT) + j <= |HandleAppend(n, CONFLICT).writes|
    ensures var t := Torn(TRIO, n, CONFLICT, j); t.role == Follower && t.commit == t.applied == t.snapIndex
  {
    hide HandleAppend, Tracks, Truncates, ApplyWrites, LogOf;
    TornStore(n, full, CONFLICT, j);
  }

  lemma TornAppend(c: Cluster, full: seq<Entry>) returns (c': Cluster)
    requires Trio(c) && Packet(0, CONFLICT) in c.net && Truncates(c.nodes[0], CONFLICT) && c.nodes[0].HasLog() && c.nodes[0].id == 0
    requires Before(c.nodes[0], CONFLICT) == 0 && 1 < |HandleAppend(c.nodes[0], CONFLICT).writes|
    ensures Advances(c, c', AnyPoint) && Trio(c') && c'.nodes == c.nodes[0 := Torn(TRIO, c.nodes[0], CONFLICT, 1)]
    ensures c'.net == c.net && SameBooks(c.ledger, c'.ledger)
  {
    hide HandleAppend, ApplyWrites, Boot, Partial, Truncates, After, Advances;
    var n := c.nodes[0];
    SilenceIsPartial(n, Deliver(CONFLICT), HandleAppend(n, CONFLICT), 1);
    var b := Boot(TRIO, 0, ApplyWrites(n.db, HandleAppend(n, CONFLICT).writes[..1]));
    CrashHappens(c, 0, Deliver(CONFLICT), 1, Silence(n), AnyPoint);
    AfterShape(c, 0, Deliver(CONFLICT), b, Silence(n));
    c' := After(c, 0, Deliver(CONFLICT), b, Silence(n));
  }

  /** A node that stops between two events, and restarts. */
  lemma Restarts(s: seq<Cluster>, c: Cluster, id: Id) returns (cs: seq<Cluster>, c': Cluster)
    requires Ends(s, c, AnyPoint) && id in {0, 1, 2}
    ensures Ends(cs, c', AnyPoint) && Onward(s, c, cs, c', {id}) && c'.nodes[id] == Boot(TRIO, id, c.nodes[id].db)
  {
    hide Runs, Advances;
    c' := Rebooted(c, id, AnyPoint);
    RunsOn(s, c', AnyPoint);
    BootShaped(id, c.nodes[id].db);
    cs := s + [c'];
  }

  lemma BootShaped(id: Id, db: Store)
    ensures var b := Boot(TRIO, id, db); b.HasLog() && b.id == id && b.role == Follower && b.commit == b.applied == b.snapIndex
  {
    hide LoadEntries;
  }

  /** What node 0 comes back with once it has taken the message and restarted again. */
  lemma ComesBack(n: Node, full: seq<Entry>, r: Node)
    requires Has(n, Follower, 3, OLD) && n.id == 0 && Tracks(n, full) && Truncates(n, CONFLICT) && Before(n, CONFLICT) == 0
    requires 1 <= |HandleAppend(n, CONFLICT).writes| && Torn(TRIO, n, CONFLICT, 1).HasLog()
    requires r == HandleAppend(Torn(TRIO, n, CONFLICT, 1), CONFLICT).node
    ensures Has(Boot(TRIO, 0, r.db), Follower, 3, BACK)
  {
    hide HandleAppend, Tracks, Torn, Truncates, Boot, StepDown, Before;
    Tearing(n, full);
    TornComesBack(TRIO, n, full, CONFLICT, 1);
    TornAgain(TRIO, n, full, CONFLICT, 1);
    StepDownTracks(n, 3, full);
    BootShape(TRIO, StepDown(n, 3).node, full, r.db);
    BootShaped(0, r.db);
    assert [Entry(0, NoOp)] + Reloaded(full, 0, 1, CONFLICT.entries)[0..] == BACK;
  }

  // ---------------------------------------------------------------- what fails

  /** Node 1 has committed index 3 and told its client so. */
  ghost predicate Told(c: Cluster)
    requires 1 in c.nodes
  {
    && c.nodes[1].commit == 3 && c.nodes[1].log == THREE && c.nodes[1].term == 3 && c.nodes[1].snapIndex == 0
    && Deed(3, Entry(3, CREATE), 1, Leader, 3) in c.ledger.applied
    && PlacedAt(c, 3, Slot(3, 3), CREATE) && Reply(3, true) in c.ledger.answers
  }

  /** Node 0 tears its log, takes the message again, and node 1 commits its entry and answers. */
  lemma Decided() returns (cs: seq<Cluster>, c: Cluster)
    ensures Ends(cs, c, AnyPoint) && Has(Boot(TRIO, 0, c.nodes[0].db), Follower, 3, BACK)
    ensures Told(c) && IssuedBelow(c, 4)
    ensures Has(c.nodes[2], Follower, 3, TWO)
  {
    hide Runs, HandleAppend, Tracks, Truncates, Torn, Boot, Explains, Inv, Grows, Leads;
    var s0, c0 := Conflict();
    RunsWider(s0, AllWhole, LogsWhole);
    RunsWider(s0, AllWhole, AnyPoint);
    var u, w := TwoMoments(s0, |s0| - 1, |s0| - 1);
    MirrorOf(c0, w, 0);
    var n, full := c0.nodes[0], w.servers[0].log;
    assert Tracks(n, full);
    var s1, c1 := Tears(s0, c0, full);
    assert Merge(ONE, 1, CONFLICT.entries) == THREE;
    var s2, c2 := Adopts(s1, c1, AnyPoint, 0, CONFLICT);
    ComesBack(n, full, c2.nodes[0]);
    assert c2.nodes[1] == c0.nodes[1];
    cs, c := Settles(s2, c2, AnyPoint, 1, 0);
  }

  /** Node 0 restarts, and votes for node 2, which leads term 4 without that entry. */
  lemma FourthReign() returns (s: seq<Cluster>, b: Cluster, cs: seq<Cluster>, c: Cluster)
    ensures Ends(s, b, AnyPoint) && Has(b.nodes[0], Follower, 3, BACK)
    ensures Ends(cs, c, AnyPoint) && s <= cs && Told(c) && IssuedBelow(c, 4)
    ensures Elected(c.nodes[2], 4, TWO) && Has(c.nodes[0], Follower, 4, BACK)
  {
    hide Runs, Boot, Leads;
    var s0, c0 := Decided();
    s, b := Restarts(s0, c0, 0);
    assert b.nodes[1] == c0.nodes[1] && b.nodes[2] == c0.nodes[2];
    cs, c := Elects(s, b, AnyPoint, 2, 0);
    assert c.nodes[1] == b.nodes[1];
  }

  const LAST := Append(4, 2, 1, 2, [Entry(4, NoOp), Entry(4, DELETE)], 0)

  lemma StillTold(c: Cluster, c': Cluster)
    requires Trio(c) && Trio(c') && Told(c) && c'.nodes[1] == c.nodes[1] && Adds(c.ledger, c'.ledger)
    requires c'.ledger.issued == c.ledger.issued + map[4 := DELETE] && c'.ledger.placed == c.ledger.placed + map[4 := Slot(3, 4)]
    ensures Told(c')
  {
  }

  /** Node 2 takes a request ... */
  lemma TakesOver(s: seq<Cluster>, c: Cluster) returns (cs: seq<Cluster>, c': Cluster)
    requires Ends(s, c, AnyPoint) && Elected(c.nodes[2], 4, TWO) && Told(c) && IssuedBelow(c, 4)
    ensures Ends(cs, c', AnyPoint) && s <= cs && Told(c') && Asked(c') && c'.nodes[0] == c.nodes[0]
    ensures Leads(c'.nodes[2]) && Has(c'.nodes[2], Leader, 4, FOUR) && c'.nodes[2].next[0] == 3
  {
    hide Runs, Leads, Elected, Took, Has, IssuedBelow, PlacedAt, Adds, Told;
    ElectedShape(c.nodes[2], 4);
    cs, c' := Enters(s, c, AnyPoint, 2, 4, DELETE);
    assert Trio(c') && c'.nodes[0] == c.nodes[0] && c'.nodes[1] == c.nodes[1];
    hide Ends;
    BooksAfter(c, c', 4, Slot(3, 4), DELETE);
    StillTold(c, c');
    TookFirst(c.nodes[2], c'.nodes[2], 4, 4, DELETE, FOUR);
  }

  /** Request 4 has its place in term 4, and waits at node 2. */
  ghost predicate Asked(c: Cluster)
    requires 2 in c.nodes
  {
    PlacedAt(c, 4, Slot(3, 4), DELETE) && 3 in c.nodes[2].pending && c.nodes[2].pending[3] == 4
  }

  /** ... overwrites the entry on node 0 ... */
  lemma Overwrites(s: seq<Cluster>, c: Cluster) returns (cs: seq<Cluster>, c': Cluster)
    requires Ends(s, c, AnyPoint) && Has(c.nodes[0], Follower, 4, BACK) && Told(c) && Asked(c)
    requires Leads(c.nodes[2]) && Has(c.nodes[2], Leader, 4, FOUR) && c.nodes[2].next[0] == 3
    ensures Ends(cs, c', AnyPoint) && s <= cs && Told(c') && Asked(c') && Packet(0, LAST) in c'.net
    ensures Has(c'.nodes[0], Follower, 4, BACK) && Leads(c'.nodes[2]) && Has(c'.nodes[2], Leader, 4, FOUR)
  {
    hide Runs;
    var s2, c2, hint := Rejects(s, c, AnyPoint, 2, 0);
    cs, c' := Offers(s2, c2, AnyPoint, 2, 0);
    assert Offer(c2.nodes[2], 0) == LAST;
  }

  /** ... and commits its own there. */
  lemma Replaces(s: seq<Cluster>, c: Cluster) returns (cs: seq<Cluster>, c': Cluster)
    requires Ends(s, c, AnyPoint) && Packet(0, LAST) in c.net
    requires Has(c.nodes[0], Follower, 4, BACK) && Leads(c.nodes[2]) && Has(c.nodes[2], Leader, 4, FOUR) && Told(c)
    requires Asked(c)
    ensures Ends(cs, c', AnyPoint) && s <= cs && Told(c') && PlacedAt(c', 4, Slot(3, 4), DELETE) && Reply(4, true) in c'.ledger.answers
    ensures Deed(3, Entry(4, DELETE), 2, Leader, 4) in c'.ledger.applied
  {
    hide Runs, HandleAppend, Leads;
    assert Agreeing(BACK, 2, LAST.entries) == 0;
    assert Merge(BACK, 2, LAST.entries) != [];
    var s1, c1 := Adopts(s, c, AnyPoint, 0, LAST);
    assert c1.nodes[2] == c.nodes[2];
    cs, c' := Settles(s1, c1, AnyPoint, 2, 0);
  }

  /** It happens: three nodes, five requests, one crash between the deletes of a truncation. At moment `k`
      terms fall along the log of node 0. At moment `i` node 2 leads a later term than that in which node 1
      committed index 3 and told request 3 Ok, and holds another entry there. In the end it has applied and
      acknowledged that one, for request 4. */
  lemma CommittedEntryLost() returns (cs: seq<Cluster>, k: nat, i: nat)
    ensures Runs(cs, AnyPoint) && k < |cs| && i < |cs| && 0 in cs[k].nodes && 1 in cs[i].nodes && 2 in cs[i].nodes
    ensures !TermsRise(cs[k].nodes[0])
    ensures var m, n := cs[i].nodes[1], cs[i].nodes[2];
            && n.role == Leader && m.term < n.term && m.snapIndex == n.snapIndex == 0
            && 3 <= m.commit && 3 < |m.log| && 3 < |n.log| && m.log[3] != n.log[3]
            && Reply(3, true) in cs[i].ledger.answers && PlacedAt(cs[i], 3, Slot(3, m.term), m.log[3].command)
    ensures var g := cs[|cs| - 1].ledger;
            && Reply(3, true) in g.answers && Reply(4, true) in g.answers && 3 in g.placed && 4 in g.placed
            && g.placed[3].index == g.placed[4].index
            && exists a, b :: a in g.applied && b in g.applied && a.index == b.index == g.placed[3].index
                              && a.entry.command != b.entry.command
  {
    hide Runs, Leads;
    var s0, b, s1, c1 := FourthReign();
    var s2, c2 := TakesOver(s1, c1);
    var s3, c3 := Overwrites(s2, c2);
    var s4, c4 := Replaces(s3, c3);
    cs, k, i := s4, |s0| - 1, |s2| - 1;
    assert cs[k] == b && cs[i] == c2;
    FallingTerms(b.nodes[0]);
    var x, y := Deed(3, Entry(3, CREATE), 1, Leader, 3), Deed(3, Entry(4, DELETE), 2, Leader, 4);
    assert x in c4.ledger.applied && y in c4.ledger.applied && x.index == y.index && x.entry.command != y.entry.command;
  }

  lemma FallingTerms(n: Node)
    requires n.log == BACK
    ensures !TermsRise(n)
  {
    assert n.log[3].term == 3 && n.log[4].term == 1;
  }
}
