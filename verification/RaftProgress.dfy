/**
The cluster is never stuck. From every state of every execution, however messages
were lost and nodes crashed before, some continuation serves a new request: of the
nodes that are up, the one with the newest log is elected, brings enough peers up to
date, and acknowledges it.
*/
module RaftProgress {
  import opened Quorum
  import opened Master
  import opened RaftProtocol
  import opened RaftInvariant
  import opened RaftNode
  import opened RaftStorage
  import opened RaftReplies
  import opened RaftReplication
  import opened RaftCrash
  import opened RaftCluster
  import opened RaftElections
  import opened RaftDuties
  import opened RaftMoves
  import opened RaftExplained
  import opened RaftTheorems
  import opened RaftCommit

  // ---------------------------------------------------------------- one more step

  ghost predicate Ends(cs: seq<Cluster>, c: Cluster) {
    |cs| > 0 && cs[|cs| - 1] == c && Execution(cs)
  }

  /** Every member is there, with a log and under its own name. */
  ghost predicate Manned(c: Cluster) {
    && Populated(c.cfg) && c.nodes.Keys == AllMembers(c.cfg)
    && forall id :: id in c.nodes ==> c.nodes[id].id == id && c.nodes[id].HasLog()
  }

  lemma EndsManned(cs: seq<Cluster>, c: Cluster)
    requires Ends(cs, c)
    ensures Manned(c)
  {
    hide Execution, Runs, AllMembers, ElectedBy, Support;
    assert Runs(cs, LogsWhole) by { ExecutionRuns(cs); }
    RunsWider(cs, LogsWhole, AnyPoint);
    var polls := RunsPolled(cs);
    assert Polled(cs[|cs| - 1], polls[|cs| - 1]);
    forall id | id in c.nodes ensures c.nodes[id].id == id && c.nodes[id].HasLog() {
      assert NodePolled(c.cfg, polls[|cs| - 1], id, c.nodes[id]);
    }
  }

  lemma ExecutionRuns(cs: seq<Cluster>)
    requires Execution(cs)
    ensures Runs(cs, LogsWhole)
  {
  }

  /** Nothing is taken back, no request comes in, and only the nodes in `ids` change. */
  ghost predicate Onward(c: Cluster, c': Cluster, ids: set<Id>) {
    && c'.cfg == c.cfg && c'.nodes.Keys == c.nodes.Keys && c.net <= c'.net
    && c'.ledger.issued == c.ledger.issued && c.ledger.answers <= c'.ledger.answers
    && forall x :: x in c.nodes && x !in ids ==> c'.nodes[x] == c.nodes[x]
  }

  lemma OnwardThen(c: Cluster, d: Cluster, e: Cluster, a: set<Id>, b: set<Id>)
    requires Onward(c, d, a) && Onward(d, e, b)
    ensures Onward(c, e, a + b)
  {
  }

  lemma OnwardWider(c: Cluster, d: Cluster, a: set<Id>, b: set<Id>)
    requires Onward(c, d, a) && a <= b
    ensures Onward(c, d, b)
  {
  }

  /** A complete reaction to a timer or a message. */
  lemma Goes(s: seq<Cluster>, c: Cluster, id: Id, ev: Event) returns (cs: seq<Cluster>, c': Cluster)
    requires Ends(s, c) && id in c.nodes && c.nodes[id].HasLog() && Enabled(id, ev, c.net) && !ev.Clients?
    ensures Ends(cs, c') && s <= cs && Onward(c, c', {id})
    ensures var e := React(c.cfg, c.nodes[id], ev);
            c'.nodes[id] == e.node && e.sent <= c'.net && e.replies <= c'.ledger.answers
  {
    hide React, Reacted, Deeds, Advances, Fresh, Runs;
    OnlyClientsFresh(c.ledger, ev);
    ReactedHappens(c, id, ev);
    c' := Reacted(c, id, ev);
    ReactedShape(c, id, ev);
    RunsOn(s, c', LogsWhole);
    cs := s + [c'];
  }

  // ---------------------------------------------------------------- the newest log

  /** The log of `m` is not newer than that of `n`. */
  predicate NotNewer(m: Node, n: Node)
    requires m.HasLog() && n.HasLog()
  {
    m.LastTerm() < n.LastTerm() || (m.LastTerm() == n.LastTerm() && m.LastIndex() <= n.LastIndex())
  }

  ghost predicate Newest(c: Cluster, ids: set<Id>, b: Id)
    requires Manned(c) && ids <= c.nodes.Keys && b in c.nodes
  {
    forall p :: p in ids ==> NotNewer(c.nodes[p], c.nodes[b])
  }

  lemma {:induction false} NewestExists(c: Cluster, ids: set<Id>) returns (b: Id)
    requires Manned(c) && ids <= c.nodes.Keys && ids != {}
    ensures b in ids && Newest(c, ids, b)
    decreases ids
  {
    var x :| x in ids;
    b := x;
    var rest := ids - {x};
    assert forall p :: p in ids ==> p == x || p in rest;
    if rest != {} {
      var y := NewestExists(c, rest);
      if !NotNewer(c.nodes[y], c.nodes[x]) { b := y; }
    }
  }

  /** A restart gives a node its log back. */
  lemma Restarts(s: seq<Cluster>, c: Cluster, b: Id) returns (cs: seq<Cluster>, c': Cluster)
    requires Ends(s, c) && b in c.nodes
    ensures Ends(cs, c') && s <= cs && Onward(c, c', {b})
    ensures var n, n' := c.nodes[b], c'.nodes[b];
            n'.role == Follower && n'.term == n.term && n'.log == n.log && n'.snapIndex == n.snapIndex && n'.id == b && n'.HasLog()
  {
    hide Runs, Advances, Boot, Explains, Inv, Grows;
    EndsManned(s, c);
    c' := Rebooted(c, b, LogsWhole);
    RunsOn(s, c', LogsWhole);
    cs := s + [c'];
    var u, w := TwoMoments(s, |s| - 1, |s| - 1);
    MirrorOf(c, w, b);
    SameAfterRestart(c.cfg, c.nodes[b], w.servers[b].log);
  }

  lemma SameAfterRestart(cfg: ClusterConfiguration, n: Node, full: seq<Entry>)
    requires Tracks(n, full)
    ensures var b := Boot(cfg, n.id, n.db);
            b.role == Follower && b.term == n.term && b.log == n.log && b.snapIndex == n.snapIndex && b.id == n.id && b.HasLog()
  {
    hide LoadEntries;
    LoadEntriesAll(n.db.log, n.snapIndex, full);
    var b := Boot(cfg, n.id, n.db);
    assert |b.log| == |n.log|;
    forall j | 0 < j < |n.log| ensures b.log[j] == n.log[j] { assert n.log[j] == full[n.snapIndex + j - 1]; }
  }

  // ---------------------------------------------------------------- standing

  /** Node `b` stands in term `t` with the log of `n`, and has asked everybody. */
  ghost predicate Standing(c: Cluster, b: Id, n: Node, t: nat)
    requires n.HasLog()
  {
    && b in c.nodes && var n' := c.nodes[b];
    && n'.role == Candidate && n'.term == t && n'.voters == {b} && n'.id == b
    && n'.log == n.log && n'.snapIndex == n.snapIndex && n'.snapTerm == n.snapTerm
    && n'.commit == n.commit && n'.applied == n.applied
    && (forall p :: p in Others(c.cfg, b) ==> Packet(p, RequestVote(t, b, n.LastIndex(), n.LastTerm())) in c.net)
  }

  lemma Asks(s: seq<Cluster>, c: Cluster, b: Id) returns (cs: seq<Cluster>, c': Cluster)
    requires Ends(s, c) && b in c.nodes && c.nodes[b].HasLog() && c.nodes[b].id == b && c.nodes[b].role != Leader && |AllMembers(c.cfg)| != 1
    ensures Ends(cs, c') && s <= cs && Onward(c, c', {b}) && Standing(c', b, c.nodes[b], c.nodes[b].term + 1)
  {
    hide React, Execution, AllMembers;
    ElectionDuty(c.cfg, c.nodes[b]);
    cs, c' := Goes(s, c, b, ElectionTimeout);
  }

  /** A node that keeps standing gets beyond every term. */
  lemma {:induction false} Rises(s: seq<Cluster>, c: Cluster, b: Id, t: nat) returns (cs: seq<Cluster>, c': Cluster)
    requires Ends(s, c) && b in c.nodes && c.nodes[b].HasLog() && c.nodes[b].id == b && c.nodes[b].role != Leader && |AllMembers(c.cfg)| != 1
    ensures Ends(cs, c') && s <= cs && Onward(c, c', {b})
    ensures b in c'.nodes && c'.nodes[b].term > t && Standing(c', b, c.nodes[b], c'.nodes[b].term)
    decreases if c.nodes[b].term < t then t - c.nodes[b].term else 0
  {
    hide Execution, AllMembers;
    cs, c' := Asks(s, c, b);
    if c'.nodes[b].term <= t {
      var s1, c1 := cs, c';
      cs, c' := Rises(s1, c1, b, t);
      OnwardThen(c, c1, c', {b}, {b});
      assert {b} + {b} == {b};
    }
  }

  lemma {:induction false} TermBound(c: Cluster, ids: set<Id>) returns (t: nat)
    requires ids <= c.nodes.Keys
    ensures forall p :: p in ids ==> c.nodes[p].term <= t
    decreases ids
  {
    t := 0;
    if ids != {} {
      var x :| x in ids;
      t := TermBound(c, ids - {x});
      if c.nodes[x].term > t { t := c.nodes[x].term; }
    }
  }

  // ---------------------------------------------------------------- being elected

  /** A voter follows in term `t` and has its log as before. */
  ghost predicate Voter(n: Node, n': Node, t: nat) {
    n'.term == t && n'.id == n.id && n'.log == n.log && n'.snapIndex == n.snapIndex && n'.snapTerm == n.snapTerm
  }

  lemma Agrees(s: seq<Cluster>, c: Cluster, p: Id, m: Message) returns (cs: seq<Cluster>, c': Cluster)
    requires Ends(s, c) && p in c.nodes && c.nodes[p].HasLog() && c.nodes[p].id == p
    requires m.RequestVote? && Packet(p, m) in c.net && m.term > c.nodes[p].term && NotOlder(m, c.nodes[p])
    ensures Ends(cs, c') && s <= cs && Onward(c, c', {p}) && Voter(c.nodes[p], c'.nodes[p], m.term)
    ensures Packet(m.candidate, VoteReply(m.term, true, p)) in c'.net
  {
    hide React, Execution;
    VoteDuty(c.cfg, c.nodes[p], m);
    cs, c' := Goes(s, c, p, Deliver(m));
  }

  /** The peers in `ids` have voted for `b` in term `t`. */
  ghost predicate AllVoted(c: Cluster, c': Cluster, b: Id, t: nat, ids: set<Id>) {
    forall p :: p in ids ==>
      && p in c.nodes && p in c'.nodes && Voter(c.nodes[p], c'.nodes[p], t)
      && Packet(b, VoteReply(t, true, p)) in c'.net
  }

  lemma {:induction false} Polls(s: seq<Cluster>, c: Cluster, m: Message, todo: set<Id>) returns (cs: seq<Cluster>, c': Cluster)
    requires Ends(s, c) && m.RequestVote? && todo <= c.nodes.Keys
    requires forall p :: p in todo ==>
               && c.nodes[p].HasLog() && c.nodes[p].id == p && Packet(p, m) in c.net
               && m.term > c.nodes[p].term && NotOlder(m, c.nodes[p])
    ensures Ends(cs, c') && s <= cs && Onward(c, c', todo) && AllVoted(c, c', m.candidate, m.term, todo)
    decreases todo
  {
    hide Execution, NotOlder;
    if todo == {} {
      cs, c' := s, c;
    } else {
      var p :| p in todo;
      var s1, c1 := Agrees(s, c, p, m);
      cs, c' := Polls(s1, c1, m, todo - {p});
      OnwardThen(c, c1, c', {p}, todo - {p});
      assert {p} + (todo - {p}) == todo;
    }
  }

  /** Node `b` has just taken office with the log of `n`. */
  ghost predicate Office(c: Cluster, b: Id, n: Node)
    requires n.HasLog()
  {
    b in c.nodes && InOffice(c.cfg, n, c.nodes[b]) && c.nodes[b].commit == n.commit && c.nodes[b].applied == n.applied
  }

  lemma {:induction false} Counts(s: seq<Cluster>, c: Cluster, b: Id, todo: set<Id>) returns (cs: seq<Cluster>, c': Cluster)
    requires Ends(s, c) && b in c.nodes && c.nodes[b].HasLog() && c.nodes[b].role == Candidate && c.nodes[b].id == b
    requires todo != {} && HasJointMajority(c.cfg, c.nodes[b].voters + todo) && Others(c.cfg, b) != {}
    requires forall p :: p in todo ==> Packet(b, VoteReply(c.nodes[b].term, true, p)) in c.net
    ensures Ends(cs, c') && s <= cs && Onward(c, c', {b}) && Office(c', b, c.nodes[b])
    decreases todo
  {
    hide React, Execution, HasJointMajority, AllMembers;
    var n := c.nodes[b];
    var p :| p in todo;
    var yes := VoteReply(n.term, true, p);
    CountDuty(c.cfg, n, yes);
    cs, c' := Goes(s, c, b, Deliver(yes));
    if !HasJointMajority(c.cfg, n.voters + {p}) {
      var rest, s1, c1 := todo - {p}, cs, c';
      assert n.voters + {p} + rest == n.voters + todo;
      assert rest == {} ==> n.voters + {p} == n.voters + todo;
      cs, c' := Counts(s1, c1, b, rest);
      OnwardThen(c, c1, c', {b}, {b});
      assert {b} + {b} == {b};
      SameOffice(c', b, c.nodes[b], c1.nodes[b]);
    }
  }

  lemma SameOffice(c: Cluster, b: Id, n: Node, n1: Node)
    requires n.HasLog() && n1 == n.(voters := n1.voters) && Office(c, b, n1)
    ensures Office(c, b, n)
  {
  }

  /** Node `b` leads, every peer is next in line for what comes after its log, and nobody in `up` is in a later term. */
  ghost predicate Reigns(c: Cluster, b: Id, up: set<Id>) {
    && Manned(c) && b in c.nodes && var n := c.nodes[b];
    && n.role == Leader && n.next.Keys == n.matched.Keys == Others(c.cfg, b) != {}
    && n.snapIndex <= n.applied <= n.commit < n.LastIndex() && n.LastTerm() == n.term
    && (forall p :: p in n.next ==> n.next[p] == n.LastIndex() + 1 && n.matched[p] == n.snapIndex)
    && up <= c.nodes.Keys && (forall p :: p in up ==> c.nodes[p].term <= n.term)
  }

  lemma OfficeReigns(c: Cluster, b: Id, n: Node, full: seq<Entry>, up: set<Id>)
    requires Manned(c) && n.id == b && Tracks(n, full) && n.HasLog() && Office(c, b, n) && Others(c.cfg, b) != {}
    requires up <= c.nodes.Keys && forall p :: p in up ==> c.nodes[p].term <= n.term
    ensures Reigns(c, b, up)
  {
    hide Durable;
    OffsetLast(n.log, n.snapIndex, n.snapTerm, full);
  }

  /** A node stands, after a restart if it leads, in a later term than anybody who is up. */
  lemma Begins(s: seq<Cluster>, c: Cluster, b: Id, up: set<Id>) returns (c1: Cluster, cs: seq<Cluster>, c': Cluster, t: nat)
    requires Ends(s, c) && Manned(c) && |AllMembers(c.cfg)| != 1 && b in up && up <= c.nodes.Keys
    ensures Onward(c, c1, {b}) && c1.nodes[b].HasLog() && c1.nodes[b].log == c.nodes[b].log && c1.nodes[b].snapIndex == c.nodes[b].snapIndex
    ensures Ends(cs, c') && s <= cs && Onward(c1, c', {b}) && (forall p :: p in up ==> c1.nodes[p].term <= t)
    ensures c'.nodes[b].term > t && Standing(c', b, c1.nodes[b], c'.nodes[b].term)
  {
    hide Execution, AllMembers, Standing, Populated;
    var s1 := s;
    c1 := c;
    if c.nodes[b].role == Leader { s1, c1 := Restarts(s, c, b); }
    t := TermBound(c1, up);
    cs, c' := Rises(s1, c1, b, t);
  }

  /** Of the nodes that are up, somebody can be elected if they are a joint majority. */
  lemma Elects(s: seq<Cluster>, c: Cluster, up: set<Id>) returns (cs: seq<Cluster>, c': Cluster, b: Id)
    requires Ends(s, c) && |AllMembers(c.cfg)| != 1 && up <= c.nodes.Keys && HasJointMajority(c.cfg, up)
    ensures Ends(cs, c') && s <= cs && Onward(c, c', up) && b in up && Reigns(c', b, up)
    ensures forall p :: p in up ==> c'.nodes[p].snapIndex == c.nodes[p].snapIndex
  {
    hide Execution, AllMembers, Newest, Standing, HasJointMajority, Populated, Reigns, Supported;
    EndsManned(s, c);
    assert up != {} by { NobodyIsFew(c.cfg); }
    b := NewestExists(c, up);
    NotAlone(c.cfg, b);
    cs, c' := IsElected(s, c, b, up);
  }

  lemma IsElected(s: seq<Cluster>, c: Cluster, b: Id, up: set<Id>) returns (cs: seq<Cluster>, c': Cluster)
    requires Ends(s, c) && Manned(c) && |AllMembers(c.cfg)| != 1 && up <= c.nodes.Keys && HasJointMajority(c.cfg, up)
    requires b in up && Newest(c, up, b) && Others(c.cfg, b) != {}
    ensures Ends(cs, c') && s <= cs && Onward(c, c', up) && Reigns(c', b, up)
    ensures forall p :: p in up ==> c'.nodes[p].snapIndex == c.nodes[p].snapIndex
  {
    hide Ends, AllMembers, Newest, Standing, HasJointMajority, Populated, Reigns, Supported, Manned, Others;
    var c1, s2, c2, t := Begins(s, c, b, up);
    var s3, c3 := Gathers(c, c1, s2, c2, b, t, up);
    assert c3.cfg == c.cfg;
    cs, c' := Inaugurates(s3, c3, b, up);
    OnwardAll(c, c1, c2, c3, c', b, up);
  }

  lemma OnwardAll(c: Cluster, c1: Cluster, c2: Cluster, c3: Cluster, c': Cluster, b: Id, up: set<Id>)
    requires Onward(c, c1, {b}) && Onward(c1, c2, {b}) && Onward(c2, c3, up - {b}) && Onward(c3, c', {b}) && b in up
    ensures Onward(c, c', up)
  {
  }

  lemma NobodyIsFew(cfg: ClusterConfiguration)
    ensures !HasJointMajority(cfg, {})
  {
  }

  lemma SomeMember(cfg: ClusterConfiguration)
    requires Populated(cfg)
    ensures AllMembers(cfg) != {}
  {
  }

  /** Node `b` stands in the latest term, and everybody who is up has voted for it. */
  ghost predicate Supported(c: Cluster, b: Id, up: set<Id>) {
    && b in up && up <= c.nodes.Keys && c.nodes[b].HasLog() && c.nodes[b].role == Candidate && c.nodes[b].id == b
    && c.nodes[b].voters == {b}
    && forall p :: p in up && p != b ==> c.nodes[p].term == c.nodes[b].term && Packet(b, VoteReply(c.nodes[b].term, true, p)) in c.net
  }

  lemma Gathers(c: Cluster, c1: Cluster, s2: seq<Cluster>, c2: Cluster, b: Id, t: nat, up: set<Id>)
    returns (cs: seq<Cluster>, c': Cluster)
    requires Manned(c) && up <= c.nodes.Keys && b in up && Newest(c, up, b)
    requires Onward(c, c1, {b}) && c1.nodes[b].HasLog() && c1.nodes[b].log == c.nodes[b].log && c1.nodes[b].snapIndex == c.nodes[b].snapIndex
    requires Ends(s2, c2) && Onward(c1, c2, {b}) && (forall p :: p in up ==> c1.nodes[p].term <= t)
    requires c2.nodes[b].term > t && Standing(c2, b, c1.nodes[b], c2.nodes[b].term)
    ensures Ends(cs, c') && s2 <= cs && Onward(c2, c', up - {b}) && Supported(c', b, up)
    ensures forall p :: p in up ==> c'.nodes[p].snapIndex == c.nodes[p].snapIndex
  {
    hide Execution, AllMembers, Populated;
    EndsManned(s2, c2);
    var n := c2.nodes[b];
    var ask := RequestVote(n.term, b, n.LastIndex(), n.LastTerm());
    var todo := up - {b};
    forall p | p in todo ensures c2.nodes[p] == c.nodes[p] && NotOlder(ask, c2.nodes[p]) && Packet(p, ask) in c2.net {
      assert NotNewer(c.nodes[p], c.nodes[b]) && p in Others(c2.cfg, b);
    }
    cs, c' := Polls(s2, c2, ask, todo);
    forall p | p in todo ensures c'.nodes[p].term == n.term && c'.nodes[p].snapIndex == c.nodes[p].snapIndex && Packet(b, VoteReply(n.term, true, p)) in c'.net {
      assert Voter(c2.nodes[p], c'.nodes[p], n.term);
    }
  }

  /** A candidate that everybody who is up has voted for takes office. */
  lemma Inaugurates(s: seq<Cluster>, c: Cluster, b: Id, up: set<Id>) returns (cs: seq<Cluster>, c': Cluster)
    requires Ends(s, c) && Supported(c, b, up) && Others(c.cfg, b) != {} && HasJointMajority(c.cfg, up)
    ensures Ends(cs, c') && s <= cs && Onward(c, c', {b}) && Reigns(c', b, up) && c'.nodes[b].snapIndex == c.nodes[b].snapIndex
  {
    hide Execution, HasJointMajority, Explains, Inv, Grows, Tracks, AllMembers, Populated, Office, Reigns;
    var n, todo := c.nodes[b], up - {b};
    EndsManned(s, c);
    assert todo != {} by { OneIsFew(c.cfg, b); assert todo == {} ==> up == {b}; }
    assert {b} + todo == up;
    cs, c' := Counts(s, c, b, todo);
    EndsManned(cs, c');
    var u, w := TwoMoments(s, |s| - 1, |s| - 1);
    MirrorOf(c, w, b);
    OfficeTerm(c', b, n);
    OfficeReigns(c', b, n, w.servers[b].log, up);
  }

  lemma OfficeTerm(c: Cluster, b: Id, n: Node)
    requires n.HasLog() && Office(c, b, n)
    ensures c.nodes[b].term == n.term && c.nodes[b].snapIndex == n.snapIndex
  {
  }

  lemma NotAlone(cfg: ClusterConfiguration, b: Id)
    requires b in AllMembers(cfg) && |AllMembers(cfg)| != 1
    ensures Others(cfg, b) != {}
  {
    assert Others(cfg, b) == {} ==> AllMembers(cfg) == {b};
  }

  // ---------------------------------------------------------------- who can be brought up to date

  /** Both hold index `m`, with the same term. */
  ghost predicate MeetsAt(n: Node, p: Node, m: nat) {
    && n.HasLog() && p.HasLog() && n.snapIndex <= m <= n.LastIndex() && p.snapIndex <= m <= p.LastIndex()
    && n.log[m - n.snapIndex].term == if m == p.snapIndex then p.snapTerm else p.log[m - p.snapIndex].term
  }

  /** They meet somewhere below index `k`. */
  ghost predicate CanMeet(n: Node, p: Node, k: nat) { exists m: nat :: m < k && MeetsAt(n, p, m) }

  lemma MeetPoint(n: Node, fn: seq<Entry>, p: Node, fp: seq<Entry>)
    requires Tracks(n, fn) && Tracks(p, fp)
    requires n.snapIndex <= |fp| && fn[..n.snapIndex] == fp[..n.snapIndex] && fp[..p.commit] <= fn
    ensures n.HasLog() && CanMeet(n, p, n.LastIndex() + 1)
  {
    hide Durable;
    var m := Later(n.snapIndex, p.snapIndex);
    assert TermAt(fn, m) == TermAt(fp, m) by {
      if m > 0 {
        if m == n.snapIndex { assert fn[..m][m - 1] == fp[..m][m - 1]; }
        else { assert fp[..p.commit][m - 1] == fn[m - 1]; }
      }
    }
    OffsetLast(n.log, n.snapIndex, n.snapTerm, fn);
    OffsetLast(p.log, p.snapIndex, p.snapTerm, fp);
    OffsetAt(n.log, n.snapIndex, n.snapTerm, fn, m);
    OffsetAt(p.log, p.snapIndex, p.snapTerm, fp, m);
    assert MeetsAt(n, p, m);
  }

  /** What a server has committed is held by a joint majority. */
  lemma Holders(w: World, b: Id, k: nat) returns (q: set<Id>)
    requires Inv(w) && b in w.servers && 0 < k <= w.servers[b].commit
    ensures k <= |w.servers[b].log| && HasJointMajority(w.cfg, q) && q <= w.servers.Keys
    ensures forall p :: p in q ==> p in w.servers && k <= |w.servers[p].log| && w.servers[p].log[..k] == w.servers[b].log[..k]
  {
    var s := w.servers[b];
    assert ServerOk(w.cfg, w.past, b, s);
    var t: nat, i: nat :| t <= s.term && DecidedBy(w.cfg, w.past, s.log, s.commit, t, i);
    q := Ackers(w.cfg, w.past, t, i);
    DecidedIsOpen(w, t, i);
    forall p | p in q ensures p in w.servers && k <= |w.servers[p].log| && w.servers[p].log[..k] == s.log[..k] {
      KeptByAcker(w, t, i, p, s.log, s.commit, k);
    }
  }

  lemma KeptByAcker(w: World, t: nat, i: nat, p: Id, log: seq<Entry>, c: nat, k: nat)
    requires Inv(w) && Open(w, t, i) && DecidedBy(w.cfg, w.past, log, c, t, i) && p in Ackers(w.cfg, w.past, t, i) && k <= c
    ensures p in w.servers && k <= |w.servers[p].log| && w.servers[p].log[..k] == log[..k]
  {
    hide NetOk, PastOk, ServersOk, Open;
    assert ServerKeeps(w, t, i, p);
    var r := w.past.reigns[t].log;
    assert w.servers[p].log[..k] == r[..i][..k];
    assert log[..k] == log[..c][..k] == r[..c][..k];
  }

  /** Everybody is up, or those who are have not compacted their logs. */
  ghost predicate Sendable(c: Cluster, up: set<Id>)
    requires up <= c.nodes.Keys
  {
    up == AllMembers(c.cfg) || forall p :: p in up ==> c.nodes[p].snapIndex == 0
  }

  /** A joint majority of them can be brought up to date by the leader of the latest term. */
  lemma Backers(s: seq<Cluster>, c: Cluster, b: Id, up: set<Id>) returns (q: set<Id>)
    requires Ends(s, c) && Reigns(c, b, up) && b in up && HasJointMajority(c.cfg, up) && Sendable(c, up)
    ensures q <= up && HasJointMajority(c.cfg, q)
    ensures forall p :: p in q ==> CanMeet(c.nodes[b], c.nodes[p], c.nodes[b].LastIndex() + 1)
  {
    hide Execution, Explains, Inv, Grows, HasJointMajority, Durable, Offset, CanMeet, AllMembers, Populated;
    var u, w := TwoMoments(s, |s| - 1, |s| - 1);
    MirrorOf(c, w, b);
    ExplainsShape(c, w);
    if c.nodes[b].snapIndex == 0 { q := up; } else { q := Holders(w, b, c.nodes[b].snapIndex); }
    forall p | p in q ensures CanMeet(c.nodes[b], c.nodes[p], c.nodes[b].LastIndex() + 1) {
      PeerMeets(c, w, b, p);
    }
  }

  lemma PeerMeets(c: Cluster, w: World, b: Id, p: Id)
    requires Explains(c, w) && Inv(w) && b in c.nodes && p in c.nodes && b in w.servers && p in w.servers
    requires c.nodes[b].HasLog() && c.nodes[b].role == Leader && c.nodes[p].term <= c.nodes[b].term
    requires var k := c.nodes[b].snapIndex;
             k <= |w.servers[b].log| && k <= |w.servers[p].log| && w.servers[p].log[..k] == w.servers[b].log[..k]
    ensures CanMeet(c.nodes[b], c.nodes[p], c.nodes[b].LastIndex() + 1)
  {
    hide Explains, Inv, Durable, Offset, CanMeet;
    MirrorOf(c, w, b);
    MirrorOf(c, w, p);
    GrowsSelf(w);
    hide Grows;
    LeaderHasCommitted(w, w, p, b);
    MeetPoint(c.nodes[b], w.servers[b].log, c.nodes[p], w.servers[p].log);
  }

  lemma GrowsSelf(w: World)
    ensures Grows(w, w)
  {
  }

  lemma ExplainsShape(c: Cluster, w: World)
    requires Explains(c, w)
    ensures w.cfg == c.cfg && w.servers.Keys == c.nodes.Keys
  {
  }

  // ---------------------------------------------------------------- serving a request

  /** A leader whose last entry, of its own term, is that of request `r`. The peers in `done` have acknowledged it,
      which is not enough yet. */
  ghost predicate Serving(cfg: ClusterConfiguration, n: Node, done: set<Id>, r: Request) {
    && n.HasLog() && n.role == Leader && n.id in AllMembers(cfg) && n.next.Keys == n.matched.Keys == Others(cfg, n.id)
    && n.snapIndex <= n.applied <= n.commit < n.LastIndex() && n.LastTerm() == n.term
    && (forall p :: p in n.next ==> n.snapIndex < n.next[p] <= n.LastIndex() + 1)
    && (forall p :: p in n.matched ==> n.matched[p] == if p in done then n.LastIndex() else n.snapIndex)
    && n.LastIndex() in n.pending && n.pending[n.LastIndex()] == r
    && done <= Others(cfg, n.id) && !HasJointMajority(cfg, done + {n.id})
  }

  /** The same, but the peers in `done` may be enough. */
  ghost predicate Acknowledges(cfg: ClusterConfiguration, n: Node, done: set<Id>) {
    && n.HasLog() && n.next.Keys == n.matched.Keys == Others(cfg, n.id) && done <= Others(cfg, n.id) && n.id in AllMembers(cfg)
    && n.snapIndex <= n.commit < n.LastIndex()
    && (forall p :: p in n.matched ==> n.matched[p] == if p in done then n.LastIndex() else n.snapIndex)
  }

  lemma TableIs(cfg: ClusterConfiguration, n: Node, done: set<Id>)
    requires Acknowledges(cfg, n, done)
    ensures HeldBy(MatchTable(cfg, n), n.LastIndex()) == done + {n.id}
    ensures forall p :: p in MatchTable(cfg, n) ==> MatchTable(cfg, n)[p] == n.LastIndex() || MatchTable(cfg, n)[p] == n.snapIndex
  {
    hide AllMembers;
  }

  /** Without a joint majority nothing is committed ... */
  lemma NotYet(cfg: ClusterConfiguration, n: Node, done: set<Id>)
    requires Acknowledges(cfg, n, done) && !HasJointMajority(cfg, done + {n.id})
    ensures AdvanceCommitIndex(cfg, n) == Idle(n)
  {
    hide AllMembers, BestIndex, HasJointMajority, MatchTable, HeldBy, ApplyLogs;
    TableIs(cfg, n, done);
    var table := MatchTable(cfg, n);
    BestIsReported(cfg, table, n.commit);
    BestIsHeld(cfg, table, n.commit);
  }

  /** ... and with one, the last entry is, if it is of the leader's term, and its client is told. */
  lemma Enough(cfg: ClusterConfiguration, n: Node, done: set<Id>)
    requires Populated(cfg) && Acknowledges(cfg, n, done) && HasJointMajority(cfg, done + {n.id}) && n.LastTerm() == n.term
    requires n.applied < n.LastIndex() && n.LastIndex() in n.pending
    ensures Reply(n.pending[n.LastIndex()], true) in AdvanceCommitIndex(cfg, n).replies
  {
    hide AllMembers, BestIndex, HasJointMajority, MatchTable, HeldBy, ApplyLogs;
    TableIs(cfg, n, done);
    var table, k := MatchTable(cfg, n), n.LastIndex();
    BestIsReported(cfg, table, n.commit);
    BestIsLargest(cfg, table, n.commit, k);
    ApplyLogsTells(n.(commit := k), k);
  }

  lemma Refused(cfg: ClusterConfiguration, n: Node, done: set<Id>, r: Request, m: Message)
    requires Serving(cfg, n, done, r) && m.AppendReply? && m.term == n.term && !m.success && m.peer in n.next
    requires n.next[m.peer] > n.snapIndex + 1
    ensures var n' := React(cfg, n, Deliver(m)).node; n' == n.(next := n.next[m.peer := n.next[m.peer] - 1]) && Serving(cfg, n', done, r)
  {
    hide AllMembers, HasJointMajority, AdvanceCommitIndex;
    NotYet(cfg, Recorded(cfg, n, m), done);
  }

  lemma Acked(cfg: ClusterConfiguration, n: Node, done: set<Id>, r: Request, m: Message)
    requires Populated(cfg) && Serving(cfg, n, done, r) && m.AppendReply? && m.term == n.term && m.success && m.peer in n.next
    requires m.matchIndex == n.LastIndex()
    ensures var e := React(cfg, n, Deliver(m));
            || Reply(r, true) in e.replies
            || Further(cfg, n, e.node, done, m.peer, r)
  {
    hide AllMembers, HasJointMajority, AdvanceCommitIndex;
    var n1, more := Recorded(cfg, n, m), done + {m.peer};
    assert Acknowledges(cfg, n1, more);
    if HasJointMajority(cfg, more + {n.id}) { Enough(cfg, n1, more); } else { NotYet(cfg, n1, more); }
  }

  // ---------------------------------------------------------------- bringing a peer up to date

  /** Node `b` serves request `r`, and peer `p` can be brought up to date from below its next index. */
  ghost predicate Reaching(c: Cluster, b: Id, p: Id, done: set<Id>, r: Request, m: nat) {
    && Manned(c) && b in c.nodes && p in c.nodes && Serving(c.cfg, c.nodes[b], done, r) && p in c.nodes[b].next
    && MeetsAt(c.nodes[b], c.nodes[p], m) && m < c.nodes[b].next[p] && c.nodes[p].term <= c.nodes[b].term
  }

  /** Request `r` is served, or one more peer has its entry. */
  ghost predicate Advanced(c: Cluster, c': Cluster, b: Id, p: Id, done: set<Id>, r: Request) {
    && Onward(c, c', {b, p}) && b in c.nodes
    && (Reply(r, true) in c'.ledger.answers || Further(c.cfg, c.nodes[b], c'.nodes[b], done, p, r))
  }

  /** Leader `n` goes on as `n'`, and peer `p` has acknowledged its entry as well. */
  ghost predicate Further(cfg: ClusterConfiguration, n: Node, n': Node, done: set<Id>, p: Id, r: Request) {
    && Serving(cfg, n', done + {p}, r) && n'.log == n.log && n'.snapIndex == n.snapIndex && n'.term == n.term && n'.id == n.id
    && n'.next.Keys == n.next.Keys && forall x :: x in n.next && x != p ==> n'.next[x] == n.next[x]
  }

  /** The message that peer `p` is owed. */
  function Offer(n: Node, p: Id): Message
    requires n.HasLog() && p in n.next && n.snapIndex < n.next[p] <= n.LastIndex() + 1
  {
    var k := n.next[p];
    Append(n.term, n.id, k - 1, n.log[k - 1 - n.snapIndex].term, n.log[k - n.snapIndex..], n.commit)
  }

  lemma Offers(s: seq<Cluster>, c: Cluster, b: Id, p: Id, done: set<Id>, r: Request) returns (cs: seq<Cluster>, c': Cluster)
    requires Ends(s, c) && b in c.nodes && Serving(c.cfg, c.nodes[b], done, r) && c.nodes[b].id == b && p in c.nodes[b].next
    ensures Ends(cs, c') && s <= cs && Onward(c, c', {}) && Packet(p, Offer(c.nodes[b], p)) in c'.net
  {
    hide React, Execution, AllMembers, HasJointMajority;
    var n := c.nodes[b];
    HeartbeatDuty(c.cfg, n);
    cs, c' := Goes(s, c, b, HeartbeatTick);
    assert Owed(n, p, Offer(n, p));
    assert c'.nodes[b].next == n.next;
  }

  lemma ReachingShape(c: Cluster, b: Id, p: Id, done: set<Id>, r: Request, m: nat)
    requires Reaching(c, b, p, done, r, m)
    ensures var n := c.nodes[b];
            && b != p && n.HasLog() && n.id == b && n.role == Leader && p in n.next && n.snapIndex < n.next[p] <= n.LastIndex() + 1
            && c.nodes[p].HasLog() && c.nodes[p].id == p && c.nodes[p].term <= n.term && Populated(c.cfg)
  {
    hide AllMembers, HasJointMajority, MeetsAt;
  }

  /** Where the logs meet, the message joins. */
  lemma JoinsThere(n: Node, q: Node, p: Id, m: nat)
    requires n.HasLog() && p in n.next && n.snapIndex < n.next[p] <= n.LastIndex() + 1 && MeetsAt(n, q, m) && m < n.next[p]
    requires !Joins(q, Offer(n, p))
    ensures n.snapIndex <= m < n.next[p] - 1
  {
  }

  /** Node `b` as before, except that it goes one back for peer `p`, which has its log as before. */
  ghost predicate OneBack(n: Node, n': Node, q: Node, q': Node, p: Id)
    requires p in n.next && n.next[p] > 0
  {
    && n' == n.(next := n.next[p := n.next[p] - 1])
    && q'.log == q.log && q'.snapIndex == q.snapIndex && q'.snapTerm == q.snapTerm && q'.term <= n.term
  }

  lemma StillReaching(c: Cluster, c': Cluster, b: Id, p: Id, done: set<Id>, r: Request, m: nat)
    requires Reaching(c, b, p, done, r, m) && Onward(c, c', {b, p}) && Manned(c') && m < c.nodes[b].next[p] - 1
    requires OneBack(c.nodes[b], c'.nodes[b], c.nodes[p], c'.nodes[p], p) && Serving(c.cfg, c'.nodes[b], done, r)
    ensures Reaching(c', b, p, done, r, m)
  {
    hide Serving, Manned;
  }

  lemma AdvancedThen(c: Cluster, d: Cluster, e: Cluster, b: Id, p: Id, done: set<Id>, r: Request)
    requires b in c.nodes && p in c.nodes && p in c.nodes[b].next && c.nodes[b].next[p] > 0
    requires Onward(c, d, {b, p}) && OneBack(c.nodes[b], d.nodes[b], c.nodes[p], d.nodes[p], p) && Advanced(d, e, b, p, done, r)
    ensures Advanced(c, e, b, p, done, r)
  {
    hide Serving;
    OnwardThen(c, d, e, {b, p}, {b, p});
    assert {b, p} + {b, p} == {b, p};
  }

  /** Peer `p` is sent what it is owed and answers; the leader takes note. Either the peer has the entry then, or the leader
      goes one back. */
  lemma Tries(s: seq<Cluster>, c: Cluster, b: Id, p: Id, done: set<Id>, r: Request, m: nat) returns (cs: seq<Cluster>, c': Cluster)
    requires Ends(s, c) && Reaching(c, b, p, done, r, m)
    ensures Ends(cs, c') && s <= cs && Onward(c, c', {b, p}) && c.nodes[b].next[p] > 0
    ensures || Advanced(c, c', b, p, done, r)
            || (m < c.nodes[b].next[p] - 1 && OneBack(c.nodes[b], c'.nodes[b], c.nodes[p], c'.nodes[p], p)
                && Serving(c.cfg, c'.nodes[b], done, r))
  {
    hide Execution, React, HasJointMajority, AllMembers, Serving, MeetsAt, Manned, Merge;
    var n, q := c.nodes[b], c.nodes[p];
    ReachingShape(c, b, p, done, r, m);
    var s1, c1 := Offers(s, c, b, p, done, r);
    var msg := Offer(n, p);
    var hint := AppendDuty(c.cfg, q, msg);
    var s2, c2 := Goes(s1, c1, p, Deliver(msg));
    var answer := AppendReply(n.term, Joins(q, msg), hint, p);
    assert Packet(b, answer) in c2.net && c2.nodes[b] == n;
    if Joins(q, msg) { Acked(c.cfg, n, done, r, answer); }
    else { JoinsThere(n, q, p, m); Refused(c.cfg, n, done, r, answer); }
    cs, c' := Goes(s2, c2, b, Deliver(answer));
    OnwardThen(c, c1, c2, {}, {p});
    OnwardThen(c, c2, c', {} + {p}, {b});
    assert {} + {p} + {b} == {b, p};
  }

  /** A peer whose log meets that of the leader is brought up to date. */
  lemma {:induction false} Catches(s: seq<Cluster>, c: Cluster, b: Id, p: Id, done: set<Id>, r: Request, m: nat)
    returns (cs: seq<Cluster>, c': Cluster)
    requires Ends(s, c) && Reaching(c, b, p, done, r, m)
    ensures Ends(cs, c') && s <= cs && Advanced(c, c', b, p, done, r)
    decreases c.nodes[b].next[p]
  {
    hide Execution, Serving, MeetsAt, Manned;
    cs, c' := Tries(s, c, b, p, done, r, m);
    if !Advanced(c, c', b, p, done, r) {
      var s1, c1 := cs, c';
      EndsManned(s1, c1);
      StillReaching(c, c1, b, p, done, r, m);
      hide Advanced;
      cs, c' := Catches(s1, c1, b, p, done, r, m);
      AdvancedThen(c, c1, c', b, p, done, r);
    }
  }

  /** Everybody in `todo` can be brought up to date, and with those in `done` and the leader that is enough. */
  ghost predicate Backed(c: Cluster, b: Id, done: set<Id>, todo: set<Id>, r: Request) {
    && Manned(c) && b in c.nodes && Serving(c.cfg, c.nodes[b], done, r)
    && HasJointMajority(c.cfg, done + todo + {b})
    && forall p :: p in todo ==> Behindhand(c, b, p)
  }

  ghost predicate Behindhand(c: Cluster, b: Id, p: Id) {
    && b in c.nodes && p in c.nodes && p != b && p in c.nodes[b].next && c.nodes[p].term <= c.nodes[b].term
    && CanMeet(c.nodes[b], c.nodes[p], c.nodes[b].next[p])
  }

  lemma StillBehindhand(c: Cluster, c': Cluster, b: Id, p: Id, done: set<Id>, r: Request, x: Id)
    requires p in c.nodes && p != b && Advanced(c, c', b, p, done, r) && Reply(r, true) !in c'.ledger.answers
    requires Behindhand(c, b, x) && x != p
    ensures Behindhand(c', b, x)
  {
    hide Serving;
    var m: nat :| m < c.nodes[b].next[x] && MeetsAt(c.nodes[b], c.nodes[x], m);
    assert MeetsAt(c'.nodes[b], c'.nodes[x], m);
  }

  /** One peer after the other, until the request is served. */
  lemma {:induction false} Serves(s: seq<Cluster>, c: Cluster, b: Id, done: set<Id>, todo: set<Id>, r: Request) returns (cs: seq<Cluster>, c': Cluster)
    requires Ends(s, c) && Backed(c, b, done, todo, r)
    ensures Ends(cs, c') && s <= cs && Reply(r, true) in c'.ledger.answers && Onward(c, c', todo + {b})
    decreases todo
  {
    hide Execution, Serving, HasJointMajority, AllMembers, Manned, Behindhand;
    assert todo != {} by { NotDone(c, b, done, todo, r); }
    var p :| p in todo;
    var m := MeetBelow(c, b, p, done, r);
    cs, c' := Catches(s, c, b, p, done, r, m);
    OnwardWider(c, c', {b, p}, todo + {b});
    if Reply(r, true) !in c'.ledger.answers {
      var s1, c1, rest := cs, c', todo - {p};
      EndsManned(s1, c1);
      forall x | x in rest ensures Behindhand(c1, b, x) { PeerOf(c, b, p); StillBehindhand(c, c1, b, p, done, r, x); }
      assert done + {p} + rest + {b} == done + todo + {b};
      cs, c' := Serves(s1, c1, b, done + {p}, rest, r);
      OnwardThen(c, c1, c', todo + {b}, rest + {b});
      assert todo + {b} + (rest + {b}) == todo + {b};
    }
  }

  lemma PeerOf(c: Cluster, b: Id, p: Id)
    requires Behindhand(c, b, p)
    ensures p in c.nodes && p != b
  {
  }

  lemma NotDone(c: Cluster, b: Id, done: set<Id>, todo: set<Id>, r: Request)
    requires Backed(c, b, done, todo, r)
    ensures todo != {}
  {
    hide HasJointMajority, AllMembers, Behindhand;
    assert todo == {} ==> done + todo + {b} == done + {b};
  }

  lemma MeetBelow(c: Cluster, b: Id, p: Id, done: set<Id>, r: Request) returns (m: nat)
    requires Manned(c) && b in c.nodes && Serving(c.cfg, c.nodes[b], done, r) && Behindhand(c, b, p)
    ensures Reaching(c, b, p, done, r, m)
  {
    hide Manned, Serving;
    m :| m < c.nodes[b].next[p] && MeetsAt(c.nodes[b], c.nodes[p], m);
  }

  // ---------------------------------------------------------------- a new request

  /** The leader takes the request. */
  lemma Takes(cfg: ClusterConfiguration, n: Node, r: Request, cmd: Command)
    requires n.HasLog() && n.role == Leader && Others(cfg, n.id) != {}
    ensures var n' := React(cfg, n, Clients([ClientRequest(cmd, r)])).node;
            && n' == n.(log := n.log + [Entry(n.term, cmd)], pending := n'.pending, db := n'.db)
            && n'.LastIndex() in n'.pending && n'.pending[n'.LastIndex()] == r
  {
    hide ApplyWrites, ApplyLogs, AllMembers;
    var rs := [ClientRequest(cmd, r)];
    assert EntriesOf(n.term, rs) == [Entry(n.term, cmd)] && RequestsOf(rs) == [r];
  }

  lemma Enters(s: seq<Cluster>, c: Cluster, b: Id, r: Request, cmd: Command) returns (cs: seq<Cluster>, c': Cluster)
    requires Ends(s, c) && b in c.nodes && c.nodes[b].HasLog() && r !in c.ledger.issued
    ensures Ends(cs, c') && s <= cs && c'.cfg == c.cfg && c'.nodes.Keys == c.nodes.Keys
    ensures forall x :: x in c.nodes && x != b ==> c'.nodes[x] == c.nodes[x]
    ensures var e := React(c.cfg, c.nodes[b], Clients([ClientRequest(cmd, r)])); c'.nodes[b] == e.node && e.replies <= c'.ledger.answers
    ensures r in c'.ledger.issued && c'.ledger.issued[r] == cmd
  {
    hide React, Reacted, Deeds, Advances, Runs, Places;
    var rs := [ClientRequest(cmd, r)];
    assert Fresh(c.ledger, Clients(rs));
    ReactedHappens(c, b, Clients(rs));
    c' := Reacted(c, b, Clients(rs));
    ReactedShape(c, b, Clients(rs));
    RunsOn(s, c', LogsWhole);
    cs := s + [c'];
    assert rs[0].request == r;
    CommandsAt(rs, 0);
  }

  /** Nobody is a joint majority of several. */
  lemma OneIsFew(cfg: ClusterConfiguration, b: Id)
    requires b in AllMembers(cfg) && Others(cfg, b) != {}
    ensures !HasJointMajority(cfg, {b})
  {
    var x :| x in Others(cfg, b);
    match cfg
    case Simple(m, _) => FewOf(m.Keys, b, x);
    case Joint(o, n, _) => if x in o { FewOf(o.Keys, b, x); } else { FewOf(n.Keys, b, x); }
  }

  lemma FewOf(members: set<Id>, b: Id, x: Id)
    requires x in members && x != b
    ensures !Majority(members, {b})
  {
    if b in members {
      SubsetSize({b, x}, members);
      assert {b} * members == {b};
    } else {
      assert {b} * members == {};
    }
  }

  lemma ServingStarts(cfg: ClusterConfiguration, c: Cluster, b: Id, up: set<Id>, n': Node, r: Request, cmd: Command)
    requires Reigns(c, b, up) && cfg == c.cfg && n' == c.nodes[b].(log := c.nodes[b].log + [Entry(c.nodes[b].term, cmd)], pending := n'.pending, db := n'.db)
    requires n'.LastIndex() in n'.pending && n'.pending[n'.LastIndex()] == r
    ensures Serving(cfg, n', {}, r)
  {
    hide AllMembers, HasJointMajority;
    OneIsFew(cfg, b);
    assert {} + {b} == {b};
  }

  lemma MeetStill(n: Node, n': Node, p: Node, k: nat, e: Entry)
    requires n.HasLog() && CanMeet(n, p, k) && n'.log == n.log + [e] && n'.snapIndex == n.snapIndex
    ensures CanMeet(n', p, k)
  {
    var m: nat :| m < k && MeetsAt(n, p, m);
    assert MeetsAt(n', p, m);
  }

  /** Nobody outside `up` has changed, and request `r`, for `cmd`, is acknowledged. */
  ghost predicate Served(c: Cluster, c': Cluster, up: set<Id>, r: Request, cmd: Command) {
    && c'.nodes.Keys == c.nodes.Keys && (forall x :: x in c.nodes && x !in up ==> c'.nodes[x] == c.nodes[x])
    && r in c'.ledger.issued && c'.ledger.issued[r] == cmd && Reply(r, true) in c'.ledger.answers
  }

  /** The leader of the latest term can serve a request. */
  lemma ReignServes(s: seq<Cluster>, c: Cluster, b: Id, up: set<Id>, r: Request, cmd: Command) returns (cs: seq<Cluster>, c': Cluster)
    requires Ends(s, c) && Reigns(c, b, up) && b in up && HasJointMajority(c.cfg, up) && Sendable(c, up) && r !in c.ledger.issued
    ensures Ends(cs, c') && s <= cs && Served(c, c', up, r, cmd)
  {
    hide Execution, React, HasJointMajority, AllMembers, CanMeet, Serving;
    var n := c.nodes[b];
    var q := Backers(s, c, b, up);
    Takes(c.cfg, n, r, cmd);
    var s1, c1 := Enters(s, c, b, r, cmd);
    EndsManned(s1, c1);
    ServingStarts(c.cfg, c, b, up, c1.nodes[b], r, cmd);
    var todo := q - {b};
    forall p | p in todo ensures Behindhand(c1, b, p) {
      assert p in Others(c.cfg, b);
      MeetStill(n, c1.nodes[b], c.nodes[p], n.LastIndex() + 1, Entry(n.term, cmd));
    }
    QuorumGrows(c.cfg, q, {} + todo + {b});
    hide Manned, Reigns, Behindhand;
    assert Backed(c1, b, {}, todo, r);
    cs, c' := Serves(s1, c1, b, {}, todo, r);
  }

  // ---------------------------------------------------------------- a cluster of one

  lemma AlonePeers(cfg: ClusterConfiguration, b: Id)
    requires b in AllMembers(cfg) && |AllMembers(cfg)| == 1
    ensures Others(cfg, b) == {}
  {
    var rest := AllMembers(cfg) - {b};
    assert AllMembers(cfg) == rest + {b};
  }

  /** Alone, whoever stands leads. */
  lemma AloneLeads(cfg: ClusterConfiguration, n: Node)
    requires n.HasLog() && n.role != Leader && |AllMembers(cfg)| == 1
    ensures var n' := React(cfg, n, ElectionTimeout).node; n'.role == Leader && n'.HasLog() && n'.id == n.id
  {
    hide ApplyWrites, ApplyLogs, AllMembers, Numbered;
    var e := Campaign(n);
    var t := TakeOffice(cfg, e.node).node;
    ApplyLogsKeep(t.(commit := t.LastIndex()));
  }

  /** Alone, a leader serves at once. */
  lemma AloneServes(cfg: ClusterConfiguration, n: Node, r: Request, cmd: Command)
    requires n.HasLog() && n.role == Leader && Others(cfg, n.id) == {} && n.applied <= n.commit <= n.LastIndex()
    ensures Reply(r, true) in React(cfg, n, Clients([ClientRequest(cmd, r)])).replies
  {
    hide ApplyWrites, ApplyLogs, AllMembers;
    var rs := [ClientRequest(cmd, r)];
    var e := Enqueue(n, rs);
    var last := n.LastIndex() + 1;
    assert RequestsOf(rs) == [r] && EntriesOf(n.term, rs) == [Entry(n.term, cmd)];
    assert e.node.pending[last] == r;
    ApplyLogsTells(e.node.(commit := last), last);
  }

  lemma Alone(s: seq<Cluster>, c: Cluster, r: Request, cmd: Command) returns (cs: seq<Cluster>, c': Cluster)
    requires Ends(s, c) && |AllMembers(c.cfg)| == 1 && r !in c.ledger.issued
    ensures Ends(cs, c') && s <= cs && Served(c, c', AllMembers(c.cfg), r, cmd)
  {
    hide Execution, React, Explains, Inv, Grows, Durable, AllMembers;
    EndsManned(s, c);
    assert AllMembers(c.cfg) != {} by { SomeMember(c.cfg); }
    var b :| b in AllMembers(c.cfg);
    AlonePeers(c.cfg, b);
    var s1, c1 := s, c;
    if c.nodes[b].role != Leader {
      AloneLeads(c.cfg, c.nodes[b]);
      s1, c1 := Goes(s, c, b, ElectionTimeout);
    }
    EndsManned(s1, c1);
    var u, w := TwoMoments(s1, |s1| - 1, |s1| - 1);
    MirrorOf(c1, w, b);
    OffsetLast(c1.nodes[b].log, c1.nodes[b].snapIndex, c1.nodes[b].snapTerm, w.servers[b].log);
    AloneServes(c1.cfg, c1.nodes[b], r, cmd);
    cs, c' := Enters(s1, c1, b, r, cmd);
  }

  // ---------------------------------------------------------------- the theorem

  /** Whatever has happened, a new request can still be served by the nodes that are up, if they are a joint
      majority: every execution goes on to one in which its client hears Ok and nobody else has
      changed. Unless all are up, their logs must still be whole, since what was
      compacted is not sent. */
  lemma NeverStuck(cs: seq<Cluster>, up: set<Id>, r: Request, cmd: Command) returns (ds: seq<Cluster>)
    requires Execution(cs)
    requires var c := cs[|cs| - 1];
             up <= c.nodes.Keys && HasJointMajority(c.cfg, up) && Sendable(c, up) && r !in c.ledger.issued
    ensures Execution(ds) && cs <= ds
    ensures Served(cs[|cs| - 1], ds[|ds| - 1], up, r, cmd)
  {
    hide Runs, AllMembers, Reigns, HasJointMajority;
    assert |cs| > 0 by { ExecutionStarts(cs); }
    var c := cs[|cs| - 1];
    EndsManned(cs, c);
    var c': Cluster;
    if |AllMembers(c.cfg)| == 1 {
      assert up == AllMembers(c.cfg) by { OnlyOne(c.cfg, up); }
      ds, c' := Alone(cs, c, r, cmd);
    } else {
      var es, d, b := Elects(cs, c, up);
      ds, c' := ReignServes(es, d, b, up, r, cmd);
    }
  }

  lemma OnlyOne(cfg: ClusterConfiguration, up: set<Id>)
    requires |AllMembers(cfg)| == 1 && up <= AllMembers(cfg) && HasJointMajority(cfg, up)
    ensures up == AllMembers(cfg)
  {
    hide HasJointMajority, AllMembers;
    NobodyIsFew(cfg);
    assert up != {};
    var b :| b in up;
    AlonePeers(cfg, b);
    assert forall x :: x in AllMembers(cfg) ==> x == b || x in Others(cfg, b);
  }

  lemma ExecutionStarts(cs: seq<Cluster>)
    requires Execution(cs)
    ensures |cs| > 0
  {
  }
}
