/**
What a server owes its peers: to which requests it gives its vote, whom it asks,
when it takes office, what it sends to followers, what it takes from a leader,
and how it reads the answers.
*/
module RaftDuties {
  import opened Options
  import opened Quorum
  import opened Master
  import opened RaftProtocol
  import opened RaftNode
  import opened RaftReplies

  function Later(a: nat, b: nat): nat { if a < b then b else a }

  // ---------------------------------------------------------------- votes

  /** The candidate's log is not older than that of the server. */
  predicate NotOlder(m: Message, n: Node)
    requires m.RequestVote? && n.HasLog()
  {
    m.lastTerm > n.LastTerm() || (m.lastTerm == n.LastTerm() && m.lastIndex >= n.LastIndex())
  }

  /** The request is not outdated, the log is not older, and the server has voted for nobody else in that term. */
  predicate GrantDue(m: Message, n: Node)
    requires m.RequestVote? && n.HasLog()
  {
    && m.term >= n.term && NotOlder(m, n)
    && (m.term > n.term || n.votedFor == None || n.votedFor == Some(m.candidate))
  }

  /** Every vote request gets one answer, to the candidate. It is a grant exactly if one is due, and the
      vote is then stored. A higher term is adopted either way; nothing else changes. */
  lemma VoteDuty(cfg: ClusterConfiguration, n: Node, m: Message)
    requires n.HasLog() && m.RequestVote?
    ensures var e, grant, higher := React(cfg, n, Deliver(m)), GrantDue(m, n), m.term > n.term;
            && e.sent == {Packet(m.candidate, VoteReply(Later(n.term, m.term), grant, n.id))}
            && e.node == n.(term := Later(n.term, m.term),
                            role := if higher then Follower else n.role,
                            votedFor := if grant then Some(m.candidate) else if higher then None else n.votedFor,
                            pending := if higher && n.role == Leader then map[] else n.pending,
                            db := n.db.(term := if higher then m.term else n.db.term,
                                        vote := if grant then Some(m.candidate) else if higher then None else n.db.vote))
  {
    hide ApplyWrites;
    if m.term > n.term {
      WritesTwo(n.db, PutTerm(m.term), PutVote(None));
      WritesOne(StepDown(n, m.term).node.db, PutVote(Some(m.candidate)));
    } else {
      WritesOne(n.db, PutVote(Some(m.candidate)));
    }
  }

  /** A request whose grant was lost is granted again. */
  lemma GrantedAgain(cfg: ClusterConfiguration, n: Node, m: Message)
    requires n.HasLog() && m.RequestVote? && GrantDue(m, n)
    ensures var n' := React(cfg, n, Deliver(m)).node; n'.HasLog() && GrantDue(m, n')
  {
    hide React;
    VoteDuty(cfg, n, m);
  }

  // ---------------------------------------------------------------- elections

  /** The peers of server `id`. */
  function Others(cfg: ClusterConfiguration, id: Id): set<Id> { AllMembers(cfg) - {id} }

  /** Whoever does not lead when the timer runs out stands in the next term, stores its own vote, and asks
      every peer. */
  lemma ElectionDuty(cfg: ClusterConfiguration, n: Node)
    requires n.HasLog() && n.role != Leader && |AllMembers(cfg)| != 1
    ensures var e := React(cfg, n, ElectionTimeout);
            && e.node == n.(role := Candidate, term := n.term + 1, votedFor := Some(n.id), voters := {n.id},
                            db := n.db.(term := n.term + 1, vote := Some(n.id)))
            && (forall p :: p in e.sent <==>
                  p.dst in Others(cfg, n.id) && p.msg == RequestVote(n.term + 1, n.id, n.LastIndex(), n.LastTerm()))
  {
    hide ApplyWrites, BecomeLeader, AllMembers;
    WritesTwo(n.db, PutTerm(n.term + 1), PutVote(Some(n.id)));
  }

  /** A leader that has just taken office: an entry of its own term at the end of the log and in the
      store, every peer next in line for what comes after it, and nothing acknowledged. */
  ghost predicate InOffice(cfg: ClusterConfiguration, n: Node, n': Node)
    requires n.HasLog()
  {
    && n'.role == Leader && n'.id == n.id && n'.term == n.term && n'.votedFor == n.votedFor && n'.pending == n.pending
    && n'.log == n.log + [Entry(n.term, NoOp)] && n'.snapIndex == n.snapIndex && n'.snapTerm == n.snapTerm
    && n'.db == n.db.(log := n.db.log[n.LastIndex() + 1 := Entry(n.term, NoOp)])
    && n'.next.Keys == n'.matched.Keys == Others(cfg, n.id)
    && (forall p :: p in n'.next ==> n'.next[p] == n.LastIndex() + 2 && n'.matched[p] == n.snapIndex)
  }

  lemma TakesOffice(cfg: ClusterConfiguration, n: Node)
    requires n.HasLog() && Others(cfg, n.id) != {}
    ensures var n' := BecomeLeader(cfg, n).node;
            InOffice(cfg, n, n') && n'.commit == n.commit && n'.applied == n.applied && n'.app == n.app
    ensures BecomeLeader(cfg, n).sent == {}
  {
    hide ApplyWrites, ApplyLogs, AllMembers;
    var entry, at := Entry(n.term, NoOp), n.LastIndex() + 1;
    WritesOne(n.db, PutEntries(Numbered([entry], at)));
    assert n.db.log + Numbered([entry], at) == n.db.log[at := entry];
  }

  /** A candidate that is granted a vote in its term leads exactly if its voters are then a joint majority; it
      notes the vote otherwise. A reply of a higher term makes any server follow; nothing else matters. */
  lemma CountDuty(cfg: ClusterConfiguration, n: Node, m: Message)
    requires n.HasLog() && m.VoteReply? && Others(cfg, n.id) != {}
    ensures var n', counts := React(cfg, n, Deliver(m)).node, n.role == Candidate && n.term == m.term && m.granted;
            && (counts && HasJointMajority(cfg, n.voters + {m.peer}) ==>
                  InOffice(cfg, n, n') && n'.commit == n.commit && n'.applied == n.applied)
            && (counts && !HasJointMajority(cfg, n.voters + {m.peer}) ==> n' == n.(voters := n.voters + {m.peer}))
            && (!counts && m.term > n.term ==>
                  n'.role == Follower && n'.term == n'.db.term == m.term && n'.votedFor == n'.db.vote == None && n'.log == n.log)
            && (!counts && m.term <= n.term ==> n' == n)
  {
    hide ApplyWrites, BecomeLeader, HasJointMajority, AllMembers;
    if n.role == Candidate && n.term == m.term && m.granted { TakesOffice(cfg, n.(voters := n.voters + {m.peer})); }
    WritesTwo(n.db, PutTerm(m.term), PutVote(None));
  }

  // ---------------------------------------------------------------- replication

  /** What a leader owes peer `p`: everything from its next index on. */
  ghost predicate Owed(n: Node, p: Id, m: Message)
    requires n.HasLog() && p in n.next
  {
    var k := n.next[p];
    && n.snapIndex < k <= n.LastIndex() + 1
    && m == Append(n.term, n.id, k - 1, n.log[k - 1 - n.snapIndex].term, n.log[k - n.snapIndex..], n.commit)
  }

  /** A heartbeat brings every peer what it is owed, and nothing else is sent. A next index beyond the log is set
      back to its end. */
  lemma HeartbeatDuty(cfg: ClusterConfiguration, n: Node)
    requires n.HasLog() && n.role == Leader && n.next.Keys == Others(cfg, n.id)
    ensures var e := React(cfg, n, HeartbeatTick);
            && (forall p :: p in e.sent <==> p.dst in n.next && Owed(n, p.dst, p.msg))
            && e.node.next.Keys == n.next.Keys && e.node == n.(next := e.node.next)
            && (forall p :: p in n.next ==>
                  e.node.next[p] == if n.next[p] > n.LastIndex() + 1 then n.LastIndex() + 1 else n.next[p])
  {
    hide AllMembers;
    var e := React(cfg, n, HeartbeatTick);
    forall p ensures p in e.sent <==> p.dst in n.next && Owed(n, p.dst, p.msg) {
      if p.dst in n.next && Owed(n, p.dst, p.msg) { assert Heartbeat(n, p.dst) == Some(p.msg); }
    }
  }

  /** The log of a follower holds the entry that a message builds on. */
  predicate Joins(n: Node, m: Message)
    requires m.Append? && n.HasLog()
  {
    && n.snapIndex <= m.prevIndex <= n.LastIndex()
    && (if m.prevIndex == n.snapIndex then n.snapTerm else n.log[m.prevIndex - n.snapIndex].term) == m.prevTerm
  }

  /** Every message of a leader gets one answer. It is yes exactly if the message is not outdated and joins the log.
      Then the log is merged with the entries, and the commit index follows the leader's as far
      as the log goes. Otherwise the log stays. */
  lemma AppendDuty(cfg: ClusterConfiguration, n: Node, m: Message) returns (hint: nat)
    requires n.HasLog() && m.Append?
    ensures var e, yes := React(cfg, n, Deliver(m)), m.term >= n.term && Joins(n, m);
            && e.sent == {Packet(m.leader, AppendReply(Later(n.term, m.term), yes, hint, n.id))}
            && (yes ==> hint == m.prevIndex + |m.entries|)
            && e.node.HasLog() && e.node.id == n.id && e.node.term == Later(n.term, m.term)
            && e.node.snapIndex == n.snapIndex && e.node.snapTerm == n.snapTerm
            && (m.term >= n.term ==> e.node.role == Follower)
            && (m.term < n.term ==> e.node == n)
            && e.node.log == (if yes then Merge(n.log, m.prevIndex - n.snapIndex + 1, m.entries) else n.log)
            && e.node.commit == (if yes && m.leaderCommit > n.commit then Min(m.leaderCommit, e.node.LastIndex()) else n.commit)
  {
    hide ApplyWrites, ApplyLogs, Merge, AdoptWrites, RefusalHint;
    var e := React(cfg, n, Deliver(m));
    assert PrevMatches(n, m) <==> Joins(n, m);
    hint := 0;
    if m.term >= n.term {
      hint := if Joins(n, m) then m.prevIndex + |m.entries| else RefusalHint(n, m);
      var d := StepDown(n, m.term);
      if Joins(n, m) {
        var a := Adopt(d.node, m.prevIndex, m.entries).node;
        ApplyLogsKeep(a.(commit := Min(m.leaderCommit, a.LastIndex())));
        ApplyLogsSilent(a.(commit := Min(m.leaderCommit, a.LastIndex())));
      }
    }
  }

  lemma {:induction false} ApplyLogsSilent(n: Node)
    ensures ApplyLogs(n).sent == {}
    decreases n.commit - n.applied
  {
    if n.commit > n.applied { ApplyLogsSilent(ApplyOne(n).node); }
  }

  /** Yes moves what a peer has and is to get next to what it reported; no moves what it is to get one
      back, but not behind the snapshot point. */
  lemma ReplyDuty(cfg: ClusterConfiguration, n: Node, m: Message)
    requires n.HasLog() && n.role == Leader && n.next.Keys == n.matched.Keys == Others(cfg, n.id)
    requires m.AppendReply? && m.term == n.term && m.peer in n.next
    ensures var n' := React(cfg, n, Deliver(m)).node;
            && n'.next.Keys == n'.matched.Keys == n.next.Keys && n'.role == Leader && n'.term == n.term
            && n'.log == n.log && n'.snapIndex == n.snapIndex && n'.id == n.id
            && (forall p :: p in n.next && p != m.peer ==> n'.next[p] == n.next[p] && n'.matched[p] == n.matched[p])
            && n'.matched[m.peer] == (if m.success then m.matchIndex else n.matched[m.peer])
            && n'.next[m.peer] == (if m.success then m.matchIndex + 1
                                   else if n.next[m.peer] > n.snapIndex + 1 then n.next[m.peer] - 1
                                   else n.next[m.peer])
  {
    hide ApplyLogs, AllMembers, BestIndex, MatchTable;
    var n1 := Recorded(cfg, n, m);
    ApplyLogsKeep(n1.(commit := BestIndex(cfg, MatchTable(cfg, n1), n1.commit)));
  }

  // ---------------------------------------------------------------- compaction

  /** `log'` is `log` without the entries after `lo`, up to `hi`. */
  ghost predicate Thinned(log: map<nat, Entry>, log': map<nat, Entry>, lo: nat, hi: nat) {
    && (forall i :: i in log' <==> i in log && !(lo < i <= hi))
    && (forall i :: i in log' ==> log'[i] == log[i])
  }

  lemma {:induction false} CompactsDrop(db: Store, lo: nat, hi: nat)
    requires lo <= hi
    ensures var r := ApplyWrites(db, Compacts(lo, hi)); r == db.(log := r.log) && Thinned(db.log, r.log, lo, hi)
    decreases hi
  {
    var ws := Compacts(lo, hi);
    if lo < hi {
      CompactsDrop(db, lo, hi - 1);
      assert ws[..|ws| - 1] == Compacts(lo, hi - 1) && ws[|ws| - 1] == CompactEntry(hi);
    }
  }

  /** A snapshot is taken exactly if more than a hundred entries are in memory and something was applied
      since the last one. It holds the application state and stands for everything applied; the
      entries after that stay, and those before leave the store. */
  lemma SnapshotDuty(cfg: ClusterConfiguration, n: Node)
    requires n.HasLog() && n.snapIndex <= n.applied <= n.LastIndex()
    ensures var n', due := React(cfg, n, SnapshotTick).node, |n.log| > 100 && n.applied > n.snapIndex;
            && (!due ==> n' == n)
            && (due ==>
                  && n'.snapIndex == n.applied && n'.snapTerm == n.log[n.applied - n.snapIndex].term
                  && |n'.log| == |n.log| - (n.applied - n.snapIndex) && n'.log[1..] == n.log[n.applied - n.snapIndex + 1..]
                  && n' == n.(snapIndex := n'.snapIndex, snapTerm := n'.snapTerm, log := n'.log, db := n'.db)
                  && n'.db == n.db.(meta := Some(SnapshotMeta(n.applied, n'.snapTerm)), data := Some(n.app), log := n'.db.log)
                  && Thinned(n.db.log, n'.db.log, n.snapIndex, n.applied))
  {
    hide ApplyWrites, Compacts, Thinned;
    if SnapshotDue(n) {
      var t := n.log[n.applied - n.snapIndex].term;
      var head := [PutMeta(SnapshotMeta(n.applied, t)), PutData(n.app)];
      WritesTwo(n.db, head[0], head[1]);
      WritesConcat(n.db, head, Compacts(n.snapIndex, n.applied));
      CompactsDrop(ApplyWrites(n.db, head), n.snapIndex, n.applied);
    }
  }
}
