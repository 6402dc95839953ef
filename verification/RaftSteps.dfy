/**
Every protocol step keeps the invariant. A step of server `n` leaves the other
servers alone; each lemma answers for `n` itself and for what the step adds to
the history.
*/
module RaftSteps {
  import opened Options
  import opened Quorum
  import opened RaftProtocol
  import opened RaftInvariant

  // ---------------------------------------------------------------- across reigns

  lemma LeaderKeepsStays(w: World, w': World, t1: nat, i: nat, t2: nat)
    requires Keeps(w) && Grows(w, w') && AcksInTime(w, w')
    requires OwnIndex(w.past, t1, i) && t2 in w.past.reigns
    ensures LeaderKeeps(w', t1, i, t2)
  {
    if Open(w', t1, i) && t1 < t2 {
      OpenShrinks(w, w', t1, i);
      assert LeaderKeeps(w, t1, i, t2);
      PrefixSlices(w.past.reigns[t1].log, w'.past.reigns[t1].log, 0, i);
    }
  }

  lemma ServerKeepsStays(w: World, w': World, t: nat, i: nat, m: Id)
    requires Keeps(w) && Grows(w, w') && AcksInTime(w, w')
    requires OwnIndex(w.past, t, i) && m in w.servers && w'.servers[m].log == w.servers[m].log
    requires AckOf(w'.past, m, t) == AckOf(w.past, m, t)
    ensures ServerKeeps(w', t, i, m)
  {
    if i <= AckOf(w'.past, m, t) && Open(w', t, i) {
      OpenShrinks(w, w', t, i);
      assert ServerKeeps(w, t, i, m);
      PrefixSlices(w.past.reigns[t].log, w'.past.reigns[t].log, 0, i);
    }
  }

  lemma VoteKeepsStays(w: World, w': World, t: nat, i: nat, b: Ballot)
    requires Keeps(w) && Grows(w, w') && AcksInTime(w, w')
    requires OwnIndex(w.past, t, i) && b in w.past.votes && VoteOk(w.past, b)
    requires AckOf(w'.past, b.node, t) == AckOf(w.past, b.node, t)
    ensures VoteKeeps(w', t, i, b)
  {
    if t < b.term && i <= AckOf(w'.past, b.node, t) && Open(w', t, i) {
      OpenShrinks(w, w', t, i);
      assert VoteKeeps(w, t, i, b);
      PrefixSlices(w.past.reigns[t].log, w'.past.reigns[t].log, 0, i);
    }
  }

  /** A step that adds no entry, no reign and no acknowledgement keeps the three
      facts, as long as the vote it adds respects them. */
  lemma KeepsStays(w: World, w': World)
    requires PastOk(w.cfg, w.past) && Keeps(w) && Grows(w, w')
    requires w'.past.reigns == w.past.reigns && w'.past.acks == w.past.acks
    requires forall m :: m in w.servers ==> w'.servers[m].log == w.servers[m].log
    requires forall b, t: nat, i: nat :: b in w'.past.votes && b !in w.past.votes ==> VoteKeeps(w', t, i, b)
    ensures Keeps(w')
  {
    forall t1: nat, i: nat, t2: nat ensures LeaderKeeps(w', t1, i, t2) {
      if Open(w', t1, i) && t2 in w'.past.reigns { LeaderKeepsStays(w, w', t1, i, t2); }
    }
    forall t: nat, i: nat, m ensures ServerKeeps(w', t, i, m) {
      if Open(w', t, i) && m in w'.servers { ServerKeepsStays(w, w', t, i, m); }
    }
    forall t: nat, i: nat, b ensures VoteKeeps(w', t, i, b) {
      if Open(w', t, i) && b in w.past.votes {
        assert VoteOk(w.past, b);
        VoteKeepsStays(w, w', t, i, b);
      }
    }
  }

  // ---------------------------------------------------------------- quiet steps

  /** A step of `n` that adds nothing to the history and leaves the log alone. */
  ghost predicate Quiet(w: World, w': World, n: Id, s: Server) {
    && n in w.servers
    && w'.cfg == w.cfg && w'.past == w.past && w.net <= w'.net
    && w'.servers == w.servers[n := s]
    && s.log == w.servers[n].log
    && s.term >= w.servers[n].term
    && (s.role == Candidate ==> w.servers[n].role == Candidate && s.term == w.servers[n].term)
  }

  lemma QuietKeeps(w: World, w': World, n: Id, s: Server)
    requires Inv(w) && Quiet(w, w', n, s) && ServerOk(w.cfg, w.past, n, s)
    requires forall p :: p in w'.net && p !in w.net ==> PacketOk(w.cfg, w.past, p)
    ensures Inv(w') && Grows(w, w')
  {
    hide PastOk, Keeps, NetOk, ServerOk, VoteKeeps;
    assert Grows(w, w');
    KeepsStays(w, w');
    NetGrows(w, w');
    forall m | m in w'.servers ensures ServerOk(w'.cfg, w'.past, m, w'.servers[m]) {
      assert ServerOk(w.cfg, w.past, m, w.servers[m]);
    }
    forall t | t in w'.past.reigns ensures Placed(w', t) { assert Placed(w, t); }
  }

  lemma AdoptTermKeeps(w: World, w': World, n: Id, t: nat, v: Option<Id>)
    requires Inv(w) && AdoptTerm(w, w', n, t, v)
    ensures Inv(w') && Grows(w, w')
  {
    var s := w.servers[n];
    assert ServerOk(w.cfg, w.past, n, s);
    SettledGrows(w.cfg, w.past, w.past, s.log, s.log, s.commit, s.term, t);
    QuietKeeps(w, w', n, w'.servers[n]);
  }

  lemma RetreatKeeps(w: World, w': World, n: Id, c: nat, ms: map<Id, nat>, vs: set<Id>)
    requires Inv(w) && Retreat(w, w', n, c, ms, vs)
    ensures Inv(w') && Grows(w, w')
  {
    var s := w.servers[n];
    assert ServerOk(w.cfg, w.past, n, s);
    SettledLess(w.cfg, w.past, s.log, s.commit, c, s.term);
    QuietKeeps(w, w', n, w'.servers[n]);
  }

  lemma CountVoteKeeps(w: World, w': World, n: Id, m: Message)
    requires Inv(w) && CountVote(w, w', n, m)
    ensures Inv(w') && Grows(w, w')
  {
    assert ServerOk(w.cfg, w.past, n, w.servers[n]);
    assert PacketOk(w.cfg, w.past, Packet(n, m));
    QuietKeeps(w, w', n, w'.servers[n]);
  }

  lemma RecordMatchKeeps(w: World, w': World, n: Id, m: Message)
    requires Inv(w) && RecordMatch(w, w', n, m)
    ensures Inv(w') && Grows(w, w')
  {
    assert ServerOk(w.cfg, w.past, n, w.servers[n]);
    assert PacketOk(w.cfg, w.past, Packet(n, m));
    QuietKeeps(w, w', n, w'.servers[n]);
  }

  lemma ReplicateKeeps(w: World, w': World, n: Id, ps: set<Packet>)
    requires Inv(w) && Replicate(w, w', n, ps)
    ensures Inv(w') && Grows(w, w')
  {
    var s := w.servers[n];
    assert ServerOk(w.cfg, w.past, n, s);
    forall p | p in w'.net && p !in w.net ensures PacketOk(w.cfg, w.past, p) {
      assert Replication(s, n, p.msg);
      assert s.log[p.msg.prevIndex..] == s.log[p.msg.prevIndex..p.msg.prevIndex + |p.msg.entries|];
    }
    QuietKeeps(w, w', n, s);
  }

  lemma RefuseKeeps(w: World, w': World, ps: set<Packet>)
    requires Inv(w) && Refuse(w, w', ps)
    ensures Inv(w') && Grows(w, w')
  {
    KeepsStays(w, w');
    NetGrows(w, w');
    forall m | m in w'.servers ensures ServerOk(w'.cfg, w'.past, m, w'.servers[m]) {
      assert ServerOk(w.cfg, w.past, m, w.servers[m]);
    }
    forall t | t in w'.past.reigns ensures Placed(w', t) { assert Placed(w, t); }
  }

  /** Whatever a leader counts as held beyond its commit index has been acknowledged. */
  lemma HoldersAcked(cfg: Config, h: History, n: Id, s: Server, c: nat)
    requires LeaderOk(h, n, s) && s.commit < c <= |s.log| && n in AllMembers(cfg)
    ensures Holders(s, n, c) * AllMembers(cfg) <= Ackers(cfg, h, s.term, c)
  {
  }

  lemma AdvanceCommitKeeps(w: World, w': World, n: Id, c: nat)
    requires Inv(w) && AdvanceCommit(w, w', n, c)
    ensures Inv(w') && Grows(w, w')
  {
    hide Keeps, NetOk, Grounded, HasJointMajority, Holders, Ackers, Grows;
    var s := w.servers[n];
    assert ServerOk(w.cfg, w.past, n, s);
    assert ReignOk(w.cfg, w.past, s.term);
    ReignTerms(w.cfg, w.past, s.term, c - 1);
    HoldersAcked(w.cfg, w.past, n, s, c);
    QuorumGrows(w.cfg, Holders(s, n, c), Ackers(w.cfg, w.past, s.term, c));
    assert DecidedBy(w.cfg, w.past, s.log, c, s.term, c);
    QuietKeeps(w, w', n, w'.servers[n]);
  }

  // ---------------------------------------------------------------- steps that add to the history

  /** The ballots of `n` are the only ones that differ between `h` and `h'`. */
  ghost predicate OnlyBallotsOf(h: History, h': History, n: Id) {
    && (forall b :: b in h'.votes && b.node != n ==> b in h.votes)
    && (forall m: Id, t: nat :: m != n ==> AckOf(h', m, t) == AckOf(h, m, t))
    && (forall t :: t in h.reigns && h.reigns[t].leader != n ==>
          t in h'.reigns && h'.reigns[t] == h.reigns[t])
  }

  lemma ServerStays(cfg: Config, h: History, h': History, n: Id, m: Id, s: Server)
    requires ServerOk(cfg, h, m, s) && HistoryGrows(h, h') && OnlyBallotsOf(h, h', n) && m != n
    ensures ServerOk(cfg, h', m, s)
  {
    GroundedGrows(h, h', s.log);
    SettledGrows(cfg, h, h', s.log, s.log, s.commit, s.term, s.term);
    assert BallotsOk(h', m, s);
  }

  lemma ServersStay(w: World, w': World, n: Id, s: Server)
    requires ServersOk(w) && n in w.servers && w'.cfg == w.cfg && w'.servers == w.servers[n := s]
    requires HistoryGrows(w.past, w'.past) && OnlyBallotsOf(w.past, w'.past, n)
    requires ServerOk(w.cfg, w'.past, n, s)
    requires forall t {:trigger Placed(w', t)} :: t in w'.past.reigns ==> Placed(w', t)
    ensures ServersOk(w')
  {
    forall m | m in w'.servers ensures ServerOk(w'.cfg, w'.past, m, w'.servers[m]) {
      if m != n {
        assert ServerOk(w.cfg, w.past, m, w.servers[m]);
        ServerStays(w.cfg, w.past, w'.past, n, m, w.servers[m]);
      }
    }
  }

  lemma ReignStays(cfg: Config, h: History, h': History, t: nat)
    requires t in h.reigns && ReignOk(cfg, h, t) && HistoryGrows(h, h') && h'.reigns[t] == h.reigns[t]
    ensures ReignOk(cfg, h', t)
  {
    GroundedGrows(h, h', h.reigns[t].log);
  }

  lemma BidStays(h: History, h': History, b: Ballot)
    requires b in h.bids && BidOk(h, b) && HistoryGrows(h, h')
    ensures BidOk(h', b)
  {
    GroundedGrows(h, h', h.bids[b]);
  }

  /** New votes and bids are added, nothing else. */
  lemma PastStays(cfg: Config, h: History, h': History)
    requires PastOk(cfg, h) && HistoryGrows(h, h') && h'.reigns == h.reigns && h'.acks == h.acks
    requires forall b :: b in h'.bids && b !in h.bids ==> BidOk(h', b)
    requires forall b :: b in h'.votes && b !in h.votes ==> VoteOk(h', b)
    ensures PastOk(cfg, h')
  {
    forall t | t in h'.reigns ensures ReignOk(cfg, h', t) { assert ReignOk(cfg, h, t); ReignStays(cfg, h, h', t); }
    forall b | b in h'.bids ensures BidOk(h', b) { if b in h.bids { assert BidOk(h, b); BidStays(h, h', b); } }
    forall b | b in h'.votes ensures VoteOk(h', b) { if b in h.votes { assert VoteOk(h, b); } }
    forall n: Id, t: nat ensures AckOk(h', n, t) { assert AckOk(h, n, t); }
  }

  // ---------------------------------------------------------------- elections

  /** No ballot of `n` exists beyond its current term. */
  lemma FreshBallot(w: World, n: Id)
    requires PastOk(w.cfg, w.past) && n in w.servers && ServerOk(w.cfg, w.past, n, w.servers[n])
    ensures Ballot(n, w.servers[n].term + 1) !in w.past.votes
    ensures Ballot(n, w.servers[n].term + 1) !in w.past.bids
  {
    forall b | b in w.past.bids ensures b in w.past.votes { assert BidOk(w.past, b); }
  }

  /** A fresh ballot only adds to the history. */
  lemma BallotAdded(h: History, h': History, b: Ballot)
    requires h'.reigns == h.reigns && h'.acks == h.acks
    requires b !in h.votes && b !in h.bids
    requires b in h'.votes && b in h'.bids
    requires h'.votes == h.votes[b := h'.votes[b]] && h'.bids == h.bids[b := h'.bids[b]]
    ensures HistoryGrows(h, h') && OnlyBallotsOf(h, h', b.node)
  {
  }

  lemma StandGrows(w: World, w': World, n: Id)
    requires Inv(w) && Stand(w, w', n)
    ensures Grows(w, w') && OnlyBallotsOf(w.past, w'.past, n)
  {
    assert ServerOk(w.cfg, w.past, n, w.servers[n]);
    FreshBallot(w, n);
    BallotAdded(w.past, w'.past, Ballot(n, w.servers[n].term + 1));
  }

  lemma StandBallots(h: History, h': History, n: Id, s: Server, t: nat)
    requires BallotsOk(h, n, s) && t > s.term && h'.acks == h.acks && h'.votes == h.votes[Ballot(n, t) := n]
    ensures BallotsOk(h', n, s.(term := t, votedFor := Some(n), role := Candidate, voters := {n}))
  {
    forall b | b in h'.votes && b.node == n ensures b.term <= t && (b.term == t ==> h'.votes[b] == n) {
      if b != Ballot(n, t) { assert b in h.votes; }
    }
    forall u: nat | AckOf(h', n, u) > 0 ensures u <= t { assert AckOf(h, n, u) > 0; }
  }

  lemma StandServer(w: World, w': World, n: Id)
    requires Stand(w, w', n) && Grows(w, w') && ServerOk(w.cfg, w.past, n, w.servers[n])
    ensures ServerOk(w.cfg, w'.past, n, w'.servers[n])
  {
    hide Grounded, ReignGrows, BallotsOk, HistoryGrows;
    var s, s' := w.servers[n], w'.servers[n];
    GroundedGrows(w.past, w'.past, s.log);
    SettledGrows(w.cfg, w.past, w'.past, s.log, s.log, s.commit, s.term, s'.term);
    StandBallots(w.past, w'.past, n, s, s'.term);
    assert CandidateOk(w'.past, n, s');
  }

  lemma StandKeeps(w: World, w': World, n: Id)
    requires Inv(w) && Stand(w, w', n)
    ensures Inv(w') && Grows(w, w')
  {
    hide Grounded, Settled, ReignOk, LeaderOk, VoteKeeps, ServerKeeps, LeaderKeeps;
    StandGrows(w, w', n);
    assert ServerOk(w.cfg, w.past, n, w.servers[n]);
    StandServer(w, w', n);
    var b := Ballot(n, w'.servers[n].term);
    assert BidOk(w'.past, b);
    PastStays(w.cfg, w.past, w'.past);
    forall t | t in w'.past.reigns ensures Placed(w', t) { assert Placed(w, t); }
    ServersStay(w, w', n, w'.servers[n]);
    NetGrows(w, w');
    forall t: nat, i: nat ensures VoteKeeps(w', t, i, b) { OwnVoteKeeps(w, w', n, b, t, i); }
    KeepsStays(w, w');
  }

  /** A candidate's own log holds every open index it acknowledged itself. */
  lemma OwnVoteKeeps(w: World, w': World, n: Id, b: Ballot, t: nat, i: nat)
    requires Keeps(w) && Grows(w, w') && n in w.servers && b.node == n
    requires w'.past.reigns == w.past.reigns && w'.past.acks == w.past.acks
    requires b in w'.past.votes && w'.past.votes[b] == n && b in w'.past.bids && w'.past.bids[b] == w.servers[n].log
    ensures VoteKeeps(w', t, i, b)
  {
    if i <= AckOf(w'.past, n, t) && Open(w', t, i) {
      OpenShrinks(w, w', t, i);
      assert ServerKeeps(w, t, i, n);
    }
  }

  lemma GrantGrows(w: World, w': World, n: Id, m: Message)
    requires GrantVote(w, w', n, m) && ServerOk(w.cfg, w.past, n, w.servers[n])
    ensures Grows(w, w') && OnlyBallotsOf(w.past, w'.past, n)
  {
    hide Grounded, Settled, CandidateOk, LeaderOk;
  }

  lemma GrantBallots(h: History, h': History, n: Id, s: Server, c: Id)
    requires BallotsOk(h, n, s) && h'.acks == h.acks && h'.votes == h.votes[Ballot(n, s.term) := c]
    ensures BallotsOk(h', n, s.(votedFor := Some(c)))
  {
  }

  lemma GrantServer(w: World, w': World, n: Id, m: Message)
    requires GrantVote(w, w', n, m) && Grows(w, w') && ServerOk(w.cfg, w.past, n, w.servers[n])
    ensures ServerOk(w.cfg, w'.past, n, w'.servers[n])
  {
    var s := w.servers[n];
    GrantBallots(w.past, w'.past, n, s, m.candidate);
    hide Grounded, ReignGrows;
    GroundedGrows(w.past, w'.past, s.log);
    SettledGrows(w.cfg, w.past, w'.past, s.log, s.log, s.commit, s.term, s.term);
  }

  lemma GrantVoteKeeps(w: World, w': World, n: Id, m: Message)
    requires Inv(w) && GrantVote(w, w', n, m)
    ensures Inv(w') && Grows(w, w')
  {
    hide Grounded, Settled, ReignOk, LogOk, LeaderOk, VoteKeeps, ServerKeeps, LeaderKeeps;
    assert ServerOk(w.cfg, w.past, n, w.servers[n]);
    assert PacketOk(w.cfg, w.past, Packet(n, m));
    GrantGrows(w, w', n, m);
    GrantServer(w, w', n, m);
    var b := Ballot(n, m.term);
    assert VoteOk(w'.past, b);
    PastStays(w.cfg, w.past, w'.past);
    forall t | t in w'.past.reigns ensures Placed(w', t) { assert Placed(w, t); }
    ServersStay(w, w', n, w'.servers[n]);
    NetGrows(w, w');
    forall t: nat, i: nat ensures VoteKeeps(w', t, i, b) { GrantedVoteKeeps(w, w', n, m, t, i); }
    KeepsStays(w, w');
  }

  /** The election restriction: the log of a candidate that is at least as
      up-to-date as the voter's holds every open index the voter holds. */
  lemma GrantedVoteKeeps(w: World, w': World, n: Id, m: Message, t: nat, i: nat)
    requires Inv(w) && GrantVote(w, w', n, m) && Grows(w, w')
    ensures VoteKeeps(w', t, i, Ballot(n, m.term))
  {
    if t < m.term && i <= AckOf(w'.past, n, t) && Open(w', t, i) {
      OpenShrinks(w, w', t, i);
      assert ServerKeeps(w, t, i, n);
      assert PacketOk(w.cfg, w.past, Packet(n, m));
      var b := Ballot(m.candidate, m.term);
      assert BidOk(w.past, b);
      assert ServerOk(w.cfg, w.past, n, w.servers[n]);
      UpToDateHolds(w, w.past.bids[b], w.servers[n].log, t, i);
    }
  }

  lemma ReignFacts(w: World, t: nat)
    requires Inv(w) && t in w.past.reigns
    ensures PastOk(w.cfg, w.past) && ReignOk(w.cfg, w.past, t)
  {
  }

  lemma LeaderFact(w: World, t: nat, i: nat, u: nat)
    requires Inv(w)
    ensures LeaderKeeps(w, t, i, u)
  {
  }

  lemma UpToDateHolds(w: World, bid: seq<Entry>, log: seq<Entry>, t: nat, i: nat)
    requires Inv(w) && Open(w, t, i) && Grounded(w.past, bid) && Grounded(w.past, log)
    requires w.past.reigns[t].log[..i] <= log
    requires UpToDate(LastTerm(bid), |bid|, log)
    ensures w.past.reigns[t].log[..i] <= bid
  {
    hide Inv, HasJointMajority, Supporters;
    var r := w.past.reigns[t];
    ReignFacts(w, t);
    assert log[i - 1] == r.log[..i][i - 1] == r.log[i - 1];
    TermsMonotone(w.cfg, w.past, log, i - 1, |log| - 1);
    var last := |bid| - 1;
    assert GroundedAt(w.past, bid, last);
    var u := bid[last].term;
    assert bid == bid[..last + 1];
    ReignFacts(w, u);
    if u == t {
      assert bid[..i] == w.past.reigns[u].log[..last + 1][..i];
    } else {
      assert LeaderKeeps(w, t, i, u) by { LeaderFact(w, t, i, u); }
      ReignTerms(w.cfg, w.past, u, last);
      assert w.past.reigns[u].log[last] == bid[last];
      assert w.past.reigns[u].base <= bid;
    }
  }
}
