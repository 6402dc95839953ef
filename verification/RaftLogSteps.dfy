/**
The steps that change logs keep the invariant: taking office, appending as a
leader, and accepting a leader's entries.
*/
module RaftLogSteps {
  import opened Quorum
  import opened RaftProtocol
  import opened RaftInvariant
  import opened RaftSteps

  // ---------------------------------------------------------------- leaders append

  /** Server `n` leads term `t` in `w'` with a longer log than in `w`, and nobody
      but `n` has acknowledged what it added. */
  ghost predicate Extends(w: World, w': World, n: Id, t: nat) {
    && n in w.servers
    && Grows(w, w')
    && w'.net == w.net
    && w'.servers == w.servers[n := w'.servers[n]]
    && w.servers[n].term == t && w'.servers[n].term == t
    && w.servers[n].log <= w'.servers[n].log
    && w'.past.votes == w.past.votes && w'.past.bids == w.past.bids
    && t in w'.past.reigns && w'.past.reigns == w.past.reigns[t := w'.past.reigns[t]]
    && w'.past.reigns[t].leader == n
    && w'.past.reigns[t].log == w'.servers[n].log
    && (t in w.past.reigns ==> w.past.reigns[t].log == w.servers[n].log && w.past.reigns[t].leader == n)
    && w'.past.acks == w.past.acks[Ballot(n, t) := |w'.servers[n].log|]
  }

  lemma OthersBehind(w: World, w': World, n: Id, t: nat, i: nat, m: Id)
    requires PastOk(w.cfg, w.past) && n in w'.servers && Extends(w, w', n, t)
    requires OwnIndex(w'.past, t, i) && !OwnIndex(w.past, t, i) && m != n
    ensures AckOf(w'.past, m, t) < i
  {
    assert AckOk(w.past, m, t);
  }

  /** A vote given in a later term shows that the voter is past term `t`. */
  lemma VoterPassed(w: World, b: Ballot)
    requires Members(w) && ServersOk(w) && b in w.past.votes && b.node in w.servers
    ensures b.term <= w.servers[b.node].term
  {
    assert ServerOk(w.cfg, w.past, b.node, w.servers[b.node]);
  }

  /** A new index is closed as soon as a later leader exists. */
  lemma NewIndexClosed(w: World, w': World, n: Id, t: nat, i: nat, t2: nat)
    requires Inv(w) && n in w'.servers && Extends(w, w', n, t)
    requires OwnIndex(w'.past, t, i) && !OwnIndex(w.past, t, i)
    requires t2 in w.past.reigns && t < t2
    ensures !Open(w', t, i)
  {
    if Open(w', t, i) {
      assert ReignOk(w.cfg, w.past, t2);
      var q := QuorumsMeet(w.cfg, Supporters(w', t, i), w.past.reigns[t2].voters);
      VoterPassed(w, Ballot(q, t2));
      if q != n { OthersBehind(w, w', n, t, i, q); }
    }
  }

  lemma ExtendsInTime(w: World, w': World, n: Id, t: nat)
    requires n in w'.servers && Extends(w, w', n, t)
    ensures AcksInTime(w, w')
  {
  }

  lemma LeaderKeepsExtends(w: World, w': World, n: Id, t: nat, t1: nat, i: nat, t2: nat)
    requires Inv(w) && n in w'.servers && Extends(w, w', n, t) && t2 in w.past.reigns
    ensures LeaderKeeps(w', t1, i, t2)
  {
    if Open(w', t1, i) && t1 < t2 {
      ExtendsInTime(w, w', n, t);
      if OwnIndex(w.past, t1, i) { LeaderKeepsStays(w, w', t1, i, t2); }
      else { NewIndexClosed(w, w', n, t, i, t2); }
    }
  }

  lemma ServerKeepsExtends(w: World, w': World, n: Id, t: nat, u: nat, i: nat, m: Id)
    requires Inv(w) && n in w'.servers && Extends(w, w', n, t)
    ensures ServerKeeps(w', u, i, m)
  {
    if m in w'.servers && i <= AckOf(w'.past, m, u) && Open(w', u, i) {
      ExtendsInTime(w, w', n, t);
      if m != n {
        if !OwnIndex(w.past, u, i) { OthersBehind(w, w', n, u, i, m); }
        ServerKeepsStays(w, w', u, i, m);
      } else if u != t {
        OpenShrinks(w, w', u, i);
        assert ServerKeeps(w, u, i, n);
      }
    }
  }

  lemma VoteKeepsExtends(w: World, w': World, n: Id, t: nat, u: nat, i: nat, b: Ballot)
    requires Inv(w) && n in w'.servers && Extends(w, w', n, t)
    ensures VoteKeeps(w', u, i, b)
  {
    if b in w'.past.votes && u < b.term && i <= AckOf(w'.past, b.node, u) && Open(w', u, i) {
      ExtendsInTime(w, w', n, t);
      if b.node == n { VoterPassed(w, b); }
      else if !OwnIndex(w.past, u, i) { OthersBehind(w, w', n, u, i, b.node); }
      assert VoteOk(w.past, b);
      VoteKeepsStays(w, w', u, i, b);
    }
  }

  lemma ExtendsServers(w: World, w': World, n: Id, t: nat)
    requires Inv(w) && n in w'.servers && Extends(w, w', n, t) && w'.servers[n].role == Leader
    requires ServerOk(w.cfg, w'.past, n, w'.servers[n])
    ensures ServersOk(w')
  {
    hide PastOk, NetOk, Keeps, LogOk, BallotsOk, CandidateOk, LeaderOk, Settled, HistoryGrows;
    forall u | u in w'.past.reigns ensures Placed(w', u) { if u in w.past.reigns { assert Placed(w, u); } }
    ServersStay(w, w', n, w'.servers[n]);
  }

  lemma ExtendsPast(w: World, w': World, n: Id, t: nat)
    requires Inv(w) && n in w'.servers && Extends(w, w', n, t)
    requires ReignOk(w.cfg, w'.past, t)
    ensures PastOk(w.cfg, w'.past)
  {
    var h, h' := w.past, w'.past;
    forall u | u in h'.reigns ensures ReignOk(w.cfg, h', u) {
      if u != t { assert ReignOk(w.cfg, h, u); ReignStays(w.cfg, h, h', u); }
    }
    forall b | b in h'.bids ensures BidOk(h', b) { assert BidOk(h, b); BidStays(h, h', b); }
    forall b | b in h'.votes ensures VoteOk(h', b) { assert VoteOk(h, b); }
    forall m: Id, u: nat ensures AckOk(h', m, u) { assert AckOk(h, m, u); }
  }

  /** A log stays grounded when its leader extends it with entries of its own term. */
  lemma ExtendsGrounded(h: History, h': History, t: nat, log: seq<Entry>, log': seq<Entry>)
    requires Grounded(h, log) && HistoryGrows(h, h') && log <= log'
    requires t in h'.reigns && h'.reigns[t].log == log'
    requires forall i :: |log| <= i < |log'| ==> log'[i].term == t
    ensures Grounded(h', log')
  {
    GroundedGrows(h, h', log);
    forall i | 0 <= i < |log'| ensures GroundedAt(h', log', i) {
      if i < |log| {
        assert GroundedAt(h', log, i);
        PrefixSlices(log, log', 0, i + 1);
      }
    }
  }

  lemma ExtendsServer(w: World, w': World, n: Id, t: nat)
    requires n in w'.servers && Extends(w, w', n, t) && ServerOk(w.cfg, w.past, n, w.servers[n])
    requires Grounded(w'.past, w'.servers[n].log)
    requires forall i :: |w.servers[n].log| <= i < |w'.servers[n].log| ==> w'.servers[n].log[i].term == t
    requires w'.servers[n].role == Leader && w'.servers[n].commit == w.servers[n].commit
    requires w'.servers[n].votedFor == w.servers[n].votedFor
    requires LeaderOk(w'.past, n, w'.servers[n])
    ensures ServerOk(w.cfg, w'.past, n, w'.servers[n])
  {
    var s, s' := w.servers[n], w'.servers[n];
    PrefixSlices(s.log, s'.log, 0, s.commit);
    SettledGrows(w.cfg, w.past, w'.past, s.log, s'.log, s.commit, s.term, s.term);
    assert BallotsOk(w'.past, n, s');
    assert forall i :: 0 <= i < |s.log| ==> s'.log[i] == s.log[i];
  }

  // ---------------------------------------------------------------- Propose

  lemma ProposeGrows(w: World, w': World, n: Id, es: seq<Entry>)
    requires Propose(w, w', n, es) && LeaderOk(w.past, n, w.servers[n])
    ensures Extends(w, w', n, w.servers[n].term)
  {
  }

  lemma ProposeReign(w: World, w': World, n: Id, es: seq<Entry>)
    requires Propose(w, w', n, es) && ServerOk(w.cfg, w.past, n, w.servers[n])
    requires Extends(w, w', n, w.servers[n].term)
    requires ReignOk(w.cfg, w.past, w.servers[n].term)
    ensures ReignOk(w.cfg, w'.past, w.servers[n].term)
    ensures LeaderOk(w'.past, n, w'.servers[n])
    ensures forall i :: |w.servers[n].log| <= i < |w'.servers[n].log| ==> w'.servers[n].log[i].term == w.servers[n].term
  {
    hide Grounded, HasJointMajority, BallotsOk, Settled;
    var s, s' := w.servers[n], w'.servers[n];
    assert forall i :: |s.log| <= i < |s'.log| ==> s'.log[i] == es[i - |s.log|];
    ExtendsGrounded(w.past, w'.past, s.term, s.log, s'.log);
  }

  lemma ProposeKeeps(w: World, w': World, n: Id, es: seq<Entry>)
    requires Inv(w) && Propose(w, w', n, es)
    ensures Inv(w') && Grows(w, w')
  {
    var t := w.servers[n].term;
    assert ServerOk(w.cfg, w.past, n, w.servers[n]);
    assert ReignOk(w.cfg, w.past, t);
    ProposeGrows(w, w', n, es);
    ProposeReign(w, w', n, es);
    ExtendsKeeps(w, w', n, t);
    ExtendsInv(w, w', n, t);
  }

  /** All that is left once the extended reign and its effect across reigns are known. */
  lemma ExtendsInv(w: World, w': World, n: Id, t: nat)
    requires Inv(w) && n in w'.servers && Extends(w, w', n, t)
    requires ReignOk(w.cfg, w'.past, t) && LeaderOk(w'.past, n, w'.servers[n]) && Keeps(w')
    requires forall i :: |w.servers[n].log| <= i < |w'.servers[n].log| ==> w'.servers[n].log[i].term == t
    requires w'.servers[n].role == Leader && w'.servers[n].commit == w.servers[n].commit
    requires w'.servers[n].votedFor == w.servers[n].votedFor
    ensures Inv(w') && Grows(w, w')
  {
    assert ServerOk(w.cfg, w.past, n, w.servers[n]);
    ExtendsServer(w, w', n, t);
    ExtendsPast(w, w', n, t);
    ExtendsServers(w, w', n, t);
    NetGrows(w, w');
  }

  lemma ExtendsKeeps(w: World, w': World, n: Id, t: nat)
    requires Inv(w) && n in w'.servers && Extends(w, w', n, t)
    requires t in w.past.reigns || forall t1: nat, i: nat :: LeaderKeeps(w', t1, i, t)
    ensures Keeps(w')
  {
    forall t1: nat, i: nat, t2: nat ensures LeaderKeeps(w', t1, i, t2) {
      if t2 in w.past.reigns { LeaderKeepsExtends(w, w', n, t, t1, i, t2); }
    }
    forall u: nat, i: nat, m ensures ServerKeeps(w', u, i, m) { ServerKeepsExtends(w, w', n, t, u, i, m); }
    forall u: nat, i: nat, b ensures VoteKeeps(w', u, i, b) { VoteKeepsExtends(w, w', n, t, u, i, b); }
  }

  // ---------------------------------------------------------------- Ascend

  /** Election safety: a candidate with a joint majority is the first leader of its term. */
  lemma FirstLeader(w: World, n: Id)
    requires Inv(w) && n in w.servers && w.servers[n].role == Candidate
    requires HasJointMajority(w.cfg, w.servers[n].voters)
    ensures w.servers[n].term !in w.past.reigns
  {
    var s := w.servers[n];
    assert ServerOk(w.cfg, w.past, n, s);
    if s.term in w.past.reigns {
      assert ReignOk(w.cfg, w.past, s.term);
      assert Placed(w, s.term);
      var q := QuorumsMeet(w.cfg, s.voters, w.past.reigns[s.term].voters);
    }
  }

  /** A first reign of its term only adds to the history. */
  lemma ReignAdded(h: History, h': History, n: Id, t: nat)
    requires t !in h.reigns && AckOf(h, n, t) == 0
    requires t in h'.reigns && h'.reigns == h.reigns[t := h'.reigns[t]]
    requires Ballot(n, t) in h'.acks && h'.acks == h.acks[Ballot(n, t) := h'.acks[Ballot(n, t)]]
    requires h'.votes == h.votes && h'.bids == h.bids
    ensures HistoryGrows(h, h')
  {
  }

  lemma AscendGrows(w: World, w': World, n: Id, ms: map<Id, nat>)
    requires Inv(w) && Ascend(w, w', n, ms)
    ensures Extends(w, w', n, w.servers[n].term)
  {
    var t := w.servers[n].term;
    FirstLeader(w, n);
    assert AckOk(w.past, n, t);
    ReignAdded(w.past, w'.past, n, t);
  }

  lemma AscendReign(w: World, w': World, n: Id, ms: map<Id, nat>)
    requires Inv(w) && Ascend(w, w', n, ms) && Extends(w, w', n, w.servers[n].term)
    ensures ReignOk(w.cfg, w'.past, w.servers[n].term)
    ensures LeaderOk(w'.past, n, w'.servers[n])
  {
    var s, s' := w.servers[n], w'.servers[n];
    assert ServerOk(w.cfg, w.past, n, s);
    assert BidOk(w.past, Ballot(n, s.term));
    ExtendsGrounded(w.past, w'.past, s.term, s.log, s'.log);
  }

  /** Leader completeness at the moment of election. */
  lemma AscendLeaderKeeps(w: World, w': World, n: Id, ms: map<Id, nat>, t1: nat, i: nat)
    requires Inv(w) && Ascend(w, w', n, ms) && Extends(w, w', n, w.servers[n].term)
    ensures LeaderKeeps(w', t1, i, w.servers[n].term)
  {
    var s := w.servers[n];
    if Open(w', t1, i) && t1 < s.term {
      ExtendsInTime(w, w', n, s.term);
      OpenShrinks(w, w', t1, i);
      var q := QuorumsMeet(w.cfg, Supporters(w, t1, i), s.voters);
      assert ServerOk(w.cfg, w.past, n, s);
      VoterPassed(w, Ballot(q, s.term));
      assert VoteKeeps(w, t1, i, Ballot(q, s.term));
    }
  }

  lemma AscendKeeps(w: World, w': World, n: Id, ms: map<Id, nat>)
    requires Inv(w) && Ascend(w, w', n, ms)
    ensures Inv(w') && Grows(w, w')
  {
    var t := w.servers[n].term;
    AscendGrows(w, w', n, ms);
    AscendReign(w, w', n, ms);
    forall t1: nat, i: nat ensures LeaderKeeps(w', t1, i, t) { AscendLeaderKeeps(w, w', n, ms, t1, i); }
    ExtendsKeeps(w, w', n, t);
    ExtendsInv(w, w', n, t);
  }

  // ---------------------------------------------------------------- Accept and LoseSuffix

  /** What the accepting server's log has in common with the sender's. */
  lemma AcceptMerges(w: World, n: Id, m: Message)
    requires Inv(w) && Accepts(w, n, m)
    ensures AppendOk(w.cfg, w.past, m)
    ensures var s := w.servers[n];
            var full := w.past.reigns[m.term].log;
            var last := m.prevIndex + |m.entries|;
            && var r := Merge(s.log, m.prevIndex, m.entries);
               && (r == s.log || r == full[..last])
               && last <= |r| && r[..last] == full[..last]
               && Grounded(w.past, r)
    ensures forall c: nat :: c <= |w.past.reigns[m.term].log| && w.past.reigns[m.term].log[..c] <= w.servers[n].log ==>
              && w.past.reigns[m.term].log[..c] <= Merge(w.servers[n].log, m.prevIndex, m.entries)
              && (Agreeing(w.servers[n].log, m.prevIndex, m.entries) < |m.entries| ==>
                    c <= m.prevIndex + Agreeing(w.servers[n].log, m.prevIndex, m.entries))
  {
    hide Merge, Agreeing, Grounded, Settled, BallotsOk, CandidateOk, LeaderOk, Keeps;
    assert PacketOk(w.cfg, w.past, Packet(n, m));
    assert ServerOk(w.cfg, w.past, n, w.servers[n]);
    assert ReignOk(w.cfg, w.past, m.term);
    MergeOutcome(w.past, w.servers[n].log, m.prevIndex, m.entries, w.past.reigns[m.term].log);
  }

  /** Every open index that a server acknowledged in an earlier term is shared
      with the leader whose entries it accepts. */
  lemma SharedWithLeader(w: World, n: Id, m: Message, t: nat, i: nat)
    requires Inv(w) && Accepts(w, n, m) && m.term in w.past.reigns
    requires Open(w, t, i) && i <= AckOf(w.past, n, t)
    ensures i <= |w.past.reigns[m.term].log|
    ensures w.past.reigns[t].log[..i] == w.past.reigns[m.term].log[..i]
    ensures w.past.reigns[m.term].log[..i] <= w.servers[n].log
  {
    assert ServerOk(w.cfg, w.past, n, w.servers[n]);
    assert ServerKeeps(w, t, i, n);
    assert t <= m.term;
    if t < m.term {
      assert LeaderKeeps(w, t, i, m.term);
      assert ReignOk(w.cfg, w.past, m.term);
      PrefixSlices(w.past.reigns[m.term].base, w.past.reigns[m.term].log, 0, i);
    }
  }

  /** The committed prefix is shared with the leader whose entries are accepted. */
  lemma DecidedInReign(w: World, t: nat, i: nat, u: nat)
    requires Inv(w) && Decided(w.cfg, w.past, t, i) && t < u && u in w.past.reigns
    ensures i <= |w.past.reigns[t].log| && w.past.reigns[t].log[..i] <= w.past.reigns[u].log
  {
    DecidedIsOpen(w, t, i);
    assert LeaderKeeps(w, t, i, u);
    assert ReignOk(w.cfg, w.past, u);
  }

  lemma CommitShared(w: World, n: Id, m: Message)
    requires Inv(w) && Accepts(w, n, m) && m.term in w.past.reigns
    ensures var s := w.servers[n];
            var full := w.past.reigns[m.term].log;
            s.commit <= |full| && s.commit <= |s.log| && full[..s.commit] == s.log[..s.commit]
  {
    hide Grounded, BallotsOk, CandidateOk, LeaderOk, NetOk;
    var s := w.servers[n];
    var c := s.commit;
    assert ServerOk(w.cfg, w.past, n, s);
    if c != 0 {
      var t: nat, i: nat :| t <= s.term && DecidedBy(w.cfg, w.past, s.log, c, t, i);
      if t < m.term {
        assert w.past.reigns[t].log[..i] <= w.past.reigns[m.term].log by { DecidedInReign(w, t, i, m.term); }
        hide Inv, Decided;
        var log, full := w.past.reigns[t].log, w.past.reigns[m.term].log;
        assert log[..i] <= full;
        PrefixSlices(log[..i], full, 0, c);
        assert log[..i][..c] == log[..c];
      }
    }
  }

  /** A server that changes its log while keeping what it shares with its leader. */
  ghost predicate Rewrites(w: World, w': World, n: Id, m: Message) {
    && Accepts(w, n, m)
    && n in w'.servers && w'.cfg == w.cfg
    && w'.servers == w.servers[n := w'.servers[n]]
    && w'.servers[n].term == w.servers[n].term && w'.servers[n].votedFor == w.servers[n].votedFor
    && w'.servers[n].role == Follower
    && w.net <= w'.net
    && w'.past.reigns == w.past.reigns && w'.past.votes == w.past.votes && w'.past.bids == w.past.bids
    && (forall q: Id, t: nat :: q != n || t != m.term ==> AckOf(w'.past, q, t) == AckOf(w.past, q, t))
    && AckOf(w'.past, n, m.term) >= AckOf(w.past, n, m.term)
    && m.term in w.past.reigns
    && (forall c: nat :: c <= |w.past.reigns[m.term].log| && w.past.reigns[m.term].log[..c] <= w.servers[n].log ==>
          w.past.reigns[m.term].log[..c] <= w'.servers[n].log)
    && (AckOf(w'.past, n, m.term) > AckOf(w.past, n, m.term) ==>
          && AckOf(w'.past, n, m.term) <= |w.past.reigns[m.term].log|
          && w.past.reigns[m.term].log[..AckOf(w'.past, n, m.term)] <= w'.servers[n].log)
  }

  lemma RewriteGrows(w: World, w': World, n: Id, m: Message)
    requires Rewrites(w, w', n, m)
    ensures Grows(w, w') && AcksInTime(w, w') && OnlyBallotsOf(w.past, w'.past, n)
  {
  }

  lemma ServerKeepsRewrite(w: World, w': World, n: Id, m: Message, t: nat, i: nat)
    requires Inv(w) && Rewrites(w, w', n, m)
    ensures ServerKeeps(w', t, i, n)
  {
    hide Inv, Supporters, HasJointMajority, Grows, AcksInTime, OnlyBallotsOf;
    if i <= AckOf(w'.past, n, t) && Open(w', t, i) {
      RewriteGrows(w, w', n, m);
      OpenShrinks(w, w', t, i);
      if i <= AckOf(w.past, n, t) {
        SharedWithLeader(w, n, m, t, i);
      } else {
        var full := w.past.reigns[m.term].log;
        PrefixSlices(full[..AckOf(w'.past, n, t)], w'.servers[n].log, 0, i);
        assert full[..i] == full[..AckOf(w'.past, n, t)][..i];
      }
    }
  }

  lemma RewriteKeeps(w: World, w': World, n: Id, m: Message)
    requires Inv(w) && Rewrites(w, w', n, m)
    ensures Keeps(w')
  {
    RewriteGrows(w, w', n, m);
    forall t1: nat, i: nat, t2: nat ensures LeaderKeeps(w', t1, i, t2) {
      if Open(w', t1, i) && t2 in w'.past.reigns { LeaderKeepsStays(w, w', t1, i, t2); }
    }
    forall t: nat, i: nat, q ensures ServerKeeps(w', t, i, q) {
      if q == n { ServerKeepsRewrite(w, w', n, m, t, i); }
      else if Open(w', t, i) && q in w'.servers { ServerKeepsStays(w, w', t, i, q); }
    }
    forall t: nat, i: nat, b ensures VoteKeeps(w', t, i, b) { VoteKeepsRewrite(w, w', n, m, t, i, b); }
  }

  lemma VoteKeepsRewrite(w: World, w': World, n: Id, m: Message, t: nat, i: nat, b: Ballot)
    requires Inv(w) && Rewrites(w, w', n, m) && Grows(w, w') && AcksInTime(w, w')
    ensures VoteKeeps(w', t, i, b)
  {
    if Open(w', t, i) && b in w.past.votes && t < b.term {
      if b.node == n { VoterPassed(w, b); }
      assert VoteOk(w.past, b);
      VoteKeepsStays(w, w', t, i, b);
    }
  }

  lemma RewriteInv(w: World, w': World, n: Id, m: Message)
    requires Inv(w) && Rewrites(w, w', n, m)
    requires ServerOk(w.cfg, w'.past, n, w'.servers[n])
    requires forall p :: p in w'.net && p !in w.net ==> PacketOk(w.cfg, w'.past, p)
    ensures Inv(w') && Grows(w, w')
  {
    RewriteGrows(w, w', n, m);
    RewriteKeeps(w, w', n, m);
    NetGrows(w, w');
    RewritePast(w, w', n, m);
    forall t | t in w'.past.reigns ensures Placed(w', t) { assert Placed(w, t); }
    ServersStay(w, w', n, w'.servers[n]);
  }

  lemma RewritePast(w: World, w': World, n: Id, m: Message)
    requires PastOk(w.cfg, w.past) && Rewrites(w, w', n, m) && HistoryGrows(w.past, w'.past)
    ensures PastOk(w.cfg, w'.past)
  {
    var h, h' := w.past, w'.past;
    forall u | u in h'.reigns ensures ReignOk(w.cfg, h', u) { assert ReignOk(w.cfg, h, u); ReignStays(w.cfg, h, h', u); }
    forall b | b in h'.bids ensures BidOk(h', b) { assert BidOk(h, b); BidStays(h, h', b); }
    forall b | b in h'.votes ensures VoteOk(h', b) { assert VoteOk(h, b); }
    forall q: Id, u: nat ensures AckOk(h', q, u) { assert AckOk(h, q, u); }
  }

  lemma AcceptRewrites(w: World, w': World, n: Id, m: Message)
    requires Inv(w) && Accept(w, w', n, m)
    ensures Rewrites(w, w', n, m)
  {
    AcceptMerges(w, n, m);
    var last := m.prevIndex + |m.entries|;
    assert w'.servers[n].log[..last] <= w'.servers[n].log;
  }

  /** The new commit index never passes the point up to which the log is known to
      agree with the sender's, so it is settled. */
  lemma AcceptSettled(w: World, w': World, n: Id, m: Message)
    requires Inv(w) && Accept(w, w', n, m) && HistoryGrows(w.past, w'.past)
    ensures w'.servers[n].commit == if m.leaderCommit > w.servers[n].commit then m.leaderCommit else w.servers[n].commit
    ensures Settled(w.cfg, w'.past, w'.servers[n].log, w'.servers[n].commit, m.term)
  {
    hide Keeps, Settled, Merge, Agreeing, BallotsOk, CandidateOk, LeaderOk, NetOk, PastOk, Grounded;
    AcceptMerges(w, n, m);
    var s, s' := w.servers[n], w'.servers[n];
    var full := w.past.reigns[m.term].log;
    var last := m.prevIndex + |m.entries|;
    if m.leaderCommit > s.commit {
      assert s'.log[..m.leaderCommit] == s'.log[..last][..m.leaderCommit] == full[..m.leaderCommit];
      SettledGrows(w.cfg, w.past, w'.past, full, s'.log, m.leaderCommit, m.term, m.term);
    } else {
      CommitShared(w, n, m);
      assert ServerOk(w.cfg, w.past, n, s);
      assert full[..s.commit] <= s.log;
      PrefixSlices(full[..s.commit], s'.log, 0, s.commit);
      assert full[..s.commit][..s.commit] == full[..s.commit];
      SettledGrows(w.cfg, w.past, w'.past, s.log, s'.log, s.commit, s.term, m.term);
    }
  }

  lemma AcceptServer(w: World, w': World, n: Id, m: Message)
    requires Inv(w) && Accept(w, w', n, m) && Rewrites(w, w', n, m) && HistoryGrows(w.past, w'.past)
    ensures ServerOk(w.cfg, w'.past, n, w'.servers[n])
  {
    AcceptMerges(w, n, m);
    AcceptSettled(w, w', n, m);
    var s, s' := w.servers[n], w'.servers[n];
    assert ServerOk(w.cfg, w.past, n, s);
    GroundedGrows(w.past, w'.past, s'.log);
    forall i | 0 <= i < |s'.log| ensures s'.log[i].term <= s'.term {
      if s'.log != s.log {
        assert ReignOk(w.cfg, w.past, m.term);
        ReignTerms(w.cfg, w.past, m.term, i);
      }
    }
    assert BallotsOk(w'.past, n, s');
  }

  lemma AcceptPackets(w: World, w': World, n: Id, m: Message)
    requires Inv(w) && Accept(w, w', n, m)
    ensures forall p :: p in w'.net && p !in w.net ==> PacketOk(w.cfg, w'.past, p)
  {
    hide Merge, Keeps, PastOk;
    assert PacketOk(w.cfg, w.past, Packet(n, m));
  }

  lemma AcceptKeeps(w: World, w': World, n: Id, m: Message)
    requires Inv(w) && Accept(w, w', n, m)
    ensures Inv(w') && Grows(w, w')
  {
    hide Inv, Accept, Rewrites, HistoryGrows;
    AcceptPackets(w, w', n, m);
    AcceptRewrites(w, w', n, m);
    RewriteGrows(w, w', n, m);
    AcceptServer(w, w', n, m);
    RewriteInv(w, w', n, m);
  }

  lemma AgreeingLess(log: seq<Entry>, p: nat, es: seq<Entry>)
    requires p <= |log|
    ensures p + Agreeing(log, p, es) <= |log|
  {
    AgreeingMeans(log, p, es);
  }

  lemma LoseServer(w: World, w': World, n: Id, m: Message)
    requires LoseSuffix(w, w', n, m) && ServerOk(w.cfg, w.past, n, w.servers[n])
    ensures ServerOk(w.cfg, w'.past, n, w'.servers[n])
  {
    hide Grounded, Settled, Agreeing, LeaderOk, CandidateOk;
    var s, s' := w.servers[n], w'.servers[n];
    var cut := |s'.log|;
    AgreeingLess(s.log, m.prevIndex, m.entries);
    GroundedPrefix(w.past, s.log, cut);
    SettledLess(w.cfg, w.past, s.log, s.commit, s'.commit, s.term);
    assert s.log[..cut][..s'.commit] == s.log[..s'.commit];
    SettledGrows(w.cfg, w.past, w.past, s.log, s'.log, s'.commit, s.term, s.term);
  }

  lemma LoseSuffixKeeps(w: World, w': World, n: Id, m: Message)
    requires Inv(w) && LoseSuffix(w, w', n, m)
    ensures Inv(w') && Grows(w, w')
  {
    assert ServerOk(w.cfg, w.past, n, w.servers[n]);
    LoseRewrites(w, w', n, m);
    LoseServer(w, w', n, m);
    RewriteInv(w, w', n, m);
  }

  lemma LoseRewrites(w: World, w': World, n: Id, m: Message)
    requires Inv(w) && LoseSuffix(w, w', n, m)
    ensures Rewrites(w, w', n, m)
  {
    AcceptMerges(w, n, m);
    var s, s' := w.servers[n], w'.servers[n];
    var cut := m.prevIndex + Agreeing(s.log, m.prevIndex, m.entries);
    var full := w.past.reigns[m.term].log;
    forall c: nat | c <= |full| && full[..c] <= s.log ensures full[..c] <= s'.log {
      assert c <= cut;
      assert s'.log[..c] == s.log[..c];
    }
  }
}
