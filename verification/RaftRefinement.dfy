/**
Every reaction of a compacted, persistent server is a sequence of protocol steps
of the full-log server that it mirrors.
*/
module RaftRefinement {
  import opened Options
  import opened Quorum
  import opened Master
  import opened RaftProtocol
  import opened RaftInvariant
  import opened RaftSafety
  import opened RaftNode
  import opened RaftStorage

  // ---------------------------------------------------------------- sequences of steps

  ghost predicate Path(ws: seq<World>, w: World, w': World) {
    |ws| > 0 && ws[0] == w && ws[|ws| - 1] == w' && Steps(ws)
  }

  /** Protocol steps lead from `w` to `w'`. */
  ghost predicate Reach(w: World, w': World) {
    exists ws :: Path(ws, w, w')
  }

  /** Some run ends in `w`. */
  ghost predicate Reachable(w: World) {
    exists w0 :: Init(w0) && Reach(w0, w)
  }

  /** Protocol steps of server `id` lead from `w` to `w'`. */
  ghost predicate Moved(w: World, w': World, id: Id) {
    && Reach(w, w') && Reachable(w')
    && w'.cfg == w.cfg && w.net <= w'.net
    && id in w'.servers && w'.servers == w.servers[id := w'.servers[id]]
  }

  lemma ReachSelf(w: World)
    ensures Reach(w, w)
  {
    assert Path([w], w, w);
  }

  lemma PathsJoin(p: seq<World>, q: seq<World>, a: World, b: World, c: World)
    requires Path(p, a, b) && Path(q, b, c)
    ensures Path(p + q[1..], a, c)
  {
    var r := p + q[1..];
    forall i | 0 < i < |r| ensures StepAt(r, i) {
      if i < |p| {
        assert StepAt(p, i) && r[i] == p[i] && r[i - 1] == p[i - 1];
      } else {
        assert StepAt(q, i - |p| + 1) && r[i] == q[i - |p| + 1] && r[i - 1] == q[i - |p|];
      }
    }
    assert r[|r| - 1] == c;
  }

  lemma ReachTrans(a: World, b: World, c: World)
    requires Reach(a, b) && Reach(b, c)
    ensures Reach(a, c)
  {
    var p :| Path(p, a, b);
    var q :| Path(q, b, c);
    PathsJoin(p, q, a, b, c);
  }

  /** What a reachable state has recorded, every later one still has. */
  lemma ReachGrows(w: World, w': World)
    requires Reachable(w) && Reach(w, w')
    ensures Grows(w, w')
  {
    var w0 :| Init(w0) && Reach(w0, w);
    var p :| Path(p, w0, w);
    var q :| Path(q, w, w');
    PathsJoin(p, q, w0, w, w');
    var r := p + q[1..];
    assert Run(r);
    assert r[|p| - 1] == w;
    RunGrows(r, |p| - 1, |r| - 1);
  }

  lemma ReachableOn(w: World, w': World)
    requires Reachable(w) && Reach(w, w')
    ensures Reachable(w')
  {
    var w0 :| Init(w0) && Reach(w0, w);
    ReachTrans(w0, w, w');
  }

  lemma ReachableInv(w: World)
    requires Reachable(w)
    ensures Inv(w)
  {
    var w0 :| Init(w0) && Reach(w0, w);
    var ws :| Path(ws, w0, w);
    assert Run(ws);
    RunInv(ws, |ws| - 1);
  }

  lemma Stay(w: World, id: Id)
    requires Reachable(w) && id in w.servers
    ensures Moved(w, w, id)
  {
    ReachSelf(w);
  }

  lemma MoveBy(w: World, w': World, id: Id, st: Step)
    requires Reachable(w) && Performs(w, w', st) && w'.cfg == w.cfg && w.net <= w'.net
    requires id in w'.servers && w'.servers == w.servers[id := w'.servers[id]]
    ensures Moved(w, w', id)
  {
    assert Path([w, w'], w, w');
    ReachableOn(w, w');
  }

  lemma MoveTrans(a: World, b: World, c: World, id: Id)
    requires Moved(a, b, id) && Moved(b, c, id)
    ensures Moved(a, c, id)
  {
    hide Reach, Reachable;
    ReachTrans(a, b, c);
  }

  // ---------------------------------------------------------------- stepping down

  lemma AdoptTermSim(w: World, id: Id, t: nat, v: Option<Id>) returns (w': World)
    requires Reachable(w) && id in w.servers && t > w.servers[id].term && (v == None || v == w.servers[id].votedFor)
    ensures Moved(w, w', id) && w'.net == w.net && w'.past == w.past
    ensures w'.servers[id] == w.servers[id].(role := Follower, term := t, votedFor := v)
  {
    w' := Put(w, id, w.servers[id].(role := Follower, term := t, votedFor := v), w.net, w.past);
    MoveBy(w, w', id, AdoptTermStep(id, t, v));
  }

  lemma RetreatSim(w: World, id: Id, c: nat, ms: map<Id, nat>, vs: set<Id>) returns (w': World)
    requires Reachable(w) && id in w.servers && c <= w.servers[id].commit
    ensures Moved(w, w', id) && w'.net == w.net && w'.past == w.past
    ensures w'.servers[id] == w.servers[id].(role := Follower, commit := c, matched := ms, voters := vs)
  {
    w' := Put(w, id, w.servers[id].(role := Follower, commit := c, matched := ms, voters := vs), w.net, w.past);
    MoveBy(w, w', id, RetreatStep(id, c, ms, vs));
  }

  lemma StepDownSim(w: World, id: Id, n: Node, t: nat) returns (w': World)
    requires Reachable(w) && id in w.servers && Mirrors(id, n, w.servers[id])
    ensures Moved(w, w', id) && w'.net == w.net
    ensures Mirrors(id, StepDown(n, t).node, w'.servers[id])
    ensures w'.servers[id].log == w.servers[id].log && w'.servers[id].commit == w.servers[id].commit
  {
    if t > n.term {
      w' := AdoptTermSim(w, id, t, None);
      WritesTwo(n.db, PutTerm(t), PutVote(None));
    } else {
      w' := RetreatSim(w, id, n.commit, n.matched, n.voters);
    }
  }

  // ---------------------------------------------------------------- elections

  lemma AscendSim(w: World, id: Id, ms: map<Id, nat>) returns (w': World)
    requires Reachable(w) && id in w.servers && w.servers[id].role == Candidate
    requires HasJointMajority(w.cfg, w.servers[id].voters)
    requires forall p :: p in ms ==> ms[p] <= w.servers[id].commit
    ensures Moved(w, w', id) && w'.net == w.net
    ensures var s := w.servers[id];
            w'.servers[id] == s.(role := Leader, log := s.log + [Entry(s.term, NoOp)], matched := ms)
  {
    var s := w.servers[id];
    var log := s.log + [Entry(s.term, NoOp)];
    w' := Put(w, id, s.(role := Leader, log := log, matched := ms), w.net,
              w.past.(reigns := w.past.reigns[s.term := Reign(id, s.voters, s.log, log)],
                      acks := w.past.acks[Ballot(id, s.term) := |log|]));
    MoveBy(w, w', id, AscendStep(id, ms));
  }

  lemma TakeOfficeSim(w: World, id: Id, n: Node) returns (w': World)
    requires Reachable(w) && id in w.servers && Mirrors(id, n, w.servers[id]) && n.HasLog()
    requires n.role == Candidate && HasJointMajority(w.cfg, n.voters)
    ensures Moved(w, w', id) && w'.net == w.net
    ensures Mirrors(id, TakeOffice(w.cfg, n).node, w'.servers[id])
    ensures w'.servers[id].role == Leader && w'.servers[id].log == w.servers[id].log + [Entry(n.term, NoOp)]
  {
    w' := AscendSim(w, id, TakeOffice(w.cfg, n).node.matched);
    GrowTracks(n, TakeOffice(w.cfg, n).node, w.servers[id].log, [Entry(n.term, NoOp)]);
  }

  lemma GrowDurable(db: Store, term: nat, vote: Option<Id>, k: nat, full: seq<Entry>, es: seq<Entry>, db': Store)
    requires Durable(db, term, vote, k, full)
    requires db' == ApplyWrites(db, [PutEntries(Numbered(es, |full| + 1))])
    ensures Durable(db', term, vote, k, full + es)
  {
    WritesOne(db, PutEntries(Numbered(es, |full| + 1)));
    StoresAppend(db.log, k, full, es);
  }

  /** Appending to the log and to the store. */
  lemma GrowTracks(n: Node, n': Node, full: seq<Entry>, es: seq<Entry>)
    requires Tracks(n, full) && n.HasLog()
    requires n'.log == n.log + es && n'.db == ApplyWrites(n.db, [PutEntries(Numbered(es, n.LastIndex() + 1))])
    requires n'.snapIndex == n.snapIndex && n'.snapTerm == n.snapTerm && n'.commit == n.commit
    requires n'.applied == n.applied && n'.term == n.term && n'.votedFor == n.votedFor
    ensures Tracks(n', full + es)
  {
    hide ApplyWrites, Numbered, StoresLog;
    OffsetLast(n.log, n.snapIndex, n.snapTerm, full);
    GrowDurable(n.db, n.term, n.votedFor, n.snapIndex, full, es, n'.db);
    OffsetAppend(n.log, n.snapIndex, n.snapTerm, full, es);
  }

  lemma LoneCommitSim(w: World, id: Id, n: Node) returns (w': World)
    requires Reachable(w) && id in w.servers && Mirrors(id, n, w.servers[id])
    requires n.role == Leader && Peers(w.cfg, n) == {} && |w.servers[id].log| > n.commit
    requires w.servers[id].log[|w.servers[id].log| - 1].term == n.term
    ensures Moved(w, w', id) && w'.net == w.net
    ensures w'.servers[id] == w.servers[id].(commit := |w.servers[id].log|)
  {
    var s := w.servers[id];
    var c := |s.log|;
    assert Members(w) by { ReachableInv(w); }
    assert AllMembers(w.cfg) == {id};
    LoneQuorum(w.cfg, id);
    QuorumGrows(w.cfg, {id}, Holders(s, id, c));
    w' := Put(w, id, s.(commit := c), w.net, w.past);
    MoveBy(w, w', id, AdvanceCommitStep(id, c));
  }

  lemma CommitIfAloneSim(w: World, id: Id, e: Effect) returns (w': World)
    requires Reachable(w) && id in w.servers && e.node.HasLog() && Mirrors(id, e.node, w.servers[id])
    requires e.node.role == Leader && w.servers[id].log != []
    requires w.servers[id].log[|w.servers[id].log| - 1].term == e.node.term
    ensures Moved(w, w', id) && w'.net == w.net
    ensures Mirrors(id, CommitIfAlone(w.cfg, e).node, w'.servers[id])
    ensures CommitIfAlone(w.cfg, e).sent == e.sent && CommitIfAlone(w.cfg, e).writes == e.writes
  {
    hide Reachable, ApplyLogs, Tracks;
    var n := e.node;
    TracksShape(n, w.servers[id].log);
    if Peers(w.cfg, n) == {} && n.LastIndex() > n.commit {
      w' := LoneCommitSim(w, id, n);
      CommitTracks(n, w.servers[id].log, n.LastIndex());
    } else {
      w' := w;
      Stay(w, id);
    }
  }

  lemma BecomeLeaderSim(w: World, id: Id, n: Node) returns (w': World)
    requires Reachable(w) && id in w.servers && Mirrors(id, n, w.servers[id]) && n.HasLog()
    requires n.role == Candidate && HasJointMajority(w.cfg, n.voters)
    ensures Moved(w, w', id) && w'.net == w.net
    ensures Mirrors(id, BecomeLeader(w.cfg, n).node, w'.servers[id])
    ensures BecomeLeader(w.cfg, n).sent == {}
    ensures BecomeLeader(w.cfg, n).writes == TakeOffice(w.cfg, n).writes
  {
    var w1 := TakeOfficeSim(w, id, n);
    w' := CommitIfAloneSim(w1, id, TakeOffice(w.cfg, n));
    MoveTrans(w, w1, w', id);
  }

  lemma StandSim(w: World, id: Id, n: Node, ps: set<Packet>) returns (w': World)
    requires Reachable(w) && id in w.servers && Mirrors(id, n, w.servers[id]) && n.HasLog() && n.role != Leader
    requires forall p :: p in ps ==> p.msg == RequestVote(n.term + 1, id, n.LastIndex(), n.LastTerm())
    ensures Moved(w, w', id) && w'.net == w.net + ps
    ensures Mirrors(id, Campaign(n).node, w'.servers[id])
  {
    hide Reachable, Tracks, Campaign;
    var s := w.servers[id];
    var t := s.term + 1;
    TracksShape(n, s.log);
    CampaignTracks(n, s.log);
    w' := Put(w, id, s.(role := Candidate, term := t, votedFor := Some(id), voters := {id}),
              w.net + ps,
              w.past.(votes := w.past.votes[Ballot(id, t) := id], bids := w.past.bids[Ballot(id, t) := s.log]));
    MoveBy(w, w', id, StandStep(id));
  }

  lemma CampaignTracks(n: Node, full: seq<Entry>)
    requires Tracks(n, full)
    ensures var n' := Campaign(n).node;
            && Tracks(n', full) && n'.id == n.id
            && Shadow(n', full) == Shadow(n, full).(role := Candidate, term := n.term + 1, votedFor := Some(n.id), voters := {n.id})
  {
    hide Offset, StoresLog;
    WritesTwo(n.db, PutTerm(n.term + 1), PutVote(Some(n.id)));
  }

  lemma StartAloneSim(w: World, id: Id, n: Node) returns (w': World)
    requires Reachable(w) && id in w.servers && Mirrors(id, n, w.servers[id]) && n.HasLog() && n.role != Leader
    requires |AllMembers(w.cfg)| == 1
    ensures Moved(w, w', id) && StartElection(w.cfg, n).sent == {}
    ensures Mirrors(id, StartElection(w.cfg, n).node, w'.servers[id])
  {
    var w1 := StandSim(w, id, n, {});
    assert HasJointMajority(w.cfg, {id}) by {
      ReachableInv(w);
      OneMember(AllMembers(w.cfg), id);
      LoneQuorum(w.cfg, id);
    }
    w' := BecomeLeaderSim(w1, id, Campaign(n).node);
    MoveTrans(w, w1, w', id);
  }

  lemma StartElectionSim(w: World, id: Id, n: Node) returns (w': World)
    requires Reachable(w) && id in w.servers && Mirrors(id, n, w.servers[id]) && n.HasLog() && n.role != Leader
    ensures Moved(w, w', id) && StartElection(w.cfg, n).sent <= w'.net
    ensures Mirrors(id, StartElection(w.cfg, n).node, w'.servers[id])
  {
    hide Reachable, Tracks, ApplyWrites, BecomeLeader;
    if |AllMembers(w.cfg)| == 1 {
      w' := StartAloneSim(w, id, n);
    } else {
      w' := StandSim(w, id, n, StartElection(w.cfg, n).sent);
    }
  }

  lemma OneMember(s: set<Id>, id: Id)
    requires |s| == 1 && id in s
    ensures s == {id}
  {
    assert |s - {id}| == 0;
  }

  lemma GrantSim(w: World, id: Id, n: Node, m: Message) returns (w': World)
    requires Reachable(w) && id in w.servers && Mirrors(id, n, w.servers[id]) && n.HasLog()
    requires m.RequestVote? && Packet(id, m) in w.net && m.term == n.term
    requires n.votedFor == None || n.votedFor == Some(m.candidate)
    requires m.lastTerm > n.LastTerm() || (m.lastTerm == n.LastTerm() && m.lastIndex >= n.LastIndex())
    ensures Moved(w, w', id) && w'.net == w.net + {Packet(m.candidate, VoteReply(n.term, true, id))}
    ensures Mirrors(id, Saving(n.(votedFor := Some(m.candidate)), [PutVote(Some(m.candidate))]).node, w'.servers[id])
  {
    var s := w.servers[id];
    OffsetLast(n.log, n.snapIndex, n.snapTerm, s.log);
    w' := Put(w, id, s.(votedFor := Some(m.candidate)),
              w.net + {Packet(m.candidate, VoteReply(s.term, true, id))},
              w.past.(votes := w.past.votes[Ballot(id, s.term) := m.candidate]));
    MoveBy(w, w', id, GrantVoteStep(id, m));
    WritesOne(n.db, PutVote(Some(m.candidate)));
  }

  lemma RefuseSim(w: World, id: Id, p: Packet) returns (w': World)
    requires Reachable(w) && id in w.servers
    requires (p.msg.VoteReply? && !p.msg.granted) || (p.msg.AppendReply? && !p.msg.success)
    ensures Moved(w, w', id) && w'.net == w.net + {p} && w'.servers == w.servers
  {
    w' := w.(net := w.net + {p});
    MoveBy(w, w', id, RefuseStep({p}));
  }

  lemma StepUpSim(w: World, id: Id, n: Node, t: nat) returns (w': World)
    requires Reachable(w) && id in w.servers && Mirrors(id, n, w.servers[id]) && t >= n.term
    ensures Moved(w, w', id) && w'.net == w.net
    ensures Mirrors(id, (if t > n.term then StepDown(n, t) else Idle(n)).node, w'.servers[id])
  {
    if t > n.term {
      w' := StepDownSim(w, id, n, t);
    } else {
      w' := w;
      Stay(w, id);
    }
  }

  lemma StepDownFits(n: Node, t: nat)
    ensures var n' := StepDown(n, t).node; n'.log == n.log && n'.term == (if t > n.term then t else n.term) && n'.role == Follower
    ensures StepDown(n, t).sent == {}
  {
  }

  lemma AnswerVoteSim(w: World, id: Id, e: Effect, m: Message) returns (w': World)
    requires Reachable(w) && id in w.servers && Mirrors(id, e.node, w.servers[id]) && e.node.HasLog()
    requires m.RequestVote? && Packet(id, m) in w.net && m.term == e.node.term && e.sent == {}
    ensures Moved(w, w', id) && AnswerVote(e, m).sent <= w'.net
    ensures Mirrors(id, AnswerVote(e, m).node, w'.servers[id])
  {
    hide Reachable, Tracks, ApplyWrites;
    var n := e.node;
    var current := m.lastTerm > n.LastTerm() || (m.lastTerm == n.LastTerm() && m.lastIndex >= n.LastIndex());
    if (n.votedFor == None || n.votedFor == Some(m.candidate)) && current {
      w' := GrantSim(w, id, n, m);
    } else {
      w' := RefuseSim(w, id, Packet(m.candidate, VoteReply(n.term, false, id)));
    }
  }

  lemma RequestVoteSim(w: World, id: Id, n: Node, m: Message) returns (w': World)
    requires Reachable(w) && id in w.servers && Mirrors(id, n, w.servers[id]) && n.HasLog()
    requires m.RequestVote? && Packet(id, m) in w.net
    ensures Moved(w, w', id) && HandleRequestVote(n, m).sent <= w'.net
    ensures Mirrors(id, HandleRequestVote(n, m).node, w'.servers[id])
  {
    hide Reachable, Tracks, ApplyWrites, AnswerVote;
    if m.term < n.term {
      w' := RefuseSim(w, id, Packet(m.candidate, VoteReply(n.term, false, id)));
    } else {
      StepDownFits(n, m.term);
      var e := if m.term > n.term then StepDown(n, m.term) else Idle(n);
      var w1 := StepUpSim(w, id, n, m.term);
      w' := AnswerVoteSim(w1, id, e, m);
      MoveTrans(w, w1, w', id);
    }
  }

  lemma VoteReplySim(w: World, id: Id, n: Node, m: Message) returns (w': World)
    requires Reachable(w) && id in w.servers && Mirrors(id, n, w.servers[id]) && n.HasLog()
    requires m.VoteReply? && Packet(id, m) in w.net
    ensures Moved(w, w', id) && HandleVoteReply(w.cfg, n, m).sent <= w'.net
    ensures Mirrors(id, HandleVoteReply(w.cfg, n, m).node, w'.servers[id])
  {
    hide Reachable, ApplyWrites, HasJointMajority, BecomeLeader;
    if n.role == Candidate && n.term == m.term && m.granted {
      var n1 := n.(voters := n.voters + {m.peer});
      var w1 := Put(w, id, w.servers[id].(voters := w.servers[id].voters + {m.peer}), w.net, w.past);
      MoveBy(w, w1, id, CountVoteStep(id, m));
      if HasJointMajority(w.cfg, n1.voters) {
        w' := BecomeLeaderSim(w1, id, n1);
        MoveTrans(w, w1, w', id);
      } else {
        w' := w1;
      }
    } else if m.term > n.term {
      w' := StepDownSim(w, id, n, m.term);
    } else {
      w' := w;
      Stay(w, id);
    }
  }
}
