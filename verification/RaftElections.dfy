/**
Elections, wherever crashes cut in. Term and vote are saved before anything that
depends on them is sent, so they survive also those crashes that tear a log or
leave a snapshot half done: a term never has two leaders, and no node votes twice.
*/
module RaftElections {
  import opened Options
  import opened Quorum
  import opened RaftProtocol
  import opened RaftNode
  import opened RaftCrash
  import opened RaftRefinement
  import opened RaftReplies
  import opened RaftDuties
  import opened RaftCluster

  // ---------------------------------------------------------------- term and vote in the store

  /** Server `n` moves to this term and vote: to a later term, or it keeps the vote it has cast. */
  predicate Steady(n: Node, term: nat, vote: Option<Id>) {
    term > n.term || (term == n.term && (vote == n.votedFor || n.votedFor == None))
  }

  predicate Saved(n: Node) { n.db.term == n.term && n.db.vote == n.votedFor }

  ghost predicate NoTerm(ws: seq<Write>) { forall i :: 0 <= i < |ws| ==> !ws[i].PutTerm? }

  ghost predicate NoVote(ws: seq<Write>) { forall i :: 0 <= i < |ws| ==> !ws[i].PutVote? }

  /** The first write records a higher term, and no other write touches the term. */
  ghost predicate Raises(ws: seq<Write>, term: nat) {
    ws != [] && ws[0].PutTerm? && ws[0].term > term && NoTerm(ws[1..])
  }

  /** What a reaction of `n` may write. */
  ghost predicate Proper(n: Node, ws: seq<Write>) {
    || Raises(ws, n.term)
    || (NoTerm(ws) && NoVote(ws))
    || (|ws| == 1 && ws[0].PutVote? && n.votedFor == None)
    || (|ws| == 1 && ws[0].PutVote? && n.votedFor == ws[0].vote)
  }

  lemma {:induction false} TermKept(db: Store, ws: seq<Write>)
    requires NoTerm(ws)
    ensures ApplyWrites(db, ws).term == db.term
    decreases |ws|
  {
    if ws != [] { TermKept(db, ws[..|ws| - 1]); }
  }

  lemma {:induction false} VoteKept(db: Store, ws: seq<Write>)
    requires NoVote(ws)
    ensures ApplyWrites(db, ws).vote == db.vote
    decreases |ws|
  {
    if ws != [] { VoteKept(db, ws[..|ws| - 1]); }
  }

  /** After any number of the writes, the stored term and vote are steady. */
  lemma PrefixSteady(n: Node, ws: seq<Write>, k: nat)
    requires Saved(n) && Proper(n, ws) && k <= |ws|
    ensures var db := ApplyWrites(n.db, ws[..k]); Steady(n, db.term, db.vote)
  {
    hide ApplyWrites;
    if k == 0 {
      NoWrites(n.db);
      assert ws[..0] == [];
    } else if Raises(ws, n.term) {
      var db1 := ApplyWrites(n.db, [ws[0]]);
      WritesOne(n.db, ws[0]);
      assert ws[..k] == [ws[0]] + ws[1..k];
      WritesConcat(n.db, [ws[0]], ws[1..k]);
      assert NoTerm(ws[1..k]) by { assert forall i :: 0 <= i < k - 1 ==> ws[1..k][i] == ws[1..][i]; }
      TermKept(db1, ws[1..k]);
    } else if NoTerm(ws) && NoVote(ws) {
      TermKept(n.db, ws[..k]);
      VoteKept(n.db, ws[..k]);
    } else {
      assert ws[..k] == [ws[0]];
      WritesOne(n.db, ws[0]);
    }
  }

  // ---------------------------------------------------------------- what a reaction does to an election

  predicate Grant(m: Message) { m.VoteReply? && m.granted }

  /** Node `n` counts the vote that `ev` delivers. */
  predicate Counts(n: Node, ev: Event) {
    ev.Deliver? && Grant(ev.msg) && ev.msg.term == n.term && n.role == Candidate
  }

  /** It stands in its next term. */
  predicate StandsAt(n: Node, n': Node) {
    n'.term == n.term + 1 && n'.votedFor == Some(n.id) && n'.voters == {n.id}
  }

  ghost predicate CandidateBy(n: Node, ev: Event, n': Node) {
    || StandsAt(n, n')
    || (n.role == Candidate && n'.term == n.term && n'.votedFor == n.votedFor
        && (n'.voters == n.voters || (Counts(n, ev) && n'.voters == n.voters + {ev.msg.peer})))
  }

  ghost predicate LeaderBy(cfg: ClusterConfiguration, n: Node, ev: Event, n': Node) {
    || (n.role == Leader && n'.term == n.term)
    || (StandsAt(n, n') && |AllMembers(cfg)| == 1)
    || (Counts(n, ev) && n'.term == n.term && HasJointMajority(cfg, n.voters + {ev.msg.peer}))
  }

  /** Who is a candidate or leads, why, and whom the node grants its vote. */
  ghost predicate Campaigns(cfg: ClusterConfiguration, n: Node, ev: Event, e: Effect) {
    && e.node.id == n.id && e.node.HasLog()
    && (e.node.role == Candidate ==> CandidateBy(n, ev, e.node))
    && (e.node.role == Leader ==> LeaderBy(cfg, n, ev, e.node))
    && (forall p :: p in e.sent && Grant(p.msg) ==> p.msg.peer == n.id && p.msg.term == e.node.term && e.node.votedFor == Some(p.dst))
  }

  lemma TakeOfficeShape(cfg: ClusterConfiguration, n: Node)
    requires n.HasLog()
    ensures var n' := BecomeLeader(cfg, n).node;
            n'.id == n.id && n'.HasLog() && n'.role == Leader && n'.term == n.term && n'.votedFor == n.votedFor && n'.voters == n.voters
    ensures BecomeLeader(cfg, n).sent == {}
  {
    hide ApplyLogs, ApplyWrites, Numbered;
    var t := TakeOffice(cfg, n);
    ApplyLogsKeep(t.node.(commit := t.node.LastIndex()));
    ApplyLogsQuiet(t.node.(commit := t.node.LastIndex()));
  }

  lemma StartElectionCampaigns(cfg: ClusterConfiguration, n: Node)
    requires n.HasLog()
    ensures Campaigns(cfg, n, ElectionTimeout, StartElection(cfg, n))
  {
    hide BecomeLeader, ApplyWrites, AllMembers;
    TakeOfficeShape(cfg, Campaign(n).node);
  }

  lemma RequestVoteCampaigns(cfg: ClusterConfiguration, n: Node, m: Message)
    requires n.HasLog() && m.RequestVote? && (n.role == Candidate ==> n.votedFor == Some(n.id))
    ensures Campaigns(cfg, n, Deliver(m), HandleRequestVote(n, m))
  {
    hide ApplyWrites, HasJointMajority, AllMembers, StepDown, AnswerVote, LeaderBy, CandidateBy;
    SteppingDown(n, m.term);
    if m.term > n.term {
      AnswersVote(StepDown(n, m.term), m);
    } else if m.term == n.term {
      AnswersVote(Idle(n), m);
      SameOffice(cfg, n, Deliver(m), AnswerVote(Idle(n), m).node);
    } else {
      SameOffice(cfg, n, Deliver(m), n);
    }
  }

  lemma SteppingDown(n: Node, t: nat)
    ensures var e := StepDown(n, t); e.node.id == n.id && e.node.log == n.log && e.node.role == Follower && e.sent == {}
  {
  }

  lemma AnswersVote(e: Effect, m: Message)
    requires e.node.HasLog() && m.RequestVote? && e.sent == {}
    ensures var r, n, n' := AnswerVote(e, m), e.node, AnswerVote(e, m).node;
            && n'.id == n.id && n'.log == n.log && n'.role == n.role && n'.term == n.term && n'.voters == n.voters
            && (n'.votedFor == n.votedFor || n.votedFor == None)
            && (forall p :: p in r.sent && Grant(p.msg) ==> p.msg.peer == n.id && p.msg.term == n.term && n'.votedFor == Some(p.dst))
  {
    hide ApplyWrites;
  }

  lemma SameOffice(cfg: ClusterConfiguration, n: Node, ev: Event, n': Node)
    requires n'.role == n.role && n'.term == n.term
    requires n.role == Candidate ==> n'.voters == n.voters && n'.votedFor == n.votedFor
    ensures n'.role == Candidate ==> CandidateBy(n, ev, n')
    ensures n'.role == Leader ==> LeaderBy(cfg, n, ev, n')
  {
  }

  lemma VoteReplyCampaigns(cfg: ClusterConfiguration, n: Node, m: Message)
    requires n.HasLog() && m.VoteReply?
    ensures Campaigns(cfg, n, Deliver(m), HandleVoteReply(cfg, n, m))
  {
    hide ApplyWrites, BecomeLeader, HasJointMajority, AllMembers;
    TakeOfficeShape(cfg, n.(voters := n.voters + {m.peer}));
  }

  lemma AppendCampaigns(cfg: ClusterConfiguration, n: Node, m: Message)
    requires n.HasLog() && m.Append?
    ensures Campaigns(cfg, n, Deliver(m), HandleAppend(n, m))
  {
    hide ApplyLogs, ApplyWrites, AdoptWrites, Merge, HasJointMajority, AllMembers;
    var e := StepDown(n, m.term);
    if m.term >= n.term && PrevMatches(e.node, m) {
      var a := Then(e, Adopt(e.node, m.prevIndex, m.entries));
      var c := a.node.(commit := Min(m.leaderCommit, a.node.LastIndex()));
      ApplyLogsKeep(c);
      ApplyLogsQuiet(c);
    }
  }

  lemma AppendReplyCampaigns(cfg: ClusterConfiguration, n: Node, m: Message)
    requires n.HasLog() && m.AppendReply?
    ensures Campaigns(cfg, n, Deliver(m), HandleAppendReply(cfg, n, m))
  {
    hide ApplyLogs, ApplyWrites, BestIndex, MatchTable, HasJointMajority, AllMembers;
    var n1 := Recorded(cfg, n, m);
    var c := n1.(commit := BestIndex(cfg, MatchTable(cfg, n1), n1.commit));
    ApplyLogsKeep(c);
    ApplyLogsQuiet(c);
  }

  lemma ClientsCampaigns(cfg: ClusterConfiguration, n: Node, reqs: seq<ClientRequest>)
    requires n.HasLog()
    ensures Campaigns(cfg, n, Clients(reqs), HandleClients(cfg, n, reqs))
  {
    hide ApplyLogs, ApplyWrites, Numbered, HasJointMajority, AllMembers;
    var e := Enqueue(n, reqs);
    ApplyLogsKeep(e.node.(commit := e.node.LastIndex()));
    ApplyLogsQuiet(e.node.(commit := e.node.LastIndex()));
  }

  lemma ReactCampaigns(cfg: ClusterConfiguration, n: Node, ev: Event)
    requires n.HasLog() && (n.role == Candidate ==> n.votedFor == Some(n.id))
    ensures Campaigns(cfg, n, ev, React(cfg, n, ev))
  {
    hide StartElection, HandleRequestVote, HandleVoteReply, HandleAppend, HandleAppendReply, HandleClients, ApplyLogs, ApplyWrites,
         HasJointMajority, AllMembers;
    match ev
    case ElectionTimeout => StartElectionCampaigns(cfg, n);
    case HeartbeatTick => OnlyBeats(cfg, n);
    case ApplyTick => ApplyLogsKeep(n); ApplyLogsQuiet(n);
    case SnapshotTick =>
    case Deliver(m) =>
      match m {
        case RequestVote(_, _, _, _) => RequestVoteCampaigns(cfg, n, m);
        case VoteReply(_, _, _) => VoteReplyCampaigns(cfg, n, m);
        case Append(_, _, _, _, _, _) => AppendCampaigns(cfg, n, m);
        case AppendReply(_, _, _, _) => AppendReplyCampaigns(cfg, n, m);
      }
    case Clients(reqs) => ClientsCampaigns(cfg, n, reqs);
  }

  lemma OnlyBeats(cfg: ClusterConfiguration, n: Node)
    requires n.HasLog()
    ensures forall p :: p in SendHeartbeats(cfg, n).sent ==> p.msg.Append?
  {
    hide AllMembers;
  }

  // ---------------------------------------------------------------- what a reaction writes

  lemma StartElectionProper(cfg: ClusterConfiguration, n: Node)
    requires n.HasLog()
    ensures Proper(n, StartElection(cfg, n).writes)
  {
    hide BecomeLeader, ApplyWrites, AllMembers, Numbered;
    BecomeLeaderLogged(cfg, Campaign(n).node);
  }

  lemma RequestVoteProper(n: Node, m: Message)
    requires n.HasLog() && m.RequestVote?
    ensures Proper(n, HandleRequestVote(n, m).writes)
  {
    hide ApplyWrites;
  }

  lemma StepDownProper(n: Node, t: nat)
    ensures Proper(n, StepDown(n, t).writes)
  {
    hide ApplyWrites;
  }

  lemma VoteReplyProper(cfg: ClusterConfiguration, n: Node, m: Message)
    requires n.HasLog() && m.VoteReply?
    ensures Proper(n, HandleVoteReply(cfg, n, m).writes)
  {
    hide ApplyWrites, BecomeLeader, HasJointMajority, Numbered;
    BecomeLeaderLogged(cfg, n.(voters := n.voters + {m.peer}));
    StepDownProper(n, m.term);
  }

  lemma AdoptCalm(n: Node, prev: nat, es: seq<Entry>)
    requires n.HasLog() && n.snapIndex <= prev <= n.LastIndex()
    ensures NoTerm(AdoptWrites(n, prev, es)) && NoVote(AdoptWrites(n, prev, es))
  {
    hide Agreeing, Drops, Numbered;
    var k := Agreeing(n.log, prev - n.snapIndex + 1, es);
    var drops := Drops(n.db.log, prev + k + 1);
    forall j | 0 <= j < |drops| ensures drops[j].DropEntry? { DropsAreDrops(n.db.log, prev + k + 1, j); }
  }

  lemma AppendProper(n: Node, m: Message)
    requires n.HasLog() && m.Append?
    ensures Proper(n, HandleAppend(n, m).writes)
  {
    hide AcceptAppend, AdoptWrites, ApplyWrites;
    var e := StepDown(n, m.term);
    StepDownLogged(n, m.term);
    if m.term >= n.term && PrevMatches(e.node, m) {
      AcceptLogged(n, e, m);
      AdoptCalm(e.node, m.prevIndex, m.entries);
    }
  }

  lemma ReactProper(cfg: ClusterConfiguration, n: Node, ev: Event)
    requires n.HasLog()
    ensures Proper(n, React(cfg, n, ev).writes)
  {
    hide StartElection, HandleRequestVote, HandleVoteReply, HandleAppend, HandleAppendReply, CommitIfAlone, ApplyLogs, ApplyWrites,
         StepDown, Numbered;
    match ev
    case ElectionTimeout => StartElectionProper(cfg, n);
    case HeartbeatTick =>
    case ApplyTick => ApplyLogsQuiet(n);
    case SnapshotTick =>
    case Deliver(m) =>
      match m {
        case RequestVote(_, _, _, _) => RequestVoteProper(n, m);
        case VoteReply(_, _, _) => VoteReplyProper(cfg, n, m);
        case Append(_, _, _, _, _, _) => AppendProper(n, m);
        case AppendReply(_, _, _, _) => AppendReplyLogged(cfg, n, m); StepDownProper(n, m.term);
      }
    case Clients(reqs) => CommitIfAloneLogged(cfg, n, Enqueue(n, reqs));
  }

  // ---------------------------------------------------------------- memory and store agree

  /** Writes that touch neither, by a reaction that changes neither. */
  lemma CalmSaved(n: Node, n': Node, ws: seq<Write>)
    requires Saved(n) && NoTerm(ws) && NoVote(ws) && n'.db == ApplyWrites(n.db, ws)
    requires n'.term == n.term && n'.votedFor == n.votedFor
    ensures Saved(n')
  {
    TermKept(n.db, ws);
    VoteKept(n.db, ws);
  }

  lemma StepDownSaved(n: Node, t: nat)
    requires Saved(n)
    ensures Saved(StepDown(n, t).node)
  {
    hide ApplyWrites;
    if t > n.term { WritesTwo(n.db, PutTerm(t), PutVote(None)); } else { NoWrites(n.db); }
  }

  lemma BecomeLeaderSaved(cfg: ClusterConfiguration, n: Node)
    requires Saved(n) && n.HasLog()
    ensures Saved(BecomeLeader(cfg, n).node)
  {
    hide BecomeLeader, ApplyWrites, Numbered;
    TakeOfficeShape(cfg, n);
    BecomeLeaderLogged(cfg, n);
    CalmSaved(n, BecomeLeader(cfg, n).node, BecomeLeader(cfg, n).writes);
  }

  lemma StartElectionSaved(cfg: ClusterConfiguration, n: Node)
    requires Saved(n) && n.HasLog()
    ensures Saved(StartElection(cfg, n).node)
  {
    hide BecomeLeader, ApplyWrites, AllMembers;
    WritesTwo(n.db, PutTerm(n.term + 1), PutVote(Some(n.id)));
    BecomeLeaderSaved(cfg, Campaign(n).node);
  }

  lemma RequestVoteSaved(n: Node, m: Message)
    requires Saved(n) && n.HasLog() && m.RequestVote?
    ensures Saved(HandleRequestVote(n, m).node)
  {
    hide ApplyWrites, StepDown;
    StepDownSaved(n, m.term);
    StepDownShape(n, m.term);
    var e := if m.term > n.term then StepDown(n, m.term) else Idle(n);
    WritesOne(e.node.db, PutVote(Some(m.candidate)));
  }

  lemma AppendSaved(n: Node, m: Message)
    requires Saved(n) && n.HasLog() && m.Append?
    ensures Saved(HandleAppend(n, m).node)
  {
    hide ApplyLogs, ApplyWrites, AdoptWrites, Merge, StepDown;
    var e := StepDown(n, m.term);
    StepDownSaved(n, m.term);
    StepDownShape(n, m.term);
    if m.term >= n.term && PrevMatches(e.node, m) {
      var b := Adopt(e.node, m.prevIndex, m.entries);
      AdoptCalm(e.node, m.prevIndex, m.entries);
      CalmSaved(e.node, b.node, b.writes);
      var c := b.node.(commit := Min(m.leaderCommit, b.node.LastIndex()));
      ApplyLogsKeep(c);
    }
  }

  lemma AppendReplySaved(cfg: ClusterConfiguration, n: Node, m: Message)
    requires Saved(n) && n.HasLog() && m.AppendReply?
    ensures Saved(HandleAppendReply(cfg, n, m).node)
  {
    hide ApplyLogs, ApplyWrites, BestIndex, MatchTable, StepDown;
    StepDownSaved(n, m.term);
    var n1 := Recorded(cfg, n, m);
    ApplyLogsKeep(n1.(commit := BestIndex(cfg, MatchTable(cfg, n1), n1.commit)));
  }

  lemma ClientsSaved(cfg: ClusterConfiguration, n: Node, reqs: seq<ClientRequest>)
    requires Saved(n) && n.HasLog()
    ensures Saved(HandleClients(cfg, n, reqs).node)
  {
    hide ApplyLogs, ApplyWrites, Numbered;
    var e := Enqueue(n, reqs);
    CalmSaved(n, e.node, e.writes);
    ApplyLogsKeep(e.node.(commit := e.node.LastIndex()));
  }

  lemma SnapshotSaved(n: Node)
    requires Saved(n) && AppliedKnown(n)
    ensures Saved(CreateSnapshot(n).node)
  {
    hide ApplyWrites;
    CalmSaved(n, CreateSnapshot(n).node, CreateSnapshot(n).writes);
  }

  lemma ReactSaved(cfg: ClusterConfiguration, n: Node, ev: Event)
    requires Saved(n) && n.HasLog()
    ensures Saved(React(cfg, n, ev).node)
  {
    hide StartElection, HandleRequestVote, HandleAppend, HandleAppendReply, HandleClients, BecomeLeader, ApplyLogs, ApplyWrites,
         StepDown, CreateSnapshot, HasJointMajority;
    match ev
    case ElectionTimeout => StartElectionSaved(cfg, n);
    case HeartbeatTick =>
    case ApplyTick => ApplyLogsKeep(n);
    case SnapshotTick => if AppliedKnown(n) { SnapshotSaved(n); }
    case Deliver(m) =>
      match m {
        case RequestVote(_, _, _, _) => RequestVoteSaved(n, m);
        case VoteReply(_, _, _) => BecomeLeaderSaved(cfg, n.(voters := n.voters + {m.peer})); StepDownSaved(n, m.term);
        case Append(_, _, _, _, _, _) => AppendSaved(n, m);
        case AppendReply(_, _, _, _) => AppendReplySaved(cfg, n, m);
      }
    case Clients(reqs) => ClientsSaved(cfg, n, reqs);
  }

  // ---------------------------------------------------------------- the poll

  /** Who got whose vote, term by term. */
  type Poll = map<Ballot, Id>

  ghost predicate Voted(poll: Poll, v: Id, t: nat, a: Id) {
    Ballot(v, t) in poll && poll[Ballot(v, t)] == a
  }

  ghost predicate PollGrows(poll: Poll, poll': Poll) {
    forall b :: b in poll ==> b in poll' && poll'[b] == poll[b]
  }

  /** Everybody in `q` voted for `id`. */
  ghost predicate Support(poll: Poll, q: set<Id>, t: nat, id: Id) {
    forall v :: v in q ==> Voted(poll, v, t, id)
  }

  ghost predicate ElectedBy(cfg: ClusterConfiguration, poll: Poll, t: nat, id: Id) {
    exists q :: HasJointMajority(cfg, q) && Support(poll, q, t, id)
  }

  /** The poll has the node's own vote, nothing of later terms, and what a candidate or leader rests on. */
  ghost predicate NodePolled(cfg: ClusterConfiguration, poll: Poll, id: Id, n: Node) {
    && n.id == id && n.HasLog() && Saved(n)
    && (forall t: nat :: t > n.term ==> Ballot(id, t) !in poll)
    && (if n.votedFor.Some? then Voted(poll, id, n.term, n.votedFor.value) else Ballot(id, n.term) !in poll)
    && (n.role == Candidate ==> n.votedFor == Some(id) && Support(poll, n.voters, n.term, id))
    && (n.role == Leader ==> ElectedBy(cfg, poll, n.term, id))
  }

  ghost predicate Polled(c: Cluster, poll: Poll) {
    && Populated(c.cfg) && c.nodes.Keys == AllMembers(c.cfg)
    && (forall id :: id in c.nodes ==> NodePolled(c.cfg, poll, id, c.nodes[id]))
    && (forall p :: p in c.net && Grant(p.msg) ==> Voted(poll, p.msg.peer, p.msg.term, p.dst))
  }

  /** With the vote of node `id` in the term it is in. */
  function Noting(poll: Poll, id: Id, n: Node): Poll {
    if n.votedFor.Some? then poll[Ballot(id, n.term) := n.votedFor.value] else poll
  }

  lemma NotingGrows(cfg: ClusterConfiguration, poll: Poll, id: Id, n: Node, n': Node)
    requires NodePolled(cfg, poll, id, n) && Steady(n, n'.term, n'.votedFor)
    ensures PollGrows(poll, Noting(poll, id, n'))
    ensures forall b :: b in Noting(poll, id, n') && b !in poll ==> b == Ballot(id, n'.term)
    ensures forall t: nat :: t > n'.term ==> Ballot(id, t) !in Noting(poll, id, n')
    ensures if n'.votedFor.Some? then Voted(Noting(poll, id, n'), id, n'.term, n'.votedFor.value)
            else Ballot(id, n'.term) !in Noting(poll, id, n')
  {
    hide ElectedBy, Support;
  }

  lemma ElectedStays(cfg: ClusterConfiguration, poll: Poll, poll': Poll, t: nat, id: Id)
    requires ElectedBy(cfg, poll, t, id) && PollGrows(poll, poll')
    ensures ElectedBy(cfg, poll', t, id)
  {
    var q :| HasJointMajority(cfg, q) && Support(poll, q, t, id);
    assert Support(poll', q, t, id);
  }

  /** A node that does nothing. */
  lemma BystanderPolled(cfg: ClusterConfiguration, poll: Poll, poll': Poll, id: Id, n: Node, actor: Id, t: nat)
    requires NodePolled(cfg, poll, id, n) && PollGrows(poll, poll') && actor != id
    requires forall b :: b in poll' && b !in poll ==> b == Ballot(actor, t)
    ensures NodePolled(cfg, poll', id, n)
  {
    hide ElectedBy;
    if n.role == Leader { ElectedStays(cfg, poll, poll', n.term, id); }
  }

  /** A node that comes back from its store. */
  lemma RestartPolled(cfg: ClusterConfiguration, poll: Poll, id: Id, n: Node, db: Store)
    requires NodePolled(cfg, poll, id, n) && Steady(n, db.term, db.vote)
    ensures var b := Boot(cfg, id, db); NodePolled(cfg, Noting(poll, id, b), id, b) && Steady(n, b.term, b.votedFor)
  {
    hide NodePolled, LoadEntries;
    NotingGrows(cfg, poll, id, n, Boot(cfg, id, db));
    RestartShape(cfg, poll, id, Boot(cfg, id, db), Noting(poll, id, Boot(cfg, id, db)));
  }

  lemma RestartShape(cfg: ClusterConfiguration, poll: Poll, id: Id, b: Node, poll': Poll)
    requires b.id == id && b.HasLog() && Saved(b) && b.role == Follower
    requires forall t: nat :: t > b.term ==> Ballot(id, t) !in poll'
    requires if b.votedFor.Some? then Voted(poll', id, b.term, b.votedFor.value) else Ballot(id, b.term) !in poll'
    ensures NodePolled(cfg, poll', id, b)
  {
  }

  // ---------------------------------------------------------------- one reaction

  /** The vote that is counted was cast. */
  lemma CountedSupport(poll: Poll, poll': Poll, n: Node, ev: Event, id: Id)
    requires PollGrows(poll, poll') && n.role == Candidate && Support(poll, n.voters, n.term, id)
    requires Counts(n, ev) && Voted(poll, ev.msg.peer, n.term, id)
    ensures Support(poll', n.voters + {ev.msg.peer}, n.term, id)
  {
  }

  lemma CandidatePolled(cfg: ClusterConfiguration, poll: Poll, id: Id, n: Node, ev: Event, n': Node)
    requires NodePolled(cfg, poll, id, n) && Steady(n, n'.term, n'.votedFor) && CandidateBy(n, ev, n')
    requires Counts(n, ev) ==> Voted(poll, ev.msg.peer, n.term, id)
    ensures n'.votedFor == Some(id) && Support(Noting(poll, id, n'), n'.voters, n'.term, id)
  {
    hide ElectedBy;
    var poll' := Noting(poll, id, n');
    NotingGrows(cfg, poll, id, n, n');
    if StandsAt(n, n') {
    } else if n'.voters != n.voters {
      CountedSupport(poll, poll', n, ev, id);
    }
  }

  lemma LeaderPolled(cfg: ClusterConfiguration, poll: Poll, id: Id, n: Node, ev: Event, n': Node)
    requires NodePolled(cfg, poll, id, n) && Steady(n, n'.term, n'.votedFor) && LeaderBy(cfg, n, ev, n')
    requires Counts(n, ev) ==> Voted(poll, ev.msg.peer, n.term, id)
    requires Populated(cfg) && id in AllMembers(cfg)
    ensures ElectedBy(cfg, Noting(poll, id, n'), n'.term, id)
  {
    hide HasJointMajority, AllMembers;
    var poll' := Noting(poll, id, n');
    NotingGrows(cfg, poll, id, n, n');
    if n.role == Leader && n'.term == n.term {
      ElectedStays(cfg, poll, poll', n.term, id);
    } else if StandsAt(n, n') {
      OneMember(AllMembers(cfg), id);
      LoneQuorum(cfg, id);
      assert Support(poll', {id}, n'.term, id);
    } else {
      CountedSupport(poll, poll', n, ev, id);
    }
  }

  lemma ReactSteady(cfg: ClusterConfiguration, n: Node, ev: Event)
    requires n.HasLog() && Saved(n)
    ensures var n' := React(cfg, n, ev).node; Steady(n, n'.term, n'.votedFor) && Saved(n')
  {
    hide React, ApplyWrites, Proper;
    var e := React(cfg, n, ev);
    ReactSaved(cfg, n, ev);
    ReactProper(cfg, n, ev);
    PrefixSteady(n, e.writes, |e.writes|);
    ReactLogged(cfg, n, ev);
    assert e.writes[..|e.writes|] == e.writes;
  }

  lemma ReactPolled(cfg: ClusterConfiguration, poll: Poll, id: Id, n: Node, ev: Event)
    requires NodePolled(cfg, poll, id, n) && Populated(cfg) && id in AllMembers(cfg)
    requires Counts(n, ev) ==> Voted(poll, ev.msg.peer, n.term, id)
    ensures var e := React(cfg, n, ev);
            && Steady(n, e.node.term, e.node.votedFor)
            && NodePolled(cfg, Noting(poll, id, e.node), id, e.node)
            && (forall p :: p in e.sent && Grant(p.msg) ==> Voted(Noting(poll, id, e.node), p.msg.peer, p.msg.term, p.dst))
  {
    hide React, ElectedBy, HasJointMajority, AllMembers, CandidateBy, LeaderBy, Support, ApplyWrites;
    var e := React(cfg, n, ev);
    ReactCampaigns(cfg, n, ev);
    ReactSteady(cfg, n, ev);
    NotingGrows(cfg, poll, id, n, e.node);
    if e.node.role == Candidate { CandidatePolled(cfg, poll, id, n, ev, e.node); }
    if e.node.role == Leader { LeaderPolled(cfg, poll, id, n, ev, e.node); }
  }

  // ---------------------------------------------------------------- every execution

  /** The ballot that node `id` counts is one it was sent. */
  lemma CountedWasCast(c: Cluster, poll: Poll, id: Id, ev: Event)
    requires Polled(c, poll) && id in c.nodes && Enabled(id, ev, c.net) && Counts(c.nodes[id], ev)
    ensures Voted(poll, ev.msg.peer, c.nodes[id].term, id)
  {
    hide NodePolled, AllMembers;
    assert Packet(id, ev.msg) in c.net && Grant(Packet(id, ev.msg).msg);
  }

  /** Node `id` is `n'` afterwards, and `sent` got out. */
  lemma OthersPolled(c: Cluster, poll: Poll, id: Id, n': Node, c': Cluster, sent: set<Packet>)
    requires Polled(c, poll) && id in c.nodes && Steady(c.nodes[id], n'.term, n'.votedFor)
    requires c'.cfg == c.cfg && c'.nodes == c.nodes[id := n'] && c'.net == c.net + sent
    requires NodePolled(c.cfg, Noting(poll, id, n'), id, n')
    requires forall p :: p in sent && Grant(p.msg) ==> Voted(Noting(poll, id, n'), p.msg.peer, p.msg.term, p.dst)
    ensures Polled(c', Noting(poll, id, n')) && PollGrows(poll, Noting(poll, id, n'))
  {
    hide NodePolled, AllMembers, Noting;
    var poll' := Noting(poll, id, n');
    NotingGrows(c.cfg, poll, id, c.nodes[id], n');
    forall x | x in c'.nodes ensures NodePolled(c'.cfg, poll', x, c'.nodes[x]) {
      if x != id { BystanderPolled(c.cfg, poll, poll', x, c.nodes[x], id, n'.term); }
    }
  }

  /** Every step of the cluster, complete or cut by a crash after any write. */
  lemma HappensPolled(c: Cluster, poll: Poll, c': Cluster, h: Happening)
    requires Polled(c, poll) && Happens(c, c', h)
    ensures h.id in c'.nodes && Polled(c', Noting(poll, h.id, c'.nodes[h.id])) && PollGrows(poll, Noting(poll, h.id, c'.nodes[h.id]))
  {
    hide React, Fresh, Boot, NodePolled, AllMembers, Noting, Record, ApplyWrites, Deeds, BackedUp;
    var id, n := h.id, c.nodes[h.id];
    if Counts(n, h.event) { CountedWasCast(c, poll, id, h.event); }
    assert id in AllMembers(c.cfg);
    ReactPolled(c.cfg, poll, id, n, h.event);
    var e := React(c.cfg, n, h.event);
    match h
    case Reacts(_, ev) =>
      OthersPolled(c, poll, id, e.node, c', e.sent);
    case Crashes(_, ev, k, o) =>
      CrashPolled(c, poll, id, ev, k, o);
      OthersPolled(c, poll, id, c'.nodes[id], c', o.sent);
  }

  lemma AdvancePolled(c: Cluster, poll: Poll, c': Cluster) returns (poll': Poll)
    requires Polled(c, poll) && Advances(c, c', AnyPoint)
    ensures Polled(c', poll') && PollGrows(poll, poll')
  {
    hide Polled, PollGrows, React;
    var h :| Happens(c, c', h) && Admitted(c, h, AnyPoint);
    HappensPolled(c, poll, c', h);
    poll' := Noting(poll, h.id, c'.nodes[h.id]);
  }

  /** A crash after any of the writes. Nothing is sent before the last of them. */
  lemma CrashPolled(c: Cluster, poll: Poll, id: Id, ev: Event, k: nat, o: Outcome)
    requires Polled(c, poll) && id in c.nodes && c.nodes[id].HasLog() && Enabled(id, ev, c.net)
    requires k <= |React(c.cfg, c.nodes[id], ev).writes| && Partial(c.nodes[id], ev, React(c.cfg, c.nodes[id], ev), k, o)
    ensures var n := c.nodes[id];
            var b := Boot(c.cfg, id, ApplyWrites(n.db, React(c.cfg, n, ev).writes[..k]));
            && Steady(n, b.term, b.votedFor) && NodePolled(c.cfg, Noting(poll, id, b), id, b)
            && forall p :: p in o.sent && Grant(p.msg) ==> Voted(Noting(poll, id, b), p.msg.peer, p.msg.term, p.dst)
  {
    hide React, Boot, AllMembers, Noting, ElectedBy, Support, Deeds, BackedUp, Held, Waiting, ApplyWrites;
    var n := c.nodes[id];
    var e := React(c.cfg, n, ev);
    assert NodePolled(c.cfg, poll, id, n);
    ReactProper(c.cfg, n, ev);
    PrefixSteady(n, e.writes, k);
    RestartPolled(c.cfg, poll, id, n, ApplyWrites(n.db, e.writes[..k]));
    if k == |e.writes| {
      if Counts(n, ev) { CountedWasCast(c, poll, id, ev); }
      assert id in AllMembers(c.cfg);
      ReactPolled(c.cfg, poll, id, n, ev);
      ReactLogged(c.cfg, n, ev);
      assert e.writes[..k] == e.writes;
      RestartKeeps(c.cfg, poll, id, e.node);
    }
  }

  /** A restart forgets nothing of the vote. */
  lemma RestartKeeps(cfg: ClusterConfiguration, poll: Poll, id: Id, n: Node)
    requires Saved(n)
    ensures Noting(poll, id, Boot(cfg, id, n.db)) == Noting(poll, id, n)
  {
  }

  lemma StartPolled(c: Cluster)
    requires Start(c)
    ensures Polled(c, map[])
  {
    hide AllMembers, LoadEntries;
    forall id | id in c.nodes ensures NodePolled(c.cfg, map[], id, c.nodes[id]) { assert StartsBlank(c, id); }
  }

  /** One growing poll explains a whole execution, wherever crashes cut in. */
  ghost predicate PollsAll(cs: seq<Cluster>, polls: seq<Poll>) {
    && |polls| == |cs|
    && (forall i :: 0 <= i < |cs| ==> Polled(cs[i], polls[i]))
    && (forall i, j :: 0 <= i <= j < |cs| ==> PollGrows(polls[i], polls[j]))
  }

  lemma {:induction false} RunsPolled(cs: seq<Cluster>) returns (polls: seq<Poll>)
    requires Runs(cs, AnyPoint)
    ensures PollsAll(cs, polls)
    decreases |cs|
  {
    hide Polled, Advances, Start;
    if |cs| == 1 {
      StartPolled(cs[0]);
      polls := [map[]];
    } else {
      var k := |cs| - 1;
      var cs0 := cs[..k];
      assert Runs(cs0, AnyPoint) by {
        forall i | 0 < i < |cs0| ensures AdvanceAt(cs0, i, AnyPoint) { assert AdvanceAt(cs, i, AnyPoint); }
      }
      var ps := RunsPolled(cs0);
      assert AdvanceAt(cs, k, AnyPoint) && cs0[k - 1] == cs[k - 1];
      var p := AdvancePolled(cs[k - 1], ps[k - 1], cs[k]);
      polls := ps + [p];
      forall i, j | 0 <= i <= j < |cs| ensures PollGrows(polls[i], polls[j]) {
        if i < k && j == k { assert PollGrows(ps[i], ps[k - 1]); }
      }
    }
  }

  // ---------------------------------------------------------------- the theorems

  /** In every run a vote request that reaches a node is answered: with a grant exactly if one is due, and then
      the vote is stored. */
  lemma VoteAnswered(cs: seq<Cluster>, i: nat, id: Id, m: Message)
    requires Runs(cs, AnyPoint) && i + 1 < |cs| && m.RequestVote? && Happens(cs[i], cs[i + 1], Reacts(id, Deliver(m)))
    ensures id in cs[i + 1].nodes
    ensures var n, n' := cs[i].nodes[id], cs[i + 1].nodes[id];
            && (forall p :: p in cs[i + 1].net && p !in cs[i].net ==> p == Packet(m.candidate, VoteReply(Later(n.term, m.term), GrantDue(m, n), id)))
            && Packet(m.candidate, VoteReply(Later(n.term, m.term), GrantDue(m, n), id)) in cs[i + 1].net
            && (GrantDue(m, n) ==> n'.votedFor == n'.db.vote == Some(m.candidate) && n'.db.term == m.term)
  {
    hide Runs, React, Fresh, NodePolled, AllMembers, GrantDue;
    var polls := RunsPolled(cs);
    assert Polled(cs[i], polls[i]);
    var n := cs[i].nodes[id];
    assert n.id == id && Saved(n) by { VoterPolled(cs[i], polls[i], id); }
    VoteDuty(cs[i].cfg, n, m);
    DueInTerm(m, n);
  }

  lemma DueInTerm(m: Message, n: Node)
    requires m.RequestVote? && n.HasLog()
    ensures GrantDue(m, n) ==> m.term >= n.term
  {
  }

  lemma VoterPolled(c: Cluster, poll: Poll, id: Id)
    requires Polled(c, poll) && id in c.nodes
    ensures NodePolled(c.cfg, poll, id, c.nodes[id]) && c.nodes[id].id == id && Saved(c.nodes[id])
  {
  }

  /** Two moments of an execution, and polls of both. */
  lemma TwoPolls(cs: seq<Cluster>, i: nat, j: nat) returns (p: Poll, q: Poll)
    requires Runs(cs, AnyPoint) && i < |cs| && j < |cs|
    ensures Polled(cs[i], p) && Polled(cs[j], q) && (PollGrows(p, q) || PollGrows(q, p))
  {
    hide Polled, Runs, PollGrows;
    var polls := RunsPolled(cs);
    p, q := polls[i], polls[j];
  }

  lemma {:induction false} SameMembers(cs: seq<Cluster>, i: nat, j: nat)
    requires Runs(cs, AnyPoint) && i <= j < |cs|
    ensures cs[i].cfg == cs[j].cfg
    decreases j
  {
    hide React, Fresh, Boot, Partial, Record, Start;
    if i < j {
      SameMembers(cs, i, j - 1);
      assert AdvanceAt(cs, j, AnyPoint);
    }
  }

  /** A term has at most one leader, also across restarts and wherever crashes cut in. */
  lemma OneLeaderPerTerm(cs: seq<Cluster>, i: nat, j: nat, a: Id, b: Id)
    requires Runs(cs, AnyPoint) && i <= j < |cs| && a in cs[i].nodes && b in cs[j].nodes
    requires cs[i].nodes[a].role == Leader && cs[j].nodes[b].role == Leader
    requires cs[i].nodes[a].term == cs[j].nodes[b].term
    ensures a == b
  {
    hide Runs, HasJointMajority, AllMembers;
    var p, q := TwoPolls(cs, i, j);
    SameMembers(cs, i, j);
    var t := cs[i].nodes[a].term;
    assert NodePolled(cs[i].cfg, p, a, cs[i].nodes[a]) && NodePolled(cs[j].cfg, q, b, cs[j].nodes[b]);
    hide Polled;
    var poll := if PollGrows(p, q) then q else p;
    if PollGrows(p, q) { ElectedStays(cs[i].cfg, p, q, t, a); } else { ElectedStays(cs[i].cfg, q, p, t, b); }
    OneElected(cs[i].cfg, poll, t, a, b);
  }

  lemma OneElected(cfg: ClusterConfiguration, poll: Poll, t: nat, a: Id, b: Id)
    requires ElectedBy(cfg, poll, t, a) && ElectedBy(cfg, poll, t, b)
    ensures a == b
  {
    hide HasJointMajority, AllMembers;
    var q :| HasJointMajority(cfg, q) && Support(poll, q, t, a);
    var r :| HasJointMajority(cfg, r) && Support(poll, r, t, b);
    var v := QuorumsMeet(cfg, q, r);
    assert Voted(poll, v, t, a) && Voted(poll, v, t, b);
  }

  /** A node grants its vote to one candidate per term, whatever it forgets in between. */
  lemma OneVoteGranted(cs: seq<Cluster>, i: nat, j: nat, v: Id, t: nat, a: Id, b: Id)
    requires Runs(cs, AnyPoint) && i < |cs| && j < |cs|
    requires Packet(a, VoteReply(t, true, v)) in cs[i].net && Packet(b, VoteReply(t, true, v)) in cs[j].net
    ensures a == b
  {
    hide Runs, NodePolled, AllMembers;
    var p, q := TwoPolls(cs, i, j);
    assert Grant(Packet(a, VoteReply(t, true, v)).msg) && Grant(Packet(b, VoteReply(t, true, v)).msg);
    assert Voted(p, v, t, a) && Voted(q, v, t, b);
  }

  /** And to none but itself in a term in which it stands. */
  lemma CandidateVotesForItself(cs: seq<Cluster>, i: nat, j: nat, v: Id, a: Id)
    requires Runs(cs, AnyPoint) && i < |cs| && j < |cs| && v in cs[i].nodes && cs[i].nodes[v].role == Candidate
    requires Packet(a, VoteReply(cs[i].nodes[v].term, true, v)) in cs[j].net
    ensures a == v
  {
    hide Runs, AllMembers, ElectedBy, Support;
    var p, q := TwoPolls(cs, i, j);
    var t := cs[i].nodes[v].term;
    assert NodePolled(cs[i].cfg, p, v, cs[i].nodes[v]);
    assert Grant(Packet(a, VoteReply(t, true, v)).msg);
    assert Voted(p, v, t, v) && Voted(q, v, t, a);
  }
}
