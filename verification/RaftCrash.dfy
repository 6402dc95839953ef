/**
Crashes. A reaction writes to the store in several steps, and a crash can cut in
after any of them. Every cut but one between two deletes of one truncation leaves
a store from which a restart mirrors some protocol state.
*/
module RaftCrash {
  import opened Options
  import opened Quorum
  import opened Master
  import opened RaftProtocol
  import opened RaftNode
  import opened RaftStorage
  import opened RaftRefinement
  import opened RaftReplication

  /** A crash after the first `k` writes leaves a truncation half done. */
  predicate TearsLog(ws: seq<Write>, k: nat) {
    0 < k < |ws| && ws[k - 1].DropEntry? && ws[k].DropEntry?
  }

  /** A crash after the first `k` writes leaves a snapshot half done. */
  predicate HalvesSnapshot(ws: seq<Write>, k: nat) {
    0 < k < |ws| && ws[k - 1].PutMeta?
  }

  /** A crash may follow the first `k` writes without tearing the log. */
  predicate CutSafe(ws: seq<Write>, k: nat) {
    k <= |ws| && !TearsLog(ws, k)
  }

  /** The store determines the term, vote and log of server `id`, and a snapshot point it had committed. */
  ghost predicate Recoverable(w: World, id: Id, db: Store)
    requires id in w.servers
  {
    var s := w.servers[id];
    exists k: nat :: k <= s.commit && Durable(db, s.term, s.votedFor, k, s.log)
  }

  /** A restart from such a store is a step of the protocol. */
  lemma RestartSim(w: World, id: Id, db: Store) returns (w': World)
    requires Reachable(w) && id in w.servers && Recoverable(w, id, db)
    ensures Moved(w, w', id) && w'.net == w.net
    ensures Mirrors(id, Boot(w.cfg, id, db), w'.servers[id])
  {
    var s := w.servers[id];
    var k: nat :| k <= s.commit && Durable(db, s.term, s.votedFor, k, s.log);
    BootRecovers(w.cfg, id, db, s, k);
    w' := RetreatSim(w, id, k, Boot(w.cfg, id, db).matched, {});
  }

  // ---------------------------------------------------------------- writes

  /** The effect carries out its writes and no others. */
  ghost predicate Logged(n: Node, e: Effect) {
    e.node.db == ApplyWrites(n.db, e.writes)
  }

  lemma ThenLogged(n: Node, a: Effect, b: Effect)
    requires Logged(n, a) && Logged(a.node, b)
    ensures Logged(n, Then(a, b))
  {
    WritesConcat(n.db, a.writes, b.writes);
  }

  lemma {:induction false} ApplyLogsQuiet(n: Node)
    ensures var e := ApplyLogs(n); e.node.db == n.db && e.writes == [] && e.sent == {}
    decreases n.commit - n.applied
  {
    if n.commit > n.applied { ApplyLogsQuiet(ApplyOne(n).node); }
  }

  lemma CommitIfAloneLogged(cfg: ClusterConfiguration, n: Node, e: Effect)
    requires Logged(n, e) && e.node.HasLog()
    ensures Logged(n, CommitIfAlone(cfg, e)) && CommitIfAlone(cfg, e).writes == e.writes
  {
    hide ApplyLogs, ApplyWrites;
    ApplyLogsQuiet(e.node.(commit := e.node.LastIndex()));
    assert e.writes + [] == e.writes;
  }

  lemma BecomeLeaderLogged(cfg: ClusterConfiguration, n: Node)
    requires n.HasLog()
    ensures Logged(n, BecomeLeader(cfg, n))
    ensures BecomeLeader(cfg, n).writes == [PutEntries(Numbered([Entry(n.term, NoOp)], n.LastIndex() + 1))]
  {
    CommitIfAloneLogged(cfg, n, TakeOffice(cfg, n));
  }

  lemma StepDownShape(n: Node, t: nat)
    ensures var e := StepDown(n, t);
            e.node.log == n.log && e.node.term == (if t > n.term then t else n.term) && e.node.role == Follower && e.sent == {}
  {
  }

  lemma StepDownLogged(n: Node, t: nat)
    ensures Logged(n, StepDown(n, t))
  {
  }

  lemma StartElectionLogged(cfg: ClusterConfiguration, n: Node)
    requires n.HasLog()
    ensures Logged(n, StartElection(cfg, n))
  {
    var e := Campaign(n);
    BecomeLeaderLogged(cfg, e.node);
    ThenLogged(n, e, BecomeLeader(cfg, e.node));
  }

  lemma RequestVoteLogged(n: Node, m: Message)
    requires n.HasLog() && m.RequestVote?
    ensures Logged(n, HandleRequestVote(n, m))
  {
    var e := if m.term > n.term then StepDown(n, m.term) else Idle(n);
    ThenLogged(n, e, Saving(e.node.(votedFor := Some(m.candidate)), [PutVote(Some(m.candidate))]));
  }

  lemma VoteReplyLogged(cfg: ClusterConfiguration, n: Node, m: Message)
    requires n.HasLog() && m.VoteReply?
    ensures Logged(n, HandleVoteReply(cfg, n, m))
  {
    BecomeLeaderLogged(cfg, n.(voters := n.voters + {m.peer}));
  }

  lemma CommitUpToLogged(n: Node, e: Effect, leaderCommit: nat)
    requires Logged(n, e) && e.node.HasLog()
    ensures Logged(n, CommitUpTo(e, leaderCommit)) && CommitUpTo(e, leaderCommit).writes == e.writes
  {
    hide ApplyLogs, ApplyWrites;
    ApplyLogsQuiet(e.node.(commit := Min(leaderCommit, e.node.LastIndex())));
    assert e.writes + [] == e.writes;
  }

  lemma AcceptLogged(n: Node, e: Effect, m: Message)
    requires Logged(n, e) && e.node.HasLog() && m.Append? && PrevMatches(e.node, m)
    ensures Logged(n, AcceptAppend(e, m))
    ensures AcceptAppend(e, m).writes == e.writes + AdoptWrites(e.node, m.prevIndex, m.entries)
  {
    hide ApplyWrites, ApplyLogs, Merge, AdoptWrites;
    var b := Adopt(e.node, m.prevIndex, m.entries);
    ThenLogged(n, e, b);
    CommitUpToLogged(n, Then(e, b), m.leaderCommit);
  }

  lemma AppendLogged(n: Node, m: Message)
    requires n.HasLog() && m.Append?
    ensures Logged(n, HandleAppend(n, m))
  {
    var e := StepDown(n, m.term);
    if m.term >= n.term && PrevMatches(e.node, m) { AcceptLogged(n, e, m); }
  }

  lemma AdvanceQuiet(cfg: ClusterConfiguration, n: Node)
    requires n.HasLog()
    ensures var e := AdvanceCommitIndex(cfg, n); e.node.db == n.db && e.writes == [] && e.sent == {}
  {
    hide BestIndex, MatchTable;
    ApplyLogsQuiet(n.(commit := BestIndex(cfg, MatchTable(cfg, n), n.commit)));
  }

  lemma AppendReplyLogged(cfg: ClusterConfiguration, n: Node, m: Message)
    requires n.HasLog() && m.AppendReply?
    ensures Logged(n, HandleAppendReply(cfg, n, m))
    ensures HandleAppendReply(cfg, n, m).writes == if m.term > n.term then StepDown(n, m.term).writes else []
  {
    hide AdvanceCommitIndex;
    AdvanceQuiet(cfg, Recorded(cfg, n, m));
  }

  lemma ClientsLogged(cfg: ClusterConfiguration, n: Node, reqs: seq<ClientRequest>)
    requires n.HasLog()
    ensures Logged(n, HandleClients(cfg, n, reqs)) && |HandleClients(cfg, n, reqs).writes| <= 1
  {
    CommitIfAloneLogged(cfg, n, Enqueue(n, reqs));
  }

  lemma ReactLogged(cfg: ClusterConfiguration, n: Node, ev: Event)
    requires n.HasLog()
    ensures Logged(n, React(cfg, n, ev))
  {
    hide Logged;
    match ev
    case ElectionTimeout => StartElectionLogged(cfg, n); IdleLogged(n, Idle(n));
    case HeartbeatTick => IdleLogged(n, React(cfg, n, ev));
    case ApplyTick => ApplyLogsQuiet(n); IdleLogged(n, ApplyLogs(n));
    case SnapshotTick => SnapshotLogged(n); IdleLogged(n, Idle(n));
    case Deliver(m) =>
      match m {
        case RequestVote(_, _, _, _) => RequestVoteLogged(n, m);
        case VoteReply(_, _, _) => VoteReplyLogged(cfg, n, m);
        case Append(_, _, _, _, _, _) => AppendLogged(n, m);
        case AppendReply(_, _, _, _) => AppendReplyLogged(cfg, n, m);
      }
    case Clients(reqs) => ClientsLogged(cfg, n, reqs);
  }

  lemma IdleLogged(n: Node, e: Effect)
    requires e.node.db == n.db && e.writes == []
    ensures Logged(n, e)
  {
  }

  lemma SnapshotLogged(n: Node)
    ensures AppliedKnown(n) ==> Logged(n, CreateSnapshot(n))
  {
  }

  // ---------------------------------------------------------------- what is written when

  /** Neither part of a snapshot nor a delete of a truncation. */
  ghost predicate Plain(ws: seq<Write>) {
    forall w :: w in ws ==> !w.PutMeta? && !w.PutData? && !w.DropEntry?
  }

  lemma ElectionPlain(cfg: ClusterConfiguration, n: Node)
    requires n.HasLog()
    ensures Plain(StartElection(cfg, n).writes) && Plain(BecomeLeader(cfg, n).writes)
  {
    hide ApplyWrites, Numbered, BecomeLeader, AllMembers, VoteRequests;
    BecomeLeaderLogged(cfg, n);
    BecomeLeaderLogged(cfg, Campaign(n).node);
  }

  lemma TermPlain(term: nat, t: nat)
    ensures Plain(TermWrites(term, t))
  {
  }

  lemma RequestVotePlain(n: Node, m: Message)
    requires n.HasLog() && m.RequestVote?
    ensures Plain(HandleRequestVote(n, m).writes)
  {
    hide ApplyWrites, TermWrites;
    TermPlain(n.term, m.term);
  }

  lemma VoteReplyPlain(cfg: ClusterConfiguration, n: Node, m: Message)
    requires n.HasLog() && m.VoteReply?
    ensures Plain(HandleVoteReply(cfg, n, m).writes)
  {
    hide ApplyWrites, BecomeLeader, TermWrites, HasJointMajority;
    TermPlain(n.term, m.term);
    ElectionPlain(cfg, n.(voters := n.voters + {m.peer}));
  }

  lemma DeliverPlain(cfg: ClusterConfiguration, n: Node, m: Message)
    requires n.HasLog() && !m.Append?
    ensures Plain(React(cfg, n, Deliver(m)).writes)
  {
    hide ApplyWrites, HandleRequestVote, HandleVoteReply, HandleAppendReply, TermWrites;
    match m
    case RequestVote(_, _, _, _) => RequestVotePlain(n, m);
    case VoteReply(_, _, _) => VoteReplyPlain(cfg, n, m);
    case AppendReply(_, _, _, _) =>
      TermPlain(n.term, m.term);
      AppendReplyLogged(cfg, n, m);
  }

  lemma ClientsPlain(cfg: ClusterConfiguration, n: Node, reqs: seq<ClientRequest>)
    requires n.HasLog()
    ensures Plain(HandleClients(cfg, n, reqs).writes)
  {
    hide ApplyWrites, Numbered, ApplyLogs, CommitIfAlone;
    var e := Enqueue(n, reqs);
    CommitIfAloneLogged(cfg, n, e);
  }

  // ---------------------------------------------------------------- cuts

  lemma MirrorRecoverable(w: World, id: Id, n: Node)
    requires id in w.servers && Mirrors(id, n, w.servers[id])
    ensures Recoverable(w, id, n.db)
  {
  }

  /** A cut right after the new term was saved keeps the old vote. */
  lemma TermCut(w: World, id: Id, n: Node, t: nat) returns (w': World)
    requires Reachable(w) && id in w.servers && Mirrors(id, n, w.servers[id]) && t > n.term
    ensures Moved(w, w', id) && w'.net == w.net
    ensures Recoverable(w', id, ApplyWrites(n.db, [PutTerm(t)]))
  {
    w' := AdoptTermSim(w, id, t, n.votedFor);
    WritesOne(n.db, PutTerm(t));
    assert Durable(ApplyWrites(n.db, [PutTerm(t)]), t, n.votedFor, n.snapIndex, w.servers[id].log);
  }

  lemma FirstOf(ws: seq<Write>)
    requires |ws| >= 1
    ensures ws[..0] == [] && ws[..1] == [ws[0]]
  {
  }

  lemma StepDownCut(w: World, id: Id, n: Node, t: nat, k: nat) returns (w': World)
    requires Reachable(w) && id in w.servers && Mirrors(id, n, w.servers[id]) && k <= |StepDown(n, t).writes|
    ensures Moved(w, w', id) && w'.net == w.net
    ensures Recoverable(w', id, ApplyWrites(n.db, StepDown(n, t).writes[..k]))
  {
    hide Reachable, Tracks, ApplyWrites, Recoverable, Durable;
    var ws := StepDown(n, t).writes;
    StepDownLogged(n, t);
    if k == 0 {
      NoWrites(n.db);
      w' := w;
      Stay(w, id);
      assert ws[..0] == [];
      MirrorRecoverable(w, id, n);
    } else if k == 1 {
      w' := TermCut(w, id, n, t);
      FirstOf(ws);
    } else {
      w' := StepDownSim(w, id, n, t);
      assert ws[..2] == ws;
      MirrorRecoverable(w', id, StepDown(n, t).node);
    }
  }

  lemma StartElectionCut(w: World, id: Id, n: Node, k: nat) returns (w': World)
    requires Reachable(w) && id in w.servers && Mirrors(id, n, w.servers[id]) && n.HasLog() && n.role != Leader
    requires k < |StartElection(w.cfg, n).writes|
    ensures Moved(w, w', id) && w'.net == w.net
    ensures Recoverable(w', id, ApplyWrites(n.db, StartElection(w.cfg, n).writes[..k]))
  {
    hide Reachable, Tracks, ApplyWrites, BecomeLeader, AllMembers, VoteRequests, Numbered;
    var ws := StartElection(w.cfg, n).writes;
    BecomeLeaderLogged(w.cfg, Campaign(n).node);
    FirstOf(ws);
    if k == 0 {
      w' := w;
      Stay(w, id);
      NoWrites(n.db);
      MirrorRecoverable(w, id, n);
    } else if k == 1 {
      w' := TermCut(w, id, n, n.term + 1);
    } else {
      w' := StandSim(w, id, n, {});
      assert ws[..2] == Campaign(n).writes;
      MirrorRecoverable(w', id, Campaign(n).node);
    }
  }

  // A write list made of two parts is cut in the first or in the second.
  lemma CutOfTwo(db: Store, a: seq<Write>, b: seq<Write>, k: nat)
    requires k <= |a| + |b|
    ensures k <= |a| ==> (a + b)[..k] == a[..k]
    ensures k >= |a| ==> ApplyWrites(db, (a + b)[..k]) == ApplyWrites(ApplyWrites(db, a), b[..k - |a|])
  {
    if k >= |a| {
      assert (a + b)[..k] == a + b[..k - |a|];
      WritesConcat(db, a, b[..k - |a|]);
    }
  }

  lemma RequestVoteCut(w: World, id: Id, n: Node, m: Message, k: nat) returns (w': World)
    requires Reachable(w) && id in w.servers && Mirrors(id, n, w.servers[id]) && n.HasLog()
    requires m.RequestVote? && k < |HandleRequestVote(n, m).writes|
    ensures Moved(w, w', id) && w'.net == w.net
    ensures Recoverable(w', id, ApplyWrites(n.db, HandleRequestVote(n, m).writes[..k]))
  {
    hide Reachable, Tracks, ApplyWrites;
    var e := if m.term > n.term then StepDown(n, m.term) else Idle(n);
    w' := StepDownCut(w, id, n, m.term, k);
    CutOfTwo(n.db, e.writes, [PutVote(Some(m.candidate))], k);
  }

  lemma SingleCut(w: World, id: Id, n: Node, ws: seq<Write>, k: nat)
    requires Reachable(w) && id in w.servers && Mirrors(id, n, w.servers[id]) && k < |ws| <= 1
    ensures Moved(w, w, id) && Recoverable(w, id, ApplyWrites(n.db, ws[..k]))
  {
    Stay(w, id);
    FirstOf(ws);
    NoWrites(n.db);
    MirrorRecoverable(w, id, n);
  }

  // ---------------------------------------------------------------- cuts in a truncation

  lemma LoseSuffixSim(w: World, id: Id, m: Message, cut: nat) returns (w': World)
    requires Reachable(w) && Accepts(w, id, m)
    requires cut == m.prevIndex + Agreeing(w.servers[id].log, m.prevIndex, m.entries)
    requires cut <= |w.servers[id].log| && cut < m.prevIndex + |m.entries|
    ensures Moved(w, w', id) && w'.net == w.net
    ensures var s := w.servers[id];
            w'.servers[id] == s.(role := Follower, log := s.log[..cut], commit := Min(s.commit, cut))
  {
    hide Reachable, Agreeing;
    var s := w.servers[id];
    w' := Put(w, id, s.(role := Follower, log := s.log[..cut], commit := Min(s.commit, cut)), w.net, w.past);
    assert LoseSuffix(w, w', id, m);
    hide Accepts, LoseSuffix;
    MoveBy(w, w', id, LoseSuffixStep(id, m));
  }

  /** All deletes done, the new entries not yet saved. */
  lemma DropsDurable(n: Node, full: seq<Entry>, cut: nat, db: Store)
    requires Tracks(n, full) && n.HasLog() && n.snapIndex <= cut < |full|
    requires db == ApplyWrites(n.db, Drops(n.db.log, cut + 1))
    ensures Durable(db, n.term, n.votedFor, n.snapIndex, full[..cut])
  {
    AfterDrops(n, full, cut);
    assert full[..cut][..n.snapIndex] == full[..n.snapIndex];
    RewriteDurable(n.db, n.term, n.votedFor, n.snapIndex, full, full[..cut], db);
  }

  lemma {:induction false} DropsAreDrops(m: map<nat, Entry>, start: nat, j: nat)
    requires j < |Drops(m, start)|
    ensures Drops(m, start)[j].DropEntry?
    decreases j
  {
    if j > 0 { DropsAreDrops(m, start + 1, j - 1); }
  }

  /** A safe cut of an adoption happens before its first delete or after its last. */
  lemma AdoptCutPoint(n: Node, prev: nat, es: seq<Entry>, j: nat)
    requires n.HasLog() && n.snapIndex <= prev <= n.LastIndex()
    requires 0 < j < |AdoptWrites(n, prev, es)| && CutSafe(AdoptWrites(n, prev, es), j)
    ensures var k := Agreeing(n.log, prev - n.snapIndex + 1, es);
            && k < |es| && prev + k < n.LastIndex()
            && AdoptWrites(n, prev, es)[..j] == Drops(n.db.log, prev + k + 1)
  {
    hide Agreeing, Drops;
    var k := Agreeing(n.log, prev - n.snapIndex + 1, es);
    var drops := Drops(n.db.log, prev + k + 1);
    if j < |drops| {
      DropsAreDrops(n.db.log, prev + k + 1, j - 1);
      DropsAreDrops(n.db.log, prev + k + 1, j);
    }
  }

  lemma AdoptCut(w: World, id: Id, n: Node, m: Message, j: nat) returns (w': World)
    requires Reachable(w) && id in w.servers && Mirrors(id, n, w.servers[id]) && n.HasLog()
    requires m.Append? && Packet(id, m) in w.net && m.term == n.term && PrevMatches(n, m)
    requires j < |AdoptWrites(n, m.prevIndex, m.entries)| && CutSafe(AdoptWrites(n, m.prevIndex, m.entries), j)
    ensures Moved(w, w', id) && w'.net == w.net
    ensures Recoverable(w', id, ApplyWrites(n.db, AdoptWrites(n, m.prevIndex, m.entries)[..j]))
  {
    hide Reachable, ApplyWrites, Agreeing, Drops, CutSafe, AdoptWrites;
    if j == 0 {
      w' := w;
      Stay(w, id);
      NoWrites(n.db);
      MirrorRecoverable(w, id, n);
    } else {
      var s := w.servers[id];
      AdoptCutPoint(n, m.prevIndex, m.entries, j);
      AgreeingOffset(n.log, n.snapIndex, n.snapTerm, s.log, m.prevIndex, m.entries);
      OffsetLast(n.log, n.snapIndex, n.snapTerm, s.log);
      PrevAccepts(w, id, n, m);
      var cut := m.prevIndex + Agreeing(s.log, m.prevIndex, m.entries);
      w' := LoseSuffixSim(w, id, m, cut);
      DropsDurable(n, s.log, cut, ApplyWrites(n.db, Drops(n.db.log, cut + 1)));
    }
  }

  lemma CutSafeRest(a: seq<Write>, b: seq<Write>, k: nat)
    requires CutSafe(a + b, k) && k >= |a|
    ensures CutSafe(b, k - |a|)
  {
    if |a| < k < |a| + |b| {
      assert (a + b)[k - 1] == b[k - |a| - 1] && (a + b)[k] == b[k - |a|];
    }
  }

  lemma AppendCut(w: World, id: Id, n: Node, m: Message, k: nat) returns (w': World)
    requires Reachable(w) && id in w.servers && Mirrors(id, n, w.servers[id]) && n.HasLog()
    requires m.Append? && Packet(id, m) in w.net
    requires k < |HandleAppend(n, m).writes| && CutSafe(HandleAppend(n, m).writes, k)
    ensures Moved(w, w', id) && w'.net == w.net
    ensures Recoverable(w', id, ApplyWrites(n.db, HandleAppend(n, m).writes[..k]))
  {
    hide Reachable, Tracks, ApplyWrites, AcceptAppend, CutSafe, AdoptWrites, StepDown, Recoverable;
    var e := StepDown(n, m.term);
    StepDownLogged(n, m.term);
    StepDownShape(n, m.term);
    var rest := if PrevMatches(e.node, m) then AdoptWrites(e.node, m.prevIndex, m.entries) else [];
    assert HandleAppend(n, m).writes == e.writes + rest by {
      if PrevMatches(e.node, m) { AcceptLogged(n, e, m); }
    }
    CutOfTwo(n.db, e.writes, rest, k);
    if k <= |e.writes| {
      w' := StepDownCut(w, id, n, m.term, k);
    } else {
      CutSafeRest(e.writes, rest, k);
      var w1 := StepDownSim(w, id, n, m.term);
      w' := AdoptCut(w1, id, e.node, m, k - |e.writes|);
      MoveTrans(w, w1, w', id);
    }
  }

  // ---------------------------------------------------------------- cuts in a snapshot

  /** A snapshot of which both parts were saved, with any number of compacting deletes. */
  lemma SnapshotPartDurable(db: Store, term: nat, vote: Option<Id>, k: nat, full: seq<Entry>, i: nat, j: nat,
                            app: MasterState, db': Store)
    requires Durable(db, term, vote, k, full) && k <= i <= |full| && j <= i - k
    requires db' == ApplyWrites(db, [PutMeta(SnapshotMeta(i, TermAt(full, i))), PutData(app)] + Compacts(k, i)[..j])
    ensures Durable(db', term, vote, i, full)
  {
    var meta, data := PutMeta(SnapshotMeta(i, TermAt(full, i))), PutData(app);
    var db1 := ApplyWrites(db, [meta, data]);
    WritesTwo(db, meta, data);
    WritesConcat(db, [meta, data], Compacts(k, i)[..j]);
    CompactsHarmless(db1, k, i, j);
  }

  lemma SnapshotCut(w: World, id: Id, n: Node, k: nat)
    requires Reachable(w) && id in w.servers && Mirrors(id, n, w.servers[id]) && AppliedKnown(n)
    requires k < |CreateSnapshot(n).writes|
    ensures Moved(w, w, id)
    ensures Recoverable(w, id, ApplyWrites(n.db, CreateSnapshot(n).writes[..k]))
  {
    hide Reachable, ApplyWrites;
    var s := w.servers[id];
    Stay(w, id);
    OffsetAt(n.log, n.snapIndex, n.snapTerm, s.log, n.applied);
    var ws := CreateSnapshot(n).writes[..k];
    if k == 0 {
      NoWrites(n.db);
      MirrorRecoverable(w, id, n);
    } else if k == 1 {
      FirstOf(CreateSnapshot(n).writes);
      WritesOne(n.db, ws[0]);
      assert Durable(ApplyWrites(n.db, ws), n.term, n.votedFor, n.applied, s.log);
    } else {
      assert ws == [PutMeta(SnapshotMeta(n.applied, TermAt(s.log, n.applied))), PutData(n.app)]
                   + Compacts(n.snapIndex, n.applied)[..k - 2];
      SnapshotPartDurable(n.db, n.term, n.votedFor, n.snapIndex, s.log, n.applied, k - 2, n.app, ApplyWrites(n.db, ws));
    }
  }

  // ---------------------------------------------------------------- every event

  /** A server reacts to messages that were sent to it, and to anything else at any time. */
  predicate Enabled(id: Id, ev: Event, net: set<Packet>) {
    ev.Deliver? ==> Packet(id, ev.msg) in net
  }

  lemma MirrorHasLog(id: Id, n: Node, s: Server)
    requires Mirrors(id, n, s)
    ensures n.HasLog() && AppliedKnown(n)
  {
    OffsetLast(n.log, n.snapIndex, n.snapTerm, s.log);
    OffsetAt(n.log, n.snapIndex, n.snapTerm, s.log, n.applied);
  }

  lemma DeliverSim(w: World, id: Id, n: Node, m: Message) returns (w': World)
    requires Reachable(w) && id in w.servers && Mirrors(id, n, w.servers[id]) && n.HasLog() && Packet(id, m) in w.net
    ensures var e := React(w.cfg, n, Deliver(m));
            Moved(w, w', id) && e.sent <= w'.net && Mirrors(id, e.node, w'.servers[id])
  {
    hide Mirrors, Reachable, Moved, HandleRequestVote, HandleVoteReply, HandleAppend, HandleAppendReply;
    match m
    case RequestVote(_, _, _, _) => w' := RequestVoteSim(w, id, n, m);
    case VoteReply(_, _, _) => w' := VoteReplySim(w, id, n, m);
    case Append(_, _, _, _, _, _) => w' := AppendSim(w, id, n, m);
    case AppendReply(_, _, _, _) => w' := AppendReplySim(w, id, n, m);
  }

  lemma SnapshotSim(w: World, id: Id, n: Node)
    requires Reachable(w) && id in w.servers && Mirrors(id, n, w.servers[id]) && n.HasLog()
    ensures var e := React(w.cfg, n, SnapshotTick);
            Moved(w, w, id) && e.sent == {} && Mirrors(id, e.node, w.servers[id])
  {
    Stay(w, id);
    SnapshotTracks(n, w.servers[id].log);
  }

  /** Every reaction of a server is a sequence of protocol steps. */
  lemma ReactSim(w: World, id: Id, n: Node, ev: Event) returns (w': World)
    requires Reachable(w) && id in w.servers && Mirrors(id, n, w.servers[id]) && Enabled(id, ev, w.net)
    ensures n.HasLog()
    ensures var e := React(w.cfg, n, ev);
            Moved(w, w', id) && e.sent <= w'.net && Mirrors(id, e.node, w'.servers[id])
  {
    MirrorHasLog(id, n, w.servers[id]);
    hide Mirrors, Reachable, Moved;
    w' := w;
    match ev
    case ElectionTimeout => if n.role != Leader { w' := StartElectionSim(w, id, n); } else { Stay(w, id); }
    case HeartbeatTick => if n.role == Leader { w' := HeartbeatSim(w, id, n); } else { Stay(w, id); }
    case ApplyTick => ApplySim(w, id, n);
    case SnapshotTick => SnapshotSim(w, id, n);
    case Deliver(m) => w' := DeliverSim(w, id, n, m);
    case Clients(reqs) => w' := ClientsSim(w, id, n, reqs);
  }

  lemma DeliverCut(w: World, id: Id, n: Node, m: Message, k: nat) returns (w': World)
    requires Reachable(w) && id in w.servers && Mirrors(id, n, w.servers[id]) && n.HasLog() && Packet(id, m) in w.net
    requires var ws := React(w.cfg, n, Deliver(m)).writes; k < |ws| && CutSafe(ws, k)
    ensures Moved(w, w', id)
    ensures Recoverable(w', id, ApplyWrites(n.db, React(w.cfg, n, Deliver(m)).writes[..k]))
  {
    hide Mirrors, Reachable, Recoverable, CutSafe, StepDown, HandleRequestVote, HandleAppend, HandleAppendReply, BecomeLeader;
    match m
    case RequestVote(_, _, _, _) => w' := RequestVoteCut(w, id, n, m, k);
    case VoteReply(_, _, _) =>
      if n.role == Candidate && n.term == m.term && m.granted {
        BecomeLeaderLogged(w.cfg, n.(voters := n.voters + {m.peer}));
        w' := w;
        SingleCut(w, id, n, HandleVoteReply(w.cfg, n, m).writes, k);
      } else {
        w' := StepDownCut(w, id, n, m.term, k);
      }
    case Append(_, _, _, _, _, _) => w' := AppendCut(w, id, n, m, k);
    case AppendReply(_, _, _, _) =>
      AppendReplyLogged(w.cfg, n, m);
      w' := StepDownCut(w, id, n, m.term, k);
  }

  /** Every cut of a reaction that does not tear the log leaves a recoverable store. */
  lemma ReactCut(w: World, id: Id, n: Node, ev: Event, k: nat) returns (w': World)
    requires Reachable(w) && id in w.servers && Mirrors(id, n, w.servers[id]) && n.HasLog() && Enabled(id, ev, w.net)
    requires var ws := React(w.cfg, n, ev).writes; k < |ws| && CutSafe(ws, k)
    ensures Moved(w, w', id)
    ensures Recoverable(w', id, ApplyWrites(n.db, React(w.cfg, n, ev).writes[..k]))
  {
    hide Mirrors, Reachable, Recoverable, CutSafe, StartElection, CreateSnapshot, HandleClients;
    match ev
    case ElectionTimeout => w' := StartElectionCut(w, id, n, k);
    case ApplyTick => ApplyLogsQuiet(n); w' := w;
    case SnapshotTick => SnapshotCut(w, id, n, k); w' := w;
    case Deliver(m) => w' := DeliverCut(w, id, n, m, k);
    case Clients(reqs) =>
      ClientsLogged(w.cfg, n, reqs);
      SingleCut(w, id, n, HandleClients(w.cfg, n, reqs).writes, k);
      w' := w;
    case HeartbeatTick => w' := w;
  }

  /** A crash at any such cut of any reaction, followed by a restart, is a sequence
      of protocol steps. `w1` is the state the crash leaves, `w'` the one after the restart. */
  lemma CrashSim(w: World, id: Id, n: Node, ev: Event, k: nat) returns (w1: World, w': World)
    requires Reachable(w) && id in w.servers && Mirrors(id, n, w.servers[id]) && n.HasLog() && Enabled(id, ev, w.net)
    requires CutSafe(React(w.cfg, n, ev).writes, k)
    ensures var e := React(w.cfg, n, ev);
            && Moved(w, w1, id) && Moved(w1, w', id)
            && Mirrors(id, Boot(w.cfg, id, ApplyWrites(n.db, e.writes[..k])), w'.servers[id])
            && (k == |e.writes| ==> e.sent <= w'.net && Mirrors(id, e.node, w1.servers[id]))
  {
    hide Mirrors, Reachable, Recoverable, React;
    var e := React(w.cfg, n, ev);
    if k < |e.writes| {
      w1 := ReactCut(w, id, n, ev, k);
    } else {
      w1 := ReactSim(w, id, n, ev);
      ReactLogged(w.cfg, n, ev);
      MirrorRecoverable(w1, id, e.node);
      assert e.writes[..k] == e.writes;
    }
    w' := RestartSim(w1, id, ApplyWrites(n.db, e.writes[..k]));
  }
}
