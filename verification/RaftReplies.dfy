/**
What one reaction applies and answers, from the node's own fields.
*/
module RaftReplies {
  import opened Options
  import opened Quorum
  import opened Master
  import opened RaftProtocol
  import opened RaftNode

  // ---------------------------------------------------------------- applies

  /** The state after applying some entries in turn. */
  function Replay(app: MasterState, done: seq<Apply>): MasterState
    decreases |done|
  {
    if done == [] then app else Replay(ApplyCommand(app, done[0].entry.command), done[1..])
  }

  /** The `j`-th entry the effect applied is the next committed entry of the resulting log. */
  ghost predicate AppliesAt(n: Node, e: Effect, j: nat)
    requires j < |e.applies|
  {
    var i := n.applied + 1 + j;
    && e.node.snapIndex < i <= e.node.commit && i - e.node.snapIndex < |e.node.log|
    && e.applies[j] == Apply(i, e.node.log[i - e.node.snapIndex])
  }

  /** The effect applied the next committed entries of the resulting log, in order, each once,
      and the state is what they make of the state before. */
  ghost predicate AppliesLog(n: Node, e: Effect) {
    && e.node.applied == n.applied + |e.applies|
    && e.node.app == Replay(n.app, e.applies)
    && forall j :: 0 <= j < |e.applies| ==> AppliesAt(n, e, j)
  }

  /** The entries still to be applied are in the log. */
  predicate CommitKnown(n: Node) {
    n.snapIndex <= n.applied && (n.commit <= n.applied || n.commit - n.snapIndex < |n.log|)
  }

  lemma {:induction false} ApplyLogsKeep(n: Node)
    ensures var n' := ApplyLogs(n).node;
            n' == n.(applied := n'.applied, app := n'.app, pending := n'.pending)
    decreases n.commit - n.applied
  {
    if n.commit > n.applied { ApplyLogsKeep(ApplyOne(n).node); }
  }

  lemma {:induction false} ApplyLogsLog(n: Node)
    requires CommitKnown(n)
    ensures AppliesLog(n, ApplyLogs(n))
    decreases n.commit - n.applied
  {
    hide AppliesLog, Replay;
    if n.commit > n.applied {
      var rest := ApplyOne(n).node;
      ApplyLogsLog(rest);
      ApplyLogsKeep(rest);
      OneThenRest(n, ApplyLogs(rest));
    } else {
      QuietApplies(n, Idle(n));
    }
  }

  /** Nothing is applied. */
  lemma QuietApplies(n: Node, e: Effect)
    requires e.applies == [] && e.node.applied == n.applied && e.node.app == n.app
    ensures AppliesLog(n, e)
  {
  }

  lemma OneThenRest(n: Node, e: Effect)
    requires n.applied < n.commit && CommitKnown(n) && AppliesLog(ApplyOne(n).node, e)
    requires e.node.snapIndex == n.snapIndex && e.node.commit == n.commit && e.node.log == n.log
    ensures AppliesLog(n, Then(ApplyOne(n), e))
  {
    hide ApplyCommand;
    var a := Then(ApplyOne(n), e);
    assert a.applies[1..] == e.applies;
    forall j | 0 <= j < |a.applies| ensures AppliesAt(n, a, j) {
      if j > 0 { assert AppliesAt(ApplyOne(n).node, e, j - 1); }
    }
  }

  /** Something that applies nothing, then `ApplyLogs`. */
  lemma ThenApplies(n: Node, a: Effect, n1: Node)
    requires a.applies == [] && n1.applied == n.applied && n1.app == n.app && CommitKnown(n1)
    ensures AppliesLog(n, Then(a, ApplyLogs(n1)))
  {
    hide ApplyLogs, Replay;
    ApplyLogsLog(n1);
    var e := Then(a, ApplyLogs(n1));
    assert e.applies == ApplyLogs(n1).applies;
    forall j | 0 <= j < |e.applies| ensures AppliesAt(n, e, j) { assert AppliesAt(n1, ApplyLogs(n1), j); }
  }

  lemma AloneApplies(cfg: ClusterConfiguration, n: Node, e: Effect)
    requires e.node.HasLog() && e.applies == [] && e.node.snapIndex <= e.node.applied
    requires e.node.applied == n.applied && e.node.app == n.app
    ensures AppliesLog(n, CommitIfAlone(cfg, e))
  {
    hide AppliesLog, ApplyLogs;
    QuietApplies(n, e);
    ThenApplies(n, e, e.node.(commit := e.node.LastIndex()));
  }

  lemma BecomeLeaderApplies(cfg: ClusterConfiguration, n: Node)
    requires n.HasLog() && n.snapIndex <= n.applied
    ensures AppliesLog(n, BecomeLeader(cfg, n))
  {
    hide AppliesLog, ApplyWrites, Numbered, CommitIfAlone;
    AloneApplies(cfg, n, TakeOffice(cfg, n));
  }

  lemma StartElectionApplies(cfg: ClusterConfiguration, n: Node)
    requires n.HasLog() && n.snapIndex <= n.applied
    ensures AppliesLog(n, StartElection(cfg, n))
  {
    hide BecomeLeader, AllMembers, VoteRequests, ApplyWrites, Replay, AppliesAt;
    var c := Campaign(n);
    QuietApplies(n, Sending(c, VoteRequests(cfg, n)));
    BecomeLeaderApplies(cfg, c.node);
    var b := BecomeLeader(cfg, c.node);
    var e := Then(c, b);
    assert e.applies == b.applies;
    forall j | 0 <= j < |e.applies| ensures AppliesAt(n, e, j) { LaterAt(c.node, b, n, e, j); }
  }

  lemma LaterAt(n: Node, e: Effect, n': Node, e': Effect, j: nat)
    requires j < |e.applies| && AppliesAt(n, e, j) && e'.applies == e.applies && e'.node == e.node && n'.applied == n.applied
    ensures AppliesAt(n', e', j)
  {
  }

  lemma AppendApplies(n: Node, m: Message)
    requires n.HasLog() && m.Append? && n.snapIndex <= n.applied
    ensures AppliesLog(n, HandleAppend(n, m))
  {
    hide ApplyLogs, ApplyWrites, Merge, AdoptWrites, AppliesLog;
    var e := StepDown(n, m.term);
    QuietApplies(n, RefusedAppend(n, m));
    if m.term >= n.term && PrevMatches(e.node, m) {
      var a := Then(e, Adopt(e.node, m.prevIndex, m.entries));
      QuietApplies(n, a);
      ThenApplies(n, a, a.node.(commit := Min(m.leaderCommit, a.node.LastIndex())));
      SendingApplies(n, CommitUpTo(a, m.leaderCommit), AppendAnswer(e.node, m, true, m.prevIndex + |m.entries|));
    }
  }

  /** What a refused message does. */
  function RefusedAppend(n: Node, m: Message): Effect
    requires m.Append?
  {
    if m.term < n.term then Sending(Idle(n), AppendAnswer(n, m, false, 0))
    else Sending(StepDown(n, m.term), AppendAnswer(StepDown(n, m.term).node, m, false, RefusalHint(n, m)))
  }

  lemma SendingApplies(n: Node, e: Effect, ps: set<Packet>)
    requires AppliesLog(n, e)
    ensures AppliesLog(n, Sending(e, ps))
  {
    hide Replay;
    forall j | 0 <= j < |e.applies| ensures AppliesAt(n, Sending(e, ps), j) { assert AppliesAt(n, e, j); }
  }

  lemma AppendReplyApplies(cfg: ClusterConfiguration, n: Node, m: Message)
    requires n.HasLog() && m.AppendReply? && n.snapIndex <= n.applied
    ensures AppliesLog(n, HandleAppendReply(cfg, n, m))
  {
    hide ApplyLogs, BestIndex, MatchTable, AppliesLog, ApplyWrites;
    QuietApplies(n, StepDown(n, m.term));
    QuietApplies(n, Idle(n));
    var n1 := Recorded(cfg, n, m);
    QuietApplies(n, Idle(n1));
    var c := BestIndex(cfg, MatchTable(cfg, n1), n1.commit);
    if c > n1.commit && 0 <= c - n1.snapIndex < |n1.log| {
      ApplyLogsLog(n1.(commit := c));
      SameBefore(n1.(commit := c), n, ApplyLogs(n1.(commit := c)));
    }
  }

  lemma SameBefore(n: Node, n': Node, e: Effect)
    requires AppliesLog(n, e) && n'.applied == n.applied && n'.app == n.app
    ensures AppliesLog(n', e)
  {
    hide Replay;
    forall j | 0 <= j < |e.applies| ensures AppliesAt(n', e, j) { assert AppliesAt(n, e, j); }
  }

  /** A reaction applies the next committed entries of the resulting log, in order, each once. */
  lemma ReactApplies(cfg: ClusterConfiguration, n: Node, ev: Event)
    requires n.HasLog() && CommitKnown(n)
    ensures AppliesLog(n, React(cfg, n, ev))
  {
    hide HandleAppendReply, HandleAppend, BecomeLeader, StartElection, CommitIfAlone, ApplyLogs, AppliesLog, ApplyWrites;
    QuietApplies(n, Idle(n));
    match ev
    case ElectionTimeout => StartElectionApplies(cfg, n);
    case HeartbeatTick => QuietApplies(n, React(cfg, n, ev));
    case ApplyTick => ApplyLogsLog(n);
    case SnapshotTick => QuietApplies(n, React(cfg, n, ev));
    case Deliver(m) =>
      match m {
        case RequestVote(_, _, _, _) => QuietApplies(n, HandleRequestVote(n, m));
        case VoteReply(_, _, _) =>
          var n1 := n.(voters := n.voters + {m.peer});
          BecomeLeaderApplies(cfg, n1);
          SameBefore(n1, n, BecomeLeader(cfg, n1));
          QuietApplies(n, Idle(n1));
          QuietApplies(n, StepDown(n, m.term));
        case Append(_, _, _, _, _, _) => AppendApplies(n, m);
        case AppendReply(_, _, _, _) => AppendReplyApplies(cfg, n, m);
      }
    case Clients(reqs) =>
      AloneApplies(cfg, n, Enqueue(n, reqs));
      QuietApplies(n, Idle(n).(replies := set r | r in reqs :: Reply(r.request, false)));
  }

  // ---------------------------------------------------------------- answers

  /** Only leaders keep clients waiting. */
  predicate LeaderWaits(n: Node) {
    n.role != Leader ==> n.pending == map[]
  }

  /** The requests a leader puts into its log, by index. */
  function NewPending(n: Node, ev: Event): map<nat, Request>
    requires n.HasLog()
  {
    if ev.Clients? && n.role == Leader then Numbered(RequestsOf(ev.requests), n.LastIndex() + 1) else map[]
  }

  /** The requests a server that does not lead turns away. */
  function RefusedBy(n: Node, ev: Event): set<Request> {
    if ev.Clients? && n.role != Leader then set r | r in ev.requests :: r.request else {}
  }

  /** The answer goes to a client in `waiting` that waits no longer, or to one in `refused`. */
  ghost predicate AnswersOne(e: Effect, r: Reply, waiting: map<nat, Request>, refused: set<Request>) {
    || (exists i :: i in waiting && waiting[i] == r.request && (r.ok ==> i <= e.node.commit) && i !in e.node.pending)
    || (!r.ok && r.request in refused)
  }

  /** Whoever waits after the effect waited in `waiting`, under the same leader; one
      effect answers everybody alike, and positively only as a leader and for
      indices that are committed. */
  ghost predicate AnswersFrom(n: Node, e: Effect, waiting: map<nat, Request>, refused: set<Request>) {
    && LeaderWaits(e.node)
    && (forall i :: i in e.node.pending ==>
          i in waiting && e.node.pending[i] == waiting[i] && n.role == Leader && e.node.term == n.term)
    && (forall r :: r in e.replies && r.ok ==> n.role == Leader && e.node.role == Leader && e.node.term == n.term)
    && (forall r, q :: r in e.replies && q in e.replies ==> r.ok == q.ok)
    && (forall r :: r in e.replies ==> AnswersOne(e, r, waiting, refused))
  }

  /** Exactly the indices that are passed stop waiting. */
  lemma {:induction false} ApplyLogsPending(n: Node)
    ensures var e := ApplyLogs(n);
            && (forall i :: i in e.node.pending <==> i in n.pending && !(n.applied < i <= n.commit))
            && (forall i :: i in e.node.pending ==> e.node.pending[i] == n.pending[i])
    decreases n.commit - n.applied
  {
    if n.commit > n.applied { ApplyLogsPending(ApplyOne(n).node); }
  }

  /** Only whoever waits at a passed index gets an answer. */
  lemma {:induction false} ApplyLogsAnswersOnly(n: Node, r: Reply) returns (i: nat)
    requires r in ApplyLogs(n).replies
    ensures n.applied < i <= n.commit && i in n.pending && r == Reply(n.pending[i], true)
    decreases n.commit - n.applied
  {
    if r in ApplyOne(n).replies {
      i := n.applied + 1;
    } else {
      i := ApplyLogsAnswersOnly(ApplyOne(n).node, r);
    }
  }

  lemma ApplyLogsAnswers(n: Node)
    requires LeaderWaits(n)
    ensures AnswersFrom(n, ApplyLogs(n), n.pending, {})
  {
    hide ApplyLogs;
    ApplyLogsKeep(n);
    ApplyLogsPending(n);
    forall r | r in ApplyLogs(n).replies ensures r.ok && n.role == Leader && AnswersOne(ApplyLogs(n), r, n.pending, {}) {
      var i := ApplyLogsAnswersOnly(n, r);
    }
  }

  /** Answers of two parts in a row, of which only one answers. */
  lemma JoinAnswers(n: Node, a: Effect, b: Effect, waiting: map<nat, Request>)
    requires AnswersFrom(n, a, waiting, {}) && AnswersFrom(a.node, b, a.node.pending, {})
    requires (forall r :: r in a.replies ==> !r.ok) && b.node.role == a.node.role && b.node.term == a.node.term
    requires forall i :: i in b.node.pending ==> i in a.node.pending
    requires a.replies == {} || b.replies == {}
    ensures AnswersFrom(n, Then(a, b), waiting, {})
  {
    var e := Then(a, b);
    assert LeaderWaits(e.node);
    assert e.replies == if b.replies == {} then a.replies else b.replies;
    forall r | r in e.replies ensures AnswersOne(e, r, waiting, {}) {
      if r in a.replies {
        assert AnswersOne(a, r, waiting, {});
      } else {
        assert AnswersOne(b, r, a.node.pending, {});
      }
    }
  }

  /** Nothing answered positively before; then `ApplyLogs`. */
  lemma ThenAnswers(n: Node, a: Effect, n1: Node, waiting: map<nat, Request>)
    requires AnswersFrom(n, a, waiting, {}) && (a.replies != {} ==> a.node.pending == map[])
    requires (forall r :: r in a.replies ==> !r.ok) && n1 == a.node.(commit := n1.commit)
    ensures AnswersFrom(n, Then(a, ApplyLogs(n1)), waiting, {})
  {
    hide ApplyLogs;
    ApplyLogsKeep(n1);
    ApplyLogsPending(n1);
    ApplyLogsAnswers(n1);
    var b := ApplyLogs(n1);
    assert AnswersFrom(a.node, b, a.node.pending, {});
    if b.replies != {} { var r :| r in b.replies; var i := ApplyLogsAnswersOnly(n1, r); }
    hide AnswersFrom;
    JoinAnswers(n, a, b, waiting);
  }

  lemma AloneAnswers(cfg: ClusterConfiguration, n: Node, e: Effect, waiting: map<nat, Request>)
    requires e.node.HasLog() && AnswersFrom(n, e, waiting, {}) && e.replies == {}
    ensures AnswersFrom(n, CommitIfAlone(cfg, e), waiting, {})
  {
    hide AnswersFrom;
    ThenAnswers(n, e, e.node.(commit := e.node.LastIndex()), waiting);
  }

  lemma StepDownAnswers(n: Node, t: nat)
    requires LeaderWaits(n)
    ensures AnswersFrom(n, StepDown(n, t), n.pending, {}) && StepDown(n, t).node.pending == map[]
    ensures forall r :: r in StepDown(n, t).replies ==> !r.ok
  {
  }

  /** A node nobody waits on answers nobody. */
  lemma QuietAnswers(n: Node, e: Effect, waiting: map<nat, Request>)
    requires e.node.pending == map[] && e.replies == {}
    ensures AnswersFrom(n, e, waiting, {})
  {
  }

  lemma BecomeLeaderAnswers(cfg: ClusterConfiguration, n0: Node, n: Node)
    requires n.HasLog() && n.pending == map[]
    ensures AnswersFrom(n0, BecomeLeader(cfg, n), map[], {})
  {
    var e := TakeOffice(cfg, n);
    QuietAnswers(n0, e, map[]);
    AloneAnswers(cfg, n0, e, map[]);
  }

  lemma StartElectionAnswers(cfg: ClusterConfiguration, n: Node)
    requires n.HasLog() && LeaderWaits(n) && n.role != Leader
    ensures AnswersFrom(n, StartElection(cfg, n), n.pending, {})
  {
    hide BecomeLeader, ApplyWrites, AllMembers, VoteRequests, AnswersFrom;
    var c := Campaign(n);
    QuietAnswers(n, Sending(c, VoteRequests(cfg, n)), n.pending);
    BecomeLeaderAnswers(cfg, n, c.node);
    SameAnswers(n, BecomeLeader(cfg, c.node), Then(c, BecomeLeader(cfg, c.node)), n.pending);
  }

  lemma SameAnswers(n: Node, e: Effect, e': Effect, waiting: map<nat, Request>)
    requires AnswersFrom(n, e, waiting, {}) && e'.node == e.node && e'.replies == e.replies
    ensures AnswersFrom(n, e', waiting, {})
  {
    forall r | r in e'.replies ensures AnswersOne(e', r, waiting, {}) { assert AnswersOne(e, r, waiting, {}); }
  }

  lemma StepDownLog(n: Node, t: nat)
    ensures StepDown(n, t).node.log == n.log
  {
  }

  lemma AnswerVoteQuiet(e: Effect, m: Message)
    requires e.node.HasLog() && m.RequestVote?
    ensures var c := AnswerVote(e, m);
            c.node.pending == e.node.pending && c.replies == e.replies && c.node.role == e.node.role && c.node.term == e.node.term
  {
  }

  lemma RequestVoteAnswers(n: Node, m: Message)
    requires n.HasLog() && m.RequestVote? && LeaderWaits(n)
    ensures AnswersFrom(n, HandleRequestVote(n, m), n.pending, {})
  {
    hide StepDown, AnswerVote;
    if m.term >= n.term {
      var e := if m.term > n.term then StepDown(n, m.term) else Idle(n);
      StepDownAnswers(n, m.term);
      assert AnswersFrom(n, e, n.pending, {});
      StepDownLog(n, m.term);
      AnswerVoteQuiet(e, m);
      var c := AnswerVote(e, m);
      forall r | r in c.replies ensures AnswersOne(c, r, n.pending, {}) {
        assert AnswersOne(e, r, n.pending, {});
      }
    }
  }

  lemma VoteReplyAnswers(cfg: ClusterConfiguration, n: Node, m: Message)
    requires n.HasLog() && m.VoteReply? && LeaderWaits(n)
    ensures AnswersFrom(n, HandleVoteReply(cfg, n, m), n.pending, {})
  {
    hide BecomeLeader;
    if n.role == Candidate && n.term == m.term && m.granted {
      BecomeLeaderAnswers(cfg, n, n.(voters := n.voters + {m.peer}));
    } else {
      StepDownAnswers(n, m.term);
    }
  }

  lemma AppendAnswers(n: Node, m: Message)
    requires n.HasLog() && m.Append? && LeaderWaits(n)
    ensures AnswersFrom(n, HandleAppend(n, m), n.pending, {})
  {
    hide ApplyLogs, ApplyWrites, Merge, AdoptWrites, StepDown, AnswersOne;
    var e := StepDown(n, m.term);
    StepDownAnswers(n, m.term);
    if m.term >= n.term {
      if PrevMatches(e.node, m) {
        var b := Adopt(e.node, m.prevIndex, m.entries);
        QuietAnswers(e.node, b, e.node.pending);
        var a := Then(e, b);
        JoinAnswers(n, e, b, n.pending);
        hide AnswersFrom;
        ThenAnswers(n, a, a.node.(commit := Min(m.leaderCommit, a.node.LastIndex())), n.pending);
        SendingAnswers(n, CommitUpTo(a, m.leaderCommit), AppendAnswer(e.node, m, true, m.prevIndex + |m.entries|), n.pending);
      } else {
        SendingAnswers(n, e, AppendAnswer(e.node, m, false, RefusalHint(n, m)), n.pending);
      }
    }
  }

  lemma SendingAnswers(n: Node, e: Effect, ps: set<Packet>, waiting: map<nat, Request>)
    requires AnswersFrom(n, e, waiting, {})
    ensures AnswersFrom(n, Sending(e, ps), waiting, {})
  {
    forall r | r in e.replies ensures AnswersOne(Sending(e, ps), r, waiting, {}) {
      assert AnswersOne(e, r, waiting, {});
    }
  }

  lemma AppendReplyAnswers(cfg: ClusterConfiguration, n: Node, m: Message)
    requires n.HasLog() && m.AppendReply? && LeaderWaits(n)
    ensures AnswersFrom(n, HandleAppendReply(cfg, n, m), n.pending, {})
  {
    hide ApplyLogs, BestIndex, MatchTable;
    StepDownAnswers(n, m.term);
    var n1 := Recorded(cfg, n, m);
    ApplyLogsAnswers(n1.(commit := BestIndex(cfg, MatchTable(cfg, n1), n1.commit)));
  }

  lemma ClientsAnswers(cfg: ClusterConfiguration, n: Node, reqs: seq<ClientRequest>)
    requires n.HasLog() && LeaderWaits(n)
    ensures AnswersFrom(n, HandleClients(cfg, n, reqs), n.pending + NewPending(n, Clients(reqs)), RefusedBy(n, Clients(reqs)))
  {
    hide ApplyLogs, ApplyWrites, Numbered;
    if reqs != [] && n.role == Leader {
      AloneAnswers(cfg, n, Enqueue(n, reqs), n.pending + NewPending(n, Clients(reqs)));
    } else if reqs == [] {
      assert NewPending(n, Clients(reqs)) == map[] by { if n.role == Leader { assert RequestsOf(reqs) == []; NumberedNone<Request>(n.LastIndex() + 1); } }
      assert n.pending + map[] == n.pending;
    }
  }

  lemma NumberedNone<T>(start: nat)
    ensures Numbered<T>([], start) == map[]
  {
  }

  lemma ReactAnswers(cfg: ClusterConfiguration, n: Node, ev: Event)
    requires n.HasLog() && LeaderWaits(n)
    ensures AnswersFrom(n, React(cfg, n, ev), n.pending + NewPending(n, ev), RefusedBy(n, ev))
  {
    hide HandleRequestVote, HandleVoteReply, HandleAppendReply, HandleAppend, StartElection, ApplyLogs, HandleClients;
    assert !ev.Clients? ==> n.pending + NewPending(n, ev) == n.pending;
    match ev
    case ElectionTimeout => if n.role != Leader { StartElectionAnswers(cfg, n); }
    case HeartbeatTick =>
    case ApplyTick => ApplyLogsAnswers(n);
    case SnapshotTick =>
    case Deliver(m) =>
      match m {
        case RequestVote(_, _, _, _) => RequestVoteAnswers(n, m);
        case VoteReply(_, _, _) => VoteReplyAnswers(cfg, n, m);
        case Append(_, _, _, _, _, _) => AppendAnswers(n, m);
        case AppendReply(_, _, _, _) => AppendReplyAnswers(cfg, n, m);
      }
    case Clients(reqs) => ClientsAnswers(cfg, n, reqs);
  }

  /** A leader's batch ends up at the end of its log, and it still leads. */
  lemma ClientsLog(cfg: ClusterConfiguration, n: Node, reqs: seq<ClientRequest>)
    requires n.HasLog() && n.role == Leader && reqs != []
    ensures var n' := HandleClients(cfg, n, reqs).node;
            && n'.log == n.log + EntriesOf(n.term, reqs) && n'.role == Leader && n'.term == n.term
            && n'.snapIndex == n.snapIndex && n'.snapTerm == n.snapTerm
  {
    var e := Enqueue(n, reqs);
    ApplyLogsKeep(e.node.(commit := e.node.LastIndex()));
  }

  /** Whoever waits at an index that is applied is told. */
  lemma {:induction false} ApplyLogsTells(n: Node, i: nat)
    requires n.applied < i <= n.commit && i in n.pending
    ensures Reply(n.pending[i], true) in ApplyLogs(n).replies
    decreases n.commit - n.applied
  {
    if i > n.applied + 1 { ApplyLogsTells(ApplyOne(n).node, i); }
  }

  // ---------------------------------------------------------------- nobody is forgotten

  /** Everybody who waits at a log index: those from before and those in the batch. */
  function Waiting(n: Node, ev: Event): map<nat, Request>
    requires n.HasLog()
  {
    n.pending + NewPending(n, ev)
  }

  /** The effect applied an entry at an index where the client of `r` waits. */
  ghost predicate Backed(e: Effect, r: Reply, waiting: map<nat, Request>) {
    exists a :: a in e.applies && a.index in waiting && waiting[a.index] == r.request
  }

  /** Client `k` still waits, or has its answer. */
  ghost predicate Attended(e: Effect, k: nat, waiting: map<nat, Request>)
    requires k in waiting
  {
    || (k in e.node.pending && e.node.pending[k] == waiting[k])
    || Reply(waiting[k], true) in e.replies
    || Reply(waiting[k], false) in e.replies
  }

  /** Everybody in `waiting` still waits or has an answer, nobody else waits, and a
      positive answer comes with the application of an entry at the client's index. */
  ghost predicate Serves(waiting: map<nat, Request>, e: Effect) {
    && (forall k {:trigger Attended(e, k, waiting)} :: k in waiting ==> Attended(e, k, waiting))
    && (forall k :: k in e.node.pending ==> k in waiting && e.node.pending[k] == waiting[k])
    && (forall r :: r in e.replies && r.ok ==> Backed(e, r, waiting))
  }

  lemma QuietServes(e: Effect)
    requires e.replies == {}
    ensures Serves(e.node.pending, e)
  {
    forall k | k in e.node.pending ensures Attended(e, k, e.node.pending) {}
  }

  lemma ThenServes(waiting: map<nat, Request>, a: Effect, b: Effect)
    requires Serves(waiting, a) && Serves(a.node.pending, b)
    ensures Serves(waiting, Then(a, b))
  {
    var e := Then(a, b);
    forall k | k in waiting ensures Attended(e, k, waiting) {
      assert Attended(a, k, waiting);
      if k in a.node.pending { assert Attended(b, k, a.node.pending); }
    }
    forall r | r in e.replies && r.ok ensures Backed(e, r, waiting) {
      if r in a.replies {
        var x :| x in a.applies && x.index in waiting && waiting[x.index] == r.request;
        assert x in e.applies;
      } else {
        var x :| x in b.applies && x.index in a.node.pending && a.node.pending[x.index] == r.request;
        assert x in e.applies;
      }
    }
  }

  lemma SendingServes(waiting: map<nat, Request>, e: Effect, ps: set<Packet>)
    requires Serves(waiting, e)
    ensures Serves(waiting, Sending(e, ps))
  {
    forall k | k in waiting ensures Attended(Sending(e, ps), k, waiting) { assert Attended(e, k, waiting); }
    forall r | r in e.replies && r.ok ensures Backed(Sending(e, ps), r, waiting) { assert Backed(e, r, waiting); }
  }

  lemma OneServes(n: Node)
    requires n.commit > n.applied && CommitKnown(n)
    ensures Serves(n.pending, ApplyOne(n)) && CommitKnown(ApplyOne(n).node)
  {
    hide ApplyCommand;
    var e := ApplyOne(n);
    var i := n.applied + 1;
    forall k | k in n.pending ensures Attended(e, k, n.pending) {}
    forall r | r in e.replies && r.ok ensures Backed(e, r, n.pending) {
      assert Apply(i, n.log[i - n.snapIndex]) in e.applies;
    }
  }

  lemma {:induction false} ApplyServes(n: Node)
    requires CommitKnown(n)
    ensures Serves(n.pending, ApplyLogs(n))
    decreases n.commit - n.applied
  {
    hide Serves, ApplyOne;
    if n.commit > n.applied {
      OneServes(n);
      OneStep(n);
      ApplyServes(ApplyOne(n).node);
      ThenServes(n.pending, ApplyOne(n), ApplyLogs(ApplyOne(n).node));
    } else {
      QuietServes(Idle(n));
    }
  }

  lemma OneStep(n: Node)
    requires n.commit > n.applied
    ensures ApplyOne(n).node.commit == n.commit && ApplyOne(n).node.applied == n.applied + 1
  {
  }

  lemma StepDownServes(n: Node, t: nat)
    requires LeaderWaits(n)
    ensures Serves(n.pending, StepDown(n, t))
  {
    hide ApplyWrites;
    var e := StepDown(n, t);
    forall k | k in n.pending ensures Attended(e, k, n.pending) { assert Reply(n.pending[k], false) in Refusals(n.pending); }
  }

  /** Something that answers nobody, then `ApplyLogs`. */
  lemma QuietThenServes(a: Effect, n1: Node)
    requires a.replies == {} && n1.pending == a.node.pending && CommitKnown(n1)
    ensures Serves(a.node.pending, Then(a, ApplyLogs(n1)))
  {
    hide Serves, ApplyLogs;
    QuietServes(a);
    ApplyServes(n1);
    ThenServes(a.node.pending, a, ApplyLogs(n1));
  }

  lemma AloneServes(cfg: ClusterConfiguration, e: Effect)
    requires e.node.HasLog() && e.replies == {} && e.node.snapIndex <= e.node.applied
    ensures Serves(e.node.pending, CommitIfAlone(cfg, e))
  {
    hide Serves, ApplyLogs;
    QuietServes(e);
    QuietThenServes(e, e.node.(commit := e.node.LastIndex()));
  }

  lemma StartElectionServes(cfg: ClusterConfiguration, n: Node)
    requires n.HasLog() && CommitKnown(n)
    ensures Serves(n.pending, StartElection(cfg, n))
  {
    hide Serves, CommitIfAlone, ApplyWrites, Numbered;
    var e := Campaign(n);
    var o := TakeOffice(cfg, e.node);
    AloneServes(cfg, o);
    QuietServes(e);
    ThenServes(n.pending, e, BecomeLeader(cfg, e.node));
    SendingServes(n.pending, e, VoteRequests(cfg, n));
  }

  lemma RequestVoteServes(n: Node, m: Message)
    requires n.HasLog() && m.RequestVote? && LeaderWaits(n)
    ensures Serves(n.pending, HandleRequestVote(n, m))
  {
    hide Serves, StepDown, ApplyWrites;
    var e := if m.term > n.term then StepDown(n, m.term) else Idle(n);
    StepDownServes(n, m.term);
    StepDownLog(n, m.term);
    QuietServes(Idle(n));
    SendingServes(n.pending, Idle(n), {Packet(m.candidate, VoteReply(n.term, false, n.id))});
    var v := Saving(e.node.(votedFor := Some(m.candidate)), [PutVote(Some(m.candidate))]);
    QuietServes(v);
    ThenServes(n.pending, e, v);
    SendingServes(n.pending, Then(e, v), {Packet(m.candidate, VoteReply(e.node.term, true, e.node.id))});
    SendingServes(n.pending, e, {Packet(m.candidate, VoteReply(e.node.term, false, e.node.id))});
  }

  lemma VoteReplyServes(cfg: ClusterConfiguration, n: Node, m: Message)
    requires n.HasLog() && m.VoteReply? && LeaderWaits(n) && CommitKnown(n)
    ensures Serves(n.pending, HandleVoteReply(cfg, n, m))
  {
    hide Serves, CommitIfAlone, ApplyWrites, Numbered, StepDown;
    var n1 := n.(voters := n.voters + {m.peer});
    AloneServes(cfg, TakeOffice(cfg, n1));
    QuietServes(Idle(n1));
    QuietServes(Idle(n));
    StepDownServes(n, m.term);
  }

  lemma CommitUpToServes(waiting: map<nat, Request>, e: Effect, leaderCommit: nat)
    requires e.node.HasLog() && Serves(waiting, e) && e.node.snapIndex <= e.node.applied
    ensures Serves(waiting, CommitUpTo(e, leaderCommit))
  {
    hide Serves, ApplyLogs;
    var n1 := e.node.(commit := Min(leaderCommit, e.node.LastIndex()));
    ApplyServes(n1);
    ThenServes(waiting, e, ApplyLogs(n1));
  }

  lemma StepDownKeepsLog(n: Node, t: nat)
    ensures var n' := StepDown(n, t).node; n'.log == n.log && n'.snapIndex == n.snapIndex && n'.applied == n.applied
  {
  }

  lemma AppendServes(n: Node, m: Message)
    requires n.HasLog() && m.Append? && LeaderWaits(n) && CommitKnown(n)
    ensures Serves(n.pending, HandleAppend(n, m))
  {
    hide Serves, StepDown, ApplyWrites, Merge, AdoptWrites, CommitUpTo;
    var e := StepDown(n, m.term);
    StepDownServes(n, m.term);
    StepDownKeepsLog(n, m.term);
    QuietServes(Idle(n));
    if m.term >= n.term {
      if PrevMatches(e.node, m) {
        var b := Adopt(e.node, m.prevIndex, m.entries);
        QuietServes(b);
        ThenServes(n.pending, e, b);
        CommitUpToServes(n.pending, Then(e, b), m.leaderCommit);
        SendingServes(n.pending, CommitUpTo(Then(e, b), m.leaderCommit), AppendAnswer(e.node, m, true, m.prevIndex + |m.entries|));
      } else {
        SendingServes(n.pending, e, AppendAnswer(e.node, m, false, RefusalHint(n, m)));
      }
    } else {
      SendingServes(n.pending, Idle(n), AppendAnswer(n, m, false, 0));
    }
  }

  lemma AppendReplyServes(cfg: ClusterConfiguration, n: Node, m: Message)
    requires n.HasLog() && m.AppendReply? && LeaderWaits(n) && CommitKnown(n)
    ensures Serves(n.pending, HandleAppendReply(cfg, n, m))
  {
    hide Serves, StepDown, ApplyLogs, BestIndex, MatchTable;
    StepDownServes(n, m.term);
    QuietServes(Idle(n));
    var n1 := Recorded(cfg, n, m);
    QuietServes(Idle(n1));
    var n2 := n1.(commit := BestIndex(cfg, MatchTable(cfg, n1), n1.commit));
    if CommitKnown(n2) { ApplyServes(n2); }
  }

  lemma ClientsServes(cfg: ClusterConfiguration, n: Node, reqs: seq<ClientRequest>)
    requires n.HasLog() && LeaderWaits(n) && n.snapIndex <= n.applied
    ensures Serves(Waiting(n, Clients(reqs)), HandleClients(cfg, n, reqs))
  {
    hide CommitIfAlone, ApplyWrites, Numbered;
    if reqs == [] {
      assert Waiting(n, Clients(reqs)) == n.pending by {
        if n.role == Leader { assert RequestsOf(reqs) == []; NumberedNone<Request>(n.LastIndex() + 1); }
      }
      QuietServes(Idle(n));
    } else if n.role == Leader {
      AloneServes(cfg, Enqueue(n, reqs));
    }
  }

  /** Over one reaction, whatever the event: everybody who waited still waits or is
      answered, and a positive answer comes with the application at its index. */
  lemma ReactServes(cfg: ClusterConfiguration, n: Node, ev: Event)
    requires n.HasLog() && LeaderWaits(n) && CommitKnown(n)
    ensures Serves(Waiting(n, ev), React(cfg, n, ev))
  {
    hide HandleRequestVote, HandleVoteReply, HandleAppendReply, HandleAppend, StartElection, ApplyLogs, HandleClients, Serves, ApplyWrites;
    assert !ev.Clients? ==> Waiting(n, ev) == n.pending;
    QuietServes(Idle(n));
    match ev
    case ElectionTimeout => StartElectionServes(cfg, n);
    case HeartbeatTick => QuietServes(SendHeartbeats(cfg, n));
    case ApplyTick => ApplyServes(n);
    case SnapshotTick => if AppliedKnown(n) { QuietServes(CreateSnapshot(n)); }
    case Deliver(m) =>
      match m {
        case RequestVote(_, _, _, _) => RequestVoteServes(n, m);
        case VoteReply(_, _, _) => VoteReplyServes(cfg, n, m);
        case Append(_, _, _, _, _, _) => AppendServes(n, m);
        case AppendReply(_, _, _, _) => AppendReplyServes(cfg, n, m);
      }
    case Clients(reqs) => ClientsServes(cfg, n, reqs);
  }
}
