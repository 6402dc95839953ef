/**
The places that leaders give to requests. Wherever crashes cut in, the leader of a
term is the only one to give places in it, and as long as it leads that term its log
keeps every entry it has put there.
*/
module RaftPlaces {
  import opened Options
  import opened Quorum
  import opened Master
  import opened RaftProtocol
  import opened RaftNode
  import opened RaftReplies
  import opened RaftCrash
  import opened RaftCluster
  import opened RaftElections

  // ---------------------------------------------------------------- places and their leaders

  /** The leader of the slot's term still has the entry, as long as it leads that term. */
  ghost predicate SlotHeld(n: Node, s: Slot, cmd: Command) {
    || n.term > s.term
    || (n.term == s.term && n.role != Candidate && (n.role == Leader ==> EntryAt(n, s, cmd)))
  }

  ghost predicate EntryAt(n: Node, s: Slot, cmd: Command) {
    && n.HasLog() && s.index <= n.LastIndex()
    && (n.snapIndex < s.index ==> n.log[s.index - n.snapIndex] == Entry(s.term, cmd))
  }

  /** Node `x` was elected in the slot's term and holds it. */
  ghost predicate SlotLedBy(c: Cluster, poll: Poll, s: Slot, cmd: Command, x: Id) {
    x in c.nodes && ElectedBy(c.cfg, poll, s.term, x) && SlotHeld(c.nodes[x], s, cmd)
  }

  ghost predicate SlotLed(c: Cluster, poll: Poll, s: Slot, cmd: Command) {
    exists x :: SlotLedBy(c, poll, s, cmd, x)
  }

  ghost predicate SlotsLed(c: Cluster, poll: Poll) {
    forall r :: r in c.ledger.placed ==> r in c.ledger.issued && SlotLed(c, poll, c.ledger.placed[r], c.ledger.issued[r])
  }

  ghost predicate DeedsLed(c: Cluster, poll: Poll) {
    forall d :: d in c.ledger.applied && d.role == Leader ==> ElectedBy(c.cfg, poll, d.term, d.node)
  }

  /** Whatever is committed has been applied. */
  predicate Caught(n: Node) { n.snapIndex <= n.applied && n.commit <= n.applied }

  // ---------------------------------------------------------------- what a reaction keeps

  lemma {:induction false} ApplyLogsCatches(n: Node)
    requires n.snapIndex <= n.applied
    ensures Caught(ApplyLogs(n).node)
    decreases n.commit - n.applied
  {
    if n.commit > n.applied { ApplyLogsCatches(ApplyOne(n).node); }
  }

  lemma ReactCaught(cfg: ClusterConfiguration, n: Node, ev: Event)
    requires n.HasLog() && Caught(n)
    ensures Caught(React(cfg, n, ev).node)
  {
    hide ApplyLogs, ApplyWrites, AllMembers, HasJointMajority, BecomeLeader, HandleAppend, HandleAppendReply, Numbered, VoteRequests;
    match ev
    case ElectionTimeout => BecomeLeaderCaught(cfg, Campaign(n).node);
    case HeartbeatTick =>
    case ApplyTick => ApplyLogsCatches(n);
    case SnapshotTick =>
    case Deliver(m) =>
      match m {
        case RequestVote(_, _, _, _) =>
        case VoteReply(_, _, _) => BecomeLeaderCaught(cfg, n.(voters := n.voters + {m.peer}));
        case Append(_, _, _, _, _, _) => AppendCaught(n, m);
        case AppendReply(_, _, _, _) => AppendReplyCaught(cfg, n, m);
      }
    case Clients(reqs) =>
      var e := Enqueue(n, reqs);
      ApplyLogsCatches(e.node.(commit := e.node.LastIndex()));
  }

  lemma AppendReplyCaught(cfg: ClusterConfiguration, n: Node, m: Message)
    requires n.HasLog() && m.AppendReply? && Caught(n)
    ensures Caught(HandleAppendReply(cfg, n, m).node)
  {
    hide ApplyLogs, ApplyWrites, BestIndex, MatchTable, AllMembers;
    var n1 := Recorded(cfg, n, m);
    ApplyLogsCatches(n1.(commit := BestIndex(cfg, MatchTable(cfg, n1), n1.commit)));
  }

  lemma BecomeLeaderCaught(cfg: ClusterConfiguration, n: Node)
    requires n.HasLog() && Caught(n)
    ensures Caught(BecomeLeader(cfg, n).node)
  {
    hide ApplyLogs, ApplyWrites, Numbered;
    var t := TakeOffice(cfg, n).node;
    ApplyLogsCatches(t.(commit := t.LastIndex()));
  }

  lemma AppendCaught(n: Node, m: Message)
    requires n.HasLog() && m.Append? && Caught(n)
    ensures Caught(HandleAppend(n, m).node)
  {
    hide ApplyLogs, ApplyWrites, Merge, AdoptWrites;
    var e := StepDown(n, m.term);
    if m.term >= n.term && PrevMatches(e.node, m) {
      var a := Adopt(e.node, m.prevIndex, m.entries).node;
      ApplyLogsCatches(a.(commit := Min(m.leaderCommit, a.LastIndex())));
    }
  }

  /** A leader that goes on leading its term only appends, as far as it does not compact. */
  ghost predicate Extends(n: Node, n': Node) {
    && n.HasLog() && n'.HasLog() && n'.LastIndex() >= n.LastIndex() && n'.snapIndex >= n.snapIndex
    && forall i: nat :: n'.snapIndex < i <= n.LastIndex() ==> EntryOf(n', i) == EntryOf(n, i)
  }

  /** The entry at index `i` of the log. */
  function EntryOf(n: Node, i: nat): Entry
    requires n.HasLog() && n.snapIndex < i <= n.LastIndex()
  {
    n.log[i - n.snapIndex]
  }

  lemma LeaderExtends(cfg: ClusterConfiguration, n: Node, ev: Event)
    requires n.HasLog() && n.role == Leader
    ensures var n' := React(cfg, n, ev).node; n'.role == Leader && n'.term == n.term ==> Extends(n, n')
  {
    hide ApplyLogs, HandleRequestVote, HandleVoteReply, HandleAppend, HandleAppendReply, HandleClients, CreateSnapshot, AllMembers;
    match ev
    case ElectionTimeout =>
    case HeartbeatTick =>
    case ApplyTick => ApplyLogsKeep(n);
    case SnapshotTick => if AppliedKnown(n) { SnapshotExtends(n); }
    case Deliver(m) =>
      match m {
        case RequestVote(_, _, _, _) => VoteDemotes(n, m);
        case VoteReply(_, _, _) => ReplyDemotes(cfg, n, m);
        case Append(_, _, _, _, _, _) => AppendDemotes(n, m);
        case AppendReply(_, _, _, _) => ReplyDemotes(cfg, n, m);
      }
    case Clients(reqs) => ClientsExtend(cfg, n, reqs);
  }

  lemma ClientsExtend(cfg: ClusterConfiguration, n: Node, reqs: seq<ClientRequest>)
    requires n.HasLog() && n.role == Leader
    ensures Extends(n, HandleClients(cfg, n, reqs).node)
  {
    hide CommitIfAlone, Enqueue;
    if reqs != [] { ClientsLog(cfg, n, reqs); }
  }

  /** Votes and replies leave a leader's log alone, or make it follow. */
  lemma VoteDemotes(n: Node, m: Message)
    requires n.HasLog() && m.RequestVote?
    ensures var n' := HandleRequestVote(n, m).node; n'.role == Follower || (n'.log == n.log && n'.snapIndex == n.snapIndex)
  {
    hide ApplyWrites;
  }

  lemma ReplyDemotes(cfg: ClusterConfiguration, n: Node, m: Message)
    requires n.HasLog() && n.role == Leader && (m.VoteReply? || m.AppendReply?)
    ensures var n' := React(cfg, n, Deliver(m)).node; n'.role == Follower || (n'.log == n.log && n'.snapIndex == n.snapIndex)
  {
    hide ApplyLogs, ApplyWrites, BestIndex, MatchTable, AllMembers, BecomeLeader, HasJointMajority;
    if m.AppendReply? {
      var n1 := Recorded(cfg, n, m);
      ApplyLogsKeep(n1.(commit := BestIndex(cfg, MatchTable(cfg, n1), n1.commit)));
    }
  }

  lemma SnapshotExtends(n: Node)
    requires AppliedKnown(n)
    ensures Extends(n, CreateSnapshot(n).node)
  {
    hide ApplyWrites;
  }

  /** A message from a leader of the same term makes a node follow. */
  lemma AppendDemotes(n: Node, m: Message)
    requires n.HasLog() && m.Append?
    ensures var n' := HandleAppend(n, m).node; n' == n || n'.role == Follower
  {
    hide ApplyLogs, ApplyWrites, Merge, AdoptWrites;
    var e := StepDown(n, m.term);
    if m.term >= n.term && PrevMatches(e.node, m) {
      var a := Adopt(e.node, m.prevIndex, m.entries).node;
      ApplyLogsKeep(a.(commit := Min(m.leaderCommit, a.LastIndex())));
    }
  }

  // ---------------------------------------------------------------- one place

  /** A place stays good over a complete reaction of the leader that gave it. */
  lemma SlotKept(cfg: ClusterConfiguration, n: Node, ev: Event, s: Slot, cmd: Command)
    requires n.HasLog() && Saved(n) && (n.role == Candidate ==> n.votedFor == Some(n.id)) && SlotHeld(n, s, cmd)
    ensures SlotHeld(React(cfg, n, ev).node, s, cmd)
  {
    hide React, HasJointMajority, AllMembers;
    ReactSteady(cfg, n, ev);
    ReactCampaigns(cfg, n, ev);
    var n' := React(cfg, n, ev).node;
    if n'.term == n.term == s.term && n'.role == Leader {
      assert n.role == Leader;
      LeaderExtends(cfg, n, ev);
      if n'.snapIndex < s.index { assert EntryOf(n', s.index) == EntryOf(n, s.index); }
    }
  }

  /** A new place is good. */
  lemma NewSlotHeld(g: Ledger, cfg: ClusterConfiguration, n: Node, ev: Event, r: Request)
    requires n.HasLog() && Fresh(g, ev) && r in Places(n, ev)
    ensures r in Issues(ev) && n.role == Leader && Places(n, ev)[r].term == n.term
    ensures SlotHeld(React(cfg, n, ev).node, Places(n, ev)[r], Issues(ev)[r])
  {
    hide Places, Issues, Fresh, CommitIfAlone, Enqueue;
    var j := PlacesOnly(g, n, ev, r);
    ClientsLog(cfg, n, ev.requests);
    var n' := HandleClients(cfg, n, ev.requests).node;
    assert n'.log[|n.log| + j] == EntriesOf(n.term, ev.requests)[j];
  }

  /** The node after a complete reaction, or after a crash and a restart. */
  ghost predicate Comes(cfg: ClusterConfiguration, n: Node, ev: Event, n': Node)
    requires n.HasLog()
  {
    n' == React(cfg, n, ev).node || (n'.role == Follower && n'.term >= n.term)
  }

  // ---------------------------------------------------------------- all places

  lemma OldSlotLed(c: Cluster, poll: Poll, id: Id, ev: Event, n': Node, c': Cluster, poll': Poll, s: Slot, cmd: Command)
    requires Polled(c, poll) && PollGrows(poll, poll') && id in c.nodes && c.nodes[id].HasLog() && Comes(c.cfg, c.nodes[id], ev, n')
    requires c'.cfg == c.cfg && c'.nodes == c.nodes[id := n'] && SlotLed(c, poll, s, cmd)
    ensures SlotLed(c', poll', s, cmd)
  {
    hide React, ElectedBy, AllMembers;
    var x :| SlotLedBy(c, poll, s, cmd, x);
    ElectedStays(c.cfg, poll, poll', s.term, x);
    if x == id {
      assert NodePolled(c.cfg, poll, id, c.nodes[id]);
      if n' == React(c.cfg, c.nodes[id], ev).node { SlotKept(c.cfg, c.nodes[id], ev, s, cmd); }
    }
    assert SlotLedBy(c', poll', s, cmd, x);
  }

  lemma NewSlotLed(c: Cluster, poll: Poll, id: Id, ev: Event, n': Node, c': Cluster, poll': Poll, r: Request)
    requires Polled(c, poll) && PollGrows(poll, poll') && Poised(c, id, ev) && c.nodes[id].HasLog() && Comes(c.cfg, c.nodes[id], ev, n')
    requires c'.cfg == c.cfg && c'.nodes == c.nodes[id := n'] && r in Places(c.nodes[id], ev)
    ensures r in Issues(ev) && SlotLed(c', poll', Places(c.nodes[id], ev)[r], Issues(ev)[r])
  {
    hide React, ElectedBy, AllMembers, Places, Issues, Fresh, Orderly;
    var n := c.nodes[id];
    NewSlotHeld(c.ledger, c.cfg, n, ev, r);
    assert NodePolled(c.cfg, poll, id, n);
    ElectedStays(c.cfg, poll, poll', n.term, id);
    assert SlotLedBy(c', poll', Places(n, ev)[r], Issues(ev)[r], id);
  }

  lemma SlotsAfter(c: Cluster, poll: Poll, id: Id, ev: Event, n': Node, o: Outcome, poll': Poll)
    requires Polled(c, poll) && SlotsLed(c, poll) && PollGrows(poll, poll') && Poised(c, id, ev) && c.nodes[id].HasLog()
    requires Comes(c.cfg, c.nodes[id], ev, n')
    ensures SlotsLed(After(c, id, ev, n', o), poll')
  {
    hide React, Polled, PollGrows, SlotLed, Poised, Comes, Places, Issues, Fresh, WaitsOk, Behind;
    PoisedFacts(c, id, ev);
    var g, n, c' := c.ledger, c.nodes[id], After(c, id, ev, n', o);
    forall r | r in c'.ledger.placed ensures r in c'.ledger.issued && SlotLed(c', poll', c'.ledger.placed[r], c'.ledger.issued[r]) {
      if r in g.placed {
        OldPlaced(g, n, ev, r);
        OldSlotLed(c, poll, id, ev, n', c', poll', g.placed[r], g.issued[r]);
      } else {
        NewSlotLed(c, poll, id, ev, n', c', poll', r);
      }
    }
  }

  /** A leader has given no place beyond its log, and no term has two leaders. */
  lemma LeadersAhead(c: Cluster, poll: Poll)
    requires Polled(c, poll) && SlotsLed(c, poll)
    ensures OneLeaderEach(c) && forall id :: id in c.nodes ==> Behind(c.ledger, c.nodes[id])
  {
    hide ElectedBy, AllMembers, Support;
    forall a, b | BothLead(c, a, b) ensures a == b {
      assert NodePolled(c.cfg, poll, a, c.nodes[a]) && NodePolled(c.cfg, poll, b, c.nodes[b]);
      OneElected(c.cfg, poll, c.nodes[a].term, a, b);
    }
    forall id | id in c.nodes ensures Behind(c.ledger, c.nodes[id]) {
      var n := c.nodes[id];
      assert NodePolled(c.cfg, poll, id, n);
      forall r | n.role == Leader && r in c.ledger.placed && c.ledger.placed[r].term == n.term
        ensures c.ledger.placed[r].index <= n.LastIndex() {
        LeaderHolds(c, poll, id, c.ledger.placed[r], c.ledger.issued[r]);
      }
    }
  }

  /** The leader of a term has what was placed in it. */
  lemma LeaderHolds(c: Cluster, poll: Poll, id: Id, s: Slot, cmd: Command)
    requires Polled(c, poll) && SlotLed(c, poll, s, cmd) && id in c.nodes && c.nodes[id].role == Leader && c.nodes[id].term == s.term
    ensures EntryAt(c.nodes[id], s, cmd)
  {
    hide ElectedBy, AllMembers, Support;
    var x :| SlotLedBy(c, poll, s, cmd, x);
    assert NodePolled(c.cfg, poll, id, c.nodes[id]);
    OneElected(c.cfg, poll, s.term, x, id);
  }

  /** The entry of a place that the acting leader gave is in its log after the reaction. */
  lemma PlaceHolds(c: Cluster, poll: Poll, id: Id, ev: Event, r: Request)
    requires Polled(c, poll) && SlotsLed(c, poll) && Poised(c, id, ev) && c.nodes[id].HasLog() && c.nodes[id].role == Leader
    requires r in c.ledger.placed + Places(c.nodes[id], ev) && (c.ledger.placed + Places(c.nodes[id], ev))[r].term == c.nodes[id].term
    ensures r in c.ledger.issued + Issues(ev)
    ensures SlotHeld(React(c.cfg, c.nodes[id], ev).node, (c.ledger.placed + Places(c.nodes[id], ev))[r], (c.ledger.issued + Issues(ev))[r])
  {
    hide React, ElectedBy, AllMembers, Places, Issues, Fresh, Poised, WaitsOk, Behind, SlotLed;
    PoisedFacts(c, id, ev);
    var g, n := c.ledger, c.nodes[id];
    if r in Places(n, ev) {
      NewSlotHeld(g, c.cfg, n, ev, r);
    } else {
      OldPlaced(g, n, ev, r);
      LeaderHolds(c, poll, id, g.placed[r], g.issued[r]);
      assert NodePolled(c.cfg, poll, id, n);
      SlotKept(c.cfg, n, ev, g.placed[r], g.issued[r]);
    }
  }

  /** Whoever leads at the end of a step whose writes are all done was elected. */
  lemma ActorElected(c: Cluster, poll: Poll, c': Cluster, h: Happening)
    requires Polled(c, poll) && Happens(c, c', h)
    requires var e := React(c.cfg, c.nodes[h.id], h.event); e.node.role == Leader && (h.Crashes? ==> h.cut == |e.writes|)
    ensures h.id in c'.nodes
    ensures var e := React(c.cfg, c.nodes[h.id], h.event);
            e.node.id == h.id && ElectedBy(c.cfg, Noting(poll, h.id, c'.nodes[h.id]), e.node.term, h.id)
  {
    hide React, Fresh, Boot, AllMembers, Noting, Record, ApplyWrites, Deeds, BackedUp, ElectedBy, Support, Partial;
    var id, n := h.id, c.nodes[h.id];
    var e := React(c.cfg, n, h.event);
    if Counts(n, h.event) { CountedWasCast(c, poll, id, h.event); }
    assert id in AllMembers(c.cfg) && NodePolled(c.cfg, poll, id, n);
    ReactPolled(c.cfg, poll, id, n, h.event);
    if h.Crashes? {
      ReactLogged(c.cfg, n, h.event);
      assert e.writes[..h.cut] == e.writes;
      RestartKeeps(c.cfg, poll, id, e.node);
    }
  }

  lemma DeedsAfter(c: Cluster, poll: Poll, c': Cluster, h: Happening)
    requires Polled(c, poll) && DeedsLed(c, poll) && Happens(c, c', h)
    ensures h.id in c'.nodes && DeedsLed(c', Noting(poll, h.id, c'.nodes[h.id]))
  {
    hide React, Fresh, Boot, Noting, ApplyWrites, BackedUp, ElectedBy, Polled, PollGrows, Places, Issues, Held;
    HappensPolled(c, poll, c', h);
    var poll' := Noting(poll, h.id, c'.nodes[h.id]);
    var e := React(c.cfg, c.nodes[h.id], h.event);
    forall d | d in c'.ledger.applied && d.role == Leader ensures ElectedBy(c'.cfg, poll', d.term, d.node) {
      if d in c.ledger.applied { ElectedStays(c.cfg, poll, poll', d.term, d.node); }
      else { ActorElected(c, poll, c', h); }
    }
  }
}
