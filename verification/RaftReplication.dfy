/**
The reactions that move log entries, and those that apply and compact them, as
protocol steps.
*/
module RaftReplication {
  import opened Options
  import opened Quorum
  import opened Master
  import opened RaftProtocol
  import opened RaftInvariant
  import opened RaftLogSteps
  import opened RaftSafety
  import opened RaftNode
  import opened RaftStorage
  import opened RaftRefinement

  // ---------------------------------------------------------------- accepting entries

  lemma CommitInLog(w: World, id: Id)
    requires Inv(w) && id in w.servers
    ensures var s := w.servers[id]; s.commit <= |s.log| && Settled(w.cfg, w.past, s.log, s.commit, s.term)
  {
    assert ServerOk(w.cfg, w.past, id, w.servers[id]);
  }

  /** Whatever a server has committed is still in its log after it accepts. */
  lemma CommittedKept(w: World, w': World, id: Id, m: Message)
    requires Inv(w) && Accept(w, w', id, m)
    ensures var s, s' := w.servers[id], w'.servers[id];
            s.commit <= |s.log| && s.commit <= s'.commit <= |s'.log| && s'.log[..s.commit] == s.log[..s.commit]
  {
    hide Inv, Settled, Merge, HistoryGrows;
    AcceptKeeps(w, w', id, m);
    var s, s' := w.servers[id], w'.servers[id];
    CommitInLog(w, id);
    CommitInLog(w', id);
    SettledGrows(w.cfg, w.past, w'.past, s.log, s.log, s.commit, s.term, s.term);
    AcceptSettled(w, w', id, m);
    hide Accept, Grows;
    forall k | 0 <= k < s.commit ensures s'.log[k] == s.log[k] {
      SettledAgree(w', s.log, s.commit, s.term, s'.log, s'.commit, s'.term, k);
    }
  }

  /** Saving `es` after index `cut` makes the store hold the log up to `cut` plus `es`. */
  lemma SaveAfterStores(n: Node, cut: nat, es: seq<Entry>, full: seq<Entry>, db: Store)
    requires n.HasLog() && n.LastIndex() == |full| && StoresLog(n.db.log, n.snapIndex, full)
    requires n.snapIndex <= cut <= |full| && db == ApplyWrites(n.db, SaveAfter(n, cut, es))
    ensures db == n.db.(log := db.log) && StoresLog(db.log, n.snapIndex, full[..cut] + es)
  {
    AfterDrops(n, full, cut);
    var drops := if cut < |full| then Drops(n.db.log, cut + 1) else [];
    var put := PutEntries(Numbered(es, cut + 1));
    var db1 := ApplyWrites(n.db, drops);
    assert db == ApplyWrite(db1, put) by {
      WritesConcat(n.db, drops, [put]);
      WritesOne(db1, put);
    }
    StoresAppend(db1.log, n.snapIndex, full[..cut], es);
  }

  /** After the deletes of a truncation after `cut`, the store holds the log up to it. */
  lemma AfterDrops(n: Node, full: seq<Entry>, cut: nat)
    requires StoresLog(n.db.log, n.snapIndex, full) && n.snapIndex <= cut <= |full|
    ensures var drops := if cut < |full| then Drops(n.db.log, cut + 1) else [];
            var db := ApplyWrites(n.db, drops);
            db == n.db.(log := db.log) && StoresLog(db.log, n.snapIndex, full[..cut])
  {
    if cut < |full| {
      DropsAll(n.db, n.db.log, cut + 1, |full|);
      StoresPrefix(n.db.log, n.snapIndex, full, cut);
    } else {
      assert full[..cut] == full;
    }
  }

  lemma MergeSplit(log: seq<Entry>, prev: nat, es: seq<Entry>)
    requires prev <= |log|
    ensures var k := Agreeing(log, prev, es);
            Merge(log, prev, es) == if k == |es| then log else log[..prev + k] + es[k..]
  {
  }

  lemma AdoptWritesSplit(n: Node, prev: nat, es: seq<Entry>, k: nat)
    requires n.HasLog() && n.snapIndex <= prev <= n.LastIndex()
    requires k == Agreeing(n.log, prev - n.snapIndex + 1, es)
    ensures AdoptWrites(n, prev, es) == if k == |es| then [] else SaveAfter(n, prev + k, es[k..])
  {
  }

  /** The writes of an adoption make the store hold the merged log. */
  lemma AdoptWritesStore(n: Node, es: seq<Entry>, full: seq<Entry>, prev: nat, k: nat, ws: seq<Write>, merged: seq<Entry>)
    requires n.HasLog() && n.LastIndex() == |full| && StoresLog(n.db.log, n.snapIndex, full)
    requires n.snapIndex <= prev <= |full| && k <= |es| && prev + k <= |full|
    requires ws == if k == |es| then [] else SaveAfter(n, prev + k, es[k..])
    requires merged == if k == |es| then full else full[..prev + k] + es[k..]
    ensures var db := ApplyWrites(n.db, ws); db == n.db.(log := db.log) && StoresLog(db.log, n.snapIndex, merged)
  {
    hide StoresLog, ApplyWrites, SaveAfter;
    NoWrites(n.db);
    if k < |es| { SaveAfterStores(n, prev + k, es[k..], full, ApplyWrites(n.db, ws)); }
  }

  lemma RewriteDurable(db: Store, term: nat, vote: Option<Id>, k: nat, full: seq<Entry>, full': seq<Entry>, db': Store)
    requires Durable(db, term, vote, k, full) && k <= |full'| && full'[..k] == full[..k]
    requires db' == db.(log := db'.log) && StoresLog(db'.log, k, full')
    ensures Durable(db', term, vote, k, full')
  {
    if k > 0 { assert full'[k - 1] == full'[..k][k - 1] == full[..k][k - 1]; }
  }

  /** A new log that keeps the committed prefix, in memory and in the store. */
  lemma RewriteTracks(n: Node, log: seq<Entry>, db: Store, full: seq<Entry>, full': seq<Entry>)
    requires Tracks(n, full) && n.commit <= |full'| && full'[..n.commit] == full[..n.commit]
    requires Offset(log, n.snapIndex, n.snapTerm, full')
    requires db == n.db.(log := db.log) && StoresLog(db.log, n.snapIndex, full')
    ensures Tracks(n.(log := log, db := db), full')
  {
    assert full'[..n.snapIndex] == full'[..n.commit][..n.snapIndex] == full[..n.snapIndex];
    RewriteDurable(n.db, n.term, n.votedFor, n.snapIndex, full, full', db);
  }

  lemma PrevAccepts(w: World, id: Id, n: Node, m: Message)
    requires id in w.servers && Mirrors(id, n, w.servers[id])
    requires m.Append? && Packet(id, m) in w.net && m.term == n.term && PrevMatches(n, m)
    ensures Accepts(w, id, m) && n.HasLog()
  {
    OffsetLast(n.log, n.snapIndex, n.snapTerm, w.servers[id].log);
    OffsetAt(n.log, n.snapIndex, n.snapTerm, w.servers[id].log, m.prevIndex);
  }

  /** What adopting entries does to the log in memory and in the store. */
  lemma AdoptParts(n: Node, prev: nat, es: seq<Entry>, full: seq<Entry>, db: Store)
    requires n.HasLog() && Offset(n.log, n.snapIndex, n.snapTerm, full) && StoresLog(n.db.log, n.snapIndex, full)
    requires n.snapIndex <= prev <= n.LastIndex() && prev <= |full|
    requires db == ApplyWrites(n.db, AdoptWrites(n, prev, es))
    ensures Offset(Merge(n.log, prev - n.snapIndex + 1, es), n.snapIndex, n.snapTerm, Merge(full, prev, es))
    ensures db == n.db.(log := db.log) && StoresLog(db.log, n.snapIndex, Merge(full, prev, es))
  {
    hide Merge, Agreeing, ApplyWrites, StoresLog, Offset, AdoptWrites, SaveAfter;
    OffsetLast(n.log, n.snapIndex, n.snapTerm, full);
    AgreeingOffset(n.log, n.snapIndex, n.snapTerm, full, prev, es);
    var k := Agreeing(full, prev, es);
    AdoptWritesSplit(n, prev, es, k);
    MergeSplit(full, prev, es);
    AdoptWritesStore(n, es, full, prev, k, AdoptWrites(n, prev, es), Merge(full, prev, es));
    MergeOffset(n.log, n.snapIndex, n.snapTerm, full, prev, es);
  }

  /** Adopting the leader's entries follows the merge of the full logs. */
  lemma AdoptTracks(n: Node, prev: nat, es: seq<Entry>, full: seq<Entry>)
    requires Tracks(n, full) && n.HasLog() && n.snapIndex <= prev <= n.LastIndex() && prev <= |full|
    requires n.commit <= |Merge(full, prev, es)| && Merge(full, prev, es)[..n.commit] == full[..n.commit]
    ensures Tracks(Adopt(n, prev, es).node, Merge(full, prev, es))
  {
    hide Merge, ApplyWrites, AdoptWrites, Offset, StoresLog;
    var db := ApplyWrites(n.db, AdoptWrites(n, prev, es));
    AdoptParts(n, prev, es, full, db);
    RewriteTracks(n, Merge(n.log, prev - n.snapIndex + 1, es), db, full, Merge(full, prev, es));
  }

  lemma CommitUpToTracks(e: Effect, leaderCommit: nat, full: seq<Entry>)
    requires e.node.HasLog() && Tracks(e.node, full)
    ensures var c := if leaderCommit > e.node.commit then Min(leaderCommit, |full|) else e.node.commit;
            var n := CommitUpTo(e, leaderCommit).node;
            Tracks(n, full) && n.id == e.node.id && Shadow(n, full) == Shadow(e.node, full).(commit := c)
    ensures CommitUpTo(e, leaderCommit).sent == e.sent && CommitUpTo(e, leaderCommit).writes == e.writes
  {
    OffsetLast(e.node.log, e.node.snapIndex, e.node.snapTerm, full);
    assert e.node.commit <= |full|;
    hide Tracks, ApplyLogs;
    if leaderCommit > e.node.commit { CommitTracks(e.node, full, Min(leaderCommit, |full|)); }
  }

  /** What accepting does to the node, on the full logs. */
  lemma AcceptTracks(e: Effect, m: Message, full: seq<Entry>, full': seq<Entry>)
    requires Tracks(e.node, full) && e.node.HasLog() && m.Append? && PrevMatches(e.node, m) && m.prevIndex <= |full|
    requires full' == Merge(full, m.prevIndex, m.entries)
    requires e.node.commit <= |full'| && full'[..e.node.commit] == full[..e.node.commit]
    ensures var n, n' := e.node, AcceptAppend(e, m).node;
            var c := if m.leaderCommit > n.commit then Min(m.leaderCommit, |full'|) else n.commit;
            Tracks(n', full') && n'.id == n.id && Shadow(n', full') == Shadow(n, full').(commit := c)
    ensures AcceptAppend(e, m).sent
         == e.sent + {Packet(m.leader, AppendReply(e.node.term, true, m.prevIndex + |m.entries|, e.node.id))}
  {
    hide Tracks, ApplyLogs, ApplyWrites, Merge, AdoptWrites;
    var a := Then(e, Adopt(e.node, m.prevIndex, m.entries));
    AdoptTracks(e.node, m.prevIndex, m.entries, full);
    CommitUpToTracks(a, m.leaderCommit, full');
  }

  lemma AcceptSim(w: World, id: Id, e: Effect, m: Message) returns (w': World)
    requires Reachable(w) && id in w.servers && Mirrors(id, e.node, w.servers[id]) && e.sent == {}
    requires m.Append? && Packet(id, m) in w.net && m.term == e.node.term && PrevMatches(e.node, m)
    requires e.node.HasLog() && e.node.role == Follower
    ensures Moved(w, w', id) && AcceptAppend(e, m).sent <= w'.net
    ensures Mirrors(id, AcceptAppend(e, m).node, w'.servers[id])
  {
    hide Reachable, ApplyLogs, ApplyWrites, Merge, AdoptWrites, Tracks, Inv, PrevMatches, WithAck;
    PrevAccepts(w, id, e.node, m);
    w' := Accepted(w, id, m);
    MoveBy(w, w', id, AcceptStep(id, m));
    var s, s' := w.servers[id], w'.servers[id];
    assert s.commit <= s'.commit <= |s'.log| && s'.log[..s.commit] == s.log[..s.commit] by {
      ReachableInv(w);
      CommittedKept(w, w', id, m);
    }
    hide AcceptAppend;
    AcceptTracks(e, m, s.log, s'.log);
  }

  lemma AppendSim(w: World, id: Id, n: Node, m: Message) returns (w': World)
    requires Reachable(w) && id in w.servers && Mirrors(id, n, w.servers[id]) && n.HasLog()
    requires m.Append? && Packet(id, m) in w.net
    ensures Moved(w, w', id) && HandleAppend(n, m).sent <= w'.net
    ensures Mirrors(id, HandleAppend(n, m).node, w'.servers[id])
  {
    hide Reachable, Tracks, ApplyWrites, AcceptAppend;
    StepDownFits(n, m.term);
    if m.term < n.term {
      w' := RefuseSim(w, id, Packet(m.leader, AppendReply(n.term, false, 0, id)));
    } else {
      var e := StepDown(n, m.term);
      var w1 := StepDownSim(w, id, n, m.term);
      if PrevMatches(e.node, m) {
        w' := AcceptSim(w1, id, e, m);
      } else {
        w' := RefuseSim(w1, id, Packet(m.leader, AppendReply(e.node.term, false, RefusalHint(n, m), id)));
      }
      MoveTrans(w, w1, w', id);
    }
  }

  // ---------------------------------------------------------------- replicating

  lemma HeartbeatCarries(n: Node, p: Id, full: seq<Entry>)
    requires Tracks(n, full) && n.HasLog() && p in n.next && Heartbeat(n, p).Some?
    ensures Replication(Shadow(n, full), n.id, Heartbeat(n, p).value)
  {
    OffsetLast(n.log, n.snapIndex, n.snapTerm, full);
    OffsetAt(n.log, n.snapIndex, n.snapTerm, full, n.next[p] - 1);
  }

  lemma HeartbeatSim(w: World, id: Id, n: Node) returns (w': World)
    requires Reachable(w) && id in w.servers && Mirrors(id, n, w.servers[id]) && n.HasLog() && n.role == Leader
    ensures Moved(w, w', id) && SendHeartbeats(w.cfg, n).sent <= w'.net
    ensures Mirrors(id, SendHeartbeats(w.cfg, n).node, w'.servers[id])
  {
    var s := w.servers[id];
    var ps := SendHeartbeats(w.cfg, n).sent;
    forall q | q in ps ensures Replication(s, id, q.msg) {
      var p :| p in n.next && Heartbeat(n, p).Some? && q == Packet(p, Heartbeat(n, p).value);
      HeartbeatCarries(n, p, s.log);
    }
    w' := w.(net := w.net + ps);
    MoveBy(w, w', id, ReplicateStep(id, ps));
  }

  // ---------------------------------------------------------------- committing

  /** What the scan finds is acknowledged by a joint majority. */
  lemma BestIsHeld(cfg: ClusterConfiguration, matches: map<Id, nat>, fallback: nat)
    ensures var b := BestIndex(cfg, matches, fallback); b == fallback || Acknowledged(cfg, matches, b)
  {
  }

  lemma HeldAreHolders(cfg: ClusterConfiguration, n: Node, full: seq<Entry>, c: nat)
    requires n.HasLog() && Acknowledged(cfg, MatchTable(cfg, n), c)
    ensures HasJointMajority(cfg, Holders(Shadow(n, full), n.id, c))
  {
    QuorumGrows(cfg, HeldBy(MatchTable(cfg, n), c), Holders(Shadow(n, full), n.id, c));
  }

  lemma CommitSim(w: World, id: Id, n: Node, c: nat) returns (w': World)
    requires Reachable(w) && id in w.servers && Mirrors(id, n, w.servers[id]) && n.HasLog() && n.role == Leader
    requires n.commit < c && n.snapIndex <= c < n.snapIndex + |n.log| && n.log[c - n.snapIndex].term == n.term
    requires Acknowledged(w.cfg, MatchTable(w.cfg, n), c)
    ensures Moved(w, w', id) && w'.net == w.net && ApplyLogs(n.(commit := c)).sent == {}
    ensures Mirrors(id, ApplyLogs(n.(commit := c)).node, w'.servers[id])
  {
    hide Reachable, MatchTable, Acknowledged, HasJointMajority, ApplyLogs, Tracks, Moved;
    var s := w.servers[id];
    TracksShape(n, s.log);
    TracksAt(n, s.log, c);
    HeldAreHolders(w.cfg, n, s.log, c);
    w' := Put(w, id, s.(commit := c), w.net, w.past);
    MoveBy(w, w', id, AdvanceCommitStep(id, c));
    CommitTracks(n, s.log, c);
  }

  lemma AdvanceSim(w: World, id: Id, n: Node) returns (w': World)
    requires Reachable(w) && id in w.servers && Mirrors(id, n, w.servers[id]) && n.HasLog() && n.role == Leader
    ensures Moved(w, w', id) && w'.net == w.net && AdvanceCommitIndex(w.cfg, n).sent == {}
    ensures Mirrors(id, AdvanceCommitIndex(w.cfg, n).node, w'.servers[id])
  {
    hide Reachable, BestIndex, MatchTable, Acknowledged, ApplyLogs, Mirrors, Moved;
    var table := MatchTable(w.cfg, n);
    var best := BestIndex(w.cfg, table, n.commit);
    if best > n.commit && 0 <= best - n.snapIndex < |n.log| && n.log[best - n.snapIndex].term == n.term {
      BestIsHeld(w.cfg, table, n.commit);
      w' := CommitSim(w, id, n, best);
    } else {
      w' := w;
      Stay(w, id);
    }
  }

  lemma RecordSim(w: World, id: Id, n: Node, m: Message) returns (w': World)
    requires Reachable(w) && id in w.servers && Mirrors(id, n, w.servers[id]) && n.role == Leader
    requires m.AppendReply? && Packet(id, m) in w.net && m.term == n.term
    ensures Moved(w, w', id) && w'.net == w.net
    ensures Mirrors(id, Recorded(w.cfg, n, m), w'.servers[id])
  {
    if m.peer in Peers(w.cfg, n) && m.peer in n.next && m.success {
      w' := Put(w, id, w.servers[id].(matched := n.matched[m.peer := m.matchIndex]), w.net, w.past);
      MoveBy(w, w', id, RecordMatchStep(id, m));
    } else {
      w' := w;
      Stay(w, id);
    }
  }

  lemma AppendReplySim(w: World, id: Id, n: Node, m: Message) returns (w': World)
    requires Reachable(w) && id in w.servers && Mirrors(id, n, w.servers[id]) && n.HasLog()
    requires m.AppendReply? && Packet(id, m) in w.net
    ensures Moved(w, w', id) && HandleAppendReply(w.cfg, n, m).sent <= w'.net
    ensures Mirrors(id, HandleAppendReply(w.cfg, n, m).node, w'.servers[id])
  {
    if n.role == Leader && m.term == n.term {
      var w1 := RecordSim(w, id, n, m);
      w' := AdvanceSim(w1, id, Recorded(w.cfg, n, m));
      MoveTrans(w, w1, w', id);
    } else if m.term > n.term {
      w' := StepDownSim(w, id, n, m.term);
    } else {
      w' := w;
      Stay(w, id);
    }
  }

  // ---------------------------------------------------------------- clients

  lemma ProposeSim(w: World, id: Id, es: seq<Entry>) returns (w': World)
    requires Reachable(w) && id in w.servers && w.servers[id].role == Leader
    requires forall e :: e in es ==> e.term == w.servers[id].term
    ensures Moved(w, w', id) && w'.net == w.net
    ensures w'.servers[id] == w.servers[id].(log := w.servers[id].log + es)
  {
    var s := w.servers[id];
    assert s.term in w.past.reigns by { ReachableInv(w); assert ServerOk(w.cfg, w.past, id, s); }
    var log := s.log + es;
    w' := Put(w, id, s.(log := log), w.net,
              w.past.(reigns := w.past.reigns[s.term := w.past.reigns[s.term].(log := log)],
                      acks := w.past.acks[Ballot(id, s.term) := |log|]));
    MoveBy(w, w', id, ProposeStep(id, es));
  }

  lemma EnqueueSim(w: World, id: Id, n: Node, reqs: seq<ClientRequest>) returns (w': World)
    requires Reachable(w) && id in w.servers && Mirrors(id, n, w.servers[id]) && n.HasLog() && n.role == Leader
    ensures Moved(w, w', id) && w'.net == w.net
    ensures Mirrors(id, Enqueue(n, reqs).node, w'.servers[id])
    ensures w'.servers[id].log == w.servers[id].log + EntriesOf(n.term, reqs)
  {
    hide Reachable, ApplyWrites;
    w' := ProposeSim(w, id, EntriesOf(n.term, reqs));
    GrowTracks(n, Enqueue(n, reqs).node, w.servers[id].log, EntriesOf(n.term, reqs));
  }

  lemma ClientsSim(w: World, id: Id, n: Node, reqs: seq<ClientRequest>) returns (w': World)
    requires Reachable(w) && id in w.servers && Mirrors(id, n, w.servers[id]) && n.HasLog()
    ensures Moved(w, w', id) && HandleClients(w.cfg, n, reqs).sent <= w'.net
    ensures Mirrors(id, HandleClients(w.cfg, n, reqs).node, w'.servers[id])
  {
    hide Reachable, ApplyWrites, ApplyLogs, Tracks, CommitIfAlone;
    if reqs != [] && n.role == Leader {
      var w1 := EnqueueSim(w, id, n, reqs);
      var e := Enqueue(n, reqs);
      w' := CommitIfAloneSim(w1, id, e);
      MoveTrans(w, w1, w', id);
    } else {
      w' := w;
      Stay(w, id);
    }
  }

  // ---------------------------------------------------------------- applying and compacting

  lemma ApplySim(w: World, id: Id, n: Node)
    requires Reachable(w) && id in w.servers && Mirrors(id, n, w.servers[id])
    ensures Moved(w, w, id) && ApplyLogs(n).sent == {} && Mirrors(id, ApplyLogs(n).node, w.servers[id])
  {
    Stay(w, id);
    ApplyLogsTracks(n, w.servers[id].log);
  }

  lemma OffsetCompact(log: seq<Entry>, k: nat, t: nat, full: seq<Entry>, i: nat)
    requires Offset(log, k, t, full) && k <= i <= |full|
    ensures i - k < |log| && Offset([Entry(log[i - k].term, NoOp)] + log[i - k + 1..], i, log[i - k].term, full)
  {
    OffsetAt(log, k, t, full, i);
  }

  /** The writes of a snapshot, all of them. */
  lemma SnapshotDurable(db: Store, term: nat, vote: Option<Id>, k: nat, full: seq<Entry>, i: nat, app: MasterState, db': Store)
    requires Durable(db, term, vote, k, full) && k <= i <= |full|
    requires db' == ApplyWrites(db, [PutMeta(SnapshotMeta(i, TermAt(full, i))), PutData(app)] + Compacts(k, i))
    ensures Durable(db', term, vote, i, full)
  {
    var meta, data := PutMeta(SnapshotMeta(i, TermAt(full, i))), PutData(app);
    var db1 := ApplyWrites(db, [meta, data]);
    WritesTwo(db, meta, data);
    WritesConcat(db, [meta, data], Compacts(k, i));
    assert Compacts(k, i)[..i - k] == Compacts(k, i);
    CompactsHarmless(db1, k, i, i - k);
  }

  lemma SnapshotTracks(n: Node, full: seq<Entry>)
    requires Tracks(n, full)
    ensures AppliedKnown(n)
    ensures var n' := CreateSnapshot(n).node;
            Tracks(n', full) && n'.id == n.id && Shadow(n', full) == Shadow(n, full) && CreateSnapshot(n).sent == {}
  {
    OffsetAt(n.log, n.snapIndex, n.snapTerm, full, n.applied);
    OffsetCompact(n.log, n.snapIndex, n.snapTerm, full, n.applied);
    SnapshotDurable(n.db, n.term, n.votedFor, n.snapIndex, full, n.applied, n.app, CreateSnapshot(n).node.db);
  }
}
