/**
The application state. As long as no crash leaves a truncation or a snapshot half
done, a node's state is the fold of the log entries it has applied, and its stored
snapshot the fold of those behind its snapshot point.
*/
module RaftState {
  import opened Quorum
  import opened Master
  import opened MasterFiles
  import opened RaftProtocol
  import opened RaftInvariant
  import opened RaftNode
  import opened RaftStorage
  import opened RaftRefinement
  import opened RaftReplies
  import opened RaftCrash
  import opened RaftCluster
  import opened RaftExplained
  import opened RaftTheorems

  /** The state after applying a whole log from the start. */
  function Fold(log: seq<Entry>): MasterState {
    if log == [] then EMPTY else ApplyCommand(Fold(log[..|log| - 1]), log[|log| - 1].command)
  }

  function CommandsOf(log: seq<Entry>): seq<Command> { seq(|log|, i requires 0 <= i < |log| => log[i].command) }

  lemma {:induction false} FoldPlays(log: seq<Entry>)
    ensures Fold(log) == Played(CommandsOf(log))
    decreases |log|
  {
    if log != [] {
      FoldPlays(log[..|log| - 1]);
      assert CommandsOf(log)[..|log| - 1] == CommandsOf(log[..|log| - 1]);
    }
  }

  /** State and stored state are the folds of the entries they stand for. */
  ghost predicate Faithful(n: Node, full: seq<Entry>) {
    && n.snapIndex <= |full| && n.applied <= |full|
    && n.app == Fold(full[..n.applied])
    && AppOf(n.db) == Fold(full[..n.snapIndex])
  }

  lemma {:induction false} ReplayFolds(app: MasterState, done: seq<Apply>, full: seq<Entry>, a: nat)
    requires a + |done| <= |full| && app == Fold(full[..a])
    requires forall j :: 0 <= j < |done| ==> done[j].entry == full[a + j]
    ensures Replay(app, done) == Fold(full[..a + |done|])
    decreases |done|
  {
    if done != [] {
      assert full[..a + 1][..a] == full[..a];
      ReplayFolds(ApplyCommand(app, done[0].entry.command), done[1..], full, a + 1);
    }
  }

  // ---------------------------------------------------------------- what writes do to the stored state

  lemma {:induction false} StateUntouched(db: Store, ws: seq<Write>)
    requires forall i :: 0 <= i < |ws| ==> !ws[i].PutMeta? && !ws[i].PutData?
    ensures ApplyWrites(db, ws).meta == db.meta && ApplyWrites(db, ws).data == db.data
    decreases |ws|
  {
    if ws != [] { StateUntouched(db, ws[..|ws| - 1]); }
  }

  ghost predicate Stateless(ws: seq<Write>) {
    forall i :: 0 <= i < |ws| ==> !ws[i].PutMeta? && !ws[i].PutData?
  }

  lemma PlainStateless(ws: seq<Write>)
    requires Plain(ws)
    ensures Stateless(ws)
  {
    forall i | 0 <= i < |ws| ensures !ws[i].PutMeta? && !ws[i].PutData? { assert ws[i] in ws; }
  }

  lemma AdoptStateless(n: Node, prev: nat, es: seq<Entry>)
    requires n.HasLog() && n.snapIndex <= prev <= n.LastIndex()
    ensures Stateless(AdoptWrites(n, prev, es))
  {
    hide Agreeing, Drops, Numbered;
    var k := Agreeing(n.log, prev - n.snapIndex + 1, es);
    var drops := Drops(n.db.log, prev + k + 1);
    forall j | 0 <= j < |drops| ensures drops[j].DropEntry? { DropsAreDrops(n.db.log, prev + k + 1, j); }
  }

  lemma AppendStateless(n: Node, m: Message)
    requires n.HasLog() && m.Append?
    ensures Stateless(HandleAppend(n, m).writes)
  {
    hide AcceptAppend, AdoptWrites, ApplyWrites;
    var e := StepDown(n, m.term);
    StepDownLogged(n, m.term);
    if m.term >= n.term && PrevMatches(e.node, m) {
      AcceptLogged(n, e, m);
      AdoptStateless(e.node, m.prevIndex, m.entries);
    }
  }

  /** Only snapshots touch the stored state. */
  lemma ReactStateless(cfg: ClusterConfiguration, n: Node, ev: Event)
    requires n.HasLog() && !ev.SnapshotTick?
    ensures Stateless(React(cfg, n, ev).writes)
  {
    hide HandleAppend, StartElection, HandleClients, ApplyLogs, Plain;
    match ev
    case ElectionTimeout => ElectionPlain(cfg, n); PlainStateless(StartElection(cfg, n).writes);
    case HeartbeatTick =>
    case ApplyTick => ApplyLogsQuiet(n);
    case Deliver(m) =>
      if m.Append? { AppendStateless(n, m); }
      else { DeliverPlain(cfg, n, m); PlainStateless(React(cfg, n, ev).writes); }
    case Clients(reqs) => ClientsPlain(cfg, n, reqs); PlainStateless(HandleClients(cfg, n, reqs).writes);
  }

  /** The stored state after the first `k` writes. */
  lemma StoredAfter(cfg: ClusterConfiguration, n: Node, ev: Event, k: nat)
    requires n.HasLog() && k <= |React(cfg, n, ev).writes|
    ensures var db := ApplyWrites(n.db, React(cfg, n, ev).writes[..k]);
            if ev.SnapshotTick? && k >= 2 then MetaOf(db).index == n.applied && AppOf(db) == n.app
            else k == 0 || !ev.SnapshotTick? ==> MetaOf(db) == MetaOf(n.db) && AppOf(db) == AppOf(n.db)
  {
    hide ApplyWrites, React;
    var ws := React(cfg, n, ev).writes[..k];
    if !ev.SnapshotTick? {
      ReactStateless(cfg, n, ev);
      StateUntouched(n.db, ws);
    } else if k == 0 {
      NoWrites(n.db);
    } else if k >= 2 {
      SnapshotStored(cfg, n, k);
    }
  }

  lemma SnapshotStored(cfg: ClusterConfiguration, n: Node, k: nat)
    requires n.HasLog() && 2 <= k <= |React(cfg, n, SnapshotTick).writes|
    ensures var db := ApplyWrites(n.db, React(cfg, n, SnapshotTick).writes[..k]); MetaOf(db).index == n.applied && AppOf(db) == n.app
  {
    hide ApplyWrites;
    var ws := React(cfg, n, SnapshotTick).writes;
    var head := ws[..2];
    assert head == [ws[0], ws[1]] && ws[..k] == head + ws[2..k];
    WritesTwo(n.db, ws[0], ws[1]);
    WritesConcat(n.db, head, ws[2..k]);
    StateUntouched(ApplyWrites(n.db, head), ws[2..k]);
  }

  // ---------------------------------------------------------------- one step

  /** The application of log entries, on the full log. */
  lemma AppliedFaithful(n: Node, e: Effect, full: seq<Entry>, full': seq<Entry>)
    requires Faithful(n, full) && AppliesLog(n, e) && Tracks(e.node, full')
    requires n.applied <= |full'| && full'[..n.applied] == full[..n.applied]
    ensures e.node.applied <= |full'| && e.node.app == Fold(full'[..e.node.applied])
  {
    hide Fold, Replay, Durable;
    forall j | 0 <= j < |e.applies| ensures e.applies[j].entry == full'[n.applied + j] {
      assert AppliesAt(n, e, j);
      OffsetAt(e.node.log, e.node.snapIndex, e.node.snapTerm, full', n.applied + 1 + j);
    }
    ReplayFolds(n.app, e.applies, full', n.applied);
  }

  /** The snapshot point and the state it stands for, after a complete reaction. */
  lemma ReactFaithful(cfg: ClusterConfiguration, n: Node, ev: Event, full: seq<Entry>, full': seq<Entry>)
    requires n.HasLog() && CommitKnown(n) && Tracks(n, full) && Faithful(n, full)
    requires Tracks(React(cfg, n, ev).node, full')
    requires n.applied <= |full'| && full'[..n.applied] == full[..n.applied]
    ensures Faithful(React(cfg, n, ev).node, full')
  {
    hide React, ApplyWrites, StoresLog, Offset;
    var e := React(cfg, n, ev);
    ReactApplies(cfg, n, ev);
    AppliedFaithful(n, e, full, full');
    ReactLogged(cfg, n, ev);
    var ws := e.writes;
    assert ws[..|ws|] == ws;
    StoredAfter(cfg, n, ev, |ws|);
    SnapshotLength(cfg, n, ev);
    assert full'[..n.applied][..n.snapIndex] == full'[..n.snapIndex];
    assert full[..n.applied][..n.snapIndex] == full[..n.snapIndex];
  }

  lemma SnapshotLength(cfg: ClusterConfiguration, n: Node, ev: Event)
    requires n.HasLog()
    ensures ev.SnapshotTick? ==> |React(cfg, n, ev).writes| == 0 || |React(cfg, n, ev).writes| >= 2
  {
  }

  /** After a crash that leaves neither a truncation nor a snapshot half done. */
  lemma CrashFaithful(cfg: ClusterConfiguration, n: Node, ev: Event, k: nat, full: seq<Entry>, full': seq<Entry>)
    requires n.HasLog() && Tracks(n, full) && Faithful(n, full)
    requires k <= |React(cfg, n, ev).writes| && Admits(AllWhole, React(cfg, n, ev).writes, k)
    requires var b := Boot(cfg, n.id, ApplyWrites(n.db, React(cfg, n, ev).writes[..k]));
             && Tracks(b, full')
             && (forall i :: 0 <= i < b.applied && i < n.applied && i < |full'| ==> full'[i] == full[i])
    ensures Faithful(Boot(cfg, n.id, ApplyWrites(n.db, React(cfg, n, ev).writes[..k])), full')
  {
    hide React, ApplyWrites, StoresLog, Offset, Fold, LogOf;
    var ws := React(cfg, n, ev).writes;
    StoredAfter(cfg, n, ev, k);
    if ev.SnapshotTick? && k == 1 { HalvedAtOne(cfg, n); }
    var b := Boot(cfg, n.id, ApplyWrites(n.db, ws[..k]));
    assert full'[..b.applied] == full[..b.applied];
  }

  lemma HalvedAtOne(cfg: ClusterConfiguration, n: Node)
    requires n.HasLog() && 1 <= |React(cfg, n, SnapshotTick).writes|
    ensures HalvesSnapshot(React(cfg, n, SnapshotTick).writes, 1)
  {
  }

  // ---------------------------------------------------------------- every execution

  /** Whatever both have committed is the same. */
  lemma PrefixAgrees(u: World, w: World, id: Id, k: nat)
    requires Inv(u) && Inv(w) && Grows(u, w) && id in u.servers && id in w.servers
    requires k <= u.servers[id].commit && k <= w.servers[id].commit
    ensures k <= |u.servers[id].log| && k <= |w.servers[id].log| && w.servers[id].log[..k] == u.servers[id].log[..k]
  {
    hide Inv, Grows;
    if k > 0 { CommittedAgree(u, w, id, id, k); }
    forall i | 0 <= i < k ensures w.servers[id].log[i] == u.servers[id].log[i] { CommittedAgree(u, w, id, id, i + 1); }
  }

  lemma SameFaithful(n: Node, full: seq<Entry>, full': seq<Entry>)
    requires Faithful(n, full) && n.snapIndex <= n.applied <= |full'| && full'[..n.applied] == full[..n.applied]
    ensures Faithful(n, full')
  {
    assert full'[..n.applied][..n.snapIndex] == full'[..n.snapIndex];
    assert full[..n.applied][..n.snapIndex] == full[..n.snapIndex];
  }

  /** A node that does nothing. */
  lemma BystanderFaithful(u: World, w: World, id: Id, n: Node)
    requires Inv(u) && Inv(w) && Grows(u, w) && id in u.servers && id in w.servers
    requires Mirrors(id, n, u.servers[id]) && Mirrors(id, n, w.servers[id]) && Faithful(n, u.servers[id].log)
    ensures Faithful(n, w.servers[id].log)
  {
    hide Inv, Grows, Faithful, Offset, Durable;
    PrefixAgrees(u, w, id, n.applied);
    SameFaithful(n, u.servers[id].log, w.servers[id].log);
  }

  lemma ActorFaithful(c: Cluster, u: World, w: World, id: Id, ev: Event)
    requires Inv(u) && Inv(w) && Grows(u, w) && id in u.servers && id in w.servers && id in c.nodes && c.nodes[id].HasLog()
    requires Mirrors(id, c.nodes[id], u.servers[id]) && Faithful(c.nodes[id], u.servers[id].log)
    requires Mirrors(id, React(c.cfg, c.nodes[id], ev).node, w.servers[id])
    ensures Faithful(React(c.cfg, c.nodes[id], ev).node, w.servers[id].log)
  {
    hide Inv, Grows, Faithful, Offset, Durable, React, Replay;
    var n := c.nodes[id];
    MirrorKnown(id, n, u.servers[id]);
    ReactApplies(c.cfg, n, ev);
    PrefixAgrees(u, w, id, n.applied);
    ReactFaithful(c.cfg, n, ev, u.servers[id].log, w.servers[id].log);
  }

  lemma VictimFaithful(c: Cluster, u: World, w: World, id: Id, ev: Event, k: nat)
    requires Inv(u) && Inv(w) && Grows(u, w) && id in u.servers && id in w.servers && id in c.nodes && c.nodes[id].HasLog()
    requires Mirrors(id, c.nodes[id], u.servers[id]) && Faithful(c.nodes[id], u.servers[id].log)
    requires var ws := React(c.cfg, c.nodes[id], ev).writes;
             && k <= |ws| && Admits(AllWhole, ws, k)
             && Mirrors(id, Boot(c.cfg, id, ApplyWrites(c.nodes[id].db, ws[..k])), w.servers[id])
    ensures Faithful(Boot(c.cfg, id, ApplyWrites(c.nodes[id].db, React(c.cfg, c.nodes[id], ev).writes[..k])), w.servers[id].log)
  {
    hide Inv, Grows, Faithful, Offset, Durable, React, Boot, Admits;
    var n := c.nodes[id];
    var b := Boot(c.cfg, id, ApplyWrites(n.db, React(c.cfg, n, ev).writes[..k]));
    var full, full' := u.servers[id].log, w.servers[id].log;
    var low := if b.applied < n.applied then b.applied else n.applied;
    PrefixAgrees(u, w, id, low);
    forall i | 0 <= i < b.applied && i < n.applied && i < |full'| ensures full'[i] == full[i] {
      assert full'[i] == full'[..low][i] == full[..low][i];
    }
    CrashFaithful(c.cfg, n, ev, k, full, full');
  }

  lemma StepFaithful(c: Cluster, c': Cluster, u: World, w: World, id: Id)
    requires Explains(c, u) && Explains(c', w) && Inv(u) && Inv(w) && Grows(u, w) && Advances(c, c', AllWhole)
    requires id in c'.nodes
    requires forall x :: x in c.nodes ==> Faithful(c.nodes[x], u.servers[x].log)
    ensures Faithful(c'.nodes[id], w.servers[id].log)
  {
    hide Explains, Inv, Grows, Mirrors, Faithful, React, Fresh, Partial, Boot, Admits, Record;
    var h :| Happens(c, c', h) && Admitted(c, h, AllWhole);
    assert id in c.nodes;
    MirrorOf(c, u, id);
    MirrorOf(c', w, id);
    if id != h.id {
      BystanderFaithful(u, w, id, c.nodes[id]);
    } else {
      match h
      case Reacts(_, ev) => ActorFaithful(c, u, w, id, ev);
      case Crashes(_, ev, k, _) => VictimFaithful(c, u, w, id, ev, k);
    }
  }

  lemma {:induction false} AllFaithful(cs: seq<Cluster>, ws: seq<World>, i: nat, id: Id)
    requires Runs(cs, AllWhole) && ExplainsAll(cs, ws) && i < |cs| && id in cs[i].nodes
    ensures id in ws[i].servers && Faithful(cs[i].nodes[id], ws[i].servers[id].log)
    decreases i
  {
    hide Explains, Advances, Inv, Grows, Reachable, Faithful;
    assert Explains(cs[i], ws[i]);
    MirrorOf(cs[i], ws[i], id);
    if i == 0 {
      StartFaithful(cs[0], id, ws[0].servers[id].log);
    } else {
      var u, w := ws[i - 1], ws[i];
      assert Explains(cs[i - 1], u);
      ExplainsReachable(cs[i - 1], u);
      ExplainsReachable(cs[i], w);
      ReachableInv(u);
      ReachableInv(w);
      ReachGrows(u, w);
      forall x | x in cs[i - 1].nodes ensures x in u.servers && Faithful(cs[i - 1].nodes[x], u.servers[x].log) {
        AllFaithful(cs, ws, i - 1, x);
      }
      assert AdvanceAt(cs, i, AllWhole);
      StepFaithful(cs[i - 1], cs[i], u, w, id);
    }
  }

  lemma StartFaithful(c: Cluster, id: Id, full: seq<Entry>)
    requires Start(c) && id in c.nodes
    ensures Faithful(c.nodes[id], full)
  {
    assert StartsBlank(c, id);
    assert full[..0] == [];
  }

  /** Worlds that explain two moments, and whose logs the states are the folds of. */
  lemma TwoStates(cs: seq<Cluster>, i: nat, j: nat, a: Id, b: Id) returns (u: World, w: World)
    requires Runs(cs, AllWhole) && i <= j < |cs| && a in cs[i].nodes && b in cs[j].nodes
    ensures Inv(u) && Inv(w) && Grows(u, w) && a in u.servers && b in w.servers
    ensures Mirrors(a, cs[i].nodes[a], u.servers[a]) && Mirrors(b, cs[j].nodes[b], w.servers[b])
    ensures Faithful(cs[i].nodes[a], u.servers[a].log) && Faithful(cs[j].nodes[b], w.servers[b].log)
  {
    hide Explains, Runs, Inv, Grows, Reachable, Mirrors, Faithful;
    RunsWider(cs, AllWhole, LogsWhole);
    var ws := ExecutionExplained(cs);
    u, w := ws[i], ws[j];
    assert Explains(cs[i], u) && Explains(cs[j], w);
    ExplainsReachable(cs[i], u);
    ExplainsReachable(cs[j], w);
    ReachableInv(u);
    ReachableInv(w);
    ReachGrows(u, w);
    MirrorOf(cs[i], u, a);
    MirrorOf(cs[j], w, b);
    AllFaithful(cs, ws, i, a);
    AllFaithful(cs, ws, j, b);
  }

  // ---------------------------------------------------------------- the theorems

  /** Nodes that have applied equally much, at any two moments, are in the same state. */
  lemma SameAppliedSameState(cs: seq<Cluster>, i: nat, j: nat, a: Id, b: Id)
    requires Runs(cs, AllWhole) && i <= j < |cs| && a in cs[i].nodes && b in cs[j].nodes
    requires cs[i].nodes[a].applied == cs[j].nodes[b].applied
    ensures cs[i].nodes[a].app == cs[j].nodes[b].app
  {
    hide Runs, Inv, Grows, Durable, Offset;
    var u, w := TwoStates(cs, i, j, a, b);
    var n := cs[i].nodes[a].applied;
    var s, t := u.servers[a].log[..n], w.servers[b].log[..n];
    forall k | 0 <= k < n ensures s[k] == t[k] { CommittedAgree(u, w, a, b, k + 1); }
    assert s == t;
  }

  /** A node's state is the fold of `ApplyCommand` over the entries it has applied, of the full log
      whose part after the snapshot point its memory and its store hold. */
  lemma StateIsFold(cs: seq<Cluster>, i: nat, id: Id) returns (full: seq<Entry>)
    requires Runs(cs, AllWhole) && i < |cs| && id in cs[i].nodes
    ensures var n := cs[i].nodes[id];
            && n.applied <= |full| && n.app == Fold(full[..n.applied])
            && Offset(n.log, n.snapIndex, n.snapTerm, full) && StoresLog(n.db.log, n.snapIndex, full)
  {
    hide Runs, Inv, Grows;
    var u, w := TwoStates(cs, i, i, id, id);
    full := w.servers[id].log;
  }

  /** A node holds at every path what tracing the entries it has applied finds there, and if these
      bring no block twice, no two of its files share one. */
  lemma FilesAreTraced(cs: seq<Cluster>, i: nat, id: Id) returns (full: seq<Entry>)
    requires Runs(cs, AllWhole) && i < |cs| && id in cs[i].nodes
    ensures var n := cs[i].nodes[id];
            && n.applied <= |full| && Offset(n.log, n.snapIndex, n.snapTerm, full)
            && (forall p :: FileIn(n.app, p) == FileAt(CommandsOf(full[..n.applied]), p))
            && (BroughtOnce(CommandsOf(full[..n.applied])) ==> OneOwner(n.app))
  {
    hide Runs, Offset, StoresLog, Fold;
    full := StateIsFold(cs, i, id);
    var n := cs[i].nodes[id];
    var done := CommandsOf(full[..n.applied]);
    FoldPlays(full[..n.applied]);
    forall p ensures FileIn(n.app, p) == FileAt(done, p) { PlayedTraced(done, p); }
    if BroughtOnce(done) { BlocksOwnedOnce(done); }
  }

  /** Starting up again from the store and applying up to the same index gives back term, vote, log
      and state. */
  lemma RestartReplays(cs: seq<Cluster>, i: nat, id: Id)
    requires Runs(cs, AllWhole) && i < |cs| && id in cs[i].nodes
    ensures var n := cs[i].nodes[id];
            var b := Boot(cs[i].cfg, id, n.db);
            && b.term == n.term && b.votedFor == n.votedFor && b.log == n.log && b.snapIndex == n.snapIndex
            && ApplyLogs(b.(commit := n.applied)).node.app == n.app
  {
    hide Runs, Inv, Grows, Faithful;
    var u, w := TwoStates(cs, i, i, id, id);
    ReplayRestores(cs[i].cfg, cs[i].nodes[id], w.servers[id].log);
  }

  lemma ReplayRestores(cfg: ClusterConfiguration, n: Node, full: seq<Entry>)
    requires Tracks(n, full) && Faithful(n, full)
    ensures var b := Boot(cfg, n.id, n.db);
            && b.term == n.term && b.votedFor == n.votedFor && b.log == n.log && b.snapIndex == n.snapIndex
            && ApplyLogs(b.(commit := n.applied)).node.app == n.app
  {
    hide ApplyLogs, Fold, StoresLog, Replay;
    var b := Boot(cfg, n.id, n.db);
    BootRecovers(cfg, n.id, n.db, Shadow(n, full), n.snapIndex);
    assert Tracks(b, full);
    assert forall j :: 0 <= j < |b.log| ==> b.log[j] == n.log[j];
    var b1 := b.(commit := n.applied);
    ApplyLogsTracks(b1, full);
    MirrorKnown(n.id, b1, Shadow(b1, full));
    ApplyLogsLog(b1);
    AppliedFaithful(b1, ApplyLogs(b1), full, full);
  }
}
