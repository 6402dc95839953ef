/**
An execution that goes wrong: a crash that leaves a snapshot half done, after
which equal applied indices no longer mean equal states.
*/
module RaftMishaps {
  import opened Options
  import opened Quorum
  import opened Master
  import opened RaftProtocol
  import opened RaftInvariant
  import opened RaftNode
  import opened RaftStorage
  import opened RaftReplies
  import opened RaftCrash
  import opened RaftCluster
  import opened RaftMoves
  import opened RaftState
  import opened RaftHazards

  /** What gets out when a node stops right away: nothing, and whoever waits is lost. */
  function Silence(n: Node): Outcome { Outcome({}, {}, {}, false, n.pending.Values) }

  lemma SilenceIsPartial(n: Node, ev: Event, e: Effect, k: nat)
    requires n.HasLog() && k < |e.writes| && !ev.Clients?
    ensures Partial(n, ev, e, k, Silence(n))
  {
  }

  // ---------------------------------------------------------------- half a snapshot

  /** A node that crashes between the two halves of a snapshot comes back at the same applied index, and
      in the same state if and only if the older snapshot data was that state. */
  lemma HalfSnapshotBreaks(cs: seq<Cluster>, i: nat, id: Id, c': Cluster, o: Outcome)
    requires Runs(cs, AllWhole) && i < |cs| && Happens(cs[i], c', Crashes(id, SnapshotTick, 1, o))
    ensures id in c'.nodes
    ensures var n, b := cs[i].nodes[id], c'.nodes[id];
            b.applied == n.applied && (b.app == n.app <==> StaleState(n.db) == n.app)
  {
    hide Runs, Inv, Grows, Partial, Fresh, ApplyWrites, Boot, CreateSnapshot;
    var u, w := TwoStates(cs, i, i, id, id);
    HalfSnapshot(cs[i].cfg, cs[i].nodes[id], w.servers[id].log);
  }

  const ALONE := Simple(map[0 := "a"], 0)

  const CREATE := MasterCmd(CreateFile("f", 0, 0))

  /** Enough requests to make a snapshot due. */
  function Batch(n: nat): seq<ClientRequest> { seq(n, i requires 0 <= i < n => ClientRequest(CREATE, i)) }

  function Blank(cfg: ClusterConfiguration, ids: set<Id>): Cluster {
    Cluster(cfg, map id | id in ids :: Boot(cfg, id, BLANK), {}, Ledger(map[], map[], {}, {}, {}))
  }

  lemma BlankStarts(cfg: ClusterConfiguration, ids: set<Id>)
    requires Populated(cfg) && ids == AllMembers(cfg)
    ensures forall scope :: Runs([Blank(cfg, ids)], scope)
  {
    hide Boot;
    var c := Blank(cfg, ids);
    forall id | id in c.nodes ensures StartsBlank(c, id) {}
  }

  lemma BootBlank(cfg: ClusterConfiguration, id: Id)
    ensures var n := Boot(cfg, id, BLANK);
            && n.id == id && n.role == Follower && n.term == 0 && n.votedFor == None && n.log == [Entry(0, NoOp)]
            && n.commit == n.applied == n.snapIndex == n.snapTerm == 0 && n.voters == {} && n.pending == map[] && n.db == BLANK
  {
    assert LoadEntries(BLANK.log, 1) == [];
  }

  lemma AlonePeers(n: Node)
    requires n.id == 0
    ensures Populated(ALONE) && AllMembers(ALONE) == {0} && Peers(ALONE, n) == {}
  {
    assert map[0 := "a"].Keys == {0};
  }

  /** The lone node takes office and commits its first entry at once. */
  lemma AloneElected(n: Node)
    requires n.id == 0 && n.role == Follower && n.log == [Entry(0, NoOp)] && n.db == BLANK
    requires n.commit == n.applied == n.snapIndex == n.term == 0 && n.pending == map[]
    ensures var n' := React(ALONE, n, ElectionTimeout).node;
            && n'.id == 0 && n'.role == Leader && |n'.log| == 2 && n'.snapIndex == 0 && n'.applied == n'.commit == 1
            && n'.db.data == None
  {
    hide ApplyLogs, Numbered, AllMembers, ApplyWrites;
    AlonePeers(n);
    var e := Campaign(n);
    WritesTwo(n.db, PutTerm(1), PutVote(Some(0)));
    var t := TakeOffice(ALONE, e.node);
    AlonePeers(t.node);
    WritesOne(e.node.db, PutEntries(Numbered([Entry(1, NoOp)], 1)));
    var m := t.node.(commit := 1);
    ApplyLogsReaches(m);
    ApplyLogsKeep(m);
    ApplyLogsQuiet(m);
  }

  lemma {:induction false} ApplyLogsReaches(n: Node)
    requires n.applied <= n.commit
    ensures ApplyLogs(n).node.applied == n.commit
    decreases n.commit - n.applied
  {
    if n.commit > n.applied { ApplyLogsReaches(ApplyOne(n).node); }
  }

  /** A leader without peers that takes `k` requests commits and applies them. */
  lemma AloneServes(n: Node, k: nat)
    requires n.id == 0 && n.role == Leader && n.HasLog() && n.applied <= n.commit <= n.LastIndex() && k > 0
    ensures var n' := React(ALONE, n, Clients(Batch(k))).node;
            && n'.HasLog() && |n'.log| == |n.log| + k && n'.snapIndex == n.snapIndex && n'.applied == n.LastIndex() + k
            && n'.log[|n'.log| - 1].command == CREATE && n'.db.data == n.db.data
  {
    hide ApplyLogs, Numbered, AllMembers, ApplyWrites;
    var e := Enqueue(n, Batch(k));
    assert Batch(k) != [];
    WritesOne(n.db, PutEntries(Numbered(EntriesOf(n.term, Batch(k)), n.LastIndex() + 1)));
    AlonePeers(e.node);
    var m := e.node.(commit := e.node.LastIndex());
    ApplyLogsReaches(m);
    ApplyLogsKeep(m);
    ApplyLogsQuiet(m);
  }

  lemma BatchFresh(g: Ledger, k: nat)
    requires g.issued == map[]
    ensures Fresh(g, Clients(Batch(k)))
  {
  }

  /** Whoever just created a file is not in the initial state. */
  lemma CreatedNotEmpty(n: Node, full: seq<Entry>)
    requires Tracks(n, full) && Faithful(n, full) && n.HasLog() && n.applied == n.LastIndex() > n.snapIndex
    requires n.log[|n.log| - 1].command == CREATE
    ensures n.app != EMPTY
  {
    OffsetLast(n.log, n.snapIndex, n.snapTerm, full);
    var k := n.applied;
    assert full[..k][..k - 1] == full[..k - 1] && full[..k][k - 1] == n.log[|n.log| - 1];
    assert "f" in n.app.files;
  }

  lemma AloneStarts() returns (c0: Cluster, c1: Cluster)
    ensures Runs([c0, c1], AllWhole) && c1.cfg == ALONE && c1.ledger.issued == map[]
    ensures 0 in c1.nodes && c1.nodes[0].id == 0 && c1.nodes[0].role == Leader && |c1.nodes[0].log| == 2
    ensures c1.nodes[0].snapIndex == 0 && c1.nodes[0].applied == c1.nodes[0].commit == 1 && c1.nodes[0].db.data == None
  {
    hide React, Boot, Runs, AllMembers;
    c0 := Blank(ALONE, {0});
    BootBlank(ALONE, 0);
    var n := Boot(ALONE, 0, BLANK);
    AlonePeers(n);
    BlankStarts(ALONE, {0});
    AloneElected(n);
    c1 := Reacted(c0, 0, ElectionTimeout);
    ReactedHappens(c0, 0, ElectionTimeout);
    RunsOn([c0], c1, AllWhole);
    assert [c0] + [c1] == [c0, c1];
  }

  /** It happens: one node, a hundred requests, a crash between the halves of its first snapshot. Before
      and after it the node has applied equally much, and its states differ. */
  lemma SnapshotMishap() returns (cs: seq<Cluster>)
    ensures Execution(cs) && |cs| == 4 && Runs(cs[..3], AllWhole)
    ensures 0 in cs[2].nodes && 0 in cs[3].nodes
    ensures cs[3].nodes[0].applied == cs[2].nodes[0].applied && cs[3].nodes[0].app != cs[2].nodes[0].app
  {
    hide React, Runs, Inv, Grows, Tracks, Fresh, Happens, Batch, Faithful;
    var c0, c1 := AloneStarts();
    var ev := Clients(Batch(100));
    var c2 := Reacted(c1, 0, ev);
    BatchFresh(c1.ledger, 100);
    ReactedHappens(c1, 0, ev);
    AloneServes(c1.nodes[0], 100);
    RunsOn([c0, c1], c2, AllWhole);
    var ds := [c0, c1] + [c2];
    var n := c2.nodes[0];
    var u, w := TwoStates(ds, 2, 2, 0, 0);
    CreatedNotEmpty(n, w.servers[0].log);
    var c3 := TornSnapshot(c2);
    HalfSnapshotBreaks(ds, 2, 0, c3, Silence(n));
    RunsWider(ds, AllWhole, LogsWhole);
    RunsOn(ds, c3, LogsWhole);
    cs := ds + [c3];
    assert cs[..3] == ds;
  }

  lemma TornSnapshot(c: Cluster) returns (c': Cluster)
    requires 0 in c.nodes && c.nodes[0].HasLog() && SnapshotDue(c.nodes[0]) && AppliedKnown(c.nodes[0])
    ensures Happens(c, c', Crashes(0, SnapshotTick, 1, Silence(c.nodes[0]))) && Advances(c, c', LogsWhole)
  {
    hide ApplyWrites, Boot, Partial;
    var n := c.nodes[0];
    var e := React(c.cfg, n, SnapshotTick);
    SilenceIsPartial(n, SnapshotTick, e, 1);
    c' := After(c, 0, SnapshotTick, Boot(c.cfg, 0, ApplyWrites(n.db, e.writes[..1])), Silence(n));
    assert Admitted(c, Crashes(0, SnapshotTick, 1, Silence(n)), LogsWhole);
  }
}
