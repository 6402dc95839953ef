/**
The two places where a crash leaves something half done, and what comes of it: a
snapshot without its data spoils the state, and a truncation with some deletes
missing spoils the log, though not before the restart after the next.
*/
module RaftHazards {
  import opened Options
  import opened Quorum
  import opened Master
  import opened RaftProtocol
  import opened RaftNode
  import opened RaftStorage
  import opened RaftReplication
  import opened RaftReplies
  import opened RaftCrash
  import opened RaftFollowers
  import opened RaftState

  // ---------------------------------------------------------------- half a snapshot

  /** The state a start-up finds if snapshot metadata, but no new data, was saved. */
  function StaleState(db: Store): MasterState {
    if db.data.Some? then db.data.value else EMPTY
  }

  /** After a crash between the two halves the server believes it has applied
      everything up to the new snapshot point; its state is right exactly if the data
      of the previous snapshot already was the present state. */
  lemma HalfSnapshot(cfg: ClusterConfiguration, n: Node, full: seq<Entry>)
    requires Tracks(n, full) && Faithful(n, full)
    ensures AppliedKnown(n)
    ensures var b := Boot(cfg, n.id, ApplyWrites(n.db, CreateSnapshot(n).writes[..1]));
            && b.applied == b.commit == n.applied
            && (b.app == Fold(full[..b.applied]) <==> StaleState(n.db) == n.app)
  {
    OffsetAt(n.log, n.snapIndex, n.snapTerm, full, n.applied);
    var ws := CreateSnapshot(n).writes;
    FirstOf(ws);
    WritesOne(n.db, ws[0]);
  }

  /** A server that never took a snapshot and crashes within its first one comes
      back empty, at the index it had applied. */
  lemma FirstSnapshotLost(cfg: ClusterConfiguration, n: Node, full: seq<Entry>)
    requires Tracks(n, full) && Faithful(n, full) && n.db.data == None && n.app != EMPTY
    ensures AppliedKnown(n)
    ensures var b := Boot(cfg, n.id, ApplyWrites(n.db, CreateSnapshot(n).writes[..1]));
            b.app == EMPTY && b.applied == n.applied && b.app != Fold(full[..b.applied])
  {
    HalfSnapshot(cfg, n, full);
    var ws := CreateSnapshot(n).writes;
    FirstOf(ws);
    WritesOne(n.db, ws[0]);
  }

  // ---------------------------------------------------------------- half a truncation

  /** The store after the first `j` deletes of a truncation after index `cut`. */
  function Cut(m: map<nat, Entry>, cut: nat, j: nat): map<nat, Entry> {
    m - set i | i in m && cut < i <= cut + j
  }

  lemma {:induction false} DropsPrefix(db: Store, m: map<nat, Entry>, cut: nat, top: nat, j: nat)
    requires forall i: nat :: cut < i <= top ==> i in m
    requires cut + j <= top
    ensures j <= |Drops(m, cut + 1)|
    ensures ApplyWrites(db, Drops(m, cut + 1)[..j]) == db.(log := Cut(db.log, cut, j))
    decreases j
  {
    var ws := Drops(m, cut + 1);
    if j == 0 {
      assert ws[..0] == [];
      assert Cut(db.log, cut, 0) == db.log;
    } else {
      var db1 := ApplyWrite(db, DropEntry(cut + 1));
      DropsPrefix(db1, m, cut + 1, top, j - 1);
      assert ws[..j] == [DropEntry(cut + 1)] + Drops(m, cut + 2)[..j - 1];
      WritesOne(db, DropEntry(cut + 1));
      WritesConcat(db, [DropEntry(cut + 1)], Drops(m, cut + 2)[..j - 1]);
      assert Cut(db1.log, cut + 1, j - 1) == Cut(db.log, cut, j);
    }
  }

  lemma CutStores(m: map<nat, Entry>, k: nat, full: seq<Entry>, cut: nat, j: nat)
    requires StoresLog(m, k, full) && k <= cut && cut + j <= |full|
    ensures StoresLog(Cut(m, cut, j), k, full[..cut]) <==> cut + j == |full|
  {
    if cut + j < |full| { assert |full| in Cut(m, cut, j); }
  }

  lemma {:induction false} LoadUpTo(m: map<nat, Entry>, k: nat, log: seq<Entry>)
    requires k <= |log| && (forall i: nat :: k < i <= |log| ==> i in m && m[i] == log[i - 1]) && |log| + 1 !in m
    ensures LoadEntries(m, k + 1) == log[k..]
    decreases |log| - k
  {
    if k < |log| {
      LoadUpTo(m, k + 1, log);
      assert log[k..] == [log[k]] + log[k + 1..];
    }
  }

  /** What a restart loads after `j` deletes of a truncation after `cut` and after `es`
      was then saved in the place of what seemed to be gone. */
  function Reloaded(full: seq<Entry>, cut: nat, j: nat, es: seq<Entry>): seq<Entry>
    requires cut + j <= |full|
  {
    full[..cut] + es + if j <= |es| && cut + |es| <= |full| then full[cut + |es|..] else []
  }

  /** Old entries come back behind the new ones. */
  lemma Resurrection(m: map<nat, Entry>, k: nat, full: seq<Entry>, cut: nat, j: nat, es: seq<Entry>)
    requires StoresLog(m, k, full) && k <= cut && 0 < j && cut + j <= |full|
    ensures LoadEntries(Cut(m, cut, j) + Numbered(es, cut + 1), k + 1) == Reloaded(full, cut, j, es)[k..]
  {
    LoadUpTo(Cut(m, cut, j) + Numbered(es, cut + 1), k, Reloaded(full, cut, j, es));
  }

  /** The restart is right exactly if the new entries leave a gap before the old ones or cover them all. */
  lemma ResurrectionFree(full: seq<Entry>, cut: nat, j: nat, es: seq<Entry>)
    requires cut + j <= |full|
    ensures Reloaded(full, cut, j, es) == full[..cut] + es <==> |es| < j || cut + |es| >= |full|
  {
    if j <= |es| && cut + |es| < |full| { assert |Reloaded(full, cut, j, es)| == |full|; }
  }

  lemma RestartAtCut(cfg: ClusterConfiguration, n: Node, full: seq<Entry>, cut: nat, j: nat)
    requires Tracks(n, full) && n.snapIndex <= cut && 0 < j && cut + j <= |full|
    ensures var n1 := Boot(cfg, n.id, n.db.(log := Cut(n.db.log, cut, j)));
            Offset(n1.log, n.snapIndex, n.snapTerm, full[..cut]) && n1.LastIndex() == cut
  {
    LoadUpTo(Cut(n.db.log, cut, j), n.snapIndex, full[..cut]);
    if n.snapIndex > 0 { assert full[..cut][n.snapIndex - 1] == full[n.snapIndex - 1]; }
  }

  lemma TracksStores(n: Node, full: seq<Entry>)
    requires Tracks(n, full)
    ensures StoresLog(n.db.log, n.snapIndex, full)
  {
  }

  lemma TracksMeta(n: Node, full: seq<Entry>)
    requires Tracks(n, full)
    ensures n.HasLog() && MetaOf(n.db) == SnapshotMeta(n.snapIndex, n.snapTerm) && n.snapIndex <= |full|
  {
  }

  // ---------------------------------------------------------------- a crash within a message

  /** Where message `m` makes `n` cut its log: the index of the last entry that stays. */
  function CutOf(n: Node, m: Message): nat
    requires n.HasLog() && m.Append? && PrevMatches(n, m)
  {
    m.prevIndex + Agreeing(n.log, m.prevIndex - n.snapIndex + 1, m.entries)
  }

  /** The entries of `m` that are new to `n`. */
  function NewOf(n: Node, m: Message): seq<Entry>
    requires n.HasLog() && m.Append? && PrevMatches(n, m)
  {
    m.entries[Agreeing(n.log, m.prevIndex - n.snapIndex + 1, m.entries)..]
  }

  /** The message is accepted and cuts off at least one entry. */
  predicate Truncates(n: Node, m: Message) {
    && n.HasLog() && m.Append? && m.term >= n.term && PrevMatches(n, m)
    && NewOf(n, m) != [] && CutOf(n, m) < n.LastIndex()
  }

  /** How many writes come before the deletes: the new term and the cleared vote, if any. */
  function Before(n: Node, m: Message): nat
    requires m.Append?
  {
    |TermWrites(n.term, m.term)|
  }

  lemma StepDownTracks(n: Node, t: nat, full: seq<Entry>)
    requires Tracks(n, full)
    ensures var n1 := StepDown(n, t).node;
            && Tracks(n1, full) && n1.log == n.log && n1.snapIndex == n.snapIndex && n1.snapTerm == n.snapTerm
            && n1.id == n.id && n1.db.log == n.db.log && n1.term == if t > n.term then t else n.term
  {
    if t > n.term { WritesTwo(n.db, PutTerm(t), PutVote(None)); } else { NoWrites(n.db); }
  }

  lemma {:induction false} DropCount(m: map<nat, Entry>, start: nat, top: nat)
    requires start <= top + 1 && (forall i: nat :: start <= i <= top ==> i in m) && top + 1 !in m
    ensures |Drops(m, start)| == top + 1 - start
    decreases top + 1 - start
  {
    if start <= top { DropCount(m, start + 1, top); }
  }

  /** The writes of an accepted message that brings something new. */
  lemma AcceptedWrites(n: Node, m: Message)
    requires n.HasLog() && m.Append? && m.term >= n.term && PrevMatches(n, m) && NewOf(n, m) != []
    ensures HandleAppend(n, m).writes == TermWrites(n.term, m.term) + SaveAfter(n, CutOf(n, m), NewOf(n, m))
  {
    hide ApplyWrites, Agreeing, SaveAfter, Numbered, AcceptAppend, AdoptWrites;
    var e := StepDown(n, m.term);
    StepDownLogged(n, m.term);
    AcceptLogged(n, e, m);
    AdoptWritesSplit(e.node, m.prevIndex, m.entries, Agreeing(n.log, m.prevIndex - n.snapIndex + 1, m.entries));
    SameSave(n, m.term, CutOf(n, m), NewOf(n, m));
  }

  lemma SameSave(n: Node, t: nat, cut: nat, es: seq<Entry>)
    requires n.HasLog()
    ensures StepDown(n, t).node.HasLog() && SaveAfter(n, cut, es) == SaveAfter(StepDown(n, t).node, cut, es)
  {
    SteppedStore(n, t);
  }

  lemma SteppedStore(n: Node, t: nat)
    ensures StepDown(n, t).node.db.log == n.db.log
  {
    if t > n.term { WritesTwo(n.db, PutTerm(t), PutVote(None)); } else { NoWrites(n.db); }
  }

  /** The writes of a truncating message: term and vote, the deletes, the batch. */
  lemma TruncatingWrites(n: Node, full: seq<Entry>, m: Message)
    requires Tracks(n, full) && Truncates(n, m)
    ensures var drops := Drops(n.db.log, CutOf(n, m) + 1);
            && n.LastIndex() == |full| && |drops| == |full| - CutOf(n, m)
            && HandleAppend(n, m).writes == TermWrites(n.term, m.term) + (drops + [PutEntries(Numbered(NewOf(n, m), CutOf(n, m) + 1))])
  {
    hide ApplyWrites, Drops, Agreeing, Durable, Numbered, HandleAppend, TermWrites;
    OffsetLast(n.log, n.snapIndex, n.snapTerm, full);
    AcceptedWrites(n, m);
    TracksStores(n, full);
    DropCount(n.db.log, CutOf(n, m) + 1, |full|);
  }

  /** A crash after `j` of the deletes leaves exactly the store with those entries missing, and it
      tears the log exactly if some but not all of the deletes are done. */
  lemma TornStore(n: Node, full: seq<Entry>, m: Message, j: nat)
    requires Tracks(n, full) && Truncates(n, m) && 0 < j <= n.LastIndex() - CutOf(n, m)
    ensures var ws, k := HandleAppend(n, m).writes, Before(n, m) + j;
            && k < |ws|
            && ApplyWrites(n.db, ws[..k]) == StepDown(n, m.term).node.db.(log := Cut(n.db.log, CutOf(n, m), j))
            && (CutSafe(ws, k) <==> j == n.LastIndex() - CutOf(n, m))
  {
    hide Drops, Agreeing, Durable, Numbered, HandleAppend, TermWrites, ApplyWrites;
    TruncatingWrites(n, full, m);
    StepDownTracks(n, m.term, full);
    var cut := CutOf(n, m);
    var drops, batch := Drops(n.db.log, cut + 1), [PutEntries(Numbered(NewOf(n, m), cut + 1))];
    var head := TermWrites(n.term, m.term);
    var ws, k := HandleAppend(n, m).writes, Before(n, m) + j;
    assert ws[..k] == head + drops[..j];
    WritesConcat(n.db, head, drops[..j]);
    TracksStores(n, full);
    DropsPrefix(ApplyWrites(n.db, head), n.db.log, cut, |full|, j);
    DropsAreDrops(n.db.log, cut + 1, j - 1);
    assert ws[k - 1] == drops[j - 1];
    assert ws[k] == (drops + batch)[j];
    if j < |drops| { DropsAreDrops(n.db.log, cut + 1, j); }
  }

  // ---------------------------------------------------------------- where crashes leave something half done

  lemma PlainSafe(ws: seq<Write>, k: nat)
    requires Plain(ws) && k <= |ws|
    ensures !TearsLog(ws, k) && !HalvesSnapshot(ws, k)
  {
    if 0 < k < |ws| { assert ws[k - 1] in ws; }
  }

  lemma AppendPlain(n: Node, full: seq<Entry>, m: Message)
    requires Tracks(n, full) && n.HasLog() && m.Append? && !Truncates(n, m)
    ensures Plain(HandleAppend(n, m).writes)
  {
    hide ApplyWrites, Agreeing, Numbered, Drops, AdoptWrites, Tracks, AcceptAppend, PrevMatches, TermWrites, StepDown;
    TermPlain(n.term, m.term);
    if m.term < n.term || !PrevMatches(n, m) {
      RefusedWrites(n, m);
    } else if NewOf(n, m) == [] {
      NothingNew(n, m);
    } else {
      AcceptedWrites(n, m);
    }
  }

  lemma RefusedWrites(n: Node, m: Message)
    requires n.HasLog() && m.Append? && (m.term < n.term || !PrevMatches(n, m))
    ensures HandleAppend(n, m).writes == TermWrites(n.term, m.term)
  {
    hide ApplyWrites, AcceptAppend;
  }

  lemma NothingNew(n: Node, m: Message)
    requires n.HasLog() && m.Append? && m.term >= n.term && PrevMatches(n, m) && NewOf(n, m) == []
    ensures HandleAppend(n, m).writes == TermWrites(n.term, m.term)
  {
    hide ApplyWrites, Agreeing, SaveAfter, Numbered, AcceptAppend, AdoptWrites;
    var e := StepDown(n, m.term);
    StepDownLogged(n, m.term);
    AcceptLogged(n, e, m);
    AdoptWritesSplit(e.node, m.prevIndex, m.entries, Agreeing(n.log, m.prevIndex - n.snapIndex + 1, m.entries));
  }

  /** Within a message, a crash tears the log if and only if some but not all deletes are done. */
  lemma TearsInAppend(n: Node, full: seq<Entry>, m: Message, k: nat)
    requires Tracks(n, full) && n.HasLog() && m.Append? && k <= |HandleAppend(n, m).writes|
    ensures TearsLog(HandleAppend(n, m).writes, k) <==>
            Truncates(n, m) && Before(n, m) < k < Before(n, m) + n.LastIndex() - CutOf(n, m)
  {
    hide ApplyWrites, Agreeing, Numbered, Drops, HandleAppend, Tracks, Cut;
    if Truncates(n, m) {
      TruncatingWrites(n, full, m);
      if Before(n, m) < k <= Before(n, m) + n.LastIndex() - CutOf(n, m) {
        TornStore(n, full, m, k - Before(n, m));
      } else if 0 < k <= Before(n, m) {
        assert HandleAppend(n, m).writes[k - 1] == TermWrites(n.term, m.term)[k - 1];
      }
    } else {
      AppendPlain(n, full, m);
      PlainSafe(HandleAppend(n, m).writes, k);
    }
  }

  /** Over all events, a crash leaves a snapshot half done if and only if it follows the first write of
      one, and tears the log if and only if it lies between two deletes. */
  lemma HalfDone(cfg: ClusterConfiguration, n: Node, full: seq<Entry>, ev: Event, k: nat)
    requires Tracks(n, full) && n.HasLog() && k <= |React(cfg, n, ev).writes|
    ensures HalvesSnapshot(React(cfg, n, ev).writes, k) <==> ev.SnapshotTick? && SnapshotDue(n) && AppliedKnown(n) && k == 1
    ensures TearsLog(React(cfg, n, ev).writes, k) <==>
            ev.Deliver? && Truncates(n, ev.msg) && Before(n, ev.msg) < k < Before(n, ev.msg) + n.LastIndex() - CutOf(n, ev.msg)
  {
    hide HandleAppend, HandleRequestVote, HandleVoteReply, HandleAppendReply, StartElection, HandleClients, ApplyLogs, ApplyWrites, Tracks, Truncates;
    match ev
    case ElectionTimeout =>
      ElectionPlain(cfg, n);
      if n.role != Leader { PlainSafe(StartElection(cfg, n).writes, k); }
    case HeartbeatTick =>
    case ApplyTick => ApplyLogsQuiet(n);
    case SnapshotTick =>
      if SnapshotDue(n) && AppliedKnown(n) { SnapshotWrites(n, k); }
    case Deliver(m) =>
      if m.Append? {
        TearsInAppend(n, full, m, k);
        AppendStateless(n, m);
      } else {
        NotTruncating(n, m);
        DeliverPlain(cfg, n, m);
        PlainSafe(React(cfg, n, ev).writes, k);
      }
    case Clients(reqs) =>
      ClientsPlain(cfg, n, reqs);
      PlainSafe(HandleClients(cfg, n, reqs).writes, k);
  }

  lemma NotTruncating(n: Node, m: Message)
    requires !m.Append?
    ensures !Truncates(n, m)
  {
  }

  lemma SnapshotWrites(n: Node, k: nat)
    requires AppliedKnown(n) && k <= |CreateSnapshot(n).writes|
    ensures HalvesSnapshot(CreateSnapshot(n).writes, k) <==> k == 1
    ensures !TearsLog(CreateSnapshot(n).writes, k)
  {
    hide ApplyWrites;
    var ws := CreateSnapshot(n).writes;
    assert |ws| >= 2 && ws[0].PutMeta? && ws[1].PutData?;
    assert forall i :: 1 < i < |ws| ==> ws[i].CompactEntry?;
  }

  /** So the store holds the truncated log if and only if the crash does not tear it. */
  lemma HalfTruncation(n: Node, full: seq<Entry>, m: Message, j: nat)
    requires Tracks(n, full) && Truncates(n, m) && 0 < j <= n.LastIndex() - CutOf(n, m)
    ensures CutOf(n, m) <= |full| && Before(n, m) + j <= |HandleAppend(n, m).writes|
    ensures var ws, k := HandleAppend(n, m).writes, Before(n, m) + j;
            StoresLog(ApplyWrites(n.db, ws[..k]).log, n.snapIndex, full[..CutOf(n, m)]) <==> CutSafe(ws, k)
  {
    hide Drops, Agreeing, Durable, HandleAppend, ApplyWrites, Cut, StoresLog, CutSafe;
    TornStore(n, full, m, j);
    TracksStores(n, full);
    OffsetLast(n.log, n.snapIndex, n.snapTerm, full);
    CutStores(n.db.log, n.snapIndex, full, CutOf(n, m), j);
  }

  /** The node that comes back after a crash `j` deletes into the message. */
  function Torn(cfg: ClusterConfiguration, n: Node, m: Message, j: nat): Node
    requires Truncates(n, m) && Before(n, m) + j <= |HandleAppend(n, m).writes|
  {
    Boot(cfg, n.id, ApplyWrites(n.db, HandleAppend(n, m).writes[..Before(n, m) + j]))
  }

  lemma {:induction false} AgreeingShorter(log: seq<Entry>, p: nat, es: seq<Entry>)
    requires p <= |log|
    ensures Agreeing(log[..p + Agreeing(log, p, es)], p, es) == Agreeing(log, p, es)
    decreases |es|
  {
    var k := Agreeing(log, p, es);
    if k > 0 {
      AgreeingShorter(log, p + 1, es[1..]);
      assert log[..p + k][p] == log[p];
    }
  }

  /** It comes back with the log cut where the message cut it ... */
  lemma TornRestart(cfg: ClusterConfiguration, n: Node, full: seq<Entry>, m: Message, j: nat)
    requires Tracks(n, full) && Truncates(n, m) && 0 < j <= n.LastIndex() - CutOf(n, m)
    ensures Before(n, m) + j <= |HandleAppend(n, m).writes|
    ensures var t := Torn(cfg, n, m, j);
            && t.log == n.log[..CutOf(n, m) - n.snapIndex + 1] && t.snapIndex == n.snapIndex && t.snapTerm == n.snapTerm
            && t.db.log == Cut(n.db.log, CutOf(n, m), j) && t.id == n.id && t.term == m.term
            && t == Boot(cfg, n.id, StepDown(n, m.term).node.db.(log := Cut(n.db.log, CutOf(n, m), j)))
  {
    hide Drops, Agreeing, Durable, HandleAppend, ApplyWrites, Boot, Cut;
    TornStore(n, full, m, j);
    StepDownTracks(n, m.term, full);
    OffsetLast(n.log, n.snapIndex, n.snapTerm, full);
    var n1 := StepDown(n, m.term).node;
    RestartAtCut(cfg, n1, full, CutOf(n, m), j);
    BootShape(cfg, n1, full, n1.db.(log := Cut(n.db.log, CutOf(n, m), j)));
    SameOffset(n.log, Torn(cfg, n, m, j).log, n.snapIndex, n.snapTerm, full, CutOf(n, m));
  }

  lemma BootShape(cfg: ClusterConfiguration, n: Node, full: seq<Entry>, db: Store)
    requires Tracks(n, full) && db == n.db.(log := db.log)
    ensures var b := Boot(cfg, n.id, db);
            b.snapIndex == n.snapIndex && b.snapTerm == n.snapTerm && b.db == db && b.id == n.id && b.term == n.term && b.role == Follower
  {
  }

  lemma SameOffset(a: seq<Entry>, b: seq<Entry>, k: nat, t: nat, full: seq<Entry>, cut: nat)
    requires Offset(a, k, t, full) && k <= cut <= |full| && Offset(b, k, t, full[..cut])
    ensures b == a[..cut - k + 1]
  {
    forall i | 0 < i < |b| ensures b[i] == a[i] { assert full[..cut][k + i - 1] == full[k + i - 1]; }
  }

  /** ... and takes the same message, delivered again, as if nothing had been lost. */
  lemma TornAgain(cfg: ClusterConfiguration, n: Node, full: seq<Entry>, m: Message, j: nat)
    requires Tracks(n, full) && Truncates(n, m) && 0 < j <= n.LastIndex() - CutOf(n, m)
    ensures Before(n, m) + j <= |HandleAppend(n, m).writes| && Torn(cfg, n, m, j).HasLog()
    ensures var r := HandleAppend(Torn(cfg, n, m, j), m).node;
            && r.log == HandleAppend(n, m).node.log
            && r.db == StepDown(n, m.term).node.db.(log := Cut(n.db.log, CutOf(n, m), j) + Numbered(NewOf(n, m), CutOf(n, m) + 1))
  {
    hide Durable, Cut, Drops, Boot, Torn, Numbered, HandleAppend, Agreeing, ApplyWrites, StepDown;
    TornRestart(cfg, n, full, m, j);
    var t := Torn(cfg, n, m, j);
    var p := m.prevIndex - n.snapIndex + 1;
    AgreeingShorter(n.log, p, m.entries);
    TornMatches(n, t, m);
    TakesAll(t, m);
    AcceptShape(n, m);
    BootKeepsStore(cfg, n.id, StepDown(n, m.term).node.db.(log := Cut(n.db.log, CutOf(n, m), j)));
    WritesOne(t.db, PutEntries(Numbered(NewOf(n, m), CutOf(n, m) + 1)));
  }

  lemma BootKeepsStore(cfg: ClusterConfiguration, id: Id, db: Store)
    ensures Boot(cfg, id, db).db == db
  {
  }

  lemma TornMatches(n: Node, t: Node, m: Message)
    requires n.HasLog() && m.Append? && PrevMatches(n, m) && t.snapIndex == n.snapIndex && t.snapTerm == n.snapTerm
    requires t.log == n.log[..CutOf(n, m) - n.snapIndex + 1]
    ensures PrevMatches(t, m) && t.HasLog()
  {
    hide Agreeing;
  }

  /** A node whose log ends where the new entries begin saves them without any delete. */
  lemma TakesAll(t: Node, m: Message)
    requires t.HasLog() && m.Append? && m.term == t.term && PrevMatches(t, m)
    requires NewOf(t, m) != [] && CutOf(t, m) == t.LastIndex()
    ensures HandleAppend(t, m).writes == [PutEntries(Numbered(NewOf(t, m), CutOf(t, m) + 1))]
    ensures HandleAppend(t, m).node.db == ApplyWrites(t.db, HandleAppend(t, m).writes)
    ensures HandleAppend(t, m).node.log == t.log + NewOf(t, m)
  {
    hide Drops, Agreeing, Numbered, ApplyWrites, HandleAppend;
    AcceptedWrites(t, m);
    AcceptShape(t, m);
    AppendLogged(t, m);
  }

  /** After a second restart the entries that were cut off are back, behind the new ones; the log is
      right exactly if the new entries leave a gap before the old ones or cover them all. */
  lemma TornComesBack(cfg: ClusterConfiguration, n: Node, full: seq<Entry>, m: Message, j: nat)
    requires Tracks(n, full) && Truncates(n, m) && 0 < j <= n.LastIndex() - CutOf(n, m)
    ensures n.LastIndex() == |full|
    ensures Before(n, m) + j <= |HandleAppend(n, m).writes| && Torn(cfg, n, m, j).HasLog()
    ensures var b := Boot(cfg, n.id, HandleAppend(Torn(cfg, n, m, j), m).node.db);
            var good := HandleAppend(n, m).node.log;
            && b.log == [Entry(n.snapTerm, NoOp)] + Reloaded(full, CutOf(n, m), j, NewOf(n, m))[n.snapIndex..]
            && b.id == n.id && b.term == m.term
            && (b.log == good <==> |NewOf(n, m)| < j || CutOf(n, m) + |NewOf(n, m)| >= |full|)
  {
    hide Durable, Cut, Drops, Boot, Torn, Numbered, HandleAppend, Agreeing, Reloaded;
    TornAgain(cfg, n, full, m, j);
    StepDownTracks(n, m.term, full);
    OffsetLast(n.log, n.snapIndex, n.snapTerm, full);
    var n1, es, cut := StepDown(n, m.term).node, NewOf(n, m), CutOf(n, m);
    LoadedBack(cfg, n1, full, cut, j, es);
    AcceptShape(n, m);
    ResurrectionFree(full, cut, j, es);
    assert full[..cut] <= Reloaded(full, cut, j, es) by { ReloadedHead(full, cut, j, es); }
    GoodLog(n.log, n.snapIndex, n.snapTerm, full, cut, es, Reloaded(full, cut, j, es));
  }

  lemma ReloadedHead(full: seq<Entry>, cut: nat, j: nat, es: seq<Entry>)
    requires cut + j <= |full|
    ensures full[..cut] <= Reloaded(full, cut, j, es)
  {
  }

  lemma LoadedBack(cfg: ClusterConfiguration, n: Node, full: seq<Entry>, cut: nat, j: nat, es: seq<Entry>)
    requires Tracks(n, full) && n.snapIndex <= cut && 0 < j && cut + j <= |full|
    ensures var b := Boot(cfg, n.id, n.db.(log := Cut(n.db.log, cut, j) + Numbered(es, cut + 1)));
            && b.log == [Entry(n.snapTerm, NoOp)] + Reloaded(full, cut, j, es)[n.snapIndex..]
            && b.term == n.term && b.id == n.id
  {
    hide Cut, Numbered, LoadEntries, Reloaded, StoresLog;
    TracksStores(n, full);
    TracksMeta(n, full);
    Resurrection(n.db.log, n.snapIndex, full, cut, j, es);
  }

  /** Which log comes back is decided by the part after the snapshot point. */
  lemma GoodLog(log: seq<Entry>, k: nat, t: nat, full: seq<Entry>, cut: nat, es: seq<Entry>, back: seq<Entry>)
    requires Offset(log, k, t, full) && k <= cut <= |full| && full[..cut] <= back
    ensures [Entry(t, NoOp)] + back[k..] == log[..cut - k + 1] + es <==> back == full[..cut] + es
  {
    var head := log[..cut - k + 1];
    assert head == [Entry(t, NoOp)] + full[..cut][k..];
    assert back == full[..cut] + back[cut..];
    assert back[k..] == full[..cut][k..] + back[cut..];
    assert [Entry(t, NoOp)] + back[k..] == head + back[cut..];
    if head + back[cut..] == head + es { assert (head + back[cut..])[|head|..] == back[cut..]; assert (head + es)[|head|..] == es; }
  }

  /** A vote request of a higher term is decided by the last entries of the logs. */
  lemma VoteDecided(n: Node, v: Message)
    requires n.HasLog() && v.RequestVote? && v.term > n.term && v.lastTerm != n.LastTerm()
    ensures HandleRequestVote(n, v).sent == {Packet(v.candidate, VoteReply(v.term, v.lastTerm > n.LastTerm(), n.id))}
  {
    hide ApplyWrites;
  }

  /** Before the second restart the node refuses its vote to a candidate whose log is older than
      the entries it took; after it, the same node grants it. */
  lemma MisledVoter(cfg: ClusterConfiguration, n: Node, full: seq<Entry>, m: Message, j: nat, v: Message)
    requires Tracks(n, full) && Truncates(n, m) && 0 < j <= |NewOf(n, m)| && CutOf(n, m) + |NewOf(n, m)| < n.LastIndex()
    requires v.RequestVote? && v.term > m.term && LastTerm(full) < v.lastTerm < NewOf(n, m)[|NewOf(n, m)| - 1].term
    ensures Before(n, m) + j <= |HandleAppend(n, m).writes| && Torn(cfg, n, m, j).HasLog()
    ensures var r := HandleAppend(Torn(cfg, n, m, j), m).node;
            var b := Boot(cfg, n.id, r.db);
            && r.HasLog() && b.HasLog()
            && HandleRequestVote(r, v).sent == {Packet(v.candidate, VoteReply(v.term, false, n.id))}
            && HandleRequestVote(b, v).sent == {Packet(v.candidate, VoteReply(v.term, true, n.id))}
  {
    hide Boot, Torn, HandleAppend, HandleRequestVote, Tracks, Reloaded, Agreeing, Numbered, StepDown;
    TracksMeta(n, full);
    TornComesBack(cfg, n, full, m, j);
    TornAgain(cfg, n, full, m, j);
    TornRestart(cfg, n, full, m, j);
    var t, es := Torn(cfg, n, m, j), NewOf(n, m);
    var r := HandleAppend(t, m).node;
    var b := Boot(cfg, n.id, r.db);
    AcceptShape(n, m);
    assert r.LastTerm() == es[|es| - 1].term;
    assert r.term == m.term && r.id == n.id by { TornMatches(n, t, m); SameTerm(t, m); }
    VoteDecided(r, v);
    assert b.LastTerm() == LastTerm(full) by { LastBack(full, CutOf(n, m), j, es, n.snapIndex); }
    VoteDecided(b, v);
  }

  lemma SameTerm(t: Node, m: Message)
    requires t.HasLog() && m.Append? && m.term == t.term && PrevMatches(t, m)
    ensures HandleAppend(t, m).node.term == t.term && HandleAppend(t, m).node.id == t.id
  {
    hide ApplyLogs, ApplyWrites, Merge, AdoptWrites;
    var e := StepDown(t, m.term);
    var a := Then(e, Adopt(e.node, m.prevIndex, m.entries));
    ApplyLogsKeep(a.node.(commit := Min(m.leaderCommit, a.node.LastIndex())));
  }

  lemma LastBack(full: seq<Entry>, cut: nat, j: nat, es: seq<Entry>, k: nat)
    requires 0 < j <= |es| && cut + |es| < |full| && k <= cut
    ensures var r := Reloaded(full, cut, j, es); |r| == |full| && r[k..] != [] && r[k..][|r| - k - 1] == full[|full| - 1]
  {
  }
}
