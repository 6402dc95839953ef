/**
One Raft server as the program keeps it: a log whose slot 0 stands for the
snapshot point, a key-value store that survives crashes, and the reaction to
every event. An `Effect` lists the store writes in the order in which they
happen, so a crash can cut in after any of them.
*/
module RaftNode {
  import opened Options
  import opened Quorum
  import opened Master
  import opened RaftProtocol

  const SNAPSHOT_THRESHOLD := 100

  /** The persistent keys: term, vote, log:i, snapshot_meta, snapshot_data. */
  datatype Store = Store(
    term: nat, vote: Option<Id>, log: map<nat, Entry>,
    meta: Option<SnapshotMeta>, data: Option<MasterState>)

  datatype SnapshotMeta = SnapshotMeta(index: nat, term: nat)

  const BLANK := Store(0, None, map[], None, None)

  datatype Write =
    | PutTerm(term: nat)
    | PutVote(vote: Option<Id>)
    | PutEntries(entries: map<nat, Entry>)  // one atomic batch
    | DropEntry(index: nat)                 // one delete of a truncation
    | CompactEntry(index: nat)              // one delete behind a snapshot
    | PutMeta(meta: SnapshotMeta)
    | PutData(data: MasterState)

  function ApplyWrite(db: Store, w: Write): Store {
    match w
    case PutTerm(t) => db.(term := t)
    case PutVote(v) => db.(vote := v)
    case PutEntries(es) => db.(log := db.log + es)
    case DropEntry(i) => db.(log := db.log - {i})
    case CompactEntry(i) => db.(log := db.log - {i})
    case PutMeta(m) => db.(meta := Some(m))
    case PutData(d) => db.(data := Some(d))
  }

  function ApplyWrites(db: Store, ws: seq<Write>): Store {
    if ws == [] then db else ApplyWrite(ApplyWrites(db, ws[..|ws| - 1]), ws[|ws| - 1])
  }

  lemma NoWrites(db: Store)
    ensures ApplyWrites(db, []) == db
  {
  }

  lemma WritesOne(db: Store, a: Write)
    ensures ApplyWrites(db, [a]) == ApplyWrite(db, a)
  {
    assert [a][..0] == [];
  }

  lemma WritesTwo(db: Store, a: Write, b: Write)
    ensures ApplyWrites(db, [a, b]) == ApplyWrite(ApplyWrite(db, a), b)
  {
    assert [a, b][..1] == [a];
    WritesOne(db, a);
  }

  lemma {:induction false} WritesConcat(db: Store, a: seq<Write>, b: seq<Write>)
    ensures ApplyWrites(db, a + b) == ApplyWrites(ApplyWrites(db, a), b)
    decreases |b|
  {
    if b == [] {
      assert a + b == a;
    } else {
      var c := b[..|b| - 1];
      assert (a + b)[..|a + b| - 1] == a + c;
      WritesConcat(db, a, c);
    }
  }

  type Request = nat

  datatype Node = Node(
    id: Id, role: Role, term: nat, votedFor: Option<Id>, log: seq<Entry>,
    commit: nat, applied: nat, next: map<Id, nat>, matched: map<Id, nat>,
    snapIndex: nat, snapTerm: nat, app: MasterState, voters: set<Id>,
    pending: map<nat, Request>, db: Store)
  {
    predicate HasLog() { |log| > 0 }

    function LastIndex(): nat
      requires HasLog()
    {
      |log| - 1 + snapIndex
    }

    function LastTerm(): nat
      requires HasLog()
    {
      log[|log| - 1].term
    }
  }

  datatype Reply = Reply(request: Request, ok: bool)

  datatype Apply = Apply(index: nat, entry: Entry)

  datatype Effect = Effect(
    node: Node, writes: seq<Write>, sent: set<Packet>, applies: seq<Apply>, replies: set<Reply>)

  function Idle(n: Node): Effect { Effect(n, [], {}, [], {}) }

  /** Carry out `ws` on the store as well. */
  function Saving(n: Node, ws: seq<Write>): Effect {
    Effect(n.(db := ApplyWrites(n.db, ws)), ws, {}, [], {})
  }

  /** What `a` did before `b`. */
  function Then(a: Effect, b: Effect): Effect {
    Effect(b.node, a.writes + b.writes, a.sent + b.sent, a.applies + b.applies, a.replies + b.replies)
  }

  function Sending(e: Effect, ps: set<Packet>): Effect { e.(sent := e.sent + ps) }

  function Peers(cfg: ClusterConfiguration, n: Node): set<Id> { AllMembers(cfg) - {n.id} }

  // ---------------------------------------------------------------- start-up

  function KeysFrom(m: map<nat, Entry>, i: nat): set<nat> {
    set k | k in m && k >= i
  }

  /** The stored entries from index `i` up to the first gap. */
  function LoadEntries(m: map<nat, Entry>, i: nat): seq<Entry>
    decreases KeysFrom(m, i)
  {
    if i in m then
      assert i in KeysFrom(m, i) && i !in KeysFrom(m, i + 1);
      [m[i]] + LoadEntries(m, i + 1)
    else []
  }

  function MetaOf(db: Store): SnapshotMeta {
    if db.meta.Some? then db.meta.value else SnapshotMeta(0, 0)
  }

  /** The application state a start-up finds: the saved snapshot, if both parts exist. */
  function AppOf(db: Store): MasterState {
    if db.meta.Some? && db.data.Some? then db.data.value else EMPTY
  }

  function LogOf(db: Store): seq<Entry> {
    [Entry(MetaOf(db).term, NoOp)] + LoadEntries(db.log, MetaOf(db).index + 1)
  }

  /** The same index for every peer. */
  function Table(peers: set<Id>, index: nat): map<Id, nat> { map p | p in peers :: if p in peers then index else 0 }

  function Boot(cfg: ClusterConfiguration, id: Id, db: Store): Node {
    var meta := MetaOf(db);
    var log := LogOf(db);
    var peers := AllMembers(cfg) - {id};
    Node(id, Follower, db.term, db.vote, log, meta.index, meta.index,
         Table(peers, |log| + meta.index), Table(peers, meta.index),
         meta.index, meta.term, AppOf(db), {}, map[], db)
  }

  // ---------------------------------------------------------------- applying

  function ApplyOne(n: Node): Effect
    requires n.commit > n.applied
  {
    var i := n.applied + 1;
    var k := i - n.snapIndex;
    var known := 0 <= k < |n.log|;
    Effect(n.(applied := i,
              app := if known then ApplyCommand(n.app, n.log[k].command) else n.app,
              pending := n.pending - {i}),
           [], {},
           if known then [Apply(i, n.log[k])] else [],
           if i in n.pending then {Reply(n.pending[i], true)} else {})
  }

  function ApplyLogs(n: Node): Effect
    decreases n.commit - n.applied
  {
    if n.commit <= n.applied then Idle(n)
    else Then(ApplyOne(n), ApplyLogs(ApplyOne(n).node))
  }

  // ---------------------------------------------------------------- elections

  /** The writes that record a higher term; they also clear the vote. */
  function TermWrites(term: nat, t: nat): seq<Write> {
    if t > term then [PutTerm(t), PutVote(None)] else []
  }

  function Refusals(pending: map<nat, Request>): set<Reply> {
    set i | i in pending :: Reply(pending[i], false)
  }

  /** Follow: adopt a higher term, and turn away whoever waits if this was the leader. */
  function StepDown(n: Node, t: nat): Effect {
    Effect(n.(role := Follower,
              term := if t > n.term then t else n.term,
              votedFor := if t > n.term then None else n.votedFor,
              pending := if n.role == Leader then map[] else n.pending,
              db := ApplyWrites(n.db, TermWrites(n.term, t))),
           TermWrites(n.term, t), {}, [],
           if n.role == Leader then Refusals(n.pending) else {})
  }

  /** A leader without peers commits everything it has saved. */
  function CommitIfAlone(cfg: ClusterConfiguration, e: Effect): Effect
    requires e.node.HasLog()
  {
    var last := e.node.LastIndex();
    if Peers(cfg, e.node) == {} && last > e.node.commit then Then(e, ApplyLogs(e.node.(commit := last))) else e
  }

  function TakeOffice(cfg: ClusterConfiguration, n: Node): Effect
    requires n.HasLog()
    ensures TakeOffice(cfg, n).node.HasLog()
  {
    var entry := Entry(n.term, NoOp);
    var log := n.log + [entry];
    Saving(n.(role := Leader, log := log,
              next := Table(Peers(cfg, n), |log| + n.snapIndex),
              matched := Table(Peers(cfg, n), n.snapIndex)),
           [PutEntries(Numbered([entry], n.LastIndex() + 1))])
  }

  function BecomeLeader(cfg: ClusterConfiguration, n: Node): Effect
    requires n.HasLog()
  {
    CommitIfAlone(cfg, TakeOffice(cfg, n))
  }

  function Campaign(n: Node): Effect {
    Saving(n.(role := Candidate, term := n.term + 1, votedFor := Some(n.id), voters := {n.id}),
           [PutTerm(n.term + 1), PutVote(Some(n.id))])
  }

  function Broadcast(peers: set<Id>, m: Message): set<Packet> { set p | p in peers :: Packet(p, m) }

  function VoteRequests(cfg: ClusterConfiguration, n: Node): set<Packet>
    requires n.HasLog()
  {
    Broadcast(Peers(cfg, n), RequestVote(n.term + 1, n.id, n.LastIndex(), n.LastTerm()))
  }

  function StartElection(cfg: ClusterConfiguration, n: Node): Effect
    requires n.HasLog()
  {
    var e := Campaign(n);
    if |AllMembers(cfg)| == 1 then Then(e, BecomeLeader(cfg, e.node))
    else Sending(e, VoteRequests(cfg, n))
  }

  /** The reaction to a vote request, once the term has been brought up to date. */
  function AnswerVote(e: Effect, m: Message): Effect
    requires e.node.HasLog() && m.RequestVote?
  {
    var n := e.node;
    var current := m.lastTerm > n.LastTerm() || (m.lastTerm == n.LastTerm() && m.lastIndex >= n.LastIndex());
    if (n.votedFor == None || n.votedFor == Some(m.candidate)) && current then
      Sending(Then(e, Saving(n.(votedFor := Some(m.candidate)), [PutVote(Some(m.candidate))])),
              {Packet(m.candidate, VoteReply(n.term, true, n.id))})
    else
      Sending(e, {Packet(m.candidate, VoteReply(n.term, false, n.id))})
  }

  function HandleRequestVote(n: Node, m: Message): Effect
    requires n.HasLog() && m.RequestVote?
  {
    if m.term < n.term then Sending(Idle(n), {Packet(m.candidate, VoteReply(n.term, false, n.id))})
    else AnswerVote(if m.term > n.term then StepDown(n, m.term) else Idle(n), m)
  }

  function HandleVoteReply(cfg: ClusterConfiguration, n: Node, m: Message): Effect
    requires n.HasLog() && m.VoteReply?
  {
    if n.role == Candidate && n.term == m.term && m.granted then
      var n1 := n.(voters := n.voters + {m.peer});
      if HasJointMajority(cfg, n1.voters) then BecomeLeader(cfg, n1) else Idle(n1)
    else if m.term > n.term then StepDown(n, m.term)
    else Idle(n)
  }

  // ---------------------------------------------------------------- replication

  /** The deletes of a truncation from `start`: every stored key up to the first gap. */
  function Drops(m: map<nat, Entry>, start: nat): seq<Write>
    decreases KeysFrom(m, start)
  {
    if start in m then
      assert start in KeysFrom(m, start) && start !in KeysFrom(m, start + 1);
      [DropEntry(start)] + Drops(m, start + 1)
    else []
  }

  /** Entries by absolute index, the first at `start`. */
  function Numbered<T>(es: seq<T>, start: nat): (m: map<nat, T>)
    ensures forall i :: i in m <==> start <= i < start + |es|
    ensures forall i :: i in m ==> m[i] == es[i - start]
    decreases |es|
  {
    if es == [] then map[]
    else Numbered(es[..|es| - 1], start)[start + |es| - 1 := es[|es| - 1]]
  }

  /** Cut whatever follows index `cut`, then save `es` there in one batch. */
  function SaveAfter(n: Node, cut: nat, es: seq<Entry>): seq<Write>
    requires n.HasLog()
  {
    (if cut < n.LastIndex() then Drops(n.db.log, cut + 1) else []) + [PutEntries(Numbered(es, cut + 1))]
  }

  /** The writes that bring the store up to the merged log, from the first entry that is new. */
  function AdoptWrites(n: Node, prev: nat, es: seq<Entry>): seq<Write>
    requires n.HasLog() && n.snapIndex <= prev <= n.LastIndex()
  {
    var k := Agreeing(n.log, prev - n.snapIndex + 1, es);
    if k == |es| then [] else SaveAfter(n, prev + k, es[k..])
  }

  /** Merge `es` into the log after index `prev`. */
  function Adopt(n: Node, prev: nat, es: seq<Entry>): Effect
    requires n.HasLog() && n.snapIndex <= prev <= n.LastIndex()
    ensures Adopt(n, prev, es).node.HasLog()
  {
    Saving(n.(log := Merge(n.log, prev - n.snapIndex + 1, es)), AdoptWrites(n, prev, es))
  }

  function AppendAnswer(n: Node, m: Message, ok: bool, matchIndex: nat): set<Packet>
    requires m.Append?
  {
    {Packet(m.leader, AppendReply(n.term, ok, matchIndex, n.id))}
  }

  /** The log holds the entry that the leader's message builds on. */
  predicate PrevMatches(n: Node, m: Message)
    requires m.Append?
  {
    && n.snapIndex <= m.prevIndex
    && var k := m.prevIndex - n.snapIndex;
       k < |n.log| && (if k == 0 then n.snapTerm else n.log[k].term) == m.prevTerm
  }

  /** Follow the leader's commit index, but not beyond the own log. */
  function CommitUpTo(e: Effect, leaderCommit: nat): Effect
    requires e.node.HasLog()
  {
    if leaderCommit > e.node.commit
    then Then(e, ApplyLogs(e.node.(commit := Min(leaderCommit, e.node.LastIndex()))))
    else e
  }

  function AcceptAppend(e: Effect, m: Message): Effect
    requires e.node.HasLog() && m.Append? && PrevMatches(e.node, m)
  {
    var n := e.node;
    var a := Then(e, Adopt(n, m.prevIndex, m.entries));
    Sending(CommitUpTo(a, m.leaderCommit), AppendAnswer(n, m, true, m.prevIndex + |m.entries|))
  }

  /** The index reported with a refusal; leaders do not read it. */
  function RefusalHint(n: Node, m: Message): nat
    requires m.Append?
  {
    if m.prevIndex < n.snapIndex then n.snapIndex
    else if m.prevIndex == n.snapIndex then 0
    else if m.prevIndex - n.snapIndex < |n.log| then m.prevIndex
    else n.snapIndex
  }

  function HandleAppend(n: Node, m: Message): Effect
    requires n.HasLog() && m.Append?
  {
    if m.term < n.term then Sending(Idle(n), AppendAnswer(n, m, false, 0))
    else
      var e := StepDown(n, m.term);
      if PrevMatches(e.node, m) then AcceptAppend(e, m)
      else Sending(e, AppendAnswer(e.node, m, false, RefusalHint(n, m)))
  }

  /** The packet for one peer, if its next index is past the snapshot point. */
  function Heartbeat(n: Node, p: Id): Option<Message>
    requires n.HasLog() && p in n.next
  {
    if n.next[p] <= n.snapIndex then None
    else
      var k := n.next[p] - 1 - n.snapIndex;
      if k >= |n.log| then None
      else Some(Append(n.term, n.id, n.next[p] - 1, n.log[k].term, n.log[k + 1..], n.commit))
  }

  /** A next index beyond the log is reset to its end. */
  function NextAfter(n: Node, p: Id): nat
    requires n.HasLog() && p in n.next
  {
    if n.next[p] > n.snapIndex && n.next[p] - 1 - n.snapIndex >= |n.log| then |n.log| + n.snapIndex else n.next[p]
  }

  /** The packets for the peers in `ps`. */
  function Beats(n: Node, ps: set<Id>): set<Packet>
    requires n.HasLog()
  {
    set p | p in ps && p in n.next && Heartbeat(n, p).Some? :: Packet(p, Heartbeat(n, p).value)
  }

  /** The next indices once the peers in `ps` have been served. */
  function NextFor(n: Node, ps: set<Id>): map<Id, nat>
    requires n.HasLog()
  {
    map p | p in n.next :: if p !in n.next then 0 else if p in ps then NextAfter(n, p) else n.next[p]
  }

  function SendHeartbeats(cfg: ClusterConfiguration, n: Node): Effect
    requires n.HasLog()
  {
    Sending(Idle(n.(next := NextFor(n, Peers(cfg, n)))), Beats(n, Peers(cfg, n)))
  }

  // ---------------------------------------------------------------- commit

  /** Servers known to hold index `k`. */
  function HeldBy(matches: map<Id, nat>, k: nat): set<Id> {
    set s | s in matches && matches[s] >= k
  }

  predicate Acknowledged(cfg: ClusterConfiguration, matches: map<Id, nat>, k: nat) {
    HasJointMajority(cfg, HeldBy(matches, k))
  }

  predicate IsHighest(p: nat, s: set<nat>) {
    p in s && forall q :: q in s ==> q <= p
  }

  lemma {:induction false} HighestOf(s: set<nat>) returns (p: nat)
    requires s != {}
    ensures IsHighest(p, s)
  {
    var x :| x in s;
    var rest := s - {x};
    assert forall q :: q in s ==> q == x || q in rest;
    p := x;
    if rest != {} {
      var r := HighestOf(rest);
      if r > x { p := r; }
    }
  }

  function Highest(s: set<nat>): (p: nat)
    requires s != {}
    ensures p in s && forall q :: q in s ==> q <= p
  {
    assert exists p :: IsHighest(p, s) by { var p := HighestOf(s); }
    var p :| IsHighest(p, s);
    p
  }

  /** The reported indices that a joint majority holds. */
  function AgreedIndices(cfg: ClusterConfiguration, matches: map<Id, nat>): set<nat> {
    set v | v in matches.Values && Acknowledged(cfg, matches, v)
  }

  /** The largest reported index that a joint majority holds, or `fallback`. */
  function BestIndex(cfg: ClusterConfiguration, matches: map<Id, nat>, fallback: nat): nat {
    if AgreedIndices(cfg, matches) == {} then fallback else Highest(AgreedIndices(cfg, matches))
  }

  /** The leader holds its whole log; every peer what it last reported. */
  function MatchTable(cfg: ClusterConfiguration, n: Node): map<Id, nat>
    requires n.HasLog()
  {
    (n.matched - (n.matched.Keys - Peers(cfg, n)))[n.id := n.LastIndex()]
  }

  function AdvanceCommitIndex(cfg: ClusterConfiguration, n: Node): Effect
    requires n.HasLog()
  {
    var table := MatchTable(cfg, n);
    var best := BestIndex(cfg, table, n.commit);
    if best > n.commit && 0 <= best - n.snapIndex < |n.log| && n.log[best - n.snapIndex].term == n.term
    then ApplyLogs(n.(commit := best))
    else Idle(n)
  }

  /** Note what a peer reported; a refusal moves its next index one back. */
  function Recorded(cfg: ClusterConfiguration, n: Node, m: Message): Node
    requires m.AppendReply?
  {
    if m.peer !in Peers(cfg, n) || m.peer !in n.next then n
    else if m.success then n.(next := n.next[m.peer := m.matchIndex + 1], matched := n.matched[m.peer := m.matchIndex])
    else if n.next[m.peer] > n.snapIndex + 1 then n.(next := n.next[m.peer := n.next[m.peer] - 1])
    else n
  }

  function HandleAppendReply(cfg: ClusterConfiguration, n: Node, m: Message): Effect
    requires n.HasLog() && m.AppendReply?
  {
    if n.role == Leader && m.term == n.term then AdvanceCommitIndex(cfg, Recorded(cfg, n, m))
    else if m.term > n.term then StepDown(n, m.term)
    else Idle(n)
  }

  // ---------------------------------------------------------------- clients

  datatype ClientRequest = ClientRequest(command: Command, request: Request)

  function EntriesOf(term: nat, reqs: seq<ClientRequest>): seq<Entry> {
    seq(|reqs|, i requires 0 <= i < |reqs| => Entry(term, reqs[i].command))
  }

  function RequestsOf(reqs: seq<ClientRequest>): seq<Request> {
    seq(|reqs|, i requires 0 <= i < |reqs| => reqs[i].request)
  }

  function Enqueue(n: Node, reqs: seq<ClientRequest>): Effect
    requires n.HasLog()
    ensures Enqueue(n, reqs).node.HasLog()
  {
    var es := EntriesOf(n.term, reqs);
    var start := n.LastIndex() + 1;
    Saving(n.(log := n.log + es, pending := n.pending + Numbered(RequestsOf(reqs), start)),
           [PutEntries(Numbered(es, start))])
  }

  function HandleClients(cfg: ClusterConfiguration, n: Node, reqs: seq<ClientRequest>): Effect
    requires n.HasLog()
  {
    if reqs == [] then Idle(n)
    else if n.role != Leader then Idle(n).(replies := set r | r in reqs :: Reply(r.request, false))
    else CommitIfAlone(cfg, Enqueue(n, reqs))
  }

  // ---------------------------------------------------------------- compaction

  function Compacts(from: nat, to: nat): seq<Write>
    requires from <= to
  {
    seq(to - from, i requires 0 <= i < to - from => CompactEntry(from + 1 + i))
  }

  predicate SnapshotDue(n: Node) {
    && |n.log| > SNAPSHOT_THRESHOLD
    && n.applied > n.snapIndex
  }

  /** A server never applies beyond its log. */
  predicate AppliedKnown(n: Node) {
    n.snapIndex <= n.applied && n.applied - n.snapIndex < |n.log|
  }

  function CreateSnapshot(n: Node): Effect
    requires AppliedKnown(n)
  {
    var k := n.applied - n.snapIndex;
    var t := n.log[k].term;
    Saving(n.(snapIndex := n.applied, snapTerm := t, log := [Entry(t, NoOp)] + n.log[k + 1..]),
           [PutMeta(SnapshotMeta(n.applied, t)), PutData(n.app)] + Compacts(n.snapIndex, n.applied))
  }

  // ---------------------------------------------------------------- events

  datatype Event =
    | ElectionTimeout
    | HeartbeatTick
    | ApplyTick
    | SnapshotTick
    | Deliver(msg: Message)
    | Clients(requests: seq<ClientRequest>)

  function React(cfg: ClusterConfiguration, n: Node, ev: Event): Effect
    requires n.HasLog()
  {
    match ev
    case ElectionTimeout => if n.role == Leader then Idle(n) else StartElection(cfg, n)
    case HeartbeatTick => if n.role == Leader then SendHeartbeats(cfg, n) else Idle(n)
    case ApplyTick => ApplyLogs(n)
    case SnapshotTick => if SnapshotDue(n) && AppliedKnown(n) then CreateSnapshot(n) else Idle(n)
    case Deliver(m) =>
      (match m
       case RequestVote(_, _, _, _) => HandleRequestVote(n, m)
       case VoteReply(_, _, _) => HandleVoteReply(cfg, n, m)
       case Append(_, _, _, _, _, _) => HandleAppend(n, m)
       case AppendReply(_, _, _, _) => HandleAppendReply(cfg, n, m))
    case Clients(reqs) => HandleClients(cfg, n, reqs)
  }
}
