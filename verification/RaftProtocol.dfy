/**
The replication protocol over full logs: elections, log replication, commit and
restart, with no log compaction. Packets are never taken out of `net`, so any
packet may be delivered never, once, many times and in any order.

`History` records what the run has decided so far. No step reads it; it exists
to state and prove what every run keeps.
*/
module RaftProtocol {
  import opened Options
  import opened Quorum
  import opened Master

  datatype Entry = Entry(term: nat, command: Command)

  datatype Role = Follower | Candidate | Leader

  datatype Message =
    | RequestVote(term: nat, candidate: Id, lastIndex: nat, lastTerm: nat)
    | VoteReply(term: nat, granted: bool, peer: Id)
    | Append(term: nat, leader: Id, prevIndex: nat, prevTerm: nat, entries: seq<Entry>, leaderCommit: nat)
    | AppendReply(term: nat, success: bool, matchIndex: nat, peer: Id)

  datatype Packet = Packet(dst: Id, msg: Message)

  /** A server with its whole log: entry `i` of the source is `log[i - 1]`. */
  datatype Server = Server(
    role: Role, term: nat, votedFor: Option<Id>, log: seq<Entry>,
    commit: nat, matched: map<Id, nat>, voters: set<Id>)

  datatype Ballot = Ballot(node: Id, term: nat)

  /** One elected leader: who elected it, its log when elected, its log since. */
  datatype Reign = Reign(leader: Id, voters: set<Id>, base: seq<Entry>, log: seq<Entry>)

  /** Reigns by term; the vote each server gave in each term; the log each
      candidate stood with; the longest match each server acknowledged in each term. */
  datatype History = History(
    reigns: map<nat, Reign>, votes: map<Ballot, Id>,
    bids: map<Ballot, seq<Entry>>, acks: map<Ballot, nat>)

  datatype World = World(
    cfg: ClusterConfiguration, servers: map<Id, Server>, net: set<Packet>, past: History)

  // ---------------------------------------------------------------- logs

  function TermAt(log: seq<Entry>, i: nat): nat
    requires i <= |log|
  {
    if i == 0 then 0 else log[i - 1].term
  }

  function LastTerm(log: seq<Entry>): nat {
    TermAt(log, |log|)
  }

  predicate UpToDate(lastTerm: nat, lastIndex: nat, log: seq<Entry>) {
    lastTerm > LastTerm(log) || (lastTerm == LastTerm(log) && lastIndex >= |log|)
  }

  /** How many of `es` agree in term with `log` from `prev` on. */
  function Agreeing(log: seq<Entry>, prev: nat, es: seq<Entry>): (k: nat)
    requires prev <= |log|
    ensures k <= |es| && prev + k <= |log|
    decreases |es|
  {
    if es == [] || prev == |log| || log[prev].term != es[0].term then 0
    else 1 + Agreeing(log, prev + 1, es[1..])
  }

  lemma {:induction false} AgreeingMeans(log: seq<Entry>, prev: nat, es: seq<Entry>)
    requires prev <= |log|
    ensures var k := Agreeing(log, prev, es);
            && (forall j :: 0 <= j < k ==> log[prev + j].term == es[j].term)
            && (k < |es| && prev + k < |log| ==> log[prev + k].term != es[k].term)
    decreases |es|
  {
    if es != [] && prev < |log| && log[prev].term == es[0].term {
      AgreeingMeans(log, prev + 1, es[1..]);
      var k := Agreeing(log, prev, es);
      forall j | 0 <= j < k ensures log[prev + j].term == es[j].term {
        if j > 0 { assert es[j] == es[1..][j - 1]; }
      }
      if k < |es| { assert es[k] == es[1..][k - 1]; }
    }
  }

  /** The log after accepting `es` at `prev`: only a conflicting suffix is cut. */
  function Merge(log: seq<Entry>, prev: nat, es: seq<Entry>): seq<Entry>
    requires prev <= |log|
  {
    var k := Agreeing(log, prev, es);
    if k == |es| then log else log[..prev + k] + es[k..]
  }

  function Min(a: nat, b: nat): nat { if a < b then a else b }

  // ---------------------------------------------------------------- history

  function AckOf(h: History, n: Id, t: nat): nat {
    if Ballot(n, t) in h.acks then h.acks[Ballot(n, t)] else 0
  }

  function WithAck(h: History, n: Id, t: nat, m: nat): History {
    if AckOf(h, n, t) >= m then h else h.(acks := h.acks[Ballot(n, t) := m])
  }

  // ---------------------------------------------------------------- steps

  function Put(w: World, n: Id, s: Server, net: set<Packet>, h: History): World {
    w.(servers := w.servers[n := s], net := net, past := h)
  }

  ghost predicate Init(w: World) {
    && Populated(w.cfg)
    && w.servers.Keys == AllMembers(w.cfg)
    && (forall n :: n in w.servers ==> w.servers[n] == Server(Follower, 0, None, [], 0, w.servers[n].matched, {}))
    && w.net == {}
    && w.past == History(map[], map[], map[], map[])
  }

  /** Stand for election in the next term, voting for oneself. */
  ghost predicate Stand(w: World, w': World, n: Id) {
    && n in w.servers
    && w.servers[n].role != Leader
    && var s := w.servers[n];
       var t := s.term + 1;
       exists ps: set<Packet> ::
         && (forall p :: p in ps ==> p.msg == RequestVote(t, n, |s.log|, LastTerm(s.log)))
         && w' == Put(w, n, s.(role := Candidate, term := t, votedFor := Some(n), voters := {n}),
                      w.net + ps,
                      w.past.(votes := w.past.votes[Ballot(n, t) := n], bids := w.past.bids[Ballot(n, t) := s.log]))
  }

  /** Adopt a higher term, with the vote cleared, or left as it was when a
      crash cuts in between saving the term and saving the vote. */
  ghost predicate AdoptTerm(w: World, w': World, n: Id, t: nat, vote: Option<Id>) {
    && n in w.servers
    && t > w.servers[n].term
    && (vote == None || vote == w.servers[n].votedFor)
    && w' == Put(w, n, w.servers[n].(role := Follower, term := t, votedFor := vote), w.net, w.past)
  }

  ghost predicate GrantVote(w: World, w': World, n: Id, m: Message) {
    && n in w.servers
    && m.RequestVote?
    && Packet(n, m) in w.net
    && var s := w.servers[n];
       && m.term == s.term
       && (s.votedFor == None || s.votedFor == Some(m.candidate))
       && UpToDate(m.lastTerm, m.lastIndex, s.log)
       && w' == Put(w, n, s.(votedFor := Some(m.candidate)),
                    w.net + {Packet(m.candidate, VoteReply(s.term, true, n))},
                    w.past.(votes := w.past.votes[Ballot(n, s.term) := m.candidate]))
  }

  ghost predicate CountVote(w: World, w': World, n: Id, m: Message) {
    && n in w.servers
    && m.VoteReply? && m.granted
    && Packet(n, m) in w.net
    && w.servers[n].role == Candidate
    && w.servers[n].term == m.term
    && w' == Put(w, n, w.servers[n].(voters := w.servers[n].voters + {m.peer}), w.net, w.past)
  }

  /** Lead once a joint majority has voted; the first entry of the term is a no-op.
      The match table may start anywhere up to the commit index. */
  ghost predicate Ascend(w: World, w': World, n: Id, matched: map<Id, nat>) {
    && n in w.servers
    && w.servers[n].role == Candidate
    && HasJointMajority(w.cfg, w.servers[n].voters)
    && (forall p :: p in matched ==> matched[p] <= w.servers[n].commit)
    && var s := w.servers[n];
       var log := s.log + [Entry(s.term, NoOp)];
       w' == Put(w, n, s.(role := Leader, log := log, matched := matched), w.net,
                 w.past.(reigns := w.past.reigns[s.term := Reign(n, s.voters, s.log, log)],
                         acks := w.past.acks[Ballot(n, s.term) := |log|]))
  }

  ghost predicate Propose(w: World, w': World, n: Id, es: seq<Entry>) {
    && n in w.servers
    && w.servers[n].role == Leader
    && w.servers[n].term in w.past.reigns
    && (forall e :: e in es ==> e.term == w.servers[n].term)
    && var s := w.servers[n];
       var log := s.log + es;
       w' == Put(w, n, s.(log := log), w.net,
                 w.past.(reigns := w.past.reigns[s.term := w.past.reigns[s.term].(log := log)],
                         acks := w.past.acks[Ballot(n, s.term) := |log|]))
  }

  /** A replication message always carries the leader's whole remaining log. */
  ghost predicate Replication(s: Server, n: Id, m: Message) {
    && m.Append?
    && m.term == s.term && m.leader == n
    && m.prevIndex <= |s.log|
    && m.prevTerm == TermAt(s.log, m.prevIndex)
    && m.entries == s.log[m.prevIndex..]
    && m.leaderCommit == s.commit
  }

  ghost predicate Replicate(w: World, w': World, n: Id, ps: set<Packet>) {
    && n in w.servers
    && w.servers[n].role == Leader
    && (forall p :: p in ps ==> Replication(w.servers[n], n, p.msg))
    && w' == w.(net := w.net + ps)
  }

  ghost predicate Accepts(w: World, n: Id, m: Message) {
    && n in w.servers
    && m.Append?
    && Packet(n, m) in w.net
    && m.term == w.servers[n].term
    && m.prevIndex <= |w.servers[n].log|
    && TermAt(w.servers[n].log, m.prevIndex) == m.prevTerm
  }

  function Accepted(w: World, n: Id, m: Message): World
    requires n in w.servers && m.Append? && m.prevIndex <= |w.servers[n].log|
  {
    var s := w.servers[n];
    var log := Merge(s.log, m.prevIndex, m.entries);
    var last := m.prevIndex + |m.entries|;
    var commit := if m.leaderCommit > s.commit then Min(m.leaderCommit, |log|) else s.commit;
    Put(w, n, s.(role := Follower, log := log, commit := commit),
        w.net + {Packet(m.leader, AppendReply(s.term, true, last, n))},
        WithAck(w.past, n, s.term, last))
  }

  ghost predicate Accept(w: World, w': World, n: Id, m: Message) {
    Accepts(w, n, m) && w' == Accepted(w, n, m)
  }

  /** A crash after the conflicting suffix was deleted and before the new entries were saved. */
  ghost predicate LoseSuffix(w: World, w': World, n: Id, m: Message) {
    && Accepts(w, n, m)
    && var s := w.servers[n];
       var cut := m.prevIndex + Agreeing(s.log, m.prevIndex, m.entries);
       && cut < m.prevIndex + |m.entries|
       && w' == Put(w, n, s.(role := Follower, log := s.log[..cut], commit := Min(s.commit, cut)), w.net, w.past)
  }

  ghost predicate RecordMatch(w: World, w': World, n: Id, m: Message) {
    && n in w.servers
    && m.AppendReply? && m.success
    && Packet(n, m) in w.net
    && w.servers[n].role == Leader
    && w.servers[n].term == m.term
    && w' == Put(w, n, w.servers[n].(matched := w.servers[n].matched[m.peer := m.matchIndex]), w.net, w.past)
  }

  /** Servers a leader counts as holding index `c`. */
  function Holders(s: Server, n: Id, c: nat): set<Id> {
    {n} + set p | p in s.matched && s.matched[p] >= c
  }

  ghost predicate AdvanceCommit(w: World, w': World, n: Id, c: nat) {
    && n in w.servers
    && w.servers[n].role == Leader
    && var s := w.servers[n];
       && s.commit < c <= |s.log|
       && s.log[c - 1].term == s.term
       && HasJointMajority(w.cfg, Holders(s, n, c))
       && w' == Put(w, n, s.(commit := c), w.net, w.past)
  }

  /** A step-down within the term, or a restart: term, vote and log survive, and
      the commit index may fall back. */
  ghost predicate Retreat(w: World, w': World, n: Id, commit: nat, matched: map<Id, nat>, voters: set<Id>) {
    && n in w.servers
    && commit <= w.servers[n].commit
    && w' == Put(w, n, w.servers[n].(role := Follower, commit := commit, matched := matched, voters := voters), w.net, w.past)
  }

  /** Refusals carry no promise and may appear at any time. */
  ghost predicate Refuse(w: World, w': World, ps: set<Packet>) {
    && (forall p :: p in ps ==>
          || (p.msg.VoteReply? && !p.msg.granted)
          || (p.msg.AppendReply? && !p.msg.success))
    && w' == w.(net := w.net + ps)
  }

  datatype Step =
    | Stutter
    | StandStep(n: Id)
    | AdoptTermStep(n: Id, term: nat, vote: Option<Id>)
    | GrantVoteStep(n: Id, msg: Message)
    | CountVoteStep(n: Id, msg: Message)
    | AscendStep(n: Id, matched: map<Id, nat>)
    | ProposeStep(n: Id, entries: seq<Entry>)
    | ReplicateStep(n: Id, packets: set<Packet>)
    | AcceptStep(n: Id, msg: Message)
    | LoseSuffixStep(n: Id, msg: Message)
    | RecordMatchStep(n: Id, msg: Message)
    | AdvanceCommitStep(n: Id, commit: nat)
    | RetreatStep(n: Id, commit: nat, matched: map<Id, nat>, voters: set<Id>)
    | RefuseStep(packets: set<Packet>)

  ghost predicate Performs(w: World, w': World, st: Step) {
    match st
    case Stutter => w' == w
    case StandStep(n) => Stand(w, w', n)
    case AdoptTermStep(n, t, v) => AdoptTerm(w, w', n, t, v)
    case GrantVoteStep(n, m) => GrantVote(w, w', n, m)
    case CountVoteStep(n, m) => CountVote(w, w', n, m)
    case AscendStep(n, ms) => Ascend(w, w', n, ms)
    case ProposeStep(n, es) => Propose(w, w', n, es)
    case ReplicateStep(n, ps) => Replicate(w, w', n, ps)
    case AcceptStep(n, m) => Accept(w, w', n, m)
    case LoseSuffixStep(n, m) => LoseSuffix(w, w', n, m)
    case RecordMatchStep(n, m) => RecordMatch(w, w', n, m)
    case AdvanceCommitStep(n, c) => AdvanceCommit(w, w', n, c)
    case RetreatStep(n, c, ms, vs) => Retreat(w, w', n, c, ms, vs)
    case RefuseStep(ps) => Refuse(w, w', ps)
  }

  ghost predicate Next(w: World, w': World) {
    exists st :: Performs(w, w', st)
  }

  ghost predicate StepAt(ws: seq<World>, i: nat)
    requires 0 < i < |ws|
  {
    Next(ws[i - 1], ws[i])
  }

  /** Each state follows from the one before. */
  ghost predicate Steps(ws: seq<World>) {
    forall i :: 0 < i < |ws| ==> StepAt(ws, i)
  }
}
