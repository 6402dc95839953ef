/**
The server object: its fields change in place and every write to the store is
entered in `journal` in the order in which it happens. Each method does what the
reaction of the same name in `RaftNode` describes.
*/
module RaftServer {
  import opened Options
  import opened Quorum
  import opened Master
  import opened RaftProtocol
  import opened RaftNode
  import opened RaftDuties

  // ---------------------------------------------------------------- helpers

  /** The values in descending order. */
  method SortedDescending(s: set<nat>) returns (c: seq<nat>)
    ensures forall v :: v in s <==> v in c
    ensures forall i, j :: 0 <= i < j < |c| ==> c[i] > c[j]
  {
    c := [];
    var rest := s;
    while rest != {}
      invariant forall v :: v in s <==> v in c || v in rest
      invariant forall i, j :: 0 <= i < j < |c| ==> c[i] > c[j]
      invariant forall i, v :: 0 <= i < |c| && v in rest ==> c[i] > v
      decreases rest
    {
      var h := Highest(rest);
      c := c + [h];
      rest := rest - {h};
    }
  }

  /** A node with its writes, messages, applied entries and answers so far. */
  datatype Run = Run(node: Node, journal: seq<Write>, outbox: set<Packet>, history: seq<Apply>, answers: set<Reply>)

  /** What a run looks like after one more effect. */
  function Extended(r: Run, e: Effect): Run {
    Run(e.node, r.journal + e.writes, r.outbox + e.sent, r.history + e.applies, r.answers + e.replies)
  }

  lemma VoteOutcome(cfg: ClusterConfiguration, r: Run, m: Message)
    requires m.RequestVote? && r.node.HasLog()
    ensures var s := Extended(r, HandleRequestVote(r.node, m));
            && s.outbox == r.outbox + {Packet(m.candidate, VoteReply(Later(r.node.term, m.term), GrantDue(m, r.node), r.node.id))}
            && (GrantDue(m, r.node) ==> s.node.votedFor == s.node.db.vote == Some(m.candidate))
  {
    hide GrantDue, HandleRequestVote;
    VoteDuty(cfg, r.node, m);
  }

  lemma ExtendedTwice(r: Run, a: Effect, b: Effect)
    ensures Extended(Extended(r, a), b) == Extended(r, Then(a, b))
  {
  }

  lemma ExtendedIdle(r: Run)
    ensures Extended(r, Idle(r.node)) == r
  {
  }

  class Server {
    const id: Id
    const cfg: ClusterConfiguration
    var role: Role
    var term: nat
    var votedFor: Option<Id>
    var log: seq<Entry>
    var commit: nat
    var applied: nat
    var next: map<Id, nat>
    var matched: map<Id, nat>
    var snapIndex: nat
    var snapTerm: nat
    var app: MasterState
    var voters: set<Id>
    var pending: map<nat, Request>
    var db: Store
    var journal: seq<Write>
    var outbox: set<Packet>
    var history: seq<Apply>
    var answers: set<Reply>

    /** The server's fields as one value. */
    function View(): Node
      reads this
    {
      Node(id, role, term, votedFor, log, commit, applied, next, matched, snapIndex, snapTerm, app, voters, pending, db)
    }

    predicate HasLog()
      reads this
    {
      |log| > 0
    }

    /** The node together with everything it has done so far. */
    function State(): Run
      reads this
    {
      Run(View(), journal, outbox, history, answers)
    }

    /** Start up from what the store holds. */
    constructor (id: Id, cfg: ClusterConfiguration, db: Store)
      ensures this.id == id && this.cfg == cfg
      ensures View() == Boot(cfg, id, db)
      ensures journal == [] && outbox == {} && history == [] && answers == {}
    {
      this.id := id;
      this.cfg := cfg;
      var meta := MetaOf(db);
      var loaded := LoadLog(db);
      role, term, votedFor := Follower, db.term, db.vote;
      log, commit, applied := loaded, meta.index, meta.index;
      var peers := AllMembers(cfg) - {id};
      next, matched := Table(peers, |loaded| + meta.index), Table(peers, meta.index);
      snapIndex, snapTerm, app := meta.index, meta.term, AppOf(db);
      voters, pending, this.db := {}, map[], db;
      journal, outbox, history, answers := [], {}, [], {};
    }

    static method LoadLog(db: Store) returns (log: seq<Entry>)
      ensures log == LogOf(db)
    {
      var meta := MetaOf(db);
      log := [Entry(meta.term, NoOp)];
      var index: nat := meta.index + 1;
      while index in db.log
        invariant log + LoadEntries(db.log, index) == LogOf(db)
        decreases KeysFrom(db.log, index)
      {
        assert index in KeysFrom(db.log, index) && index !in KeysFrom(db.log, index + 1);
        log := log + [db.log[index]];
        index := index + 1;
      }
    }

    /** One write to the store. */
    method Write(w: Write)
      modifies this`db, this`journal
      ensures db == ApplyWrite(old(db), w) && journal == old(journal) + [w]
    {
      db := ApplyWrite(db, w);
      journal := journal + [w];
    }

    method DeleteLogEntriesFrom(start: nat)
      modifies this`db, this`journal
      ensures journal == old(journal) + Drops(old(db.log), start)
      ensures db == ApplyWrites(old(db), Drops(old(db.log), start))
    {
      var index: nat := start;
      ghost var done: seq<Write> := [];
      while index in db.log
        invariant index >= start
        invariant done + Drops(db.log, index) == Drops(old(db.log), start)
        invariant journal == old(journal) + done && db == ApplyWrites(old(db), done)
        decreases KeysFrom(db.log, index)
      {
        ghost var m := db.log;
        assert index in KeysFrom(m, index) && index !in KeysFrom(m - {index}, index + 1);
        DropsElsewhere(m, index);
        AppliedOne(old(db), done, DropEntry(index));
        Write(DropEntry(index));
        done := done + [DropEntry(index)];
        index := index + 1;
      }
      assert done + [] == done;
    }

    // ---------------------------------------------------------------- applying

    method ApplyNext()
      requires commit > applied
      modifies this`applied, this`app, this`pending, this`history, this`answers
      ensures View() == ApplyOne(old(View())).node
      ensures history == old(history) + ApplyOne(old(View())).applies && answers == old(answers) + ApplyOne(old(View())).replies
    {
      hide ApplyCommand;
      var i := applied + 1;
      var k := i - snapIndex;
      var known := 0 <= k < |log|;
      var app1 := if known then ApplyCommand(app, log[k].command) else app;
      var applies := if known then [Apply(i, log[k])] else [];
      var replies := if i in pending then {Reply(pending[i], true)} else {};
      applied, app, pending, history, answers := i, app1, pending - {i}, history + applies, answers + replies;
    }

    method ApplyLogs()
      modifies this`applied, this`app, this`pending, this`history, this`answers
      ensures State() == Extended(old(State()), RaftNode.ApplyLogs(old(View())))
    {
      while commit > applied
        invariant Extended(State(), RaftNode.ApplyLogs(View())) == Extended(old(State()), RaftNode.ApplyLogs(old(View())))
        decreases commit - applied
      {
        ghost var r := State();
        ApplyLogsUnfold(View());
        ExtendedTwice(r, ApplyOne(r.node), RaftNode.ApplyLogs(ApplyOne(r.node).node));
        ApplyNext();
      }
      ExtendedIdle(State());
    }

    // ---------------------------------------------------------------- terms and votes

    method AdoptTerm(t: nat)
      modifies this`term, this`votedFor, this`db, this`journal
      ensures term == (if t > old(term) then t else old(term)) && votedFor == (if t > old(term) then None else old(votedFor))
      ensures db == ApplyWrites(old(db), TermWrites(old(term), t))
      ensures journal == old(journal) + TermWrites(old(term), t)
    {
      if t > term {
        term := t;
        votedFor := None;
        Write(PutTerm(term));
        Write(PutVote(votedFor));
        WritesTwo(old(db), PutTerm(t), PutVote(None));
      }
    }

    method StepDownToFollower(t: nat)
      modifies this`role, this`term, this`votedFor, this`pending, this`db, this`journal, this`answers
      ensures View() == StepDown(old(View()), t).node
      ensures journal == old(journal) + StepDown(old(View()), t).writes
      ensures answers == old(answers) + StepDown(old(View()), t).replies
    {
      hide ApplyWrites, TermWrites, Refusals;
      var wasLeader := role == Leader;
      role := Follower;
      AdoptTerm(t);
      if wasLeader {
        answers := answers + Refusals(pending);
        pending := map[];
      }
    }

    method CommitIfAlone()
      requires HasLog()
      modifies this`commit, this`applied, this`app, this`pending, this`history, this`answers
      ensures State() == Extended(old(State()), RaftNode.CommitIfAlone(cfg, Idle(old(View()))))
    {
      hide RaftNode.ApplyLogs, AllMembers;
      ExtendedIdle(State());
      if AllMembers(cfg) - {id} == {} {
        var last := snapIndex + |log| - 1;
        if last > commit {
          commit := last;
          ApplyLogs();
        }
      }
    }

    method TakeOffice()
      requires HasLog()
      modifies this`role, this`log, this`next, this`matched, this`db, this`journal
      ensures role == Leader && log == old(log) + [Entry(term, NoOp)]
      ensures next == Table(AllMembers(cfg) - {id}, |log| + snapIndex) && matched == Table(AllMembers(cfg) - {id}, snapIndex)
      ensures var w := PutEntries(Numbered([Entry(term, NoOp)], snapIndex + old(|log|)));
              db == ApplyWrites(old(db), [w]) && journal == old(journal) + [w]
    {
      hide Numbered, ApplyWrites, AllMembers, Table;
      var entry := Entry(term, NoOp);
      var log1 := log + [entry];
      var last := snapIndex + |log1| - 1;
      var peers := AllMembers(cfg) - {id};
      Write(PutEntries(Numbered([entry], last)));
      WritesOne(old(db), PutEntries(Numbered([entry], last)));
      role, log, next, matched := Leader, log1, Table(peers, |log1| + snapIndex), Table(peers, snapIndex);
    }

    method BecomeLeader()
      requires HasLog()
      modifies this
      ensures State() == Extended(old(State()), RaftNode.BecomeLeader(cfg, old(View())))
    {
      hide Numbered, ApplyWrites, AllMembers, Table, RaftNode.CommitIfAlone;
      ghost var r, e := State(), RaftNode.TakeOffice(cfg, View());
      TakeOffice();
      assert State() == Extended(r, e);
      CommitIfAlone();
      AloneSplit(cfg, e);
      ExtendedTwice(r, e, RaftNode.CommitIfAlone(cfg, Idle(e.node)));
    }

    method StartElection()
      requires HasLog()
      modifies this
      ensures State() == Extended(old(State()), RaftNode.StartElection(cfg, old(View())))
    {
      hide ApplyWrites, Broadcast, AllMembers;
      ghost var r, e := State(), RaftNode.Campaign(View());
      Campaign();
      assert State() == Extended(r, e);
      if |AllMembers(cfg)| == 1 {
        BecomeLeader();
        StartAlone(cfg, r.node);
        hide *;
        ExtendedTwice(r, e, RaftNode.BecomeLeader(cfg, e.node));
      } else {
        var args := RequestVote(term, id, snapIndex + |log| - 1, log[|log| - 1].term);
        outbox := outbox + Broadcast(AllMembers(cfg) - {id}, args);
      }
    }

    method Campaign()
      modifies this`role, this`term, this`votedFor, this`voters, this`db, this`journal
      ensures role == Candidate && term == old(term) + 1 && votedFor == Some(id) && voters == {id}
      ensures db == ApplyWrites(old(db), [PutTerm(term), PutVote(votedFor)])
      ensures journal == old(journal) + [PutTerm(term), PutVote(votedFor)]
    {
      hide ApplyWrites;
      role := Candidate;
      term := term + 1;
      Write(PutTerm(term));
      votedFor := Some(id);
      Write(PutVote(votedFor));
      voters := {id};
      WritesTwo(old(db), PutTerm(term), PutVote(votedFor));
    }

    // ---------------------------------------------------------------- taking over entries

    method SaveLogEntriesBatch(batch: seq<(nat, Entry)>)
      modifies this`db, this`journal
      ensures db == ApplyWrites(old(db), BatchWrites(batch)) && journal == old(journal) + BatchWrites(batch)
    {
      if batch == [] { return; }
      Write(PutEntries(FromPairs(batch)));
      WritesOne(old(db), PutEntries(FromPairs(batch)));
    }

    /** Cut the log at slot `at`, in memory and in the store. */
    method TruncateAt(at: nat, index: nat)
      requires at <= |log|
      modifies this`log, this`db, this`journal
      ensures log == old(log[..at])
      ensures journal == old(journal) + Drops(old(db.log), index) && db == ApplyWrites(old(db), Drops(old(db.log), index))
    {
      log := log[..at];
      DeleteLogEntriesFrom(index);
    }

    /** Put `e` into slot `at` unless an entry of its term is already there. */
    method TakeEntry(at: nat, index: nat, e: Entry) returns (taken: bool)
      requires at <= |log|
      modifies this`log, this`db, this`journal
      ensures taken == (at == old(|log|) || old(log)[at].term != e.term)
      ensures !taken ==> log == old(log) && db == old(db) && journal == old(journal)
      ensures taken ==> log == old(log)[..at] + [e]
      ensures taken && at < old(|log|) ==> journal == old(journal) + Drops(old(db.log), index)
      ensures taken && at < old(|log|) ==> db == ApplyWrites(old(db), Drops(old(db.log), index))
      ensures taken && at == old(|log|) ==> journal == old(journal) && db == old(db)
    {
      taken := true;
      if at < |log| {
        if log[at].term != e.term {
          TruncateAt(at, index);
          log := log + [e];
        } else {
          taken := false;
        }
      } else {
        log := log + [e];
      }
    }

    /** Take over the entries one by one; what is new has still to be saved. */
    method TakeEntries(es: seq<Entry>) returns (batch: seq<(nat, Entry)>)
      requires HasLog()
      modifies this`log, this`db, this`journal
      ensures log == Merge(old(log), 1, es)
      ensures batch == NewPairs(old(log), 1, es, |es|, snapIndex + 1)
      ensures journal == old(journal) + CutWrites(old(View()), 1, es, |es|)
      ensures db == ApplyWrites(old(db), CutWrites(old(View()), 1, es, |es|))
    {
      var i := 0;
      batch := [];
      ghost var n := View();
      NoWrites(db);
      hide CutWrites, NewPairs, Merge, Taken, ApplyWrites, Drops;
      TakenStart(n, 1, es, snapIndex + 1);
      while i < |es|
        invariant i <= |es| && log == Taken(n.log, 1, es, i)
        invariant batch == NewPairs(n.log, 1, es, i, snapIndex + 1)
        invariant journal == old(journal) + CutWrites(n, 1, es, i) && db == ApplyWrites(old(db), CutWrites(n, 1, es, i))
        decreases |es| - i
      {
        TakenStep(n, 1, es, i, snapIndex + 1, db);
        var taken := TakeEntry(1 + i, snapIndex + 1 + i, es[i]);
        if taken { batch := batch + [(snapIndex + 1 + i, es[i])]; }
        i := i + 1;
      }
      TakenAll(n.log, 1, es);
    }

    /** The leader's message builds on the snapshot point: cut at the first conflict and
        append, entry by entry. */
    method AppendAtSnapshot(es: seq<Entry>)
      requires HasLog()
      modifies this`log, this`db, this`journal
      ensures log == Merge(old(log), 1, es)
      ensures journal == old(journal) + AdoptWrites(old(View()), snapIndex, es)
      ensures db == ApplyWrites(old(db), AdoptWrites(old(View()), snapIndex, es))
    {
      hide CutWrites, NewPairs, Merge, AdoptWrites, BatchWrites, ApplyWrites;
      var batch := TakeEntries(es);
      SaveLogEntriesBatch(batch);
      AdoptSplit(old(View()), snapIndex, es, batch);
    }

    /** Cut the log at the first of the entries that conflicts with it, if any. */
    method CutConflict(p: nat, es: seq<Entry>)
      requires p <= |log|
      modifies this`log, this`db, this`journal
      ensures log == Uncut(old(log), p, es)
      ensures journal == old(journal) + CutWrites(old(View()), p, es, |es|)
      ensures db == ApplyWrites(old(db), CutWrites(old(View()), p, es, |es|))
    {
      ghost var k := Agreeing(log, p, es);
      AgreeingMeans(log, p, es);
      NoWrites(db);
      hide Agreeing, Drops, ApplyWrites;
      var i := 0;
      while i < |es|
        invariant i <= k && log == old(log) && journal == old(journal) && db == old(db)
        decreases |es| - i
      {
        if p + i < |log| {
          if log[p + i].term != es[i].term {
            TruncateAt(p + i, snapIndex + p + i);
            return;
          }
        } else {
          return;
        }
        i := i + 1;
      }
    }

    /** Append the entries that lie beyond the log. */
    method PushRest(p: nat, es: seq<Entry>) returns (batch: seq<(nat, Entry)>)
      requires p <= |log|
      modifies this`log
      ensures log == Pushed(old(log), p, es, |es|)
      ensures batch == PushedPairs(old(|log|), p, es, |es|, snapIndex)
    {
      hide Pushed, PushedPairs;
      batch := [];
      var i := 0;
      PushedStart(log, p, es, snapIndex);
      while i < |es|
        invariant i <= |es| && log == Pushed(old(log), p, es, i) && batch == PushedPairs(old(|log|), p, es, i, snapIndex)
        decreases |es| - i
      {
        PushedStep(old(log), p, es, i, snapIndex);
        if p + i >= |log| {
          log := log + [es[i]];
          batch := batch + [(snapIndex + p + i, es[i])];
        }
        i := i + 1;
      }
    }

    /** The leader's message builds on an entry after the snapshot point: first cut, then append. */
    method AppendAfterSnapshot(prev: nat, es: seq<Entry>)
      requires HasLog() && snapIndex <= prev < snapIndex + |log|
      modifies this`log, this`db, this`journal
      ensures log == Merge(old(log), prev - snapIndex + 1, es)
      ensures journal == old(journal) + AdoptWrites(old(View()), prev, es)
      ensures db == ApplyWrites(old(db), AdoptWrites(old(View()), prev, es))
    {
      hide CutWrites, NewPairs, Merge, AdoptWrites, BatchWrites, ApplyWrites, Uncut, Pushed, PushedPairs;
      var p := prev - snapIndex + 1;
      UncutLength(log, p, es);
      CutConflict(p, es);
      var batch := PushRest(p, es);
      SaveLogEntriesBatch(batch);
      PushedIsMerge(old(log), p, es, snapIndex);
      AdoptSplit(old(View()), prev, es, batch);
    }

    /** Check the entry that the message builds on and, if it is there, take over the entries.
        Slot 0 always carries the term of the snapshot point, so the point itself cannot conflict. */
    method TakeOver(m: Message) returns (success: bool, matchIndex: nat)
      requires m.Append? && HasLog() && log[0].term == snapTerm
      modifies this`log, this`db, this`journal
      ensures success == PrevMatches(old(View()), m)
      ensures matchIndex == if success then m.prevIndex + |m.entries| else RefusalHint(old(View()), m)
      ensures success ==> log == Merge(old(log), m.prevIndex - snapIndex + 1, m.entries)
      ensures success ==> db == ApplyWrites(old(db), AdoptWrites(old(View()), m.prevIndex, m.entries))
      ensures success ==> journal == old(journal) + AdoptWrites(old(View()), m.prevIndex, m.entries)
      ensures !success ==> log == old(log) && db == old(db) && journal == old(journal)
    {
      hide Merge, AdoptWrites, ApplyWrites;
      success, matchIndex := false, 0;
      if m.prevIndex < snapIndex {
        matchIndex := snapIndex;
      } else if m.prevIndex == snapIndex {
        success := m.prevTerm == snapTerm;
        if success {
          AppendAtSnapshot(m.entries);
          matchIndex := m.prevIndex + |m.entries|;
        }
      } else {
        var local := m.prevIndex - snapIndex;
        if local < |log| && log[local].term == m.prevTerm {
          success := true;
          AppendAfterSnapshot(m.prevIndex, m.entries);
          matchIndex := m.prevIndex + |m.entries|;
        } else {
          matchIndex := if local < |log| then snapIndex + local else snapIndex;
        }
      }
    }

    method FollowCommit(leaderCommit: nat)
      requires HasLog()
      modifies this`commit, this`applied, this`app, this`pending, this`history, this`answers
      ensures State() == Extended(old(State()), CommitUpTo(Idle(old(View())), leaderCommit))
    {
      hide RaftNode.ApplyLogs;
      ExtendedIdle(State());
      if leaderCommit > commit {
        commit := Min(leaderCommit, |log| - 1 + snapIndex);
        ApplyLogs();
      }
    }

    method Send(p: Packet)
      modifies this`outbox
      ensures outbox == old(outbox) + {p}
    {
      outbox := outbox + {p};
    }

    /** Take over the entries and follow the leader's commit index. */
    method Accept(m: Message) returns (success: bool, matchIndex: nat)
      requires m.Append? && HasLog() && log[0].term == snapTerm
      modifies this
      ensures success == PrevMatches(old(View()), m)
      ensures matchIndex == if success then m.prevIndex + |m.entries| else RefusalHint(old(View()), m)
      ensures State() == Extended(old(State()), if success then AcceptQuietly(old(View()), m) else Idle(old(View())))
    {
      hide AdoptWrites, ApplyWrites, Merge, RaftNode.ApplyLogs, CommitUpTo, RefusalHint;
      ghost var r := State();
      success, matchIndex := TakeOver(m);
      if success {
        ghost var a := Adopt(r.node, m.prevIndex, m.entries);
        assert State() == Extended(r, a);
        FollowCommit(m.leaderCommit);
        ExtendedTwice(r, a, CommitUpTo(Idle(a.node), m.leaderCommit));
      }
    }

    /** The answer to a message of the present term. */
    method AnswerAppend(m: Message)
      requires m.Append? && HasLog() && log[0].term == snapTerm
      modifies this
      ensures State() == Extended(old(State()), CurrentAppend(old(View()), m))
    {
      hide AcceptQuietly, AcceptAppend, RefusalHint, PrevMatches;
      ghost var n := View();
      if PrevMatches(n, m) { AcceptSplit(n, m); }
      var success, matchIndex := Accept(m);
      Send(Packet(m.leader, AppendReply(term, success, matchIndex, id)));
    }

    method AppendEntries(m: Message)
      requires m.Append? && HasLog() && log[0].term == snapTerm
      modifies this
      ensures State() == Extended(old(State()), HandleAppend(old(View()), m))
    {
      hide StepDown, CurrentAppend;
      ghost var r := State();
      if m.term < term {
        Send(Packet(m.leader, AppendReply(term, false, 0, id)));
      } else {
        ghost var e := StepDown(r.node, m.term);
        StepDownKeeps(r.node, m.term);
        StepDownToFollower(m.term);
        assert State() == Extended(r, e);
        AnswerAppend(m);
        AppendSplit(r.node, m);
        ExtendedTwice(r, e, CurrentAppend(e.node, m));
      }
    }

    // ---------------------------------------------------------------- votes

    method RequestVoteArm(m: Message)
      requires m.RequestVote? && HasLog()
      modifies this
      ensures State() == Extended(old(State()), HandleRequestVote(old(View()), m))
      ensures outbox == old(outbox) + {Packet(m.candidate, VoteReply(Later(old(term), m.term), GrantDue(m, old(View())), id))}
      ensures GrantDue(m, old(View())) ==> votedFor == db.vote == Some(m.candidate)
    {
      hide StepDown, AnswerVote;
      ghost var r := State();
      if m.term < term {
        Send(Packet(m.candidate, VoteReply(term, false, id)));
      } else {
        ghost var e := if m.term > term then StepDown(r.node, m.term) else Idle(r.node);
        if m.term > term {
          StepDownKeeps(r.node, m.term);
          StepDownToFollower(m.term);
        } else {
          ExtendedIdle(r);
        }
        assert State() == Extended(r, e);
        GrantOrRefuse(m);
        AnswerSplit(e, m);
        ExtendedTwice(r, e, AnswerVote(Idle(e.node), m));
      }
      assert State() == Extended(r, HandleRequestVote(r.node, m));
      hide GrantDue, HandleRequestVote, Extended;
      VoteOutcome(cfg, r, m);
    }

    method SaveVote(candidate: Id)
      modifies this`votedFor, this`db, this`journal
      ensures votedFor == Some(candidate)
      ensures db == ApplyWrites(old(db), [PutVote(Some(candidate))]) && journal == old(journal) + [PutVote(Some(candidate))]
    {
      votedFor := Some(candidate);
      Write(PutVote(votedFor));
      WritesOne(old(db), PutVote(votedFor));
    }

    method GrantOrRefuse(m: Message)
      requires m.RequestVote? && HasLog()
      modifies this`votedFor, this`db, this`journal, this`outbox
      ensures State() == Extended(old(State()), AnswerVote(Idle(old(View())), m))
    {
      hide ApplyWrites;
      var lastIndex, lastTerm := snapIndex + |log| - 1, log[|log| - 1].term;
      var upToDate := m.lastTerm > lastTerm || (m.lastTerm == lastTerm && m.lastIndex >= lastIndex);
      var granted := (votedFor == None || votedFor == Some(m.candidate)) && upToDate;
      if granted { SaveVote(m.candidate); }
      Send(Packet(m.candidate, VoteReply(term, granted, id)));
    }

    method VoteReplyArm(m: Message)
      requires m.VoteReply? && HasLog()
      modifies this
      ensures State() == Extended(old(State()), HandleVoteReply(cfg, old(View()), m))
    {
      hide StepDown, RaftNode.BecomeLeader;
      ExtendedIdle(State());
      if role == Candidate && term == m.term && m.granted {
        voters := voters + {m.peer};
        if HasJointMajority(cfg, voters) { BecomeLeader(); }
      } else if m.term > term {
        StepDownKeeps(View(), m.term);
        StepDownToFollower(m.term);
      }
    }

    // ---------------------------------------------------------------- commit

    /** The servers known to hold index `k`. */
    static method Acks(matches: map<Id, nat>, k: nat) returns (acks: set<Id>)
      ensures acks == HeldBy(matches, k)
    {
      acks := {};
      var rest := matches.Keys;
      while rest != {}
        invariant rest <= matches.Keys && acks == HeldBy(matches, k) - rest
        decreases rest
      {
        var p :| p in rest;
        if matches[p] >= k { acks := acks + {p}; }
        rest := rest - {p};
      }
    }

    /** Go through the reported indices from the largest down to the first that a joint majority holds. */
    static method MajorityMatch(cfg: ClusterConfiguration, matches: map<Id, nat>, fallback: nat) returns (best: nat)
      ensures best == BestIndex(cfg, matches, fallback)
    {
      hide HasJointMajority, HeldBy;
      var candidates := SortedDescending(matches.Values);
      best := fallback;
      var i := 0;
      while i < |candidates|
        invariant i <= |candidates| && best == fallback
        invariant forall j :: 0 <= j < i ==> !Acknowledged(cfg, matches, candidates[j])
        decreases |candidates| - i
      {
        var acks := Acks(matches, candidates[i]);
        if HasJointMajority(cfg, acks) {
          best := candidates[i];
          FirstIsBest(cfg, matches, fallback, candidates, i);
          return;
        }
        i := i + 1;
      }
      assert forall v :: v in AgreedIndices(cfg, matches) ==> v in candidates;
      assert AgreedIndices(cfg, matches) == {};
    }

    /** What the leader knows about every member's log. */
    method Matches() returns (matches: map<Id, nat>)
      requires HasLog()
      ensures matches == MatchTable(cfg, View())
    {
      matches := map[];
      var rest := AllMembers(cfg) - {id};
      hide AllMembers;
      while rest != {}
        invariant rest <= AllMembers(cfg) - {id}
        invariant matches == matched - (matched.Keys - (AllMembers(cfg) - {id} - rest))
        decreases rest
      {
        var p :| p in rest;
        if p in matched { matches := matches[p := matched[p]]; }
        rest := rest - {p};
      }
      assert AllMembers(cfg) - {id} - rest == AllMembers(cfg) - {id};
      matches := matches[id := |log| - 1 + snapIndex];
    }

    method AdvanceCommit()
      requires HasLog()
      modifies this`commit, this`applied, this`app, this`pending, this`history, this`answers
      ensures State() == Extended(old(State()), AdvanceCommitIndex(cfg, old(View())))
    {
      hide RaftNode.ApplyLogs, MatchTable, BestIndex;
      ExtendedIdle(State());
      var matches := Matches();
      var best := MajorityMatch(cfg, matches, commit);
      if best > commit {
        var k := best - snapIndex;
        if 0 <= k < |log| && log[k].term == term {
          commit := best;
          ApplyLogs();
        }
      }
    }

    method Note(m: Message)
      requires m.AppendReply?
      modifies this`next, this`matched
      ensures View() == Recorded(cfg, old(View()), m)
    {
      hide AllMembers;
      if m.peer in AllMembers(cfg) - {id} && m.peer in next {
        if m.success {
          next := next[m.peer := m.matchIndex + 1];
          matched := matched[m.peer := m.matchIndex];
        } else if next[m.peer] > snapIndex + 1 {
          next := next[m.peer := next[m.peer] - 1];
        }
      }
    }

    method AppendReplyArm(m: Message)
      requires m.AppendReply? && HasLog()
      modifies this
      ensures State() == Extended(old(State()), HandleAppendReply(cfg, old(View()), m))
    {
      hide StepDown, AdvanceCommitIndex;
      ExtendedIdle(State());
      if role == Leader && m.term == term {
        Note(m);
        AdvanceCommit();
      } else if m.term > term {
        StepDownKeeps(View(), m.term);
        StepDownToFollower(m.term);
      }
    }

    // ---------------------------------------------------------------- clients

    /** Append one entry per request and note index and client. */
    method AppendRequests(reqs: seq<ClientRequest>) returns (batch: seq<(nat, Entry)>, waiting: seq<(nat, Request)>)
      requires HasLog()
      modifies this`log
      ensures log == old(log) + EntriesOf(term, reqs)
      ensures Paired(batch, EntriesOf(term, reqs), snapIndex + old(|log|))
      ensures Paired(waiting, RequestsOf(reqs), snapIndex + old(|log|))
    {
      batch, waiting := [], [];
      var i := 0;
      while i < |reqs|
        invariant i <= |reqs| && |batch| == |waiting| == i && log == old(log) + EntriesOf(term, reqs)[..i]
        invariant forall j :: 0 <= j < i ==> batch[j] == (snapIndex + old(|log|) + j, EntriesOf(term, reqs)[j])
        invariant forall j :: 0 <= j < i ==> waiting[j] == (snapIndex + old(|log|) + j, reqs[j].request)
        decreases |reqs| - i
      {
        var entry := Entry(term, reqs[i].command);
        log := log + [entry];
        var index := snapIndex + |log| - 1;
        batch := batch + [(index, entry)];
        waiting := waiting + [(index, reqs[i].request)];
        i := i + 1;
      }
    }

    method Wait(waiting: seq<(nat, Request)>)
      modifies this`pending
      ensures pending == old(pending) + FromPairs(waiting)
    {
      var i := 0;
      while i < |waiting|
        invariant i <= |waiting| && pending == old(pending) + FromPairs(waiting[..i])
        decreases |waiting| - i
      {
        assert waiting[..i + 1][..i] == waiting[..i];
        pending := pending[waiting[i].0 := waiting[i].1];
        i := i + 1;
      }
      assert waiting[..i] == waiting;
    }

    method Enqueue(reqs: seq<ClientRequest>)
      requires HasLog() && reqs != []
      modifies this`log, this`pending, this`db, this`journal
      ensures log == old(log) + EntriesOf(term, reqs)
      ensures pending == old(pending) + Numbered(RequestsOf(reqs), snapIndex + old(|log|))
      ensures db == ApplyWrites(old(db), [PutEntries(Numbered(EntriesOf(term, reqs), snapIndex + old(|log|)))])
      ensures journal == old(journal) + [PutEntries(Numbered(EntriesOf(term, reqs), snapIndex + old(|log|)))]
    {
      hide Numbered, ApplyWrites, FromPairs, Paired, EntriesOf, RequestsOf;
      var batch, waiting := AppendRequests(reqs);
      PairsNumbered(batch, EntriesOf(term, reqs), snapIndex + old(|log|));
      PairsNumbered(waiting, RequestsOf(reqs), snapIndex + old(|log|));
      PairedSome(batch, reqs, term, snapIndex + old(|log|));
      SaveLogEntriesBatch(batch);
      Wait(waiting);
    }

    method ClientBatch(reqs: seq<ClientRequest>)
      requires HasLog()
      modifies this
      ensures State() == Extended(old(State()), HandleClients(cfg, old(View()), reqs))
    {
      hide RaftNode.CommitIfAlone, ApplyWrites, Numbered;
      ghost var r := State();
      if reqs == [] {
        ExtendedIdle(r);
        return;
      }
      if role != Leader {
        answers := answers + set q | q in reqs :: Reply(q.request, false);
        return;
      }
      Enqueue(reqs);
      ghost var e := RaftNode.Enqueue(r.node, reqs);
      assert View() == e.node;
      assert State() == Extended(r, e);
      CommitIfAlone();
      AloneSplit(cfg, e);
      ExtendedTwice(r, e, RaftNode.CommitIfAlone(cfg, Idle(e.node)));
    }

    // ---------------------------------------------------------------- snapshots

    method CompactStore(last: nat)
      requires snapIndex <= last
      modifies this`db, this`journal
      ensures journal == old(journal) + Compacts(snapIndex, last)
      ensures db == ApplyWrites(old(db), Compacts(snapIndex, last))
    {
      ghost var ws := Compacts(snapIndex, last);
      var i := snapIndex + 1;
      while i <= last
        invariant snapIndex < i <= last + 1
        invariant journal == old(journal) + ws[..i - 1 - snapIndex] && db == ApplyWrites(old(db), ws[..i - 1 - snapIndex])
        decreases last + 1 - i
      {
        ghost var done := ws[..i - 1 - snapIndex];
        AppliedOne(old(db), done, CompactEntry(i));
        assert ws[..i - snapIndex] == done + [CompactEntry(i)];
        Write(CompactEntry(i));
        i := i + 1;
      }
      assert ws[..i - 1 - snapIndex] == ws;
    }

    method SaveSnapshot(meta: SnapshotMeta)
      requires snapIndex <= meta.index
      modifies this`db, this`journal
      ensures var ws := [PutMeta(meta), PutData(app)] + Compacts(snapIndex, meta.index);
              db == ApplyWrites(old(db), ws) && journal == old(journal) + ws
    {
      Write(PutMeta(meta));
      Write(PutData(app));
      WritesTwo(old(db), PutMeta(meta), PutData(app));
      hide ApplyWrites;
      CompactStore(meta.index);
      WritesConcat(old(db), [PutMeta(meta), PutData(app)], Compacts(snapIndex, meta.index));
    }

    method CreateSnapshot()
      requires AppliedKnown(View())
      modifies this`log, this`snapIndex, this`snapTerm, this`db, this`journal
      ensures View() == RaftNode.CreateSnapshot(old(View())).node
      ensures journal == old(journal) + RaftNode.CreateSnapshot(old(View())).writes
    {
      hide ApplyWrites, Compacts;
      var k := applied - snapIndex;
      var t := log[k].term;
      SaveSnapshot(SnapshotMeta(applied, t));
      snapTerm, log, snapIndex := t, [Entry(t, NoOp)] + log[k + 1..], applied;
    }

    // ---------------------------------------------------------------- heartbeats

    /** Everything after the peer's next index, if that is after the snapshot point. */
    method SendTo(p: Id)
      requires HasLog() && p in next
      modifies this`next, this`outbox
      ensures next == old(next)[p := NextAfter(old(View()), p)]
      ensures var h := Heartbeat(old(View()), p);
              outbox == if h.Some? then old(outbox) + {Packet(p, h.value)} else old(outbox)
    {
      if next[p] <= snapIndex { return; }
      var k := next[p] - 1 - snapIndex;
      if k >= |log| {
        next := next[p := |log| + snapIndex];
        return;
      }
      Send(Packet(p, Append(term, id, next[p] - 1, log[k].term, log[k + 1..], commit)));
    }

    method SendHeartbeats()
      requires HasLog()
      modifies this`next, this`outbox
      ensures View() == RaftNode.SendHeartbeats(cfg, old(View())).node
      ensures outbox == old(outbox) + RaftNode.SendHeartbeats(cfg, old(View())).sent
    {
      ghost var n := View();
      var peers := AllMembers(cfg) - {id};
      var rest := peers;
      hide AllMembers, Heartbeat, NextAfter, Beats, NextFor;
      NobodyServed(n);
      assert peers - rest == {};
      while rest != {}
        invariant rest <= peers && HasLog() && n == View().(next := n.next) && n.HasLog()
        invariant next == NextFor(n, peers - rest) && outbox == old(outbox) + Beats(n, peers - rest)
        decreases rest
      {
        var p :| p in rest;
        OneServed(n, peers - rest, p);
        assert peers - rest + {p} == peers - (rest - {p});
        if p in next {
          NextUntouched(n, peers - rest, p);
          SameBeat(n, View(), p);
          SendTo(p);
        }
        rest := rest - {p};
      }
      assert peers - rest == peers;
    }

    // ---------------------------------------------------------------- events

    method HandleRpc(m: Message)
      requires HasLog() && log[0].term == snapTerm
      modifies this
      ensures State() == Extended(old(State()), RaftNode.React(cfg, old(View()), Deliver(m)))
    {
      hide HandleRequestVote, HandleVoteReply, HandleAppend, HandleAppendReply, Extended;
      match m
      case RequestVote(_, _, _, _) => RequestVoteArm(m);
      case VoteReply(_, _, _) => VoteReplyArm(m);
      case Append(_, _, _, _, _, _) => AppendEntries(m);
      case AppendReply(_, _, _, _) => AppendReplyArm(m);
    }

    /** One event: the object does what `RaftNode.React` says, no more and no less. */
    method React(ev: Event)
      requires HasLog() && log[0].term == snapTerm
      modifies this
      ensures State() == Extended(old(State()), RaftNode.React(cfg, old(View()), ev))
    {
      hide RaftNode.StartElection, RaftNode.ApplyLogs, HandleClients, RaftNode.CreateSnapshot, RaftNode.SendHeartbeats;
      ExtendedIdle(State());
      match ev
      case ElectionTimeout => if role != Leader { StartElection(); }
      case HeartbeatTick => if role == Leader { HeartbeatShape(cfg, View()); SendHeartbeats(); }
      case ApplyTick => ApplyLogs();
      case SnapshotTick => if SnapshotDue(View()) && AppliedKnown(View()) { SnapshotShape(View()); CreateSnapshot(); }
      case Deliver(m) => HandleRpc(m);
      case Clients(reqs) => ClientBatch(reqs);
    }
  }

  /** The reaction to a message of the present term by a server that already follows. */
  function CurrentAppend(n: Node, m: Message): Effect
    requires n.HasLog() && m.Append?
  {
    if PrevMatches(n, m) then AcceptAppend(Idle(n), m)
    else Sending(Idle(n), AppendAnswer(n, m, false, RefusalHint(n, m)))
  }

  /** Accepting, without the answer. */
  function AcceptQuietly(n: Node, m: Message): Effect
    requires n.HasLog() && m.Append? && PrevMatches(n, m)
  {
    var a := Adopt(n, m.prevIndex, m.entries);
    Then(a, CommitUpTo(Idle(a.node), m.leaderCommit))
  }

  lemma AcceptSplit(n: Node, m: Message)
    requires n.HasLog() && m.Append? && PrevMatches(n, m)
    ensures AcceptAppend(Idle(n), m) == Sending(AcceptQuietly(n, m), AppendAnswer(n, m, true, m.prevIndex + |m.entries|))
    ensures AcceptQuietly(n, m).node.term == n.term && AcceptQuietly(n, m).node.id == n.id
  {
    hide AdoptWrites, ApplyWrites, Merge, RaftNode.ApplyLogs;
    var a := Adopt(n, m.prevIndex, m.entries);
    assert Then(Idle(n), a) == a;
    CommitSplit(a, m.leaderCommit);
    ApplyLogsKeepsTerm(a.node.(commit := Min(m.leaderCommit, a.node.LastIndex())));
  }

  lemma {:induction false} ApplyLogsKeepsTerm(n: Node)
    ensures RaftNode.ApplyLogs(n).node.term == n.term && RaftNode.ApplyLogs(n).node.id == n.id
    decreases n.commit - n.applied
  {
    if n.commit > n.applied { ApplyLogsKeepsTerm(ApplyOne(n).node); }
  }

  lemma AppendSplit(n: Node, m: Message)
    requires n.HasLog() && m.Append? && m.term >= n.term
    ensures var e := StepDown(n, m.term);
            e.node.HasLog() && HandleAppend(n, m) == Then(e, CurrentAppend(e.node, m))
  {
    hide AdoptWrites, ApplyWrites, Merge, RaftNode.ApplyLogs, CommitUpTo;
    var e := StepDown(n, m.term);
    if PrevMatches(e.node, m) {
      var b := Adopt(e.node, m.prevIndex, m.entries);
      var a := Then(e, b);
      CommitSplit(a, m.leaderCommit);
      AcceptSplit(e.node, m);
    }
  }

  // ---------------------------------------------------------------- entry by entry

  /** The log after the first `i` entries were taken over. */
  function Taken(log: seq<Entry>, p: nat, es: seq<Entry>, i: nat): seq<Entry>
    requires p <= |log| && i <= |es|
  {
    var k := Agreeing(log, p, es);
    if i <= k then log else log[..p + k] + es[k..i]
  }

  /** The entries from `k` up to `i`, numbered; the first of all has index `start`. */
  function PairsFrom(es: seq<Entry>, k: nat, i: nat, start: nat): seq<(nat, Entry)>
    requires k <= i <= |es|
  {
    if i == k then [] else PairsFrom(es, k, i - 1, start) + [(start + i - 1, es[i - 1])]
  }

  lemma PairsStep(es: seq<Entry>, k: nat, i: nat, start: nat)
    requires k <= i < |es|
    ensures PairsFrom(es, k, i + 1, start) == (if i == k then [] else PairsFrom(es, k, i, start)) + [(start + i, es[i])]
  {
    assert PairsFrom(es, k, k, start) == [];
  }

  lemma {:induction false} PairsFromAt(es: seq<Entry>, k: nat, i: nat, start: nat)
    requires k <= i <= |es|
    ensures var b := PairsFrom(es, k, i, start);
            |b| == i - k && forall j :: 0 <= j < |b| ==> b[j] == (start + k + j, es[k + j])
  {
    if k < i { PairsFromAt(es, k, i - 1, start); }
  }

  /** The new ones among the first `i` entries, with their indices; slot `p` has index `start`. */
  function NewPairs(log: seq<Entry>, p: nat, es: seq<Entry>, i: nat, start: nat): seq<(nat, Entry)>
    requires p <= |log| && i <= |es|
  {
    var k := Agreeing(log, p, es);
    if i <= k then [] else PairsFrom(es, k, i, start)
  }

  /** The deletes done once the first `i` entries were taken over. */
  function CutWrites(n: Node, p: nat, es: seq<Entry>, i: nat): seq<Write>
    requires p <= |n.log| && i <= |es|
  {
    var k := Agreeing(n.log, p, es);
    if i <= k || p + k == |n.log| then [] else Drops(n.db.log, n.snapIndex + p + k)
  }

  lemma TakenStart(n: Node, p: nat, es: seq<Entry>, start: nat)
    requires p <= |n.log|
    ensures Taken(n.log, p, es, 0) == n.log && NewPairs(n.log, p, es, 0, start) == [] && CutWrites(n, p, es, 0) == []
  {
  }

  lemma TakenAll(log: seq<Entry>, p: nat, es: seq<Entry>)
    requires p <= |log|
    ensures Taken(log, p, es, |es|) == Merge(log, p, es)
  {
  }

  lemma TakenStep(n: Node, p: nat, es: seq<Entry>, i: nat, start: nat, db: Store)
    requires p <= |n.log| && i < |es|
    requires db == ApplyWrites(n.db, CutWrites(n, p, es, i))
    ensures var cur := Taken(n.log, p, es, i);
            && p + i <= |cur|
            && if p + i < |cur| && cur[p + i].term == es[i].term then
                 && Taken(n.log, p, es, i + 1) == cur
                 && NewPairs(n.log, p, es, i + 1, start) == NewPairs(n.log, p, es, i, start)
                 && CutWrites(n, p, es, i + 1) == CutWrites(n, p, es, i)
               else
                 && Taken(n.log, p, es, i + 1) == cur[..p + i] + [es[i]]
                 && NewPairs(n.log, p, es, i + 1, start) == NewPairs(n.log, p, es, i, start) + [(start + i, es[i])]
                 && (if p + i < |cur| then db == n.db && CutWrites(n, p, es, i) == [] && CutWrites(n, p, es, i + 1) == Drops(n.db.log, n.snapIndex + p + i)
                     else CutWrites(n, p, es, i + 1) == CutWrites(n, p, es, i))
  {
    hide Agreeing, Drops, PairsFrom, ApplyWrites;
    AgreeingMeans(n.log, p, es);
    NoWrites(n.db);
    TakenGrows(n.log, p, es, i);
    var k := Agreeing(n.log, p, es);
    if k <= i { PairsStep(es, k, i, start); }
  }

  lemma TakenGrows(log: seq<Entry>, p: nat, es: seq<Entry>, i: nat)
    requires p <= |log| && i < |es|
    ensures var cur, k := Taken(log, p, es, i), Agreeing(log, p, es);
            && p + i <= |cur| && p + k <= |log|
            && (i < k ==> cur == log && p + i < |cur| && cur[p + i].term == es[i].term && Taken(log, p, es, i + 1) == cur)
            && (i == k ==> cur == log && !(p + i < |cur| && cur[p + i].term == es[i].term))
            && (i > k ==> |cur| == p + i)
            && (i >= k ==> Taken(log, p, es, i + 1) == cur[..p + i] + [es[i]])
  {
    hide Agreeing;
    AgreeingMeans(log, p, es);
    var k := Agreeing(log, p, es);
    if i >= k { assert es[k..i + 1] == es[k..i] + [es[i]]; }
  }

  /** The log without what conflicts with the entries. */
  function Uncut(log: seq<Entry>, p: nat, es: seq<Entry>): seq<Entry>
    requires p <= |log|
  {
    var k := Agreeing(log, p, es);
    if k < |es| && p + k < |log| then log[..p + k] else log
  }

  /** The log after those of the first `i` entries that lie beyond it were appended. */
  function Pushed(log: seq<Entry>, p: nat, es: seq<Entry>, i: nat): seq<Entry>
    requires p <= |log| && i <= |es|
  {
    if p + i <= |log| then log else log + es[|log| - p..i]
  }

  function PushedPairs(len: nat, p: nat, es: seq<Entry>, i: nat, base: nat): seq<(nat, Entry)>
    requires p <= len && i <= |es|
  {
    if p + i <= len then [] else PairsFrom(es, len - p, i, base + p)
  }

  lemma PushedStart(log: seq<Entry>, p: nat, es: seq<Entry>, base: nat)
    requires p <= |log|
    ensures Pushed(log, p, es, 0) == log && PushedPairs(|log|, p, es, 0, base) == []
  {
  }

  lemma PushedStep(log: seq<Entry>, p: nat, es: seq<Entry>, i: nat, base: nat)
    requires p <= |log| && i < |es|
    ensures var cur, done := Pushed(log, p, es, i), PushedPairs(|log|, p, es, i, base);
            if p + i >= |cur| then
              && Pushed(log, p, es, i + 1) == cur + [es[i]]
              && PushedPairs(|log|, p, es, i + 1, base) == done + [(base + p + i, es[i])]
            else
              Pushed(log, p, es, i + 1) == cur && PushedPairs(|log|, p, es, i + 1, base) == done
  {
    if p + i >= |log| {
      var k := |log| - p;
      PairsStep(es, k, i, base + p);
      hide PairsFrom;
      assert es[k..i + 1] == es[k..i] + [es[i]];
    }
  }

  lemma UncutLength(log: seq<Entry>, p: nat, es: seq<Entry>)
    requires p <= |log|
    ensures p <= |Uncut(log, p, es)|
  {
  }

  /** Cutting first and appending then gives the same as going entry by entry. */
  lemma PushedIsMerge(log: seq<Entry>, p: nat, es: seq<Entry>, base: nat)
    requires p <= |log|
    ensures p <= |Uncut(log, p, es)|
    ensures Pushed(Uncut(log, p, es), p, es, |es|) == Merge(log, p, es)
    ensures PushedPairs(|Uncut(log, p, es)|, p, es, |es|, base) == NewPairs(log, p, es, |es|, base + p)
  {
    var k := Agreeing(log, p, es);
    hide Agreeing;
    if k < |es| {
      hide PairsFrom;
      var u := Uncut(log, p, es);
      assert u == log[..p + k] && |u| == p + k;
      assert es[k..|es|] == es[k..];
    }
  }

  lemma StartAlone(cfg: ClusterConfiguration, n: Node)
    requires n.HasLog() && |AllMembers(cfg)| == 1
    ensures var e := RaftNode.Campaign(n); RaftNode.StartElection(cfg, n) == Then(e, RaftNode.BecomeLeader(cfg, e.node))
  {
  }

  function FromPairs<T>(batch: seq<(nat, T)>): map<nat, T> {
    if batch == [] then map[]
    else FromPairs(batch[..|batch| - 1])[batch[|batch| - 1].0 := batch[|batch| - 1].1]
  }

  /** Saving an empty batch writes nothing. */
  function BatchWrites(batch: seq<(nat, Entry)>): seq<Write> {
    if batch == [] then [] else [PutEntries(FromPairs(batch))]
  }

  /** Every element with its index, from `start` on. */
  ghost predicate Paired<T>(batch: seq<(nat, T)>, es: seq<T>, start: nat) {
    |batch| == |es| && forall j :: 0 <= j < |batch| ==> batch[j] == (start + j, es[j])
  }

  lemma PairedSome(batch: seq<(nat, Entry)>, reqs: seq<ClientRequest>, term: nat, start: nat)
    requires Paired(batch, EntriesOf(term, reqs), start) && reqs != []
    ensures batch != []
  {
  }

  lemma {:induction false} PairsNumbered<T>(batch: seq<(nat, T)>, es: seq<T>, start: nat)
    requires Paired(batch, es, start)
    ensures FromPairs(batch) == Numbered(es, start)
    decreases |es|
  {
    if es != [] { PairsNumbered(batch[..|es| - 1], es[..|es| - 1], start); }
  }

  lemma BatchIsNumbered(es: seq<Entry>, k: nat, start: nat)
    requires k < |es|
    ensures BatchWrites(PairsFrom(es, k, |es|, start)) == [PutEntries(Numbered(es[k..], start + k))]
  {
    hide Numbered, FromPairs;
    PairsFromAt(es, k, |es|, start);
    PairsNumbered(PairsFrom(es, k, |es|, start), es[k..], start + k);
  }

  /** The deletes and the batch together are the writes of the adoption. */
  lemma AdoptSplit(n: Node, prev: nat, es: seq<Entry>, batch: seq<(nat, Entry)>)
    requires n.HasLog() && n.snapIndex <= prev <= n.LastIndex()
    requires batch == NewPairs(n.log, prev - n.snapIndex + 1, es, |es|, prev + 1)
    ensures var cuts := CutWrites(n, prev - n.snapIndex + 1, es, |es|);
            && AdoptWrites(n, prev, es) == cuts + BatchWrites(batch)
            && ApplyWrites(n.db, cuts + BatchWrites(batch)) == ApplyWrites(ApplyWrites(n.db, cuts), BatchWrites(batch))
  {
    hide Agreeing, Drops, ApplyWrites, PairsFrom, FromPairs, Numbered;
    var k := Agreeing(n.log, prev - n.snapIndex + 1, es);
    WritesConcat(n.db, CutWrites(n, prev - n.snapIndex + 1, es, |es|), BatchWrites(batch));
    if k < |es| { BatchIsNumbered(es, k, prev + 1); }
  }

  lemma CommitSplit(a: Effect, leaderCommit: nat)
    requires a.node.HasLog()
    ensures CommitUpTo(a, leaderCommit) == Then(a, CommitUpTo(Idle(a.node), leaderCommit))
  {
  }

  lemma StepDownKeeps(n: Node, t: nat)
    ensures var n' := StepDown(n, t).node;
            && n'.log == n.log && n'.snapIndex == n.snapIndex && n'.snapTerm == n.snapTerm && n'.id == n.id
            && StepDown(n, t).sent == {} && StepDown(n, t).applies == []
  {
  }

  lemma AnswerSplit(e: Effect, m: Message)
    requires e.node.HasLog() && m.RequestVote?
    ensures AnswerVote(e, m) == Then(e, AnswerVote(Idle(e.node), m))
  {
  }

  lemma FirstIsBest(cfg: ClusterConfiguration, matches: map<Id, nat>, fallback: nat, candidates: seq<nat>, i: nat)
    requires forall v :: v in matches.Values <==> v in candidates
    requires forall j, k :: 0 <= j < k < |candidates| ==> candidates[j] > candidates[k]
    requires i < |candidates| && Acknowledged(cfg, matches, candidates[i])
    requires forall j :: 0 <= j < i ==> !Acknowledged(cfg, matches, candidates[j])
    ensures BestIndex(cfg, matches, fallback) == candidates[i]
  {
    hide HasJointMajority, HeldBy;
    var all := AgreedIndices(cfg, matches);
    assert candidates[i] in all;
    forall v | v in all ensures v <= candidates[i] {
      var j :| 0 <= j < |candidates| && candidates[j] == v;
    }
  }

  lemma NobodyServed(n: Node)
    requires n.HasLog()
    ensures Beats(n, {}) == {} && NextFor(n, {}) == n.next
  {
  }

  lemma OneServed(n: Node, ps: set<Id>, p: Id)
    requires n.HasLog() && p !in ps
    ensures NextFor(n, ps).Keys == n.next.Keys
    ensures NextFor(n, ps + {p}) == if p in n.next then NextFor(n, ps)[p := NextAfter(n, p)] else NextFor(n, ps)
    ensures Beats(n, ps + {p}) == Beats(n, ps) + if p in n.next && Heartbeat(n, p).Some? then {Packet(p, Heartbeat(n, p).value)} else {}
  {
    hide Heartbeat, NextAfter;
  }

  lemma NextUntouched(n: Node, ps: set<Id>, p: Id)
    requires n.HasLog() && p !in ps && p in n.next
    ensures p in NextFor(n, ps) && NextFor(n, ps)[p] == n.next[p]
  {
  }

  /** What goes to a peer depends on its own next index only. */
  lemma SameBeat(n: Node, m: Node, p: Id)
    requires n == m.(next := n.next) && n.HasLog() && p in n.next && p in m.next && n.next[p] == m.next[p]
    ensures Heartbeat(n, p) == Heartbeat(m, p) && NextAfter(n, p) == NextAfter(m, p)
  {
  }

  lemma HeartbeatShape(cfg: ClusterConfiguration, n: Node)
    requires n.HasLog()
    ensures var e := RaftNode.SendHeartbeats(cfg, n); e.writes == [] && e.applies == [] && e.replies == {}
  {
  }

  lemma SnapshotShape(n: Node)
    requires AppliedKnown(n)
    ensures var e := RaftNode.CreateSnapshot(n); e.sent == {} && e.applies == [] && e.replies == {}
  {
  }

  lemma AloneSplit(cfg: ClusterConfiguration, e: Effect)
    requires e.node.HasLog()
    ensures RaftNode.CommitIfAlone(cfg, e) == Then(e, RaftNode.CommitIfAlone(cfg, Idle(e.node)))
  {
  }

  lemma ApplyLogsUnfold(n: Node)
    requires n.commit > n.applied
    ensures RaftNode.ApplyLogs(n) == Then(ApplyOne(n), RaftNode.ApplyLogs(ApplyOne(n).node))
  {
  }

  lemma AppliedOne(db: Store, ws: seq<Write>, w: Write)
    ensures ApplyWrites(db, ws + [w]) == ApplyWrite(ApplyWrites(db, ws), w)
  {
    assert (ws + [w])[..|ws|] == ws;
  }

  lemma {:induction false} DropsIgnore(m: map<nat, Entry>, i: nat, start: nat)
    requires i < start
    ensures Drops(m - {i}, start) == Drops(m, start)
    decreases KeysFrom(m, start)
  {
    if start in m {
      assert start in KeysFrom(m, start) && start !in KeysFrom(m, start + 1);
      DropsIgnore(m, i, start + 1);
    }
  }

  lemma DropsElsewhere(m: map<nat, Entry>, index: nat)
    requires index in m
    ensures Drops(m, index) == [DropEntry(index)] + Drops(m - {index}, index + 1)
  {
    DropsIgnore(m, index, index + 1);
  }
}
