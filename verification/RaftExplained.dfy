/**
The protocol state behind a cluster. As long as no crash tears a log, every state
of an execution is explained by a reachable state of the protocol, in which what was
placed, applied and answered has its reasons.
*/
module RaftExplained {
  import opened Options
  import opened Quorum
  import opened Master
  import opened RaftProtocol
  import opened RaftInvariant
  import opened RaftSafety
  import opened RaftNode
  import opened RaftStorage
  import opened RaftReplies
  import opened RaftRefinement
  import opened RaftCrash
  import opened RaftCluster
  import opened RaftAccounts

  // ---------------------------------------------------------------- what the ledger records

  /** Entry `e` is committed for good at index `i`. */
  ghost predicate Entrenched(cfg: Config, h: History, i: nat, e: Entry) {
    exists log: seq<Entry>, c: nat, bound: nat :: EntrenchedBy(cfg, h, i, e, log, c, bound)
  }

  /** Entry `e` was committed at index `i` by leaders of terms up to `bound`. */
  ghost predicate EntrenchedSince(cfg: Config, h: History, i: nat, e: Entry, bound: nat) {
    exists log: seq<Entry>, c: nat :: EntrenchedBy(cfg, h, i, e, log, c, bound)
  }

  ghost predicate EntrenchedBy(cfg: Config, h: History, i: nat, e: Entry, log: seq<Entry>, c: nat, bound: nat) {
    Settled(cfg, h, log, c, bound) && 0 < i <= c && log[i - 1] == e
  }

  /** The leader of the slot's term put `cmd` there. */
  ghost predicate Stands(h: History, s: Slot, cmd: Command) {
    && s.term in h.reigns
    && 0 < s.index <= |h.reigns[s.term].log|
    && h.reigns[s.term].log[s.index - 1] == Entry(s.term, cmd)
  }

  ghost predicate PlacedOk(g: Ledger, h: History) {
    forall r :: r in g.placed ==> r in g.issued && Stands(h, g.placed[r], g.issued[r])
  }

  /** What was applied is committed for good. */
  ghost predicate AppliedOk(g: Ledger, cfg: Config, h: History) {
    forall d :: d in g.applied ==> Entrenched(cfg, h, d.index, d.entry)
  }

  /** The command is committed in its slot, by the leader that put it there. */
  ghost predicate Kept(cfg: Config, h: History, s: Slot, cmd: Command) {
    EntrenchedSince(cfg, h, s.index, Entry(s.term, cmd), s.term)
  }

  /** A request answered positively is committed in its own slot. */
  ghost predicate AnswersOk(g: Ledger, cfg: Config, h: History) {
    forall r :: r in g.answers && r.ok ==>
      && r.request in g.placed && r.request in g.issued
      && Kept(cfg, h, g.placed[r.request], g.issued[r.request])
  }

  ghost predicate LedgerOk(g: Ledger, w: World) {
    PlacedOk(g, w.past) && AppliedOk(g, w.cfg, w.past) && AnswersOk(g, w.cfg, w.past)
  }

  /** The protocol state `w` explains the cluster. */
  ghost predicate Explains(c: Cluster, w: World) {
    && Reachable(w)
    && w.cfg == c.cfg
    && w.servers.Keys == c.nodes.Keys
    && c.net <= w.net
    && (forall id {:trigger c.nodes[id]} :: id in c.nodes ==> Mirrors(id, c.nodes[id], w.servers[id]))
    && LedgerOk(c.ledger, w)
  }

  // ---------------------------------------------------------------- facts that stay

  lemma EntrenchedGrows(cfg: Config, h: History, h': History, i: nat, e: Entry)
    requires Entrenched(cfg, h, i, e) && HistoryGrows(h, h')
    ensures Entrenched(cfg, h', i, e)
  {
    var log: seq<Entry>, c: nat, bound: nat :| EntrenchedBy(cfg, h, i, e, log, c, bound);
    SettledGrows(cfg, h, h', log, log, c, bound, bound);
    assert EntrenchedBy(cfg, h', i, e, log, c, bound);
  }

  lemma KeptGrows(cfg: Config, h: History, h': History, s: Slot, cmd: Command)
    requires Kept(cfg, h, s, cmd) && HistoryGrows(h, h')
    ensures Kept(cfg, h', s, cmd)
  {
    var log: seq<Entry>, c: nat :| EntrenchedBy(cfg, h, s.index, Entry(s.term, cmd), log, c, s.term);
    SettledGrows(cfg, h, h', log, log, c, s.term, s.term);
    assert EntrenchedBy(cfg, h', s.index, Entry(s.term, cmd), log, c, s.term);
  }

  lemma KeptIsEntrenched(cfg: Config, h: History, s: Slot, cmd: Command)
    requires Kept(cfg, h, s, cmd)
    ensures Entrenched(cfg, h, s.index, Entry(s.term, cmd))
  {
    var log: seq<Entry>, c: nat :| EntrenchedBy(cfg, h, s.index, Entry(s.term, cmd), log, c, s.term);
  }

  /** What was committed for a client is in the log of every leader from that term on. */
  lemma KeptInReign(w: World, s: Slot, cmd: Command, t: nat)
    requires Inv(w) && Kept(w.cfg, w.past, s, cmd) && t in w.past.reigns && s.term <= t
    ensures 0 < s.index <= |w.past.reigns[t].log| && w.past.reigns[t].log[s.index - 1] == Entry(s.term, cmd)
  {
    hide Inv;
    var log: seq<Entry>, c: nat :| EntrenchedBy(w.cfg, w.past, s.index, Entry(s.term, cmd), log, c, s.term);
    SettledInReign(w, log, c, s.term, t);
    assert log[s.index - 1] == log[..c][s.index - 1];
  }

  lemma StandsGrows(h: History, h': History, s: Slot, cmd: Command)
    requires Stands(h, s, cmd) && HistoryGrows(h, h')
    ensures Stands(h', s, cmd)
  {
    assert ReignGrows(h.reigns[s.term], h'.reigns[s.term]);
  }

  lemma LedgerGrows(g: Ledger, w: World, w': World)
    requires LedgerOk(g, w) && Grows(w, w')
    ensures LedgerOk(g, w')
  {
    forall r | r in g.placed ensures r in g.issued && Stands(w'.past, g.placed[r], g.issued[r]) {
      StandsGrows(w.past, w'.past, g.placed[r], g.issued[r]);
    }
    forall d | d in g.applied ensures Entrenched(w'.cfg, w'.past, d.index, d.entry) { EntrenchedGrows(w.cfg, w.past, w'.past, d.index, d.entry); }
    forall r | r in g.answers && r.ok
      ensures Kept(w'.cfg, w'.past, g.placed[r.request], g.issued[r.request]) {
      KeptGrows(w.cfg, w.past, w'.past, g.placed[r.request], g.issued[r.request]);
    }
  }

  /** No two entries are entrenched at one index. */
  lemma EntrenchedOnce(w: World, i: nat, a: Entry, b: Entry)
    requires Inv(w) && Entrenched(w.cfg, w.past, i, a) && Entrenched(w.cfg, w.past, i, b)
    ensures a == b
  {
    hide Inv;
    var l: seq<Entry>, c: nat, t: nat :| EntrenchedBy(w.cfg, w.past, i, a, l, c, t);
    var m: seq<Entry>, d: nat, u: nat :| EntrenchedBy(w.cfg, w.past, i, b, m, d, u);
    SettledAgree(w, l, c, t, m, d, u, i - 1);
  }

  // ---------------------------------------------------------------- one reaction

  /** The world explains the cluster, and node `id` may see event `ev`. */
  ghost predicate Ready(c: Cluster, w: World, id: Id, ev: Event) {
    Explains(c, w) && Poised(c, id, ev)
  }

  lemma ReadyFacts(c: Cluster, w: World, id: Id, ev: Event)
    requires Ready(c, w, id, ev)
    ensures Poised(c, id, ev) && Reachable(w) && w.cfg == c.cfg && id in w.servers && id in c.nodes && c.nodes[id].HasLog()
    ensures Fresh(c.ledger, ev) && WaitsOk(c.ledger, c.nodes[id]) && Tidy(c.ledger) && CommitKnown(c.nodes[id])
    ensures Mirrors(id, c.nodes[id], w.servers[id])
    ensures PlacedOk(c.ledger, w.past) && AnswersOk(c.ledger, w.cfg, w.past) && AppliedOk(c.ledger, w.cfg, w.past)
  {
    hide Poised, WaitsOk, Mirrors, PlacedOk, AnswersOk, AppliedOk, Reachable, Fresh, Tidy;
    PoisedFacts(c, id, ev);
    assert c.nodes[id] == c.nodes[id];
  }

  /** The reaction to `ev` is complete, and `w1` explains the node after it. */
  ghost predicate Completed(c: Cluster, w: World, id: Id, ev: Event, w1: World) {
    && Ready(c, w, id, ev)
    && Moved(w, w1, id)
    && Mirrors(id, React(c.cfg, c.nodes[id], ev).node, w1.servers[id])
  }

  lemma NewStands(w1: World, id: Id, n: Node, n': Node, reqs: seq<ClientRequest>, j: nat)
    requires Inv(w1) && id in w1.servers && Mirrors(id, n', w1.servers[id]) && n.HasLog() && j < |reqs|
    requires n'.log == n.log + EntriesOf(n.term, reqs) && n'.role == Leader && n'.term == n.term
    requires n'.snapIndex == n.snapIndex && n'.snapTerm == n.snapTerm
    ensures Stands(w1.past, Slot(n.LastIndex() + 1 + j, n.term), reqs[j].command)
  {
    var s := w1.servers[id];
    assert LeaderOk(w1.past, id, s) by { assert ServerOk(w1.cfg, w1.past, id, s); }
    hide Inv;
    OffsetLast(n'.log, n'.snapIndex, n'.snapTerm, s.log);
    OffsetAt(n'.log, n'.snapIndex, n'.snapTerm, s.log, n.LastIndex() + 1 + j);
    assert n'.log[|n.log| + j] == EntriesOf(n.term, reqs)[j];
  }

  lemma PlaceStands(c: Cluster, w: World, id: Id, ev: Event, w1: World, r: Request)
    requires Completed(c, w, id, ev, w1) && r in Places(c.nodes[id], ev)
    ensures r in Issues(ev) && Stands(w1.past, Places(c.nodes[id], ev)[r], Issues(ev)[r])
  {
    hide Ready, Poised, Mirrors, Inv, HandleClients, Reachable, WaitsOk, Tidy;
    ReadyFacts(c, w, id, ev);
    var n := c.nodes[id];
    var j := PlacesOnly(c.ledger, n, ev, r);
    ClientsLog(c.cfg, n, ev.requests);
    ReachableInv(w1);
    NewStands(w1, id, n, HandleClients(c.cfg, n, ev.requests).node, ev.requests, j);
  }

  lemma AllStand(c: Cluster, w: World, id: Id, ev: Event, w1: World, r: Request)
    requires Completed(c, w, id, ev, w1)
    requires r in c.ledger.placed + Places(c.nodes[id], ev)
    ensures r in c.ledger.issued + Issues(ev)
    ensures Stands(w1.past, (c.ledger.placed + Places(c.nodes[id], ev))[r], (c.ledger.issued + Issues(ev))[r])
  {
    hide Ready, Poised, React, Reachable, Stands, HistoryGrows, Fresh, Mirrors, Tidy, WaitsOk;
    ReadyFacts(c, w, id, ev);
    var g, n := c.ledger, c.nodes[id];
    assert HistoryGrows(w.past, w1.past) by { ReachGrows(w, w1); }
    if r in Places(n, ev) {
      PlaceStands(c, w, id, ev, w1, r);
    } else {
      OldPlaced(g, n, ev, r);
      StandsGrows(w.past, w1.past, g.placed[r], g.issued[r]);
    }
  }

  lemma PlacedAfter(c: Cluster, w: World, id: Id, ev: Event, w1: World, g': Ledger)
    requires Completed(c, w, id, ev, w1)
    requires g'.issued == c.ledger.issued + Issues(ev) && g'.placed == c.ledger.placed + Places(c.nodes[id], ev)
    ensures PlacedOk(g', w1.past)
  {
    hide Completed, Stands;
    forall r | r in g'.placed ensures r in g'.issued && Stands(w1.past, g'.placed[r], g'.issued[r]) {
      AllStand(c, w, id, ev, w1, r);
    }
  }

  // ---------------------------------------------------------------- applied and answered

  /** What a server has committed is entrenched. */
  lemma CommittedEntrenched(w: World, id: Id, i: nat)
    requires Inv(w) && id in w.servers && 0 < i <= w.servers[id].commit
    ensures i <= |w.servers[id].log| && Entrenched(w.cfg, w.past, i, w.servers[id].log[i - 1])
    ensures EntrenchedSince(w.cfg, w.past, i, w.servers[id].log[i - 1], w.servers[id].term)
  {
    var s := w.servers[id];
    assert ServerOk(w.cfg, w.past, id, s);
    assert EntrenchedBy(w.cfg, w.past, i, s.log[i - 1], s.log, s.commit, s.term);
  }

  lemma NewApplied(w1: World, id: Id, n0: Node, e: Effect, d: Deed)
    requires Reachable(w1) && id in w1.servers && Mirrors(id, e.node, w1.servers[id]) && AppliesLog(n0, e) && d in Deeds(e)
    ensures Entrenched(w1.cfg, w1.past, d.index, d.entry)
  {
    hide Inv, Entrenched, EntrenchedSince, Reachable, Durable;
    var n, s := e.node, w1.servers[id];
    var a :| a in e.applies && d == Deed(a.index, a.entry, n.id, n.role, n.term);
    var j :| 0 <= j < |e.applies| && e.applies[j] == a;
    assert AppliesAt(n0, e, j);
    OffsetAt(n.log, n.snapIndex, n.snapTerm, s.log, a.index);
    ReachableInv(w1);
    CommittedEntrenched(w1, id, a.index);
  }

  /** A positive answer: the slot is committed. */
  lemma NewPositive(w1: World, id: Id, n': Node, i: nat, cmd: Command)
    requires Reachable(w1) && id in w1.servers && Mirrors(id, n', w1.servers[id]) && n'.role == Leader
    requires Stands(w1.past, Slot(i, n'.term), cmd) && i <= n'.commit
    ensures Kept(w1.cfg, w1.past, Slot(i, n'.term), cmd)
  {
    var s := w1.servers[id];
    ReachableInv(w1);
    assert LeaderOk(w1.past, id, s) by { assert ServerOk(w1.cfg, w1.past, id, s); }
    hide Inv, Entrenched, EntrenchedSince;
    CommittedEntrenched(w1, id, i);
  }

  lemma PositiveEntrenched(c: Cluster, w: World, id: Id, ev: Event, w1: World, r: Reply)
    requires Completed(c, w, id, ev, w1) && r in React(c.cfg, c.nodes[id], ev).replies && r.ok
    ensures var placed, issued := c.ledger.placed + Places(c.nodes[id], ev), c.ledger.issued + Issues(ev);
            && r.request in placed && r.request in issued
            && Kept(w1.cfg, w1.past, placed[r.request], issued[r.request])
  {
    hide React, Ready, Poised, Entrenched, EntrenchedSince, Stands, Reachable, Fresh, NewPending, AnswersOne, Mirrors;
    ReadyFacts(c, w, id, ev);
    var g, n := c.ledger, c.nodes[id];
    var e := React(c.cfg, n, ev);
    ReactAnswers(c.cfg, n, ev);
    hide WaitsOk;
    var i := PositiveSlot(g, n, ev, e, r);
    AllStand(c, w, id, ev, w1, r.request);
    NewPositive(w1, id, e.node, i, (g.issued + Issues(ev))[r.request]);
  }

  ghost predicate Honoured(g: Ledger, cfg: Config, h: History, r: Request) {
    && r in g.placed && r in g.issued
    && Kept(cfg, h, g.placed[r], g.issued[r])
  }

  lemma OldHonoured(c: Cluster, w: World, id: Id, ev: Event, w1: World, g': Ledger, r: Reply)
    requires Ready(c, w, id, ev) && Grows(w, w1) && r in c.ledger.answers && r.ok
    requires g'.issued == c.ledger.issued + Issues(ev)
    requires g'.placed == c.ledger.placed || g'.placed == c.ledger.placed + Places(c.nodes[id], ev)
    ensures Honoured(g', w1.cfg, w1.past, r.request)
  {
    hide Ready, Poised, React, Reachable, Stands, Entrenched, EntrenchedSince, Fresh, Mirrors, Tidy, WaitsOk;
    ReadyFacts(c, w, id, ev);
    var g, n := c.ledger, c.nodes[id];
    var q := r.request;
    OldPlaced(g, n, ev, q);
    KeptGrows(w.cfg, w.past, w1.past, g.placed[q], g.issued[q]);
  }

  lemma AnswersAfter(c: Cluster, w: World, id: Id, ev: Event, w1: World, got: set<Reply>, g': Ledger)
    requires Completed(c, w, id, ev, w1) && got <= React(c.cfg, c.nodes[id], ev).replies
    requires g'.issued == c.ledger.issued + Issues(ev) && g'.placed == c.ledger.placed + Places(c.nodes[id], ev)
    requires g'.answers == c.ledger.answers + got
    ensures AnswersOk(g', w1.cfg, w1.past)
  {
    hide React, Ready, Mirrors, Entrenched, EntrenchedSince, Reachable;
    assert Grows(w, w1) by { ReadyFacts(c, w, id, ev); ReachGrows(w, w1); }
    forall r | r in g'.answers && r.ok ensures Honoured(g', w1.cfg, w1.past, r.request) {
      if r in got { PositiveEntrenched(c, w, id, ev, w1, r); } else { OldHonoured(c, w, id, ev, w1, g', r); }
    }
  }

  // ---------------------------------------------------------------- one step of the cluster

  lemma AppliedAfter(g: Ledger, w: World, w1: World, id: Id, n0: Node, e: Effect, done: set<Deed>, g': Ledger)
    requires AppliedOk(g, w.cfg, w.past) && Reachable(w) && Moved(w, w1, id) && Mirrors(id, e.node, w1.servers[id])
    requires AppliesLog(n0, e) && done <= Deeds(e) && g'.applied == g.applied + done
    ensures AppliedOk(g', w1.cfg, w1.past)
  {
    hide Mirrors, Reachable, AppliesLog, Entrenched, EntrenchedSince, Deeds;
    ReachGrows(w, w1);
    forall d | d in g'.applied ensures Entrenched(w1.cfg, w1.past, d.index, d.entry) {
      if d in done { NewApplied(w1, id, n0, e, d); } else { EntrenchedGrows(w.cfg, w.past, w1.past, d.index, d.entry); }
    }
  }

  /** The ledger of a complete reaction, in the world that explains it. */
  lemma LedgerAfter(c: Cluster, w: World, id: Id, ev: Event, w1: World, o: Outcome)
    requires Completed(c, w, id, ev, w1) && o.placed
    requires o.answers <= React(c.cfg, c.nodes[id], ev).replies
    requires o.applied <= Deeds(React(c.cfg, c.nodes[id], ev))
    ensures LedgerOk(Record(c.ledger, c.nodes[id], ev, o), w1)
  {
    hide React, Ready, Poised, Reachable, Mirrors, Fresh, WaitsOk, AppliedOk, PlacedOk, AnswersOk, Tidy;
    ReadyFacts(c, w, id, ev);
    var g, n := c.ledger, c.nodes[id];
    var e := React(c.cfg, n, ev);
    var g' := Record(g, n, ev, o);
    PlacedAfter(c, w, id, ev, w1, g');
    AnswersAfter(c, w, id, ev, w1, o.answers, g');
    ReactApplies(c.cfg, n, ev);
    AppliedAfter(g, w, w1, id, n, e, o.applied, g');
  }

  lemma MirrorKnown(id: Id, n: Node, s: Server)
    requires Mirrors(id, n, s)
    ensures CommitKnown(n) && n.snapIndex <= n.applied <= n.commit
  {
    OffsetLast(n.log, n.snapIndex, n.snapTerm, s.log);
  }

  /** Node `id` moved on, the ledger grew; everybody else is as before. */
  lemma ExplainAfter(c: Cluster, w: World, id: Id, ev: Event, n': Node, o: Outcome, w': World)
    requires Explains(c, w) && id in c.nodes && c.nodes[id].HasLog() && Moved(w, w', id) && Mirrors(id, n', w'.servers[id])
    requires o.sent <= w'.net && LedgerOk(Record(c.ledger, c.nodes[id], ev, o), w')
    ensures Explains(After(c, id, ev, n', o), w')
  {
    hide React, Reachable, LedgerOk, Mirrors, Record;
    var c' := After(c, id, ev, n', o);
    forall x | x in c'.nodes ensures Mirrors(x, c'.nodes[x], w'.servers[x]) {
      if x != id { assert c.nodes[x] == c'.nodes[x]; }
    }
  }

  lemma ReactExplained(c: Cluster, w: World, id: Id, ev: Event) returns (w': World)
    requires Ready(c, w, id, ev)
    ensures Reach(w, w') && c.nodes[id].HasLog()
    ensures var e := React(c.cfg, c.nodes[id], ev); Explains(After(c, id, ev, e.node, Whole(e)), w')
  {
    hide React, Reachable, LedgerOk, Orderly, Fresh, Mirrors;
    assert Enabled(id, ev, w.net);
    hide Ready, Poised, Explains, Enabled, PlacedOk, AnswersOk, AppliedOk, WaitsOk, Tidy;
    ReadyFacts(c, w, id, ev);
    var n := c.nodes[id];
    var e := React(c.cfg, n, ev);
    w' := ReactSim(w, id, n, ev);
    LedgerAfter(c, w, id, ev, w', Whole(e));
    ReadyExplains(c, w, id, ev);
    ExplainAfter(c, w, id, ev, e.node, Whole(e), w');
  }

  lemma ReadyExplains(c: Cluster, w: World, id: Id, ev: Event)
    requires Ready(c, w, id, ev)
    ensures Explains(c, w)
  {
  }

  /** A crash before the last write: at most refusals got out. */
  lemma LedgerRefused(c: Cluster, w: World, id: Id, ev: Event, o: Outcome, w': World)
    requires Ready(c, w, id, ev) && c.nodes[id].HasLog() && Grows(w, w') && !o.placed && o.applied == {}
    requires forall r :: r in o.answers ==> !r.ok
    ensures LedgerOk(Record(c.ledger, c.nodes[id], ev, o), w')
  {
    hide React, Ready, Poised, Mirrors, Fresh, WaitsOk, Reachable, Stands, Entrenched, EntrenchedSince, Grows, Issues;
    ReadyFacts(c, w, id, ev);
    var g := c.ledger;
    var g' := Record(g, c.nodes[id], ev, o);
    forall r | r in g.issued ensures r !in Issues(ev) {
      if r in Issues(ev) { IssuesNew(g, ev, r); }
    }
    assert PlacedOk(g', w.past) && AppliedOk(g', w.cfg, w.past) && AnswersOk(g', w.cfg, w.past);
    LedgerGrows(g', w, w');
  }

  lemma CrashExplained(c: Cluster, w: World, id: Id, ev: Event, k: nat, o: Outcome) returns (w': World)
    requires Ready(c, w, id, ev) && c.nodes[id].HasLog()
    requires CutSafe(React(c.cfg, c.nodes[id], ev).writes, k) && Partial(c.nodes[id], ev, React(c.cfg, c.nodes[id], ev), k, o)
    ensures Reach(w, w')
    ensures var n := c.nodes[id];
            var db := ApplyWrites(n.db, React(c.cfg, n, ev).writes[..k]);
            Explains(After(c, id, ev, Boot(c.cfg, id, db), o), w')
  {
    hide React, Reachable, LedgerOk, Fresh, Orderly, Mirrors;
    assert Enabled(id, ev, w.net);
    hide Ready, Poised, Explains, Enabled, PlacedOk, AnswersOk, AppliedOk, WaitsOk, Tidy;
    ReadyFacts(c, w, id, ev);
    var n := c.nodes[id];
    var e := React(c.cfg, n, ev);
    var g' := Record(c.ledger, n, ev, o);
    var w1: World;
    w1, w' := CrashSim(w, id, n, ev, k);
    MoveTrans(w, w1, w', id);
    if k == |e.writes| {
      LedgerAfter(c, w, id, ev, w1, o);
      ReachGrows(w1, w');
      LedgerGrows(g', w1, w');
    } else {
      ReachGrows(w, w');
      LedgerRefused(c, w, id, ev, o, w');
    }
    hide Boot;
    ReadyExplains(c, w, id, ev);
    ExplainAfter(c, w, id, ev, Boot(c.cfg, id, ApplyWrites(n.db, e.writes[..k])), o, w');
  }

  lemma AdvanceExplained(c: Cluster, w: World, c': Cluster) returns (w': World)
    requires Explains(c, w) && Orderly(c) && Advances(c, c', LogsWhole)
    ensures Explains(c', w') && Reach(w, w')
  {
    var h :| Happens(c, c', h) && Admitted(c, h, LogsWhole);
    hide Explains, Orderly, React, Fresh, Enabled, TearsLog;
    match h
    case Reacts(id, ev) => w' := ReactExplained(c, w, id, ev);
    case Crashes(id, ev, k, o) => w' := CrashExplained(c, w, id, ev, k, o);
  }

  // ---------------------------------------------------------------- executions

  function MatchedOf(c: Cluster, id: Id): map<Id, nat> { if id in c.nodes then c.nodes[id].matched else map[] }

  lemma StartExplained(c: Cluster) returns (w: World)
    requires Start(c)
    ensures Explains(c, w)
  {
    w := World(c.cfg, map id | id in c.nodes :: Server(Follower, 0, None, [], 0, MatchedOf(c, id), {}), {},
               History(map[], map[], map[], map[]));
    ReachSelf(w);
    assert Init(w);
    forall id | id in c.nodes ensures Mirrors(id, c.nodes[id], w.servers[id]) {
      assert StartsBlank(c, id);
      assert Durable(BLANK, 0, None, 0, []);
      BootRecovers(c.cfg, id, BLANK, w.servers[id], 0);
    }
  }

  /** Every execution of the cluster is explained, moment by moment, by one run of the protocol. */
  ghost predicate ExplainsAll(cs: seq<Cluster>, ws: seq<World>) {
    && |ws| == |cs|
    && (forall i :: 0 <= i < |cs| ==> Explains(cs[i], ws[i]))
    && (forall i, j :: 0 <= i <= j < |cs| ==> Reach(ws[i], ws[j]))
  }

  lemma {:induction false} ExecutionExplained(cs: seq<Cluster>) returns (ws: seq<World>)
    requires Execution(cs)
    ensures ExplainsAll(cs, ws)
    decreases |cs|
  {
    hide Explains, Advances, Start, Orderly;
    if |cs| == 1 {
      var w := StartExplained(cs[0]);
      ReachSelf(w);
      ws := [w];
    } else {
      var k := |cs| - 1;
      var cs0 := cs[..k];
      assert Execution(cs0) by {
        forall i | 0 < i < |cs0| ensures AdvanceAt(cs0, i, LogsWhole) { assert AdvanceAt(cs, i, LogsWhole); }
      }
      var ws0 := ExecutionExplained(cs0);
      assert AdvanceAt(cs, k, LogsWhole);
      assert cs0[k - 1] == cs[k - 1];
      RunsWider(cs, LogsWhole, AnyPoint);
      RunsOrderly(cs, k - 1);
      var w := AdvanceExplained(cs[k - 1], ws0[k - 1], cs[k]);
      ws := ws0 + [w];
      ReachSelf(w);
      forall i, j | 0 <= i <= j < |cs| ensures Reach(ws[i], ws[j]) {
        if i < k && j == k { ReachTrans(ws0[i], ws0[k - 1], w); }
      }
    }
  }
}
