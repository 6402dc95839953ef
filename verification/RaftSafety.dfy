/**
Safety over whole runs of the protocol: one leader per term, log matching,
leader completeness and agreement on committed entries, under message loss,
duplication, reordering and restarts.
*/
module RaftSafety {
  import opened Quorum
  import opened RaftProtocol
  import opened RaftInvariant
  import opened RaftSteps
  import opened RaftLogSteps

  ghost predicate Run(ws: seq<World>) {
    && |ws| > 0
    && Init(ws[0])
    && Steps(ws)
  }

  lemma InitInv(w: World)
    requires Init(w)
    ensures Inv(w)
  {
    forall n | n in w.servers ensures ServerOk(w.cfg, w.past, n, w.servers[n]) {}
  }

  /** Every step keeps the invariant and only adds to the history. */
  lemma NextKeeps(w: World, w': World)
    requires Inv(w) && Next(w, w')
    ensures Inv(w') && Grows(w, w')
  {
    var st :| Performs(w, w', st);
    match st
    case Stutter =>
    case StandStep(n) => StandKeeps(w, w', n);
    case AdoptTermStep(n, t, v) => AdoptTermKeeps(w, w', n, t, v);
    case GrantVoteStep(n, m) => GrantVoteKeeps(w, w', n, m);
    case CountVoteStep(n, m) => CountVoteKeeps(w, w', n, m);
    case AscendStep(n, ms) => AscendKeeps(w, w', n, ms);
    case ProposeStep(n, es) => ProposeKeeps(w, w', n, es);
    case ReplicateStep(n, ps) => ReplicateKeeps(w, w', n, ps);
    case AcceptStep(n, m) => AcceptKeeps(w, w', n, m);
    case LoseSuffixStep(n, m) => LoseSuffixKeeps(w, w', n, m);
    case RecordMatchStep(n, m) => RecordMatchKeeps(w, w', n, m);
    case AdvanceCommitStep(n, c) => AdvanceCommitKeeps(w, w', n, c);
    case RetreatStep(n, c, ms, vs) => RetreatKeeps(w, w', n, c, ms, vs);
    case RefuseStep(ps) => RefuseKeeps(w, w', ps);
  }

  lemma {:induction false} RunInv(ws: seq<World>, i: nat)
    requires Run(ws) && i < |ws|
    ensures Inv(ws[i])
  {
    hide Inv, Next, Init;
    if i == 0 {
      InitInv(ws[0]);
    } else {
      RunInv(ws, i - 1);
      assert StepAt(ws, i);
      NextKeeps(ws[i - 1], ws[i]);
    }
  }

  lemma {:induction false} RunGrows(ws: seq<World>, i: nat, j: nat)
    requires Run(ws) && i <= j < |ws|
    ensures Grows(ws[i], ws[j])
  {
    hide Inv, Next, Init;
    if i < j {
      RunGrows(ws, i, j - 1);
      hide Grows;
      RunInv(ws, j - 1);
      assert StepAt(ws, j);
      NextKeeps(ws[j - 1], ws[j]);
      GrowsTransitive(ws[i], ws[j - 1], ws[j]);
    }
  }

  // ---------------------------------------------------------------- elections

  /** A term has at most one leader, over the whole run. */
  lemma ElectionSafety(ws: seq<World>, i: nat, j: nat, n: Id, m: Id)
    requires Run(ws) && i <= j < |ws| && n in ws[i].servers && m in ws[j].servers
    requires ws[i].servers[n].role == Leader && ws[j].servers[m].role == Leader
    requires ws[i].servers[n].term == ws[j].servers[m].term
    ensures n == m
  {
    RunInv(ws, i);
    RunInv(ws, j);
    RunGrows(ws, i, j);
    assert ServerOk(ws[i].cfg, ws[i].past, n, ws[i].servers[n]);
    assert ServerOk(ws[j].cfg, ws[j].past, m, ws[j].servers[m]);
  }

  /** A server grants its vote to one candidate per term, also across crashes
      between saving the term and saving the vote. */
  lemma OneVotePerTerm(ws: seq<World>, i: nat, j: nat, v: Id, t: nat, c: Id, d: Id)
    requires Run(ws) && i <= j < |ws|
    requires Packet(c, VoteReply(t, true, v)) in ws[i].net && Packet(d, VoteReply(t, true, v)) in ws[j].net
    ensures c == d
  {
    RunInv(ws, i);
    RunInv(ws, j);
    RunGrows(ws, i, j);
    assert PacketOk(ws[i].cfg, ws[i].past, Packet(c, VoteReply(t, true, v)));
    assert PacketOk(ws[j].cfg, ws[j].past, Packet(d, VoteReply(t, true, v)));
  }

  // ---------------------------------------------------------------- logs

  /** If two logs ever hold an entry of the same term at the same index, they are
      identical up to that index. */
  lemma LogsMatch(ws: seq<World>, i: nat, j: nat, n: Id, m: Id, k: nat)
    requires Run(ws) && i <= j < |ws| && n in ws[i].servers && m in ws[j].servers
    requires k < |ws[i].servers[n].log| && k < |ws[j].servers[m].log|
    requires ws[i].servers[n].log[k].term == ws[j].servers[m].log[k].term
    ensures ws[i].servers[n].log[..k + 1] == ws[j].servers[m].log[..k + 1]
  {
    RunInv(ws, i);
    RunInv(ws, j);
    RunGrows(ws, i, j);
    assert ServerOk(ws[i].cfg, ws[i].past, n, ws[i].servers[n]);
    assert ServerOk(ws[j].cfg, ws[j].past, m, ws[j].servers[m]);
    GroundedGrows(ws[i].past, ws[j].past, ws[i].servers[n].log);
    LogMatching(ws[j].past, ws[i].servers[n].log, ws[j].servers[m].log, k);
  }

  // ---------------------------------------------------------------- commitment

  lemma PrefixChain(a: seq<Entry>, b: seq<Entry>, c: seq<Entry>)
    requires a <= b <= c
    ensures a <= c
  {
    assert c[..|a|] == b[..|a|];
  }

  /** A decided index is part of every reign from its term on. */
  lemma DecidedStays(w: World, t: nat, i: nat, t2: nat)
    requires Inv(w) && Decided(w.cfg, w.past, t, i) && t2 in w.past.reigns && t <= t2
    ensures w.past.reigns[t].log[..i] <= w.past.reigns[t2].log
  {
    if t < t2 {
      var r, r2 := w.past.reigns[t], w.past.reigns[t2];
      assert r.log[..i] <= r2.base by {
        DecidedIsOpen(w, t, i);
        assert LeaderKeeps(w, t, i, t2);
      }
      assert r2.base <= r2.log by { assert ReignOk(w.cfg, w.past, t2); }
      PrefixChain(r.log[..i], r2.base, r2.log);
    }
  }

  lemma ShorterPrefix(r: seq<Entry>, c: nat, i: nat, full: seq<Entry>)
    requires c <= i <= |r| && r[..i] <= full
    ensures r[..c] <= full
  {
    assert r[..i][..c] == r[..c];
    PrefixChain(r[..c], r[..i], full);
  }

  /** A settled prefix is part of every reign from its bound on. */
  lemma SettledInReign(w: World, log: seq<Entry>, c: nat, bound: nat, t2: nat)
    requires Inv(w) && Settled(w.cfg, w.past, log, c, bound) && t2 in w.past.reigns && bound <= t2
    ensures log[..c] <= w.past.reigns[t2].log
  {
    if c != 0 {
      var t: nat, i: nat :| t <= bound && DecidedBy(w.cfg, w.past, log, c, t, i);
      DecidedStays(w, t, i, t2);
      ShorterPrefix(w.past.reigns[t].log, c, i, w.past.reigns[t2].log);
    }
  }

  /** Two settled prefixes never disagree. */
  lemma SettledAgree(w: World, a: seq<Entry>, c: nat, ta: nat, b: seq<Entry>, d: nat, tb: nat, k: nat)
    requires Inv(w) && Settled(w.cfg, w.past, a, c, ta) && Settled(w.cfg, w.past, b, d, tb)
    requires k < c && k < d
    ensures a[k] == b[k]
  {
    var t: nat, i: nat :| t <= ta && DecidedBy(w.cfg, w.past, a, c, t, i);
    var u: nat, j: nat :| u <= tb && DecidedBy(w.cfg, w.past, b, d, u, j);
    if t <= u { DecidedStays(w, t, i, u); } else { DecidedStays(w, u, j, t); }
    var r, s := w.past.reigns[t].log, w.past.reigns[u].log;
    assert a[k] == a[..c][k] == r[k] == r[..i][k];
    assert b[k] == b[..d][k] == s[k] == s[..j][k];
  }

  /** State machine safety: no two servers, at any two moments of a run, have
      different entries committed at one index. */
  lemma StateMachineSafety(ws: seq<World>, i: nat, j: nat, n: Id, m: Id, k: nat)
    requires Run(ws) && i <= j < |ws| && n in ws[i].servers && m in ws[j].servers
    requires k < ws[i].servers[n].commit && k < ws[j].servers[m].commit
    ensures k < |ws[i].servers[n].log| && k < |ws[j].servers[m].log|
    ensures ws[i].servers[n].log[k] == ws[j].servers[m].log[k]
  {
    RunInv(ws, i);
    RunInv(ws, j);
    RunGrows(ws, i, j);
    var a, b := ws[i].servers[n], ws[j].servers[m];
    assert ServerOk(ws[i].cfg, ws[i].past, n, a);
    assert ServerOk(ws[j].cfg, ws[j].past, m, b);
    SettledGrows(ws[i].cfg, ws[i].past, ws[j].past, a.log, a.log, a.commit, a.term, a.term);
    SettledAgree(ws[j], a.log, a.commit, a.term, b.log, b.commit, b.term, k);
  }

  /** Leader completeness: once a server has committed a prefix, every leader of
      its term or a later one, from then on, holds that prefix. */
  lemma LeaderCompleteness(ws: seq<World>, i: nat, j: nat, n: Id, m: Id)
    requires Run(ws) && i <= j < |ws| && n in ws[i].servers && m in ws[j].servers
    requires ws[j].servers[m].role == Leader && ws[j].servers[m].term >= ws[i].servers[n].term
    ensures ws[i].servers[n].commit <= |ws[i].servers[n].log|
    ensures ws[i].servers[n].log[..ws[i].servers[n].commit] <= ws[j].servers[m].log
  {
    RunInv(ws, i);
    RunInv(ws, j);
    RunGrows(ws, i, j);
    var a, b := ws[i].servers[n], ws[j].servers[m];
    assert ServerOk(ws[i].cfg, ws[i].past, n, a);
    assert ServerOk(ws[j].cfg, ws[j].past, m, b);
    SettledGrows(ws[i].cfg, ws[i].past, ws[j].past, a.log, a.log, a.commit, a.term, a.term);
    SettledInReign(ws[j], a.log, a.commit, a.term, b.term);
  }
}
