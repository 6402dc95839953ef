/**
What every reachable world of the protocol satisfies, split by what each part
talks about: one log, one reign, one server, one packet, and the three facts
that relate reigns to each other.
*/
module RaftInvariant {
  import opened Options
  import opened Quorum
  import opened RaftProtocol

  type Config = ClusterConfiguration

  /** Every entry of `log` was appended by the leader of its term, on top of the same prefix. */
  ghost predicate Grounded(h: History, log: seq<Entry>) {
    forall i {:trigger GroundedAt(h, log, i)} :: 0 <= i < |log| ==> GroundedAt(h, log, i)
  }

  ghost predicate GroundedAt(h: History, log: seq<Entry>, i: nat)
    requires i < |log|
  {
    && log[i].term in h.reigns
    && i < |h.reigns[log[i].term].log|
    && log[..i + 1] == h.reigns[log[i].term].log[..i + 1]
  }

  /** Index `i` of the log of reign `t` was appended in term `t` itself. */
  ghost predicate OwnIndex(h: History, t: nat, i: nat) {
    && t in h.reigns
    && |h.reigns[t].base| < i <= |h.reigns[t].log|
  }

  function Ackers(cfg: Config, h: History, t: nat, i: nat): set<Id> {
    set q | q in AllMembers(cfg) && AckOf(h, q, t) >= i
  }

  /** A joint majority acknowledged own index `i` of reign `t`. */
  ghost predicate Decided(cfg: Config, h: History, t: nat, i: nat) {
    OwnIndex(h, t, i) && HasJointMajority(cfg, Ackers(cfg, h, t, i))
  }

  /** The first `c` entries of `log` were decided in term `t`. */
  ghost predicate DecidedBy(cfg: Config, h: History, log: seq<Entry>, c: nat, t: nat, i: nat) {
    Decided(cfg, h, t, i) && c <= i && c <= |log| && log[..c] == h.reigns[t].log[..c]
  }

  /** The first `c` entries of `log` were decided in some term up to `bound`. */
  ghost predicate Settled(cfg: Config, h: History, log: seq<Entry>, c: nat, bound: nat) {
    && c <= |log|
    && (c == 0 || exists t: nat, i: nat :: t <= bound && DecidedBy(cfg, h, log, c, t, i))
  }

  // ---------------------------------------------------------------- parts

  /** A reign's log is its base followed by entries of its own term, and a joint
      majority voted for its leader. */
  ghost predicate ReignOk(cfg: Config, h: History, t: nat)
    requires t in h.reigns
  {
    var r := h.reigns[t];
    && r.base < r.log
    && (forall i :: 0 <= i < |r.base| ==> r.base[i].term < t)
    && (forall i :: |r.base| <= i < |r.log| ==> r.log[i].term == t)
    && Grounded(h, r.log)
    && HasJointMajority(cfg, r.voters)
    && (forall v :: v in r.voters ==> Ballot(v, t) in h.votes && h.votes[Ballot(v, t)] == r.leader)
  }

  /** A candidate voted for itself and stood with a log of earlier terms. */
  ghost predicate BidOk(h: History, b: Ballot)
    requires b in h.bids
  {
    && b in h.votes && h.votes[b] == b.node
    && Grounded(h, h.bids[b])
    && (forall i :: 0 <= i < |h.bids[b]| ==> h.bids[b][i].term < b.term)
  }

  ghost predicate VoteOk(h: History, b: Ballot)
    requires b in h.votes
  {
    Ballot(h.votes[b], b.term) in h.bids
  }

  ghost predicate AckOk(h: History, n: Id, t: nat) {
    AckOf(h, n, t) > 0 ==> t in h.reigns && AckOf(h, n, t) <= |h.reigns[t].log|
  }

  ghost predicate PastOk(cfg: Config, h: History) {
    && (forall t {:trigger ReignOk(cfg, h, t)} :: t in h.reigns ==> ReignOk(cfg, h, t))
    && (forall b {:trigger BidOk(h, b)} :: b in h.bids ==> BidOk(h, b))
    && (forall b {:trigger VoteOk(h, b)} :: b in h.votes ==> VoteOk(h, b))
    && (forall n: Id, t: nat {:trigger AckOk(h, n, t)} :: AckOk(h, n, t))
  }

  ghost predicate LogOk(h: History, s: Server) {
    && Grounded(h, s.log)
    && (forall i :: 0 <= i < |s.log| ==> s.log[i].term <= s.term)
  }

  /** What a server's own ballots say about its current term and vote. */
  ghost predicate BallotsOk(h: History, n: Id, s: Server) {
    && (forall b :: b in h.votes && b.node == n ==>
          b.term <= s.term && (b.term == s.term ==> s.votedFor == Some(h.votes[b])))
    && (forall t: nat :: AckOf(h, n, t) > 0 ==> t <= s.term)
  }

  ghost predicate CandidateOk(h: History, n: Id, s: Server) {
    && Ballot(n, s.term) in h.bids
    && h.bids[Ballot(n, s.term)] == s.log
    && (forall v :: v in s.voters ==> Ballot(v, s.term) in h.votes && h.votes[Ballot(v, s.term)] == n)
  }

  ghost predicate LeaderOk(h: History, n: Id, s: Server) {
    && s.term in h.reigns
    && h.reigns[s.term].leader == n
    && h.reigns[s.term].log == s.log
    && AckOf(h, n, s.term) == |s.log|
    && (forall p :: p in s.matched ==> s.matched[p] <= s.commit || s.matched[p] <= AckOf(h, p, s.term))
  }

  ghost predicate ServerOk(cfg: Config, h: History, n: Id, s: Server) {
    && LogOk(h, s)
    && BallotsOk(h, n, s)
    && Settled(cfg, h, s.log, s.commit, s.term)
    && (s.role == Candidate ==> CandidateOk(h, n, s))
    && (s.role == Leader ==> LeaderOk(h, n, s))
  }

  /** The leader of term `t` has reached it and does not stand in it again. */
  ghost predicate Placed(w: World, t: nat)
    requires t in w.past.reigns
  {
    var l := w.past.reigns[t].leader;
    && l in w.servers
    && w.servers[l].term >= t
    && (w.servers[l].term == t ==> w.servers[l].role != Candidate)
  }

  /** A replication message is a piece of its leader's log that reaches at least
      as far as the commit index it carries. */
  ghost predicate Piece(h: History, m: Message)
    requires m.Append?
  {
    && m.term in h.reigns
    && h.reigns[m.term].leader == m.leader
    && var log := h.reigns[m.term].log;
       var last := m.prevIndex + |m.entries|;
       && last <= |log|
       && m.entries == log[m.prevIndex..last]
       && m.prevTerm == TermAt(log, m.prevIndex)
       && m.leaderCommit <= last
  }

  ghost predicate AppendOk(cfg: Config, h: History, m: Message)
    requires m.Append?
  {
    && Piece(h, m)
    && Settled(cfg, h, h.reigns[m.term].log, m.leaderCommit, m.term)
  }

  ghost predicate PacketOk(cfg: Config, h: History, p: Packet) {
    match p.msg
    case RequestVote(t, c, li, lt) =>
      var b := Ballot(c, t);
      b in h.bids && |h.bids[b]| == li && LastTerm(h.bids[b]) == lt
    case VoteReply(t, g, v) =>
      g ==> Ballot(v, t) in h.votes && h.votes[Ballot(v, t)] == p.dst
    case Append(_, _, _, _, _, _) => AppendOk(cfg, h, p.msg)
    case AppendReply(t, ok, m, q) =>
      ok ==> AckOf(h, q, t) >= m
  }

  // ---------------------------------------------------------------- across reigns

  /** Servers that acknowledged own index `i` of reign `t` or still may. */
  function Supporters(w: World, t: nat, i: nat): set<Id> {
    set q | q in w.servers && (AckOf(w.past, q, t) >= i || w.servers[q].term <= t)
  }

  /** Own index `i` of reign `t` is decided or can still become so. */
  ghost predicate Open(w: World, t: nat, i: nat) {
    OwnIndex(w.past, t, i) && HasJointMajority(w.cfg, Supporters(w, t, i))
  }

  /** A later leader was elected with every open index of an earlier reign. */
  ghost predicate LeaderKeeps(w: World, t1: nat, i: nat, t2: nat) {
    Open(w, t1, i) && t2 in w.past.reigns && t1 < t2 ==>
      w.past.reigns[t1].log[..i] <= w.past.reigns[t2].base
  }

  /** A server keeps every open index that it acknowledged. */
  ghost predicate ServerKeeps(w: World, t: nat, i: nat, n: Id) {
    n in w.servers && i <= AckOf(w.past, n, t) && Open(w, t, i) ==>
      w.past.reigns[t].log[..i] <= w.servers[n].log
  }

  /** A candidate voted for later holds every open index that the voter acknowledged. */
  ghost predicate VoteKeeps(w: World, t: nat, i: nat, b: Ballot) {
    b in w.past.votes && Ballot(w.past.votes[b], b.term) in w.past.bids
    && t < b.term && i <= AckOf(w.past, b.node, t) && Open(w, t, i) ==>
      w.past.reigns[t].log[..i] <= w.past.bids[Ballot(w.past.votes[b], b.term)]
  }

  ghost predicate Keeps(w: World) {
    && (forall t1: nat, i: nat, t2: nat :: LeaderKeeps(w, t1, i, t2))
    && (forall t: nat, i: nat, n :: ServerKeeps(w, t, i, n))
    && (forall t: nat, i: nat, b :: VoteKeeps(w, t, i, b))
  }

  ghost predicate Members(w: World) {
    Populated(w.cfg) && w.servers.Keys == AllMembers(w.cfg)
  }

  ghost predicate ServersOk(w: World) {
    && (forall n {:trigger ServerOk(w.cfg, w.past, n, w.servers[n])} :: n in w.servers ==> ServerOk(w.cfg, w.past, n, w.servers[n]))
    && (forall t {:trigger Placed(w, t)} :: t in w.past.reigns ==> Placed(w, t))
  }

  ghost predicate NetOk(w: World) {
    forall p {:trigger PacketOk(w.cfg, w.past, p)} :: p in w.net ==> PacketOk(w.cfg, w.past, p)
  }

  ghost predicate Inv(w: World) {
    Members(w) && PastOk(w.cfg, w.past) && ServersOk(w) && NetOk(w) && Keeps(w)
  }

  // ---------------------------------------------------------------- growth

  ghost predicate ReignGrows(r: Reign, r': Reign) {
    r'.leader == r.leader && r'.voters == r.voters && r'.base == r.base && r.log <= r'.log
  }

  ghost predicate HistoryGrows(h: History, h': History) {
    && (forall t :: t in h.reigns ==> t in h'.reigns && ReignGrows(h.reigns[t], h'.reigns[t]))
    && (forall b :: b in h.votes ==> b in h'.votes && h'.votes[b] == h.votes[b])
    && (forall b :: b in h.bids ==> b in h'.bids && h'.bids[b] == h.bids[b])
    && (forall n: Id, t: nat :: AckOf(h, n, t) <= AckOf(h', n, t))
  }

  /** What any later world keeps of an earlier one. */
  ghost predicate Grows(w: World, w': World) {
    && w'.cfg == w.cfg
    && w'.servers.Keys == w.servers.Keys
    && w.net <= w'.net
    && (forall n :: n in w.servers ==> w.servers[n].term <= w'.servers[n].term)
    && HistoryGrows(w.past, w'.past)
  }

  /** New acknowledgements for a term come only from servers not yet past it. */
  ghost predicate AcksInTime(w: World, w': World) {
    forall n: Id, t: nat :: n in w.servers && AckOf(w'.past, n, t) > AckOf(w.past, n, t) ==> w.servers[n].term <= t
  }

  lemma GrowsTransitive(a: World, b: World, c: World)
    requires Grows(a, b) && Grows(b, c)
    ensures Grows(a, c)
  {
  }

  lemma PrefixSlices(a: seq<Entry>, b: seq<Entry>, i: nat, j: nat)
    requires a <= b && i <= j <= |a|
    ensures b[i..j] == a[i..j] && b[..j] == a[..j]
  {
  }

  lemma GroundedGrows(h: History, h': History, log: seq<Entry>)
    requires Grounded(h, log) && HistoryGrows(h, h')
    ensures Grounded(h', log)
  {
    forall i | 0 <= i < |log| ensures GroundedAt(h', log, i) {
      assert GroundedAt(h, log, i);
      PrefixSlices(h.reigns[log[i].term].log, h'.reigns[log[i].term].log, 0, i + 1);
    }
  }

  lemma DecidedGrows(cfg: Config, h: History, h': History, t: nat, i: nat)
    requires Decided(cfg, h, t, i) && HistoryGrows(h, h')
    ensures Decided(cfg, h', t, i)
  {
    QuorumGrows(cfg, Ackers(cfg, h, t, i), Ackers(cfg, h', t, i));
  }

  /** A settled prefix stays settled, on any log that shares it and for any later bound. */
  lemma SettledGrows(cfg: Config, h: History, h': History, log: seq<Entry>, log': seq<Entry>, c: nat, bound: nat, bound': nat)
    requires Settled(cfg, h, log, c, bound) && HistoryGrows(h, h') && bound <= bound'
    requires c <= |log'| && log'[..c] == log[..c]
    ensures Settled(cfg, h', log', c, bound')
  {
    if c != 0 {
      var t: nat, i: nat :| t <= bound && DecidedBy(cfg, h, log, c, t, i);
      DecidedGrows(cfg, h, h', t, i);
      PrefixSlices(h.reigns[t].log, h'.reigns[t].log, 0, c);
      assert DecidedBy(cfg, h', log', c, t, i);
    }
  }

  lemma SettledLess(cfg: Config, h: History, log: seq<Entry>, c: nat, c': nat, bound: nat)
    requires Settled(cfg, h, log, c, bound) && c' <= c
    ensures Settled(cfg, h, log, c', bound)
  {
    if c' != 0 {
      var t: nat, i: nat :| t <= bound && DecidedBy(cfg, h, log, c, t, i);
      assert log[..c'] == log[..c][..c'];
      assert h.reigns[t].log[..c'] == h.reigns[t].log[..c][..c'];
      assert DecidedBy(cfg, h, log, c', t, i);
    }
  }

  lemma PieceGrows(h: History, h': History, m: Message)
    requires m.Append? && Piece(h, m) && HistoryGrows(h, h')
    ensures Piece(h', m)
  {
    PrefixSlices(h.reigns[m.term].log, h'.reigns[m.term].log, m.prevIndex, m.prevIndex + |m.entries|);
  }

  lemma AppendGrows(cfg: Config, h: History, h': History, m: Message)
    requires m.Append? && AppendOk(cfg, h, m) && HistoryGrows(h, h')
    ensures AppendOk(cfg, h', m)
  {
    PieceGrows(h, h', m);
    var log, log' := h.reigns[m.term].log, h'.reigns[m.term].log;
    PrefixSlices(log, log', 0, m.leaderCommit);
    SettledGrows(cfg, h, h', log, log', m.leaderCommit, m.term, m.term);
  }

  lemma PacketGrows(cfg: Config, h: History, h': History, p: Packet)
    requires PacketOk(cfg, h, p) && HistoryGrows(h, h')
    ensures PacketOk(cfg, h', p)
  {
    if p.msg.Append? { AppendGrows(cfg, h, h', p.msg); }
  }

  lemma NetGrows(w: World, w': World)
    requires NetOk(w) && w'.cfg == w.cfg && HistoryGrows(w.past, w'.past)
    requires forall p :: p in w'.net && p !in w.net ==> PacketOk(w'.cfg, w'.past, p)
    ensures NetOk(w')
  {
    forall p | p in w'.net ensures PacketOk(w'.cfg, w'.past, p) {
      if p in w.net {
        assert PacketOk(w.cfg, w.past, p);
        PacketGrows(w.cfg, w.past, w'.past, p);
      }
    }
  }

  /** Nothing new opens: what is open later was open before, unless it is a new index. */
  lemma OpenShrinks(w: World, w': World, t: nat, i: nat)
    requires Grows(w, w') && AcksInTime(w, w')
    requires Open(w', t, i) && OwnIndex(w.past, t, i)
    ensures Open(w, t, i)
  {
    QuorumGrows(w.cfg, Supporters(w', t, i), Supporters(w, t, i));
  }

  lemma DecidedIsOpen(w: World, t: nat, i: nat)
    requires Members(w) && Decided(w.cfg, w.past, t, i)
    ensures Open(w, t, i)
  {
    QuorumGrows(w.cfg, Ackers(w.cfg, w.past, t, i), Supporters(w, t, i));
  }

  // ---------------------------------------------------------------- logs

  /** Entries of a reign's log come from terms up to its own, and exactly the
      entries after its base from its own. */
  lemma ReignTerms(cfg: Config, h: History, t: nat, i: nat)
    requires t in h.reigns && ReignOk(cfg, h, t) && i < |h.reigns[t].log|
    ensures h.reigns[t].log[i].term <= t
    ensures h.reigns[t].log[i].term == t <==> |h.reigns[t].base| <= i
  {
    var r := h.reigns[t];
    if i < |r.base| { assert r.log[i] == r.base[i]; }
  }

  /** Terms never decrease along a log. */
  lemma TermsMonotone(cfg: Config, h: History, log: seq<Entry>, i: nat, j: nat)
    requires PastOk(cfg, h) && Grounded(h, log) && i <= j < |log|
    ensures log[i].term <= log[j].term
  {
    assert GroundedAt(h, log, j);
    var t := log[j].term;
    assert ReignOk(cfg, h, t);
    assert log[i] == log[..j + 1][i] == h.reigns[t].log[i];
    ReignTerms(cfg, h, t, i);
  }

  /** Log matching: two grounded logs with the same term at one index agree up to it. */
  lemma LogMatching(h: History, a: seq<Entry>, b: seq<Entry>, i: nat)
    requires Grounded(h, a) && Grounded(h, b) && i < |a| && i < |b| && a[i].term == b[i].term
    ensures a[..i + 1] == b[..i + 1]
  {
    assert GroundedAt(h, a, i) && GroundedAt(h, b, i);
  }

  lemma GroundedPrefix(h: History, log: seq<Entry>, k: nat)
    requires Grounded(h, log) && k <= |log|
    ensures Grounded(h, log[..k])
  {
    forall i | 0 <= i < k ensures GroundedAt(h, log[..k], i) {
      assert GroundedAt(h, log, i);
      assert log[..k][..i + 1] == log[..i + 1];
    }
  }

  /** What a merge of a matching piece of the grounded log `full` yields: it agrees
      with `full` through the end of the piece, and no shared prefix is lost. */
  lemma MergeOutcome(h: History, log: seq<Entry>, prev: nat, es: seq<Entry>, full: seq<Entry>)
    requires Grounded(h, log) && Grounded(h, full)
    requires prev <= |log| && prev + |es| <= |full| && es == full[prev..prev + |es|]
    requires TermAt(log, prev) == TermAt(full, prev)
    ensures var r := Merge(log, prev, es);
            var last := prev + |es|;
            && (r == log || r == full[..last])
            && last <= |r| && r[..last] == full[..last]
            && Grounded(h, r)
    ensures forall c: nat :: c <= |full| && full[..c] <= log ==> full[..c] <= Merge(log, prev, es)
    ensures forall c: nat :: c <= |full| && full[..c] <= log && Agreeing(log, prev, es) < |es| ==>
              c <= prev + Agreeing(log, prev, es)
  {
    var k := Agreeing(log, prev, es);
    var last := prev + |es|;
    var r := Merge(log, prev, es);
    AgreeingMeans(log, prev, es);
    assert log[..prev + k] == full[..prev + k] by {
      if prev + k > 0 {
        var i := prev + k - 1;
        assert log[i].term == full[i].term by {
          if k > 0 { assert es[k - 1] == full[prev + k - 1]; }
        }
        LogMatching(h, log, full, i);
      }
    }
    GroundedPrefix(h, full, last);
    if k == |es| {
      assert r == log;
    } else {
      assert es[k..] == full[prev + k..last];
      assert r == full[..last];
      forall c: nat | c <= |full| && full[..c] <= log ensures c <= prev + k {
        assert es[k] == full[prev + k];
      }
      forall c: nat | c <= |full| && full[..c] <= log ensures full[..c] <= r {
        assert c <= last;
        assert full[..last][..c] == full[..c];
      }
    }
  }
}
