/**
How a server's compacted log and its store relate to the full log it stands for,
and what a restart recovers from the store. The application state is a matter of
its own, in `RaftState`.
*/
module RaftStorage {
  import opened Options
  import opened Quorum
  import opened Master
  import opened RaftProtocol
  import opened RaftNode

  /** `log` is `full` with everything up to `k` replaced by one dummy entry. */
  ghost predicate Offset(log: seq<Entry>, k: nat, t: nat, full: seq<Entry>) {
    && k <= |full|
    && t == TermAt(full, k)
    && |log| == |full| - k + 1
    && log[0] == Entry(t, NoOp)
    && (forall j {:trigger log[j]} :: 0 < j < |log| ==> log[j] == full[k + j - 1])
  }

  /** The store holds exactly the log after the snapshot point; what it still
      holds at or before that point does not matter. */
  ghost predicate StoresLog(m: map<nat, Entry>, k: nat, full: seq<Entry>) {
    && (forall i: nat :: k < i <= |full| ==> i in m && m[i] == full[i - 1])
    && (forall i :: i in m ==> i <= |full|)
  }

  /** The store alone determines term, vote, full log `full` and snapshot point `k`. */
  ghost predicate Durable(db: Store, term: nat, vote: Option<Id>, k: nat, full: seq<Entry>) {
    && db.term == term && db.vote == vote
    && k <= |full|
    && MetaOf(db) == SnapshotMeta(k, TermAt(full, k))
    && StoresLog(db.log, k, full)
  }

  /** `n` is a compacted, persistent form of a server with full log `full`. */
  ghost predicate Tracks(n: Node, full: seq<Entry>) {
    && n.snapIndex <= n.applied <= n.commit <= |full|
    && Offset(n.log, n.snapIndex, n.snapTerm, full)
    && Durable(n.db, n.term, n.votedFor, n.snapIndex, full)
  }

  /** The full-log server that `n` stands for. */
  function Shadow(n: Node, full: seq<Entry>): Server {
    Server(n.role, n.term, n.votedFor, full, n.commit, n.matched, n.voters)
  }

  ghost predicate Mirrors(id: Id, n: Node, s: Server) {
    n.id == id && s == Shadow(n, s.log) && Tracks(n, s.log)
  }

  // ---------------------------------------------------------------- loading

  lemma {:induction false} LoadEntriesAll(m: map<nat, Entry>, i: nat, full: seq<Entry>)
    requires i <= |full| && StoresLog(m, i, full)
    ensures LoadEntries(m, i + 1) == full[i..]
    decreases |full| - i
  {
    if i < |full| {
      LoadEntriesAll(m, i + 1, full);
      assert full[i..] == [full[i]] + full[i + 1..];
    }
  }

  /** Starting up from a durable store gives back term, vote, log and snapshot point. */
  lemma BootRecovers(cfg: ClusterConfiguration, id: Id, db: Store, s: Server, k: nat)
    requires Durable(db, s.term, s.votedFor, k, s.log) && k <= s.commit
    ensures var n := Boot(cfg, id, db);
            Mirrors(id, n, s.(role := Follower, commit := k, matched := n.matched, voters := {}))
  {
    LoadEntriesAll(db.log, k, s.log);
  }

  // ---------------------------------------------------------------- offsets

  lemma OffsetAt(log: seq<Entry>, k: nat, t: nat, full: seq<Entry>, i: nat)
    requires Offset(log, k, t, full) && k <= i <= |full|
    ensures i - k < |log| && log[i - k].term == TermAt(full, i)
    ensures i > k ==> log[i - k] == full[i - 1]
    ensures log[i - k + 1..] == full[i..]
  {
    if i > k { assert log[i - k] == full[k..][i - k - 1]; }
  }

  lemma OffsetLast(log: seq<Entry>, k: nat, t: nat, full: seq<Entry>)
    requires Offset(log, k, t, full)
    ensures |log| > 0 && |log| - 1 + k == |full| && log[|log| - 1].term == LastTerm(full)
  {
    OffsetAt(log, k, t, full, |full|);
  }

  lemma OffsetAppend(log: seq<Entry>, k: nat, t: nat, full: seq<Entry>, es: seq<Entry>)
    requires Offset(log, k, t, full)
    ensures Offset(log + es, k, t, full + es)
  {
    assert (full + es)[k..] == full[k..] + es;
    if k > 0 { assert (full + es)[k - 1] == full[k - 1]; }
  }

  lemma OffsetPrefix(log: seq<Entry>, k: nat, t: nat, full: seq<Entry>, cut: nat)
    requires Offset(log, k, t, full) && k <= cut <= |full|
    ensures cut - k + 1 <= |log| && Offset(log[..cut - k + 1], k, t, full[..cut])
  {
    assert log[..cut - k + 1] == [Entry(t, NoOp)] + full[k..cut];
    assert full[..cut][k..] == full[k..cut];
    if k > 0 { assert full[..cut][k - 1] == full[k - 1]; }
  }

  lemma {:induction false} AgreeingOffset(log: seq<Entry>, k: nat, t: nat, full: seq<Entry>, prev: nat, es: seq<Entry>)
    requires Offset(log, k, t, full) && k <= prev <= |full|
    ensures prev - k + 1 <= |log|
    ensures Agreeing(log, prev - k + 1, es) == Agreeing(full, prev, es)
    decreases |es|
  {
    if es != [] && prev < |full| {
      OffsetAt(log, k, t, full, prev + 1);
      AgreeingOffset(log, k, t, full, prev + 1, es[1..]);
    }
  }

  /** Merging into the compacted log is merging into the full one. */
  lemma MergeOffset(log: seq<Entry>, k: nat, t: nat, full: seq<Entry>, prev: nat, es: seq<Entry>)
    requires Offset(log, k, t, full) && k <= prev <= |full|
    ensures prev - k + 1 <= |log|
    ensures Offset(Merge(log, prev - k + 1, es), k, t, Merge(full, prev, es))
  {
    AgreeingOffset(log, k, t, full, prev, es);
    var j := Agreeing(full, prev, es);
    if j != |es| {
      var cut := prev + j;
      OffsetPrefix(log, k, t, full, cut);
      OffsetAppend(log[..cut - k + 1], k, t, full[..cut], es[j..]);
    }
  }

  lemma TracksShape(n: Node, full: seq<Entry>)
    requires Tracks(n, full)
    ensures n.HasLog() && n.LastIndex() == |full| && n.LastTerm() == LastTerm(full)
    ensures n.snapIndex <= n.applied <= n.commit <= |full|
  {
    OffsetLast(n.log, n.snapIndex, n.snapTerm, full);
  }

  lemma TracksAt(n: Node, full: seq<Entry>, i: nat)
    requires Tracks(n, full) && n.snapIndex <= i <= |full|
    ensures i - n.snapIndex < |n.log| && n.log[i - n.snapIndex].term == TermAt(full, i)
    ensures i > n.snapIndex ==> n.log[i - n.snapIndex] == full[i - 1]
    ensures n.log[i - n.snapIndex + 1..] == full[i..]
  {
    OffsetAt(n.log, n.snapIndex, n.snapTerm, full, i);
  }

  // ---------------------------------------------------------------- store contents

  lemma StoresAppend(m: map<nat, Entry>, k: nat, full: seq<Entry>, es: seq<Entry>)
    requires StoresLog(m, k, full)
    ensures StoresLog(m + Numbered(es, |full| + 1), k, full + es)
  {
  }

  lemma StoresPrefix(m: map<nat, Entry>, k: nat, full: seq<Entry>, cut: nat)
    requires StoresLog(m, k, full) && k <= cut <= |full|
    ensures StoresLog(m - KeysFrom(m, cut + 1), k, full[..cut])
  {
  }

  /** A completed truncation removes every key from `start` on. */
  lemma {:induction false} DropsAll(db: Store, m: map<nat, Entry>, start: nat, top: nat)
    requires forall i: nat :: start <= i <= top ==> i in m
    requires forall i :: i in m ==> i <= top
    requires forall i :: i in db.log ==> i <= top
    ensures ApplyWrites(db, Drops(m, start)) == db.(log := db.log - KeysFrom(db.log, start))
    decreases top - start
  {
    if start <= top {
      var db1 := ApplyWrite(db, DropEntry(start));
      WritesOne(db, DropEntry(start));
      WritesConcat(db, [DropEntry(start)], Drops(m, start + 1));
      DropsAll(db1, m, start + 1, top);
      assert db1.log - KeysFrom(db1.log, start + 1) == db.log - KeysFrom(db.log, start);
    } else {
      assert KeysFrom(db.log, start) == {};
      assert db.log - KeysFrom(db.log, start) == db.log;
    }
  }

  /** Deletes behind a snapshot touch nothing after it. */
  lemma {:induction false} CompactsHarmless(db: Store, from: nat, to: nat, k: nat)
    requires from <= to && k <= to - from
    ensures var r := ApplyWrites(db, Compacts(from, to)[..k]);
            && r == db.(log := r.log)
            && (forall i :: i in r.log ==> i in db.log)
            && (forall i :: i in db.log && i > to ==> i in r.log && r.log[i] == db.log[i])
  {
    if k > 0 {
      var ws := Compacts(from, to)[..k];
      assert ws[..k - 1] == Compacts(from, to)[..k - 1];
      CompactsHarmless(db, from, to, k - 1);
    }
  }

  // ---------------------------------------------------------------- applying

  lemma ApplyOneTracks(n: Node, full: seq<Entry>)
    requires Tracks(n, full) && n.commit > n.applied
    ensures Tracks(ApplyOne(n).node, full)
    ensures ApplyOne(n).applies == [Apply(n.applied + 1, full[n.applied])]
  {
    OffsetAt(n.log, n.snapIndex, n.snapTerm, full, n.applied + 1);
  }

  /** Applying catches up with the commit index and leaves the log alone. */
  lemma {:induction false} ApplyLogsTracks(n: Node, full: seq<Entry>)
    requires Tracks(n, full)
    ensures var e := ApplyLogs(n);
            && Tracks(e.node, full)
            && e.node == n.(applied := n.commit, app := e.node.app, pending := e.node.pending)
            && e.writes == [] && e.sent == {}
    decreases n.commit - n.applied
  {
    if n.commit > n.applied {
      ApplyOneTracks(n, full);
      ApplyLogsTracks(ApplyOne(n).node, full);
    }
  }

  /** Raising the commit index within the log and applying. */
  lemma CommitTracks(n: Node, full: seq<Entry>, c: nat)
    requires Tracks(n, full) && n.commit <= c <= |full|
    ensures var e := ApplyLogs(n.(commit := c));
            && Tracks(e.node, full) && e.node.id == n.id && Shadow(e.node, full) == Shadow(n, full).(commit := c)
            && e.writes == [] && e.sent == {}
  {
    ApplyLogsTracks(n.(commit := c), full);
  }
}
