/**
What the replicated commands do to the files and records of a shard: the effect
of each, what is at a path after any run of them, and whose the blocks are.
*/
module MasterFiles {
  import opened Options
  import opened StringOrder
  import opened Master

  /** What is at a path. */
  function FileIn(s: MasterState, p: Path): Option<FileMetadata> {
    if p in s.files then Some(s.files[p]) else None
  }

  function RecordIn(s: MasterState, t: TxId): Option<TransactionRecord> {
    if t in s.records then Some(s.records[t]) else None
  }

  // ---------------------------------------------------------------- what stays

  /** The command is about path `p`. */
  predicate Names(c: MasterCommand, p: Path) {
    match c
    case CreateFile(q, _, _) => p == q
    case DeleteFile(q) => p == q
    case AllocateBlock(q, _, _) => p == q
    case RenameFile(a, b) => p == a || p == b
    case ApplyTransactionOperation(_, op) => p == op.op.path
    case IngestBatch(fs) => exists f :: f in fs && f.path == p
    case SplitShard(k, _) => UpTo(k, p)
    case CompleteFile(q, _, _, _, _) => p == q
    case UpdateAccessStats(q, _) => p == q
    case MoveToCold(q, _) => p == q
    case ConvertToEc(q, _, _, _) => p == q
    case _ => false
  }

  /** The command is about the record of transaction `t`. */
  predicate NamesRecord(c: MasterCommand, t: TxId) {
    match c
    case CreateTransactionRecord(r) => t == r.txId
    case UpdateTransactionState(u, _) => t == u
    case DeleteTransactionRecord(u) => t == u
    case SetParticipantAcked(u) => t == u
    case IncrementInquiryCount(u) => t == u
    case _ => false
  }

  /** A command changes only the paths and records that it names. */
  lemma OnlyNamed(s: MasterState, c: MasterCommand, p: Path, t: TxId)
    ensures !Names(c, p) ==> FileIn(ApplyMaster(s, c), p) == FileIn(s, p)
    ensures !NamesRecord(c, t) ==> RecordIn(ApplyMaster(s, c), t) == RecordIn(s, t)
  {
    if c.IngestBatch? { IngestEffect(s.files, c.files, p); LatestIn(c.files, p); }
  }

  // ---------------------------------------------------------------- what each command does

  /** A rename removes the source, and the destination gets everything of it but the path. */
  lemma RenameEffect(s: MasterState, a: Path, b: Path)
    ensures var s' := ApplyMaster(s, RenameFile(a, b));
            && (a !in s.files ==> s' == s)
            && (a in s.files ==>
                  && (a != b ==> a !in s'.files)
                  && b in s'.files && s'.files[b].path == b && SameContent(s'.files[b], s.files[a]))
  {
  }

  /** Renaming there and back, to a free place, changes nothing but the path of a file that
      was kept under another. */
  lemma RenameBack(s: MasterState, a: Path, b: Path)
    requires b !in s.files && (a in s.files ==> s.files[a].path == a)
    ensures ApplyMaster(ApplyMaster(s, RenameFile(a, b)), RenameFile(b, a)) == s
  {
    if a in s.files { assert ApplyMaster(ApplyMaster(s, RenameFile(a, b)), RenameFile(b, a)).files == s.files; }
  }

  /** A new file is empty. */
  lemma CreateEffect(s: MasterState, p: Path, d: int, m: int)
    ensures var s' := ApplyMaster(s, CreateFile(p, d, m));
            && p in s'.files && var f := s'.files[p];
            && f.path == p && f.size == 0 && f.blocks == [] && f.etag == "" && f.createdAt == 0
            && f.ecDataShards == d && f.ecParityShards == m
            && f.lastAccess == 0 && f.accessCount == 0 && f.movedToCold == 0
  {
  }

  /** A transaction creates a file only where there is none. */
  lemma TransferEffect(s: MasterState, p: Path, f: FileMetadata, t: TxId, h: ShardId)
    ensures var s' := ApplyMaster(s, ApplyTransactionOperation(t, TxOperation(h, Create(p, f))));
            p in s'.files && s'.files[p] == if p in s.files then s.files[p] else f
  {
  }

  /** A new block goes to the end of the file and is coded like the file. */
  lemma AllocateEffect(s: MasterState, p: Path, id: string, locs: seq<string>)
    ensures var s' := ApplyMaster(s, AllocateBlock(p, id, locs));
            && (p !in s.files ==> s' == s)
            && (p in s.files ==>
                  && p in s'.files && var f, g := s.files[p], s'.files[p];
                  && |g.blocks| == |f.blocks| + 1 && g.blocks[..|f.blocks|] == f.blocks
                  && g == f.(blocks := g.blocks)
                  && var b := g.blocks[|f.blocks|];
                  && b.blockId == id && b.locations == locs && b.size == 0 && b.originalSize == 0 && b.checksum == 0
                  && b.ecDataShards == f.ecDataShards && b.ecParityShards == f.ecParityShards)
  {
  }

  /** The last file of a batch with a given path. */
  function Latest(fs: seq<FileMetadata>, p: Path): Option<FileMetadata> {
    if fs == [] then None
    else if fs[|fs| - 1].path == p then Some(fs[|fs| - 1])
    else Latest(fs[..|fs| - 1], p)
  }

  lemma {:induction false} LatestIn(fs: seq<FileMetadata>, p: Path)
    ensures Latest(fs, p).Some? <==> exists f :: f in fs && f.path == p
    ensures Latest(fs, p).Some? ==> Latest(fs, p).value in fs && Latest(fs, p).value.path == p
    decreases |fs|
  {
    if fs != [] { LatestIn(fs[..|fs| - 1], p); }
  }

  lemma {:induction false} LatestFrom(f: FileMetadata, fs: seq<FileMetadata>, p: Path)
    ensures Latest([f] + fs, p) == if Latest(fs, p).Some? then Latest(fs, p) else if f.path == p then Some(f) else None
    decreases |fs|
  {
    if fs == [] {
      assert [f] + fs == [f] && [f][..0] == [];
    } else {
      assert ([f] + fs)[..|fs|] == [f] + fs[..|fs| - 1];
      LatestFrom(f, fs[..|fs| - 1], p);
    }
  }

  /** Of several files with one path in a batch, the last one stays. */
  lemma {:induction false} IngestEffect(files: map<Path, FileMetadata>, fs: seq<FileMetadata>, p: Path)
    ensures var files' := Ingest(files, fs);
            if Latest(fs, p).Some? then p in files' && files'[p] == Latest(fs, p).value
            else (p in files' <==> p in files) && (p in files ==> files'[p] == files[p])
    decreases |fs|
  {
    if fs != [] {
      IngestEffect(files[fs[0].path := fs[0]], fs[1..], p);
      LatestFrom(fs[0], fs[1..], p);
      assert [fs[0]] + fs[1..] == fs;
    }
  }

  /** A split leaves the files below the key. */
  lemma SplitEffect(s: MasterState, k: Path, h: ShardId, p: Path)
    ensures FileIn(ApplyMaster(s, SplitShard(k, h)), p) == if Below(p, k) then FileIn(s, p) else None
  {
    BelowTotal(p, k);
    if Below(p, k) && UpTo(k, p) { BelowIrreflexive(p); if p != k { BelowTransitive(p, k, p); } }
  }

  /** The same rename, participants and operations, with another label. */
  function Labelled(r: TransactionRecord, state: TxState, acked: bool, asked: nat): TransactionRecord {
    TransactionRecord(r.txId, r.sourcePath, r.destPath, state, r.participants, r.operations, r.coordinator, acked, asked)
  }

  /** What becomes of the record that a command names. */
  lemma RecordEffect(s: MasterState, c: MasterCommand, t: TxId)
    requires NamesRecord(c, t)
    ensures var was, now := RecordIn(s, t), RecordIn(ApplyMaster(s, c), t);
            if c.CreateTransactionRecord? then now == Some(c.record)
            else if c.DeleteTransactionRecord? || was.None? then now == None
            else
              var r := was.value;
              now == Some(Labelled(r,
                                   if c.UpdateTransactionState? then c.newState else r.state,
                                   c.SetParticipantAcked? || r.participantAcked,
                                   if c.IncrementInquiryCount? then r.inquiryCount + 1 else r.inquiryCount))
  {
  }

  // ---------------------------------------------------------------- completing a file

  function Total(bs: seq<BlockInfo>): nat {
    if bs == [] then 0 else Total(bs[..|bs| - 1]) + bs[|bs| - 1].size
  }

  lemma {:induction false} TotalEven(bs: seq<BlockInfo>, each: nat)
    requires forall i :: 0 <= i < |bs| ==> bs[i].size == each
    ensures Total(bs) == each * |bs|
    decreases |bs|
  {
    if bs != [] { TotalEven(bs[..|bs| - 1], each); }
  }

  /** Spreading the size loses nothing of it. */
  lemma SpreadTotal(bs: seq<BlockInfo>, size: nat)
    requires bs != []
    ensures Total(Spread(bs, size)) == size
  {
    var each, n, r := size / |bs|, |bs| - 1, Spread(bs, size);
    assert each * n <= size by { assert size == each * |bs| + size % |bs|; assert each * |bs| == each * n + each; }
    TotalEven(r[..n], each);
  }

  lemma {:induction false} ReportedIds(bs: seq<BlockInfo>, c: BlockCheck)
    ensures |Reported(bs, c)| == |bs|
    ensures forall i {:trigger Reported(bs, c)[i]} :: 0 <= i < |bs| ==>
              Reported(bs, c)[i] == if IsFirst(bs, i, c.blockId) then WithReport(bs[i], c) else bs[i]
  {
    if bs != [] && bs[0].blockId != c.blockId {
      ReportedIds(bs[1..], c);
      forall i | 0 < i < |bs| ensures IsFirst(bs, i, c.blockId) <==> IsFirst(bs[1..], i - 1, c.blockId) {
        assert forall j :: 0 < j < i ==> bs[j] == bs[1..][j - 1];
      }
    }
  }

  function WithReport(b: BlockInfo, c: BlockCheck): BlockInfo {
    BlockInfo(b.blockId, c.size, b.locations, c.checksum, b.ecDataShards, b.ecParityShards, c.size)
  }

  /** Block `i` is the first with this id. */
  predicate IsFirst(bs: seq<BlockInfo>, i: nat, id: string)
    requires i < |bs|
  {
    bs[i].blockId == id && forall j :: 0 <= j < i ==> bs[j].blockId != id
  }

  /** The last report that names a block. */
  function LastReport(cs: seq<BlockCheck>, id: string): Option<BlockCheck> {
    if cs == [] then None
    else if cs[|cs| - 1].blockId == id then Some(cs[|cs| - 1])
    else LastReport(cs[..|cs| - 1], id)
  }

  lemma {:induction false} LastReportFrom(c: BlockCheck, cs: seq<BlockCheck>, id: string)
    ensures LastReport([c] + cs, id) ==
            if LastReport(cs, id).Some? then LastReport(cs, id) else if c.blockId == id then Some(c) else None
    decreases |cs|
  {
    if cs == [] {
      assert [c] + cs == [c] && [c][..0] == [];
    } else {
      assert ([c] + cs)[..|cs|] == [c] + cs[..|cs| - 1];
      LastReportFrom(c, cs[..|cs| - 1], id);
    }
  }

  /** What the reports make of block `i`: nothing, if none names it or an earlier block has its id;
      otherwise the last one that names it counts. */
  ghost predicate ReportedAt(bs: seq<BlockInfo>, bs': seq<BlockInfo>, cs: seq<BlockCheck>, i: nat)
    requires i < |bs| && i < |bs'|
  {
    var r := LastReport(cs, bs[i].blockId);
    bs'[i] == if r.Some? && IsFirst(bs, i, bs[i].blockId) then WithReport(bs[i], r.value) else bs[i]
  }

  lemma {:induction false} ReportedEffect(bs: seq<BlockInfo>, cs: seq<BlockCheck>, i: nat)
    requires i < |bs|
    ensures |ReportedAll(bs, cs)| == |bs| && ReportedAt(bs, ReportedAll(bs, cs), cs, i)
    decreases |cs|
  {
    if cs != [] {
      var bs1 := Reported(bs, cs[0]);
      ReportedIds(bs, cs[0]);
      ReportedEffect(bs1, cs[1..], i);
      assert [cs[0]] + cs[1..] == cs;
      LastReportFrom(cs[0], cs[1..], bs[i].blockId);
      assert forall j :: 0 <= j < |bs| ==> bs1[j].blockId == bs[j].blockId;
      assert IsFirst(bs1, i, bs[i].blockId) <==> IsFirst(bs, i, bs[i].blockId);
    }
  }

  /** Completing a file sets its size and keeps the blocks and where they are. Their sizes and
      checksums are as reported; without reports their sizes make up the size of the file. */
  lemma CompleteEffect(s: MasterState, c: MasterCommand)
    requires c.CompleteFile? && c.path in s.files
    ensures var s' := ApplyMaster(s, c);
            && c.path in s'.files && var f, g := s.files[c.path], s'.files[c.path];
            && g.size == c.size && g.etag == (if c.etag.Some? then c.etag.value else f.etag)
            && g.createdAt == (if c.createdAt.Some? then c.createdAt.value else f.createdAt)
            && g == f.(size := g.size, etag := g.etag, createdAt := g.createdAt, blocks := g.blocks)
            && |g.blocks| == |f.blocks|
            && (forall i :: 0 <= i < |f.blocks| ==> g.blocks[i].blockId == f.blocks[i].blockId && g.blocks[i].locations == f.blocks[i].locations)
            && (c.checks != [] ==> forall i :: 0 <= i < |f.blocks| ==> ReportedAt(f.blocks, g.blocks, c.checks, i))
            && (c.checks == [] && f.blocks != [] ==> Total(g.blocks) == c.size)
  {
    var f := s.files[c.path];
    if c.checks != [] {
      if f.blocks == [] { ReportedNone(c.checks); } else { ReportedEffect(f.blocks, c.checks, 0); }
      var bs := ReportedAll(f.blocks, c.checks);
      forall i | 0 <= i < |f.blocks|
        ensures ReportedAt(f.blocks, bs, c.checks, i)
        ensures bs[i].blockId == f.blocks[i].blockId && bs[i].locations == f.blocks[i].locations {
        ReportedEffect(f.blocks, c.checks, i);
      }
    } else if f.blocks != [] {
      SpreadTotal(f.blocks, c.size);
    }
  }

  lemma {:induction false} ReportedNone(cs: seq<BlockCheck>)
    ensures ReportedAll([], cs) == []
    decreases |cs|
  {
    if cs != [] { ReportedNone(cs[1..]); }
  }

  // ---------------------------------------------------------------- whole runs of commands

  /** The state after a run of commands. */
  function Played(cs: seq<Command>): MasterState {
    if cs == [] then EMPTY else ApplyCommand(Played(cs[..|cs| - 1]), cs[|cs| - 1])
  }

  /** What is at path `p` after a command, if `here` was there before it and `there` at the source of a rename. */
  function Becomes(c: MasterCommand, p: Path, here: Option<FileMetadata>, there: Option<FileMetadata>): Option<FileMetadata> {
    if !Names(c, p) then here
    else
      match c
      case CreateFile(_, d, m) => Some(FileMetadata(p, 0, [], "", 0, d, m, 0, 0, 0))
      case RenameFile(a, b) =>
        if there.None? then here
        else if p != b then None
        else
          var f := there.value;
          Some(FileMetadata(b, f.size, f.blocks, f.etag, f.createdAt, f.ecDataShards, f.ecParityShards,
                            f.lastAccess, f.accessCount, f.movedToCold))
      case ApplyTransactionOperation(_, op) =>
        if op.op.Delete? then None else if here.Some? then here else Some(op.op.metadata)
      case IngestBatch(fs) => Latest(fs, p)
      case AllocateBlock(_, id, locs) =>
        if here.None? then None
        else
          var f := here.value;
          Some(f.(blocks := f.blocks + [BlockInfo(id, 0, locs, 0, f.ecDataShards, f.ecParityShards, 0)]))
      case CompleteFile(_, size, etag, created, checks) =>
        if here.None? then None else Some(Completed(here.value, size, etag, created, checks))
      case UpdateAccessStats(_, t) =>
        if here.None? then None else Some(here.value.(lastAccess := t, accessCount := here.value.accessCount + 1))
      case MoveToCold(_, t) => if here.None? then None else Some(here.value.(movedToCold := t))
      case ConvertToEc(_, d, m, bs) =>
        if here.None? then None else Some(here.value.(ecDataShards := d, ecParityShards := m, blocks := bs))
      case _ => None  // deleted, or moved to another shard
  }

  /** The path that a command takes a file from. */
  function SourceOf(c: MasterCommand, p: Path): Path { if c.RenameFile? then c.source else p }

  lemma EffectAt(s: MasterState, c: MasterCommand, p: Path)
    ensures FileIn(ApplyMaster(s, c), p) == Becomes(c, p, FileIn(s, p), FileIn(s, SourceOf(c, p)))
  {
    if !Names(c, p) {
      OnlyNamed(s, c, p, "");
    } else if c.IngestBatch? {
      IngestEffect(s.files, c.files, p);
      LatestIn(c.files, p);
    }
  }

  /** What is at path `p` after a run of commands, traced back to the last one that names it. */
  function FileAt(cs: seq<Command>, p: Path): Option<FileMetadata> {
    if cs == [] then None
    else
      var before, c := cs[..|cs| - 1], cs[|cs| - 1];
      if c.NoOp? || !Names(c.cmd, p) then FileAt(before, p)
      else Becomes(c.cmd, p, FileAt(before, p), FileAt(before, SourceOf(c.cmd, p)))
  }

  /** A replayed state holds at every path what the trace says. */
  lemma {:induction false} PlayedTraced(cs: seq<Command>, p: Path)
    ensures FileIn(Played(cs), p) == FileAt(cs, p)
    decreases |cs|
  {
    hide ApplyMaster, Becomes;
    if cs != [] {
      var before, c := cs[..|cs| - 1], cs[|cs| - 1];
      PlayedTraced(before, p);
      if c.MasterCmd? {
        PlayedTraced(before, SourceOf(c.cmd, p));
        EffectAt(Played(before), c.cmd, p);
        if !Names(c.cmd, p) { OnlyNamed(Played(before), c.cmd, p, ""); }
      }
    }
  }

  // ---------------------------------------------------------------- blocks

  predicate HasBlock(f: FileMetadata, b: string) { exists i :: 0 <= i < |f.blocks| && f.blocks[i].blockId == b }

  /** Block `b` is listed under path `p`. */
  predicate Lists(s: MasterState, p: Path, b: string) { p in s.files && HasBlock(s.files[p], b) }

  /** No block is listed under two paths. */
  ghost predicate OneOwner(s: MasterState) {
    forall p, q, b :: Lists(s, p, b) && Lists(s, q, b) ==> p == q
  }

  /** The command puts block `b`, which it brings with it, under path `p`. */
  predicate Brings(c: MasterCommand, p: Path, b: string) {
    match c
    case AllocateBlock(q, id, _) => p == q && b == id
    case ApplyTransactionOperation(_, op) => op.op.Create? && p == op.op.path && HasBlock(op.op.metadata, b)
    case IngestBatch(fs) => exists f :: f in fs && f.path == p && HasBlock(f, b)
    case ConvertToEc(q, _, _, bs) => p == q && exists i :: 0 <= i < |bs| && bs[i].blockId == b
    case _ => false
  }

  /** Where the block that is listed under `p` after a command comes from: the command itself, the same
      path, or the path that it renamed. */
  lemma BlockComes(s: MasterState, c: MasterCommand, p: Path, b: string)
    requires Lists(ApplyMaster(s, c), p, b)
    ensures Brings(c, p, b) || (Lists(s, SourceOf(c, p), b) && c.RenameFile? && p == c.dest)
            || (Lists(s, p, b) && (c.RenameFile? && c.source in s.files ==> p != c.source && p != c.dest))
  {
    EffectAt(s, c, p);
    if !Names(c, p) {
      OnlyNamed(s, c, p, "");
    } else if c.CompleteFile? {
      CompleteEffect(s, c);
    } else if c.IngestBatch? {
      LatestIn(c.files, p);
    } else if c.AllocateBlock? {
      AllocateEffect(s, p, c.blockId, c.locations);
    }
  }

  /** What a command brings is listed under no other path, and brought under no other. */
  ghost predicate Careful(s: MasterState, c: MasterCommand) {
    && (forall p, q, b :: Brings(c, p, b) && Lists(s, q, b) ==> p == q)
    && (forall p, q, b :: Brings(c, p, b) && Brings(c, q, b) ==> p == q)
  }

  /** No command makes two files share a block unless it brings one that another file has; a rename
      never does. */
  lemma OwnersKept(s: MasterState, c: MasterCommand)
    requires OneOwner(s) && Careful(s, c)
    ensures OneOwner(ApplyMaster(s, c))
  {
    hide ApplyMaster, Lists, Brings;
    var s' := ApplyMaster(s, c);
    forall p, q, b | Lists(s', p, b) && Lists(s', q, b) ensures p == q {
      BlockComes(s, c, p, b);
      BlockComes(s, c, q, b);
      if c.RenameFile? { BringsNothing(c, p, b); BringsNothing(c, q, b); FoundSource(s, c, b); }
    }
  }

  lemma BringsNothing(c: MasterCommand, p: Path, b: string)
    requires c.RenameFile?
    ensures !Brings(c, p, b)
  {
  }

  lemma FoundSource(s: MasterState, c: MasterCommand, b: string)
    requires c.RenameFile?
    ensures Lists(s, c.source, b) ==> c.source in s.files
  {
  }

  /** Command `i` of a run brings block `b` under path `p`. */
  ghost predicate BringsAt(cs: seq<Command>, i: nat, p: Path, b: string)
    requires i < |cs|
  {
    cs[i].MasterCmd? && Brings(cs[i].cmd, p, b)
  }

  /** Whatever is listed was brought. */
  lemma {:induction false} ListedBrought(cs: seq<Command>, p: Path, b: string) returns (i: nat, q: Path)
    requires Lists(Played(cs), p, b)
    ensures i < |cs| && BringsAt(cs, i, q, b)
    decreases |cs|
  {
    hide ApplyMaster, Brings;
    var k := |cs| - 1;
    var before := cs[..k];
    if cs[k].NoOp? {
      i, q := ListedBrought(before, p, b);
      BringsStill(cs, k, i, q, b);
    } else {
      BlockComes(Played(before), cs[k].cmd, p, b);
      if Brings(cs[k].cmd, p, b) {
        i, q := k, p;
      } else {
        i, q := ListedBrought(before, if Lists(Played(before), p, b) then p else SourceOf(cs[k].cmd, p), b);
        BringsStill(cs, k, i, q, b);
      }
    }
  }

  /** No block id is brought twice. */
  ghost predicate BroughtOnce(cs: seq<Command>) {
    forall i, j, p, q, b :: 0 <= i <= j < |cs| && BringsAt(cs, i, p, b) && BringsAt(cs, j, q, b) ==> i == j && p == q
  }

  /** If no block id is brought twice, no two files ever share a block, whatever is renamed, deleted,
      completed or moved to another shard in between. */
  lemma {:induction false} BlocksOwnedOnce(cs: seq<Command>)
    requires BroughtOnce(cs)
    ensures OneOwner(Played(cs))
    decreases |cs|
  {
    hide ApplyMaster, Brings, Lists;
    if cs != [] {
      var k := |cs| - 1;
      var before := cs[..k];
      assert forall i, p, b :: 0 <= i < k ==> (BringsAt(before, i, p, b) <==> BringsAt(cs, i, p, b));
      BlocksOwnedOnce(before);
      if cs[k].MasterCmd? {
        var c := cs[k].cmd;
        forall p, q, b | Brings(c, p, b) ensures !Lists(Played(before), q, b) { NotYetListed(cs, p, q, b); }
        forall p, q, b | Brings(c, p, b) && Brings(c, q, b) ensures p == q {
          assert BringsAt(cs, k, p, b) && BringsAt(cs, k, q, b);
        }
        OwnersKept(Played(before), c);
      }
    } else {
      Vacant();
    }
  }

  lemma BringsStill(cs: seq<Command>, k: nat, i: nat, p: Path, b: string)
    requires i < k <= |cs| && BringsAt(cs[..k], i, p, b)
    ensures BringsAt(cs, i, p, b)
  {
  }

  lemma NotYetListed(cs: seq<Command>, p: Path, q: Path, b: string)
    requires cs != [] && BringsAt(cs, |cs| - 1, p, b)
    requires forall i, r :: 0 <= i < |cs| && BringsAt(cs, i, r, b) ==> i == |cs| - 1
    ensures !Lists(Played(cs[..|cs| - 1]), q, b)
  {
    hide ApplyMaster, Brings, Lists;
    var before := cs[..|cs| - 1];
    if Lists(Played(before), q, b) {
      var i, r := ListedBrought(before, q, b);
      BringsStill(cs, |cs| - 1, i, r, b);
    }
  }

  lemma Vacant()
    ensures forall p, b :: !Lists(EMPTY, p, b)
  {
  }
}
