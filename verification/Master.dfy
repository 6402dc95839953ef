/**
The replicated state of one metadata shard and the rules by which committed
commands change it.
*/
module Master {
  import opened Options
  import opened StringOrder

  type Path = string
  type ShardId = string
  type TxId = string

  datatype BlockInfo = BlockInfo(
    blockId: string, size: nat, locations: seq<string>, checksum: nat,
    ecDataShards: int, ecParityShards: int, originalSize: nat)

  datatype FileMetadata = FileMetadata(
    path: Path, size: nat, blocks: seq<BlockInfo>, etag: string, createdAt: nat,
    ecDataShards: int, ecParityShards: int, lastAccess: nat, accessCount: nat, movedToCold: nat)

  /** Two files agree in everything but the path. */
  predicate SameContent(f: FileMetadata, g: FileMetadata) {
    && f.size == g.size && f.blocks == g.blocks && f.etag == g.etag && f.createdAt == g.createdAt
    && f.ecDataShards == g.ecDataShards && f.ecParityShards == g.ecParityShards
    && f.lastAccess == g.lastAccess && f.accessCount == g.accessCount && f.movedToCold == g.movedToCold
  }

  datatype TxState = Pending | Prepared | Committed | Aborted

  /** What a client reports about a block it has written. */
  datatype BlockCheck = BlockCheck(blockId: string, checksum: nat, size: nat)

  datatype TxOpType =
    | Delete(path: Path)
    | Create(path: Path, metadata: FileMetadata)

  datatype TxOperation = TxOperation(shard: ShardId, op: TxOpType)

  /** The record's start time is dropped: every timeout test is a free choice here. */
  datatype TransactionRecord = TransactionRecord(
    txId: TxId, sourcePath: Path, destPath: Path, state: TxState,
    participants: seq<ShardId>, operations: seq<TxOperation>,
    coordinator: ShardId, participantAcked: bool, inquiryCount: nat)

  datatype MasterCommand =
    | CreateFile(path: Path, ecDataShards: int, ecParityShards: int)
    | DeleteFile(path: Path)
    | AllocateBlock(path: Path, blockId: string, locations: seq<string>)
    | RenameFile(source: Path, dest: Path)
    | CreateTransactionRecord(record: TransactionRecord)
    | UpdateTransactionState(txId: TxId, newState: TxState)
    | ApplyTransactionOperation(txId: TxId, operation: TxOperation)
    | DeleteTransactionRecord(txId: TxId)
    | SetParticipantAcked(txId: TxId)
    | IncrementInquiryCount(txId: TxId)
    | IngestBatch(files: seq<FileMetadata>)
    | SplitShard(splitKey: Path, newShard: ShardId)
    | CompleteFile(path: Path, size: nat, etag: Option<string>, createdAt: Option<nat>, checks: seq<BlockCheck>)
    | UpdateAccessStats(path: Path, at: nat)
    | MoveToCold(path: Path, at: nat)
    | ConvertToEc(path: Path, ecDataShards: int, ecParityShards: int, blocks: seq<BlockInfo>)

  datatype Command = MasterCmd(cmd: MasterCommand) | NoOp

  datatype MasterState = MasterState(files: map<Path, FileMetadata>, records: map<TxId, TransactionRecord>)

  const EMPTY := MasterState(map[], map[])

  function NewFile(path: Path, ecData: int, ecParity: int): FileMetadata {
    FileMetadata(path, 0, [], "", 0, ecData, ecParity, 0, 0, 0)
  }

  function WithoutFile(s: MasterState, path: Path): MasterState {
    s.(files := s.files - {path})
  }

  function WithRecord(s: MasterState, r: TransactionRecord): MasterState {
    s.(records := s.records[r.txId := r])
  }

  function Ingest(files: map<Path, FileMetadata>, batch: seq<FileMetadata>): map<Path, FileMetadata>
    decreases |batch|
  {
    if batch == [] then files else Ingest(files[batch[0].path := batch[0]], batch[1..])
  }

  /** The first block that a report names gets its values. */
  function Reported(bs: seq<BlockInfo>, c: BlockCheck): seq<BlockInfo> {
    if bs == [] then []
    else if bs[0].blockId == c.blockId then
      [bs[0].(checksum := c.checksum, size := c.size, originalSize := c.size)] + bs[1..]
    else [bs[0]] + Reported(bs[1..], c)
  }

  function ReportedAll(bs: seq<BlockInfo>, cs: seq<BlockCheck>): seq<BlockInfo>
    decreases |cs|
  {
    if cs == [] then bs else ReportedAll(Reported(bs, cs[0]), cs[1..])
  }

  /** Without reports the size is spread evenly over the blocks, and the last one takes the rest. */
  function Spread(bs: seq<BlockInfo>, size: nat): seq<BlockInfo> {
    seq(|bs|, i requires 0 <= i < |bs| =>
      var each := size / |bs|;
      bs[i].(size := if i < |bs| - 1 then each else Rest(size, each, |bs| - 1)))
  }

  /** What `n` shares of `each` leave of `size`. */
  function Rest(size: nat, each: nat, n: nat): nat { if each * n <= size then size - each * n else 0 }

  function Completed(f: FileMetadata, size: nat, etag: Option<string>, createdAt: Option<nat>, checks: seq<BlockCheck>): FileMetadata {
    f.(size := size,
       etag := if etag.Some? then etag.value else f.etag,
       createdAt := if createdAt.Some? then createdAt.value else f.createdAt,
       blocks := if checks != [] then ReportedAll(f.blocks, checks) else Spread(f.blocks, size))
  }

  function ApplyMaster(s: MasterState, c: MasterCommand): MasterState {
    match c
    case CreateFile(p, d, m) => s.(files := s.files[p := NewFile(p, d, m)])
    case DeleteFile(p) => WithoutFile(s, p)
    case AllocateBlock(p, b, locs) =>
      if p in s.files then
        var f := s.files[p];
        var block := BlockInfo(b, 0, locs, 0, f.ecDataShards, f.ecParityShards, 0);
        s.(files := s.files[p := f.(blocks := f.blocks + [block])])
      else s
    case RenameFile(src, dst) =>
      if src in s.files then
        var f := s.files[src];
        s.(files := (s.files - {src})[dst := f.(path := dst)])
      else s
    case CreateTransactionRecord(r) => WithRecord(s, r)
    case UpdateTransactionState(t, st) =>
      if t in s.records then s.(records := s.records[t := s.records[t].(state := st)]) else s
    case ApplyTransactionOperation(_, op) =>
      (match op.op
       case Delete(p) => WithoutFile(s, p)
       case Create(p, m) => if p in s.files then s else s.(files := s.files[p := m]))
    case DeleteTransactionRecord(t) => s.(records := s.records - {t})
    case SetParticipantAcked(t) =>
      if t in s.records then s.(records := s.records[t := s.records[t].(participantAcked := true)]) else s
    case IncrementInquiryCount(t) =>
      if t in s.records then
        s.(records := s.records[t := s.records[t].(inquiryCount := s.records[t].inquiryCount + 1)])
      else s
    case IngestBatch(fs) => s.(files := Ingest(s.files, fs))
    case SplitShard(k, _) => s.(files := s.files - (set p | p in s.files && UpTo(k, p)))
    case CompleteFile(p, size, etag, created, checks) =>
      if p in s.files then s.(files := s.files[p := Completed(s.files[p], size, etag, created, checks)]) else s
    case UpdateAccessStats(p, t) =>
      if p in s.files then
        s.(files := s.files[p := s.files[p].(lastAccess := t, accessCount := s.files[p].accessCount + 1)])
      else s
    case MoveToCold(p, t) => if p in s.files then s.(files := s.files[p := s.files[p].(movedToCold := t)]) else s
    case ConvertToEc(p, d, m, bs) =>
      if p in s.files then
        s.(files := s.files[p := s.files[p].(ecDataShards := d, ecParityShards := m, blocks := bs)])
      else s
  }

  function ApplyCommand(s: MasterState, c: Command): MasterState {
    match c
    case MasterCmd(m) => ApplyMaster(s, m)
    case NoOp => s
  }
}
