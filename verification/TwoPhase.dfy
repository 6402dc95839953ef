/**
One cross-shard rename: the coordinator's request handler, its recovery and
cleanup tasks, and the participant's handlers and cleanup task, taking steps in
any order. Messages may be lost or delivered again, timers may fire at any time,
the handler may stop anywhere, and a proposed command may be applied late, more
than once, or never.
*/
module TwoPhase {
  import opened Options
  import opened Master

  /** The rename of `source` on shard `here` to `dest` on shard `there`. */
  datatype Rename = Rename(tx: TxId, source: Path, dest: Path, here: ShardId, there: ShardId, original: FileMetadata)
  {
    /** The metadata that the create carries. */
    function Moved(): FileMetadata { original.(path := dest) }

    function DeleteOp(): TxOperation { TxOperation(here, Delete(source)) }

    function CreateOp(): TxOperation { TxOperation(there, Create(dest, Moved())) }

    function CoordinatorRecord(): TransactionRecord {
      TransactionRecord(tx, source, dest, Pending, [here, there], [DeleteOp(), CreateOp()], here, false, 0)
    }

    function ParticipantRecord(): TransactionRecord {
      TransactionRecord(tx, "", dest, Prepared, [here, there], [CreateOp()], here, false, 0)
    }
  }

  /** `f` is the source file in everything but the path, and that is the destination. */
  predicate Carries(k: Rename, f: FileMetadata) { f.path == k.dest && SameContent(f, k.original) }

  /** A shard's replicated state, and which commands were ever proposed and applied. */
  datatype Shard = Shard(state: MasterState, proposed: set<MasterCommand>, applied: set<MasterCommand>)

  datatype Message =
    | PrepareRequest | PrepareYes | CommitRequest | CommitYes | AbortRequest
    | StatusCommitted | StatusAborted | StatusUnknown

  datatype Phase = Fresh | Recording | Preparing | AwaitPrepare | AwaitCommit | Deleting | Labelling | Succeeded | Failed

  datatype System = System(
    src: Shard, dst: Shard, net: set<Message>, phase: Phase, recovering: Option<TransactionRecord>)

  function Proposing(s: Shard, cs: set<MasterCommand>): Shard { s.(proposed := s.proposed + cs) }

  function Committing(k: Rename): MasterCommand { UpdateTransactionState(k.tx, Committed) }

  function Aborting(k: Rename): MasterCommand { UpdateTransactionState(k.tx, Aborted) }

  function DeletingSource(k: Rename): MasterCommand { ApplyTransactionOperation(k.tx, k.DeleteOp()) }

  function CreatingDest(k: Rename): MasterCommand { ApplyTransactionOperation(k.tx, k.CreateOp()) }

  /** The source file exists, and nothing about this rename has happened yet. */
  ghost predicate Start(k: Rename, x: System) {
    && k.source in x.src.state.files && x.src.state.files[k.source] == k.original
    && k.tx !in x.src.state.records && k.tx !in x.dst.state.records
    && x.src.proposed == {} && x.src.applied == {} && x.dst.proposed == {} && x.dst.applied == {}
    && x.net == {} && x.phase == Fresh && x.recovering == None
  }

  // ---------------------------------------------------------------- the request handler

  ghost predicate HandlerStep(k: Rename, x: System, y: System) {
    match x.phase
    case Fresh =>
      y == x.(phase := Recording, src := Proposing(x.src, {CreateTransactionRecord(k.CoordinatorRecord())}))
    case Recording =>
      && CreateTransactionRecord(k.CoordinatorRecord()) in x.src.applied
      && y == x.(phase := Preparing, src := Proposing(x.src, {UpdateTransactionState(k.tx, Prepared)}))
    case Preparing =>
      || (UpdateTransactionState(k.tx, Prepared) in x.src.applied
          && y == x.(phase := AwaitPrepare, net := x.net + {PrepareRequest}))
      || y == x.(phase := Failed, net := x.net + {AbortRequest})
    case AwaitPrepare =>
      || (PrepareYes in x.net && y == x.(phase := AwaitCommit, net := x.net + {CommitRequest}))
      || y == x.(phase := Failed, net := x.net + {AbortRequest}, src := Proposing(x.src, {Aborting(k)}))
    case AwaitCommit =>
      CommitYes in x.net && y == x.(phase := Deleting, src := Proposing(x.src, {DeletingSource(k)}))
    case Deleting =>
      y == x.(phase := Labelling, src := Proposing(x.src, {Committing(k)}))
    case Labelling =>
      y == x.(phase := Succeeded, src := Proposing(x.src, {SetParticipantAcked(k.tx)}))
    case Succeeded => false
    case Failed => false
  }

  /** The handler gives up or its server stops. */
  ghost predicate HandlerStops(x: System, y: System) {
    x.phase != Succeeded && y == x.(phase := Failed)
  }

  // ---------------------------------------------------------------- the participant

  ghost predicate PrepareStep(k: Rename, x: System, y: System) {
    && PrepareRequest in x.net
    && if k.tx in x.dst.state.records then y == x.(net := x.net + {PrepareYes})
       else if k.dest in x.dst.state.files then y == x
       else y == x.(dst := Proposing(x.dst, {CreateTransactionRecord(k.ParticipantRecord())}))
  }

  ghost predicate PreparedStep(k: Rename, x: System, y: System) {
    && CreateTransactionRecord(k.ParticipantRecord()) in x.dst.applied
    && y == x.(net := x.net + {PrepareYes})
  }

  /** A commit request applies the first operation of the record, whatever its state,
      unless it is already committed. */
  ghost predicate CommitStep(k: Rename, x: System, y: System) {
    && CommitRequest in x.net
    && k.tx in x.dst.state.records
    && var r := x.dst.state.records[k.tx];
       if r.state == Committed then y == x.(net := x.net + {CommitYes})
       else r.operations != [] && y == x.(dst := Proposing(x.dst, {ApplyTransactionOperation(k.tx, r.operations[0])}))
  }

  ghost predicate CommittedStep(k: Rename, x: System, y: System, op: TxOperation) {
    && ApplyTransactionOperation(k.tx, op) in x.dst.applied
    && y == x.(dst := Proposing(x.dst, {Committing(k)}), net := x.net + {CommitYes})
  }

  ghost predicate AbortStep(k: Rename, x: System, y: System) {
    AbortRequest in x.net && y == x.(dst := Proposing(x.dst, {Aborting(k)}))
  }

  // ---------------------------------------------------------------- background tasks

  ghost predicate InquireStep(k: Rename, x: System, y: System) {
    var status :=
      if k.tx in x.src.state.records && x.src.state.records[k.tx].state == Committed then StatusCommitted
      else if k.tx in x.src.state.records && x.src.state.records[k.tx].state == Aborted then StatusAborted
      else StatusUnknown;
    y == x.(net := x.net + {status})
  }

  ghost predicate ParticipantCleanup(k: Rename, x: System, y: System) {
    && k.tx in x.dst.state.records
    && var r := x.dst.state.records[k.tx];
       match r.state
       case Pending => y == x.(dst := Proposing(x.dst, {Aborting(k)}))
       case Prepared =>
         || (StatusCommitted in x.net && r.operations != []
             && exists cs :: cs <= {ApplyTransactionOperation(k.tx, r.operations[0]), Committing(k)}
                  && y == x.(dst := Proposing(x.dst, cs)))
         || (StatusAborted in x.net && y == x.(dst := Proposing(x.dst, {Aborting(k)})))
         || (StatusUnknown in x.net
             && exists cs :: cs <= {IncrementInquiryCount(k.tx), Aborting(k)} && y == x.(dst := Proposing(x.dst, cs)))
       case Committed => y == x.(dst := Proposing(x.dst, {DeleteTransactionRecord(k.tx)}))
       case Aborted => y == x.(dst := Proposing(x.dst, {DeleteTransactionRecord(k.tx)}))
  }

  ghost predicate CoordinatorCleanup(k: Rename, x: System, y: System) {
    && k.tx in x.src.state.records
    && var r := x.src.state.records[k.tx];
       match r.state
       case Pending => y == x.(src := Proposing(x.src, {Aborting(k)}))
       case Prepared => y == x
       case Committed => r.participantAcked && y == x.(src := Proposing(x.src, {DeleteTransactionRecord(k.tx)}))
       case Aborted => y == x.(src := Proposing(x.src, {DeleteTransactionRecord(k.tx)}))
  }

  /** Recovery looks at a record and asks the participant to commit ... */
  ghost predicate RecoveryAsks(k: Rename, x: System, y: System) {
    && k.tx in x.src.state.records
    && var r := x.src.state.records[k.tx];
       && ((r.state == Committed && !r.participantAcked) || r.state == Prepared)
       && y == x.(net := x.net + {CommitRequest}, recovering := Some(r))
  }

  /** ... and, when it has, finishes what the handler left undone. */
  ghost predicate RecoveryFinishes(k: Rename, x: System, y: System) {
    && CommitYes in x.net && x.recovering.Some?
    && var r := x.recovering.value;
       if r.state == Committed then y == x.(src := Proposing(x.src, {SetParticipantAcked(k.tx)}))
       else exists i, cs :: 0 <= i < |r.operations| && r.operations[i].op.Delete?
              && cs <= {ApplyTransactionOperation(k.tx, r.operations[i]), Committing(k), SetParticipantAcked(k.tx)}
              && y == x.(src := Proposing(x.src, cs))
  }

  // ---------------------------------------------------------------- replication and everyone else

  function Applying(s: Shard, c: MasterCommand): Shard {
    s.(state := ApplyMaster(s.state, c), applied := s.applied + {c})
  }

  ghost predicate ApplyStep(x: System, y: System) {
    || (exists c :: c in x.src.proposed && y == x.(src := Applying(x.src, c)))
    || (exists c :: c in x.dst.proposed && y == x.(dst := Applying(x.dst, c)))
  }

  /** Other commands leave this rename's record alone ... */
  ghost predicate SparesRecord(k: Rename, a: MasterState, b: MasterState) {
    (k.tx in a.records <==> k.tx in b.records) && (k.tx in a.records ==> a.records[k.tx] == b.records[k.tx])
  }

  /** ... and a path. */
  ghost predicate Spares(k: Rename, path: Path, a: MasterState, b: MasterState) {
    && (path in a.files <==> path in b.files) && (path in a.files ==> a.files[path] == b.files[path])
    && SparesRecord(k, a, b)
  }

  /** Others do something else on one of the shards. */
  ghost predicate OthersStep(k: Rename, x: System, y: System) {
    || (Spares(k, k.source, x.src.state, y.src.state) && y == x.(src := x.src.(state := y.src.state)))
    || (Spares(k, k.dest, x.dst.state, y.dst.state) && y == x.(dst := x.dst.(state := y.dst.state)))
  }

  /** Others may also create, delete and change the destination. */
  ghost predicate RivalsStep(k: Rename, x: System, y: System) {
    || (Spares(k, k.source, x.src.state, y.src.state) && y == x.(src := x.src.(state := y.src.state)))
    || (SparesRecord(k, x.dst.state, y.dst.state) && y == x.(dst := x.dst.(state := y.dst.state)))
  }

  /** A step of this rename. */
  ghost predicate OwnStep(k: Rename, x: System, y: System) {
    || HandlerStep(k, x, y) || HandlerStops(x, y)
    || PrepareStep(k, x, y) || PreparedStep(k, x, y) || AbortStep(k, x, y)
    || CommitStep(k, x, y) || (exists op :: CommittedStep(k, x, y, op))
    || InquireStep(k, x, y) || ParticipantCleanup(k, x, y) || CoordinatorCleanup(k, x, y)
    || RecoveryAsks(k, x, y) || RecoveryFinishes(k, x, y)
    || ApplyStep(x, y)
  }

  ghost predicate Next(k: Rename, x: System, y: System, rivals: bool) {
    OwnStep(k, x, y) || if rivals then RivalsStep(k, x, y) else OthersStep(k, x, y)
  }

  ghost predicate StepAt(k: Rename, xs: seq<System>, i: nat, rivals: bool)
    requires 0 < i < |xs|
  {
    Next(k, xs[i - 1], xs[i], rivals)
  }

  /** With `rivals`, others may touch the destination; without, they touch neither of the two paths. */
  ghost predicate Runs(k: Rename, xs: seq<System>, rivals: bool) {
    |xs| > 0 && Start(k, xs[0]) && forall i :: 0 < i < |xs| ==> StepAt(k, xs, i, rivals)
  }

  ghost predicate Execution(k: Rename, xs: seq<System>) { Runs(k, xs, false) }

  // ---------------------------------------------------------------- what every step keeps

  /** The commands that this rename proposes on the source shard. */
  predicate SourceCommand(k: Rename, c: MasterCommand) {
    || c == CreateTransactionRecord(k.CoordinatorRecord())
    || (c.UpdateTransactionState? && c.txId == k.tx)
    || c == DeletingSource(k)
    || c == SetParticipantAcked(k.tx)
    || c == DeleteTransactionRecord(k.tx)
  }

  predicate DestCommand(k: Rename, c: MasterCommand) {
    || c == CreateTransactionRecord(k.ParticipantRecord())
    || (c.UpdateTransactionState? && c.txId == k.tx)
    || c == CreatingDest(k)
    || c == IncrementInquiryCount(k.tx)
    || c == DeleteTransactionRecord(k.tx)
  }

  predicate CoordinatorShape(k: Rename, r: TransactionRecord) { r.operations == [k.DeleteOp(), k.CreateOp()] }

  /** On the source shard, nothing is deleted or called committed before the participant has committed. */
  ghost predicate SourceOk(k: Rename, s: Shard, committed: bool) {
    && s.applied <= s.proposed
    && (forall c :: c in s.proposed ==> SourceCommand(k, c))
    && (k.tx in s.state.records ==> CoordinatorShape(k, s.state.records[k.tx]))
    && (k.source in s.state.files ==> s.state.files[k.source] == k.original)
    && (!committed ==>
          && k.source in s.state.files
          && DeletingSource(k) !in s.proposed && Committing(k) !in s.proposed
          && (k.tx in s.state.records ==> s.state.records[k.tx].state != Committed))
  }

  /** On the destination shard, nothing is called committed before the create has been applied. */
  ghost predicate DestOk(k: Rename, s: Shard, committed: bool) {
    && s.applied <= s.proposed
    && (forall c :: c in s.proposed ==> DestCommand(k, c))
    && (k.tx in s.state.records ==> s.state.records[k.tx].operations == [k.CreateOp()])
    && (CreatingDest(k) !in s.applied ==>
          && !committed && Committing(k) !in s.proposed
          && (k.tx in s.state.records ==> s.state.records[k.tx].state != Committed))
  }

  ghost predicate HandlerOk(x: System) {
    x.phase == Deleting || x.phase == Labelling || x.phase == Succeeded ==> CommitYes in x.net
  }

  ghost predicate Inv(k: Rename, x: System) {
    && SourceOk(k, x.src, CommitYes in x.net)
    && DestOk(k, x.dst, CommitYes in x.net)
    && (x.recovering.Some? ==> CoordinatorShape(k, x.recovering.value))
    && (StatusCommitted in x.net ==> CommitYes in x.net)
    && HandlerOk(x)
  }

  // ---------------------------------------------------------------- one shard at a time

  lemma SourceProposes(k: Rename, s: Shard, committed: bool, cs: set<MasterCommand>)
    requires SourceOk(k, s, committed) && (forall c :: c in cs ==> SourceCommand(k, c))
    requires !committed ==> DeletingSource(k) !in cs && Committing(k) !in cs
    ensures SourceOk(k, Proposing(s, cs), committed)
  {
  }

  lemma SourceApplies(k: Rename, s: Shard, committed: bool, c: MasterCommand)
    requires SourceOk(k, s, committed) && c in s.proposed
    ensures SourceOk(k, Applying(s, c), committed)
  {
    assert SourceCommand(k, c);
  }

  lemma SourceLearns(k: Rename, s: Shard, committed: bool)
    requires SourceOk(k, s, committed)
    ensures SourceOk(k, s, true)
  {
  }

  lemma SourceOthers(k: Rename, s: Shard, committed: bool, st: MasterState)
    requires SourceOk(k, s, committed) && Spares(k, k.source, s.state, st)
    ensures SourceOk(k, s.(state := st), committed)
  {
  }

  lemma DestProposes(k: Rename, s: Shard, committed: bool, cs: set<MasterCommand>)
    requires DestOk(k, s, committed) && (forall c :: c in cs ==> DestCommand(k, c))
    requires CreatingDest(k) !in s.applied ==> Committing(k) !in cs
    ensures DestOk(k, Proposing(s, cs), committed)
  {
  }

  lemma DestApplies(k: Rename, s: Shard, committed: bool, c: MasterCommand)
    requires DestOk(k, s, committed) && c in s.proposed
    ensures DestOk(k, Applying(s, c), committed)
  {
    assert DestCommand(k, c);
  }

  lemma DestRivals(k: Rename, s: Shard, committed: bool, st: MasterState)
    requires DestOk(k, s, committed) && SparesRecord(k, s.state, st)
    ensures DestOk(k, s.(state := st), committed)
  {
  }

  // ---------------------------------------------------------------- every step

  lemma HandlerKeeps(k: Rename, x: System, y: System)
    requires Inv(k, x) && HandlerStep(k, x, y)
    ensures Inv(k, y)
  {
    hide SourceOk, DestOk, DestCommand;
    var committed := CommitYes in x.net;
    match x.phase
    case Fresh => SourceProposes(k, x.src, committed, {CreateTransactionRecord(k.CoordinatorRecord())});
    case Recording => SourceProposes(k, x.src, committed, {UpdateTransactionState(k.tx, Prepared)});
    case Preparing =>
    case AwaitPrepare => SourceProposes(k, x.src, committed, {Aborting(k)});
    case AwaitCommit => SourceProposes(k, x.src, committed, {DeletingSource(k)});
    case Deleting => SourceProposes(k, x.src, committed, {Committing(k)});
    case Labelling => SourceProposes(k, x.src, committed, {SetParticipantAcked(k.tx)});
  }

  lemma PrepareKeeps(k: Rename, x: System, y: System)
    requires Inv(k, x) && (PrepareStep(k, x, y) || PreparedStep(k, x, y) || AbortStep(k, x, y))
    ensures Inv(k, y)
  {
    hide SourceOk, DestOk;
    var committed := CommitYes in x.net;
    DestProposes(k, x.dst, committed, {CreateTransactionRecord(k.ParticipantRecord())});
    DestProposes(k, x.dst, committed, {Aborting(k)});
  }

  lemma CommitKeeps(k: Rename, x: System, y: System)
    requires Inv(k, x) && CommitStep(k, x, y)
    ensures Inv(k, y)
  {
    hide SourceOk;
    SourceLearns(k, x.src, CommitYes in x.net);
    DestProposes(k, x.dst, CommitYes in x.net, {CreatingDest(k)});
  }

  lemma CommittedKeeps(k: Rename, x: System, y: System, op: TxOperation)
    requires Inv(k, x) && CommittedStep(k, x, y, op)
    ensures Inv(k, y)
  {
    hide SourceOk;
    var c := ApplyTransactionOperation(k.tx, op);
    assert c in x.dst.proposed;
    assert DestCommand(k, c);
    SourceLearns(k, x.src, CommitYes in x.net);
    DestProposes(k, x.dst, CommitYes in x.net, {Committing(k)});
  }

  lemma CleanupKeeps(k: Rename, x: System, y: System)
    requires Inv(k, x) && ParticipantCleanup(k, x, y)
    ensures Inv(k, y)
  {
    var committed := CommitYes in x.net;
    var cs := y.dst.proposed - x.dst.proposed;
    assert forall c :: c in cs ==> DestCommand(k, c);
    DestProposes(k, x.dst, committed, cs);
    assert y.dst.proposed == x.dst.proposed + cs;
    assert y.dst == Proposing(x.dst, cs);
  }

  lemma CoordinatorKeeps(k: Rename, x: System, y: System)
    requires Inv(k, x) && CoordinatorCleanup(k, x, y)
    ensures Inv(k, y)
  {
    SourceProposes(k, x.src, CommitYes in x.net, {Aborting(k)});
    SourceProposes(k, x.src, CommitYes in x.net, {DeleteTransactionRecord(k.tx)});
  }

  lemma RecoveryKeeps(k: Rename, x: System, y: System)
    requires Inv(k, x) && RecoveryFinishes(k, x, y)
    ensures Inv(k, y)
  {
    var cs := y.src.proposed - x.src.proposed;
    assert forall c :: c in cs ==> SourceCommand(k, c);
    SourceProposes(k, x.src, true, cs);
    assert y.src.proposed == x.src.proposed + cs;
    assert y.src == Proposing(x.src, cs);
  }

  lemma ApplyKeeps(k: Rename, x: System, y: System)
    requires Inv(k, x) && ApplyStep(x, y)
    ensures Inv(k, y)
  {
    hide SourceOk, DestOk, ApplyMaster;
    if c :| c in x.src.proposed && y == x.(src := Applying(x.src, c)) {
      SourceApplies(k, x.src, CommitYes in x.net, c);
    } else {
      var c :| c in x.dst.proposed && y == x.(dst := Applying(x.dst, c));
      DestApplies(k, x.dst, CommitYes in x.net, c);
    }
  }

  lemma RivalsKeep(k: Rename, x: System, y: System)
    requires Inv(k, x) && RivalsStep(k, x, y)
    ensures Inv(k, y)
  {
    hide SourceOk, DestOk;
    if Spares(k, k.source, x.src.state, y.src.state) { SourceOthers(k, x.src, CommitYes in x.net, y.src.state); }
    if SparesRecord(k, x.dst.state, y.dst.state) { DestRivals(k, x.dst, CommitYes in x.net, y.dst.state); }
  }

  lemma InquireKeeps(k: Rename, x: System, y: System)
    requires Inv(k, x) && InquireStep(k, x, y)
    ensures Inv(k, y)
  {
  }

  lemma AsksKeeps(k: Rename, x: System, y: System)
    requires Inv(k, x) && RecoveryAsks(k, x, y)
    ensures Inv(k, y)
  {
  }

  /** Every step keeps the invariant, whatever others do to the destination. */
  lemma NextKeeps(k: Rename, x: System, y: System, rivals: bool)
    requires Inv(k, x) && Next(k, x, y, rivals)
    ensures Inv(k, y)
  {
    hide SourceOk, DestOk, HandlerStep, PrepareStep, PreparedStep, CommitStep, CommittedStep, AbortStep,
         ParticipantCleanup, CoordinatorCleanup, RecoveryFinishes, ApplyStep;
    if HandlerStep(k, x, y) { HandlerKeeps(k, x, y); }
    else if PrepareStep(k, x, y) || PreparedStep(k, x, y) || AbortStep(k, x, y) { PrepareKeeps(k, x, y); }
    else if CommitStep(k, x, y) { CommitKeeps(k, x, y); }
    else if op :| CommittedStep(k, x, y, op) { CommittedKeeps(k, x, y, op); }
    else if ParticipantCleanup(k, x, y) { CleanupKeeps(k, x, y); }
    else if CoordinatorCleanup(k, x, y) { CoordinatorKeeps(k, x, y); }
    else if RecoveryFinishes(k, x, y) { RecoveryKeeps(k, x, y); }
    else if ApplyStep(x, y) { ApplyKeeps(k, x, y); }
    else if RivalsStep(k, x, y) { RivalsKeep(k, x, y); }
    else if InquireStep(k, x, y) { InquireKeeps(k, x, y); }
    else if RecoveryAsks(k, x, y) { AsksKeeps(k, x, y); }
  }

  lemma {:induction false} RunInv(k: Rename, xs: seq<System>, rivals: bool, i: nat)
    requires Runs(k, xs, rivals) && i < |xs|
    ensures Inv(k, xs[i])
  {
    hide Next;
    if i > 0 {
      RunInv(k, xs, rivals, i - 1);
      assert StepAt(k, xs, i, rivals);
      NextKeeps(k, xs[i - 1], xs[i], rivals);
    }
  }

  // ---------------------------------------------------------------- what is at the destination

  /** Nobody else touches the destination. It did not exist: then it holds the moved metadata as
      soon as the create has been applied. It existed: then it stays, and the participant never gets
      a record of this rename. */
  ghost predicate FilesOk(k: Rename, existing: Option<FileMetadata>, x: System) {
    var files := x.dst.state.files;
    if existing.None? then
      && (k.dest in files ==> Carries(k, files[k.dest]))
      && (CreatingDest(k) in x.dst.applied ==> k.dest in files)
    else
      && k.dest in files && files[k.dest] == existing.value
      && (forall c :: c in x.dst.proposed ==> c == Aborting(k))
      && k.tx !in x.dst.state.records
  }

  lemma ApplyFiles(k: Rename, e: Option<FileMetadata>, x: System, y: System)
    requires Inv(k, x) && FilesOk(k, e, x) && ApplyStep(x, y)
    ensures FilesOk(k, e, y)
  {
    hide ApplyMaster, DestOk, SourceOk;
    if c :| c in x.dst.proposed && y == x.(dst := Applying(x.dst, c)) { ApplyThere(k, e, x, c); }
  }

  lemma ApplyThere(k: Rename, e: Option<FileMetadata>, x: System, c: MasterCommand)
    requires DestOk(k, x.dst, CommitYes in x.net) && FilesOk(k, e, x) && c in x.dst.proposed
    ensures FilesOk(k, e, x.(dst := Applying(x.dst, c)))
  {
    assert DestCommand(k, c);
  }

  /** Without rivals, what is at the destination stays right. */
  lemma FilesKept(k: Rename, e: Option<FileMetadata>, x: System, y: System)
    requires Inv(k, x) && FilesOk(k, e, x) && Next(k, x, y, false)
    ensures FilesOk(k, e, y)
  {
    hide OwnStep, ApplyStep, SourceOk;
    if ApplyStep(x, y) {
      ApplyFiles(k, e, x, y);
    } else if OwnStep(k, x, y) {
      OwnFiles(k, e, x, y);
    }
  }

  lemma OwnFiles(k: Rename, e: Option<FileMetadata>, x: System, y: System)
    requires x.dst.applied <= x.dst.proposed && FilesOk(k, e, x) && OwnStep(k, x, y) && !ApplyStep(x, y)
    ensures FilesOk(k, e, y)
  {
    hide OwnStep, ApplyStep;
    OnlyApplies(k, x, y);
    if e.Some? { OwnProposes(k, x, y); }
  }

  /** Only applying a command changes what is there. */
  lemma OnlyApplies(k: Rename, x: System, y: System)
    requires OwnStep(k, x, y)
    ensures ApplyStep(x, y) || (y.dst.state == x.dst.state && y.dst.applied == x.dst.applied)
  {
    hide ApplyStep;
  }

  /** A participant without a record proposes nothing that has effects, if the destination exists. */
  lemma OwnProposes(k: Rename, x: System, y: System)
    requires OwnStep(k, x, y) && !ApplyStep(x, y)
    requires x.dst.applied <= x.dst.proposed && (forall c :: c in x.dst.proposed ==> c == Aborting(k))
    requires k.tx !in x.dst.state.records && k.dest in x.dst.state.files
    ensures forall c :: c in y.dst.proposed ==> c == Aborting(k)
  {
    hide ApplyStep;
    assert forall op :: ApplyTransactionOperation(k.tx, op) in x.dst.applied ==>
                          ApplyTransactionOperation(k.tx, op) in x.dst.proposed;
  }

  // ---------------------------------------------------------------- whole executions

  /** What the destination held before the rename. */
  function Existing(k: Rename, x: System): Option<FileMetadata> {
    if k.dest in x.dst.state.files then Some(x.dst.state.files[k.dest]) else None
  }

  lemma {:induction false} ExecutionInv(k: Rename, xs: seq<System>, i: nat)
    requires Execution(k, xs) && i < |xs|
    ensures Inv(k, xs[i]) && FilesOk(k, Existing(k, xs[0]), xs[i])
  {
    hide Next, Inv;
    RunInv(k, xs, false, i);
    if i > 0 {
      ExecutionInv(k, xs, i - 1);
      assert StepAt(k, xs, i, false);
      FilesKept(k, Existing(k, xs[0]), xs[i - 1], xs[i]);
    }
  }

  /** Nothing is lost: whenever the source is gone, the destination holds its metadata,
      and as long as it is there, it is unchanged. */
  lemma NothingLost(k: Rename, xs: seq<System>, i: nat)
    requires Execution(k, xs) && i < |xs|
    ensures var src, dst := xs[i].src.state.files, xs[i].dst.state.files;
            if k.source in src then src[k.source] == k.original
            else k.dest in dst && Carries(k, dst[k.dest])
  {
    ExecutionInv(k, xs, i);
  }

  /** Nothing is overwritten: a destination that existed stays as it is, and the source stays too. */
  lemma NothingOverwritten(k: Rename, xs: seq<System>, i: nat)
    requires Execution(k, xs) && i < |xs| && k.dest in xs[0].dst.state.files
    ensures k.dest in xs[i].dst.state.files && xs[i].dst.state.files[k.dest] == xs[0].dst.state.files[k.dest]
    ensures k.source in xs[i].src.state.files && xs[i].src.state.files[k.source] == k.original
    ensures xs[i].phase != Succeeded
  {
    ExecutionInv(k, xs, i);
    assert CreatingDest(k) !in xs[i].dst.applied;
  }

  /** A rename that reports success has created the destination, and it stays. */
  lemma SuccessMeansCreated(k: Rename, xs: seq<System>, i: nat, j: nat)
    requires Execution(k, xs) && i <= j < |xs| && xs[i].phase == Succeeded
    ensures k.dest in xs[j].dst.state.files && Carries(k, xs[j].dst.state.files[k.dest])
  {
    ExecutionInv(k, xs, i);
    ExecutionInv(k, xs, j);
    NetGrows(k, xs, false, i, j);
    assert CreatingDest(k) in xs[j].dst.applied;
    assert CreatingDest(k) in xs[j].dst.proposed;
  }

  lemma {:induction false} NetGrows(k: Rename, xs: seq<System>, rivals: bool, i: nat, j: nat)
    requires Runs(k, xs, rivals) && i <= j < |xs|
    ensures xs[i].net <= xs[j].net
  {
    hide Next, Start;
    if i < j {
      NetGrows(k, xs, rivals, i, j - 1);
      assert StepAt(k, xs, j, rivals);
      NetKept(k, xs[j - 1], xs[j], rivals);
    }
  }

  lemma NetKept(k: Rename, x: System, y: System, rivals: bool)
    requires Next(k, x, y, rivals)
    ensures x.net <= y.net
  {
  }

  // ---------------------------------------------------------------- rivals at the destination

  ghost predicate HoldsMoved(k: Rename, x: System) {
    k.dest in x.dst.state.files && Carries(k, x.dst.state.files[k.dest])
  }

  /** Something else is at the destination. */
  ghost predicate Occupied(k: Rename, x: System) {
    k.dest in x.dst.state.files && !Carries(k, x.dst.state.files[k.dest])
  }

  /** The create of this rename is applied between `x` and `y`. */
  ghost predicate Creates(k: Rename, x: System, y: System) {
    CreatingDest(k) in x.dst.proposed && y == x.(dst := Applying(x.dst, CreatingDest(k)))
  }

  ghost predicate CreatesAt(k: Rename, xs: seq<System>, j: nat)
    requires j + 1 < |xs|
  {
    Creates(k, xs[j], xs[j + 1])
  }

  /** Somebody else put the very same metadata there. */
  ghost predicate DonatedAt(k: Rename, xs: seq<System>, j: nat)
    requires j + 1 < |xs|
  {
    RivalsStep(k, xs[j], xs[j + 1]) && !HoldsMoved(k, xs[j]) && HoldsMoved(k, xs[j + 1])
  }

  /** The moved metadata was never at the destination. */
  ghost predicate NeverThere(k: Rename, xs: seq<System>, i: nat)
    requires i < |xs|
  {
    forall j :: 0 <= j <= i ==> !HoldsMoved(k, xs[j])
  }

  /** Whenever the create was applied, something else was there, and nobody else put the file there. */
  ghost predicate Blocked(k: Rename, xs: seq<System>, i: nat)
    requires i < |xs|
  {
    && !HoldsMoved(k, xs[0])
    && (forall j :: 0 <= j < i && CreatesAt(k, xs, j) ==> Occupied(k, xs[j]))
    && (forall j :: 0 <= j < i ==> !DonatedAt(k, xs, j))
  }

  /** What one step can do to the destination. */
  lemma ArrivesBy(k: Rename, x: System, y: System)
    requires Inv(k, x) && Next(k, x, y, true) && !HoldsMoved(k, x)
    ensures HoldsMoved(k, y) ==> RivalsStep(k, x, y) || (Creates(k, x, y) && !Occupied(k, x))
    ensures Creates(k, x, y) && !Occupied(k, x) ==> HoldsMoved(k, y)
  {
    hide OwnStep, RivalsStep, SourceOk, DestOk, ApplyMaster;
    if Creates(k, x, y) {
      AppliedThere(k, x, CreatingDest(k));
    } else if y.dst.state != x.dst.state && !RivalsStep(k, x, y) {
      OnlyApplies(k, x, y);
      if c :| c in x.dst.proposed && y == x.(dst := Applying(x.dst, c)) { AppliedThere(k, x, c); }
    }
  }

  lemma AppliedThere(k: Rename, x: System, c: MasterCommand)
    requires DestOk(k, x.dst, CommitYes in x.net) && c in x.dst.proposed && !HoldsMoved(k, x)
    ensures HoldsMoved(k, x.(dst := Applying(x.dst, c))) <==> c == CreatingDest(k) && !Occupied(k, x)
  {
    assert DestCommand(k, c);
  }

  lemma {:induction false} NeverThereIff(k: Rename, xs: seq<System>, i: nat)
    requires Runs(k, xs, true) && i < |xs|
    ensures NeverThere(k, xs, i) <==> Blocked(k, xs, i)
  {
    hide Next, Inv, Creates, RivalsStep, HoldsMoved, Occupied;
    if i > 0 {
      NeverThereIff(k, xs, i - 1);
      assert NeverThere(k, xs, i) <==> NeverThere(k, xs, i - 1) && !HoldsMoved(k, xs[i]);
      var last := Creates(k, xs[i - 1], xs[i]) ==> Occupied(k, xs[i - 1]);
      assert CreatesAt(k, xs, i - 1) <==> Creates(k, xs[i - 1], xs[i]);
      assert Blocked(k, xs, i) <==> Blocked(k, xs, i - 1) && last && !DonatedAt(k, xs, i - 1);
      if NeverThere(k, xs, i - 1) {
        RunInv(k, xs, true, i - 1);
        assert StepAt(k, xs, i, true);
        ArrivesBy(k, xs[i - 1], xs[i]);
      }
    }
  }

  lemma {:induction false} AppliedSometime(k: Rename, xs: seq<System>, i: nat) returns (j: nat)
    requires Runs(k, xs, true) && i < |xs| && CreatingDest(k) in xs[i].dst.applied
    ensures j < i && CreatesAt(k, xs, j)
  {
    hide Next, Creates;
    assert i > 0;
    assert StepAt(k, xs, i, true);
    if CreatingDest(k) in xs[i - 1].dst.applied {
      j := AppliedSometime(k, xs, i - 1);
    } else {
      j := i - 1;
      EntersApplied(k, xs[i - 1], xs[i]);
    }
  }

  lemma EntersApplied(k: Rename, x: System, y: System)
    requires Next(k, x, y, true) && CreatingDest(k) !in x.dst.applied && CreatingDest(k) in y.dst.applied
    ensures Creates(k, x, y)
  {
    hide ApplyMaster;
  }

  /** With rivals: whenever the source is gone, the create has been applied. The file is then nowhere, and
      never was at the destination, if and only if something else was there whenever the create was
      applied and nobody else put it there. */
  lemma LostIff(k: Rename, xs: seq<System>, i: nat)
    requires Runs(k, xs, true) && i < |xs| && k.source !in xs[i].src.state.files
    ensures exists j :: 0 <= j < i && CreatesAt(k, xs, j)
    ensures NeverThere(k, xs, i) <==> Blocked(k, xs, i)
  {
    hide Next, Creates, RivalsStep;
    RunInv(k, xs, true, i);
    var j := AppliedSometime(k, xs, i);
    NeverThereIff(k, xs, i);
  }

  // ---------------------------------------------------------------- runs that exist

  /** A run; with rivals, one in which the file has not been at the destination. */
  ghost predicate Trail(k: Rename, xs: seq<System>, rivals: bool) {
    Runs(k, xs, rivals) && (rivals ==> NeverThere(k, xs, |xs| - 1))
  }

  ghost function Last(xs: seq<System>): System requires |xs| > 0 { xs[|xs| - 1] }

  lemma Goes(k: Rename, xs: seq<System>, y: System, rivals: bool) returns (ys: seq<System>)
    requires Trail(k, xs, rivals) && Next(k, Last(xs), y, rivals) && (rivals ==> !HoldsMoved(k, y))
    ensures ys == xs + [y] && Trail(k, ys, rivals) && Last(ys) == y && ys[0] == xs[0]
  {
    hide Next, Start, HoldsMoved;
    ys := xs + [y];
    forall i | 0 < i < |ys| ensures StepAt(k, ys, i, rivals) {
      if i < |xs| { assert StepAt(k, xs, i, rivals); }
    }
  }

  lemma AppliesAt(k: Rename, xs: seq<System>, here: bool, c: MasterCommand, rivals: bool) returns (ys: seq<System>)
    requires Trail(k, xs, rivals)
    requires var x := Last(xs); c in (if here then x.src else x.dst).proposed
    requires rivals && !here ==> !HoldsMoved(k, Last(xs).(dst := Applying(Last(xs).dst, c)))
    ensures Trail(k, ys, rivals) && |ys| > 0 && ys[0] == xs[0]
    ensures var x := Last(xs);
            Last(ys) == if here then x.(src := Applying(x.src, c)) else x.(dst := Applying(x.dst, c))
  {
    hide ApplyMaster;
    var x := Last(xs);
    var y := if here then x.(src := Applying(x.src, c)) else x.(dst := Applying(x.dst, c));
    assert ApplyStep(x, y);
    ys := Goes(k, xs, y, rivals);
  }

  /** The coordinator records the rename and sends the first request. */
  lemma Records(k: Rename, x: System, rivals: bool) returns (xs: seq<System>)
    requires Start(k, x) && k.dest !in x.dst.state.files
    ensures Trail(k, xs, rivals) && xs[0] == x
    ensures Last(xs) == x.(src := Last(xs).src, phase := AwaitPrepare, net := {PrepareRequest})
    ensures Last(xs).src.state.files == x.src.state.files
    ensures var y := Last(xs).src.state; k.tx in y.records && y.records[k.tx] == k.CoordinatorRecord().(state := Prepared)
  {
    hide Next, ApplyStep, HoldsMoved;
    xs := [x];
    assert !HoldsMoved(k, x) by { Nothing(k, x); }
    var x1 := x.(phase := Recording, src := Proposing(x.src, {CreateTransactionRecord(k.CoordinatorRecord())}));
    Nothing(k, x1);
    xs := GoesOn(k, xs, x1, rivals);
    xs := AppliesAt(k, xs, true, CreateTransactionRecord(k.CoordinatorRecord()), rivals);
    var x3 := Last(xs).(phase := Preparing, src := Proposing(Last(xs).src, {UpdateTransactionState(k.tx, Prepared)}));
    Nothing(k, x3);
    xs := GoesOn(k, xs, x3, rivals);
    xs := AppliesAt(k, xs, true, UpdateTransactionState(k.tx, Prepared), rivals);
    var x5 := Last(xs).(phase := AwaitPrepare, net := Last(xs).net + {PrepareRequest});
    Nothing(k, x5);
    xs := GoesOn(k, xs, x5, rivals);
  }

  lemma Nothing(k: Rename, x: System)
    requires k.dest !in x.dst.state.files
    ensures !HoldsMoved(k, x)
  {
  }

  /** A step of the request handler. */
  lemma GoesOn(k: Rename, xs: seq<System>, y: System, rivals: bool) returns (ys: seq<System>)
    requires Trail(k, xs, rivals) && HandlerStep(k, Last(xs), y) && (rivals ==> !HoldsMoved(k, y))
    ensures ys == xs + [y] && Trail(k, ys, rivals) && Last(ys) == y && ys[0] == xs[0]
  {
    hide NeverThere, HandlerStep, HoldsMoved;
    assert OwnStep(k, Last(xs), y);
    ys := Goes(k, xs, y, rivals);
  }

  /** The participant prepares, and the coordinator asks it to commit. */
  lemma Prepares(k: Rename, xs: seq<System>, rivals: bool) returns (ys: seq<System>)
    requires Trail(k, xs, rivals)
    requires var x := Last(xs);
             && x.phase == AwaitPrepare && PrepareRequest in x.net
             && k.dest !in x.dst.state.files && k.tx !in x.dst.state.records
    ensures Trail(k, ys, rivals) && |ys| > 0 && ys[0] == xs[0]
    ensures var x, y := Last(xs), Last(ys);
            && y.phase == AwaitCommit && CommitRequest in y.net && y.src == x.src
            && y.dst.state == x.dst.state.(records := x.dst.state.records[k.tx := k.ParticipantRecord()])
  {
    hide Next, ApplyStep, HoldsMoved;
    var x := Last(xs);
    var c := CreateTransactionRecord(k.ParticipantRecord());
    var x1 := x.(dst := Proposing(x.dst, {c}));
    assert PrepareStep(k, x, x1);
    Nothing(k, x1);
    assert Next(k, x, x1, rivals) by { Own(k, x, x1, rivals); }
    ys := Goes(k, xs, x1, rivals);
    Nothing(k, x1.(dst := Applying(x1.dst, c)));
    ys := AppliesAt(k, ys, false, c, rivals);
    var x2 := Last(ys);
    var x3 := x2.(net := x2.net + {PrepareYes});
    assert PreparedStep(k, x2, x3);
    Nothing(k, x3);
    assert Next(k, x2, x3, rivals) by { Own(k, x2, x3, rivals); }
    ys := Goes(k, ys, x3, rivals);
    var x4 := x3.(phase := AwaitCommit, net := x3.net + {CommitRequest});
    Nothing(k, x4);
    ys := GoesOn(k, ys, x4, rivals);
  }

  lemma Own(k: Rename, x: System, y: System, rivals: bool)
    requires PrepareStep(k, x, y) || PreparedStep(k, x, y) || CommitStep(k, x, y) || CommittedStep(k, x, y, k.CreateOp())
    ensures Next(k, x, y, rivals)
  {
    hide PrepareStep, PreparedStep, CommitStep, CommittedStep, HandlerStep, RivalsStep;
  }

  /** Something else appears at the destination; the participant's create does nothing, and it reports success. */
  lemma Overtaken(k: Rename, rival: Rename, xs: seq<System>) returns (ys: seq<System>)
    requires Trail(k, xs, true) && rival.dest == k.dest && rival.tx != k.tx && !SameContent(rival.original, k.original)
    requires var x := Last(xs);
             && x.phase == AwaitCommit && CommitRequest in x.net && k.dest !in x.dst.state.files
             && k.tx in x.dst.state.records && x.dst.state.records[k.tx] == k.ParticipantRecord()
    ensures Trail(k, ys, true) && |ys| > 0 && ys[0] == xs[0]
    ensures var x, y := Last(xs), Last(ys);
            && y.phase == AwaitCommit && CommitYes in y.net && y.src == x.src
            && y.dst.state == ApplyMaster(x.dst.state, CreatingDest(rival))
            && k.dest in y.dst.state.files && Carries(rival, y.dst.state.files[k.dest])
  {
    hide NeverThere, Next, ApplyStep;
    var x := Last(xs);
    var st := ApplyMaster(x.dst.state, CreatingDest(rival));
    var x1 := x.(dst := x.dst.(state := st));
    assert RivalsStep(k, x, x1);
    assert Next(k, x, x1, true) by { Rivals(k, x, x1); }
    ys := Goes(k, xs, x1, true);
    var x2 := x1.(dst := Proposing(x1.dst, {CreatingDest(k)}));
    assert CommitStep(k, x1, x2);
    assert Next(k, x1, x2, true) by { Own(k, x1, x2, true); }
    ys := Goes(k, ys, x2, true);
    assert ApplyMaster(st, CreatingDest(k)) == st;
    ys := AppliesAt(k, ys, false, CreatingDest(k), true);
    var x3 := Last(ys);
    var x4 := x3.(dst := Proposing(x3.dst, {Committing(k)}), net := x3.net + {CommitYes});
    assert CommittedStep(k, x3, x4, k.CreateOp());
    assert Next(k, x3, x4, true) by { Own(k, x3, x4, true); }
    ys := Goes(k, ys, x4, true);
  }

  lemma Rivals(k: Rename, x: System, y: System)
    requires RivalsStep(k, x, y)
    ensures Next(k, x, y, true)
  {
    hide RivalsStep, OwnStep;
  }

  /** The coordinator deletes the source and reports success. */
  lemma Finishes(k: Rename, xs: seq<System>, rivals: bool) returns (ys: seq<System>)
    requires Trail(k, xs, rivals)
    requires var x := Last(xs); x.phase == AwaitCommit && CommitYes in x.net && (rivals ==> !HoldsMoved(k, x))
    ensures Trail(k, ys, rivals) && |ys| > 0 && ys[0] == xs[0]
    ensures var y := Last(ys); y.phase == Succeeded && k.source !in y.src.state.files && y.dst == Last(xs).dst
  {
    hide NeverThere, Next, ApplyStep;
    var x := Last(xs);
    var x1 := x.(phase := Deleting, src := Proposing(x.src, {DeletingSource(k)}));
    ys := GoesOn(k, xs, x1, rivals);
    ys := AppliesAt(k, ys, true, DeletingSource(k), rivals);
    var x2 := Last(ys);
    var x3 := x2.(phase := Labelling, src := Proposing(x2.src, {Committing(k)}));
    ys := GoesOn(k, ys, x3, rivals);
    var x4 := x3.(phase := Succeeded, src := Proposing(x3.src, {SetParticipantAcked(k.tx)}));
    ys := GoesOn(k, ys, x4, rivals);
  }

  /** The participant creates the destination and says so. */
  lemma Creating(k: Rename, xs: seq<System>) returns (ys: seq<System>)
    requires Trail(k, xs, false)
    requires var x := Last(xs);
             && CommitRequest in x.net && k.dest !in x.dst.state.files
             && k.tx in x.dst.state.records && x.dst.state.records[k.tx] == k.ParticipantRecord()
    ensures Trail(k, ys, false) && |ys| > 0 && ys[0] == xs[0]
    ensures var x, y := Last(xs), Last(ys);
            && y.phase == x.phase && CommitYes in y.net && y.src == x.src && y.recovering == x.recovering
            && y.dst.state.records == x.dst.state.records && Committing(k) in y.dst.proposed
  {
    hide Next, ApplyStep, HoldsMoved;
    var x := Last(xs);
    var x1 := x.(dst := Proposing(x.dst, {CreatingDest(k)}));
    assert CommitStep(k, x, x1);
    assert Next(k, x, x1, false) by { Own(k, x, x1, false); }
    ys := Goes(k, xs, x1, false);
    ys := AppliesAt(k, ys, false, CreatingDest(k), false);
    var x2 := Last(ys);
    var x3 := x2.(dst := Proposing(x2.dst, {Committing(k)}), net := x2.net + {CommitYes});
    assert CommittedStep(k, x2, x3, k.CreateOp());
    assert Next(k, x2, x3, false) by { Own(k, x2, x3, false); }
    ys := Goes(k, ys, x3, false);
  }

  /** Every rename to a free destination can succeed: the source is gone, and the destination
      has everything of it. */
  lemma RenameSucceeds(k: Rename, x: System) returns (xs: seq<System>)
    requires Start(k, x) && k.dest !in x.dst.state.files
    ensures Execution(k, xs) && xs[0] == x
    ensures var y := xs[|xs| - 1];
            && y.phase == Succeeded && k.source !in y.src.state.files
            && k.dest in y.dst.state.files && Carries(k, y.dst.state.files[k.dest])
  {
    hide Next, HoldsMoved, ApplyMaster;
    xs := Records(k, x, false);
    xs := Prepares(k, xs, false);
    xs := Creating(k, xs);
    xs := Finishes(k, xs, false);
    hide Runs;
    SuccessMeansCreated(k, xs, |xs| - 1, |xs| - 1);
  }

  /** Recovery asks the participant, which has committed, and finishes. */
  lemma Recovers(k: Rename, xs: seq<System>) returns (ys: seq<System>)
    requires Trail(k, xs, false)
    requires var x := Last(xs);
             && CommitYes in x.net && k.tx in x.src.state.records
             && x.src.state.records[k.tx] == k.CoordinatorRecord().(state := Prepared)
    ensures Trail(k, ys, false) && |ys| > 0 && ys[0] == xs[0]
    ensures var x, y := Last(xs), Last(ys);
            && y.phase == x.phase && y.dst == x.dst && k.source !in y.src.state.files && k.tx in y.src.state.records
            && y.src.state.records[k.tx].state == Committed && y.src.state.records[k.tx].participantAcked
  {
    hide Next, ApplyStep, HoldsMoved;
    var x := Last(xs);
    var r := x.src.state.records[k.tx];
    var x1 := x.(net := x.net + {CommitRequest}, recovering := Some(r));
    assert Next(k, x, x1, false) by { AsksNext(k, x, x1); }
    ys := Goes(k, xs, x1, false);
    var cs := {DeletingSource(k), Committing(k), SetParticipantAcked(k.tx)};
    var x2 := x1.(src := Proposing(x1.src, cs));
    assert Next(k, x1, x2, false) by { FinishesNext(k, x1, x2, r, cs); }
    ys := Goes(k, ys, x2, false);
    ys := AppliesAt(k, ys, true, DeletingSource(k), false);
    ys := AppliesAt(k, ys, true, Committing(k), false);
    ys := AppliesAt(k, ys, true, SetParticipantAcked(k.tx), false);
  }

  lemma AsksNext(k: Rename, x: System, y: System)
    requires RecoveryAsks(k, x, y)
    ensures Next(k, x, y, false)
  {
    hide RecoveryAsks, HandlerStep, PrepareStep, CommitStep, ApplyStep;
  }

  lemma FinishesNext(k: Rename, x: System, y: System, r: TransactionRecord, cs: set<MasterCommand>)
    requires CommitYes in x.net && x.recovering == Some(r) && r == k.CoordinatorRecord().(state := Prepared)
    requires cs == {DeletingSource(k), Committing(k), SetParticipantAcked(k.tx)} && y == x.(src := Proposing(x.src, cs))
    ensures Next(k, x, y, false)
  {
    hide HandlerStep, PrepareStep, CommitStep, ApplyStep, ParticipantCleanup;
    assert r.operations[0].op.Delete? && ApplyTransactionOperation(k.tx, r.operations[0]) == DeletingSource(k);
    assert RecoveryFinishes(k, x, y);
  }

  /** Both shards forget the transaction. */
  lemma Forgets(k: Rename, xs: seq<System>) returns (ys: seq<System>)
    requires Trail(k, xs, false)
    requires var x := Last(xs);
             && k.tx in x.src.state.records && x.src.state.records[k.tx].state == Committed && x.src.state.records[k.tx].participantAcked
             && k.tx in x.dst.state.records && Committing(k) in x.dst.proposed
    ensures Trail(k, ys, false) && |ys| > 0 && ys[0] == xs[0]
    ensures var x, y := Last(xs), Last(ys);
            && y.phase == x.phase && y.src.state.files == x.src.state.files
            && k.tx !in y.src.state.records && k.tx !in y.dst.state.records
  {
    hide Next, ApplyStep, HoldsMoved;
    var gone := DeleteTransactionRecord(k.tx);
    ys := AppliesAt(k, xs, false, Committing(k), false);
    var x := Last(ys);
    var x1 := x.(dst := Proposing(x.dst, {gone}));
    assert Next(k, x, x1, false) by { CleansNext(k, x, x1); }
    ys := Goes(k, ys, x1, false);
    ys := AppliesAt(k, ys, false, gone, false);
    var x2 := Last(ys);
    var x3 := x2.(src := Proposing(x2.src, {gone}));
    assert Next(k, x2, x3, false) by { CleansNext(k, x2, x3); }
    ys := Goes(k, ys, x3, false);
    ys := AppliesAt(k, ys, true, gone, false);
  }

  lemma CleansNext(k: Rename, x: System, y: System)
    requires ParticipantCleanup(k, x, y) || CoordinatorCleanup(k, x, y)
    ensures Next(k, x, y, false)
  {
    hide ParticipantCleanup, CoordinatorCleanup, HandlerStep, PrepareStep, CommitStep, ApplyStep;
  }

  /** A rename whose handler stops while it waits for the participant can be finished by recovery:
      the file has moved, and both shards forget the transaction. */
  lemma RecoverySucceeds(k: Rename, x: System) returns (xs: seq<System>)
    requires Start(k, x) && k.dest !in x.dst.state.files
    ensures Execution(k, xs) && xs[0] == x
    ensures var y := xs[|xs| - 1];
            && y.phase == Failed && k.source !in y.src.state.files
            && k.dest in y.dst.state.files && Carries(k, y.dst.state.files[k.dest])
            && k.tx !in y.src.state.records && k.tx !in y.dst.state.records
  {
    hide Next, HoldsMoved, ApplyMaster;
    xs := Records(k, x, false);
    xs := Prepares(k, xs, false);
    var y := Last(xs).(phase := Failed);
    assert Next(k, Last(xs), y, false) by { StopsNext(k, Last(xs), y); }
    xs := Goes(k, xs, y, false);
    xs := Creating(k, xs);
    xs := Recovers(k, xs);
    xs := Forgets(k, xs);
    hide Runs;
    NothingLost(k, xs, |xs| - 1);
  }

  lemma StopsNext(k: Rename, x: System, y: System)
    requires HandlerStops(x, y)
    ensures Next(k, x, y, false)
  {
    hide HandlerStep, PrepareStep, CommitStep, ApplyStep;
  }

  // ---------------------------------------------------------------- two renames to one place

  /** A prepared record does not reserve the path: when another rename creates its file at the same
      destination between prepare and commit, the first one still reports success, its source is
      gone, and its file never was at the destination. This can happen from every start. */
  lemma RacingRenames(k: Rename, rival: Rename, x: System) returns (xs: seq<System>)
    requires Start(k, x) && k.dest !in x.dst.state.files
    requires rival.dest == k.dest && rival.tx != k.tx && !SameContent(rival.original, k.original)
    ensures Runs(k, xs, true) && xs[0] == x
    ensures var i := |xs| - 1;
            && xs[i].phase == Succeeded
            && k.source !in xs[i].src.state.files
            && NeverThere(k, xs, i)
            && k.dest in xs[i].dst.state.files && Carries(rival, xs[i].dst.state.files[k.dest])
  {
    hide Next, HoldsMoved, ApplyMaster;
    xs := Records(k, x, true);
    xs := Prepares(k, xs, true);
    xs := Overtaken(k, rival, xs);
    assert !HoldsMoved(k, Last(xs)) by { Other(k, rival, Last(xs)); }
    xs := Finishes(k, xs, true);
  }

  lemma Other(k: Rename, rival: Rename, x: System)
    requires k.dest in x.dst.state.files && Carries(rival, x.dst.state.files[k.dest]) && !SameContent(rival.original, k.original)
    ensures !HoldsMoved(k, x)
  {
  }
}
