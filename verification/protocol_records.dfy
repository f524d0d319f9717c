/** How one committed store call changes the record it is about, on a valid store. */
module ProtocolRecords {
  import opened TaskContracts
  import opened StoreState
  import opened StoreTransactions
  import opened StoreInvariant
  import opened StorePreservation
  import opened TaskProtocol

  /** The change an operation makes to an existing record. */
  ghost predicate RecordStep(cfg: Config, op: Op, r: Record, r': Record) {
    match op
    case CountAuditOp(_, now) => r' == r.(auditEvents := r.auditEvents + 1, updatedAt := now)
    case SetAttemptsOp(_, w, k, now) => r.holder == Some(w) && r' == r.(attempts := k, updatedAt := now)
    case RejectOp(_, reason, detail, _, now) => !Terminal(r.status) && r' == RejectedRecord(r, reason, detail, now)
    case ClaimOp(_, w, now) => r.status.Queued? && r' == Claimed(cfg, r, w, now)
    case HeartbeatOp(_, w, now) =>
      r.status.Running? && r.holder == Some(w) && r' == r.(leaseExpires := Some(now + cfg.leaseMicros), updatedAt := now)
    case RecoverOp(_, _, _, now) => r.status.Running? && r' == Recovered(r, now)
    case FinishOp(_, w, st, result, code, message, _, now) =>
      r.status.Running? && r.holder == Some(w) && (st.Succeeded? || st.Failed?)
      && r' == Finished(r, st, result, code, message, now)
    case _ => false
  }

  /** The task an operation addresses; a claim addresses the head of its queue. */
  ghost predicate Addresses(op: Op, db: Db, id: TaskId) {
    match op
    case ClaimOp(p, _, _) => id in db.queues.At(p) && id == Head(db.queues.At(p))
    case AcknowledgeOp(_) => false
    case BumpOp(_) => false
    case _ => id == op.id
  }

  /** A committed call creates its record, purges a terminal one, makes one
      `RecordStep`, or leaves every record alone. */
  ghost predicate RecordEffect(cfg: Config, op: Op, db: Db, b: Block, reply: Reply) {
    if op.CreateOp? then
      var r := NewRecord(op.sub, op.who, op.trace, op.id, op.now);
      b.id == op.id && b.record == SetRecord(r) && reply == Updated(r)
    else if op.PurgeOp? then
      b.id == op.id && op.id in db.records && Terminal(db.records[op.id].status) && b.record.DeleteRecord?
    else if op.DropTerminalOp? || op.DropStagingOp? || op.ActivateOp? || op.AcknowledgeOp? || op.BumpOp? then
      b.record.KeepRecord? && !reply.Updated? && !reply.Again?
    else
      && b.id in db.records && Addresses(op, db, b.id) && b.record.SetRecord?
      && RecordStep(cfg, op, db.records[b.id], b.record.record)
      && (op.CountAuditOp? || op.SetAttemptsOp? || op.ClaimOp? ==> reply == Updated(b.record.record))
      && !reply.Again?
  }

  lemma CommitRecordEffect(cfg: Config, op: Op, db: Db, t: Option<nat>, b: Block, reply: Reply)
    requires Valid(cfg, db) && Admissible(op, db) && Atomic(cfg, op, db, t) == Exec(b, reply)
    ensures RecordEffect(cfg, op, db, b, reply)
  {
    hide RecordEffect, Valid, Admissible, Atomic;
    match op
    case RejectOp(_, _, _, _, _) => QueueRecordEffect(cfg, op, db, t, b, reply);
    case ClaimOp(_, _, _) => QueueRecordEffect(cfg, op, db, t, b, reply);
    case RecoverOp(_, _, _, _) => QueueRecordEffect(cfg, op, db, t, b, reply);
    case CountAuditOp(_, _) => WorkerRecordEffect(cfg, op, db, t, b, reply);
    case SetAttemptsOp(_, _, _, _) => WorkerRecordEffect(cfg, op, db, t, b, reply);
    case HeartbeatOp(_, _, _) => WorkerRecordEffect(cfg, op, db, t, b, reply);
    case FinishOp(_, _, _, _, _, _, _, _) => WorkerRecordEffect(cfg, op, db, t, b, reply);
    case _ => OtherRecordEffect(cfg, op, db, t, b, reply);
  }

  lemma QueueRecordEffect(cfg: Config, op: Op, db: Db, t: Option<nat>, b: Block, reply: Reply)
    requires op.RejectOp? || op.ClaimOp? || op.RecoverOp?
    requires Valid(cfg, db) && Admissible(op, db) && Atomic(cfg, op, db, t) == Exec(b, reply)
    ensures RecordEffect(cfg, op, db, b, reply)
  {
    match op
    case RejectOp(_, _, _, _, _) => RejectCommit(cfg, op, db, t, b, reply);
    case ClaimOp(_, _, _) => ClaimCommit(cfg, op, db, t, b, reply);
    case RecoverOp(_, _, _, _) => RecoverCommit(cfg, op, db, t, b, reply);
  }

  lemma OtherRecordEffect(cfg: Config, op: Op, db: Db, t: Option<nat>, b: Block, reply: Reply)
    requires op.CreateOp? || op.PurgeOp? || op.ActivateOp? || op.DropTerminalOp? || op.DropStagingOp? || op.AcknowledgeOp? || op.BumpOp?
    requires Valid(cfg, db) && Admissible(op, db) && Atomic(cfg, op, db, t) == Exec(b, reply)
    ensures RecordEffect(cfg, op, db, b, reply)
  {
    match op
    case CreateOp(_, _, _, _, _) => CreateShape(cfg, op, db, t, b, reply);
    case PurgeOp(_) => PurgeCommit(cfg, op, db, t, b, reply);
    case ActivateOp(_, _, _) => ActivateShape(cfg, op, db, t, b, reply);
    case _ =>
  }

  lemma WorkerRecordEffect(cfg: Config, op: Op, db: Db, t: Option<nat>, b: Block, reply: Reply)
    requires op.CountAuditOp? || op.SetAttemptsOp? || op.HeartbeatOp? || op.FinishOp?
    requires Valid(cfg, db) && Atomic(cfg, op, db, t) == Exec(b, reply)
    ensures RecordEffect(cfg, op, db, b, reply)
  {
    match op
    case HeartbeatOp(_, _, _) => HeartbeatShape(cfg, op, db, t, b, reply);
    case FinishOp(_, _, _, _, _, _, _, _) => FinishShape(cfg, op, db, t, b, reply);
    case _ => UpdateShape(cfg, op, db, t, b, reply);
  }

  /** How a committed call changes the queue and the outbox of its pool. */
  ghost predicate QueueEffect(op: Op, db: Db, t: Option<nat>, b: Block) {
    && (b.queue.Add? <==> b.outbox.AddMember?)
    && (b.queue.Add? ==> Enqueues(op, db, t, b))
    && (b.queue.Remove? ==> (op.ClaimOp? && b.pool == op.pool) || op.RejectOp?)
    && (b.outbox.RemoveMember? ==> op == AcknowledgeOp(b.outbox.removed))
    && (op.ClaimOp? ==> b.queue.Remove? && b.pool == op.pool && b.id in db.queues.At(b.pool))
    && (b.staging.Add? ==> op.CreateOp? && b.id == op.id)
  }

  /** The task enters the queue with a drawn number, from staging or from its
      lease, and leaves an outbox member of its own generation. */
  ghost predicate Enqueues(op: Op, db: Db, t: Option<nat>, b: Block) {
    && (op.ActivateOp? || op.RecoverOp?) && t.Some? && b.id == op.id && b.id in db.records && b.outbox.AddMember?
    && var r := db.records[b.id];
       && b.pool == r.pool && b.queue == Add(Score(r.priority, t.value)) && b.outbox.added.id == b.id
       && b.outbox.added.pool == r.pool
       && (if op.ActivateOp? then
             b.id in db.staging && b.staging.Remove? && b.lease.Keep? && b.record.KeepRecord?
             && b.outbox.added.generation == r.recoveredCount
           else
             r.status.Running? && b.id !in db.staging && b.staging.Keep? && b.lease.Remove? && b.record.SetRecord?
             && b.record.record.recoveredCount == b.outbox.added.generation == r.recoveredCount + 1)
  }

  lemma ActivationEnqueues(cfg: Config, op: Op, db: Db, t: Option<nat>, b: Block, reply: Reply)
    requires op.ActivateOp? && Valid(cfg, db) && Atomic(cfg, op, db, t) == Exec(b, reply)
    ensures QueueEffect(op, db, t, b)
  {
    ActivateCommit(cfg, op, db, t, b, reply);
    ActivateShape(cfg, op, db, t, b, reply);
  }

  lemma RecoveryEnqueues(cfg: Config, op: Op, db: Db, t: Option<nat>, b: Block, reply: Reply)
    requires op.RecoverOp? && Valid(cfg, db) && Atomic(cfg, op, db, t) == Exec(b, reply)
    ensures QueueEffect(op, db, t, b)
  {
    RecoverCommit(cfg, op, db, t, b, reply);
    assert IdOk(db, op.id);
  }

  lemma CommitQueueEffect(cfg: Config, op: Op, db: Db, t: Option<nat>, b: Block, reply: Reply)
    requires Valid(cfg, db) && Admissible(op, db) && Atomic(cfg, op, db, t) == Exec(b, reply)
    ensures QueueEffect(op, db, t, b)
  {
    match op
    case CreateOp(_, _, _, _, _) => CreateShape(cfg, op, db, t, b, reply);
    case PurgeOp(_) => PurgeCommit(cfg, op, db, t, b, reply);
    case CountAuditOp(_, _) => UpdateShape(cfg, op, db, t, b, reply);
    case SetAttemptsOp(_, _, _, _) => UpdateShape(cfg, op, db, t, b, reply);
    case ActivateOp(_, _, _) => ActivationEnqueues(cfg, op, db, t, b, reply);
    case RejectOp(_, _, _, _, _) => RejectCommit(cfg, op, db, t, b, reply);
    case ClaimOp(_, _, _) => ClaimCommit(cfg, op, db, t, b, reply);
    case HeartbeatOp(_, _, _) => HeartbeatShape(cfg, op, db, t, b, reply);
    case RecoverOp(_, _, _, _) => RecoveryEnqueues(cfg, op, db, t, b, reply);
    case FinishOp(_, _, _, _, _, _, _, _) => FinishShape(cfg, op, db, t, b, reply);
    case _ =>
  }

  /** r' is a later value of the record r.  A terminal record only gains audit counts. */
  ghost predicate Later(r: Record, r': Record) {
    && SameIdentity(r, r') && r.auditEvents <= r'.auditEvents && r.attempts <= r'.attempts
    && r.deliveryCount <= r'.deliveryCount && r.recoveredCount <= r'.recoveredCount
    && (Terminal(r.status) ==> r' == r.(auditEvents := r'.auditEvents, updatedAt := r'.updatedAt))
  }

  lemma LaterTransitive(a: Record, b: Record, c: Record)
    requires Later(a, b) && Later(b, c)
    ensures Later(a, c)
  {
  }

  lemma StepIsLater(cfg: Config, op: Op, r: Record, r': Record)
    requires FieldsOk(r) && RecordStep(cfg, op, r, r')
    requires op.SetAttemptsOp? ==> op.attempts == r.attempts + 1
    ensures Later(r, r') && FieldsOk(r')
  {
  }
}
