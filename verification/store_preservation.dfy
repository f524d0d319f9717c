/** Every committed block keeps the store invariant; the branches that repair a
    broken index never commit. */
module StorePreservation {
  import opened TaskContracts
  import opened StoreState
  import opened StoreTransactions
  import opened StoreInvariant

  ghost predicate IdemMatchesRecord(db: Db, b: Block) {
    match b.record
    case KeepRecord => b.idem.KeepIdem?
    case SetRecord(r) =>
      r.id == b.id
      && (if b.id in db.records then b.idem.KeepIdem? && ScopeOf(r) == ScopeOf(db.records[b.id])
          else match ScopeOf(r) case Some(s) => b.idem == Bind(s) && s !in db.idem case None => b.idem.KeepIdem?)
    case DeleteRecord =>
      b.id in db.records
      && match ScopeOf(db.records[b.id]) case Some(s) => b.idem == Unbind(s) case None => b.idem.KeepIdem?
  }

  lemma IdemKept(db: Db, b: Block)
    requires IndexesOk(db) && IdemOk(db) && IdemMatchesRecord(db, b)
    ensures IdemOk(Apply(db, b)) && IdemLocal(db, b)
  {
    assert IdOk(db, b.id);
    var db' := Apply(db, b);
    forall s | s in db'.idem
      ensures db'.idem[s] in db'.records && ScopeOf(db'.records[db'.idem[s]]) == Some(s)
    {
      if s in db.idem {
        var id := db.idem[s];
        assert ScopeOf(db.records[id]) == Some(s);
        assert IdOk(db, id);
      }
    }
  }

  /** A task enters a pool only where the code checked for room. */
  ghost predicate RoomChecked(cfg: Config, db: Db, b: Block) {
    var queue, lease := db.queues.At(b.pool), db.leases.At(b.pool);
    && (b.queue.Add? ==> (b.lease.Remove? && b.id in lease) || (b.lease.Keep? && |queue| + |lease| < cfg.Room(b.pool)))
    && (b.lease.Add? ==> (b.queue.Remove? && b.id in queue) || (b.queue.Keep? && b.id in lease))
  }

  ghost predicate CountChecked(cfg: Config, db: Db, b: Block) {
    match b.record
    case KeepRecord => b.index.Keep?
    case SetRecord(_) => (b.id in db.records && b.index.Keep?)
                         || (b.id !in db.records && b.index.Add? && |db.index| < cfg.maxRecords)
    case DeleteRecord => b.id in db.records && b.index.Remove?
  }

  lemma WritePoolAt(z: PerPool<ZSet>, p: Pool, id: TaskId, w: ZWrite, q: Pool)
    ensures WritePool(z, p, id, w).At(q) == if q == p then WriteZ(z.At(p), id, w) else z.At(q)
  {
  }

  lemma RoomKept(queue: ZSet, lease: ZSet, id: TaskId, toQueue: ZWrite, toLease: ZWrite, room: nat)
    requires |queue| + |lease| <= room
    requires toQueue.Add? ==> (toLease.Remove? && id in lease) || (toLease.Keep? && |queue| + |lease| < room)
    requires toLease.Add? ==> (toQueue.Remove? && id in queue) || (toQueue.Keep? && id in lease)
    ensures |WriteZ(queue, id, toQueue)| + |WriteZ(lease, id, toLease)| <= room
  {
    WriteSize(queue, id, toQueue);
    WriteSize(lease, id, toLease);
  }

  lemma PoolRoomKept(cfg: Config, db: Db, b: Block, p: Pool)
    requires |db.queues.At(p)| + |db.leases.At(p)| <= cfg.Room(p)
    requires RoomChecked(cfg, db, b)
    ensures |WritePool(db.queues, b.pool, b.id, b.queue).At(p)| + |WritePool(db.leases, b.pool, b.id, b.lease).At(p)|
              <= cfg.Room(p)
  {
    WritePoolAt(db.queues, b.pool, b.id, b.queue, p);
    WritePoolAt(db.leases, b.pool, b.id, b.lease, p);
    if p == b.pool {
      RoomKept(db.queues.At(p), db.leases.At(p), b.id, b.queue, b.lease, cfg.Room(p));
    }
  }

  lemma BoundsKept(cfg: Config, db: Db, b: Block)
    requires BoundsOk(cfg, db) && RoomChecked(cfg, db, b) && CountChecked(cfg, db, b)
    requires b.id in db.index <==> b.id in db.records
    ensures BoundsOk(cfg, Apply(db, b))
  {
    WriteSize(db.index, b.id, b.index);
    RecordsSize(db.records, b.id, b.record);
    forall p: Pool ensures |Apply(db, b).queues.At(p)| + |Apply(db, b).leases.At(p)| <= cfg.Room(p) {
      PoolRoomKept(cfg, db, b, p);
    }
  }

  lemma PoolsKept(z: PerPool<ZSet>, p: Pool, id: TaskId)
    ensures WritePool(z, p, id, Keep) == z
  {
  }

  /** Outbox acknowledgements and bare counters write nothing else. */
  lemma UnrelatedWrites(db: Db, b: Block)
    requires b == NoWrites(b.id, b.pool).(outbox := b.outbox, counters := b.counters)
    ensures Apply(db, b) == db.(outbox := WriteOutbox(db.outbox, b.outbox), counters := db.counters.Plus(b.counters))
  {
    PoolsKept(db.queues, b.pool, b.id);
    PoolsKept(db.leases, b.pool, b.id);
    PoolsKept(db.deadPools, b.pool, b.id);
  }

  /** Removing a task from staging or the terminal index where it is not changes nothing. */
  lemma AbsentRemovals(db: Db, b: Block)
    requires b == NoWrites(b.id, b.pool).(staging := b.staging, terminal := b.terminal)
    requires b.staging.Keep? || (b.staging.Remove? && b.id !in db.staging)
    requires b.terminal.Keep? || (b.terminal.Remove? && b.id !in db.terminal)
    ensures Apply(db, b) == db
  {
    PoolsKept(db.queues, b.pool, b.id);
    PoolsKept(db.leases, b.pool, b.id);
    PoolsKept(db.deadPools, b.pool, b.id);
    assert WriteZ(db.staging, b.id, b.staging) == db.staging;
    assert WriteZ(db.terminal, b.id, b.terminal) == db.terminal;
  }

  lemma OutboxIrrelevant(cfg: Config, db: Db, outbox: map<Member, int>, counters: Counters)
    requires Valid(cfg, db)
    ensures Valid(cfg, db.(outbox := outbox, counters := counters))
  {
    var db' := db.(outbox := outbox, counters := counters);
    forall id: TaskId ensures IdOk(db', id) {
      assert IdOk(db, id);
      if id in db.records { assert Placed(db', id, db.records[id]) <==> Placed(db, id, db.records[id]); }
    }
  }

  lemma BlockKeepsValid(cfg: Config, db: Db, b: Block)
    requires Valid(cfg, db)
    requires IdOk(Apply(db, b), b.id) && IdemMatchesRecord(db, b) && RoomChecked(cfg, db, b) && CountChecked(cfg, db, b)
    ensures Valid(cfg, Apply(db, b))
  {
    assert IdOk(db, b.id);
    IdemKept(db, b);
    BlockKeepsIndexes(db, b);
    BoundsKept(cfg, db, b);
  }

  // ----- What each operation commits on a valid database -----

  /** The record an operation is about, as the database holds it. */
  ghost predicate Commits(cfg: Config, op: Op, db: Db, ticket: Option<nat>, b: Block, reply: Reply) {
    Atomic(cfg, op, db, ticket) == Exec(b, reply)
  }

  lemma CreateShape(cfg: Config, op: Op, db: Db, t: Option<nat>, b: Block, reply: Reply)
    requires op.CreateOp? && Commits(cfg, op, db, t, b, reply)
    ensures var r := NewRecord(op.sub, op.who, op.trace, op.id, op.now);
            b == CreateBlock(r) && reply == Updated(r) && (ScopeOf(r).Some? ==> ScopeOf(r).value !in db.idem)
            && |db.index| < cfg.maxRecords
  {
  }

  lemma CreateCommit(cfg: Config, op: Op, db: Db, t: Option<nat>, b: Block, reply: Reply)
    requires op.CreateOp? && Valid(cfg, db) && Admissible(op, db) && Commits(cfg, op, db, t, b, reply)
    ensures Valid(cfg, Apply(db, b))
  {
    CreateShape(cfg, op, db, t, b, reply);
    var r := NewRecord(op.sub, op.who, op.trace, op.id, op.now);
    assert IdOk(db, op.id);
    CreatePlaces(db, r);
    BlockKeepsValid(cfg, db, b);
  }

  /** A purge only ever deletes a terminal record; it never repairs the terminal index. */
  lemma PurgeCommit(cfg: Config, op: Op, db: Db, t: Option<nat>, b: Block, reply: Reply)
    requires op.PurgeOp? && Valid(cfg, db) && Admissible(op, db) && Commits(cfg, op, db, t, b, reply)
    ensures op.id in db.records && Terminal(db.records[op.id].status) && b == PurgeBlock(op.id, db.records[op.id])
    ensures Valid(cfg, Apply(db, b))
  {
    assert IdOk(db, op.id);
    PurgePlaces(db, op.id);
    BlockKeepsValid(cfg, db, b);
  }

  /** Dropping a stale index entry after a failed lookup changes nothing. */
  lemma DropCommit(cfg: Config, op: Op, db: Db, t: Option<nat>, b: Block, reply: Reply)
    requires op.DropTerminalOp? || op.DropStagingOp?
    requires Valid(cfg, db) && Admissible(op, db) && Commits(cfg, op, db, t, b, reply)
    ensures Apply(db, b) == db
  {
    assert IdOk(db, op.id);
    AbsentRemovals(db, b);
  }

  function UpdatedRecord(op: Op, r: Record): Record
    requires op.CountAuditOp? || op.SetAttemptsOp?
  {
    if op.CountAuditOp? then r.(auditEvents := r.auditEvents + 1, updatedAt := op.now)
    else r.(attempts := op.attempts, updatedAt := op.now)
  }

  lemma UpdateShape(cfg: Config, op: Op, db: Db, t: Option<nat>, b: Block, reply: Reply)
    requires op.CountAuditOp? || op.SetAttemptsOp?
    requires Commits(cfg, op, db, t, b, reply)
    ensures op.id in db.records
    ensures var r := db.records[op.id];
            b == NoWrites(op.id, r.pool).(record := SetRecord(UpdatedRecord(op, r)))
            && reply == Updated(UpdatedRecord(op, r)) && (op.SetAttemptsOp? ==> r.holder == Some(op.worker))
  {
  }

  lemma UpdateCommit(cfg: Config, op: Op, db: Db, t: Option<nat>, b: Block, reply: Reply)
    requires op.CountAuditOp? || op.SetAttemptsOp?
    requires Valid(cfg, db) && Commits(cfg, op, db, t, b, reply)
    ensures Valid(cfg, Apply(db, b))
  {
    UpdateShape(cfg, op, db, t, b, reply);
    assert IdOk(db, op.id);
    RewritePlaces(db, op.id, UpdatedRecord(op, db.records[op.id]), Keep);
    BlockKeepsValid(cfg, db, b);
  }

  lemma ActivateShape(cfg: Config, op: Op, db: Db, t: Option<nat>, b: Block, reply: Reply)
    requires op.ActivateOp? && Commits(cfg, op, db, t, b, reply)
    ensures op.id in db.records && db.records[op.id].status.Queued? && db.records[op.id].pool == op.pool
    ensures var r := db.records[op.id];
            var queue, lease := db.queues.At(op.pool), db.leases.At(op.pool);
            reply == Unchanged(r)
            && if op.id in queue || op.id in lease then b == NoWrites(op.id, r.pool).(staging := Remove)
               else t.Some? && b == ActivateBlock(op.id, r, t.value, op.now) && |queue| + |lease| < cfg.Room(op.pool)
  {
  }

  /** Activating a task that is already queued changes nothing; otherwise it
      leaves staging.  A queued task never holds a lease. */
  lemma ActivateCommit(cfg: Config, op: Op, db: Db, t: Option<nat>, b: Block, reply: Reply)
    requires op.ActivateOp? && Valid(cfg, db) && Commits(cfg, op, db, t, b, reply)
    ensures op.id in db.records && op.id !in db.leases.At(op.pool)
    ensures if op.id in db.queues.At(op.pool) then Apply(db, b) == db && b.queue.Keep? && b.outbox.KeepOutbox?
            else op.id in db.staging && t.Some? && b == ActivateBlock(op.id, db.records[op.id], t.value, op.now)
    ensures Valid(cfg, Apply(db, b))
  {
    ActivateShape(cfg, op, db, t, b, reply);
    assert IdOk(db, op.id);
    var r := db.records[op.id];
    if op.id in db.queues.At(op.pool) {
      AbsentRemovals(db, b);
    } else {
      ActivatePlaces(db, op.id, t.value, op.now);
      BlockKeepsValid(cfg, db, b);
    }
  }

  lemma RejectCommit(cfg: Config, op: Op, db: Db, t: Option<nat>, b: Block, reply: Reply)
    requires op.RejectOp? && Valid(cfg, db) && Commits(cfg, op, db, t, b, reply)
    ensures op.id in db.records && !Terminal(db.records[op.id].status)
    ensures var u := RejectedRecord(db.records[op.id], op.reason, op.detail, op.now);
            b == RejectBlock(op.id, u, op.auditFailed, op.now) && reply == Updated(u)
    ensures Valid(cfg, Apply(db, b))
  {
    assert IdOk(db, op.id);
    RejectPlaces(db, op.id, op.reason, op.detail, op.auditFailed, op.now);
    BlockKeepsValid(cfg, db, b);
  }

  lemma ClaimShape(cfg: Config, op: Op, db: Db, t: Option<nat>, b: Block, reply: Reply)
    requires op.ClaimOp? && Commits(cfg, op, db, t, b, reply)
    ensures db.queues.At(op.pool) != map[]
    ensures var id := Head(db.queues.At(op.pool));
            id in db.records
            && if !db.records[id].status.Queued? then b == NoWrites(id, op.pool).(queue := Remove) && reply == Again
               else var u := Claimed(cfg, db.records[id], op.worker, op.now);
                    b == ClaimBlock(cfg, op.pool, id, u, op.now) && reply == Updated(u)
  {
  }

  lemma InQueueFacts(db: Db, id: TaskId, p: Pool)
    requires IdOk(db, id) && id in db.queues.At(p)
    ensures id in db.records && db.records[id].status.Queued? && db.records[id].pool == p
  {
  }

  lemma InLeaseFacts(db: Db, id: TaskId, p: Pool)
    requires IdOk(db, id) && id in db.leases.At(p)
    ensures id in db.records && db.records[id].status.Running? && db.records[id].pool == p
    ensures db.records[id].leaseExpires.Some? && db.leases.At(p)[id] == Millis(db.records[id].leaseExpires.value)
  {
  }

  /** On a valid database a claim takes the head of the queue; the branch that
      drops a non-queued head does not commit and the head is never missing. */
  lemma ClaimCommit(cfg: Config, op: Op, db: Db, t: Option<nat>, b: Block, reply: Reply)
    requires op.ClaimOp? && Valid(cfg, db) && Commits(cfg, op, db, t, b, reply)
    ensures db.queues.At(op.pool) != map[]
    ensures var id := Head(db.queues.At(op.pool));
            id in db.records && db.records[id].status.Queued? && db.records[id].pool == op.pool
            && var u := Claimed(cfg, db.records[id], op.worker, op.now);
               b == ClaimBlock(cfg, op.pool, id, u, op.now) && reply == Updated(u)
    ensures Valid(cfg, Apply(db, b))
  {
    ClaimShape(cfg, op, db, t, b, reply);
    var id := Head(db.queues.At(op.pool));
    assert IdOk(db, id);
    InQueueFacts(db, id, op.pool);
    ClaimPlaces(cfg, db, id, op.worker, op.now);
    BlockKeepsValid(cfg, db, b);
  }

  lemma ClaimAnswer(cfg: Config, op: Op, db: Db, t: Option<nat>)
    requires op.ClaimOp? && Valid(cfg, db)
    ensures var d := Atomic(cfg, op, db, t); d.Give? ==> d.answer == NoTask && db.queues.At(op.pool) == map[]
  {
    if db.queues.At(op.pool) != map[] {
      assert IdOk(db, Head(db.queues.At(op.pool)));
    }
  }

  lemma HeartbeatShape(cfg: Config, op: Op, db: Db, t: Option<nat>, b: Block, reply: Reply)
    requires op.HeartbeatOp? && Commits(cfg, op, db, t, b, reply)
    ensures op.id in db.records && db.records[op.id].status.Running? && db.records[op.id].holder == Some(op.worker)
    ensures var r := db.records[op.id];
            var expires := op.now + cfg.leaseMicros;
            b == NoWrites(op.id, r.pool).(record := SetRecord(r.(leaseExpires := Some(expires), updatedAt := op.now)),
                                          lease := Add(Millis(expires)))
  {
  }

  lemma HeartbeatCommit(cfg: Config, op: Op, db: Db, t: Option<nat>, b: Block, reply: Reply)
    requires op.HeartbeatOp? && Valid(cfg, db) && Commits(cfg, op, db, t, b, reply)
    ensures Valid(cfg, Apply(db, b))
  {
    HeartbeatShape(cfg, op, db, t, b, reply);
    ExtensionKeepsValid(cfg, db, op.id, op.now + cfg.leaseMicros, op.now);
  }

  lemma ExtensionKeepsValid(cfg: Config, db: Db, id: TaskId, expires: Time, now: Time)
    requires Valid(cfg, db) && id in db.records && db.records[id].status.Running?
    ensures var r := db.records[id];
            Valid(cfg, Apply(db, NoWrites(id, r.pool).(record := SetRecord(r.(leaseExpires := Some(expires), updatedAt := now)),
                                                       lease := Add(Millis(expires)))))
  {
    var r := db.records[id];
    assert IdOk(db, id);
    RewritePlaces(db, id, r.(leaseExpires := Some(expires), updatedAt := now), Add(Millis(expires)));
    BlockKeepsValid(cfg, db, NoWrites(id, r.pool).(record := SetRecord(r.(leaseExpires := Some(expires), updatedAt := now)),
                                                   lease := Add(Millis(expires))));
  }

  lemma RecoverShape(cfg: Config, op: Op, db: Db, t: Option<nat>, b: Block, reply: Reply)
    requires op.RecoverOp? && Commits(cfg, op, db, t, b, reply)
    ensures op.id in db.leases.At(op.pool) && db.leases.At(op.pool)[op.id] <= op.nowMs && op.id in db.records
    ensures var r := db.records[op.id];
            if !r.status.Running? then b == NoWrites(op.id, op.pool).(lease := Remove) && reply == Flag(false)
            else t.Some? && b == RecoverBlock(op.pool, op.id, Recovered(r, op.now), t.value, op.now)
                 && reply == Flag(true)
  {
  }

  /** On a valid database only an expired lease of a running task is recovered;
      the branch that drops a dangling lease does not commit. */
  lemma RecoverCommit(cfg: Config, op: Op, db: Db, t: Option<nat>, b: Block, reply: Reply)
    requires op.RecoverOp? && Valid(cfg, db) && Commits(cfg, op, db, t, b, reply)
    ensures op.id in db.records && db.records[op.id].status.Running? && db.records[op.id].pool == op.pool
    ensures db.records[op.id].leaseExpires.Some? && Millis(db.records[op.id].leaseExpires.value) <= op.nowMs
    ensures t.Some? && b == RecoverBlock(op.pool, op.id, Recovered(db.records[op.id], op.now), t.value, op.now)
            && reply == Flag(true)
    ensures Valid(cfg, Apply(db, b))
  {
    RecoverShape(cfg, op, db, t, b, reply);
    assert IdOk(db, op.id);
    InLeaseFacts(db, op.id, op.pool);
    RecoverPlaces(db, op.id, t.value, op.now);
    BlockKeepsValid(cfg, db, b);
  }

  lemma FinishShape(cfg: Config, op: Op, db: Db, t: Option<nat>, b: Block, reply: Reply)
    requires op.FinishOp? && Commits(cfg, op, db, t, b, reply)
    ensures op.id in db.records && db.records[op.id].status.Running? && db.records[op.id].holder == Some(op.worker)
    ensures op.status.Succeeded? || op.status.Failed?
    ensures var u := Finished(db.records[op.id], op.status, op.result, op.code, op.message, op.now);
            b == FinishBlock(op.id, u, op.auditFailed, op.now) && reply == Updated(u)
  {
  }

  lemma FinishCommit(cfg: Config, op: Op, db: Db, t: Option<nat>, b: Block, reply: Reply)
    requires op.FinishOp? && Valid(cfg, db) && Commits(cfg, op, db, t, b, reply)
    ensures Valid(cfg, Apply(db, b))
  {
    FinishShape(cfg, op, db, t, b, reply);
    assert IdOk(db, op.id);
    var u := Finished(db.records[op.id], op.status, op.result, op.code, op.message, op.now);
    FinishPlaces(db, op.id, u, op.auditFailed, op.now);
    BlockKeepsValid(cfg, db, b);
  }

  /** Every committed block keeps the invariant. */
  lemma CommitKeepsValid(cfg: Config, op: Op, db: Db, t: Option<nat>, b: Block, reply: Reply)
    requires Valid(cfg, db) && Admissible(op, db) && Commits(cfg, op, db, t, b, reply)
    ensures Valid(cfg, Apply(db, b))
  {
    match op
    case CreateOp(_, _, _, _, _) => CreateCommit(cfg, op, db, t, b, reply);
    case PurgeOp(_) => PurgeCommit(cfg, op, db, t, b, reply);
    case DropTerminalOp(_) => DropCommit(cfg, op, db, t, b, reply);
    case DropStagingOp(_) => DropCommit(cfg, op, db, t, b, reply);
    case CountAuditOp(_, _) => UpdateCommit(cfg, op, db, t, b, reply);
    case SetAttemptsOp(_, _, _, _) => UpdateCommit(cfg, op, db, t, b, reply);
    case ActivateOp(_, _, _) => ActivateCommit(cfg, op, db, t, b, reply);
    case RejectOp(_, _, _, _, _) => RejectCommit(cfg, op, db, t, b, reply);
    case ClaimOp(_, _, _) => ClaimCommit(cfg, op, db, t, b, reply);
    case HeartbeatOp(_, _, _) => HeartbeatCommit(cfg, op, db, t, b, reply);
    case RecoverOp(_, _, _, _) => RecoverCommit(cfg, op, db, t, b, reply);
    case FinishOp(_, _, _, _, _, _, _, _) => FinishCommit(cfg, op, db, t, b, reply);
    case AcknowledgeOp(_) => UnrelatedKeepsValid(cfg, db, b);
    case BumpOp(_) => UnrelatedKeepsValid(cfg, db, b);
  }

  lemma UnrelatedKeepsValid(cfg: Config, db: Db, b: Block)
    requires Valid(cfg, db)
    requires b == NoWrites(b.id, b.pool).(outbox := b.outbox, counters := b.counters)
    ensures Valid(cfg, Apply(db, b))
  {
    UnrelatedWrites(db, b);
    OutboxIrrelevant(cfg, db, WriteOutbox(db.outbox, b.outbox), db.counters.Plus(b.counters));
  }
}
