/** The index invariant of the task store and its preservation by every
    committed block. */
module StoreInvariant {
  import opened TaskContracts
  import opened StoreState
  import opened StoreTransactions

  ghost predicate Nowhere(z: PerPool<ZSet>, id: TaskId) {
    id !in z.security && id !in z.agent && id !in z.evaluation
  }

  /** Only pool p's set may hold id. */
  ghost predicate Confined(z: PerPool<ZSet>, id: TaskId, p: Pool) {
    (p.SecurityPool? || id !in z.security) && (p.AgentPool? || id !in z.agent) && (p.EvaluationPool? || id !in z.evaluation)
  }

  ghost predicate Absent(db: Db, id: TaskId) {
    && id !in db.records && id !in db.index && id !in db.staging && id !in db.terminal && id !in db.dead
    && Nowhere(db.queues, id) && Nowhere(db.leases, id) && Nowhere(db.deadPools, id)
    && (forall t :: (t, id) !in db.tenants)
  }

  /** The record's fields agree with each other. */
  ghost predicate FieldsOk(r: Record) {
    && r.pool == PoolOf(r.kind)
    && (r.status.Running? <==> r.holder.Some?)
    && (r.status.Running? <==> r.leaseExpires.Some?)
    && (r.status.Queued? ==> r.deliveryCount == r.recoveredCount)
    && (r.status.Running? || r.status.Succeeded? || r.status.Failed? ==> r.deliveryCount == r.recoveredCount + 1)
    && (r.status.Rejected? ==> r.recoveredCount <= r.deliveryCount <= r.recoveredCount + 1)
  }

  /** The indexes hold the record exactly where its status says. */
  ghost predicate Placed(db: Db, id: TaskId, r: Record) {
    && id in db.index
    && (forall t :: (t, id) in db.tenants <==> t == r.tenant)
    && Confined(db.queues, id, r.pool) && Confined(db.leases, id, r.pool) && Confined(db.deadPools, id, r.pool)
    && (r.status.Queued? <==> id in db.staging || id in db.queues.At(r.pool))
    && !(id in db.staging && id in db.queues.At(r.pool))
    && (r.status.Running? <==> id in db.leases.At(r.pool))
    && (r.status.Running? && r.leaseExpires.Some? ==> db.leases.At(r.pool)[id] == Millis(r.leaseExpires.value))
    && (Terminal(r.status) <==> id in db.terminal)
    && (r.status.Failed? <==> id in db.dead)
    && (r.status.Failed? <==> id in db.deadPools.At(r.pool))
    && (id in db.staging ==> r.deliveryCount == 0)
    && (match ScopeOf(r) case Some(s) => s in db.idem && db.idem[s] == id case None => true)
  }

  ghost predicate IdOk(db: Db, id: TaskId) {
    if id in db.records then
      var r := db.records[id];
      r.id == id && FieldsOk(r) && Placed(db, id, r)
    else
      Absent(db, id)
  }

  ghost predicate IndexesOk(db: Db) {
    forall id: TaskId :: IdOk(db, id)
  }

  /** Every idempotency entry points at the live record created with it. */
  ghost predicate IdemOk(db: Db) {
    forall s :: s in db.idem ==> db.idem[s] in db.records && ScopeOf(db.records[db.idem[s]]) == Some(s)
  }

  ghost predicate BoundsOk(cfg: Config, db: Db) {
    && |db.records| <= cfg.maxRecords
    && |db.index| == |db.records|
    && forall p: Pool :: |db.queues.At(p)| + |db.leases.At(p)| <= cfg.Room(p)
  }

  ghost predicate Valid(cfg: Config, db: Db) {
    IndexesOk(db) && IdemOk(db) && BoundsOk(cfg, db)
  }

  /** What the caller of an operation has to guarantee: a created id is new, a
      purge candidate was seen terminal, and an id dropped from an index after a
      failed lookup is gone. */
  ghost predicate Admissible(op: Op, db: Db) {
    && (op.CreateOp? ==> op.id !in db.records)
    && (op.PurgeOp? && op.id in db.records ==> Terminal(db.records[op.id].status))
    && (op.DropTerminalOp? || op.DropStagingOp? ==> op.id !in db.records)
  }

  lemma EmptyIsValid(cfg: Config)
    ensures Valid(cfg, EMPTY)
  {
  }

  // ----- Sizes -----

  lemma WriteSize<K>(z: map<K, int>, k: K, w: ZWrite)
    ensures w.Keep? ==> |WriteZ(z, k, w)| == |z|
    ensures w.Add? ==> |WriteZ(z, k, w)| == if k in z then |z| else |z| + 1
    ensures w.Remove? ==> |WriteZ(z, k, w)| == if k in z then |z| - 1 else |z|
  {
    if w.Add? {
      assert WriteZ(z, k, w).Keys == z.Keys + {k};
    } else if w.Remove? {
      assert WriteZ(z, k, w).Keys == z.Keys - {k};
    }
  }

  lemma RecordsSize(m: map<TaskId, Record>, id: TaskId, w: RecordWrite)
    ensures w.KeepRecord? ==> |WriteRecord(m, id, w)| == |m|
    ensures w.SetRecord? ==> |WriteRecord(m, id, w)| == if id in m then |m| else |m| + 1
    ensures w.DeleteRecord? ==> |WriteRecord(m, id, w)| == if id in m then |m| - 1 else |m|
  {
    if w.SetRecord? {
      assert WriteRecord(m, id, w).Keys == m.Keys + {id};
    } else if w.DeleteRecord? {
      assert WriteRecord(m, id, w).Keys == m.Keys - {id};
    }
  }

  // ----- A block leaves every other task alone -----

  /** The idempotency part of the block concerns only its own task. */
  ghost predicate IdemLocal(db: Db, b: Block) {
    match b.idem
    case KeepIdem => true
    case Bind(s) => s !in db.idem
    case Unbind(s) => s in db.idem && db.idem[s] == b.id
  }

  lemma PoolWriteOthers(z: PerPool<ZSet>, p: Pool, written: TaskId, w: ZWrite, id: TaskId)
    requires id != written
    ensures var z' := WritePool(z, p, written, w);
            && (id in z'.security <==> id in z.security) && (id in z'.agent <==> id in z.agent)
            && (id in z'.evaluation <==> id in z.evaluation)
            && (forall q: Pool :: id in z.At(q) ==> id in z'.At(q) && z'.At(q)[id] == z.At(q)[id])
  {
  }

  lemma OthersKept(db: Db, b: Block, id: TaskId)
    requires IdOk(db, id) && id != b.id && IdemLocal(db, b)
    ensures IdOk(Apply(db, b), id)
  {
    var db' := Apply(db, b);
    assert forall t :: (t, id) in db'.tenants <==> (t, id) in db.tenants;
    PoolWriteOthers(db.queues, b.pool, b.id, b.queue, id);
    PoolWriteOthers(db.leases, b.pool, b.id, b.lease, id);
    PoolWriteOthers(db.deadPools, b.pool, b.id, b.dead, id);
    assert id in db'.records <==> id in db.records;
    if id in db.records {
      assert db'.records[id] == db.records[id];
      PlacedKept(db, b, id, db.records[id]);
    }
  }

  lemma WriteOthers(z: ZSet, written: TaskId, w: ZWrite, id: TaskId)
    requires id != written
    ensures id in WriteZ(z, written, w) <==> id in z
  {
  }

  lemma EntryKept(db: Db, b: Block, scope: Scope, id: TaskId)
    requires id != b.id && IdemLocal(db, b) && scope in db.idem && db.idem[scope] == id
    ensures scope in Apply(db, b).idem && Apply(db, b).idem[scope] == id
  {
  }

  lemma PlacedKept(db: Db, b: Block, id: TaskId, r: Record)
    requires Placed(db, id, r) && id != b.id && IdemLocal(db, b)
    ensures Placed(Apply(db, b), id, r)
  {
    hide IdemLocal, WritePool, WriteRecord, WriteOutbox, WriteIdem;
    var db' := Apply(db, b);
    assert forall t :: (t, id) in db'.tenants <==> (t, id) in db.tenants;
    hide WriteZ;
    WriteOthers(db.index, b.id, b.index, id);
    WriteOthers(db.staging, b.id, b.staging, id);
    WriteOthers(db.terminal, b.id, b.terminal, id);
    WriteOthers(db.dead, b.id, b.dead, id);
    if ScopeOf(r).Some? { EntryKept(db, b, ScopeOf(r).value, id); }
    PoolWriteOthers(db.queues, b.pool, b.id, b.queue, id);
    PoolWriteOthers(db.leases, b.pool, b.id, b.lease, id);
    PoolWriteOthers(db.deadPools, b.pool, b.id, b.dead, id);
  }

  lemma BlockKeepsIndexes(db: Db, b: Block)
    requires IndexesOk(db) && IdemLocal(db, b) && IdOk(Apply(db, b), b.id)
    ensures IndexesOk(Apply(db, b))
  {
    forall id: TaskId ensures IdOk(Apply(db, b), id) {
      if id != b.id { OthersKept(db, b, id); }
    }
  }

  // ----- The block's own task, operation by operation -----

  /** A block that rewrites a record without touching its identity. */
  ghost predicate SameIdentity(r: Record, r': Record) {
    r'.id == r.id && r'.tenant == r.tenant && r'.actor == r.actor && r'.key == r.key && r'.kind == r.kind
    && r'.pool == r.pool && r'.priority == r.priority && r'.maxAttempts == r.maxAttempts
    && r'.payload == r.payload && r'.trace == r.trace && r'.role == r.role && r'.createdAt == r.createdAt
  }

  lemma CreatePlaces(db: Db, r: Record)
    requires IdOk(db, r.id) && r.id !in db.records
    requires r.status.Queued? && FieldsOk(r) && r.deliveryCount == 0
    ensures IdOk(Apply(db, CreateBlock(r)), r.id)
  {
    var db' := Apply(db, CreateBlock(r));
    assert Placed(db', r.id, r);
  }

  lemma PurgePlaces(db: Db, id: TaskId)
    requires IdOk(db, id) && id in db.records && Terminal(db.records[id].status)
    ensures IdOk(Apply(db, PurgeBlock(id, db.records[id])), id)
  {
    var db' := Apply(db, PurgeBlock(id, db.records[id]));
    assert forall t :: (t, id) !in db'.tenants;
    assert Absent(db', id);
  }

  lemma ActivatePlaces(db: Db, id: TaskId, sequence: nat, now: Time)
    requires IdOk(db, id) && id in db.records && db.records[id].status.Queued?
    requires id !in db.queues.At(db.records[id].pool)
    ensures IdOk(Apply(db, ActivateBlock(id, db.records[id], sequence, now)), id)
  {
    var r := db.records[id];
    var db' := Apply(db, ActivateBlock(id, r, sequence, now));
    assert Placed(db', id, r);
  }

  lemma RejectPlaces(db: Db, id: TaskId, reason: string, detail: string, auditFailed: bool, now: Time)
    requires IdOk(db, id) && id in db.records && !Terminal(db.records[id].status)
    ensures IdOk(Apply(db, RejectBlock(id, RejectedRecord(db.records[id], reason, detail, now), auditFailed, now)), id)
  {
    var u := RejectedRecord(db.records[id], reason, detail, now);
    var db' := Apply(db, RejectBlock(id, u, auditFailed, now));
    assert Placed(db', id, u);
  }

  lemma ClaimPlaces(cfg: Config, db: Db, id: TaskId, worker: ClientId, now: Time)
    requires IdOk(db, id) && id in db.records && db.records[id].status.Queued?
    requires id in db.queues.At(db.records[id].pool)
    ensures IdOk(Apply(db, ClaimBlock(cfg, db.records[id].pool, id, Claimed(cfg, db.records[id], worker, now), now)), id)
  {
    var u := Claimed(cfg, db.records[id], worker, now);
    var db' := Apply(db, ClaimBlock(cfg, u.pool, id, u, now));
    assert Placed(db', id, u);
  }

  lemma RecoverPlaces(db: Db, id: TaskId, sequence: nat, now: Time)
    requires IdOk(db, id) && id in db.records && db.records[id].status.Running?
    ensures IdOk(Apply(db, RecoverBlock(db.records[id].pool, id, Recovered(db.records[id], now), sequence, now)), id)
  {
    var u := Recovered(db.records[id], now);
    var db' := Apply(db, RecoverBlock(u.pool, id, u, sequence, now));
    assert Placed(db', id, u);
  }

  lemma FinishPlaces(db: Db, id: TaskId, u: Record, auditFailed: bool, now: Time)
    requires IdOk(db, id) && id in db.records && db.records[id].status.Running?
    requires SameIdentity(db.records[id], u) && FieldsOk(u) && (u.status.Succeeded? || u.status.Failed?)
    ensures IdOk(Apply(db, FinishBlock(id, u, auditFailed, now)), id)
  {
    var db' := Apply(db, FinishBlock(id, u, auditFailed, now));
    assert Placed(db', id, u);
  }

  /** `update` and `heartbeat`: status and holder stay. */
  lemma RewritePlaces(db: Db, id: TaskId, u: Record, lease: ZWrite)
    requires IdOk(db, id) && id in db.records
    requires SameIdentity(db.records[id], u) && FieldsOk(u)
    requires u.status == db.records[id].status && u.deliveryCount == db.records[id].deliveryCount
    requires (lease.Keep? && u.leaseExpires == db.records[id].leaseExpires)
             || (u.status.Running? && u.leaseExpires.Some? && lease == Add(Millis(u.leaseExpires.value)))
    ensures IdOk(Apply(db, NoWrites(id, u.pool).(record := SetRecord(u), lease := lease)), id)
  {
    var db' := Apply(db, NoWrites(id, u.pool).(record := SetRecord(u), lease := lease));
    assert Placed(db', id, u);
  }
}
