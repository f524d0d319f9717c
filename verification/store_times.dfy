/** The times behind the scores: every index but the queues and the leases orders its
    tasks by a time their records carry, and every committed call keeps it so. */
module StoreTimes {
  import opened TaskContracts
  import opened StoreState
  import opened StoreTransactions
  import opened StoreInvariant
  import opened StorePreservation
  import opened StoreEffects

  /** Listed and staged since its creation; terminal and dead since its completion. */
  ghost predicate TimedAt(db: Db, id: TaskId) {
    id in db.records ==>
      var r := db.records[id];
      && (id in db.index ==> db.index[id] == r.createdAt / 1000)
      && ((r.tenant, id) in db.tenants ==> db.tenants[(r.tenant, id)] == r.createdAt / 1000)
      && (id in db.staging ==> db.staging[id] == r.createdAt / 1000)
      && (Terminal(r.status) ==> r.completedAt.Some?)
      && (r.completedAt.Some? ==>
            && (id in db.terminal ==> db.terminal[id] == r.completedAt.value / 1000)
            && (id in db.dead ==> db.dead[id] == r.completedAt.value / 1000)
            && (id in db.deadPools.At(r.pool) ==> db.deadPools.At(r.pool)[id] == r.completedAt.value / 1000))
  }

  ghost predicate TimesOk(db: Db) {
    forall id: TaskId :: TimedAt(db, id)
  }

  lemma OtherScores<K>(z: map<K, int>, written: K, w: ZWrite, k: K)
    requires k != written
    ensures k in WriteZ(z, written, w) ==> k in z && WriteZ(z, written, w)[k] == z[k]
  {
  }

  lemma OtherPoolScores(z: PerPool<ZSet>, p: Pool, written: TaskId, w: ZWrite, id: TaskId, q: Pool)
    requires id != written
    ensures id in WritePool(z, p, written, w).At(q) ==> id in z.At(q) && WritePool(z, p, written, w).At(q)[id] == z.At(q)[id]
  {
  }

  /** A block leaves the times of other tasks alone. */
  lemma OthersTimed(db: Db, b: Block, id: TaskId)
    requires TimedAt(db, id) && id != b.id
    ensures TimedAt(Apply(db, b), id)
  {
    hide WriteZ, WritePool, WriteIdem, WriteOutbox;
    if id in db.records {
      var r := db.records[id];
      OtherScores(db.index, b.id, b.index, id);
      OtherScores(db.tenants, (b.tenant, b.id), b.tenantIndex, (r.tenant, id));
      OtherScores(db.staging, b.id, b.staging, id);
      OtherScores(db.terminal, b.id, b.terminal, id);
      OtherScores(db.dead, b.id, b.dead, id);
      OtherPoolScores(db.deadPools, b.pool, b.id, b.dead, id, r.pool);
    }
  }

  lemma BlockKeepsTimes(db: Db, b: Block)
    requires TimesOk(db) && TimedAt(Apply(db, b), b.id)
    ensures TimesOk(Apply(db, b))
  {
    forall id: TaskId ensures TimedAt(Apply(db, b), id) {
      if id != b.id { OthersTimed(db, b, id); }
    }
  }

  lemma CreateTimed(cfg: Config, op: Op, db: Db, t: Option<nat>, b: Block, reply: Reply)
    requires op.CreateOp? && Valid(cfg, db) && Admissible(op, db) && Commits(cfg, op, db, t, b, reply)
    ensures TimedAt(Apply(db, b), b.id)
  {
    CreateWrites(cfg, op, db, t, b, reply);
    CreateShape(cfg, op, db, t, b, reply);
    assert IdOk(db, op.id);
    hide Commits, IdOk, IdemOk, BoundsOk, Apply;
  }

  lemma PurgeTimed(cfg: Config, op: Op, db: Db, t: Option<nat>, b: Block, reply: Reply)
    requires op.PurgeOp? && Valid(cfg, db) && Admissible(op, db) && Commits(cfg, op, db, t, b, reply)
    ensures TimedAt(Apply(db, b), b.id)
  {
    PurgeWrites(cfg, op, db, t, b, reply);
    PurgeCommit(cfg, op, db, t, b, reply);
    hide Commits, Valid, Apply;
  }

  lemma ActivateTimed(cfg: Config, op: Op, db: Db, t: Option<nat>, b: Block, reply: Reply)
    requires op.ActivateOp? && Valid(cfg, db) && Commits(cfg, op, db, t, b, reply) && TimedAt(db, b.id)
    ensures TimedAt(Apply(db, b), b.id)
  {
    ActivateWrites(cfg, op, db, t, b, reply);
    hide Commits, Valid, Apply;
  }

  /** A live task is in no index of ended ones. */
  lemma LiveIsNotDead(cfg: Config, db: Db, id: TaskId)
    requires Valid(cfg, db) && id in db.records && !Terminal(db.records[id].status)
    ensures id !in db.terminal && id !in db.dead && id !in db.deadPools.At(db.records[id].pool)
  {
    assert IdOk(db, id);
  }

  lemma RejectTimed(cfg: Config, op: Op, db: Db, t: Option<nat>, b: Block, reply: Reply)
    requires op.RejectOp? && Valid(cfg, db) && Commits(cfg, op, db, t, b, reply) && TimedAt(db, b.id)
    ensures TimedAt(Apply(db, b), b.id)
  {
    hide Valid, Apply, Commits;
    RejectWrites(cfg, op, db, t, b, reply);
    RejectCommit(cfg, op, db, t, b, reply);
    LiveIsNotDead(cfg, db, op.id);
  }

  lemma ClaimTimed(cfg: Config, op: Op, db: Db, t: Option<nat>, b: Block, reply: Reply)
    requires op.ClaimOp? && Valid(cfg, db) && Commits(cfg, op, db, t, b, reply) && TimedAt(db, b.id)
    ensures TimedAt(Apply(db, b), b.id)
  {
    hide Valid, Apply, Commits;
    ClaimWrites(cfg, op, db, t, b, reply);
    ClaimCommit(cfg, op, db, t, b, reply);
  }

  lemma HeartbeatTimed(cfg: Config, op: Op, db: Db, t: Option<nat>, b: Block, reply: Reply)
    requires op.HeartbeatOp? && Commits(cfg, op, db, t, b, reply) && TimedAt(db, b.id)
    ensures TimedAt(Apply(db, b), b.id)
  {
    hide Valid, Apply, Commits;
    HeartbeatWrites(cfg, op, db, t, b, reply);
    HeartbeatShape(cfg, op, db, t, b, reply);
  }

  lemma RecoverTimed(cfg: Config, op: Op, db: Db, t: Option<nat>, b: Block, reply: Reply)
    requires op.RecoverOp? && Valid(cfg, db) && Commits(cfg, op, db, t, b, reply) && TimedAt(db, b.id)
    ensures TimedAt(Apply(db, b), b.id)
  {
    hide Valid, Apply, Commits;
    RecoverWrites(cfg, op, db, t, b, reply);
    RecoverCommit(cfg, op, db, t, b, reply);
  }

  lemma FinishTimed(cfg: Config, op: Op, db: Db, t: Option<nat>, b: Block, reply: Reply)
    requires op.FinishOp? && Valid(cfg, db) && Commits(cfg, op, db, t, b, reply) && TimedAt(db, b.id)
    ensures TimedAt(Apply(db, b), b.id)
  {
    hide Valid, Apply, Commits;
    FinishWrites(cfg, op, db, t, b, reply);
    FinishShape(cfg, op, db, t, b, reply);
    LiveIsNotDead(cfg, db, op.id);
  }

  lemma UpdateTimed(cfg: Config, op: Op, db: Db, t: Option<nat>, b: Block, reply: Reply)
    requires (op.CountAuditOp? || op.SetAttemptsOp?) && Commits(cfg, op, db, t, b, reply) && TimedAt(db, b.id)
    ensures TimedAt(Apply(db, b), b.id)
  {
    hide Valid, Apply, Commits;
    UpdateWrites(cfg, op, db, t, b, reply);
    UpdateShape(cfg, op, db, t, b, reply);
  }

  lemma OtherTimed(cfg: Config, op: Op, db: Db, t: Option<nat>, b: Block, reply: Reply)
    requires op.AcknowledgeOp? || op.BumpOp? || op.DropTerminalOp? || op.DropStagingOp?
    requires Valid(cfg, db) && Admissible(op, db) && Commits(cfg, op, db, t, b, reply) && TimedAt(db, b.id)
    ensures TimedAt(Apply(db, b), b.id)
  {
    hide Valid, Apply, Commits;
    OtherWrites(cfg, op, db, t, b, reply);
  }

  /** Every committed block of every store call keeps the times. */
  lemma CommitKeepsTimes(cfg: Config, op: Op, db: Db, t: Option<nat>, b: Block, reply: Reply)
    requires Valid(cfg, db) && Admissible(op, db) && Commits(cfg, op, db, t, b, reply) && TimesOk(db)
    ensures TimesOk(Apply(db, b))
  {
    assert TimedAt(db, b.id);
    hide Valid, Admissible, Commits, TimedAt, TimesOk, Apply;
    match op {
      case CreateOp(_, _, _, _, _) => CreateTimed(cfg, op, db, t, b, reply);
      case PurgeOp(_) => PurgeTimed(cfg, op, db, t, b, reply);
      case ActivateOp(_, _, _) => ActivateTimed(cfg, op, db, t, b, reply);
      case RejectOp(_, _, _, _, _) => RejectTimed(cfg, op, db, t, b, reply);
      case ClaimOp(_, _, _) => ClaimTimed(cfg, op, db, t, b, reply);
      case HeartbeatOp(_, _, _) => HeartbeatTimed(cfg, op, db, t, b, reply);
      case RecoverOp(_, _, _, _) => RecoverTimed(cfg, op, db, t, b, reply);
      case FinishOp(_, _, _, _, _, _, _, _) => FinishTimed(cfg, op, db, t, b, reply);
      case CountAuditOp(_, _) => UpdateTimed(cfg, op, db, t, b, reply);
      case SetAttemptsOp(_, _, _, _) => UpdateTimed(cfg, op, db, t, b, reply);
      case _ => OtherTimed(cfg, op, db, t, b, reply);
    }
    BlockKeepsTimes(db, b);
  }
}
