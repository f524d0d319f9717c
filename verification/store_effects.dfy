/** What every committed store call writes, key by key and field by field: records,
    scores, index members and counters, with the times they carry. */
module StoreEffects {
  import opened TaskContracts
  import opened StoreState
  import opened StoreTransactions
  import opened StoreInvariant
  import opened StorePreservation

  /** Errors are kept up to a thousand characters. */
  ghost function Short(text: string): string {
    if |text| > 1000 then text[..1000] else text
  }

  lemma KeptPools(db: Db, p: Pool, id: TaskId)
    ensures WritePool(db.queues, p, id, Keep) == db.queues
    ensures WritePool(db.leases, p, id, Keep) == db.leases
    ensures WritePool(db.deadPools, p, id, Keep) == db.deadPools
  {
  }

  // ----- The block of a call, where the index invariant says which one it is -----

  lemma PurgeAnswers(cfg: Config, op: Op, db: Db, t: Option<nat>, b: Block, reply: Reply)
    requires op.PurgeOp? && Commits(cfg, op, db, t, b, reply)
    ensures reply == Flag(true)
  {
  }

  lemma RejectShape(cfg: Config, op: Op, db: Db, t: Option<nat>, b: Block, reply: Reply)
    requires op.RejectOp? && Commits(cfg, op, db, t, b, reply)
    ensures op.id in db.records
    ensures var u := RejectedRecord(db.records[op.id], op.reason, op.detail, op.now);
            b == RejectBlock(op.id, u, op.auditFailed, op.now) && reply == Updated(u)
  {
  }

  lemma HeartbeatAnswers(cfg: Config, op: Op, db: Db, t: Option<nat>, b: Block, reply: Reply)
    requires op.HeartbeatOp? && Commits(cfg, op, db, t, b, reply)
    ensures reply == Flag(true)
  {
  }

  lemma QueuedIsUnleased(cfg: Config, db: Db, id: TaskId, p: Pool)
    requires Valid(cfg, db) && id in db.records && db.records[id].status.Queued? && db.records[id].pool == p
    ensures id !in db.leases.At(p)
  {
    assert IdOk(db, id);
  }

  lemma OtherShape(cfg: Config, op: Op, db: Db, t: Option<nat>, b: Block, reply: Reply)
    requires (op.AcknowledgeOp? || op.BumpOp?) && Commits(cfg, op, db, t, b, reply)
    ensures op.AcknowledgeOp? ==> b == NoWrites(op.member.id, op.member.pool).(outbox := RemoveMember(op.member))
    ensures op.BumpOp? ==> b == NoWrites(0, SecurityPool).(counters := op.delta)
  {
  }

  lemma UnstageWrites(db: Db, id: TaskId, p: Pool)
    ensures Apply(db, NoWrites(id, p).(staging := Remove)) == db.(staging := db.staging - {id})
  {
    KeptPools(db, p, id);
  }

  lemma ActivateBlockWrites(db: Db, id: TaskId, n: nat, now: Time)
    requires id in db.records
    ensures var r := db.records[id];
            Apply(db, ActivateBlock(id, r, n, now)) == db.(
              queues := db.queues.With(r.pool, db.queues.At(r.pool)[id := Rank(r.priority) * 1_000_000_000_000 + n]),
              outbox := db.outbox[Member(r.pool, id, r.recoveredCount) := now / 1000],
              staging := db.staging - {id}, counters := db.counters.(accepted := db.counters.accepted + 1))
  {
    KeptPools(db, db.records[id].pool, id);
  }

  lemma RecoverBlockWrites(db: Db, p: Pool, id: TaskId, n: nat, now: Time)
    requires id in db.records
    ensures var r := db.records[id];
            var u := r.(status := Queued, recoveredCount := r.recoveredCount + 1, holder := None, leaseExpires := None,
                        updatedAt := now);
            Apply(db, RecoverBlock(p, id, Recovered(r, now), n, now)) == db.(
              records := db.records[id := u], leases := db.leases.With(p, db.leases.At(p) - {id}),
              queues := db.queues.With(p, db.queues.At(p)[id := Rank(r.priority) * 1_000_000_000_000 + n]),
              outbox := db.outbox[Member(p, id, r.recoveredCount + 1) := now / 1000],
              counters := db.counters.(recovered := db.counters.recovered + 1))
  {
    KeptPools(db, p, id);
  }

  lemma FinishedFields(r: Record, op: Op)
    requires op.FinishOp?
    ensures Finished(r, op.status, op.result, op.code, op.message, op.now)
            == r.(status := op.status, result := if op.status == Succeeded then op.result else None, errorCode := op.code,
                  errorMessage := (if op.message == None || op.message == Some("") then None else Some(Short(op.message.value))),
                  completedAt := Some(op.now), holder := None, leaseExpires := None, updatedAt := op.now)
  {
  }

  lemma FinishBlockWrites(db: Db, id: TaskId, u: Record, auditFailed: bool, now: Time)
    requires u.status == Succeeded || u.status == Failed
    ensures var won := u.status == Succeeded;
            Apply(db, FinishBlock(id, u, auditFailed, now)) == db.(
              records := db.records[id := u], leases := db.leases.With(u.pool, db.leases.At(u.pool) - {id}),
              terminal := db.terminal[id := now / 1000],
              dead := if won then db.dead else db.dead[id := now / 1000],
              deadPools := if won then db.deadPools else db.deadPools.With(u.pool, db.deadPools.At(u.pool)[id := now / 1000]),
              counters := db.counters.(succeeded := db.counters.succeeded + (if won then 1 else 0),
                                       failed := db.counters.failed + (if won then 0 else 1),
                                       deadLettered := db.counters.deadLettered + (if won then 0 else 1),
                                       auditFailures := db.counters.auditFailures + if auditFailed then 1 else 0))
  {
    KeptPools(db, u.pool, id);
  }

  // ----- What each call writes -----

  /** A creation stores the submitted fields, queued and untouched, indexes the task
      under the time of the call, stages it since that time and binds its scope. */
  lemma CreateWrites(cfg: Config, op: Op, db: Db, t: Option<nat>, b: Block, reply: Reply)
    requires op.CreateOp? && Commits(cfg, op, db, t, b, reply)
    ensures var pool := match op.sub.kind
                        case SecurityCheck => SecurityPool case SkillScan => SecurityPool
                        case AgentTask => AgentPool case Evaluation => EvaluationPool;
            var r := Record(
                op.id, op.trace, op.who.tenant, op.who.actor, op.who.role, op.sub.kind, pool, op.sub.priority,
                op.sub.payload, op.sub.key, op.sub.maxAttempts, Queued, 0, None, None, None, 0, 0, 0, None, None,
                op.now, op.now, None, None);
            && reply == Updated(r)
            && Apply(db, b) == db.(
                 records := db.records[op.id := r], index := db.index[op.id := op.now / 1000],
                 tenants := db.tenants[(op.who.tenant, op.id) := op.now / 1000], staging := db.staging[op.id := op.now / 1000],
                 idem := match op.sub.key
                         case Some(k) => db.idem[Scope(op.who.tenant, op.who.actor, k) := op.id]
                         case None => db.idem)
  {
    hide Commits, Valid, Atomic, Admissible;
    CreateShape(cfg, op, db, t, b, reply);
    KeptPools(db, b.pool, b.id);
  }

  /** A purge removes the record from every index and frees its scope. */
  lemma PurgeWrites(cfg: Config, op: Op, db: Db, t: Option<nat>, b: Block, reply: Reply)
    requires op.PurgeOp? && Valid(cfg, db) && Admissible(op, db) && Commits(cfg, op, db, t, b, reply)
    ensures op.id in db.records && reply == Flag(true)
    ensures var id, r := op.id, db.records[op.id];
            Apply(db, b) == db.(
              records := db.records - {id}, index := db.index - {id}, tenants := db.tenants - {(r.tenant, id)},
              terminal := db.terminal - {id}, dead := db.dead - {id},
              deadPools := db.deadPools.With(r.pool, db.deadPools.At(r.pool) - {id}),
              idem := match r.key case Some(k) => db.idem - {Scope(r.tenant, r.actor, k)} case None => db.idem)
  {
    hide Commits, Valid, Atomic, Admissible;
    PurgeAnswers(cfg, op, db, t, b, reply);
    PurgeCommit(cfg, op, db, t, b, reply);
    KeptPools(db, b.pool, b.id);
  }

  /** An activation queues the task behind its priority with the number drawn and puts
      its member in the outbox, due at once; a task already queued is only unstaged. */
  lemma ActivateWrites(cfg: Config, op: Op, db: Db, t: Option<nat>, b: Block, reply: Reply)
    requires op.ActivateOp? && Valid(cfg, db) && Commits(cfg, op, db, t, b, reply)
    ensures op.id in db.records && reply == Unchanged(db.records[op.id])
    ensures var id, p, r := op.id, op.pool, db.records[op.id];
            var rank := match r.priority case Critical => 0 case High => 1 case Medium => 2 case Low => 3;
            if id in db.queues.At(p) then Apply(db, b) == db.(staging := db.staging - {id})
            else
              && t.Some?
              && Apply(db, b) == db.(
                   queues := db.queues.With(p, db.queues.At(p)[id := rank * 1_000_000_000_000 + t.value]),
                   outbox := db.outbox[Member(p, id, r.recoveredCount) := op.now / 1000],
                   staging := db.staging - {id}, counters := db.counters.(accepted := db.counters.accepted + 1))
  {
    hide Commits, Valid, Atomic, Admissible;
    hide ActivateBlock, Apply, NoWrites;
    ActivateShape(cfg, op, db, t, b, reply);
    QueuedIsUnleased(cfg, db, op.id, op.pool);
    if op.id in db.queues.At(op.pool) {
      UnstageWrites(db, op.id, op.pool);
    } else {
      ActivateBlockWrites(db, op.id, t.value, op.now);
    }
  }

  /** A rejection ends the task with the reason given, now. */
  lemma RejectWrites(cfg: Config, op: Op, db: Db, t: Option<nat>, b: Block, reply: Reply)
    requires op.RejectOp? && Commits(cfg, op, db, t, b, reply)
    ensures op.id in db.records
    ensures var id, r := op.id, db.records[op.id];
            var u := r.(status := Rejected, errorCode := Some(op.reason), errorMessage := Some(Short(op.detail)),
                        completedAt := Some(op.now), leaseExpires := None, holder := None, updatedAt := op.now);
            && reply == Updated(u)
            && Apply(db, b) == db.(
                 records := db.records[id := u], staging := db.staging - {id},
                 queues := db.queues.With(r.pool, db.queues.At(r.pool) - {id}),
                 leases := db.leases.With(r.pool, db.leases.At(r.pool) - {id}), terminal := db.terminal[id := op.now / 1000],
                 counters := db.counters.(rejected := db.counters.rejected + 1,
                                          auditFailures := db.counters.auditFailures + if op.auditFailed then 1 else 0))
  {
    hide Commits, Valid, Atomic, Admissible;
    RejectShape(cfg, op, db, t, b, reply);
    KeptPools(db, b.pool, b.id);
  }

  /** A claim hands the head of the queue to the worker, under a lease of the
      configured length from now on. */
  lemma ClaimWrites(cfg: Config, op: Op, db: Db, t: Option<nat>, b: Block, reply: Reply)
    requires op.ClaimOp? && Valid(cfg, db) && Commits(cfg, op, db, t, b, reply)
    ensures db.queues.At(op.pool) != map[] && Head(db.queues.At(op.pool)) in db.records
    ensures var id, p := Head(db.queues.At(op.pool)), op.pool;
            var r := db.records[id];
            var u := r.(status := Running, deliveryCount := r.deliveryCount + 1, holder := Some(op.worker),
                        leaseExpires := Some(op.now + cfg.leaseMicros), updatedAt := op.now,
                        startedAt := match r.startedAt case Some(at) => Some(at) case None => Some(op.now));
            && reply == Updated(u)
            && Apply(db, b) == db.(
                 records := db.records[id := u], queues := db.queues.With(p, db.queues.At(p) - {id}),
                 leases := db.leases.With(p, db.leases.At(p)[id := (op.now + cfg.leaseMicros) / 1000]),
                 counters := db.counters.(started := db.counters.started + 1))
  {
    hide Commits, Valid, Atomic, Admissible;
    ClaimCommit(cfg, op, db, t, b, reply);
    KeptPools(db, b.pool, b.id);
  }

  /** A heartbeat of the holder moves the end of its lease, in record and index. */
  lemma HeartbeatWrites(cfg: Config, op: Op, db: Db, t: Option<nat>, b: Block, reply: Reply)
    requires op.HeartbeatOp? && Commits(cfg, op, db, t, b, reply)
    ensures op.id in db.records && db.records[op.id].holder == Some(op.worker) && reply == Flag(true)
    ensures var id, r := op.id, db.records[op.id];
            Apply(db, b) == db.(
              records := db.records[id := r.(leaseExpires := Some(op.now + cfg.leaseMicros), updatedAt := op.now)],
              leases := db.leases.With(r.pool, db.leases.At(r.pool)[id := (op.now + cfg.leaseMicros) / 1000]))
  {
    hide Commits, Valid, Atomic, Admissible;
    HeartbeatShape(cfg, op, db, t, b, reply);
    HeartbeatAnswers(cfg, op, db, t, b, reply);
    KeptPools(db, b.pool, b.id);
  }

  /** A recovery takes an expired lease away, counts it, and queues the task again with
      a new number and the outbox member of its next generation. */
  lemma RecoverWrites(cfg: Config, op: Op, db: Db, t: Option<nat>, b: Block, reply: Reply)
    requires op.RecoverOp? && Valid(cfg, db) && Commits(cfg, op, db, t, b, reply)
    ensures op.id in db.records && op.id in db.leases.At(op.pool) && db.leases.At(op.pool)[op.id] <= op.nowMs
    ensures t.Some? && reply == Flag(true)
    ensures var id, p, r := op.id, op.pool, db.records[op.id];
            var rank := match r.priority case Critical => 0 case High => 1 case Medium => 2 case Low => 3;
            var u := r.(status := Queued, recoveredCount := r.recoveredCount + 1, holder := None, leaseExpires := None,
                        updatedAt := op.now);
            Apply(db, b) == db.(
              records := db.records[id := u], leases := db.leases.With(p, db.leases.At(p) - {id}),
              queues := db.queues.With(p, db.queues.At(p)[id := rank * 1_000_000_000_000 + t.value]),
              outbox := db.outbox[Member(p, id, r.recoveredCount + 1) := op.now / 1000],
              counters := db.counters.(recovered := db.counters.recovered + 1))
  {
    hide Commits, Valid, Atomic, Admissible;
    hide RecoverBlock, Recovered;
    RecoverShape(cfg, op, db, t, b, reply);
    RecoverCommit(cfg, op, db, t, b, reply);
    RecoverBlockWrites(db, op.pool, op.id, t.value, op.now);
  }

  /** A finish of the holder ends the task with its result or its error, now; a failed
      one is dead-lettered, globally and in its pool. */
  lemma FinishWrites(cfg: Config, op: Op, db: Db, t: Option<nat>, b: Block, reply: Reply)
    requires op.FinishOp? && Commits(cfg, op, db, t, b, reply)
    ensures op.id in db.records && db.records[op.id].holder == Some(op.worker) && (op.status == Succeeded || op.status == Failed)
    ensures var id, r, won := op.id, db.records[op.id], op.status == Succeeded;
            var u := r.(status := op.status, result := if won then op.result else None, errorCode := op.code,
                        errorMessage := (if op.message == None || op.message == Some("") then None
                                         else Some(Short(op.message.value))),
                        completedAt := Some(op.now), holder := None, leaseExpires := None, updatedAt := op.now);
            && reply == Updated(u)
            && Apply(db, b) == db.(
                 records := db.records[id := u], leases := db.leases.With(r.pool, db.leases.At(r.pool) - {id}),
                 terminal := db.terminal[id := op.now / 1000],
                 dead := if won then db.dead else db.dead[id := op.now / 1000],
                 deadPools := if won then db.deadPools
                              else db.deadPools.With(r.pool, db.deadPools.At(r.pool)[id := op.now / 1000]),
                 counters := db.counters.(succeeded := db.counters.succeeded + (if won then 1 else 0),
                                          failed := db.counters.failed + (if won then 0 else 1),
                                          deadLettered := db.counters.deadLettered + (if won then 0 else 1),
                                          auditFailures := db.counters.auditFailures + if op.auditFailed then 1 else 0))
  {
    hide Commits, Valid, Atomic, Admissible;
    hide FinishBlock, Finished;
    FinishShape(cfg, op, db, t, b, reply);
    FinishedFields(db.records[op.id], op);
    FinishBlockWrites(db, op.id, Finished(db.records[op.id], op.status, op.result, op.code, op.message, op.now), op.auditFailed, op.now);
  }

  /** An audit is counted, and an attempt recorded for the holder, and nothing else. */
  lemma UpdateWrites(cfg: Config, op: Op, db: Db, t: Option<nat>, b: Block, reply: Reply)
    requires (op.CountAuditOp? || op.SetAttemptsOp?) && Commits(cfg, op, db, t, b, reply)
    ensures op.id in db.records && (op.SetAttemptsOp? ==> db.records[op.id].holder == Some(op.worker))
    ensures var r := db.records[op.id];
            var u := if op.CountAuditOp? then r.(auditEvents := r.auditEvents + 1, updatedAt := op.now)
                     else r.(attempts := op.attempts, updatedAt := op.now);
            reply == Updated(u) && Apply(db, b) == db.(records := db.records[op.id := u])
  {
    hide Commits, Valid, Atomic, Admissible;
    UpdateShape(cfg, op, db, t, b, reply);
    KeptPools(db, b.pool, b.id);
  }

  /** Acknowledging a member removes it; counting adds to the counters; dropping stale
      entries of tasks that are gone changes nothing. */
  lemma OtherWrites(cfg: Config, op: Op, db: Db, t: Option<nat>, b: Block, reply: Reply)
    requires op.AcknowledgeOp? || op.BumpOp? || op.DropTerminalOp? || op.DropStagingOp?
    requires Valid(cfg, db) && Admissible(op, db) && Commits(cfg, op, db, t, b, reply)
    ensures Apply(db, b) == match op
                            case AcknowledgeOp(m) => db.(outbox := db.outbox - {m})
                            case BumpOp(d) => db.(counters := db.counters.Plus(d))
                            case _ => db
  {
    hide Valid;
    if op.DropTerminalOp? || op.DropStagingOp? {
      DropCommit(cfg, op, db, t, b, reply);
    } else {
      OtherShape(cfg, op, db, t, b, reply);
      hide Commits;
      KeptPools(db, b.pool, b.id);
    }
  }

  // ----- When each call commits, and what it answers otherwise -----

  /** A creation replays the live task of its scope, is refused when the store is full,
      and commits otherwise. */
  lemma CreateExactly(cfg: Config, op: Op, db: Db)
    requires op.CreateOp? && Valid(cfg, db)
    ensures var d := Atomic(cfg, op, db, None);
            var bound := op.sub.key.Some? && Scope(op.who.tenant, op.who.actor, op.sub.key.value) in db.idem;
            if bound then d == Give(Replay(db.idem[Scope(op.who.tenant, op.who.actor, op.sub.key.value)]))
            else if |db.index| >= cfg.maxRecords then d == Give(Full) else d.Exec?
  {
    hide Valid;
  }

  /** A heartbeat answers true exactly for the holder of a running task. */
  lemma HeartbeatExactly(cfg: Config, op: Op, db: Db)
    requires op.HeartbeatOp?
    ensures var d := Atomic(cfg, op, db, None);
            if op.id !in db.records then d == Give(NotFound)
            else if db.records[op.id].status == Running && db.records[op.id].holder == Some(op.worker) then d.Exec?
            else d == Give(Flag(false))
  {
  }

  /** A finish commits exactly for the holder of a running task; an ended task is
      returned as it is, anyone else is refused. */
  lemma FinishExactly(cfg: Config, op: Op, db: Db)
    requires op.FinishOp? && (op.status == Succeeded || op.status == Failed)
    ensures var d := Atomic(cfg, op, db, None);
            if op.id !in db.records then d == Give(NotFound)
            else
              var r := db.records[op.id];
              if r.status in {Succeeded, Failed, Rejected} then d == Give(Unchanged(r))
              else if r.status == Running && r.holder == Some(op.worker) then d.Exec?
              else d == Give(Refused)
  {
  }

  /** A rejection commits exactly for a task that has not ended. */
  lemma RejectExactly(cfg: Config, op: Op, db: Db)
    requires op.RejectOp?
    ensures var d := Atomic(cfg, op, db, None);
            if op.id !in db.records then d == Give(NotFound)
            else if db.records[op.id].status in {Succeeded, Failed, Rejected} then d == Give(Unchanged(db.records[op.id]))
            else d.Exec?
  {
  }

  /** An attempt is recorded exactly for the holder, an audit for any record. */
  lemma UpdateExactly(cfg: Config, op: Op, db: Db)
    requires op.CountAuditOp? || op.SetAttemptsOp?
    ensures var d := Atomic(cfg, op, db, None);
            if op.id !in db.records then d == Give(NotFound)
            else if op.CountAuditOp? || db.records[op.id].holder == Some(op.worker) then d.Exec?
            else d == Give(Refused)
  {
  }

  /** A claim commits exactly when the queue of its pool holds a task. */
  lemma ClaimExactly(cfg: Config, op: Op, db: Db)
    requires op.ClaimOp? && Valid(cfg, db)
    ensures var d := Atomic(cfg, op, db, None);
            if db.queues.At(op.pool) == map[] then d == Give(NoTask) else d.Exec?
  {
    if db.queues.At(op.pool) != map[] { assert IdOk(db, Head(db.queues.At(op.pool))); }
  }

  /** A recovery commits, with the number it draws, exactly when the lease has expired. */
  lemma RecoverExactly(cfg: Config, op: Op, db: Db, n: nat)
    requires op.RecoverOp? && Valid(cfg, db)
    ensures var lease := db.leases.At(op.pool);
            if op.id in lease && lease[op.id] <= op.nowMs then Atomic(cfg, op, db, None).Draw? && Atomic(cfg, op, db, Some(n)).Exec?
            else Atomic(cfg, op, db, None) == Give(Flag(false))
  {
    assert IdOk(db, op.id);
  }

  /** An activation commits, with the number it draws, exactly for a queued task of the
      pool while queue and leases leave room; one that is queued already needs none. */
  lemma ActivateExactly(cfg: Config, op: Op, db: Db, n: nat)
    requires op.ActivateOp? && Valid(cfg, db) && op.id in db.records && db.records[op.id].pool == op.pool
    ensures var room := cfg.pools.At(op.pool).queueCapacity + cfg.pools.At(op.pool).workers;
            var used := |db.queues.At(op.pool)| + |db.leases.At(op.pool)|;
            if db.records[op.id].status != Queued then Atomic(cfg, op, db, None) == Give(Refused)
            else if op.id in db.queues.At(op.pool) then Atomic(cfg, op, db, None).Exec?
            else if used >= room then Atomic(cfg, op, db, None) == Give(Full)
            else Atomic(cfg, op, db, None).Draw? && Atomic(cfg, op, db, Some(n)).Exec?
  {
    hide Valid;
    if db.records[op.id].status == Queued { QueuedIsUnleased(cfg, db, op.id, op.pool); }
  }

  /** A purge commits exactly while its task is still there. */
  lemma PurgeExactly(cfg: Config, op: Op, db: Db)
    requires op.PurgeOp?
    ensures if op.id in db.records then Atomic(cfg, op, db, None).Exec? else Atomic(cfg, op, db, None) == Give(NotFound)
  {
  }
}
