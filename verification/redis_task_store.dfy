/** The store as an object: one method per store method, each with the checks and
    the command block of the source.  A method runs here between two conflicts;
    WatchRefinement covers what happens when calls interleave.  Every contract
    gives the new database as a function of the old one and says that this is what
    the atomic operation of StoreTransactions does. */
module TaskStore {
  import opened TaskContracts
  import opened StoreState
  import opened StoreTransactions
  import opened StoreInvariant
  import opened StorePreservation
  import opened StoreCalls
  import opened StoreReconciliation

  // ----- Range queries -----

  /** ZRANGE key 0 0. */
  method First(z: ZSet) returns (id: TaskId)
    requires z != map[]
    ensures IsHead(z, id) && id == Head(z)
  {
    id :| id in z;
    var rest := z.Keys - {id};
    while rest != {}
      invariant rest <= z.Keys && id in z
      invariant forall x :: x in z && x !in rest ==> Before(z, id, x)
      decreases |rest|
    {
      var x :| x in rest;
      rest := rest - {x};
      if !Before(z, id, x) { id := x; }
    }
    HeadUnique(z, id);
  }

  method Due(z: ZSet, max: int, limit: nat) returns (due: seq<TaskId>)
    ensures IsDue(z, max, limit, due)
  {
    due := [];
    var rest := map x | x in z && 0 <= z[x] <= max :: z[x];
    while rest != map[] && |due| < limit
      invariant |due| <= limit
      invariant forall x :: x in rest <==> x in z && 0 <= z[x] <= max && x !in due
      invariant forall x :: x in rest ==> rest[x] == z[x]
      invariant forall i :: 0 <= i < |due| ==> due[i] in z && 0 <= z[due[i]] <= max
      invariant forall i, j :: 0 <= i < j < |due| ==> due[i] != due[j] && Before(z, due[i], due[j])
      invariant forall i, x :: 0 <= i < |due| && x in rest ==> Before(z, due[i], x)
      decreases limit - |due|
    {
      var id := First(rest);
      due := due + [id];
      rest := rest - {id};
    }
  }

  class RedisTaskStore {
    const cfg: Config
    var db: Db                        // the keyspace this store owns in Redis

    ghost predicate Consistent()
      reads this
    {
      Valid(cfg, db)
    }

    constructor (cfg: Config)
      ensures this.cfg == cfg && db == EMPTY && Consistent()
    {
      this.cfg := cfg;
      db := EMPTY;
      new;
      EmptyIsValid(cfg);
    }

    /** `pipe.execute()`: the queued commands of one MULTI block, all at once. */
    method Exec(b: Block)
      modifies this
      ensures db == Apply(old(db), b)
    {
      db := Apply(db, b);
    }

    method PurgeOldestTerminal() returns (purged: bool)
      modifies this
      ensures purged == (old(db.terminal) != map[])
      ensures db == if purged then PurgedOldest(old(db)) else old(db)
    {
      if db.terminal == map[] { return false; }
      var id := First(db.terminal);
      if id !in db.records || !Terminal(db.records[id].status) {
        db := db.(terminal := db.terminal - {id});
        return true;
      }
      Exec(PurgeBlock(id, db.records[id]));
      return true;
    }

    /** `create_or_replay`. */
    method CreateOrReplay(sub: Submission, who: Identity, trace: string, id: TaskId, now: Time) returns (reply: Reply)
      modifies this
      ensures (db, reply) == CreateRounds(cfg, NewRecord(sub, who, trace, id, now),
                                                  Bumped(old(db), ZERO.(submitted := 1)), RETRIES)
      ensures reply.Updated? ==> id in db.records && db.records[id].status == Queued && db.records[id].createdAt == now
                                 && id in db.staging && db.staging[id] == now / 1000
      ensures var was := old(db.counters);
              db.counters == was.(submitted := was.submitted + 1,
                                  replays := was.replays + (if reply.Replay? || reply.NotFound? then 1 else 0),
                                  rejected := was.rejected + if reply.Full? then 1 else 0)
      ensures old(Consistent()) && id !in old(db.records) ==> Consistent() && !reply.Refused?
    {
      var r := NewRecord(sub, who, trace, id, now);
      if Consistent() && id !in db.records { SubmissionKeepsValid(cfg, r, db); }
      InsertedSince(cfg, r, Bumped(db, ZERO.(submitted := 1)), RETRIES);
      hide CreateRounds, Valid;
      db := db.(counters := db.counters.Plus(ZERO.(submitted := 1)));
      reply := RetryCreate(r, RETRIES);
    }

    method RetryCreate(r: Record, rounds: nat) returns (reply: Reply)
      modifies this
      ensures (db, reply) == CreateRounds(cfg, r, old(db), rounds)
    {
      hide *;
      var left := rounds;
      while left > 0
        invariant CreateRounds(cfg, r, db, left) == CreateRounds(cfg, r, old(db), rounds)
      {
        var done;
        done, reply := TryCreate(r, left);
        if done { return; }
        left := left - 1;
      }
      NoRoundLeft(cfg, r, db);
      return Refused;
    }

    /** One round of the loop, with the given number of rounds left. */
    method TryCreate(r: Record, ghost rounds: nat) returns (done: bool, reply: Reply)
      requires rounds > 0
      modifies this
      ensures CreateRounds(cfg, r, old(db), rounds) == if done then (db, reply) else CreateRounds(cfg, r, db, rounds - 1)
    {
      reply := Refused;
      if |db.index| >= cfg.maxRecords {
        var purged := PurgeOldestTerminal();
        if !purged {
          db := db.(counters := db.counters.Plus(ZERO.(rejected := 1)));
          return true, Full;
        }
      }
      var scope := ScopeOf(r);
      if scope.Some? && scope.value in db.idem {
        var id := db.idem[scope.value];
        db := db.(counters := db.counters.Plus(ZERO.(replays := 1)));
        return true, if id in db.records then Replay(id) else NotFound;
      }
      if |db.index| >= cfg.maxRecords {
        StillFull(cfg, r, old(db), rounds);
        return false, Refused;
      }
      Exec(CreateBlock(r));
      return true, Updated(r);
    }

    /** `increment_metric`. */
    method IncrementMetric(delta: Counters)
      modifies this
      ensures db == Bumped(old(db), delta)
      ensures old(Consistent()) ==> Consistent()
    {
      if Consistent() { OutboxIrrelevant(cfg, db, db.outbox, db.counters.Plus(delta)); }
      db := db.(counters := db.counters.Plus(delta));
    }

    /** `acknowledge_outbox`. */
    method AcknowledgeOutbox(m: Member)
      modifies this
      ensures db == old(db).(outbox := old(db).outbox - {m})
      ensures old(Consistent()) ==> Consistent()
    {
      if Consistent() { OutboxIrrelevant(cfg, db, db.outbox - {m}, db.counters); }
      db := db.(outbox := db.outbox - {m});
    }

    /** `increment_audit`. */
    method IncrementAudit(id: TaskId, now: Time) returns (reply: Reply)
      modifies this
      ensures (db, reply) == UpdatedIn(CountAuditOp(id, now), old(db))
      ensures IsAtomic(cfg, CountAuditOp(id, now), old(db), (db, reply))
      ensures old(Consistent()) ==> Consistent()
    {
      hide IsAtomic, Valid;
      UpdatedIsAtomic(cfg, CountAuditOp(id, now), db);
      UpdatedKeepsValid(cfg, CountAuditOp(id, now), db);
      if id !in db.records { return NotFound; }
      var r := db.records[id];
      var u := r.(auditEvents := r.auditEvents + 1, updatedAt := now);
      Exec(NoWrites(id, r.pool).(record := SetRecord(u)));
      return Updated(u);
    }

    /** `update` with an expected worker and a new attempt count. */
    method SetAttempts(id: TaskId, worker: ClientId, attempts: nat, now: Time) returns (reply: Reply)
      modifies this
      ensures (db, reply) == UpdatedIn(SetAttemptsOp(id, worker, attempts, now), old(db))
      ensures IsAtomic(cfg, SetAttemptsOp(id, worker, attempts, now), old(db), (db, reply))
      ensures old(Consistent()) ==> Consistent()
    {
      hide IsAtomic, Valid;
      UpdatedIsAtomic(cfg, SetAttemptsOp(id, worker, attempts, now), db);
      UpdatedKeepsValid(cfg, SetAttemptsOp(id, worker, attempts, now), db);
      if id !in db.records { return NotFound; }
      var r := db.records[id];
      if r.holder != Some(worker) { return Refused; }
      var u := r.(attempts := attempts, updatedAt := now);
      Exec(NoWrites(id, r.pool).(record := SetRecord(u)));
      return Updated(u);
    }

    method Activate(id: TaskId, now: Time) returns (reply: Reply)
      modifies this
      ensures (db, reply) == Activated(cfg, id, now, old(db))
      ensures id in old(db.records) ==> IsAtomic(cfg, ActivateOp(id, old(db.records)[id].pool, now), old(db), (db, reply))
      ensures old(Consistent()) ==> Consistent()
    {
      hide IsAtomic, Valid;
      ghost var start := db;
      if Consistent() { ActivatedKeepsValid(cfg, id, now, db); }
      reply := ActivateNow(id, now);
      if id in start.records { ActivatedIsAtomic(cfg, id, now, start); }
    }

    method ActivateNow(id: TaskId, now: Time) returns (reply: Reply)
      modifies this
      ensures (db, reply) == Activated(cfg, id, now, old(db))
    {
      if id !in db.records { return NotFound; }
      var r := db.records[id];
      var p := r.pool;
      if !r.status.Queued? { return Refused; }
      if id in db.queues.At(p) || id in db.leases.At(p) {
        Exec(NoWrites(id, p).(staging := Remove));
        return Unchanged(r);
      }
      if |db.queues.At(p)| + |db.leases.At(p)| >= cfg.Room(p) { return Full; }
      db := db.(sequence := db.sequence + 1);
      Exec(ActivateBlock(id, r, db.sequence, now));
      return Unchanged(r);
    }

    method Reject(id: TaskId, reason: string, detail: string, auditFailed: bool, now: Time) returns (reply: Reply)
      modifies this
      ensures (db, reply) == RejectedIn(id, reason, detail, auditFailed, now, old(db))
      ensures IsAtomic(cfg, RejectOp(id, reason, detail, auditFailed, now), old(db), (db, reply))
      ensures old(Consistent()) ==> Consistent()
    {
      hide IsAtomic, Valid;
      RejectedIsAtomic(cfg, RejectOp(id, reason, detail, auditFailed, now), db);
      RejectedKeepsValid(cfg, RejectOp(id, reason, detail, auditFailed, now), db);
      if id !in db.records { return NotFound; }
      var r := db.records[id];
      if Terminal(r.status) { return Unchanged(r); }
      var u := RejectedRecord(r, reason, detail, now);
      Exec(RejectBlock(id, u, auditFailed, now));
      return Updated(u);
    }

    method ClaimNext(pool: Pool, worker: ClientId, now: Time) returns (reply: Reply)
      modifies this
      ensures (db, reply) == ClaimRounds(cfg, pool, worker, now, old(db), RETRIES)
      ensures old(Consistent()) ==> Consistent() && (reply.NoTask? || reply.Updated?)
      ensures old(Consistent()) ==> IsAtomic(cfg, ClaimOp(pool, worker, now), old(db), (db, reply))
    {
      hide IsAtomic, Valid, ClaimRounds;
      if Consistent() {
        ClaimOnValid(cfg, pool, worker, now, db, RETRIES);
        ClaimOnValidIsAtomic(cfg, pool, worker, now, db, RETRIES);
      }
      reply := RetryClaim(pool, worker, now);
    }

    method RetryClaim(pool: Pool, worker: ClientId, now: Time) returns (reply: Reply)
      modifies this
      ensures (db, reply) == ClaimRounds(cfg, pool, worker, now, old(db), RETRIES)
    {
      var round := 0;
      while round < RETRIES
        invariant round <= RETRIES
        invariant ClaimRounds(cfg, pool, worker, now, db, RETRIES - round)
                  == ClaimRounds(cfg, pool, worker, now, old(db), RETRIES)
      {
        round := round + 1;
        if db.queues.At(pool) == map[] { return NoTask; }
        var id := First(db.queues.At(pool));
        if id !in db.records { return NotFound; }
        var r := db.records[id];
        if !r.status.Queued? {
          Exec(NoWrites(id, pool).(queue := Remove));
        } else {
          var u := Claimed(cfg, r, worker, now);
          Exec(ClaimBlock(cfg, pool, id, u, now));
          return Updated(u);
        }
      }
      return Refused;
    }

    method Heartbeat(id: TaskId, worker: ClientId, now: Time) returns (reply: Reply)
      modifies this
      ensures (db, reply) == Extended(cfg, id, worker, now, old(db))
      ensures IsAtomic(cfg, HeartbeatOp(id, worker, now), old(db), (db, reply))
      ensures old(Consistent()) ==> Consistent()
    {
      hide IsAtomic, Valid;
      HeartbeatIsAtomic(cfg, id, worker, now, db);
      HeartbeatKeepsValid(cfg, id, worker, now, db);
      if id !in db.records { return NotFound; }
      var r := db.records[id];
      if !r.status.Running? || r.holder != Some(worker) { return Flag(false); }
      var expires := now + cfg.leaseMicros;
      Exec(NoWrites(id, r.pool).(record := SetRecord(r.(leaseExpires := Some(expires), updatedAt := now)),
                                 lease := Add(Millis(expires))));
      return Flag(true);
    }

    method RecoverOne(pool: Pool, id: TaskId, nowMs: int, now: Time) returns (reply: Reply)
      modifies this
      ensures (db, reply) == RecoveredOne(pool, id, nowMs, now, old(db))
      ensures IsAtomic(cfg, RecoverOp(pool, id, nowMs, now), old(db), (db, reply))
      ensures old(Consistent()) ==> Consistent()
    {
      hide IsAtomic, Valid;
      RecoveredIsAtomic(cfg, pool, id, nowMs, now, db);
      if Consistent() { RecoveredKeepsValid(cfg, pool, id, nowMs, now, db); }
      if id !in db.leases.At(pool) || db.leases.At(pool)[id] > nowMs { return Flag(false); }
      if id !in db.records { return NotFound; }
      var r := db.records[id];
      if !r.status.Running? {
        Exec(NoWrites(id, pool).(lease := Remove));
        return Flag(false);
      }
      db := db.(sequence := db.sequence + 1);
      Exec(RecoverBlock(pool, id, Recovered(r, now), db.sequence, now));
      return Flag(true);
    }

    method Finish(id: TaskId, worker: ClientId, status: Status, result: Option<string>, code: Option<string>,
                  message: Option<string>, auditFailed: bool, now: Time)
      returns (reply: Reply)
      modifies this
      ensures (db, reply) == FinishedIn(id, worker, status, result, code, message, auditFailed, now, old(db))
      ensures IsAtomic(cfg, FinishOp(id, worker, status, result, code, message, auditFailed, now), old(db), (db, reply))
      ensures old(Consistent()) ==> Consistent()
    {
      hide IsAtomic, Valid;
      FinishedIsAtomic(cfg, FinishOp(id, worker, status, result, code, message, auditFailed, now), db);
      FinishedKeepsValid(cfg, FinishOp(id, worker, status, result, code, message, auditFailed, now), db);
      if !status.Succeeded? && !status.Failed? { return Refused; }
      if id !in db.records { return NotFound; }
      var r := db.records[id];
      if Terminal(r.status) { return Unchanged(r); }
      if !r.status.Running? || r.holder != Some(worker) { return Refused; }
      var u := Finished(r, status, result, code, message, now);
      Exec(FinishBlock(id, u, auditFailed, now));
      return Updated(u);
    }

    /** `recover_expired` for one pool, after the leases `done` of other pools; the
        clock is read once for each recovery. */
    method RecoverPool(pool: Pool, nowMs: int, limit: nat, at: nat -> Time, done: seq<Lease>, ghost start: Db)
      returns (ids: seq<TaskId>, recovered: nat)
      requires Valid(cfg, start) && Expired(start, done, nowMs) && db == RecoverAll(done, nowMs, at, start)
      requires forall l :: l in done ==> l.pool != pool
      modifies this
      ensures IsDue(start.leases.At(pool), nowMs, limit, ids) && recovered == |ids|
      ensures Expired(start, done + Tag(pool, ids), nowMs)
      ensures db == RecoverAll(done + Tag(pool, ids), nowMs, at, start)
    {
      hide *;
      LeasesUntilNow(cfg, start, done, pool, nowMs, at);
      ids := Due(db.leases.At(pool), nowMs, limit);
      ghost var due := done + Tag(pool, ids);
      DueAreExpired(cfg, start, done, pool, ids, nowMs, limit);
      assert due[..|done|] == done;
      recovered := 0;
      for i := 0 to |ids|
        invariant recovered == i && db == RecoverAll(due[..|done| + i], nowMs, at, start)
      {
        assert due[|done| + i] == Lease(pool, ids[i]);
        RecoversNext(cfg, start, due, |done| + i, nowMs, at);
        var reply := RecoverOne(pool, ids[i], nowMs, at(|done| + i));
        if reply == Flag(true) { recovered := recovered + 1; }
      }
      assert due[..|done| + |ids|] == due;
    }

    /** `recover_expired`: the due leases of every pool, in order, and nothing else. */
    method RecoverExpired(nowMs: int, limit: nat, at: nat -> Time) returns (recovered: nat, due: PerPool<seq<TaskId>>)
      requires Consistent()
      modifies this
      ensures Consistent()
      ensures IsDue(old(db.leases.security), nowMs, limit, due.security)
      ensures IsDue(old(db.leases.agent), nowMs, limit, due.agent)
      ensures IsDue(old(db.leases.evaluation), nowMs, limit, due.evaluation)
      ensures recovered == |Listed(due)| && db == RecoverAll(Listed(due), nowMs, at, old(db))
      ensures AllRequeued(old(db), db, Listed(due), at)
    {
      hide Valid, IsDue, AllRequeued, RecoveredOne, RecoverAll, Expired;
      ghost var start := db;
      NothingExpired(start, nowMs, at);
      var security, n1 := RecoverPool(SecurityPool, nowMs, limit, at, [], start);
      var done := [] + Tag(SecurityPool, security);
      var agent, n2 := RecoverPool(AgentPool, nowMs, limit, at, done, start);
      done := done + Tag(AgentPool, agent);
      var evaluation, n3 := RecoverPool(EvaluationPool, nowMs, limit, at, done, start);
      recovered, due := n1 + n2 + n3, PerPool(security, agent, evaluation);
      assert done + Tag(EvaluationPool, evaluation) == Listed(due);
      ExpiredAreRequeued(cfg, Listed(due), nowMs, at, start);
    }

    /** One turn of `reconcile_staging`. */
    method ReconcileOne(id: TaskId, now: Time) returns (moved: bool)
      modifies this
      ensures (db, moved) == ReconciledOne(cfg, id, now, old(db))
    {
      hide Activated, RejectedIn, IsAtomic, Valid;
      if id !in db.records {
        db := db.(staging := db.staging - {id});
        return false;
      }
      var reply;
      if db.records[id].auditEvents > 0 {
        reply := Activate(id, now);
        return !reply.Full?;
      }
      reply := Reject(id, "UnconfirmedSubmission", UNCONFIRMED, true, now);
      return true;
    }

    /** `reconcile_staging`: staged tasks past the cutoff are rejected when no audit
        confirmed them and queued otherwise; a full pool leaves its task staged and
        is not counted. */
    method ReconcileStaging(cutoff: int, limit: nat, at: nat -> Time) returns (reconciled: nat, due: seq<TaskId>)
      requires Consistent()
      modifies this
      ensures Consistent() && IsDue(old(db.staging), cutoff, limit, due)
      ensures (db, reconciled) == ReconcileAll(cfg, due, at, old(db)) && reconciled == Left(db, due)
      ensures StagingReconciled(cfg, old(db), db, due, at)
    {
      hide Valid, ReconciledOne, StagingReconciled, Left;
      ghost var start := db;
      due := Due(db.staging, cutoff, limit);
      reconciled := 0;
      for i := 0 to |due|
        invariant (db, reconciled) == ReconcileAll(cfg, due[..i], at, start)
      {
        assert due[..i + 1][..i] == due[..i];
        var moved := ReconcileOne(due[i], at(i));
        if moved { reconciled := reconciled + 1; }
      }
      assert due[..|due|] == due;
      StagedAreReconciled(cfg, due, at, start);
    }
  }
}
