/** What each call of the store does to the database when nobody interferes, that
    these are the atomic operations of StoreTransactions, and that they keep the
    store consistent.  Nothing is assumed about the indexes unless a contract says
    so, so the branches that repair a broken index are covered too. */
module StoreCalls {
  import opened TaskContracts
  import opened StoreState
  import opened StoreTransactions
  import opened StoreInvariant
  import opened StorePreservation

  const RETRIES: nat := 64
  const UNCONFIRMED := "enqueue audit not confirmed"

  ghost function Outcome(d: Decision, db: Db): (Db, Reply) {
    match d
    case Exec(b, reply) => (Apply(db, b), reply)
    case Give(answer) => (db, answer)
    case _ => (db, Again)
  }

  function Bumped(db: Db, d: Counters): Db {
    db.(counters := db.counters.Plus(d))
  }

  /** INCR on the sequence key. */
  function Drawn(db: Db): Db {
    db.(sequence := db.sequence + 1)
  }

  /** `activate` without interference; a drawn sequence number is used at once. */
  function Activated(cfg: Config, id: TaskId, now: Time, db: Db): (Db, Reply) {
    if id !in db.records then (db, NotFound)
    else
      var r := db.records[id];
      var queue, lease := db.queues.At(r.pool), db.leases.At(r.pool);
      if !r.status.Queued? then (db, Refused)
      else if id in queue || id in lease then (Apply(db, NoWrites(id, r.pool).(staging := Remove)), Unchanged(r))
      else if |queue| + |lease| >= cfg.Room(r.pool) then (db, Full)
      else (Apply(Drawn(db), ActivateBlock(id, r, db.sequence + 1, now)), Unchanged(r))
  }

  /** `_recover_one` without interference. */
  function RecoveredOne(pool: Pool, id: TaskId, nowMs: int, now: Time, db: Db): (Db, Reply) {
    var lease := db.leases.At(pool);
    if id !in lease || lease[id] > nowMs then (db, Flag(false))
    else if id !in db.records then (db, NotFound)
    else if !db.records[id].status.Running? then (Apply(db, NoWrites(id, pool).(lease := Remove)), Flag(false))
    else (Apply(Drawn(db), RecoverBlock(pool, id, Recovered(db.records[id], now), db.sequence + 1, now)), Flag(true))
  }

  /** `reject` without interference. */
  function RejectedIn(id: TaskId, reason: string, detail: string, auditFailed: bool, now: Time, db: Db): (Db, Reply) {
    if id !in db.records then (db, NotFound)
    else if Terminal(db.records[id].status) then (db, Unchanged(db.records[id]))
    else
      var u := RejectedRecord(db.records[id], reason, detail, now);
      (Apply(db, RejectBlock(id, u, auditFailed, now)), Updated(u))
  }

  /** `heartbeat` without interference. */
  function Extended(cfg: Config, id: TaskId, worker: ClientId, now: Time, db: Db): (Db, Reply) {
    if id !in db.records then (db, NotFound)
    else
      var r := db.records[id];
      if !r.status.Running? || r.holder != Some(worker) then (db, Flag(false))
      else
        var expires := now + cfg.leaseMicros;
        (Apply(db, NoWrites(id, r.pool).(record := SetRecord(r.(leaseExpires := Some(expires), updatedAt := now)),
                                         lease := Add(Millis(expires)))), Flag(true))
  }

  /** `finish` without interference. */
  function FinishedIn(id: TaskId, worker: ClientId, status: Status, result: Option<string>, code: Option<string>,
                      message: Option<string>, auditFailed: bool, now: Time, db: Db): (Db, Reply)
  {
    if !status.Succeeded? && !status.Failed? then (db, Refused)
    else if id !in db.records then (db, NotFound)
    else
      var r := db.records[id];
      if Terminal(r.status) then (db, Unchanged(r))
      else if !r.status.Running? || r.holder != Some(worker) then (db, Refused)
      else
        var u := Finished(r, status, result, code, message, now);
        (Apply(db, FinishBlock(id, u, auditFailed, now)), Updated(u))
  }

  /** `_purge_oldest_terminal` on a database with terminal tasks. */
  ghost function PurgedOldest(db: Db): Db
    requires db.terminal != map[]
  {
    var id := Head(db.terminal);
    if id in db.records && Terminal(db.records[id].status) then Apply(db, PurgeBlock(id, db.records[id]))
    else db.(terminal := db.terminal - {id})
  }

  /** The loop of `create_or_replay` for the new record r with a number of rounds left. */
  ghost function CreateRounds(cfg: Config, r: Record, db: Db, rounds: nat): (Db, Reply)
    decreases rounds
  {
    if rounds == 0 then (db, Refused)
    else if |db.index| >= cfg.maxRecords && db.terminal == map[] then (Bumped(db, ZERO.(rejected := 1)), Full)
    else
      var db1 := if |db.index| >= cfg.maxRecords then PurgedOldest(db) else db;
      if ScopeOf(r).Some? && ScopeOf(r).value in db1.idem then
        var id := db1.idem[ScopeOf(r).value];
        (Bumped(db1, ZERO.(replays := 1)), if id in db1.records then Replay(id) else NotFound)
      else if |db1.index| >= cfg.maxRecords then CreateRounds(cfg, r, db1, rounds - 1)
      else (Apply(db1, CreateBlock(r)), Updated(r))
  }

  lemma NoRoundLeft(cfg: Config, r: Record, db: Db)
    ensures CreateRounds(cfg, r, db, 0) == (db, Refused)
  {
  }

  /** A round that purged a task and found no room is followed by another one. */
  lemma StillFull(cfg: Config, r: Record, db: Db, rounds: nat)
    requires rounds > 0 && |db.index| >= cfg.maxRecords && db.terminal != map[]
    requires ScopeOf(r).Some? ==> ScopeOf(r).value !in PurgedOldest(db).idem
    requires |PurgedOldest(db).index| >= cfg.maxRecords
    ensures CreateRounds(cfg, r, db, rounds) == CreateRounds(cfg, r, PurgedOldest(db), rounds - 1)
  {
  }

  lemma PurgeCountsNothing(db: Db)
    requires db.terminal != map[]
    ensures PurgedOldest(db).counters == db.counters
  {
  }

  /** A record that is inserted is stored as submitted and listed and staged under the
      millisecond of its creation; a replay and a refusal for want of room are counted. */
  ghost predicate Inserted(r: Record, db: Db, db1: Db, reply: Reply) {
    && (reply.Updated? ==>
          && reply.record == r && r.id in db1.records && db1.records[r.id] == r
          && r.id in db1.index && db1.index[r.id] == r.createdAt / 1000
          && r.id in db1.staging && db1.staging[r.id] == r.createdAt / 1000)
    && db1.counters == db.counters.(
         replays := db.counters.replays + (if reply.Replay? || reply.NotFound? then 1 else 0),
         rejected := db.counters.rejected + if reply.Full? then 1 else 0)
  }

  /** No round left, or no room to make. */
  lemma NothingInserted(cfg: Config, r: Record, db: Db, rounds: nat)
    requires rounds == 0 || (|db.index| >= cfg.maxRecords && db.terminal == map[])
    ensures Inserted(r, db, CreateRounds(cfg, r, db, rounds).0, CreateRounds(cfg, r, db, rounds).1)
  {
    hide Apply, CreateBlock, PurgedOldest;
  }

  /** A round that found room. */
  lemma RoundInserts(cfg: Config, r: Record, db: Db, rounds: nat)
    requires rounds > 0 && |db.index| < cfg.maxRecords
    ensures Inserted(r, db, CreateRounds(cfg, r, db, rounds).0, CreateRounds(cfg, r, db, rounds).1)
  {
    InsertedNow(db, r);
    hide Apply, CreateBlock, PurgedOldest;
  }

  /** A round that made room and used it. */
  lemma PurgingRoundInserts(cfg: Config, r: Record, db: Db, rounds: nat)
    requires rounds > 0 && |db.index| >= cfg.maxRecords && db.terminal != map[]
    requires (ScopeOf(r).Some? && ScopeOf(r).value in PurgedOldest(db).idem) || |PurgedOldest(db).index| < cfg.maxRecords
    ensures Inserted(r, db, CreateRounds(cfg, r, db, rounds).0, CreateRounds(cfg, r, db, rounds).1)
  {
    hide PurgeBlock, Head;
    PurgeCountsNothing(db);
    InsertedNow(PurgedOldest(db), r);
    hide Apply, CreateBlock, PurgedOldest;
  }

  lemma {:induction false} InsertedSince(cfg: Config, r: Record, db: Db, rounds: nat)
    ensures Inserted(r, db, CreateRounds(cfg, r, db, rounds).0, CreateRounds(cfg, r, db, rounds).1)
    decreases rounds
  {
    hide CreateRounds, PurgedOldest;
    if rounds == 0 || (|db.index| >= cfg.maxRecords && db.terminal == map[]) {
      NothingInserted(cfg, r, db, rounds);
    } else if |db.index| < cfg.maxRecords {
      RoundInserts(cfg, r, db, rounds);
    } else if (ScopeOf(r).Some? && ScopeOf(r).value in PurgedOldest(db).idem) || |PurgedOldest(db).index| < cfg.maxRecords {
      PurgingRoundInserts(cfg, r, db, rounds);
    } else {
      StillFull(cfg, r, db, rounds);
      PurgeCountsNothing(db);
      InsertedSince(cfg, r, PurgedOldest(db), rounds - 1);
    }
  }

  lemma InsertedNow(db: Db, r: Record)
    ensures var db1 := Apply(db, CreateBlock(r));
            && db1.counters == db.counters && r.id in db1.records && db1.records[r.id] == r
            && r.id in db1.index && db1.index[r.id] == r.createdAt / 1000
            && r.id in db1.staging && db1.staging[r.id] == r.createdAt / 1000
  {
  }

  /** The loop of `claim_next` with a number of rounds left. */
  ghost function ClaimRounds(cfg: Config, pool: Pool, worker: ClientId, now: Time, db: Db, rounds: nat): (Db, Reply)
    decreases rounds
  {
    var queue := db.queues.At(pool);
    if rounds == 0 then (db, Refused)
    else if queue == map[] then (db, NoTask)
    else
      var id := Head(queue);
      if id !in db.records then (db, NotFound)
      else if !db.records[id].status.Queued? then
        ClaimRounds(cfg, pool, worker, now, Apply(db, NoWrites(id, pool).(queue := Remove)), rounds - 1)
      else
        var u := Claimed(cfg, db.records[id], worker, now);
        (Apply(db, ClaimBlock(cfg, pool, id, u, now)), Updated(u))
  }

  /** A call without interference came out as the atomic operation does; a sequence
      number is drawn when the operation asks for one. */
  ghost predicate IsAtomic(cfg: Config, op: Op, db: Db, outcome: (Db, Reply)) {
    var d := Atomic(cfg, op, db, None);
    if d.Draw? then outcome == Outcome(Atomic(cfg, op, Drawn(db), Some(db.sequence + 1)), Drawn(db))
    else outcome == Outcome(d, db)
  }

  // ----- These calls are the atomic operations, and keep the invariant -----

  lemma SequenceIrrelevant(cfg: Config, db: Db)
    requires Valid(cfg, db)
    ensures Valid(cfg, Drawn(db))
  {
    forall id: TaskId ensures IdOk(Drawn(db), id) {
      assert IdOk(db, id);
      if id in db.records { assert Placed(Drawn(db), id, db.records[id]) <==> Placed(db, id, db.records[id]); }
    }
  }

  lemma DecisionKeepsValid(cfg: Config, op: Op, db: Db, t: Option<nat>, d: Decision)
    requires Valid(cfg, db) && Admissible(op, db) && d == Atomic(cfg, op, db, t)
    ensures Valid(cfg, Outcome(d, db).0)
  {
    if d.Exec? { CommitKeepsValid(cfg, op, db, t, d.block, d.reply); }
  }

  lemma AtomicKeepsValid(cfg: Config, op: Op, db: Db, outcome: (Db, Reply))
    requires Valid(cfg, db) && Admissible(op, db) && Admissible(op, Drawn(db)) && IsAtomic(cfg, op, db, outcome)
    ensures Valid(cfg, outcome.0)
  {
    var d := Atomic(cfg, op, db, None);
    if d.Draw? {
      SequenceIrrelevant(cfg, db);
      DecisionKeepsValid(cfg, op, Drawn(db), Some(db.sequence + 1), Atomic(cfg, op, Drawn(db), Some(db.sequence + 1)));
    } else {
      DecisionKeepsValid(cfg, op, db, None, d);
    }
  }

  /** The decision of the recovery program in terms of the database. */
  lemma RecoverDecides(cfg: Config, op: Op, db: Db, t: Option<nat>)
    requires op.RecoverOp?
    ensures var lease := db.leases.At(op.pool);
            Atomic(cfg, op, db, t) ==
              if op.id !in lease || lease[op.id] > op.nowMs then Give(Flag(false))
              else if op.id !in db.records then Give(NotFound)
              else if !db.records[op.id].status.Running? then Exec(NoWrites(op.id, op.pool).(lease := Remove), Flag(false))
              else if t.None? then Draw
              else Exec(RecoverBlock(op.pool, op.id, Recovered(db.records[op.id], op.now), t.value, op.now), Flag(true))
  {
  }

  lemma RecoveredIsAtomic(cfg: Config, pool: Pool, id: TaskId, nowMs: int, now: Time, db: Db)
    ensures IsAtomic(cfg, RecoverOp(pool, id, nowMs, now), db, RecoveredOne(pool, id, nowMs, now, db))
  {
    RecoverDecides(cfg, RecoverOp(pool, id, nowMs, now), db, None);
    RecoverDecides(cfg, RecoverOp(pool, id, nowMs, now), Drawn(db), Some(db.sequence + 1));
  }

  lemma RecoveredKeepsValid(cfg: Config, pool: Pool, id: TaskId, nowMs: int, now: Time, db: Db)
    requires Valid(cfg, db)
    ensures Valid(cfg, RecoveredOne(pool, id, nowMs, now, db).0)
  {
    RecoveredIsAtomic(cfg, pool, id, nowMs, now, db);
    AtomicKeepsValid(cfg, RecoverOp(pool, id, nowMs, now), db, RecoveredOne(pool, id, nowMs, now, db));
  }

  /** `update` without interference: only an attempt count is fenced. */
  function UpdatedIn(op: Op, db: Db): (Db, Reply)
    requires op.CountAuditOp? || op.SetAttemptsOp?
  {
    if op.id !in db.records then (db, NotFound)
    else
      var r := db.records[op.id];
      if op.SetAttemptsOp? && r.holder != Some(op.worker) then (db, Refused)
      else
        var u := UpdatedRecord(op, r);
        (Apply(db, NoWrites(op.id, r.pool).(record := SetRecord(u))), Updated(u))
  }

  lemma UpdatedIsAtomic(cfg: Config, op: Op, db: Db)
    requires op.CountAuditOp? || op.SetAttemptsOp?
    ensures IsAtomic(cfg, op, db, UpdatedIn(op, db))
  {
    var d := Atomic(cfg, op, db, None);
    assert d == if op.id !in db.records then Give(NotFound)
                else if op.SetAttemptsOp? && db.records[op.id].holder != Some(op.worker) then Give(Refused)
                else Exec(NoWrites(op.id, db.records[op.id].pool).(record := SetRecord(UpdatedRecord(op, db.records[op.id]))),
                          Updated(UpdatedRecord(op, db.records[op.id])));
  }

  lemma UpdatedKeepsValid(cfg: Config, op: Op, db: Db)
    requires op.CountAuditOp? || op.SetAttemptsOp?
    ensures Valid(cfg, db) ==> Valid(cfg, UpdatedIn(op, db).0)
  {
    UpdatedIsAtomic(cfg, op, db);
    if Valid(cfg, db) { AtomicKeepsValid(cfg, op, db, UpdatedIn(op, db)); }
  }

  lemma RejectedIsAtomic(cfg: Config, op: Op, db: Db)
    requires op.RejectOp?
    ensures IsAtomic(cfg, op, db, RejectedIn(op.id, op.reason, op.detail, op.auditFailed, op.now, db))
  {
  }

  lemma RejectedKeepsValid(cfg: Config, op: Op, db: Db)
    requires op.RejectOp?
    ensures Valid(cfg, db) ==> Valid(cfg, RejectedIn(op.id, op.reason, op.detail, op.auditFailed, op.now, db).0)
  {
    RejectedIsAtomic(cfg, op, db);
    if Valid(cfg, db) {
      AtomicKeepsValid(cfg, op, db, RejectedIn(op.id, op.reason, op.detail, op.auditFailed, op.now, db));
    }
  }

  lemma HeartbeatIsAtomic(cfg: Config, id: TaskId, worker: ClientId, now: Time, db: Db)
    ensures IsAtomic(cfg, HeartbeatOp(id, worker, now), db, Extended(cfg, id, worker, now, db))
  {
  }

  lemma HeartbeatKeepsValid(cfg: Config, id: TaskId, worker: ClientId, now: Time, db: Db)
    ensures Valid(cfg, db) ==> Valid(cfg, Extended(cfg, id, worker, now, db).0)
  {
    HeartbeatIsAtomic(cfg, id, worker, now, db);
    if Valid(cfg, db) { AtomicKeepsValid(cfg, HeartbeatOp(id, worker, now), db, Extended(cfg, id, worker, now, db)); }
  }

  lemma FinishedIsAtomic(cfg: Config, op: Op, db: Db)
    requires op.FinishOp?
    ensures IsAtomic(cfg, op, db, FinishedIn(op.id, op.worker, op.status, op.result, op.code, op.message, op.auditFailed, op.now, db))
  {
  }

  lemma FinishedKeepsValid(cfg: Config, op: Op, db: Db)
    requires op.FinishOp?
    ensures Valid(cfg, db) ==>
              Valid(cfg, FinishedIn(op.id, op.worker, op.status, op.result, op.code, op.message, op.auditFailed, op.now, db).0)
  {
    FinishedIsAtomic(cfg, op, db);
    if Valid(cfg, db) {
      AtomicKeepsValid(cfg, op, db, FinishedIn(op.id, op.worker, op.status, op.result, op.code, op.message, op.auditFailed, op.now, db));
    }
  }

  lemma PoolsUntouched(db: Db, p: Pool, id: TaskId)
    ensures WritePool(db.queues, p, id, Keep) == db.queues
    ensures WritePool(db.leases, p, id, Keep) == db.leases
    ensures WritePool(db.deadPools, p, id, Keep) == db.deadPools
  {
  }

  /** A round of the claim loop is the atomic claim, repaired and repeated while the
      head of the queue is not a queued task. */
  lemma ClaimRoundIsAtomic(cfg: Config, pool: Pool, worker: ClientId, now: Time, db: Db, rounds: nat)
    requires rounds > 0
    ensures var d := Atomic(cfg, ClaimOp(pool, worker, now), db, None);
            ClaimRounds(cfg, pool, worker, now, db, rounds)
            == if d.Exec? && d.reply.Again? then ClaimRounds(cfg, pool, worker, now, Apply(db, d.block), rounds - 1)
               else Outcome(d, db)
  {
  }

  /** On a consistent store one round decides, and the head of the queue is live. */
  lemma ClaimOnValid(cfg: Config, pool: Pool, worker: ClientId, now: Time, db: Db, rounds: nat)
    requires Valid(cfg, db) && rounds > 0
    ensures var (db1, reply) := ClaimRounds(cfg, pool, worker, now, db, rounds);
            Valid(cfg, db1) && (reply.NoTask? || reply.Updated?)
  {
    if db.queues.At(pool) != map[] {
      var id := Head(db.queues.At(pool));
      assert IdOk(db, id);
      InQueueFacts(db, id, pool);
      ClaimPlaces(cfg, db, id, worker, now);
      BlockKeepsValid(cfg, db, ClaimBlock(cfg, pool, id, Claimed(cfg, db.records[id], worker, now), now));
    }
  }

  lemma ClaimOnValidIsAtomic(cfg: Config, pool: Pool, worker: ClientId, now: Time, db: Db, rounds: nat)
    requires Valid(cfg, db) && rounds > 0
    ensures IsAtomic(cfg, ClaimOp(pool, worker, now), db, ClaimRounds(cfg, pool, worker, now, db, rounds))
  {
    hide Atomic, ClaimRounds, Valid;
    var op := ClaimOp(pool, worker, now);
    var d := Atomic(cfg, op, db, None);
    ClaimRoundIsAtomic(cfg, pool, worker, now, db, rounds);
    ClaimNeverDraws(cfg, op, db);
    if d.Exec? { ClaimCommit(cfg, op, db, None, d.block, d.reply); }
  }

  lemma ClaimNeverDraws(cfg: Config, op: Op, db: Db)
    requires op.ClaimOp?
    ensures !Atomic(cfg, op, db, None).Draw?
  {
  }

  /** `activate` is the atomic activation, with the number it draws. */
  lemma ActivatedIsAtomic(cfg: Config, id: TaskId, now: Time, db: Db)
    requires id in db.records
    ensures IsAtomic(cfg, ActivateOp(id, db.records[id].pool, now), db, Activated(cfg, id, now, db))
  {
    hide Atomic, Score, Apply, ActivateBlock;
    var op := ActivateOp(id, db.records[id].pool, now);
    ActivateDecides(cfg, op, db, None);
    ActivateDecides(cfg, op, Drawn(db), Some(db.sequence + 1));
  }

  /** The decision of the activation program in terms of the database. */
  lemma ActivateDecides(cfg: Config, op: Op, db: Db, t: Option<nat>)
    requires op.ActivateOp? && op.id in db.records && db.records[op.id].pool == op.pool
    ensures var r, queue, lease := db.records[op.id], db.queues.At(op.pool), db.leases.At(op.pool);
            Atomic(cfg, op, db, t) ==
              if !r.status.Queued? then Give(Refused)
              else if op.id in queue || op.id in lease then Exec(NoWrites(op.id, r.pool).(staging := Remove), Unchanged(r))
              else if |queue| + |lease| >= cfg.Room(op.pool) then Give(Full)
              else if t.None? then Draw
              else Exec(ActivateBlock(op.id, r, t.value, op.now), Unchanged(r))
  {
  }

  lemma ActivatedKeepsValid(cfg: Config, id: TaskId, now: Time, db: Db)
    requires Valid(cfg, db)
    ensures Valid(cfg, Activated(cfg, id, now, db).0)
  {
    if id in db.records {
      hide Valid, IsAtomic, Activated;
      ActivatedIsAtomic(cfg, id, now, db);
      AtomicKeepsValid(cfg, ActivateOp(id, db.records[id].pool, now), db, Activated(cfg, id, now, db));
    }
  }

  lemma OldestIsTerminal(db: Db)
    requires IndexesOk(db) && db.terminal != map[]
    ensures var id := Head(db.terminal);
            id in db.records && Terminal(db.records[id].status) && id in db.index
  {
    assert IdOk(db, Head(db.terminal));
  }

  lemma PurgeFreesOne(cfg: Config, db: Db)
    requires Valid(cfg, db) && db.terminal != map[]
    ensures var db1, id := PurgedOldest(db), Head(db.terminal);
            && Valid(cfg, db1) && id in db.records
            && db1.records == db.records - {id} && |db1.index| < |db.index|
            && (forall s :: s in db1.idem <==> s in db.idem && db.idem[s] != id)
            && (forall s :: s in db1.idem ==> db1.idem[s] == db.idem[s])
  {
    hide FieldsOk, Placed, Absent;
    var id := Head(db.terminal);
    OldestIsTerminal(db);
    PurgeKeepsValid(cfg, db, id);
    WriteSize(db.index, id, Remove);
    PurgeFreesScope(db, id);
  }

  lemma PurgeKeepsValid(cfg: Config, db: Db, id: TaskId)
    requires Valid(cfg, db) && id in db.records && Terminal(db.records[id].status)
    ensures Valid(cfg, Apply(db, PurgeBlock(id, db.records[id])))
  {
    assert IdOk(db, id);
    PurgePlaces(db, id);
    BlockKeepsValid(cfg, db, PurgeBlock(id, db.records[id]));
  }

  lemma PurgeFreesScope(db: Db, id: TaskId)
    requires IdemOk(db) && IdOk(db, id) && id in db.records
    ensures var idem := Apply(db, PurgeBlock(id, db.records[id])).idem;
            && (forall s :: s in idem <==> s in db.idem && db.idem[s] != id)
            && (forall s :: s in idem ==> idem[s] == db.idem[s])
  {
    var r := db.records[id];
    forall s | s in db.idem ensures db.idem[s] == id <==> ScopeOf(r) == Some(s) {
      if db.idem[s] == id { assert ScopeOf(db.records[db.idem[s]]) == Some(s); }
    }
  }

  /** The whole `create_or_replay` replays a live task exactly when it does not
      have to make room first, or makes room by purging a different task: at the
      record limit a replay can lose its own target, or be refused. */
  lemma ReplayExactlyUnlessRoomIsNeeded(cfg: Config, r: Record, db: Db, id: TaskId, rounds: nat)
    requires Valid(cfg, db) && rounds > 0 && id in db.records && r.id !in db.records
    requires ScopeOf(r).Some? && ScopeOf(db.records[id]) == ScopeOf(r)
    ensures CreateRounds(cfg, r, db, rounds).1 == Replay(id)
            <==> |db.index| < cfg.maxRecords || (db.terminal != map[] && Head(db.terminal) != id)
  {
    assert IdOk(db, id);
    if |db.index| >= cfg.maxRecords && db.terminal != map[] { PurgeFreesOne(cfg, db); }
  }

  // ----- Both failing sides are reached, at every record limit -----

  /** n records, all staged: a keyed submission under id 0, and others without a key. */
  ghost predicate Filled(cfg: Config, r0: Record, n: nat, db: Db) {
    && Valid(cfg, db) && |db.index| == n && db.terminal == map[]
    && (forall id: TaskId :: id in db.records <==> id < n) && (0 in db.records ==> db.records[0] == r0)
  }

  function Plain(r0: Record, id: TaskId): Record {
    r0.(id := id, key := None)
  }

  /** A record as `create_or_replay` makes it, under id 0. */
  predicate Submitted(r0: Record) {
    && r0.id == 0 && r0.status.Queued? && r0.pool == PoolOf(r0.kind) && r0.deliveryCount == r0.recoveredCount == 0
    && r0.holder.None? && r0.leaseExpires.None?
  }

  lemma FillOne(cfg: Config, r0: Record, db: Db, n: nat, r: Record) returns (db1: Db)
    requires Submitted(r0) && n < cfg.maxRecords && Filled(cfg, r0, n, db)
    requires r == if n == 0 then r0 else Plain(r0, n)
    requires n == 0 ==> db == EMPTY
    ensures Filled(cfg, r0, n + 1, db1)
  {
    assert IdOk(db, n);
    InsertKeepsValid(cfg, r, db);
    WriteSize(db.index, n, Add(Millis(r.createdAt)));
    hide Valid;
    db1 := Apply(db, CreateBlock(r));
  }

  lemma {:induction false} Fill(cfg: Config, r0: Record, n: nat) returns (db: Db)
    requires Submitted(r0) && n <= cfg.maxRecords
    ensures Filled(cfg, r0, n, db) && (n == 0 ==> db == EMPTY)
  {
    if n == 0 {
      db := EMPTY;
      EmptyIsValid(cfg);
    } else {
      db := Fill(cfg, r0, n - 1);
      db := FillOne(cfg, r0, db, n - 1, if n == 1 then r0 else Plain(r0, n - 1));
    }
  }

  /** While no task is terminal, a replay is refused although its task is live ... */
  lemma ALiveReplayIsRefused(cfg: Config, sub: Submission, who: Identity, trace: string, now: Time, rounds: nat)
    returns (db: Db, r: Record)
    requires cfg.maxRecords >= 1 && sub.key.Some? && rounds > 0
    ensures Valid(cfg, db) && |db.index| == cfg.maxRecords && 0 in db.records && r.id !in db.records
    ensures ScopeOf(r).Some? && ScopeOf(db.records[0]) == ScopeOf(r) && CreateRounds(cfg, r, db, rounds).1.Full?
  {
    r := NewRecord(sub, who, trace, cfg.maxRecords, now);
    db := Fill(cfg, NewRecord(sub, who, trace, 0, now), cfg.maxRecords);
  }

  /** ... and while its task is the oldest terminal one, the replay purges it and
      creates it anew. */
  lemma PurgedReplayIsCreatedAnew(cfg: Config, r: Record, db: Db, id: TaskId, rounds: nat)
    requires Valid(cfg, db) && |db.index| == cfg.maxRecords && id in db.records && r.id !in db.records && rounds > 0
    requires ScopeOf(r).Some? && ScopeOf(db.records[id]) == ScopeOf(r) && db.terminal != map[] && Head(db.terminal) == id
    ensures CreateRounds(cfg, r, db, rounds).1 == Updated(r) && id !in CreateRounds(cfg, r, db, rounds).0.records
  {
    assert IdOk(db, id);
    PurgeFreesOne(cfg, db);
  }

  lemma AReplayPurgesItsTask(cfg: Config, sub: Submission, who: Identity, trace: string, now: Time, rounds: nat)
    returns (db: Db, r: Record)
    requires cfg.maxRecords >= 1 && sub.key.Some? && rounds > 0
    ensures Valid(cfg, db) && |db.index| == cfg.maxRecords && 0 in db.records && r.id !in db.records
    ensures ScopeOf(r).Some? && ScopeOf(db.records[0]) == ScopeOf(r) && db.terminal != map[] && Head(db.terminal) == 0
    ensures CreateRounds(cfg, r, db, rounds).1 == Updated(r) && 0 !in CreateRounds(cfg, r, db, rounds).0.records
  {
    hide Valid, CreateRounds, RejectedIn;
    var r0 := NewRecord(sub, who, trace, 0, now);
    r := NewRecord(sub, who, trace, cfg.maxRecords, now);
    var db0 := Fill(cfg, r0, cfg.maxRecords);
    RejectedKeepsValid(cfg, RejectOp(0, "code", "detail", false, now), db0);
    OnlyRejected(db0, r0, now);
    db := RejectedIn(0, "code", "detail", false, now, db0).0;
    PurgedReplayIsCreatedAnew(cfg, r, db, 0, rounds);
  }

  lemma OnlyRejected(db: Db, r: Record, now: Time)
    requires 0 in db.records && db.records[0] == r && r.id == 0 && r.status.Queued? && db.terminal == map[]
    ensures var db1 := RejectedIn(0, "code", "detail", false, now, db).0;
            && db1.index == db.index && db1.records.Keys == db.records.Keys && ScopeOf(db1.records[0]) == ScopeOf(r)
            && db1.terminal.Keys == {0} && db1.terminal != map[] && Head(db1.terminal) == 0
  {
    var db1 := RejectedIn(0, "code", "detail", false, now, db).0;
    assert db1.terminal == map[][0 := Millis(now)];
    assert 0 in db1.terminal;
    assert Head(db1.terminal) in db1.terminal;
  }

  lemma CreateKeepsValid(cfg: Config, r: Record, db: Db, rounds: nat)
    requires Valid(cfg, db) && r.id !in db.records && r.status.Queued? && FieldsOk(r) && r.deliveryCount == 0
    ensures Valid(cfg, CreateRounds(cfg, r, db, rounds).0)
    ensures rounds > 0 ==> !CreateRounds(cfg, r, db, rounds).1.Refused?
  {
    if rounds > 0 {
      if |db.index| >= cfg.maxRecords && db.terminal == map[] {
        OutboxIrrelevant(cfg, db, db.outbox, db.counters.Plus(ZERO.(rejected := 1)));
      } else {
        if |db.index| >= cfg.maxRecords { PurgeFreesOne(cfg, db); }
        var db1 := if |db.index| >= cfg.maxRecords then PurgedOldest(db) else db;
        InsertKeepsValid(cfg, r, db1);
      }
    }
  }

  lemma SubmissionKeepsValid(cfg: Config, r: Record, db: Db)
    requires Valid(cfg, db) && r.id !in db.records && r.status.Queued? && FieldsOk(r) && r.deliveryCount == 0
    ensures var (db1, reply) := CreateRounds(cfg, r, Bumped(db, ZERO.(submitted := 1)), RETRIES);
            Valid(cfg, db1) && !reply.Refused?
  {
    OutboxIrrelevant(cfg, db, db.outbox, db.counters.Plus(ZERO.(submitted := 1)));
    CreateKeepsValid(cfg, r, Bumped(db, ZERO.(submitted := 1)), RETRIES);
  }

  /** On a consistent store a submission is replayed, refused or inserted; only an
      inserted one leaves a record, staged and unaudited as it was made. */
  lemma CreateReplies(cfg: Config, r: Record, db: Db, rounds: nat)
    requires Valid(cfg, db) && r.id !in db.records && rounds > 0
    ensures var (db1, reply) := CreateRounds(cfg, r, db, rounds);
            match reply
            case Full => r.id !in db1.records
            case Replay(x) => r.id !in db1.records && x in db1.records
            case Updated(u) => u == r && r.id in db1.records && db1.records[r.id] == r && r.id in db1.staging
            case _ => false
  {
    if |db.index| >= cfg.maxRecords && db.terminal != map[] { PurgeFreesOne(cfg, db); }
  }

  lemma InsertKeepsValid(cfg: Config, r: Record, db: Db)
    requires Valid(cfg, db) && r.id !in db.records && r.status.Queued? && FieldsOk(r) && r.deliveryCount == 0
    requires |db.index| < cfg.maxRecords
    ensures Valid(cfg, Bumped(db, ZERO.(replays := 1)))
    ensures !(ScopeOf(r).Some? && ScopeOf(r).value in db.idem) ==> Valid(cfg, Apply(db, CreateBlock(r)))
  {
    OutboxIrrelevant(cfg, db, db.outbox, db.counters.Plus(ZERO.(replays := 1)));
    assert IdOk(db, r.id);
    if !(ScopeOf(r).Some? && ScopeOf(r).value in db.idem) {
      CreatePlaces(db, r);
      BlockKeepsValid(cfg, db, CreateBlock(r));
    }
  }
}
