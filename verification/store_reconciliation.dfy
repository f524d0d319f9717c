/** `recover_expired` and `reconcile_staging` as folds of the calls they make, and
    what those folds do to a consistent store. */
module StoreReconciliation {
  import opened TaskContracts
  import opened StoreState
  import opened StoreTransactions
  import opened StoreInvariant
  import opened StorePreservation
  import opened StoreCalls

  // ----- Range queries -----

  predicate Before(z: ZSet, x: TaskId, y: TaskId)
    requires x in z && y in z
  {
    z[x] < z[y] || (z[x] == z[y] && x <= y)
  }

  /** ZRANGEBYSCORE key 0 max LIMIT 0 n: the first n members with scores from 0 to
      max, in order. */
  ghost predicate IsDue(z: ZSet, max: int, limit: nat, due: seq<TaskId>) {
    && |due| <= limit
    && (forall i :: 0 <= i < |due| ==> due[i] in z && 0 <= z[due[i]] <= max)
    && (forall i, j :: 0 <= i < j < |due| ==> due[i] != due[j] && Before(z, due[i], due[j]))
    && (forall x :: x in z && 0 <= z[x] <= max && x !in due ==>
          |due| == limit && forall i :: 0 <= i < |due| ==> Before(z, due[i], x))
  }

  /** A submission that was just inserted is due exactly from the millisecond of its
      creation on: no pass with an earlier cutoff looks at it. */
  lemma FreshIsNotDue(cfg: Config, r: Record, db: Db, cutoff: int, limit: nat, due: seq<TaskId>)
    requires CreateRounds(cfg, r, db, RETRIES).1.Updated?
    requires IsDue(CreateRounds(cfg, r, db, RETRIES).0.staging, cutoff, limit, due)
    ensures cutoff < r.createdAt / 1000 ==> r.id !in due
    ensures 0 <= r.createdAt / 1000 <= cutoff && |due| < limit ==> r.id in due
  {
    InsertedSince(cfg, r, db, RETRIES);
    hide CreateRounds;
  }

  ghost predicate Distinct(due: seq<TaskId>) {
    forall i, j :: 0 <= i < j < |due| ==> due[i] != due[j]
  }

  /** Task id is in both sets with one score, or in neither. */
  predicate SameIn(z: ZSet, z': ZSet, id: TaskId) {
    (id in z <==> id in z') && (id in z ==> z[id] == z'[id])
  }

  /** Record, queue and lease of a task are as they were. */
  ghost predicate Untouched(was: Db, db: Db, id: TaskId) {
    && (id in was.records <==> id in db.records) && (id in was.records ==> db.records[id] == was.records[id])
    && forall p: Pool :: SameIn(was.queues.At(p), db.queues.At(p), id) && SameIn(was.leases.At(p), db.leases.At(p), id)
  }

  // ----- Expired leases -----

  datatype Lease = Lease(pool: Pool, id: TaskId)

  function Tag(pool: Pool, ids: seq<TaskId>): (r: seq<Lease>)
    ensures |r| == |ids| && forall i :: 0 <= i < |r| ==> r[i] == Lease(pool, ids[i])
  {
    seq(|ids|, i requires 0 <= i < |ids| => Lease(pool, ids[i]))
  }

  /** The recoveries one after the other; the clock is read once for each of them. */
  ghost function RecoverAll(due: seq<Lease>, nowMs: int, at: nat -> Time, db: Db): Db {
    if due == [] then db
    else
      var n := |due| - 1;
      RecoveredOne(due[n].pool, due[n].id, nowMs, at(n), RecoverAll(due[..n], nowMs, at, db)).0
  }

  predicate Among(due: seq<Lease>, id: TaskId) {
    exists l :: l in due && l.id == id
  }

  /** The outbox member of a task's next generation. */
  function NextMember(r: Record): Member {
    Member(r.pool, r.id, r.recoveredCount + 1)
  }

  /** Exactly the next members of the due tasks are new in the outbox. */
  ghost predicate MemberAdded(was: Db, db: Db, due: seq<Lease>, m: Member) {
    m in db.outbox <==> m in was.outbox || (Among(due, m.id) && m.id in was.records && m == NextMember(was.records[m.id]))
  }

  /** Due task i was queued again with its own sequence number and clock reading. */
  ghost predicate RequeuedAt(was: Db, db: Db, due: seq<Lease>, at: nat -> Time, i: nat) {
    i < |due| && var p, id := due[i].pool, due[i].id;
    && id in was.records && was.records[id].pool == p && id in db.records
    && db.records[id] == Recovered(was.records[id], at(i))
    && id !in db.leases.At(p) && id in db.queues.At(p)
    && db.queues.At(p)[id] == Score(was.records[id].priority, was.sequence + i + 1)
  }

  /** The due tasks were queued again, in the order due and each with its own outbox
      member, and nothing else changed. */
  ghost predicate AllRequeued(was: Db, db: Db, due: seq<Lease>, at: nat -> Time) {
    && db.staging == was.staging && db.sequence == was.sequence + |due|
    && (forall i: nat {:trigger RequeuedAt(was, db, due, at, i)} :: i < |due| ==> RequeuedAt(was, db, due, at, i))
    && (forall id {:trigger Untouched(was, db, id)} :: !Among(due, id) ==> Untouched(was, db, id))
    && (forall p {:trigger LeasesKept(was, db, due, p)} :: LeasesKept(was, db, due, p))
    && (forall m {:trigger MemberAdded(was, db, due, m)} :: MemberAdded(was, db, due, m))
  }

  ghost predicate LeasesKept(was: Db, db: Db, due: seq<Lease>, p: Pool) {
    (forall l :: l in due ==> l.pool != p) ==> db.leases.At(p) == was.leases.At(p)
  }

  ghost predicate Expired(db: Db, due: seq<Lease>, nowMs: int) {
    && (forall i, j :: 0 <= i < j < |due| ==> due[i].id != due[j].id)
    && (forall l :: l in due ==> l.id in db.leases.At(l.pool) && db.leases.At(l.pool)[l.id] <= nowMs)
  }

  /** Task id, held under a lease of the pool, was queued again. */
  ghost predicate Requeued(was: Db, db: Db, pool: Pool, id: TaskId, now: Time) {
    && id in was.records && was.records[id].pool == pool && was.records[id].id == id
    && db.staging == was.staging && db.sequence == was.sequence + 1
    && db.records == was.records[id := Recovered(was.records[id], now)]
    && db.leases == was.leases.With(pool, was.leases.At(pool) - {id})
    && db.queues == was.queues.With(pool, was.queues.At(pool)[id := Score(was.records[id].priority, was.sequence + 1)])
    && db.outbox == was.outbox[NextMember(was.records[id]) := Millis(now)]
  }

  /** On a consistent store an expired lease is always recovered. */
  lemma ExpiredIsRecovered(cfg: Config, pool: Pool, id: TaskId, nowMs: int, now: Time, db: Db)
    requires Valid(cfg, db) && id in db.leases.At(pool) && db.leases.At(pool)[id] <= nowMs
    ensures var (db1, reply) := RecoveredOne(pool, id, nowMs, now, db);
            reply == Flag(true) && Valid(cfg, db1) && Requeued(db, db1, pool, id, now)
  {
    assert IdOk(db, id);
    InLeaseFacts(db, id, pool);
    RecoveredKeepsValid(cfg, pool, id, nowMs, now, db);
  }

  lemma LastOfDue(due: seq<Lease>)
    requires due != []
    ensures forall id :: Among(due, id) <==> Among(due[..|due| - 1], id) || id == due[|due| - 1].id
  {
    var init, last := due[..|due| - 1], due[|due| - 1];
    assert due == init + [last];
    forall id ensures Among(due, id) <==> Among(init, id) || id == last.id {
      if Among(due, id) { var l :| l in due && l.id == id; assert l in init || l == last; }
      if Among(init, id) { var l :| l in init && l.id == id; assert l in due; }
      if id == last.id { assert last in due; }
    }
  }

  lemma StillRequeued(was: Db, mid: Db, db: Db, due: seq<Lease>, at: nat -> Time, i: nat)
    requires i < |due| - 1 && RequeuedAt(was, mid, due[..|due| - 1], at, i)
    requires due[i].id != due[|due| - 1].id
    requires Requeued(mid, db, due[|due| - 1].pool, due[|due| - 1].id, at(|due| - 1))
    ensures RequeuedAt(was, db, due, at, i)
  {
  }

  lemma LastRequeued(was: Db, mid: Db, db: Db, due: seq<Lease>, at: nat -> Time)
    requires due != [] && mid.sequence == was.sequence + |due| - 1 && Untouched(was, mid, due[|due| - 1].id)
    requires Requeued(mid, db, due[|due| - 1].pool, due[|due| - 1].id, at(|due| - 1))
    ensures RequeuedAt(was, db, due, at, |due| - 1)
  {
  }

  lemma StillUntouched(was: Db, mid: Db, db: Db, pool: Pool, id: TaskId, now: Time, x: TaskId)
    requires Untouched(was, mid, x) && Requeued(mid, db, pool, id, now) && x != id
    ensures Untouched(was, db, x)
  {
  }

  lemma MembersAfter(was: Db, mid: Db, db: Db, due: seq<Lease>, at: nat -> Time, m: Member)
    requires due != [] && Untouched(was, mid, due[|due| - 1].id)
    requires MemberAdded(was, mid, due[..|due| - 1], m)
    requires Requeued(mid, db, due[|due| - 1].pool, due[|due| - 1].id, at(|due| - 1))
    ensures MemberAdded(was, db, due, m)
  {
    LastOfDue(due);
  }

  lemma OneMoreRequeued(was: Db, mid: Db, db: Db, due: seq<Lease>, at: nat -> Time)
    requires due != [] && AllRequeued(was, mid, due[..|due| - 1], at) && Untouched(was, mid, due[|due| - 1].id)
    requires forall i :: 0 <= i < |due| - 1 ==> due[i].id != due[|due| - 1].id
    requires Requeued(mid, db, due[|due| - 1].pool, due[|due| - 1].id, at(|due| - 1))
    ensures AllRequeued(was, db, due, at)
  {
    var n := |due| - 1;
    var init, last := due[..n], due[n];
    hide RequeuedAt, Untouched, MemberAdded, Among;
    LastOfDue(due);
    forall i: nat | i < |due| ensures RequeuedAt(was, db, due, at, i) {
      if i < n {
        assert RequeuedAt(was, mid, init, at, i);
        StillRequeued(was, mid, db, due, at, i);
      } else {
        LastRequeued(was, mid, db, due, at);
      }
    }
    forall x | !Among(due, x) ensures Untouched(was, db, x) {
      assert Untouched(was, mid, x);
      StillUntouched(was, mid, db, last.pool, last.id, at(n), x);
    }
    forall p ensures LeasesKept(was, db, due, p) {
      assert LeasesKept(was, mid, init, p);
      assert last in due && forall l :: l in init ==> l in due;
    }
    forall m ensures MemberAdded(was, db, due, m) {
      assert MemberAdded(was, mid, init, m);
      MembersAfter(was, mid, db, due, at, m);
    }
  }

  /** Recovering expired leases one after the other. */
  lemma {:induction false} ExpiredAreRequeued(cfg: Config, due: seq<Lease>, nowMs: int, at: nat -> Time, db: Db)
    requires Valid(cfg, db) && Expired(db, due, nowMs)
    ensures Valid(cfg, RecoverAll(due, nowMs, at, db)) && AllRequeued(db, RecoverAll(due, nowMs, at, db), due, at)
  {
    if due == [] {
      forall id ensures Untouched(db, db, id) { }
    } else {
      var n := |due| - 1;
      var mid := RecoverAll(due[..n], nowMs, at, db);
      ExpiredAreRequeued(cfg, due[..n], nowMs, at, db);
      LastStillExpired(cfg, due, nowMs, at, db);
      OneMoreRequeued(db, mid, RecoverAll(due, nowMs, at, db), due, at);
    }
  }

  /** Recovering the earlier ones leaves the last lease expired. */
  lemma LastStillExpired(cfg: Config, due: seq<Lease>, nowMs: int, at: nat -> Time, db: Db)
    requires due != [] && Expired(db, due, nowMs)
    requires var mid := RecoverAll(due[..|due| - 1], nowMs, at, db); Valid(cfg, mid) && AllRequeued(db, mid, due[..|due| - 1], at)
    ensures var n := |due| - 1;
            var mid := RecoverAll(due[..n], nowMs, at, db);
            && Untouched(db, mid, due[n].id) && Valid(cfg, RecoverAll(due, nowMs, at, db))
            && Requeued(mid, RecoverAll(due, nowMs, at, db), due[n].pool, due[n].id, at(n))
            && RecoveredOne(due[n].pool, due[n].id, nowMs, at(n), mid).1 == Flag(true)
  {
    var n := |due| - 1;
    var mid := RecoverAll(due[..n], nowMs, at, db);
    assert due[n] in due && !Among(due[..n], due[n].id);
    assert Untouched(db, mid, due[n].id);
    ExpiredIsRecovered(cfg, due[n].pool, due[n].id, nowMs, at(n), mid);
  }

  /** Lease n of the list is recovered by the next call. */
  lemma RecoversNext(cfg: Config, start: Db, due: seq<Lease>, n: nat, nowMs: int, at: nat -> Time)
    requires Valid(cfg, start) && Expired(start, due, nowMs) && n < |due|
    ensures RecoveredOne(due[n].pool, due[n].id, nowMs, at(n), RecoverAll(due[..n], nowMs, at, start))
            == (RecoverAll(due[..n + 1], nowMs, at, start), Flag(true))
  {
    hide Valid, AllRequeued, RecoveredOne;
    var longer := due[..n + 1];
    assert longer[..n] == due[..n] && longer[n] == due[n];
    assert forall l :: l in longer ==> l in due;
    assert forall l :: l in due[..n] ==> l in due;
    ExpiredAreRequeued(cfg, due[..n], nowMs, at, start);
    LastStillExpired(cfg, longer, nowMs, at, start);
  }

  /** The due leases of all pools, in the order they are recovered. */
  function Listed(due: PerPool<seq<TaskId>>): seq<Lease> {
    Tag(SecurityPool, due.security) + Tag(AgentPool, due.agent) + Tag(EvaluationPool, due.evaluation)
  }

  lemma NothingExpired(start: Db, nowMs: int, at: nat -> Time)
    ensures Expired(start, [], nowMs) && RecoverAll([], nowMs, at, start) == start
  {
  }

  lemma LeasesUntilNow(cfg: Config, start: Db, done: seq<Lease>, pool: Pool, nowMs: int, at: nat -> Time)
    requires Valid(cfg, start) && Expired(start, done, nowMs) && forall l :: l in done ==> l.pool != pool
    ensures RecoverAll(done, nowMs, at, start).leases.At(pool) == start.leases.At(pool)
    ensures Valid(cfg, RecoverAll(done, nowMs, at, start))
  {
    ExpiredAreRequeued(cfg, done, nowMs, at, start);
    assert LeasesKept(start, RecoverAll(done, nowMs, at, start), done, pool);
  }

  lemma DueAreExpired(cfg: Config, start: Db, done: seq<Lease>, pool: Pool, ids: seq<TaskId>, nowMs: int, limit: nat)
    requires Valid(cfg, start) && Expired(start, done, nowMs) && IsDue(start.leases.At(pool), nowMs, limit, ids)
    requires forall l :: l in done ==> l.pool != pool
    ensures Expired(start, done + Tag(pool, ids), nowMs)
  {
    var due := done + Tag(pool, ids);
    forall l | l in due ensures l.id in start.leases.At(l.pool) && start.leases.At(l.pool)[l.id] <= nowMs {
      if l !in done { var i :| 0 <= i < |ids| && l == Lease(pool, ids[i]); }
    }
    forall i, j | 0 <= i < j < |due| ensures due[i].id != due[j].id {
      if i < |done| <= j && due[i].id == due[j].id {
        assert due[i] in done && due[j] == Lease(pool, ids[j - |done|]) && due[j] in due;
        OnePool(cfg, start, due[i].id, due[i].pool, pool);
      }
    }
  }

  lemma OnePool(cfg: Config, db: Db, id: TaskId, p: Pool, q: Pool)
    requires Valid(cfg, db) && id in db.leases.At(p) && id in db.leases.At(q)
    ensures p == q
  {
    InLeaseFacts(db, id, p);
    InLeaseFacts(db, id, q);
  }

  // ----- Abandoned submissions -----

  /** One turn of `reconcile_staging`: the new database and whether the task counts. */
  ghost function ReconciledOne(cfg: Config, id: TaskId, now: Time, db: Db): (Db, bool) {
    if id !in db.records then (db.(staging := db.staging - {id}), false)
    else if db.records[id].auditEvents > 0 then
      var (db1, reply) := Activated(cfg, id, now, db); (db1, !reply.Full?)
    else (RejectedIn(id, "UnconfirmedSubmission", UNCONFIRMED, true, now, db).0, true)
  }

  ghost function ReconcileAll(cfg: Config, due: seq<TaskId>, at: nat -> Time, db: Db): (Db, nat) {
    if due == [] then (db, 0)
    else
      var n := |due| - 1;
      var (mid, count) := ReconcileAll(cfg, due[..n], at, db);
      var (db1, moved) := ReconciledOne(cfg, due[n], at(n), mid);
      (db1, count + if moved then 1 else 0)
  }

  predicate PoolFull(cfg: Config, db: Db, p: Pool) {
    |db.queues.At(p)| + |db.leases.At(p)| >= cfg.Room(p)
  }

  /** A staged task was rejected for want of an audit, or entered its queue, or found
      its pool full. */
  ghost predicate Moved(cfg: Config, was: Db, db: Db, id: TaskId, now: Time) {
    && id in was.records && was.records[id].id == id && id in was.staging && db.leases == was.leases
    && db.records.Keys == was.records.Keys
    && var r := was.records[id];
    if r.auditEvents == 0 then
      && db.records == was.records[id := RejectedRecord(r, "UnconfirmedSubmission", UNCONFIRMED, now)]
      && db.staging == was.staging - {id} && db.terminal == was.terminal[id := Millis(now)]
      && db.queues == was.queues && db.outbox == was.outbox && db.sequence == was.sequence
    else if PoolFull(cfg, was, r.pool) then db == was
    else
      && db.records == was.records && db.staging == was.staging - {id} && db.terminal == was.terminal
      && id !in was.queues.At(r.pool) && db.sequence == was.sequence + 1
      && db.queues == was.queues.With(r.pool, was.queues.At(r.pool)[id := Score(r.priority, was.sequence + 1)])
      && db.outbox == was.outbox[Member(r.pool, id, r.recoveredCount) := Millis(now)]
  }

  lemma StagedIsMoved(cfg: Config, id: TaskId, now: Time, db: Db)
    requires Valid(cfg, db) && id in db.staging
    ensures var (db1, moved) := ReconciledOne(cfg, id, now, db);
            && Valid(cfg, db1) && Moved(cfg, db, db1, id, now) && (moved <==> id !in db1.staging)
  {
    StagedFacts(cfg, db, id);
    hide Valid, IdOk, Moved, Activated, RejectedIn;
    if db.records[id].auditEvents > 0 {
      ActivatedKeepsValid(cfg, id, now, db);
      StagedIsActivated(cfg, id, now, db);
    } else {
      RejectedKeepsValid(cfg, RejectOp(id, "UnconfirmedSubmission", UNCONFIRMED, true, now), db);
      UnauditedIsMoved(cfg, id, now, db);
    }
  }

  lemma UnauditedIsMoved(cfg: Config, id: TaskId, now: Time, db: Db)
    requires IdOk(db, id) && id in db.staging && id in db.records && db.records[id].id == id && db.records[id].auditEvents == 0
    ensures var db1 := RejectedIn(id, "UnconfirmedSubmission", UNCONFIRMED, true, now, db).0;
            Moved(cfg, db, db1, id, now) && id !in db1.staging
  {
    StagedIsRejected(id, "UnconfirmedSubmission", UNCONFIRMED, true, now, db);
  }

  lemma StagedFacts(cfg: Config, db: Db, id: TaskId)
    requires Valid(cfg, db) && id in db.staging
    ensures IdOk(db, id) && id in db.records && db.records[id].id == id && db.records[id].status.Queued?
    ensures id !in db.queues.At(db.records[id].pool) && id !in db.leases.At(db.records[id].pool)
  {
    assert IdOk(db, id);
  }

  /** A staged, audited task enters its queue unless the pool is full. */
  lemma StagedIsActivated(cfg: Config, id: TaskId, now: Time, db: Db)
    requires id in db.staging && id in db.records && db.records[id].id == id && db.records[id].status.Queued?
    requires id !in db.queues.At(db.records[id].pool) && id !in db.leases.At(db.records[id].pool)
    ensures var (db1, reply) := Activated(cfg, id, now, db);
            && (reply.Full? <==> PoolFull(cfg, db, db.records[id].pool)) && (reply.Full? <==> id in db1.staging)
            && (db.records[id].auditEvents > 0 ==> Moved(cfg, db, db1, id, now))
  {
    PoolsUntouched(db, db.records[id].pool, id);
  }

  /** Rejecting a staged task touches no queue and no lease. */
  lemma StagedIsRejected(id: TaskId, reason: string, detail: string, auditFailed: bool, now: Time, db: Db)
    requires IdOk(db, id) && id in db.staging && id in db.records
    ensures var u := RejectedRecord(db.records[id], reason, detail, now);
            RejectedIn(id, reason, detail, auditFailed, now, db)
            == (db.(records := db.records[id := u], staging := db.staging - {id}, terminal := db.terminal[id := Millis(now)],
                    counters := db.counters.Plus(ZERO.(rejected := 1, auditFailures := if auditFailed then 1 else 0))),
                Updated(u))
  {
    var p := db.records[id].pool;
    NotThere(db.queues, p, id);
    NotThere(db.leases, p, id);
    PoolsUntouched(db, p, id);
  }

  lemma NotThere(z: PerPool<ZSet>, p: Pool, id: TaskId)
    requires id !in z.At(p)
    ensures WritePool(z, p, id, Remove) == z
  {
    assert z.At(p) - {id} == z.At(p);
  }

  /** What a pass leaves behind for due task i: rejected when no audit confirmed it,
      else queued with its outbox member, else still staged with its pool full. */
  ghost predicate ReconciledAt(cfg: Config, was: Db, db: Db, due: seq<TaskId>, at: nat -> Time, i: nat) {
    i < |due| && var id := due[i];
    && id in was.records && id in db.records
    && var r := was.records[id];
    if r.auditEvents == 0 then
      db.records[id] == RejectedRecord(r, "UnconfirmedSubmission", UNCONFIRMED, at(i)) && id !in db.staging && id in db.terminal
    else
      && db.records[id] == r
      && if id in db.staging then PoolFull(cfg, db, r.pool) && SameIn(was.queues.At(r.pool), db.queues.At(r.pool), id)
         else id in db.queues.At(r.pool) && Member(r.pool, id, r.recoveredCount) in db.outbox
  }

  /** A task that was not due keeps its record, queue, lease and staging entry. */
  ghost predicate Undisturbed(was: Db, db: Db, id: TaskId) {
    Untouched(was, db, id) && SameIn(was.staging, db.staging, id) && SameIn(was.terminal, db.terminal, id)
  }

  ghost predicate NewMember(was: Db, db: Db, due: seq<TaskId>, m: Member) {
    m in db.outbox <==> m in was.outbox
                        || (m.id in due && m.id in was.records && was.records[m.id].auditEvents > 0 && m.id !in db.staging
                            && m == Member(was.records[m.id].pool, m.id, was.records[m.id].recoveredCount))
  }

  /** The due tasks that are no longer staged. */
  ghost function Left(db: Db, due: seq<TaskId>): nat {
    if due == [] then 0 else Left(db, due[..|due| - 1]) + if due[|due| - 1] in db.staging then 0 else 1
  }

  ghost predicate StagingReconciled(cfg: Config, was: Db, db: Db, due: seq<TaskId>, at: nat -> Time) {
    && db.leases == was.leases && db.records.Keys == was.records.Keys && was.sequence <= db.sequence
    && (forall i: nat {:trigger ReconciledAt(cfg, was, db, due, at, i)} :: i < |due| ==> ReconciledAt(cfg, was, db, due, at, i))
    && (forall id {:trigger Undisturbed(was, db, id)} :: id !in due ==> Undisturbed(was, db, id))
    && (forall m {:trigger NewMember(was, db, due, m)} :: NewMember(was, db, due, m))
  }

  /** What moving another task leaves alone. */
  ghost predicate Spared(mid: Db, db: Db, x: TaskId) {
    && Undisturbed(mid, db, x) && db.leases == mid.leases
    && (forall p: Pool :: |mid.queues.At(p)| <= |db.queues.At(p)|)
    && (forall m: Member :: m in mid.outbox ==> m in db.outbox)
  }

  lemma SparedIsUndisturbed(mid: Db, db: Db, x: TaskId)
    requires Spared(mid, db, x)
    ensures Undisturbed(mid, db, x)
  {
  }

  lemma OthersAreSpared(cfg: Config, mid: Db, db: Db, id: TaskId, now: Time, x: TaskId)
    requires Moved(cfg, mid, db, id, now) && x != id
    ensures Spared(mid, db, x)
  {
    if mid.records[id].auditEvents > 0 && db != mid {
      var p := mid.records[id].pool;
      forall q: Pool ensures SameIn(mid.queues.At(q), db.queues.At(q), x) && |mid.queues.At(q)| <= |db.queues.At(q)| {
        AddSpares(mid.queues, p, id, Score(mid.records[id].priority, mid.sequence + 1), q, x);
      }
    }
  }

  lemma AddSpares(z: PerPool<ZSet>, p: Pool, id: TaskId, score: int, q: Pool, x: TaskId)
    requires x != id
    ensures var after := z.With(p, z.At(p)[id := score]).At(q); SameIn(z.At(q), after, x) && |z.At(q)| <= |after|
  {
    WriteSize(z.At(p), id, Add(score));
  }

  lemma StillReconciled(cfg: Config, was: Db, mid: Db, db: Db, due: seq<TaskId>, at: nat -> Time, i: nat)
    requires i < |due| - 1 && ReconciledAt(cfg, was, mid, due[..|due| - 1], at, i) && Spared(mid, db, due[i])
    ensures ReconciledAt(cfg, was, db, due, at, i)
  {
  }

  lemma LastReconciled(cfg: Config, was: Db, mid: Db, db: Db, due: seq<TaskId>, at: nat -> Time)
    requires due != [] && Undisturbed(was, mid, due[|due| - 1]) && Moved(cfg, mid, db, due[|due| - 1], at(|due| - 1))
    ensures ReconciledAt(cfg, was, db, due, at, |due| - 1)
  {
  }

  lemma StillUndisturbed(was: Db, mid: Db, db: Db, x: TaskId)
    requires Undisturbed(was, mid, x) && Undisturbed(mid, db, x)
    ensures Undisturbed(was, db, x)
  {
  }

  lemma MembersMoved(was: Db, mid: Db, db: Db, due: seq<TaskId>, m: Member)
    requires due != [] && due[|due| - 1] !in due[..|due| - 1] && Undisturbed(was, mid, due[|due| - 1])
    requires NewMember(was, mid, due[..|due| - 1], m) && MemberMoved(mid, db, due[|due| - 1], m)
    ensures NewMember(was, db, due, m)
  {
    assert due == due[..|due| - 1] + [due[|due| - 1]];
  }

  /** Only the moved task's staging entry and outbox member change. */
  ghost predicate MemberMoved(mid: Db, db: Db, id: TaskId, m: Member) {
    && id in mid.records && (m.id != id ==> (m.id in db.staging <==> m.id in mid.staging))
    && (m in db.outbox
        <==> m in mid.outbox || (mid.records[id].auditEvents > 0 && id !in db.staging
                                 && m == Member(mid.records[id].pool, id, mid.records[id].recoveredCount)))
  }

  lemma MovesOneMember(cfg: Config, mid: Db, db: Db, id: TaskId, now: Time, m: Member)
    requires Moved(cfg, mid, db, id, now)
    ensures MemberMoved(mid, db, id, m)
  {
  }

  lemma MovedFrame(cfg: Config, mid: Db, db: Db, id: TaskId, now: Time)
    requires Moved(cfg, mid, db, id, now)
    ensures db.leases == mid.leases && db.records.Keys == mid.records.Keys && mid.sequence <= db.sequence
  {
  }

  ghost predicate OneMore(cfg: Config, was: Db, mid: Db, db: Db, due: seq<TaskId>, at: nat -> Time) {
    && due != [] && Distinct(due) && StagingReconciled(cfg, was, mid, due[..|due| - 1], at)
    && Undisturbed(was, mid, due[|due| - 1]) && Moved(cfg, mid, db, due[|due| - 1], at(|due| - 1))
  }

  lemma DueReconciled(cfg: Config, was: Db, mid: Db, db: Db, due: seq<TaskId>, at: nat -> Time, i: nat)
    requires OneMore(cfg, was, mid, db, due, at) && i < |due|
    ensures ReconciledAt(cfg, was, db, due, at, i)
  {
    hide ReconciledAt, NewMember, Undisturbed, Moved, Spared;
    var n := |due| - 1;
    if i < n {
      assert ReconciledAt(cfg, was, mid, due[..n], at, i);
      OthersAreSpared(cfg, mid, db, due[n], at(n), due[i]);
      StillReconciled(cfg, was, mid, db, due, at, i);
    } else {
      LastReconciled(cfg, was, mid, db, due, at);
    }
  }

  lemma OtherUndisturbed(cfg: Config, was: Db, mid: Db, db: Db, due: seq<TaskId>, at: nat -> Time, x: TaskId)
    requires OneMore(cfg, was, mid, db, due, at) && x !in due
    ensures Undisturbed(was, db, x)
  {
    hide ReconciledAt, NewMember, Undisturbed, Moved, Spared;
    var n := |due| - 1;
    assert due == due[..n] + [due[n]];
    assert Undisturbed(was, mid, x);
    OthersAreSpared(cfg, mid, db, due[n], at(n), x);
    SparedIsUndisturbed(mid, db, x);
    StillUndisturbed(was, mid, db, x);
  }

  lemma MemberReconciled(cfg: Config, was: Db, mid: Db, db: Db, due: seq<TaskId>, at: nat -> Time, m: Member)
    requires OneMore(cfg, was, mid, db, due, at)
    ensures NewMember(was, db, due, m)
  {
    hide ReconciledAt, NewMember, Undisturbed, Moved, MemberMoved;
    var n := |due| - 1;
    assert NewMember(was, mid, due[..n], m);
    MovesOneMember(cfg, mid, db, due[n], at(n), m);
    MembersMoved(was, mid, db, due, m);
  }

  lemma OneMoreReconciled(cfg: Config, was: Db, mid: Db, db: Db, due: seq<TaskId>, at: nat -> Time)
    requires OneMore(cfg, was, mid, db, due, at)
    ensures StagingReconciled(cfg, was, db, due, at)
  {
    assert db.leases == was.leases && db.records.Keys == was.records.Keys && was.sequence <= db.sequence by {
      MovedFrame(cfg, mid, db, due[|due| - 1], at(|due| - 1));
    }
    hide ReconciledAt, NewMember, Undisturbed, OneMore;
    forall i: nat | i < |due| ensures ReconciledAt(cfg, was, db, due, at, i) { DueReconciled(cfg, was, mid, db, due, at, i); }
    forall x | x !in due ensures Undisturbed(was, db, x) { OtherUndisturbed(cfg, was, mid, db, due, at, x); }
    forall m ensures NewMember(was, db, due, m) { MemberReconciled(cfg, was, mid, db, due, at, m); }
  }

  lemma {:induction false} LeftStays(mid: Db, db: Db, due: seq<TaskId>, id: TaskId)
    requires id !in due && forall x :: x != id ==> (x in db.staging <==> x in mid.staging)
    ensures Left(db, due) == Left(mid, due)
  {
    if due != [] {
      assert due[|due| - 1] in due && forall x :: x in due[..|due| - 1] ==> x in due;
      LeftStays(mid, db, due[..|due| - 1], id);
    }
  }

  /** One pass over due staged tasks: the count is the number that left staging. */
  lemma {:induction false} StagedAreReconciled(cfg: Config, due: seq<TaskId>, at: nat -> Time, db: Db)
    requires Valid(cfg, db) && Distinct(due) && forall id :: id in due ==> id in db.staging
    ensures var (db1, count) := ReconcileAll(cfg, due, at, db);
            Valid(cfg, db1) && StagingReconciled(cfg, db, db1, due, at) && count == Left(db1, due)
  {
    if due == [] {
      forall id ensures Undisturbed(db, db, id) { }
      forall m ensures NewMember(db, db, due, m) { }
    } else {
      var n := |due| - 1;
      var init, last := due[..n], due[n];
      assert due == init + [last] && last !in init;
      StagedAreReconciled(cfg, init, at, db);
      var mid := ReconcileAll(cfg, init, at, db).0;
      var db1 := ReconcileAll(cfg, due, at, db).0;
      assert Undisturbed(db, mid, last);
      StagedIsMoved(cfg, last, at(n), mid);
      OneMoreReconciled(cfg, db, mid, db1, due, at);
      LeftStays(mid, db1, init, last);
    }
  }
}
