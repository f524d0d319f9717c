/** `RedisDistributedDispatcher`: submission (create, audit, activate, notify) and
    one reconciliation pass, on a store nobody else touches.  TaskProtocol covers
    the same steps interleaved with other clients and stopped at any point. */
module DistributedDispatcher {
  import opened TaskContracts
  import opened StoreState
  import opened StoreTransactions
  import opened StoreInvariant
  import opened StorePreservation
  import opened StoreCalls
  import opened StoreReconciliation
  import opened TaskStore
  import opened MemberOrder

  /** What the audit hook and the broker do; a Some is the type of the exception the
      queue audit raises. */
  datatype Script = Script(queued: Option<string>, rejected: bool, replayed: bool, notified: Member -> bool)

  datatype Submitted =
    | Accepted(task: TaskId)
    | Existing(task: TaskId)
    | Refused            // not running, or no handler for this kind
    | Backpressure       // rejected because the pool or the store is full
    | AuditFailed        // rejected, or a replay withheld, because an audit was not recorded

  const NO_ROOM := "TaskBackpressureError"
  const POOL_FULL := "pool full"
  const QUEUE_AUDIT_FAILED := "enqueue audit failed"

  method Earliest(outbox: map<Member, int>, members: set<Member>) returns (m: Member)
    requires members != {} && members <= outbox.Keys
    ensures m in members && forall x :: x in members ==> Sooner(outbox, m, x)
  {
    m :| m in members;
    var rest := members - {m};
    while rest != {}
      invariant rest <= members && m in members
      invariant forall x :: x in members && x !in rest ==> Sooner(outbox, m, x)
      decreases |rest|
    {
      hide MemberLess, Sooner;
      var x :| x in rest;
      rest := rest - {x};
      ghost var was := m;
      SoonerIsTotal(outbox, x, x);
      SoonerIsTotal(outbox, m, x);
      if !Sooner(outbox, m, x) { m := x; }
      forall y | y in members && y !in rest ensures Sooner(outbox, m, y) {
        if m != was && y != x { SoonerIsTransitive(outbox, m, was, y); }
      }
    }
  }

  /** `outbox_due`. */
  method OutboxDue(outbox: map<Member, int>, nowMs: int, limit: nat) returns (due: seq<Member>)
    ensures DueMembers(outbox, nowMs, limit, due)
  {
    hide MemberLess, Sooner;
    due := [];
    var rest := set m | m in outbox && 0 <= outbox[m] <= nowMs;
    while rest != {} && |due| < limit
      invariant |due| <= limit
      invariant forall m :: m in outbox && 0 <= outbox[m] <= nowMs <==> m in rest || m in due
      invariant forall m :: m in rest ==> m !in due
      invariant forall i :: 0 <= i < |due| ==> due[i] in outbox && 0 <= outbox[due[i]] <= nowMs
      invariant forall i, j :: 0 <= i < j < |due| ==> due[i] != due[j] && Sooner(outbox, due[i], due[j])
      invariant forall i, m :: 0 <= i < |due| && m in rest ==> Sooner(outbox, due[i], m)
      decreases limit - |due|
    {
      var m := Earliest(outbox, rest);
      rest := rest - {m};
      due := due + [m];
    }
  }

  /** The members whose message could be sent, in order. */
  function Notified(due: seq<Member>, s: Script): seq<Member> {
    if due == [] then []
    else
      var sent := Notified(due[..|due| - 1], s);
      if s.notified(due[|due| - 1]) then sent + [due[|due| - 1]] else sent
  }

  /** The outbox without them. */
  function Remaining(outbox: map<Member, int>, due: seq<Member>, s: Script): map<Member, int> {
    if due == [] then outbox
    else
      var rest := Remaining(outbox, due[..|due| - 1], s);
      if s.notified(due[|due| - 1]) then rest - {due[|due| - 1]} else rest
  }

  /** A member leaves the outbox if and only if a message was sent for it. */
  lemma {:induction false} SentIsAcknowledged(outbox: map<Member, int>, due: seq<Member>, s: Script, m: Member)
    ensures m in Remaining(outbox, due, s) <==> m in outbox && m !in Notified(due, s)
    ensures m in Notified(due, s) <==> m in due && s.notified(m)
  {
    if due != [] {
      SentIsAcknowledged(outbox, due[..|due| - 1], s, m);
      assert due == due[..|due| - 1] + [due[|due| - 1]];
    }
  }

  /** The members whose notification failed. */
  function Unsent(due: seq<Member>, s: Script): nat {
    if due == [] then 0 else Unsent(due[..|due| - 1], s) + if s.notified(due[|due| - 1]) then 0 else 1
  }

  /** The database after the notifications. */
  function AfterNotices(db: Db, due: seq<Member>, s: Script): Db {
    db.(outbox := Remaining(db.outbox, due, s), counters := db.counters.Plus(ZERO.(notificationFailures := Unsent(due, s))))
  }

  /** Every due member is either sent or counted as a failure, and the messages go out
      in the order due. */
  lemma {:induction false} EachIsSentOrCounted(db: Db, due: seq<Member>, more: seq<Member>, s: Script)
    ensures |Notified(due, s)| + Unsent(due, s) == |due|
    ensures AfterNotices(db, due, s).counters
            == db.counters.(notificationFailures := db.counters.notificationFailures + |due| - |Notified(due, s)|)
    ensures Notified(due + more, s) == Notified(due, s) + Notified(more, s)
  {
    SentPlusUnsent(due, s);
    NotifiedInOrder(due, more, s);
  }

  lemma {:induction false} SentPlusUnsent(due: seq<Member>, s: Script)
    ensures |Notified(due, s)| + Unsent(due, s) == |due|
  {
    if due != [] { SentPlusUnsent(due[..|due| - 1], s); }
  }

  lemma {:induction false} NotifiedInOrder(due: seq<Member>, more: seq<Member>, s: Script)
    ensures Notified(due + more, s) == Notified(due, s) + Notified(more, s)
  {
    if more == [] {
      assert due + more == due;
    } else {
      NotifiedInOrder(due, more[..|more| - 1], s);
      assert (due + more)[..|due + more| - 1] == due + more[..|more| - 1];
    }
  }

  lemma NoNotices(db: Db, s: Script)
    ensures AfterNotices(db, [], s) == db
  {
  }

  lemma NextNotice(db: Db, due: seq<Member>, s: Script)
    requires due != []
    ensures var was := AfterNotices(db, due[..|due| - 1], s);
            AfterNotices(db, due, s)
            == if s.notified(due[|due| - 1]) then was.(outbox := was.outbox - {due[|due| - 1]})
               else Bumped(was, ZERO.(notificationFailures := 1))
  {
  }

  class RedisDistributedDispatcher {
    const store: RedisTaskStore
    const handlers: set<TaskKind>
    var running: bool
    var stopping: bool
    var sent: seq<Member>      // the members a broker message was sent for, in order

    constructor (store: RedisTaskStore, handlers: set<TaskKind>)
      ensures this.store == store && this.handlers == handlers && !running && !stopping && sent == []
    {
      this.store, this.handlers := store, handlers;
      running, stopping, sent := false, false, [];
    }

    /** The notification loop of `_reconcile_once`: a member leaves the outbox
        exactly when its message was sent, and messages are sent in the order due. */
    method NotifyDue(nowMs: int, limit: nat, s: Script) returns (due: seq<Member>)
      requires store.Consistent()
      modifies this`sent, store
      ensures store.Consistent() && DueMembers(old(store.db.outbox), nowMs, limit, due)
      ensures sent == old(sent) + Notified(due, s)
      ensures store.db == AfterNotices(old(store.db), due, s)
    {
      hide Valid, DueMembers, AfterNotices;
      due := OutboxDue(store.db.outbox, nowMs, limit);
      NoNotices(store.db, s);
      assert due[..0] == [] && sent + [] == sent;
      var i := 0;
      while i < |due|
        invariant i <= |due| && store.Consistent()
        invariant sent == old(sent) + Notified(due[..i], s)
        invariant store.db == AfterNotices(old(store.db), due[..i], s)
      {
        assert due[..i + 1][..i] == due[..i];
        NextNotice(old(store.db), due[..i + 1], s);
        if s.notified(due[i]) {
          sent := sent + [due[i]];
          store.AcknowledgeOutbox(due[i]);
        } else {
          store.IncrementMetric(ZERO.(notificationFailures := 1));
        }
        i := i + 1;
      }
      assert due[..i] == due;
    }

    /** `_reconcile_once`: the expired leases, the abandoned submissions, then the
        notifications, each on what the one before left. */
    method ReconcileOnce(nowMs: int, cutoff: int, clock: Clock, s: Script) returns (ghost pass: Pass)
      requires store.Consistent()
      modifies this`sent, store
      ensures store.Consistent() && Passed(store.cfg, old(store.db), store.db, nowMs, cutoff, clock, s, pass)
      ensures sent == old(sent) + Notified(pass.due, s)
    {
      hide Valid, AllRequeued, StagingReconciled, IsDue, DueMembers;
      var _, leases := store.RecoverExpired(nowMs, 100, clock.recover);
      var _, staged := store.ReconcileStaging(cutoff, 100, clock.reconcile);
      var due := NotifyDue(nowMs, 200, s);
      pass := Pass(leases, staged, due);
    }

    /** `start`: fails closed when the store does not answer. */
    method Start(reachable: bool, nowMs: int, cutoff: int, clock: Clock, s: Script) returns (ok: bool)
      requires store.Consistent()
      modifies this, store
      ensures store.Consistent() && ok == (old(running) || reachable) && running == ok
      ensures !ok || old(running) ==> sent == old(sent) && store.db == old(store.db)
    {
      if running { return true; }
      if !reachable { return false; }
      running, stopping := true, false;
      var _ := ReconcileOnce(nowMs, cutoff, clock, s);
      return true;
    }

    /** `stop`: workers own their tasks, so nothing is drained. */
    method Stop()
      modifies this`running, this`stopping
      ensures !running && (old(running) ==> !stopping)
    {
      if !running { return; }
      running, stopping := false, false;
    }

    /** The store's half of `_audit_record`. */
    method CountAudit(id: TaskId, now: Time)
      requires store.Consistent() && id in store.db.records
      modifies store
      ensures store.Consistent() && store.db == UpdatedIn(CountAuditOp(id, now), old(store.db)).0
    {
      hide Valid, IsAtomic, UpdatedIn;
      var _ := store.IncrementAudit(id, now);
    }

    method Discard(id: TaskId, code: string, detail: string, auditFailed: bool, now: Time)
      requires store.Consistent() && id in store.db.records
      modifies store
      ensures store.Consistent() && store.db == RejectedIn(id, code, detail, auditFailed, now, old(store.db)).0
    {
      hide Valid, IsAtomic, RejectedIn;
      var _ := store.Reject(id, code, detail, auditFailed, now);
    }

    /** The part of `submit` after the record was created. */
    method Enqueue(id: TaskId, nowMs: int, cutoff: int, now: Time, clock: Clock, s: Script)
      returns (result: Submitted, ghost pass: Pass)
      requires store.Consistent() && id in store.db.records && id in store.db.staging
      modifies this`sent, store
      ensures store.Consistent()
      ensures Enqueued(store.cfg, old(store.db), store.db, id, nowMs, cutoff, now, clock, s, pass, result)
      ensures sent == old(sent) + if result.Accepted? then Notified(pass.due, s) else []
    {
      hide Valid, RejectedIn, UpdatedIn, Activated, Passed, IsAtomic;
      pass := Pass(PerPool([], [], []), [], []);
      if s.queued.Some? {
        Discard(id, "audit_error:" + s.queued.value, QUEUE_AUDIT_FAILED, true, now);
        return AuditFailed, pass;
      }
      SubmissionKeepsRecord(id, now, store.db);
      CountAudit(id, now);
      ActivationKeepsRecord(store.cfg, id, now, store.db);
      var reply := store.Activate(id, now);
      if reply.Full? {
        result := Refuse(id, now, s);
        return result, pass;
      }
      pass := ReconcileOnce(nowMs, cutoff, clock, s);
      return Accepted(id), pass;
    }

    /** Backpressure: the task is rejected, and that is audited. */
    method Refuse(id: TaskId, now: Time, s: Script) returns (result: Submitted)
      requires store.Consistent() && id in store.db.records
      modifies store
      ensures store.Consistent() && Backpressed(old(store.db), store.db, id, now, s, result)
    {
      hide Valid, RejectedIn, UpdatedIn;
      RejectionKeepsRecord(id, now, store.db);
      Discard(id, NO_ROOM, POOL_FULL, false, now);
      if !s.rejected {
        store.IncrementMetric(ZERO.(auditFailures := 1));
        return AuditFailed;
      }
      CountAudit(id, now);
      return Backpressure;
    }

    /** `submit`: the answer and the whole store, in every case. */
    method Submit(sub: Submission, who: Identity, trace: string, id: TaskId, nowMs: int, cutoff: int, now: Time, clock: Clock,
                  s: Script)
      returns (result: Submitted, ghost pass: Pass)
      requires store.Consistent() && id !in store.db.records
      modifies this`sent, store
      ensures store.Consistent()
      ensures result.Refused? <==> !running || stopping || sub.kind !in handlers
      ensures if !running || stopping then store.db == old(store.db)
              else if sub.kind !in handlers then store.db == Bumped(old(store.db), ZERO.(rejected := 1))
              else SubmittedAs(store.cfg, old(store.db), store.db, NewRecord(sub, who, trace, id, now), nowMs, cutoff, now, clock, s,
                               pass, result)
      ensures sent == old(sent) + if result.Accepted? then Notified(pass.due, s) else []
    {
      hide Valid, CreateRounds, Enqueued;
      pass := Pass(PerPool([], [], []), [], []);
      if !running || stopping { return Submitted.Refused, pass; }
      if sub.kind !in handlers {
        store.IncrementMetric(ZERO.(rejected := 1));
        return Submitted.Refused, pass;
      }
      SubmissionReplies(store.cfg, NewRecord(sub, who, trace, id, now), store.db);
      var reply := store.CreateOrReplay(sub, who, trace, id, now);
      if reply.Full? { return Backpressure, pass; }
      if reply.Replay? {
        if s.replayed { return Existing(reply.id), pass; }
        store.IncrementMetric(ZERO.(auditFailures := 1));
        return AuditFailed, pass;
      }
      result, pass := Enqueue(id, nowMs, cutoff, now, clock, s);
      EnqueuedIsNotRefused(store.cfg, CreateRounds(store.cfg, NewRecord(sub, who, trace, id, now),
                                                   Bumped(old(store.db), ZERO.(submitted := 1)), RETRIES).0,
                           store.db, id, nowMs, cutoff, now, clock, s, pass, result);
    }
  }

  // ----- What the operations mean -----

  /** One clock reading for each task a pass recovers or reconciles. */
  datatype Clock = Clock(recover: nat -> Time, reconcile: nat -> Time)

  /** The tasks and members a pass dealt with. */
  datatype Pass = Pass(leases: PerPool<seq<TaskId>>, staged: seq<TaskId>, due: seq<Member>)

  ghost function AfterRecovery(was: Db, nowMs: int, clock: Clock, pass: Pass): Db {
    RecoverAll(Listed(pass.leases), nowMs, clock.recover, was)
  }

  ghost function AfterStaging(cfg: Config, was: Db, nowMs: int, clock: Clock, pass: Pass): Db {
    ReconcileAll(cfg, pass.staged, clock.reconcile, AfterRecovery(was, nowMs, clock, pass)).0
  }

  /** A pass recovers the expired leases, then reconciles the staged tasks past the
      cutoff, then sends the earliest due members; nothing else changes. */
  ghost predicate Passed(cfg: Config, was: Db, db: Db, nowMs: int, cutoff: int, clock: Clock, s: Script, pass: Pass) {
    var db1, db2 := AfterRecovery(was, nowMs, clock, pass), AfterStaging(cfg, was, nowMs, clock, pass);
    && IsDue(was.leases.security, nowMs, 100, pass.leases.security) && IsDue(was.leases.agent, nowMs, 100, pass.leases.agent)
    && IsDue(was.leases.evaluation, nowMs, 100, pass.leases.evaluation)
    && AllRequeued(was, db1, Listed(pass.leases), clock.recover)
    && IsDue(db1.staging, cutoff, 100, pass.staged) && StagingReconciled(cfg, db1, db2, pass.staged, clock.reconcile)
    && DueMembers(db2.outbox, nowMs, 200, pass.due)
    && db == AfterNotices(db2, pass.due, s)
  }

  /** A task without room is rejected, and so is the submission unless that is not
      audited. */
  ghost predicate Backpressed(was: Db, db: Db, id: TaskId, now: Time, s: Script, result: Submitted) {
    var refused := RejectedIn(id, NO_ROOM, POOL_FULL, false, now, was).0;
    if s.rejected then result == Backpressure && db == UpdatedIn(CountAuditOp(id, now), refused).0
    else result == AuditFailed && db == Bumped(refused, ZERO.(auditFailures := 1))
  }

  /** A new task is rejected when its queue audit fails or its pool has no room;
      otherwise it is queued and a pass follows. */
  ghost predicate Enqueued(cfg: Config, was: Db, db: Db, id: TaskId, nowMs: int, cutoff: int, now: Time, clock: Clock,
                           s: Script, pass: Pass, result: Submitted) {
    if s.queued.Some? then
      result == AuditFailed && db == RejectedIn(id, "audit_error:" + s.queued.value, QUEUE_AUDIT_FAILED, true, now, was).0
    else
      var (queued, reply) := Activated(cfg, id, now, UpdatedIn(CountAuditOp(id, now), was).0);
      if reply.Full? then Backpressed(queued, db, id, now, s, result)
      else result == Accepted(id) && Passed(cfg, queued, db, nowMs, cutoff, clock, s, pass)
  }

  lemma EnqueuedIsNotRefused(cfg: Config, was: Db, db: Db, id: TaskId, nowMs: int, cutoff: int, now: Time, clock: Clock,
                             s: Script, pass: Pass, result: Submitted)
    requires Enqueued(cfg, was, db, id, nowMs, cutoff, now, clock, s, pass, result)
    ensures !result.Refused?
  {
    hide Passed, RejectedIn, UpdatedIn, Activated;
  }

  /** A submission is answered as the creating loop answers it: refused, replayed if
      that is audited, or enqueued. */
  ghost predicate SubmittedAs(cfg: Config, was: Db, db: Db, r: Record, nowMs: int, cutoff: int, now: Time, clock: Clock,
                              s: Script, pass: Pass, result: Submitted) {
    var (db1, reply) := CreateRounds(cfg, r, Bumped(was, ZERO.(submitted := 1)), RETRIES);
    match reply
    case Full => result == Backpressure && db == db1
    case Replay(x) => if s.replayed then result == Existing(x) && db == db1
                      else result == AuditFailed && db == Bumped(db1, ZERO.(auditFailures := 1))
    case Updated(_) => Enqueued(cfg, db1, db, r.id, nowMs, cutoff, now, clock, s, pass, result)
    case _ => false
  }

  lemma SubmissionKeepsRecord(id: TaskId, now: Time, db: Db)
    requires id in db.records
    ensures id in UpdatedIn(CountAuditOp(id, now), db).0.records
  {
  }

  lemma ActivationKeepsRecord(cfg: Config, id: TaskId, now: Time, db: Db)
    requires id in db.records
    ensures id in Activated(cfg, id, now, db).0.records
  {
  }

  lemma RejectionKeepsRecord(id: TaskId, now: Time, db: Db)
    requires id in db.records
    ensures id in RejectedIn(id, NO_ROOM, POOL_FULL, false, now, db).0.records
  {
  }

  function Audited(r: Record, now: Time): Record {
    r.(auditEvents := r.auditEvents + 1, updatedAt := now)
  }

  /** The answer of `submit` for a new record: decided by the queue audit, the room in
      the pool, and the audit of the rejection. */
  function EnqueueEnd(s: Script, full: bool, id: TaskId): Submitted {
    if s.queued.Some? then AuditFailed
    else if !full then Accepted(id)
    else if s.rejected then Backpressure else AuditFailed
  }

  function EnqueuedRecord(s: Script, full: bool, was: Record, now: Time): Record {
    if s.queued.Some? then RejectedRecord(was, "audit_error:" + s.queued.value, QUEUE_AUDIT_FAILED, now)
    else if !full then Audited(was, now)
    else
      var r := RejectedRecord(Audited(was, now), NO_ROOM, POOL_FULL, now);
      if s.rejected then Audited(r, now) else r
  }

  /** A new task that is not accepted counts as one rejection, and as a failed audit
      when the queue audit or that of the rejection was not recorded. */
  lemma RejectionIsCounted(cfg: Config, was: Db, db: Db, id: TaskId, nowMs: int, cutoff: int, now: Time, clock: Clock,
                           s: Script, pass: Pass, result: Submitted)
    requires id in was.records && was.records[id].status == Queued && !result.Accepted?
    requires Enqueued(cfg, was, db, id, nowMs, cutoff, now, clock, s, pass, result)
    ensures db.counters == was.counters.(
              rejected := was.counters.rejected + 1,
              auditFailures := was.counters.auditFailures + if s.queued.Some? || !s.rejected then 1 else 0)
  {
    hide RejectedIn, UpdatedIn, Activated;
    if s.queued.Some? {
      RejectCounts(was, id, "audit_error:" + s.queued.value, QUEUE_AUDIT_FAILED, true, now);
    } else {
      var audited := UpdatedIn(CountAuditOp(id, now), was).0;
      CountedAudit(was, id, now);
      AuditCounts(was, id, now);
      FullChangesNothing(cfg, id, now, audited);
      RejectCounts(audited, id, NO_ROOM, POOL_FULL, false, now);
      var refused := RejectedIn(id, NO_ROOM, POOL_FULL, false, now, audited).0;
      if s.rejected { AuditCounts(refused, id, now); }
    }
  }

  lemma AuditCounts(db: Db, id: TaskId, now: Time)
    requires id in db.records
    ensures UpdatedIn(CountAuditOp(id, now), db).0.counters == db.counters
  {
  }

  lemma FullChangesNothing(cfg: Config, id: TaskId, now: Time, db: Db)
    ensures Activated(cfg, id, now, db).1.Full? ==> Activated(cfg, id, now, db).0 == db
  {
  }

  lemma RejectCounts(db: Db, id: TaskId, code: string, detail: string, auditFailed: bool, now: Time)
    requires id in db.records && db.records[id].status == Queued
    ensures var db1 := RejectedIn(id, code, detail, auditFailed, now, db).0;
            && id in db1.records
            && db1.counters == db.counters.(rejected := db.counters.rejected + 1,
                                            auditFailures := db.counters.auditFailures + if auditFailed then 1 else 0)
  {
  }

  lemma CountedAudit(db: Db, id: TaskId, now: Time)
    requires id in db.records
    ensures var db1 := UpdatedIn(CountAuditOp(id, now), db).0;
            && db1.records == db.records[id := Audited(db.records[id], now)]
            && db1.staging == db.staging && db1.queues == db.queues && db1.leases == db.leases
  {
    PoolsUntouched(db, db.records[id].pool, id);
  }

  lemma Rejects(db: Db, id: TaskId, code: string, detail: string, auditFailed: bool, now: Time)
    requires id in db.records && db.records[id].status.Queued?
    ensures RejectedIn(id, code, detail, auditFailed, now, db).0.records
            == db.records[id := RejectedRecord(db.records[id], code, detail, now)]
  {
  }

  /** What that means for the submitter: the answer is decided by the queue audit, the
      room in the pool and the audit of the rejection; the record ends accordingly;
      and an accepted task is in its queue while its outbox member waits or its
      message was sent. */
  lemma EnqueuedMeans(cfg: Config, was: Db, db: Db, id: TaskId, nowMs: int, cutoff: int, now: Time, clock: Clock, s: Script,
                      pass: Pass, result: Submitted)
    requires Valid(cfg, was) && id in was.records && id in was.staging
    requires Enqueued(cfg, was, db, id, nowMs, cutoff, now, clock, s, pass, result)
    ensures var r := was.records[id];
            var full := PoolFull(cfg, was, r.pool);
            result == EnqueueEnd(s, full, id) && id in db.records && db.records[id] == EnqueuedRecord(s, full, r, now)
    ensures result.Accepted? ==>
              var r := db.records[id];
              id in db.queues.At(r.pool)
              && (Member(r.pool, id, r.recoveredCount) in db.outbox || Member(r.pool, id, r.recoveredCount) in Notified(pass.due, s))
  {
    StagedFacts(cfg, was, id);
    UpdatedKeepsValid(cfg, CountAuditOp(id, now), was);
    hide Valid, IdOk, RejectedIn, UpdatedIn, Activated, Passed, RejectedRecord;
    if s.queued.Some? {
      Rejects(was, id, "audit_error:" + s.queued.value, QUEUE_AUDIT_FAILED, true, now);
    } else {
      var audited := UpdatedIn(CountAuditOp(id, now), was).0;
      CountedAudit(was, id, now);
      AuditedIsActivated(cfg, audited, id, now);
      var queued := Activated(cfg, id, now, audited).0;
      if PoolFull(cfg, was, was.records[id].pool) {
        BackpressedMeans(queued, db, id, now, s, result);
      } else {
        QueuedIsLeftAlone(cfg, queued, db, nowMs, cutoff, clock, s, pass, id);
      }
    }
  }

  lemma AuditedIsActivated(cfg: Config, db: Db, id: TaskId, now: Time)
    requires Valid(cfg, db) && id in db.staging && id in db.records && db.records[id].auditEvents > 0
    ensures var (db1, reply) := Activated(cfg, id, now, db);
            var r := db.records[id];
            && Valid(cfg, db1) && db1.records == db.records && r.status.Queued? && (reply.Full? <==> PoolFull(cfg, db, r.pool))
            && (!reply.Full? ==> id in db1.queues.At(r.pool) && Member(r.pool, id, r.recoveredCount) in db1.outbox)
  {
    StagedFacts(cfg, db, id);
    hide Valid, IdOk, Activated;
    ActivatedKeepsValid(cfg, id, now, db);
    StagedIsActivated(cfg, id, now, db);
  }

  lemma BackpressedMeans(was: Db, db: Db, id: TaskId, now: Time, s: Script, result: Submitted)
    requires id in was.records && was.records[id].status.Queued? && Backpressed(was, db, id, now, s, result)
    ensures var r := RejectedRecord(was.records[id], NO_ROOM, POOL_FULL, now);
            result == (if s.rejected then Backpressure else AuditFailed)
            && id in db.records && db.records[id] == if s.rejected then Audited(r, now) else r
  {
    hide RejectedIn, UpdatedIn, RejectedRecord;
    Rejects(was, id, NO_ROOM, POOL_FULL, false, now);
    var refused := RejectedIn(id, NO_ROOM, POOL_FULL, false, now, was).0;
    CountedAudit(refused, id, now);
  }

  lemma SubmissionReplies(cfg: Config, r: Record, db: Db)
    requires Valid(cfg, db) && r.id !in db.records
    ensures var (db1, reply) := CreateRounds(cfg, r, Bumped(db, ZERO.(submitted := 1)), RETRIES);
            match reply
            case Full => r.id !in db1.records
            case Replay(x) => r.id !in db1.records && x in db1.records
            case Updated(u) => u == r && r.id in db1.records && db1.records[r.id] == r && r.id in db1.staging
            case _ => false
  {
    hide CreateRounds, Valid;
    OutboxIrrelevant(cfg, db, db.outbox, db.counters.Plus(ZERO.(submitted := 1)));
    CreateReplies(cfg, r, Bumped(db, ZERO.(submitted := 1)), RETRIES);
  }

  /** What a submission means: a replay names a live task and creates nothing, a full
      store creates nothing, and a new record ends as `EnqueuedMeans` says. */
  lemma SubmittedMeans(cfg: Config, was: Db, db: Db, r: Record, nowMs: int, cutoff: int, now: Time, clock: Clock, s: Script,
                       pass: Pass, result: Submitted)
    requires Valid(cfg, was) && r.id !in was.records && r.status.Queued? && FieldsOk(r) && r.deliveryCount == 0
    requires SubmittedAs(cfg, was, db, r, nowMs, cutoff, now, clock, s, pass, result)
    ensures var (db1, reply) := CreateRounds(cfg, r, Bumped(was, ZERO.(submitted := 1)), RETRIES);
            match reply
            case Full => result == Backpressure && r.id !in db.records
            case Replay(x) => result == (if s.replayed then Existing(x) else AuditFailed) && x in db.records && r.id !in db.records
            case Updated(_) =>
              var full := PoolFull(cfg, db1, r.pool);
              result == EnqueueEnd(s, full, r.id) && r.id in db.records && db.records[r.id] == EnqueuedRecord(s, full, r, now)
            case _ => false
  {
    hide Valid, CreateRounds, Enqueued, EnqueuedRecord, EnqueueEnd, FieldsOk;
    SubmissionReplies(cfg, r, was);
    SubmissionKeepsValid(cfg, r, was);
    var (db1, reply) := CreateRounds(cfg, r, Bumped(was, ZERO.(submitted := 1)), RETRIES);
    if reply.Updated? { EnqueuedMeans(cfg, db1, db, r.id, nowMs, cutoff, now, clock, s, pass, result); }
  }

  /** A pass leaves a task that waits in its queue there, and its outbox member waits
      too unless its message was sent. */
  lemma QueuedIsLeftAlone(cfg: Config, was: Db, db: Db, nowMs: int, cutoff: int, clock: Clock, s: Script, pass: Pass, id: TaskId)
    requires Valid(cfg, was) && Passed(cfg, was, db, nowMs, cutoff, clock, s, pass)
    requires id in was.records && id in was.queues.At(was.records[id].pool)
    ensures id in db.records && db.records[id] == was.records[id] && id in db.queues.At(was.records[id].pool)
    ensures forall m :: m in was.outbox ==> m in db.outbox || m in Notified(pass.due, s)
  {
    var db1, db2 := AfterRecovery(was, nowMs, clock, pass), AfterStaging(cfg, was, nowMs, clock, pass);
    QueuedIsNotDue(cfg, was, id, nowMs, pass.leases);
    hide Valid, RequeuedAt, LeasesKept, ReconciledAt, DueMembers;
    assert Untouched(was, db1, id);
    assert Undisturbed(db1, db2, id);
    forall m | m in was.outbox ensures m in db.outbox || m in Notified(pass.due, s) {
      assert MemberAdded(was, db1, Listed(pass.leases), m);
      assert NewMember(db1, db2, pass.staged, m);
      SentIsAcknowledged(db2.outbox, pass.due, s, m);
    }
  }

  /** A queued task holds no lease and is not staged. */
  lemma QueuedIsNotDue(cfg: Config, db: Db, id: TaskId, nowMs: int, due: PerPool<seq<TaskId>>)
    requires Valid(cfg, db) && id in db.records && id in db.queues.At(db.records[id].pool)
    requires IsDue(db.leases.security, nowMs, 100, due.security) && IsDue(db.leases.agent, nowMs, 100, due.agent)
    requires IsDue(db.leases.evaluation, nowMs, 100, due.evaluation)
    ensures !Among(Listed(due), id) && id !in db.staging
  {
    assert IdOk(db, id);
    forall l | l in Listed(due) ensures l.id != id { }
  }
}
