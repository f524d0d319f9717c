/** What the task runtime promises over whole runs.  Each theorem is stated for
    the runs of the protocol; by WatchRefinement.InterleavingsAreAtomic they hold
    for every interleaving of the underlying Redis transactions. */
module TaskGuarantees {
  import opened TaskContracts
  import opened StoreState
  import opened StoreTransactions
  import opened StoreInvariant
  import opened StorePreservation
  import opened TaskProtocol
  import opened ProtocolRecords
  import opened ProtocolInvariant
  import opened ProtocolWakes

  // ----- Indexes -----

  ghost function WithStatus(db: Db, p: Pool, status: Status): set<TaskId> {
    set id | id in db.records && db.records[id].pool == p && db.records[id].status == status
  }

  ghost function StagedIn(db: Db, p: Pool): set<TaskId> {
    set id | id in db.staging && id in db.records && db.records[id].pool == p
  }

  ghost predicate Partitioned(db: Db, p: Pool) {
    && WithStatus(db, p, Queued) == StagedIn(db, p) + db.queues.At(p).Keys
    && StagedIn(db, p) !! db.queues.At(p).Keys
    && WithStatus(db, p, Running) == db.leases.At(p).Keys
    && WithStatus(db, p, Failed) == db.deadPools.At(p).Keys
  }

  ghost predicate Indexed(db: Db) {
    && db.staging.Keys <= db.records.Keys
    && db.terminal.Keys == (set id | id in db.records && Terminal(db.records[id].status))
    && db.dead.Keys == (set id | id in db.records && db.records[id].status.Failed?)
    && db.index.Keys == db.records.Keys
    && db.tenants.Keys == (set id | id in db.records :: (db.records[id].tenant, id))
  }

  lemma ValidIsPartitioned(db: Db, p: Pool)
    requires IndexesOk(db)
    ensures Partitioned(db, p)
  {
    forall id: TaskId
      ensures id in WithStatus(db, p, Queued) <==> id in StagedIn(db, p) + db.queues.At(p).Keys
      ensures !(id in StagedIn(db, p) && id in db.queues.At(p).Keys)
      ensures id in WithStatus(db, p, Running) <==> id in db.leases.At(p).Keys
      ensures id in WithStatus(db, p, Failed) <==> id in db.deadPools.At(p).Keys
    {
      assert IdOk(db, id);
    }
  }

  lemma ValidIsIndexed(db: Db)
    requires IndexesOk(db)
    ensures Indexed(db)
  {
    forall id: TaskId
      ensures id in db.staging ==> id in db.records
      ensures id in db.terminal <==> id in db.records && Terminal(db.records[id].status)
      ensures id in db.dead <==> id in db.records && db.records[id].status.Failed?
      ensures id in db.index <==> id in db.records
    {
      assert IdOk(db, id);
    }
    forall x: (string, TaskId) ensures x in db.tenants <==> x.1 in db.records && x.0 == db.records[x.1].tenant {
      assert IdOk(db, x.1);
      assert x == (x.0, x.1);
    }
  }

  /** The indexes partition the live tasks by status, pool by pool, and the
      global indexes hold exactly the tasks they are meant to. */
  lemma IndexesPartitionTasks(cfg: Config, run: seq<State>, n: nat, p: Pool)
    requires IsRun(cfg, run) && n < |run|
    ensures Partitioned(run[n].db, p) && Indexed(run[n].db)
  {
    RunKeepsCore(cfg, run, n);
    ValidIsPartitioned(run[n].db, p);
    ValidIsIndexed(run[n].db);
  }

  /** A running task has a holder, and its lease score is the record's expiry. */
  lemma LeasesMatchRecords(cfg: Config, run: seq<State>, n: nat, p: Pool, id: TaskId)
    requires IsRun(cfg, run) && n < |run| && id in run[n].db.leases.At(p)
    ensures id in run[n].db.records
    ensures var r := run[n].db.records[id];
            r.status.Running? && r.holder.Some? && r.leaseExpires.Some?
            && run[n].db.leases.At(p)[id] == Millis(r.leaseExpires.value)
  {
    RunKeepsCore(cfg, run, n);
    assert IdOk(run[n].db, id);
    InLeaseFacts(run[n].db, id, p);
  }

  /** The branches that repair a broken index never take effect: a claim moves a
      queued task, a recovery takes an expired lease of a running task, a purge
      deletes a terminal record, and dropping a stale entry changes nothing. */
  lemma RepairsNeverCommit(cfg: Config, run: seq<State>, i: nat, c: ClientId, op: Op, t: Option<nat>, b: Block, reply: Reply)
    requires IsRun(cfg, run) && i + 1 < |run| && NextStep(cfg, run[i], run[i + 1], CommitStep(c, op, t, b, reply))
    ensures !reply.Again?
    ensures op.ClaimOp? ==> b.id in run[i].db.records && run[i].db.records[b.id].status.Queued?
                            && b.record == SetRecord(Claimed(cfg, run[i].db.records[b.id], op.worker, op.now))
    ensures op.RecoverOp? ==> b.id in run[i].db.records && run[i].db.records[b.id].status.Running?
                              && run[i].db.records[b.id].leaseExpires.Some?
                              && Millis(run[i].db.records[b.id].leaseExpires.value) <= op.nowMs
                              && b.record == SetRecord(Recovered(run[i].db.records[b.id], op.now))
    ensures op.PurgeOp? ==> b.record.DeleteRecord? && b.id in run[i].db.records
                            && Terminal(run[i].db.records[b.id].status)
    ensures op.DropTerminalOp? || op.DropStagingOp? ==> run[i + 1].db == run[i].db
  {
    var db := run[i].db;
    RunKeepsCore(cfg, run, i);
    CallsAreAdmissible(run[i], c, op);
    CommitNeverAgain(cfg, op, db, t, b, reply);
    if op.ClaimOp? {
      ClaimCommit(cfg, op, db, t, b, reply);
    } else if op.RecoverOp? {
      RecoverCommit(cfg, op, db, t, b, reply);
    } else if op.PurgeOp? {
      PurgeCommit(cfg, op, db, t, b, reply);
    } else if op.DropTerminalOp? || op.DropStagingOp? {
      DropCommit(cfg, op, db, t, b, reply);
    }
  }

  // ----- Records over time -----

  lemma NextIsLater(cfg: Config, s: State, s': State, id: TaskId)
    requires CoreInv(cfg, s) && (Next(cfg, s, s') || s == s') && id in s.history
    ensures id in s'.history && Later(s.history[id], s'.history[id])
    ensures id !in s.db.records ==> id !in s'.db.records
  {
    LaterSelf(cfg, s, id);
    if s != s' {
      var step :| NextStep(cfg, s, s', step);
      hide *;
      if step.CommitStep? {
        CommitIsLater(cfg, s, s', step.c, step.op, step.ticket, step.block, step.reply, id);
      } else {
        OtherStepsKeepRecords(cfg, s, s', step);
      }
    }
  }

  lemma LaterSelf(cfg: Config, s: State, id: TaskId)
    requires CoreInv(cfg, s) && id in s.history
    ensures Later(s.history[id], s.history[id])
  {
    assert RecordOk(s, id);
  }

  lemma CommitIsLater(cfg: Config, s: State, s': State, c: ClientId, op: Op, t: Option<nat>, b: Block, reply: Reply, id: TaskId)
    requires CoreInv(cfg, s) && NextStep(cfg, s, s', CommitStep(c, op, t, b, reply)) && id in s.history
    ensures id in s'.history && Later(s.history[id], s'.history[id])
    ensures id !in s.db.records ==> id !in s'.db.records
  {
    hide CoreInv, NextStep, HistoryOk;
    CommitHistory(cfg, s, s', c, op, t, b, reply);
  }

  lemma OtherStepsKeepRecords(cfg: Config, s: State, s': State, step: Step)
    requires NextStep(cfg, s, s', step) && !step.CommitStep?
    ensures s'.history == s.history && s'.db.records == s.db.records && s'.created == s.created
  {
    hide Atomic, TrueAnswer;
  }

  lemma StepAdvances(cfg: Config, run: seq<State>, k: nat, id: TaskId)
    requires IsRun(cfg, run) && k + 1 < |run| && id in run[k].history
    ensures id in run[k + 1].history && Later(run[k].history[id], run[k + 1].history[id])
    ensures id !in run[k].db.records ==> id !in run[k + 1].db.records
  {
    RunKeepsCore(cfg, run, k);
    assert StepAt(cfg, run, k);
    NextIsLater(cfg, run[k], run[k + 1], id);
  }

  /** Between any two states of a run a task keeps its identity, its counts only
      grow, a terminal record only gains audit counts, and a purged task stays purged. */
  lemma {:induction false} RecordsOnlyAdvance(cfg: Config, run: seq<State>, i: nat, j: nat, id: TaskId)
    requires IsRun(cfg, run) && i <= j < |run| && id in run[i].history
    ensures id in run[j].history && Later(run[i].history[id], run[j].history[id])
    ensures id !in run[i].db.records ==> id !in run[j].db.records
    decreases j - i
  {
    hide IsRun, StepAt;
    if i < j {
      RecordsOnlyAdvance(cfg, run, i, j - 1, id);
      StepAdvances(cfg, run, j - 1, id);
      LaterTransitive(run[i].history[id], run[j - 1].history[id], run[j].history[id]);
    } else {
      RunKeepsCore(cfg, run, i);
      assert RecordOk(run[i], id);
    }
  }

  /** A terminal status, result and error stay until the task is purged, and no
      task becomes terminal twice. */
  lemma TerminalOnce(cfg: Config, run: seq<State>, i: nat, j: nat, id: TaskId)
    requires IsRun(cfg, run) && i < j && j + 1 < |run|
    requires id in run[i].history && !Terminal(run[i].history[id].status)
    requires id in run[i + 1].history && Terminal(run[i + 1].history[id].status)
    ensures id in run[j].history && Terminal(run[j].history[id].status) && id in run[j + 1].history
    ensures var r, r' := run[i + 1].history[id], run[j + 1].history[id];
            r'.status == r.status && r'.result == r.result && r'.errorCode == r.errorCode
            && r'.errorMessage == r.errorMessage && r'.completedAt == r.completedAt
  {
    RecordsOnlyAdvance(cfg, run, i + 1, j, id);
    RecordsOnlyAdvance(cfg, run, i + 1, j + 1, id);
  }

  // ----- Fencing -----

  /** The worker no longer holds the lease of the task it claimed. */
  ghost predicate Fenced(s: State, w: ClientId, id: TaskId) {
    Holds(s, w, id) && id in s.history && s.history[id].holder != Some(w)
  }

  lemma CommitKeepsFence(cfg: Config, s: State, s': State, c: ClientId, op: Op, t: Option<nat>, b: Block, reply: Reply,
                         w: ClientId, id: TaskId)
    requires CoreInv(cfg, s) && NextStep(cfg, s, s', CommitStep(c, op, t, b, reply)) && Fenced(s, w, id)
    ensures Fenced(s', w, id)
  {
    CommitHistory(cfg, s, s', c, op, t, b, reply);
    HoldsKept(s, s', c, op, reply, w, id);
    assert Later(s.history[id], s'.history[id]);
    HolderNotRegained(cfg, s, s', c, op, b, reply, w, id);
  }

  lemma ClaimersAreIdle(cl: Client, c: ClientId, op: Op)
    requires op.ClaimOp? && CallOf(cl, c, op)
    ensures !cl.Working() && op.worker == c
  {
  }

  lemma HolderNotRegained(cfg: Config, s: State, s': State, c: ClientId, op: Op, b: Block, reply: Reply, w: ClientId, id: TaskId)
    requires HistoryOk(s) && InCall(s, c, op) && RecordEffect(cfg, op, s.db, b, reply) && Fenced(s, w, id)
    requires id in s'.history && s'.history == Record1(s.history, b) && (op.CreateOp? ==> op.id !in s.history)
    ensures s'.history[id].holder != Some(w)
  {
    hide Atomic, TrueAnswer, CallOf;
    if id == b.id && b.record.SetRecord? {
      assert RecordStep(cfg, op, s.history[id], s'.history[id]);
      if op.ClaimOp? { ClaimersAreIdle(s.clients[c], c, op); }
      StepGivesToCaller(cfg, op, s.history[id], s'.history[id], w);
    }
  }

  /** Only a claim hands a task to a worker, and only to its caller. */
  lemma StepGivesToCaller(cfg: Config, op: Op, r: Record, r': Record, w: ClientId)
    requires RecordStep(cfg, op, r, r') && !op.CreateOp? && r.holder != Some(w)
    requires op.ClaimOp? ==> op.worker != w
    ensures r'.holder != Some(w)
  {
  }

  lemma OtherStepsKeepFence(cfg: Config, s: State, s': State, step: Step, w: ClientId, id: TaskId)
    requires NextStep(cfg, s, s', step) && !step.CommitStep? && Fenced(s, w, id)
    ensures Fenced(s', w, id)
  {
    hide Atomic, TrueAnswer;
  }

  lemma NextKeepsFence(cfg: Config, s: State, s': State, w: ClientId, id: TaskId)
    requires CoreInv(cfg, s) && Next(cfg, s, s') && Fenced(s, w, id)
    ensures Fenced(s', w, id)
  {
    var step :| NextStep(cfg, s, s', step);
    if step.CommitStep? {
      CommitKeepsFence(cfg, s, s', step.c, step.op, step.ticket, step.block, step.reply, w, id);
    } else {
      OtherStepsKeepFence(cfg, s, s', step, w, id);
    }
  }

  lemma StepKeepsFence(cfg: Config, run: seq<State>, k: nat, w: ClientId, id: TaskId)
    requires IsRun(cfg, run) && k + 1 < |run| && Fenced(run[k], w, id)
    ensures Fenced(run[k + 1], w, id)
  {
    RunKeepsCore(cfg, run, k);
    assert StepAt(cfg, run, k);
    if run[k] != run[k + 1] { NextKeepsFence(cfg, run[k], run[k + 1], w, id); }
  }

  /** A worker that lost its lease never holds that task again. */
  lemma {:induction false} FenceIsPermanent(cfg: Config, run: seq<State>, i: nat, j: nat, w: ClientId, id: TaskId)
    requires IsRun(cfg, run) && i <= j < |run| && Fenced(run[i], w, id)
    ensures Fenced(run[j], w, id)
    decreases j - i
  {
    if i < j {
      FenceIsPermanent(cfg, run, i, j - 1, w, id);
      StepKeepsFence(cfg, run, j - 1, w, id);
    }
  }

  /** Whether the worker's `finish`, `heartbeat` or fenced `update` of the task. */
  predicate FencedCall(op: Op, w: ClientId, id: TaskId) {
    (op.FinishOp? || op.HeartbeatOp? || op.SetAttemptsOp?) && op.id == id && op.worker == w
  }

  lemma FencedCallWritesNothing(cfg: Config, s: State, w: ClientId, id: TaskId, op: Op, t: Option<nat>)
    requires HistoryOk(s) && Fenced(s, w, id) && FencedCall(op, w, id)
    ensures !Atomic(cfg, op, s.db, t).Exec?
  {
  }

  /** Fencing over whole runs: once a worker lost its lease, none of its
      finishes, heartbeats and attempt updates ever writes to the store again. */
  lemma LostLeaseNeverWrites(cfg: Config, run: seq<State>, i: nat, j: nat, w: ClientId, id: TaskId, op: Op, t: Option<nat>)
    requires IsRun(cfg, run) && i <= j < |run| && Fenced(run[i], w, id) && FencedCall(op, w, id)
    ensures !Atomic(cfg, op, run[j].db, t).Exec?
  {
    FenceIsPermanent(cfg, run, i, j, w, id);
    RunKeepsCore(cfg, run, j);
    FencedCallWritesNothing(cfg, run[j], w, id, op, t);
  }

  /** A heartbeat runs only beside a worker that has claimed the task. */
  ghost predicate PulseOk(s: State, c: ClientId) {
    c in s.clients && s.clients[c].Pulse? ==> Holds(s, s.clients[c].worker, s.clients[c].task)
  }

  lemma CommitKeepsPulse(s: State, s': State, c: ClientId, op: Op, reply: Reply, d: ClientId)
    requires c in s.clients && s'.clients == s.clients[c := AfterExec(s.clients[c], op, reply)] && PulseOk(s, d)
    ensures PulseOk(s', d)
  {
    if d in s.clients && s.clients[d].Pulse? { HoldsKept(s, s', c, op, reply, s.clients[d].worker, s.clients[d].task); }
  }

  lemma GiveKeepsPulse(s: State, s': State, c: ClientId, op: Op, answer: Reply, d: ClientId)
    requires c in s.clients && s'.clients == s.clients[c := AfterGive(s.clients[c], op, answer)] && PulseOk(s, d)
    ensures PulseOk(s', d)
  {
  }

  lemma StepKeepsPulse(cfg: Config, s: State, s': State, step: Step, d: ClientId)
    requires NextStep(cfg, s, s', step) && PulseOk(s, d)
    ensures PulseOk(s', d)
  {
    hide Atomic, TrueAnswer, Apply;
    match step
    case CommitStep(c, op, _, _, reply) => CommitKeepsPulse(s, s', c, op, reply, d);
    case GiveStep(c, op, answer) => GiveKeepsPulse(s, s', c, op, answer, d);
    case _ =>
  }

  lemma {:induction false} PulsesHold(cfg: Config, run: seq<State>, n: nat, d: ClientId)
    requires IsRun(cfg, run) && n < |run|
    ensures PulseOk(run[n], d)
  {
    if n > 0 {
      PulsesHold(cfg, run, n - 1, d);
      assert StepAt(cfg, run, n - 1);
      hide NextStep, PulseOk;
      if run[n - 1] != run[n] {
        var step :| NextStep(cfg, run[n - 1], run[n], step);
        StepKeepsPulse(cfg, run[n - 1], run[n], step, d);
      }
    }
  }

  lemma RefusedPulseIsFenced(cfg: Config, s: State, c: ClientId, op: Op)
    requires CoreInv(cfg, s) && PulseOk(s, c) && op.HeartbeatOp? && InCall(s, c, op)
    requires TrueAnswer(cfg, op, s.db, Flag(false))
    ensures Fenced(s, op.worker, op.id)
  {
    hide Valid, ClientOk, StartsOk, TrueAnswer;
    AnswersTell(cfg, op, s.db, Flag(false));
    assert RecordOk(s, op.id);
  }

  /** A heartbeat that answers false is never wrong: from its last read on the worker
      no longer holds the lease, and it never holds the task again. */
  lemma AFailedHeartbeatIsFinal(cfg: Config, run: seq<State>, i: nat, j: nat, c: ClientId, op: Op)
    requires IsRun(cfg, run) && i < j < |run| && op.HeartbeatOp?
    requires NextStep(cfg, run[i], run[i + 1], GiveStep(c, op, Flag(false)))
    ensures Fenced(run[i], op.worker, op.id) && Fenced(run[j], op.worker, op.id)
  {
    PulsesHold(cfg, run, i, c);
    RunKeepsCore(cfg, run, i);
    RefusedPulseIsFenced(cfg, run[i], c, op);
    FenceIsPermanent(cfg, run, i, j, op.worker, op.id);
  }

  /** Recovering a lease fences the worker that held it. */
  lemma RecoveryFences(cfg: Config, run: seq<State>, i: nat, c: ClientId, op: Op, t: Option<nat>, b: Block, reply: Reply,
                       w: ClientId)
    requires IsRun(cfg, run) && i + 1 < |run| && op.RecoverOp?
    requires NextStep(cfg, run[i], run[i + 1], CommitStep(c, op, t, b, reply))
    requires b.id in run[i].db.records && run[i].db.records[b.id].holder == Some(w)
    ensures Fenced(run[i + 1], w, b.id)
  {
    var s, s' := run[i], run[i + 1];
    RunKeepsCore(cfg, run, i);
    RecoverCommit(cfg, op, s.db, t, b, reply);
    assert RecordOk(s, b.id) && Holds(s, w, b.id);
    HoldsKept(s, s', c, op, reply, w, b.id);
  }

  // ----- Attempts and audits -----

  ghost function StartCount(starts: seq<Start>, id: TaskId): nat {
    if starts == [] then 0
    else StartCount(starts[..|starts| - 1], id) + if starts[|starts| - 1].id == id then 1 else 0
  }

  ghost function AttemptsStarted(starts: seq<Start>, id: TaskId): (r: set<nat>)
    ensures forall k :: k in r <==> Start(id, k) in starts
  {
    if starts == [] then {}
    else
      var rest, last := starts[..|starts| - 1], starts[|starts| - 1];
      assert starts == rest + [last];
      AttemptsStarted(rest, id) + if last.id == id then {last.attempt} else {}
  }

  lemma {:induction false} DistinctStartsCounted(starts: seq<Start>, id: TaskId)
    requires forall i, j :: 0 <= i < j < |starts| ==> starts[i] != starts[j]
    ensures StartCount(starts, id) == |AttemptsStarted(starts, id)|
  {
    if starts != [] {
      var rest, last := starts[..|starts| - 1], starts[|starts| - 1];
      DistinctStartsCounted(rest, id);
      assert last !in rest;
    }
  }

  lemma {:induction false} UpToSize(xs: set<nat>, k: nat)
    requires forall x :: x in xs ==> 1 <= x <= k
    ensures |xs| <= k
  {
    if k == 0 {
      assert xs == {};
    } else {
      UpToSize(xs - {k}, k - 1);
    }
  }

  /** Across all deliveries, crashes and recoveries a task's handler is started at
      most max_attempts times, each attempt number at most once. */
  lemma AttemptBudget(cfg: Config, run: seq<State>, n: nat, id: TaskId)
    requires IsRun(cfg, run) && n < |run| && id in run[n].history
    ensures StartCount(run[n].starts, id) <= run[n].history[id].attempts <= run[n].history[id].maxAttempts
    ensures forall i, j :: 0 <= i < j < |run[n].starts| ==> run[n].starts[i] != run[n].starts[j]
  {
    hide IsRun;
    var s := run[n];
    RunKeepsCore(cfg, run, n);
    assert RecordOk(s, id);
    DistinctStartsCounted(s.starts, id);
    UpToSize(AttemptsStarted(s.starts, id), s.history[id].attempts);
  }

  /** A handler is only ever started for a task whose queue audit was counted. */
  lemma StartsAreAudited(cfg: Config, run: seq<State>, i: nat, c: ClientId)
    requires IsRun(cfg, run) && i + 1 < |run| && NextStep(cfg, run[i], run[i + 1], StartStep(c))
    ensures var id := run[i].clients[c].task;
            id in run[i].history && run[i].history[id].auditEvents >= 2
  {
    RunKeepsCore(cfg, run, i);
    assert ClientOk(run[i], c, run[i].clients[c]);
  }

  /** A success is backed by the queue, start, completion and output audits. */
  lemma SuccessIsAudited(cfg: Config, run: seq<State>, n: nat, id: TaskId)
    requires IsRun(cfg, run) && n < |run| && id in run[n].history && run[n].history[id].status.Succeeded?
    ensures run[n].history[id].auditEvents >= 4 && run[n].history[id].result.Some?
  {
    RunKeepsCore(cfg, run, n);
    assert RecordOk(run[n], id);
  }

  // ----- Capacity, conservation, idempotency -----

  lemma PoolsStayWithinRoom(cfg: Config, run: seq<State>, n: nat, p: Pool)
    requires IsRun(cfg, run) && n < |run|
    ensures |run[n].db.queues.At(p)| + |run[n].db.leases.At(p)| <= cfg.Room(p)
    ensures |run[n].db.records| <= cfg.maxRecords
  {
    RunKeepsCore(cfg, run, n);
  }

  /** Deliveries minus recoveries: none pending while queued, one while running or
      finished, none or one when rejected. */
  lemma DeliveriesMatchStatus(cfg: Config, run: seq<State>, n: nat, id: TaskId)
    requires IsRun(cfg, run) && n < |run| && id in run[n].history
    ensures var r := run[n].history[id];
            match r.status
            case Queued => r.deliveryCount == r.recoveredCount
            case Rejected => r.recoveredCount <= r.deliveryCount <= r.recoveredCount + 1
            case _ => r.deliveryCount == r.recoveredCount + 1
  {
    RunKeepsCore(cfg, run, n);
    assert RecordOk(run[n], id);
  }

  /** The idempotency index is a bijection between its scopes and the live
      records that carry one. */
  lemma IdempotencyBijection(cfg: Config, run: seq<State>, n: nat, scope: Scope, id: TaskId)
    requires IsRun(cfg, run) && n < |run|
    ensures (scope in run[n].db.idem && run[n].db.idem[scope] == id)
            <==> (id in run[n].db.records && ScopeOf(run[n].db.records[id]) == Some(scope))
  {
    RunKeepsCore(cfg, run, n);
    assert IdOk(run[n].db, id);
  }

  /** While a task created under a scope lives, submitting the scope again writes
      nothing and answers with that task. */
  lemma ReplayCreatesNothing(cfg: Config, run: seq<State>, n: nat, id: TaskId, op: Op, t: Option<nat>)
    requires IsRun(cfg, run) && n < |run| && id in run[n].db.records && op.CreateOp?
    requires ScopeOf(run[n].db.records[id]).Some?
    requires ScopeOf(NewRecord(op.sub, op.who, op.trace, op.id, op.now)) == ScopeOf(run[n].db.records[id])
    ensures Atomic(cfg, op, run[n].db, t) == Give(Replay(id))
  {
    var scope := ScopeOf(run[n].db.records[id]).value;
    IdempotencyBijection(cfg, run, n, scope, id);
  }

  // ----- Wake-ups -----

  ghost function OutboxOf(db: Db, p: Pool): set<Member> {
    set m | m in db.outbox && m.pool == p
  }

  /** No lost wake-up: if no claim of the pool ever raised, every queued task is
      covered by an outbox member or an unconsumed broker message. */
  lemma NoLostWakeUp(cfg: Config, run: seq<State>, n: nat, p: Pool)
    requires IsRun(cfg, run) && n < |run|
    ensures |OutboxOf(run[n].db, p)| + |Pending(run[n], p)| + run[n].wasted.At(p) >= |run[n].db.queues.At(p)|
    ensures run[n].wasted.At(p) == 0 ==> |OutboxOf(run[n].db, p)| + |Pending(run[n], p)| >= |run[n].db.queues.At(p)|
  {
    RunKeepsWakes(cfg, run, n);
    assert WakesCover(run[n], p);
    SubsetSize(Unnotified(run[n], p), OutboxOf(run[n].db, p));
  }
}
