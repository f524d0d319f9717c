/** Nothing in the protocol stands in the way of a task: from every reachable state a
    submission with room can be queued, and the head of a queue can be claimed,
    executed and finished.  The theorems about all runs therefore speak of runs in
    which tasks do succeed. */
module TaskProgress {
  import opened TaskContracts
  import opened StoreState
  import opened StoreTransactions
  import opened StoreInvariant
  import opened StorePreservation
  import E = StoreEffects
  import opened TaskProtocol
  import opened ProtocolInvariant

  ghost predicate Reaches(cfg: Config, run: seq<State>, s: State) {
    IsRun(cfg, run) && |run| > 0 && run[|run| - 1] == s
  }

  lemma ReachedIsOk(cfg: Config, run: seq<State>, s: State)
    requires Reaches(cfg, run, s)
    ensures CoreInv(cfg, s)
  {
    RunKeepsCore(cfg, run, |run| - 1);
  }

  /** The run goes on to s'. */
  lemma Continue(cfg: Config, run: seq<State>, s: State, s': State) returns (longer: seq<State>)
    requires Reaches(cfg, run, s) && Next(cfg, s, s')
    ensures Reaches(cfg, longer, s') && run <= longer && CoreInv(cfg, s')
  {
    hide NextStep, Init;
    longer := run + [s'];
    forall i: nat | i + 1 < |longer| ensures StepAt(cfg, longer, i) {
      if i + 1 < |run| { assert StepAt(cfg, run, i); }
    }
    RunKeepsCore(cfg, longer, |run|);
  }

  // ----- A worker and its task -----

  /** Worker c holds the lease of the task with record r and is at this stage. */
  ghost predicate Mine(s: State, c: ClientId, stage: WorkerStage, r: Record) {
    && c in s.clients && s.clients[c].Worker? && s.clients[c].work == stage && s.clients[c].task == r.id
    && s.clients[c].attempts == r.attempts && s.clients[c].budget == r.maxAttempts
    && r.id in s.db.records && s.db.records[r.id] == r && r.status == Running && r.holder == Some(c)
  }

  /** A committed call of a client. */
  lemma Commit(cfg: Config, s: State, c: ClientId, op: Op, t: Option<nat>) returns (s': State, d: Decision)
    requires Calls(s, c, op) && Atomic(cfg, op, s.db, t).Exec? && (t.Some? ==> t.value in s.tickets)
    ensures d == Atomic(cfg, op, s.db, t) && s' == Committed(s, c, op, t, d.block, d.reply) && Next(cfg, s, s')
  {
    d := Atomic(cfg, op, s.db, t);
    s' := Committed(s, c, op, t, d.block, d.reply);
    hide Atomic, Committed;
    assert NextStep(cfg, s, s', CommitStep(c, op, t, d.block, d.reply));
  }

  lemma ClaimStep(cfg: Config, s: State, c: ClientId, now: Time) returns (s': State, r: Record)
    requires CoreInv(cfg, s) && c in s.clients && s.clients[c].Worker? && s.clients[c].work == Claiming
    requires s.db.queues.At(s.clients[c].pool) != map[]
    ensures Next(cfg, s, s') && Mine(s', c, Opening, r) && s'.starts == s.starts
    ensures var id := Head(s.db.queues.At(s.clients[c].pool));
            id in s.db.records && r.id == id && r.attempts == s.db.records[id].attempts
            && r.maxAttempts == s.db.records[id].maxAttempts && r.auditEvents == s.db.records[id].auditEvents
  {
    var p := s.clients[c].pool;
    var op := ClaimOp(p, c, now);
    E.ClaimExactly(cfg, op, s.db);
    var d;
    s', d := Commit(cfg, s, c, op, None);
    E.ClaimWrites(cfg, op, s.db, None, d.block, d.reply);
    r := d.reply.record;
    HeadIsItself(cfg, s, p);
    hide Atomic, Valid, Apply;
  }

  lemma HeadIsItself(cfg: Config, s: State, p: Pool)
    requires CoreInv(cfg, s) && s.db.queues.At(p) != map[]
    ensures Head(s.db.queues.At(p)) in s.db.records && s.db.records[Head(s.db.queues.At(p))].id == Head(s.db.queues.At(p))
  {
    assert IdOk(s.db, Head(s.db.queues.At(p)));
    InQueueFacts(s.db, Head(s.db.queues.At(p)), p);
  }

  /** The stage after an audit of this one was counted. */
  function AfterAudit(stage: WorkerStage): WorkerStage {
    match stage case Opening => Ready case Completing => Closing case _ => Succeeding
  }

  /** A committed update of the worker's own record. */
  lemma UpdatedIsMine(s: State, s': State, c: ClientId, op: Op, d: Decision, stage: WorkerStage, r: Record, u: Record)
    requires Mine(s, c, stage, r) && d.Exec? && d.reply == Updated(u) && s' == Committed(s, c, op, None, d.block, d.reply)
    requires Apply(s.db, d.block).records == s.db.records[r.id := u]
    requires u.id == r.id && u.maxAttempts == r.maxAttempts && u.status == Running && u.holder == Some(c)
    requires (op.CountAuditOp? && stage in {Opening, Completing, Closing} && u.attempts == r.attempts)
             || (op.SetAttemptsOp? && stage == Ready && u.attempts == r.attempts + 1)
    ensures Mine(s', c, if stage == Ready then Granted else AfterAudit(stage), u) && s'.starts == s.starts
  {
    hide Apply;
  }

  lemma AuditStep(cfg: Config, s: State, c: ClientId, stage: WorkerStage, r: Record, now: Time) returns (s': State, u: Record)
    requires Mine(s, c, stage, r) && stage in {Opening, Completing, Closing}
    ensures Next(cfg, s, s') && Mine(s', c, AfterAudit(stage), u) && s'.starts == s.starts
    ensures u == r.(auditEvents := r.auditEvents + 1, updatedAt := now)
  {
    var op := CountAuditOp(r.id, now);
    E.UpdateExactly(cfg, op, s.db);
    hide Atomic, Apply, Committed, Next;
    var d;
    s', d := Commit(cfg, s, c, op, None);
    E.UpdateWrites(cfg, op, s.db, None, d.block, d.reply);
    u := r.(auditEvents := r.auditEvents + 1, updatedAt := now);
    UpdatedIsMine(s, s', c, op, d, stage, r, u);
  }

  lemma AttemptStep(cfg: Config, s: State, c: ClientId, r: Record, now: Time) returns (s': State, u: Record)
    requires Mine(s, c, Ready, r) && r.attempts < r.maxAttempts
    ensures Next(cfg, s, s') && Mine(s', c, Granted, u) && s'.starts == s.starts && u == r.(attempts := r.attempts + 1, updatedAt := now)
  {
    var op := SetAttemptsOp(r.id, c, r.attempts + 1, now);
    E.UpdateExactly(cfg, op, s.db);
    hide Atomic, Apply, Committed, Next;
    var d;
    s', d := Commit(cfg, s, c, op, None);
    E.UpdateWrites(cfg, op, s.db, None, d.block, d.reply);
    u := r.(attempts := r.attempts + 1, updatedAt := now);
    UpdatedIsMine(s, s', c, op, d, Ready, r, u);
  }

  lemma HandlerSteps(cfg: Config, s: State, c: ClientId, r: Record) returns (s1: State, s2: State)
    requires Mine(s, c, Granted, r)
    ensures Next(cfg, s, s1) && Next(cfg, s1, s2) && Mine(s2, c, Completing, r)
    ensures s2.starts == s.starts + [Start(r.id, r.attempts)]
  {
    var cl := s.clients[c];
    s1 := s.(clients := s.clients[c := cl.(work := Executing)], starts := s.starts + [Start(r.id, r.attempts)]);
    s2 := s1.(clients := s1.clients[c := cl.(work := Completing)]);
    hide Atomic, TrueAnswer;
    assert NextStep(cfg, s, s1, StartStep(c));
    assert NextStep(cfg, s1, s2, MoveStep(c, cl.(work := Completing)));
  }

  lemma FinishStep(cfg: Config, s: State, c: ClientId, r: Record, result: string, now: Time) returns (s': State)
    requires Mine(s, c, Succeeding, r)
    ensures Next(cfg, s, s') && r.id in s'.db.records && s'.starts == s.starts
    ensures var u := s'.db.records[r.id];
            u.status == Succeeded && u.result == Some(result) && u.attempts == r.attempts && u.auditEvents == r.auditEvents
  {
    var op := FinishOp(r.id, c, Succeeded, Some(result), None, None, false, now);
    E.FinishExactly(cfg, op, s.db);
    hide Atomic, Apply;
    var d;
    s', d := Commit(cfg, s, c, op, None);
    E.FinishWrites(cfg, op, s.db, None, d.block, d.reply);
  }

  /** From its claim on, the worker takes an attempt and runs the handler. */
  lemma ClaimedIsExecuted(cfg: Config, run: seq<State>, s: State, c: ClientId, r: Record)
    returns (longer: seq<State>, end: State, u: Record)
    requires Reaches(cfg, run, s) && Mine(s, c, Opening, r) && r.attempts < r.maxAttempts
    ensures Reaches(cfg, longer, end) && run <= longer && Mine(end, c, Completing, u)
    ensures u.id == r.id && u.attempts == r.attempts + 1 && u.auditEvents == r.auditEvents + 1
    ensures end.starts == s.starts + [Start(r.id, r.attempts + 1)]
  {
    hide Mine, CoreInv, Reaches, Next;
    var s1, r1 := AuditStep(cfg, s, c, Opening, r, 0);
    var s2, s3;
    s2, u := AttemptStep(cfg, s1, c, r1, 0);
    s3, end := HandlerSteps(cfg, s2, c, u);
    var a := Continue(cfg, run, s, s1);
    var b := Continue(cfg, a, s1, s2);
    var d := Continue(cfg, b, s2, s3);
    longer := Continue(cfg, d, s3, end);
  }

  /** A result is audited twice and committed. */
  lemma ExecutedIsCommitted(cfg: Config, run: seq<State>, s: State, c: ClientId, r: Record, result: string)
    returns (longer: seq<State>, end: State)
    requires Reaches(cfg, run, s) && Mine(s, c, Completing, r)
    ensures Reaches(cfg, longer, end) && run <= longer && end.starts == s.starts && r.id in end.db.records
    ensures var u := end.db.records[r.id];
            u.status == Succeeded && u.result == Some(result) && u.attempts == r.attempts && u.auditEvents == r.auditEvents + 2
  {
    hide Mine, CoreInv, Reaches, Next;
    var s1, r1 := AuditStep(cfg, s, c, Completing, r, 0);
    var s2, r2 := AuditStep(cfg, s1, c, Closing, r1, 0);
    end := FinishStep(cfg, s2, c, r2, result, 0);
    var a := Continue(cfg, run, s, s1);
    var b := Continue(cfg, a, s1, s2);
    longer := Continue(cfg, b, s2, end);
  }

  /** Every run that has a worker at a queue with a task can go on until that task has
      succeeded with any result: one more attempt and handler start, three more audits. */
  lemma QueuedTasksCanSucceed(cfg: Config, run: seq<State>, s: State, c: ClientId, result: string)
    returns (longer: seq<State>, end: State)
    requires Reaches(cfg, run, s) && c in s.clients && s.clients[c].Worker? && s.clients[c].work == Claiming
    requires s.db.queues.At(s.clients[c].pool) != map[]
    requires var id := Head(s.db.queues.At(s.clients[c].pool));
             id in s.db.records && s.db.records[id].attempts < s.db.records[id].maxAttempts
    ensures Reaches(cfg, longer, end) && run <= longer
    ensures var id := Head(s.db.queues.At(s.clients[c].pool));
            && id in end.db.records && end.db.records[id].status == Succeeded && end.db.records[id].result == Some(result)
            && end.db.records[id].attempts == s.db.records[id].attempts + 1
            && end.db.records[id].auditEvents == s.db.records[id].auditEvents + 3
            && end.starts == s.starts + [Start(id, s.db.records[id].attempts + 1)]
  {
    hide *;
    ReachedIsOk(cfg, run, s);
    var s1, r1 := ClaimStep(cfg, s, c, 0);
    var a := Continue(cfg, run, s, s1);
    var b, s2, r2 := ClaimedIsExecuted(cfg, a, s1, c, r1);
    longer, end := ExecutedIsCommitted(cfg, b, s2, c, r2, result);
  }

  // ----- A submission -----

  /** A submitter about to create its task under a new id, with room in the store and in
      the pool, and a scope not bound yet. */
  ghost predicate CanCreate(cfg: Config, s: State, cl: Client, id: TaskId, p: Pool) {
    && cl.Submitter? && p == PoolOf(cl.sub.kind) && cl.submit == Creating && id !in s.history && |s.db.index| < cfg.maxRecords
    && (cl.sub.key.Some? ==> Scope(cl.who.tenant, cl.who.actor, cl.sub.key.value) !in s.db.idem)
    && |s.db.queues.At(p)| + |s.db.leases.At(p)| < cfg.Room(p)
  }

  /** Every run with a submitter that can create its task can go on until the task waits in
      its queue with its outbox member beside it. */
  lemma SubmissionsCanBeQueued(cfg: Config, run: seq<State>, s: State, c: ClientId, id: TaskId, p: Pool)
    returns (longer: seq<State>, end: State)
    requires Reaches(cfg, run, s) && c in s.clients && CanCreate(cfg, s, s.clients[c], id, p)
    ensures Reaches(cfg, longer, end) && run <= longer
    ensures id in end.db.queues.At(p) && Member(p, id, 0) in end.db.outbox && id in end.db.records
            && end.db.records[id].auditEvents == 1
  {
    hide *;
    ReachedIsOk(cfg, run, s);
    var s1 := CreateStep(cfg, s, c, id, p, 0);
    var a := Continue(cfg, run, s, s1);
    var s2 := QueueAuditStep(cfg, s1, c, id, p, 0);
    var b := Continue(cfg, a, s1, s2);
    var s3, n := DrawStepOf(cfg, s2, c, id, p);
    var d := Continue(cfg, b, s2, s3);
    end := ActivateStep(cfg, s3, c, id, p, n, 0);
    longer := Continue(cfg, d, s3, end);
  }

  /** Submitter c has created the task, at this stage and with so many audits counted. */
  ghost predicate Submitted(cfg: Config, s: State, c: ClientId, stage: SubmitStage, id: TaskId, p: Pool, audits: nat) {
    && c in s.clients && s.clients[c].Submitter? && s.clients[c].submit == stage && s.clients[c].task == id
    && PoolOf(s.clients[c].sub.kind) == p && id in s.db.records
    && s.db.records[id].status == Queued && s.db.records[id].pool == p && s.db.records[id].recoveredCount == 0
    && s.db.records[id].auditEvents == audits && id !in s.db.queues.At(p)
    && |s.db.queues.At(p)| + |s.db.leases.At(p)| < cfg.Room(p)
  }

  lemma CreateStep(cfg: Config, s: State, c: ClientId, id: TaskId, p: Pool, now: Time) returns (s': State)
    requires CoreInv(cfg, s) && c in s.clients && CanCreate(cfg, s, s.clients[c], id, p)
    ensures Next(cfg, s, s') && Submitted(cfg, s', c, QueueAudit, id, p, 0)
  {
    var cl := s.clients[c];
    var op := CreateOp(cl.sub, cl.who, cl.trace, id, now);
    E.CreateExactly(cfg, op, s.db);
    var d;
    s', d := Commit(cfg, s, c, op, None);
    NewIsNotQueued(cfg, s, id, p);
    hide CoreInv, Atomic;
    CreatedIsSubmitted(cfg, s, s', c, op, d, p);
  }

  lemma NewIsNotQueued(cfg: Config, s: State, id: TaskId, p: Pool)
    requires CoreInv(cfg, s) && id !in s.history
    ensures Valid(cfg, s.db) && id !in s.db.records && id !in s.db.queues.At(p)
  {
    assert IdOk(s.db, id);
  }

  lemma CreatedIsSubmitted(cfg: Config, s: State, s': State, c: ClientId, op: Op, d: Decision, p: Pool)
    requires op.CreateOp? && c in s.clients && CanCreate(cfg, s, s.clients[c], op.id, p) && op.sub == s.clients[c].sub
    requires Valid(cfg, s.db) && op.id !in s.db.records && op.id !in s.db.queues.At(p)
    requires d.Exec? && d == Atomic(cfg, op, s.db, None)
    requires s' == Committed(s, c, op, None, d.block, d.reply)
    ensures Submitted(cfg, s', c, QueueAudit, op.id, p, 0)
  {
    hide Valid;
    E.CreateWrites(cfg, op, s.db, None, d.block, d.reply);
  }

  lemma QueueAuditStep(cfg: Config, s: State, c: ClientId, id: TaskId, p: Pool, now: Time) returns (s': State)
    requires Submitted(cfg, s, c, QueueAudit, id, p, 0)
    ensures Next(cfg, s, s') && Submitted(cfg, s', c, Activating, id, p, 1)
  {
    var op := CountAuditOp(id, now);
    E.UpdateExactly(cfg, op, s.db);
    hide Atomic, Apply;
    var d;
    s', d := Commit(cfg, s, c, op, None);
    E.UpdateWrites(cfg, op, s.db, None, d.block, d.reply);
  }

  lemma DrawStepOf(cfg: Config, s: State, c: ClientId, id: TaskId, p: Pool) returns (s': State, n: nat)
    requires Submitted(cfg, s, c, Activating, id, p, 1)
    ensures Next(cfg, s, s') && Submitted(cfg, s', c, Activating, id, p, 1) && n in s'.tickets
  {
    n := s.db.sequence + 1;
    s' := s.(db := s.db.(sequence := n), tickets := s.tickets + {n});
    assert NextStep(cfg, s, s', DrawStep);
  }

  lemma ActivateStep(cfg: Config, s: State, c: ClientId, id: TaskId, p: Pool, n: nat, now: Time) returns (s': State)
    requires CoreInv(cfg, s) && Submitted(cfg, s, c, Activating, id, p, 1) && n in s.tickets
    ensures Next(cfg, s, s') && id in s'.db.queues.At(p) && Member(p, id, 0) in s'.db.outbox
    ensures id in s'.db.records && s'.db.records[id].auditEvents == 1
  {
    var op := ActivateOp(id, p, now);
    E.ActivateExactly(cfg, op, s.db, n);
    var d;
    s', d := Commit(cfg, s, c, op, Some(n));
    E.ActivateWrites(cfg, op, s.db, Some(n), d.block, d.reply);
    hide Atomic, Apply, Valid;
  }
}
