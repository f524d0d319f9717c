/** The invariant of the task protocol. */
module ProtocolInvariant {
  import opened TaskContracts
  import opened StoreState
  import opened StoreTransactions
  import opened StoreInvariant
  import opened StorePreservation
  import opened TaskProtocol
  import opened ProtocolRecords

  /** History agrees with the live records; only terminal records are ever purged. */
  ghost predicate HistoryOk(s: State) {
    && (forall id :: id in s.db.records ==> id in s.history && s.history[id] == s.db.records[id])
    && (forall id :: id in s.history && id !in s.db.records ==> Terminal(s.history[id].status))
    && Lists(s.created, s.history)
  }

  /** The sequence names every key of the map exactly once. */
  ghost predicate Lists(created: seq<TaskId>, history: map<TaskId, Record>) {
    && (forall id :: id in created <==> id in history)
    && (forall i, j :: 0 <= i < j < |created| ==> created[i] != created[j])
  }

  lemma ListsGrows(created: seq<TaskId>, history: map<TaskId, Record>, id: TaskId, r: Record)
    requires Lists(created, history)
    ensures id in history ==> Lists(created, history[id := r])
    ensures id !in history ==> Lists(created + [id], history[id := r])
  {
    if id !in history {
      assert forall i :: 0 <= i < |created| ==> created[i] in created && created[i] != id;
    }
  }

  ghost predicate AuditedAtLeast(s: State, id: TaskId, n: nat) {
    id in s.history && s.history[id].auditEvents >= n
  }

  ghost predicate Gone(s: State, id: TaskId) {
    id in s.history && id !in s.db.records
  }

  /** Attempt numbers a task has been granted are 1 .. attempts, within its budget. */
  ghost predicate RecordOk(s: State, id: TaskId)
    requires id in s.history
  {
    var r := s.history[id];
    && r.id == id && FieldsOk(r) && r.attempts <= r.maxAttempts
    && (r.status.Running? || r.status.Succeeded? || r.status.Failed? ==> r.auditEvents >= 1)
    && (r.status.Succeeded? ==> r.auditEvents >= 4 && r.result.Some?)
    && (r.holder.Some? ==> Holds(s, r.holder.value, id))
  }

  ghost predicate Holds(s: State, w: ClientId, id: TaskId) {
    w in s.clients && s.clients[w].Working() && s.clients[w].task == id
  }

  ghost predicate RecordsOk(s: State) {
    && (forall id :: id in s.history ==> RecordOk(s, id))
    && (forall p: Pool, id :: id in s.db.queues.At(p) ==> AuditedAtLeast(s, id, 1))
  }

  /** What each client may rely on, whatever the others do. */
  ghost predicate ClientOk(s: State, c: ClientId, cl: Client) {
    match cl
    case Submitter(stage, sub, _, _, task) =>
      && 1 <= sub.maxAttempts
      && (match stage
          case Picked(x) => x in s.history && Terminal(s.history[x].status)
          case Dropping(x) => Gone(s, x)
          case Activating => AuditedAtLeast(s, task, 1)
          case _ => true)
    case Reconciler(stage) => (
      match stage
      case Looking(id, _) => id in s.history
      case ToActivate(id, _) => AuditedAtLeast(s, id, 1)
      case ToDrop(id) => Gone(s, id)
      case Acknowledging(m) => m in s.notified
      case _ => true)
    case Worker(stage, _, _, task, attempts, budget, audits) =>
      if !cl.Working() then audits == 0 else
      && AuditedAtLeast(s, task, 1 + audits)
      && budget == s.history[task].maxAttempts
      && (s.history[task].holder == Some(c) ==> attempts == s.history[task].attempts)
      && (stage.Granted? ==> 1 <= attempts <= s.history[task].attempts && Start(task, attempts) !in s.starts)
      && (stage.Ready? || stage.Granted? || stage.Executing? || stage.Retrying? || stage.Completing? ==> audits >= 1)
      && (stage.Closing? ==> audits >= 2)
      && (stage.Succeeding? ==> audits >= 3)
    case Pulse(_, _) => true
  }

  ghost predicate ClientsOk(s: State) {
    forall c :: c in s.clients ==> ClientOk(s, c, s.clients[c])
  }

  /** No attempt number of a task is started twice or granted to two workers. */
  ghost predicate StartsOk(s: State) {
    && (forall i :: 0 <= i < |s.starts| ==>
          s.starts[i].id in s.history && 1 <= s.starts[i].attempt <= s.history[s.starts[i].id].attempts
          && s.history[s.starts[i].id].auditEvents >= 1)
    && (forall i, j :: 0 <= i < j < |s.starts| ==> s.starts[i] != s.starts[j])
    && GrantsOk(s.clients)
  }

  ghost predicate GrantsOk(clients: map<ClientId, Client>) {
    forall c, d ::
      (c in clients && d in clients && c != d && IsGranted(clients[c]) && IsGranted(clients[d])
       && clients[c].task == clients[d].task) ==> clients[c].attempts != clients[d].attempts
  }

  predicate IsGranted(cl: Client) {
    cl.Worker? && cl.work.Granted?
  }

  ghost predicate CoreInv(cfg: Config, s: State) {
    Valid(cfg, s.db) && HistoryOk(s) && RecordsOk(s) && ClientsOk(s) && StartsOk(s)
  }

  lemma InitHolds(cfg: Config, s: State)
    requires Init(s)
    ensures CoreInv(cfg, s)
  {
    EmptyIsValid(cfg);
  }

  lemma CallsAreAdmissible(s: State, c: ClientId, op: Op)
    requires HistoryOk(s) && ClientsOk(s) && Calls(s, c, op)
    ensures Admissible(op, s.db)
  {
    var cl := s.clients[c];
    assert ClientOk(s, c, cl);
    if op.PurgeOp? {
      assert cl.Submitter? && cl.submit == Picked(op.id);
    } else if op.DropTerminalOp? {
      assert cl.Submitter? && cl.submit == Dropping(op.id);
    } else if op.DropStagingOp? {
      assert cl.Reconciler? && cl.reconcile == ToDrop(op.id);
    }
  }

  // ----- One committed call -----

  /** History after the call: one record is new or later, nothing else changed. */
  ghost predicate HistoryStep(s: State, s': State, b: Block, creates: bool) {
    && (forall id :: id in s.history ==> id in s'.history && Later(s.history[id], s'.history[id]))
    && (forall id :: id in s'.history && id !in s.history ==> creates && id == b.id)
    && (forall id :: id in s.history && id != b.id ==> s'.history[id] == s.history[id])
    && (forall id :: id in s.history && id !in s.db.records ==> id !in s'.db.records)
  }

  lemma AttemptsAreNext(s: State, c: ClientId, op: Op)
    requires HistoryOk(s) && ClientsOk(s) && Calls(s, c, op) && op.SetAttemptsOp?
    requires op.id in s.history && s.history[op.id].holder == Some(op.worker)
    ensures op.worker == c && s.clients[c].Worker? && s.clients[c].work.Ready?
    ensures op.attempts == s.history[op.id].attempts + 1 && op.attempts <= s.history[op.id].maxAttempts
  {
    assert ClientOk(s, c, s.clients[c]);
  }

  lemma HistoryFollows(s: State, s': State, b: Block, creates: bool)
    requires HistoryOk(s)
    requires creates ==> b.id !in s.history && b.record.SetRecord?
    requires !creates && b.record.SetRecord? ==> b.id in s.db.records && Later(s.db.records[b.id], b.record.record)
    requires b.record.DeleteRecord? ==> b.id in s.db.records && Terminal(s.db.records[b.id].status)
    requires s'.db.records == WriteRecord(s.db.records, b.id, b.record) && s'.history == Record1(s.history, b)
    requires s'.created == if creates then s.created + [b.id] else s.created
    ensures HistoryOk(s') && HistoryStep(s, s', b, creates)
  {
    hide Later, HistoryStep, Lists, Terminal;
    if b.record.SetRecord? { ListsGrows(s.created, s.history, b.id, b.record.record); }
    LiveFollows(s, s', b);
    HistoryStepFollows(s, s', b, creates);
  }

  lemma LiveFollows(s: State, s': State, b: Block)
    requires HistoryOk(s)
    requires b.record.DeleteRecord? ==> b.id in s.db.records && Terminal(s.db.records[b.id].status)
    requires s'.db.records == WriteRecord(s.db.records, b.id, b.record) && s'.history == Record1(s.history, b)
    ensures forall id :: id in s'.db.records ==> id in s'.history && s'.history[id] == s'.db.records[id]
    ensures forall id :: id in s'.history && id !in s'.db.records ==> Terminal(s'.history[id].status)
  {
    hide Lists, Terminal;
  }

  lemma HistoryStepFollows(s: State, s': State, b: Block, creates: bool)
    requires forall id :: id in s.db.records ==> id in s.history && s.history[id] == s.db.records[id]
    requires creates ==> b.id !in s.history && b.record.SetRecord?
    requires !creates && b.record.SetRecord? ==> b.id in s.db.records && Later(s.db.records[b.id], b.record.record)
    requires s'.db.records == WriteRecord(s.db.records, b.id, b.record) && s'.history == Record1(s.history, b)
    ensures HistoryStep(s, s', b, creates)
  {
    forall id | id in s.history ensures id in s'.history && Later(s.history[id], s'.history[id]) {
    }
  }

  lemma CommitHistory(cfg: Config, s: State, s': State, c: ClientId, op: Op, t: Option<nat>, b: Block, reply: Reply)
    requires CoreInv(cfg, s) && NextStep(cfg, s, s', CommitStep(c, op, t, b, reply))
    ensures RecordEffect(cfg, op, s.db, b, reply)
    ensures HistoryOk(s') && HistoryStep(s, s', b, op.CreateOp?)
  {
    hide Atomic, TrueAnswer, StartsOk;
    CallsAreAdmissible(s, c, op);
    CommitRecordEffect(cfg, op, s.db, t, b, reply);
    if b.id in s.history { assert RecordOk(s, b.id); }
    if op.SetAttemptsOp? { AttemptsAreNext(s, c, op); }
    if b.record.SetRecord? && !op.CreateOp? {
      StepIsLater(cfg, op, s.db.records[b.id], b.record.record);
    }
    HistoryFollows(s, s', b, op.CreateOp?);
  }

  // ----- Records -----

  lemma HoldsKept(s: State, s': State, c: ClientId, op: Op, reply: Reply, w: ClientId, id: TaskId)
    requires Holds(s, w, id) && c in s.clients
    requires s'.clients == s.clients[c := AfterExec(s.clients[c], op, reply)]
    ensures Holds(s', w, id)
  {
  }

  lemma ClaimerTakes(cl: Client, c: ClientId, op: Op, reply: Reply)
    requires op.ClaimOp? && CallOf(cl, c, op) && reply.Updated?
    ensures op.worker == c && AfterExec(cl, op, reply).Working() && AfterExec(cl, op, reply).task == reply.record.id
  {
  }

  lemma ClaimedRecordOk(cfg: Config, s: State, s': State, c: ClientId, op: Op, b: Block, reply: Reply)
    requires HistoryOk(s) && RecordsOk(s) && InCall(s, c, op) && op.ClaimOp?
    requires RecordEffect(cfg, op, s.db, b, reply) && s'.history == Record1(s.history, b)
    requires s'.clients == s.clients[c := AfterExec(s.clients[c], op, reply)]
    ensures b.id in s'.history && RecordOk(s', b.id)
  {
    hide Atomic, TrueAnswer, CallOf, AfterExec;
    assert RecordOk(s, b.id) && AuditedAtLeast(s, b.id, 1);
    ClaimerTakes(s.clients[c], c, op, reply);
    assert Holds(s', c, b.id);
  }

  lemma FinishedRecordOk(cfg: Config, s: State, s': State, c: ClientId, op: Op, b: Block, reply: Reply)
    requires HistoryOk(s) && RecordsOk(s) && ClientsOk(s) && InCall(s, c, op) && op.FinishOp?
    requires RecordEffect(cfg, op, s.db, b, reply) && s'.history == Record1(s.history, b)
    ensures b.id in s'.history && RecordOk(s', b.id)
  {
    assert RecordOk(s, b.id) && ClientOk(s, c, s.clients[c]);
  }

  lemma RewrittenRecordOk(cfg: Config, s: State, s': State, c: ClientId, op: Op, b: Block, reply: Reply)
    requires HistoryOk(s) && RecordsOk(s) && ClientsOk(s) && Calls(s, c, op) && b.record.SetRecord?
    requires !op.CreateOp? && !op.ClaimOp? && !op.FinishOp?
    requires RecordEffect(cfg, op, s.db, b, reply) && s'.history == Record1(s.history, b)
    requires s'.clients == s.clients[c := AfterExec(s.clients[c], op, reply)]
    ensures b.id in s'.history && RecordOk(s', b.id)
  {
    var r := s.history[b.id];
    assert RecordOk(s, b.id);
    if r.holder.Some? { HoldsKept(s, s', c, op, reply, r.holder.value, b.id); }
    if op.SetAttemptsOp? { AttemptsAreNext(s, c, op); }
  }

  lemma CommittedRecordOk(cfg: Config, s: State, s': State, c: ClientId, op: Op, t: Option<nat>, b: Block, reply: Reply)
    requires HistoryOk(s) && RecordsOk(s) && ClientsOk(s) && Calls(s, c, op) && s' == Committed(s, c, op, t, b, reply)
    requires RecordEffect(cfg, op, s.db, b, reply) && b.id in s.history && b.record.SetRecord?
    ensures b.id in s'.history && RecordOk(s', b.id)
  {
    if op.ClaimOp? {
      ClaimedRecordOk(cfg, s, s', c, op, b, reply);
    } else if op.FinishOp? {
      FinishedRecordOk(cfg, s, s', c, op, b, reply);
    } else {
      RewrittenRecordOk(cfg, s, s', c, op, b, reply);
    }
  }

  lemma CommitRecordsOk(cfg: Config, s: State, s': State, c: ClientId, op: Op, t: Option<nat>, b: Block, reply: Reply)
    requires HistoryOk(s) && RecordsOk(s) && ClientsOk(s) && Calls(s, c, op) && s' == Committed(s, c, op, t, b, reply)
    requires RecordEffect(cfg, op, s.db, b, reply) && HistoryStep(s, s', b, op.CreateOp?)
    ensures forall id :: id in s'.history ==> RecordOk(s', id)
  {
    forall id | id in s'.history ensures RecordOk(s', id) {
      if id in s.history {
        assert RecordOk(s, id);
        if id == b.id && b.record.SetRecord? {
          CommittedRecordOk(cfg, s, s', c, op, t, b, reply);
        } else if s.history[id].holder.Some? {
          HoldsKept(s, s', c, op, reply, s.history[id].holder.value, id);
        }
      } else {
        assert ClientOk(s, c, s.clients[c]);
      }
    }
  }

  lemma EnqueuedIsAudited(s: State, c: ClientId, op: Op, t: Option<nat>, b: Block)
    requires HistoryOk(s) && RecordsOk(s) && ClientsOk(s) && Calls(s, c, op) && Enqueues(op, s.db, t, b)
    ensures AuditedAtLeast(s, b.id, 1)
  {
    assert ClientOk(s, c, s.clients[c]);
    assert RecordOk(s, b.id);
  }

  lemma CommitQueuesAudited(s: State, s': State, c: ClientId, op: Op, t: Option<nat>, b: Block)
    requires HistoryOk(s) && RecordsOk(s) && ClientsOk(s) && Calls(s, c, op)
    requires s'.db.queues == WritePool(s.db.queues, b.pool, b.id, b.queue)
    requires HistoryStep(s, s', b, op.CreateOp?) && QueueEffect(op, s.db, t, b)
    ensures forall p: Pool, id :: id in s'.db.queues.At(p) ==> AuditedAtLeast(s', id, 1)
  {
    if b.queue.Add? { EnqueuedIsAudited(s, c, op, t, b); }
    forall p: Pool, id | id in s'.db.queues.At(p) ensures AuditedAtLeast(s', id, 1) {
      WritePoolAt(s.db.queues, b.pool, b.id, b.queue, p);
      if id in s.db.queues.At(p) {
        assert AuditedAtLeast(s, id, 1);
      }
    }
  }

  // ----- Clients -----

  /** A call by c never hands the lease of d's task to d, nor moves d's attempt count. */
  lemma HolderOfOthersKept(cfg: Config, s: State, s': State, c: ClientId, op: Op, t: Option<nat>, b: Block, reply: Reply,
                           d: ClientId, id: TaskId)
    requires HistoryOk(s) && ClientsOk(s) && Calls(s, c, op) && s' == Committed(s, c, op, t, b, reply)
    requires RecordEffect(cfg, op, s.db, b, reply) && HistoryStep(s, s', b, op.CreateOp?)
    requires d != c && id in s.history && s'.history[id].holder == Some(d)
    ensures s.history[id].holder == Some(d) && s'.history[id].attempts == s.history[id].attempts
  {
    hide HistoryStep;
    if s'.history[id] != s.history[id] {
      assert id == b.id && b.record.SetRecord? && RecordStep(cfg, op, s.history[id], s'.history[id]);
      if op.SetAttemptsOp? { AttemptsAreNext(s, c, op); }
      if op.ClaimOp? { ClaimerIsCaller(s, c, op); }
      StrangerKept(cfg, op, s.history[id], s'.history[id], c, d);
    }
  }

  lemma ClaimerIsCaller(s: State, c: ClientId, op: Op)
    requires Calls(s, c, op) && op.ClaimOp?
    ensures op.worker == c
  {
  }

  /** A step by one client does not touch the attempts another client holds. */
  lemma StrangerKept(cfg: Config, op: Op, r: Record, r': Record, c: ClientId, d: ClientId)
    requires RecordStep(cfg, op, r, r') && !op.CreateOp? && d != c && r'.holder == Some(d)
    requires op.SetAttemptsOp? ==> op.worker == c && r.holder == Some(op.worker)
    requires op.ClaimOp? ==> op.worker == c
    ensures r.holder == Some(d) && r'.attempts == r.attempts
  {
  }

  lemma OtherClientKept(cfg: Config, s: State, s': State, c: ClientId, op: Op, t: Option<nat>, b: Block, reply: Reply,
                        d: ClientId)
    requires HistoryOk(s) && ClientsOk(s) && Calls(s, c, op) && s' == Committed(s, c, op, t, b, reply)
    requires RecordEffect(cfg, op, s.db, b, reply) && HistoryStep(s, s', b, op.CreateOp?)
    requires d in s.clients && d != c
    ensures ClientOk(s', d, s.clients[d])
  {
    hide ClientOk, AfterExec, CallOf, RecordEffect;
    var cl := s.clients[d];
    assert ClientOk(s, d, cl);
    WorkersAreAudited(s, d, cl);
    if cl.Worker? && cl.Working() && s'.history[cl.task].holder == Some(d) {
      HolderOfOthersKept(cfg, s, s', c, op, t, b, reply, d, cl.task);
    }
    OthersKeepClient(s, s', b, op.CreateOp?, d, cl);
  }

  lemma WorkersAreAudited(s: State, d: ClientId, cl: Client)
    requires ClientOk(s, d, cl)
    ensures cl.Worker? && cl.Working() ==> cl.task in s.history
  {
  }

  /** What a client relies on survives a step that leaves it the task it holds. */
  lemma OthersKeepClient(s: State, s': State, b: Block, creates: bool, d: ClientId, cl: Client)
    requires ClientOk(s, d, cl) && HistoryStep(s, s', b, creates) && s'.notified == s.notified && s'.starts == s.starts
    requires cl.Worker? && cl.Working() && cl.task in s.history && cl.task in s'.history && s'.history[cl.task].holder == Some(d) ==>
               s.history[cl.task].holder == Some(d) && s'.history[cl.task].attempts == s.history[cl.task].attempts
    ensures ClientOk(s', d, cl)
  {
  }

  /** The parts of the state a committed call changes for its own client. */
  ghost predicate ClientStep(s: State, s': State, c: ClientId, op: Op, b: Block, reply: Reply) {
    && c in s.clients
    && s'.clients == s.clients[c := AfterExec(s.clients[c], op, reply)]
    && s'.history == Record1(s.history, b) && s'.starts == s.starts && s'.notified == s.notified
  }

  lemma ClaimerKept(cfg: Config, s: State, s': State, c: ClientId, op: Op, b: Block, reply: Reply)
    requires HistoryOk(s) && RecordsOk(s) && ClientStep(s, s', c, op, b, reply)
    requires op.ClaimOp? && RecordEffect(cfg, op, s.db, b, reply)
    requires s.clients[c].Worker? && s.clients[c].work.Claiming? && s.clients[c].audits == 0
    ensures ClientOk(s', c, s'.clients[c])
  {
    assert b.id in s.db.queues.At(op.pool) && AuditedAtLeast(s, b.id, 1);
    assert RecordOk(s, b.id);
  }

  lemma AuditingWorkerKept(cfg: Config, s: State, s': State, c: ClientId, op: Op, b: Block, reply: Reply)
    requires HistoryOk(s) && ClientStep(s, s', c, op, b, reply)
    requires op.CountAuditOp? && RecordEffect(cfg, op, s.db, b, reply)
    requires s.clients[c].Worker? && CallOf(s.clients[c], c, op) && ClientOk(s, c, s.clients[c])
    ensures ClientOk(s', c, s'.clients[c])
  {
    assert s.clients[c].Working() && b.id == s.clients[c].task;
    assert s'.history[b.id].auditEvents == s.history[b.id].auditEvents + 1;
  }

  lemma AttemptingWorkerKept(cfg: Config, s: State, s': State, c: ClientId, op: Op, b: Block, reply: Reply)
    requires HistoryOk(s) && ClientsOk(s) && StartsOk(s) && Calls(s, c, op)
    requires ClientStep(s, s', c, op, b, reply)
    requires op.SetAttemptsOp? && RecordEffect(cfg, op, s.db, b, reply)
    ensures ClientOk(s', c, s'.clients[c])
  {
    AttemptsAreNext(s, c, op);
    assert ClientOk(s, c, s.clients[c]);
    var r := s.history[op.id];
    assert s'.history[op.id] == r.(attempts := op.attempts, updatedAt := op.now);
    forall i | 0 <= i < |s.starts| ensures s.starts[i] != Start(op.id, op.attempts) {
      assert s.starts[i].id == op.id ==> s.starts[i].attempt <= r.attempts;
    }
  }

  lemma FinishingWorkerKept(cfg: Config, s: State, s': State, c: ClientId, op: Op, b: Block, reply: Reply)
    requires HistoryOk(s) && ClientStep(s, s', c, op, b, reply)
    requires op.FinishOp? && RecordEffect(cfg, op, s.db, b, reply)
    requires s.clients[c].Worker? && CallOf(s.clients[c], c, op) && ClientOk(s, c, s.clients[c])
    ensures ClientOk(s', c, s'.clients[c])
  {
  }

  lemma WorkerCalls(cl: Client, c: ClientId, op: Op)
    requires cl.Worker? && CallOf(cl, c, op)
    ensures op.ClaimOp? || op.CountAuditOp? || op.SetAttemptsOp? || op.FinishOp? || op.BumpOp?
    ensures op.ClaimOp? ==> cl.work.Claiming?
  {
  }

  lemma ActingSubmitterKept(s: State, s': State, c: ClientId, op: Op, b: Block, reply: Reply)
    requires Calls(s, c, op) && ClientStep(s, s', c, op, b, reply) && ClientOk(s, c, s.clients[c])
    requires HistoryStep(s, s', b, op.CreateOp?) && s.clients[c].Submitter? && !op.BumpOp?
    requires op.CountAuditOp? ==> op.id in s.history && s'.history[op.id].auditEvents == s.history[op.id].auditEvents + 1
    ensures ClientOk(s', c, s'.clients[c])
  {
  }

  lemma ActingReconcilerKept(s: State, s': State, c: ClientId, op: Op, b: Block, reply: Reply)
    requires ClientStep(s, s', c, op, b, reply) && ClientOk(s, c, s.clients[c])
    requires s.clients[c].Reconciler? && !op.BumpOp?
    ensures ClientOk(s', c, s'.clients[c])
  {
  }

  lemma BumpingClientKept(s: State, s': State, c: ClientId, op: Op, b: Block, reply: Reply)
    requires ClientStep(s, s', c, op, b, reply) && ClientOk(s, c, s.clients[c])
    requires op.BumpOp? && b.record.KeepRecord? && s'.db.records == s.db.records
    ensures ClientOk(s', c, s'.clients[c])
  {
  }

  lemma AuditCounted(cfg: Config, s: State, s': State, op: Op, b: Block, reply: Reply)
    requires op.CountAuditOp? && HistoryOk(s) && RecordEffect(cfg, op, s.db, b, reply)
    requires s'.history == Record1(s.history, b)
    ensures op.id in s.history && s'.history[op.id].auditEvents == s.history[op.id].auditEvents + 1
  {
  }

  lemma ActingWorkerKept(cfg: Config, s: State, s': State, c: ClientId, op: Op, b: Block, reply: Reply)
    requires HistoryOk(s) && RecordsOk(s) && ClientsOk(s) && StartsOk(s) && Calls(s, c, op)
    requires ClientStep(s, s', c, op, b, reply) && RecordEffect(cfg, op, s.db, b, reply)
    requires ClientOk(s, c, s.clients[c]) && s.clients[c].Worker? && !op.BumpOp?
    ensures ClientOk(s', c, s'.clients[c])
  {
    WorkerCalls(s.clients[c], c, op);
    if op.ClaimOp? {
      ClaimerKept(cfg, s, s', c, op, b, reply);
    } else if op.CountAuditOp? {
      AuditingWorkerKept(cfg, s, s', c, op, b, reply);
    } else if op.SetAttemptsOp? {
      AttemptingWorkerKept(cfg, s, s', c, op, b, reply);
    } else {
      FinishingWorkerKept(cfg, s, s', c, op, b, reply);
    }
  }

  lemma ActingClientKept(cfg: Config, s: State, s': State, c: ClientId, op: Op, b: Block, reply: Reply)
    requires HistoryOk(s) && RecordsOk(s) && ClientsOk(s) && StartsOk(s) && Calls(s, c, op)
    requires ClientStep(s, s', c, op, b, reply) && s'.db.records == WriteRecord(s.db.records, b.id, b.record)
    requires RecordEffect(cfg, op, s.db, b, reply) && HistoryStep(s, s', b, op.CreateOp?)
    ensures ClientOk(s', c, s'.clients[c])
  {
    hide Later;
    var cl := s.clients[c];
    if op.BumpOp? {
      BumpingClientKept(s, s', c, op, b, reply);
    } else if cl.Worker? {
      ActingWorkerKept(cfg, s, s', c, op, b, reply);
    } else if cl.Submitter? {
      if op.CountAuditOp? { AuditCounted(cfg, s, s', op, b, reply); }
      ActingSubmitterKept(s, s', c, op, b, reply);
    } else if cl.Reconciler? {
      ActingReconcilerKept(s, s', c, op, b, reply);
    }
  }

  // ----- Starts -----

  lemma StartsKept(s: State, s': State)
    requires StartsOk(s) && s'.starts == s.starts && GrantsOk(s'.clients)
    requires forall id :: id in s.history ==> id in s'.history && Later(s.history[id], s'.history[id])
    ensures StartsOk(s')
  {
  }

  lemma GrantsKept(clients: map<ClientId, Client>, c: ClientId, cl: Client)
    requires GrantsOk(clients)
    requires IsGranted(cl) ==> forall d :: d in clients && d != c && IsGranted(clients[d]) && clients[d].task == cl.task
                                 ==> clients[d].attempts != cl.attempts
    ensures GrantsOk(clients[c := cl])
  {
  }

  lemma GrantIsNew(s: State, c: ClientId, op: Op, d: ClientId)
    requires HistoryOk(s) && ClientsOk(s) && Calls(s, c, op) && op.SetAttemptsOp?
    requires op.id in s.history && s.history[op.id].holder == Some(op.worker)
    requires d in s.clients && IsGranted(s.clients[d]) && s.clients[d].task == op.id
    ensures s.clients[d].attempts < op.attempts
  {
    AttemptsAreNext(s, c, op);
    assert ClientOk(s, d, s.clients[d]);
  }

  lemma OnlyReadyIsGranted(cl: Client, c: ClientId, op: Op, reply: Reply)
    requires CallOf(cl, c, op) && IsGranted(AfterExec(cl, op, reply)) && AfterExec(cl, op, reply) != cl
    ensures op.SetAttemptsOp? && op.worker == c && op.id == cl.task == AfterExec(cl, op, reply).task
    ensures op.attempts == AfterExec(cl, op, reply).attempts
  {
  }

  lemma CommitGrantsOk(cfg: Config, s: State, c: ClientId, op: Op, b: Block, reply: Reply)
    requires HistoryOk(s) && ClientsOk(s) && GrantsOk(s.clients) && Calls(s, c, op)
    requires RecordEffect(cfg, op, s.db, b, reply)
    ensures GrantsOk(s.clients[c := AfterExec(s.clients[c], op, reply)])
  {
    hide Atomic, CallOf, AfterExec, ClientOk;
    var cl, cl' := s.clients[c], AfterExec(s.clients[c], op, reply);
    if cl == cl' {
      assert s.clients[c := cl'] == s.clients;
    } else {
      if IsGranted(cl') {
        OnlyReadyIsGranted(cl, c, op, reply);
        forall d | d in s.clients && d != c && IsGranted(s.clients[d]) && s.clients[d].task == cl'.task
          ensures s.clients[d].attempts != cl'.attempts
        {
          GrantIsNew(s, c, op, d);
        }
      }
      GrantsKept(s.clients, c, cl');
    }
  }

  // ----- All steps -----

  lemma CommitClientsOk(cfg: Config, s: State, s': State, c: ClientId, op: Op, t: Option<nat>, b: Block, reply: Reply)
    requires HistoryOk(s) && RecordsOk(s) && ClientsOk(s) && StartsOk(s)
    requires Calls(s, c, op) && s' == Committed(s, c, op, t, b, reply)
    requires RecordEffect(cfg, op, s.db, b, reply) && HistoryStep(s, s', b, op.CreateOp?)
    ensures ClientsOk(s')
  {
    hide ClientOk, RecordEffect, HistoryStep, HistoryOk, RecordsOk, StartsOk, CallOf, AfterExec;
    forall d | d in s'.clients ensures ClientOk(s', d, s'.clients[d]) {
      if d == c {
        ActingClientKept(cfg, s, s', c, op, b, reply);
      } else {
        OtherClientKept(cfg, s, s', c, op, t, b, reply, d);
      }
    }
  }

  lemma CommitKeepsCore(cfg: Config, s: State, s': State, c: ClientId, op: Op, t: Option<nat>, b: Block, reply: Reply)
    requires CoreInv(cfg, s) && NextStep(cfg, s, s', CommitStep(c, op, t, b, reply))
    ensures CoreInv(cfg, s')
  {
    hide Valid, HistoryOk, RecordOk, ClientsOk, ClientOk, AuditedAtLeast, GrantsOk, Atomic;
    CallsAreAdmissible(s, c, op);
    CommitKeepsValid(cfg, op, s.db, t, b, reply);
    CommitHistory(cfg, s, s', c, op, t, b, reply);
    CommitQueueEffect(cfg, op, s.db, t, b, reply);
    CommitRecordsOk(cfg, s, s', c, op, t, b, reply);
    CommitQueuesAudited(s, s', c, op, t, b);
    CommitGrantsOk(cfg, s, c, op, b, reply);
    StartsKept(s, s');
    CommitClientsOk(cfg, s, s', c, op, t, b, reply);
  }

  /** A step that changes one client and no record. */
  ghost predicate OnlyClient(s: State, s': State, c: ClientId, cl: Client) {
    && s'.db == s.db && s'.history == s.history && s'.created == s.created && s'.starts == s.starts
    && s.notified <= s'.notified && s'.clients == s.clients[c := cl]
    && (c in s.clients && s.clients[c].Working() ==> cl.Working() && cl.task == s.clients[c].task)
    && !IsGranted(cl)
  }

  lemma OnlyClientKeepsCore(cfg: Config, s: State, s': State, c: ClientId, cl: Client)
    requires CoreInv(cfg, s) && OnlyClient(s, s', c, cl) && ClientOk(s', c, cl)
    ensures CoreInv(cfg, s')
  {
    forall w, id | Holds(s, w, id) ensures Holds(s', w, id) { }
    forall id | id in s'.history ensures RecordOk(s', id) { assert RecordOk(s, id); }
    forall d | d in s'.clients ensures ClientOk(s', d, s'.clients[d]) {
      if d != c { assert ClientOk(s, d, s.clients[d]); }
    }
    forall p: Pool, id | id in s'.db.queues.At(p) ensures AuditedAtLeast(s', id, 1) { assert AuditedAtLeast(s, id, 1); }
    GrantsKept(s.clients, c, cl);
  }

  lemma GiveWorkerOk(s: State, s': State, c: ClientId, op: Op, answer: Reply)
    requires InCall(s, c, op) && s' == Answered(s, c, op, answer)
    requires s.clients[c].Worker? && ClientOk(s, c, s.clients[c])
    ensures ClientOk(s', c, s'.clients[c])
    ensures s'.clients[c] == s.clients[c] || OnlyClient(s, s', c, s'.clients[c])
  {
  }

  lemma GiveServiceOk(s: State, s': State, c: ClientId, op: Op, answer: Reply)
    requires InCall(s, c, op) && s' == Answered(s, c, op, answer)
    requires !s.clients[c].Worker? && ClientOk(s, c, s.clients[c])
    requires op.PurgeOp? && answer.NotFound? ==> op.id !in s.db.records
    ensures ClientOk(s', c, s'.clients[c])
    ensures OnlyClient(s, s', c, s'.clients[c])
  {
  }

  lemma GiveKeepsCore(cfg: Config, s: State, s': State, c: ClientId, op: Op, answer: Reply)
    requires CoreInv(cfg, s) && NextStep(cfg, s, s', GiveStep(c, op, answer))
    ensures CoreInv(cfg, s')
  {
    hide Valid, HistoryOk, RecordsOk, StartsOk, ClientOk;
    assert ClientOk(s, c, s.clients[c]);
    if op.PurgeOp? && answer.NotFound? { AnswersTell(cfg, op, s.db, answer); }
    if s.clients[c].Worker? {
      GiveWorkerOk(s, s', c, op, answer);
    } else {
      GiveServiceOk(s, s', c, op, answer);
    }
    if s'.clients[c] == s.clients[c] {
      assert s'.clients == s.clients;
      SameClientsKeepCore(cfg, s, s');
    } else {
      OnlyClientKeepsCore(cfg, s, s', c, s'.clients[c]);
    }
  }

  lemma SameClientsKeepCore(cfg: Config, s: State, s': State)
    requires CoreInv(cfg, s) && Valid(cfg, s'.db)
    requires s'.db.records == s.db.records && s'.db.queues == s.db.queues && s'.clients == s.clients
    requires s'.history == s.history && s'.created == s.created && s'.starts == s.starts && s'.notified == s.notified
    ensures CoreInv(cfg, s')
  {
    forall id | id in s'.history ensures RecordOk(s', id) {
      assert RecordOk(s, id);
      if s.history[id].holder.Some? { assert Holds(s, s.history[id].holder.value, id); }
    }
    forall d | d in s'.clients ensures ClientOk(s', d, s'.clients[d]) { assert ClientOk(s, d, s.clients[d]); }
    forall p: Pool, id | id in s'.db.queues.At(p) ensures AuditedAtLeast(s', id, 1) { assert AuditedAtLeast(s, id, 1); }
  }

  lemma DrawKeepsCore(cfg: Config, s: State, s': State)
    requires CoreInv(cfg, s) && NextStep(cfg, s, s', DrawStep)
    ensures CoreInv(cfg, s')
  {
    SequenceIrrelevant(cfg, s.db, s'.db.sequence);
    SameClientsKeepCore(cfg, s, s');
  }

  lemma SequenceIrrelevant(cfg: Config, db: Db, n: nat)
    requires Valid(cfg, db)
    ensures Valid(cfg, db.(sequence := n))
  {
    var db' := db.(sequence := n);
    forall id: TaskId ensures IdOk(db', id) {
      assert IdOk(db, id);
      if id in db.records { assert Placed(db', id, db.records[id]) <==> Placed(db, id, db.records[id]); }
    }
  }

  lemma MoveClientOk(s: State, s': State, c: ClientId, to: Client)
    requires ClientsOk(s) && c in s.clients && Moves(s.clients[c], to) && s' == s.(clients := s.clients[c := to])
    ensures ClientOk(s', c, to) && OnlyClient(s, s', c, to)
  {
    assert ClientOk(s, c, s.clients[c]);
  }

  lemma LookClientOk(cfg: Config, s: State, s': State, c: ClientId, to: Client)
    requires CoreInv(cfg, s) && c in s.clients && Looks(s, s.clients[c], to) && s' == s.(clients := s.clients[c := to])
    ensures ClientOk(s', c, to) && OnlyClient(s, s', c, to)
  {
    assert ClientOk(s, c, s.clients[c]);
    if to.Submitter? {
      assert to.submit.Picked? && IdOk(s.db, to.submit.candidate);
    } else if to.Reconciler? && to.reconcile.Looking? {
      assert IdOk(s.db, to.reconcile.id);
    }
  }

  lemma StartIsNew(s: State, s': State, c: ClientId)
    requires ClientsOk(s) && RecordsOk(s) && StartsOk(s) && c in s.clients && IsGranted(s.clients[c])
    requires s'.starts == s.starts + [Start(s.clients[c].task, s.clients[c].attempts)]
    requires s'.clients == s.clients[c := s.clients[c].(work := Executing)] && s'.history == s.history
    ensures StartsOk(s')
  {
    var cl := s.clients[c];
    assert ClientOk(s, c, cl);
    GrantsKept(s.clients, c, s'.clients[c]);
    var e := Start(cl.task, cl.attempts);
    forall i, j | 0 <= i < j < |s'.starts| ensures s'.starts[i] != s'.starts[j] {
      if j == |s.starts| { assert s.starts[i] in s.starts && e !in s.starts; }
    }
  }

  lemma StartClientsOk(s: State, s': State, c: ClientId)
    requires ClientsOk(s) && GrantsOk(s.clients) && c in s.clients && IsGranted(s.clients[c])
    requires s' == s.(clients := s.clients[c := s.clients[c].(work := Executing)],
                      starts := s.starts + [Start(s.clients[c].task, s.clients[c].attempts)])
    ensures ClientsOk(s')
  {
    forall d | d in s'.clients ensures ClientOk(s', d, s'.clients[d]) {
      assert ClientOk(s, d, s.clients[d]);
      assert d != c && IsGranted(s.clients[d]) ==>
        Start(s.clients[d].task, s.clients[d].attempts) != Start(s.clients[c].task, s.clients[c].attempts);
    }
  }

  lemma StartKeepsCore(cfg: Config, s: State, s': State, c: ClientId)
    requires CoreInv(cfg, s) && NextStep(cfg, s, s', StartStep(c))
    ensures CoreInv(cfg, s')
  {
    hide Valid, ClientOk, Lists, GrantsOk;
    StartIsNew(s, s', c);
    StartClientsOk(s, s', c);
    forall w, id | Holds(s, w, id) ensures Holds(s', w, id) { }
    forall id | id in s'.history ensures RecordOk(s', id) { assert RecordOk(s, id); }
    forall p: Pool, id | id in s'.db.queues.At(p) ensures AuditedAtLeast(s', id, 1) { assert AuditedAtLeast(s, id, 1); }
  }

  lemma NotifyKeepsCore(cfg: Config, s: State, s': State, c: ClientId)
    requires CoreInv(cfg, s) && NextStep(cfg, s, s', NotifyStep(c))
    ensures CoreInv(cfg, s')
  {
    OnlyClientKeepsCore(cfg, s, s', c, s'.clients[c]);
  }

  lemma SpawnKeepsCore(cfg: Config, s: State, s': State, c: ClientId, to: Client)
    requires CoreInv(cfg, s) && NextStep(cfg, s, s', SpawnStep(c, to))
    ensures CoreInv(cfg, s')
  {
    OnlyClientKeepsCore(cfg, s, s', c, to);
  }

  lemma NextKeepsCore(cfg: Config, s: State, s': State)
    requires CoreInv(cfg, s) && Next(cfg, s, s')
    ensures CoreInv(cfg, s')
  {
    hide Moves, Looks, Fresh, Atomic, TrueAnswer;
    var step :| NextStep(cfg, s, s', step);
    match step
    case CommitStep(c, op, t, b, reply) => CommitKeepsCore(cfg, s, s', c, op, t, b, reply);
    case GiveStep(c, op, answer) => GiveKeepsCore(cfg, s, s', c, op, answer);
    case DrawStep => DrawKeepsCore(cfg, s, s');
    case MoveStep(c, to) => MoveClientOk(s, s', c, to); OnlyClientKeepsCore(cfg, s, s', c, to);
    case LookStep(c, to) => LookClientOk(cfg, s, s', c, to); OnlyClientKeepsCore(cfg, s, s', c, to);
    case StartStep(c) => StartKeepsCore(cfg, s, s', c);
    case NotifyStep(c) => NotifyKeepsCore(cfg, s, s', c);
    case SpawnStep(c, to) => SpawnKeepsCore(cfg, s, s', c, to);
  }

  lemma StepKeepsCore(cfg: Config, s: State, s': State)
    requires CoreInv(cfg, s) && (Next(cfg, s, s') || s == s')
    ensures CoreInv(cfg, s')
  {
    hide *;
    if s != s' { NextKeepsCore(cfg, s, s'); }
  }

  /** Every state of every run satisfies the invariant. */
  lemma {:induction false} RunKeepsCore(cfg: Config, run: seq<State>, n: nat)
    requires IsRun(cfg, run) && n < |run|
    ensures CoreInv(cfg, run[n])
  {
    hide *;
    RunIsNonEmpty(cfg, run);
    if n == 0 {
      InitHolds(cfg, run[0]);
    } else {
      RunKeepsCore(cfg, run, n - 1);
      RunSteps(cfg, run, n - 1);
      StepKeepsCore(cfg, run[n - 1], run[n]);
    }
  }
}
