/** The whole distributed runtime as a state machine: submitters
    (distributed.py `submit`), reconcilers (`_reconcile_once`), workers
    (worker_runtime.py `process_next`/`execute_claimed`) and their heartbeats,
    all acting on one store.  A store call commits in one step; audits, handlers
    and the broker are outcomes chosen freely; every client may stop anywhere.

    The fields after `db` other than `clients` and `wakes` record history and
    are read by no step. */
module TaskProtocol {
  import opened TaskContracts
  import opened StoreState
  import opened StoreTransactions
  import opened StoreInvariant

  datatype SubmitStage =
    | Creating                        // in the create_or_replay loop
    | Picked(candidate: TaskId)       // oldest terminal task read for purging
    | Dropping(gone: TaskId)          // that task turned out to be purged already
    | QueueAudit | Activating | RejectAudit | RejectFull | FinalAudit | SubmitDone

  datatype ReconcileStage =
    | Idle
    | Recovering(pool: Pool, id: TaskId, nowMs: int)
    | Looking(id: TaskId, cutoff: int)   // staged since the cutoff or before
    | ToActivate(id: TaskId, pool: Pool)
    | ToReject(id: TaskId, cutoff: int)
    | ToDrop(id: TaskId)
    | Notifying(member: Member)
    | Acknowledging(member: Member)

  datatype WorkerStage =
    | Claiming | NoWork
    | Opening                         // task_started audit
    | Ready                           // about to take an attempt
    | Granted                         // fenced attempt update committed
    | Executing                       // handler running
    | Retrying                        // task_retry audit
    | Completing | Closing            // task_completed, final_output audits
    | Succeeding                      // finish(SUCCEEDED)
    | FailAudit | Failing             // final_output audit, finish(FAILED)
    | WorkerDone

  datatype Client =
    | Submitter(submit: SubmitStage, sub: Submission, who: Identity, trace: string, task: TaskId)
    | Reconciler(reconcile: ReconcileStage)
    | Worker(work: WorkerStage, pool: Pool, token: nat, task: TaskId, attempts: nat, budget: nat, audits: nat)
    | Pulse(worker: ClientId, task: TaskId)
  {
    /** A worker that has claimed its task. */
    predicate Working() {
      Worker? && !work.Claiming? && !work.NoWork?
    }
  }

  datatype Start = Start(id: TaskId, attempt: nat)

  datatype State = State(
    db: Db,
    clients: map<ClientId, Client>,
    wakes: map<nat, Pool>,            // broker messages sent and not yet consumed
    issued: nat,                      // number of broker messages ever sent
    history: map<TaskId, Record>,     // last value of every record ever created
    created: seq<TaskId>,             // ids in creation order
    tickets: set<nat>,                // sequence numbers drawn and not yet used
    inserted: set<Member>,            // outbox members ever inserted
    notified: set<Member>,            // members a wake was ever sent for
    wasted: PerPool<nat>,             // wakes consumed by a claim that raised
    starts: seq<Start>)               // handler starts, in order

  ghost predicate Init(s: State) {
    s == State(EMPTY, map[], map[], 0, map[], [], {}, {}, {}, PerPool(0, 0, 0), [])
  }

  predicate Loose(d: Counters) {
    d.accepted == 0 && d.started == 0 && d.recovered == 0 && d.succeeded == 0 && d.failed == 0 && d.deadLettered == 0
  }

  /** The store call a client may have under way. */
  ghost predicate InCall(s: State, c: ClientId, op: Op) {
    c in s.clients && CallOf(s.clients[c], c, op)
  }

  /** ... and may commit: uuid4 ids are new. */
  ghost predicate Calls(s: State, c: ClientId, op: Op) {
    InCall(s, c, op) && (op.CreateOp? ==> op.id !in s.history)
  }

  ghost predicate CallOf(cl: Client, c: ClientId, op: Op) {
    if op.BumpOp? then Loose(op.delta) else
    match cl
    case Submitter(stage, sub, who, trace, task) => (
      match stage
      case Creating => op.CreateOp? && op.sub == sub && op.who == who && op.trace == trace
      case Picked(x) => op == PurgeOp(x)
      case Dropping(x) => op == DropTerminalOp(x)
      case QueueAudit => op.CountAuditOp? && op.id == task
      case Activating => op.ActivateOp? && op.id == task && op.pool == PoolOf(sub.kind)
      case RejectAudit => op.RejectOp? && op.id == task && op.auditFailed
      case RejectFull => op.RejectOp? && op.id == task && !op.auditFailed
      case FinalAudit => op.CountAuditOp? && op.id == task
      case SubmitDone => false)
    case Reconciler(stage) => (
      match stage
      case Recovering(p, id, nowMs) => op.RecoverOp? && op.pool == p && op.id == id && op.nowMs == nowMs
      case ToActivate(id, p) => op.ActivateOp? && op.id == id && op.pool == p
      case ToReject(id, _) => op.RejectOp? && op.id == id && op.auditFailed
      case ToDrop(id) => op == DropStagingOp(id)
      case Acknowledging(m) => op == AcknowledgeOp(m)
      case _ => false)
    case Worker(stage, p, _, task, attempts, budget, _) => (
      match stage
      case Claiming => op.ClaimOp? && op.pool == p && op.worker == c
      case Opening => op.CountAuditOp? && op.id == task
      case Ready => attempts < budget && op.SetAttemptsOp? && op.id == task && op.worker == c && op.attempts == attempts + 1
      case Retrying => op.CountAuditOp? && op.id == task
      case Completing => op.CountAuditOp? && op.id == task
      case Closing => op.CountAuditOp? && op.id == task
      case Succeeding => op.FinishOp? && op.id == task && op.worker == c && op.status.Succeeded? && op.result.Some?
      case FailAudit => op.CountAuditOp? && op.id == task
      case Failing => op.FinishOp? && op.id == task && op.worker == c && op.status.Failed?
      case _ => false)
    case Pulse(w, task) => op.HeartbeatOp? && op.id == task && op.worker == w
  }

  /** The client after its call committed. */
  function AfterExec(cl: Client, op: Op, reply: Reply): Client {
    if op.BumpOp? then cl else
    match cl
    case Submitter(stage, _, _, _, _) => (
      match stage
      case Creating => if op.CreateOp? then cl.(submit := QueueAudit, task := op.id) else cl
      case Picked(_) => cl.(submit := Creating)
      case Dropping(_) => cl.(submit := Creating)
      case QueueAudit => cl.(submit := Activating)
      case RejectFull => cl.(submit := FinalAudit)
      case _ => cl.(submit := SubmitDone))
    case Reconciler(_) => Reconciler(Idle)
    case Worker(stage, _, _, _, attempts, _, audits) => (
      match stage
      case Claiming =>
        if reply.Updated? then cl.(work := Opening, task := reply.record.id, attempts := reply.record.attempts,
                                   budget := reply.record.maxAttempts)
        else cl
      case Opening => cl.(work := Ready, audits := audits + 1,
                          attempts := if reply.Updated? then reply.record.attempts else attempts)
      case Ready => cl.(work := Granted, attempts := attempts + 1)
      case Retrying => cl.(work := Ready, audits := audits + 1)
      case Completing => cl.(work := Closing, audits := audits + 1)
      case Closing => cl.(work := Succeeding, audits := audits + 1)
      case FailAudit => cl.(work := Failing, audits := audits + 1)
      case _ => cl.(work := WorkerDone))
    case Pulse(_, _) => cl
  }

  /** The client after its call returned or raised without writing. */
  function AfterGive(cl: Client, op: Op, answer: Reply): Client {
    if op.BumpOp? then cl else
    match cl
    case Submitter(stage, _, _, _, _) => (
      match stage
      case Creating => if answer.Full? then cl else cl.(submit := SubmitDone)
      case Picked(x) => if answer.NotFound? then cl.(submit := Dropping(x)) else cl.(submit := Creating)
      case QueueAudit => cl.(submit := RejectAudit)
      case Activating => if answer.Full? then cl.(submit := RejectFull) else cl.(submit := SubmitDone)
      case RejectFull => cl.(submit := FinalAudit)
      case _ => cl.(submit := SubmitDone))
    case Reconciler(_) => Reconciler(Idle)
    case Worker(stage, _, _, _, _, _, _) => (
      match stage
      case Claiming => cl.(work := NoWork)
      case Opening => cl.(work := Failing)
      case Retrying => cl.(work := FailAudit)
      case Completing => cl.(work := Failing)
      case Closing => cl.(work := Failing)
      case FailAudit => cl.(work := Failing)
      case _ => cl.(work := WorkerDone))
    case Pulse(_, _) => cl
  }

  /** Moves decided outside the store: audit hooks, handlers, exceptions, and audits
      whose count was committed while its reply was lost. */
  predicate Moves(cl: Client, cl': Client) {
    match cl
    case Submitter(stage, _, _, _, _) =>
      cl' == cl.(submit := SubmitDone) || ((stage.QueueAudit? || stage.Activating?) && cl' == cl.(submit := RejectAudit))
    case Worker(stage, _, _, _, attempts, budget, _) => (
      match stage
      case Claiming => false
      case NoWork => false
      case Opening => cl' == cl.(work := Failing)
      case Ready => cl' == cl.(work := FailAudit) || cl' == cl.(work := Failing) || cl' == cl.(work := WorkerDone)
      case Executing => cl' == cl.(work := Completing) || cl' == cl.(work := FailAudit)
                        || (attempts < budget && cl' == cl.(work := Retrying))
      case Retrying => cl' == cl.(work := FailAudit)
      case Completing => cl' == cl.(work := Failing)
      case Closing => cl' == cl.(work := Failing)
      case FailAudit => cl' == cl.(work := Failing)
      case Succeeding => cl' == cl.(work := Failing) || cl' == cl.(work := WorkerDone)
      case _ => cl' == cl.(work := WorkerDone))
    case Reconciler(_) => cl' == Reconciler(Idle)
    case Pulse(_, _) => false
  }

  /** Plain reads outside any transaction. */
  ghost predicate Looks(s: State, cl: Client, cl': Client) {
    match cl
    case Submitter(stage, _, _, _, _) =>
      stage.Creating? && exists x :: IsHead(s.db.terminal, x) && cl' == cl.(submit := Picked(x))
    case Reconciler(stage) => (
      match stage
      case Idle =>
        (exists p, id, nowMs :: cl' == Reconciler(Recovering(p, id, nowMs)))
        || (exists id, cutoff :: id in s.db.staging && 0 <= s.db.staging[id] <= cutoff && cl' == Reconciler(Looking(id, cutoff)))
        || (exists m :: m in s.db.outbox && cl' == Reconciler(Notifying(m)))
      case Looking(id, cutoff) =>
        cl' == Reconciler(if id !in s.db.records then ToDrop(id)
                          else if s.db.records[id].auditEvents > 0 then ToActivate(id, s.db.records[id].pool)
                          else ToReject(id, cutoff))
      case _ => false)
    case _ => false
  }

  /** A message that was sent, to the pool's broker queue if it is still there.  One
      already consumed may be delivered again when its worker died. */
  predicate TokenOk(s: State, token: nat, p: Pool) {
    token < s.issued && (token in s.wakes ==> s.wakes[token] == p)
  }

  predicate Fresh(s: State, cl: Client) {
    match cl
    case Submitter(stage, sub, _, _, _) => stage.Creating? && 1 <= sub.maxAttempts
    case Reconciler(stage) => stage.Idle?
    case Worker(stage, p, token, _, _, _, audits) =>
      stage.Claiming? && TokenOk(s, token, p) && audits == 0
    case Pulse(w, task) => w in s.clients && s.clients[w].Working() && s.clients[w].task == task
  }

  datatype Step =
    | CommitStep(c: ClientId, op: Op, ticket: Option<nat>, block: Block, reply: Reply)
    | GiveStep(c: ClientId, op: Op, answer: Reply)
    | DrawStep
    | MoveStep(c: ClientId, to: Client)
    | LookStep(c: ClientId, to: Client)
    | StartStep(c: ClientId)
    | NotifyStep(c: ClientId)
    | SpawnStep(c: ClientId, to: Client)

  function Record1(history: map<TaskId, Record>, b: Block): map<TaskId, Record> {
    match b.record case SetRecord(r) => history[b.id := r] case _ => history
  }

  function Consume(s: State, c: ClientId, op: Op): map<nat, Pool> {
    if op.ClaimOp? && c in s.clients && s.clients[c].Worker? then s.wakes - {s.clients[c].token} else s.wakes
  }

  function Committed(s: State, c: ClientId, op: Op, ticket: Option<nat>, b: Block, reply: Reply): State
    requires c in s.clients
  {
    s.(db := Apply(s.db, b),
       clients := s.clients[c := AfterExec(s.clients[c], op, reply)],
       wakes := if reply.Again? then s.wakes else Consume(s, c, op),
       history := Record1(s.history, b),
       created := if op.CreateOp? then s.created + [op.id] else s.created,
       tickets := if b.queue.Add? && ticket.Some? then s.tickets - {ticket.value} else s.tickets,
       inserted := if b.outbox.AddMember? then s.inserted + {b.outbox.added} else s.inserted)
  }

  function Answered(s: State, c: ClientId, op: Op, answer: Reply): State
    requires c in s.clients
  {
    s.(clients := s.clients[c := AfterGive(s.clients[c], op, answer)],
       wakes := Consume(s, c, op),
       wasted := if op.ClaimOp? && !answer.NoTask? then s.wasted.With(op.pool, s.wasted.At(op.pool) + 1) else s.wasted)
  }

  ghost predicate NextStep(cfg: Config, s: State, s': State, step: Step) {
    match step
    case CommitStep(c, op, ticket, b, reply) =>
      && Calls(s, c, op) && Atomic(cfg, op, s.db, ticket) == Exec(b, reply)
      && (ticket.Some? ==> ticket.value in s.tickets)
      && s' == Committed(s, c, op, ticket, b, reply)
    case GiveStep(c, op, answer) =>
      // A call that ends without writing answers what its last read showed, or raises.
      && InCall(s, c, op) && (answer == Refused || TrueAnswer(cfg, op, s.db, answer))
      && s' == Answered(s, c, op, answer)
    case DrawStep =>
      s' == s.(db := s.db.(sequence := s.db.sequence + 1), tickets := s.tickets + {s.db.sequence + 1})
    case MoveStep(c, to) =>
      c in s.clients && Moves(s.clients[c], to) && s' == s.(clients := s.clients[c := to])
    case LookStep(c, to) =>
      c in s.clients && Looks(s, s.clients[c], to) && s' == s.(clients := s.clients[c := to])
    case StartStep(c) =>
      && c in s.clients && s.clients[c].Worker? && s.clients[c].work.Granted?
      && s' == s.(clients := s.clients[c := s.clients[c].(work := Executing)],
                  starts := s.starts + [Start(s.clients[c].task, s.clients[c].attempts)])
    case NotifyStep(c) =>
      && c in s.clients && s.clients[c].Reconciler? && s.clients[c].reconcile.Notifying?
      && var m := s.clients[c].reconcile.member;
         s' == s.(clients := s.clients[c := Reconciler(Acknowledging(m))], wakes := s.wakes[s.issued := m.pool],
                  issued := s.issued + 1, notified := s.notified + {m})
    case SpawnStep(c, to) =>
      c !in s.clients && Fresh(s, to) && s' == s.(clients := s.clients[c := to])
  }

  ghost predicate Next(cfg: Config, s: State, s': State) {
    exists step :: NextStep(cfg, s, s', step)
  }

  ghost predicate StepAt(cfg: Config, run: seq<State>, i: nat)
    requires i + 1 < |run|
  {
    Next(cfg, run[i], run[i + 1]) || run[i] == run[i + 1]
  }

  /** A run: it starts in the initial state and every step is a step or a stutter. */
  ghost predicate IsRun(cfg: Config, run: seq<State>) {
    |run| > 0 && Init(run[0]) && forall i: nat :: i + 1 < |run| ==> StepAt(cfg, run, i)
  }

  lemma RunSteps(cfg: Config, run: seq<State>, i: nat)
    requires IsRun(cfg, run) && i + 1 < |run|
    ensures Next(cfg, run[i], run[i + 1]) || run[i] == run[i + 1]
  {
    assert StepAt(cfg, run, i);
  }

  lemma RunIsNonEmpty(cfg: Config, run: seq<State>)
    requires IsRun(cfg, run)
    ensures |run| > 0 && Init(run[0])
  {
  }
}
