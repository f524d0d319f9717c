/** The optimistic transactions of redis_store.py as interactive programs: given
    what has been observed so far, a program asks for another key, asks for a
    sequence number, executes a block, or gives an answer without writing. */
module StoreTransactions {
  import opened TaskContracts
  import opened StoreState

  /** Score distance between two priority ranks. */
  const STRIDE := 1_000_000_000_000

  function Score(priority: Priority, sequence: nat): int {
    Rank(priority) * STRIDE + sequence
  }

  /** One call of a store method.  Arguments the method reads outside its
      transaction (candidate ids, the pool read by `activate`, clock readings,
      the fresh uuid) are arguments of the call. */
  datatype Op =
    | CreateOp(sub: Submission, who: Identity, trace: string, id: TaskId, now: Time)
    | PurgeOp(id: TaskId)
    | DropTerminalOp(id: TaskId)
    | DropStagingOp(id: TaskId)
    | CountAuditOp(id: TaskId, now: Time)
    | SetAttemptsOp(id: TaskId, worker: ClientId, attempts: nat, now: Time)
    | ActivateOp(id: TaskId, pool: Pool, now: Time)
    | RejectOp(id: TaskId, reason: string, detail: string, auditFailed: bool, now: Time)
    | ClaimOp(pool: Pool, worker: ClientId, now: Time)
    | HeartbeatOp(id: TaskId, worker: ClientId, now: Time)
    | RecoverOp(pool: Pool, id: TaskId, nowMs: int, now: Time)
    | FinishOp(id: TaskId, worker: ClientId, status: Status, result: Option<string>,
               code: Option<string>, message: Option<string>, auditFailed: bool, now: Time)
    | AcknowledgeOp(member: Member)
    | BumpOp(delta: Counters)

  datatype Reply =
    | Updated(record: Record)      // the record as written
    | Unchanged(record: Record)    // the record as found
    | Replay(id: TaskId)
    | NoTask
    | Flag(value: bool)
    | Again                        // the retry loop goes round once more
    | NotFound
    | Full                         // TaskBackpressureError, or the record limit
    | Refused                      // TaskRuntimeError / ValueError

  datatype Decision =
    | Watch(key: Key)
    | Draw
    | Exec(block: Block, reply: Reply)
    | Give(answer: Reply)

  // ----- New record values -----

  function NewRecord(sub: Submission, who: Identity, trace: string, id: TaskId, now: Time): Record {
    Record(id, trace, who.tenant, who.actor, who.role, sub.kind, PoolOf(sub.kind), sub.priority, sub.payload,
           sub.key, sub.maxAttempts, Queued, 0, None, None, None, 0, 0, 0, None, None, now, now, None, None)
  }

  function Claimed(cfg: Config, r: Record, worker: ClientId, now: Time): Record {
    r.(status := Running, deliveryCount := r.deliveryCount + 1, holder := Some(worker),
       leaseExpires := Some(now + cfg.leaseMicros),
       startedAt := if r.startedAt.Some? then r.startedAt else Some(now), updatedAt := now)
  }

  function Recovered(r: Record, now: Time): Record {
    r.(status := Queued, recoveredCount := r.recoveredCount + 1, holder := None, leaseExpires := None,
       updatedAt := now)
  }

  function RejectedRecord(r: Record, code: string, message: string, now: Time): Record {
    r.(status := Rejected, errorCode := Some(code), errorMessage := Some(Truncate(message)),
       completedAt := Some(now), leaseExpires := None, holder := None, updatedAt := now)
  }

  function Finished(r: Record, status: Status, result: Option<string>, code: Option<string>,
                    message: Option<string>, now: Time): Record {
    r.(status := status, result := if status.Succeeded? then result else None, errorCode := code,
       errorMessage := (match message case Some(m) => if m == "" then None else Some(Truncate(m)) case None => None),
       completedAt := Some(now), holder := None, leaseExpires := None, updatedAt := now)
  }

  // ----- MULTI/EXEC blocks -----

  function CreateBlock(r: Record): Block {
    NoWrites(r.id, r.pool).(
      tenant := r.tenant, record := SetRecord(r), index := Add(Millis(r.createdAt)),
      tenantIndex := Add(Millis(r.createdAt)), staging := Add(Millis(r.createdAt)),
      idem := match ScopeOf(r) case Some(s) => Bind(s) case None => KeepIdem)
  }

  function PurgeBlock(id: TaskId, r: Record): Block {
    NoWrites(id, r.pool).(
      tenant := r.tenant, record := DeleteRecord, index := Remove, tenantIndex := Remove, terminal := Remove,
      dead := Remove, idem := match ScopeOf(r) case Some(s) => Unbind(s) case None => KeepIdem)
  }

  function ActivateBlock(id: TaskId, r: Record, sequence: nat, now: Time): Block {
    NoWrites(id, r.pool).(
      queue := Add(Score(r.priority, sequence)), outbox := AddMember(Member(r.pool, id, r.recoveredCount), Millis(now)),
      staging := Remove, counters := ZERO.(accepted := 1))
  }

  function RejectBlock(id: TaskId, r: Record, auditFailed: bool, now: Time): Block {
    NoWrites(id, r.pool).(
      record := SetRecord(r), staging := Remove, queue := Remove, lease := Remove, terminal := Add(Millis(now)),
      counters := ZERO.(rejected := 1, auditFailures := if auditFailed then 1 else 0))
  }

  function ClaimBlock(cfg: Config, pool: Pool, id: TaskId, r: Record, now: Time): Block {
    NoWrites(id, pool).(
      queue := Remove, lease := Add(Millis(now + cfg.leaseMicros)), record := SetRecord(r),
      counters := ZERO.(started := 1))
  }

  function RecoverBlock(pool: Pool, id: TaskId, r: Record, sequence: nat, now: Time): Block {
    NoWrites(id, pool).(
      lease := Remove, queue := Add(Score(r.priority, sequence)),
      outbox := AddMember(Member(pool, id, r.recoveredCount), Millis(now)), record := SetRecord(r),
      counters := ZERO.(recovered := 1))
  }

  function FinishBlock(id: TaskId, r: Record, auditFailed: bool, now: Time): Block {
    NoWrites(id, r.pool).(
      record := SetRecord(r), lease := Remove, terminal := Add(Millis(now)),
      dead := if r.status.Failed? then Add(Millis(now)) else Keep,
      counters := ZERO.(succeeded := if r.status.Succeeded? then 1 else 0,
                        failed := if r.status.Failed? then 1 else 0,
                        deadLettered := if r.status.Failed? then 1 else 0,
                        auditFailures := if auditFailed then 1 else 0))
  }

  // ----- The transaction programs -----

  ghost function ResumeCreate(cfg: Config, op: Op, view: View): Decision
    requires op.CreateOp?
  {
    var r := NewRecord(op.sub, op.who, op.trace, op.id, op.now);
    var scope := ScopeOf(r);
    if scope.Some? && IdemKey(scope.value) !in view then Watch(IdemKey(scope.value))
    else if scope.Some? && SeenIdem(view, scope.value).Some? then Give(Replay(SeenIdem(view, scope.value).value))
    else if IndexKey !in view then Watch(IndexKey)
    else if |SeenSet(view, IndexKey)| >= cfg.maxRecords then Give(Full)
    else Exec(CreateBlock(r), Updated(r))
  }

  ghost function ResumePurge(op: Op, view: View): Decision
    requires op.PurgeOp?
  {
    if RecordKey(op.id) !in view then Watch(RecordKey(op.id))
    else match SeenRecord(view, op.id)
      case None => Give(NotFound)
      case Some(r) =>
        if TerminalKey !in view then Watch(TerminalKey)
        else if !Terminal(r.status) then Exec(NoWrites(op.id, r.pool).(terminal := Remove), Flag(true))
        else Exec(PurgeBlock(op.id, r), Flag(true))
  }

  ghost function ResumeUpdate(op: Op, view: View): Decision
    requires op.CountAuditOp? || op.SetAttemptsOp?
  {
    if RecordKey(op.id) !in view then Watch(RecordKey(op.id))
    else match SeenRecord(view, op.id)
      case None => Give(NotFound)
      case Some(r) =>
        if op.SetAttemptsOp? && r.holder != Some(op.worker) then Give(Refused)
        else
          var u := if op.CountAuditOp? then r.(auditEvents := r.auditEvents + 1, updatedAt := op.now)
                   else r.(attempts := op.attempts, updatedAt := op.now);
          Exec(NoWrites(op.id, r.pool).(record := SetRecord(u)), Updated(u))
  }

  ghost function ResumeActivate(cfg: Config, op: Op, view: View, ticket: Option<nat>): Decision
    requires op.ActivateOp?
  {
    if RecordKey(op.id) !in view then Watch(RecordKey(op.id))
    else match SeenRecord(view, op.id)
      case None => Give(NotFound)
      case Some(r) =>
        if r.pool != op.pool || !r.status.Queued? then Give(Refused)
        else if QueueKey(op.pool) !in view then Watch(QueueKey(op.pool))
        else if LeaseKey(op.pool) !in view then Watch(LeaseKey(op.pool))
        else
          var queue := SeenSet(view, QueueKey(op.pool));
          var lease := SeenSet(view, LeaseKey(op.pool));
          if op.id in queue || op.id in lease then Exec(NoWrites(op.id, r.pool).(staging := Remove), Unchanged(r))
          else if |queue| + |lease| >= cfg.Room(op.pool) then Give(Full)
          else if ticket.None? then Draw
          else Exec(ActivateBlock(op.id, r, ticket.value, op.now), Unchanged(r))
  }

  ghost function ResumeReject(op: Op, view: View): Decision
    requires op.RejectOp?
  {
    if RecordKey(op.id) !in view then Watch(RecordKey(op.id))
    else match SeenRecord(view, op.id)
      case None => Give(NotFound)
      case Some(r) =>
        if Terminal(r.status) then Give(Unchanged(r))
        else
          var u := RejectedRecord(r, op.reason, op.detail, op.now);
          Exec(RejectBlock(op.id, u, op.auditFailed, op.now), Updated(u))
  }

  ghost function ResumeClaim(cfg: Config, op: Op, view: View): Decision
    requires op.ClaimOp?
  {
    if QueueKey(op.pool) !in view then Watch(QueueKey(op.pool))
    else if SeenSet(view, QueueKey(op.pool)) == map[] then Give(NoTask)
    else
      var id := Head(SeenSet(view, QueueKey(op.pool)));
      if RecordKey(id) !in view then Watch(RecordKey(id))
      else match SeenRecord(view, id)
        case None => Give(NotFound)
        case Some(r) =>
          if !r.status.Queued? then Exec(NoWrites(id, op.pool).(queue := Remove), Again)
          else
            var u := Claimed(cfg, r, op.worker, op.now);
            Exec(ClaimBlock(cfg, op.pool, id, u, op.now), Updated(u))
  }

  ghost function ResumeHeartbeat(cfg: Config, op: Op, view: View): Decision
    requires op.HeartbeatOp?
  {
    if RecordKey(op.id) !in view then Watch(RecordKey(op.id))
    else match SeenRecord(view, op.id)
      case None => Give(NotFound)
      case Some(r) =>
        if !r.status.Running? || r.holder != Some(op.worker) then Give(Flag(false))
        else
          var expires := op.now + cfg.leaseMicros;
          Exec(NoWrites(op.id, r.pool).(record := SetRecord(r.(leaseExpires := Some(expires), updatedAt := op.now)),
                                        lease := Add(Millis(expires))), Flag(true))
  }

  ghost function ResumeRecover(op: Op, view: View, ticket: Option<nat>): Decision
    requires op.RecoverOp?
  {
    if LeaseKey(op.pool) !in view then Watch(LeaseKey(op.pool))
    else
      var lease := SeenSet(view, LeaseKey(op.pool));
      if op.id !in lease || lease[op.id] > op.nowMs then Give(Flag(false))
      else if RecordKey(op.id) !in view then Watch(RecordKey(op.id))
      else match SeenRecord(view, op.id)
        case None => Give(NotFound)
        case Some(r) =>
          if !r.status.Running? then Exec(NoWrites(op.id, op.pool).(lease := Remove), Flag(false))
          else if ticket.None? then Draw
          else
            var u := Recovered(r, op.now);
            Exec(RecoverBlock(op.pool, op.id, u, ticket.value, op.now), Flag(true))
  }

  ghost function ResumeFinish(op: Op, view: View): Decision
    requires op.FinishOp?
  {
    if !op.status.Succeeded? && !op.status.Failed? then Give(Refused)
    else if RecordKey(op.id) !in view then Watch(RecordKey(op.id))
    else match SeenRecord(view, op.id)
      case None => Give(NotFound)
      case Some(r) =>
        if Terminal(r.status) then Give(Unchanged(r))
        else if !r.status.Running? || r.holder != Some(op.worker) then Give(Refused)
        else
          var u := Finished(r, op.status, op.result, op.code, op.message, op.now);
          Exec(FinishBlock(op.id, u, op.auditFailed, op.now), Updated(u))
  }

  ghost function Resume(cfg: Config, op: Op, view: View, ticket: Option<nat>): Decision {
    match op
    case CreateOp(_, _, _, _, _) => ResumeCreate(cfg, op, view)
    case PurgeOp(_) => ResumePurge(op, view)
    case DropTerminalOp(id) => Exec(NoWrites(id, SecurityPool).(terminal := Remove), Flag(true))
    case DropStagingOp(id) => Exec(NoWrites(id, SecurityPool).(staging := Remove), Flag(true))
    case CountAuditOp(_, _) => ResumeUpdate(op, view)
    case SetAttemptsOp(_, _, _, _) => ResumeUpdate(op, view)
    case ActivateOp(_, _, _) => ResumeActivate(cfg, op, view, ticket)
    case RejectOp(_, _, _, _, _) => ResumeReject(op, view)
    case ClaimOp(_, _, _) => ResumeClaim(cfg, op, view)
    case HeartbeatOp(_, _, _) => ResumeHeartbeat(cfg, op, view)
    case RecoverOp(_, _, _, _) => ResumeRecover(op, view, ticket)
    case FinishOp(_, _, _, _, _, _, _, _) => ResumeFinish(op, view)
    case AcknowledgeOp(m) => Exec(NoWrites(m.id, m.pool).(outbox := RemoveMember(m)), Flag(true))
    case BumpOp(d) => Exec(NoWrites(0, SecurityPool).(counters := d), Flag(true))
  }

  /** The whole call run without interruption on one database state. */
  ghost function Atomic(cfg: Config, op: Op, db: Db, ticket: Option<nat>): Decision {
    Resume(cfg, op, FullView(db), ticket)
  }

  ghost predicate Sees(view: View, db: Db) {
    forall k :: k in view ==> view[k] == FullView(db)[k]
  }

  lemma ClaimSees(cfg: Config, op: Op, view: View, db: Db)
    requires op.ClaimOp? && Sees(view, db) && !ResumeClaim(cfg, op, view).Watch?
    ensures ResumeClaim(cfg, op, view) == ResumeClaim(cfg, op, FullView(db))
  {
  }

  lemma ActivateSees(cfg: Config, op: Op, view: View, db: Db, ticket: Option<nat>)
    requires op.ActivateOp? && Sees(view, db) && !ResumeActivate(cfg, op, view, ticket).Watch?
    ensures ResumeActivate(cfg, op, view, ticket) == ResumeActivate(cfg, op, FullView(db), ticket)
  {
  }

  lemma RecoverSees(op: Op, view: View, db: Db, ticket: Option<nat>)
    requires op.RecoverOp? && Sees(view, db) && !ResumeRecover(op, view, ticket).Watch?
    ensures ResumeRecover(op, view, ticket) == ResumeRecover(op, FullView(db), ticket)
  {
  }

  lemma CreateSees(cfg: Config, op: Op, view: View, db: Db)
    requires op.CreateOp? && Sees(view, db) && !ResumeCreate(cfg, op, view).Watch?
    ensures ResumeCreate(cfg, op, view) == ResumeCreate(cfg, op, FullView(db))
  {
  }

  lemma RecordOnlySees(cfg: Config, op: Op, view: View, db: Db)
    requires Sees(view, db)
    ensures op.PurgeOp? && !ResumePurge(op, view).Watch? ==> ResumePurge(op, view) == ResumePurge(op, FullView(db))
    ensures (op.CountAuditOp? || op.SetAttemptsOp?) && !ResumeUpdate(op, view).Watch? ==>
              ResumeUpdate(op, view) == ResumeUpdate(op, FullView(db))
    ensures op.RejectOp? && !ResumeReject(op, view).Watch? ==> ResumeReject(op, view) == ResumeReject(op, FullView(db))
    ensures op.HeartbeatOp? && !ResumeHeartbeat(cfg, op, view).Watch? ==>
              ResumeHeartbeat(cfg, op, view) == ResumeHeartbeat(cfg, op, FullView(db))
    ensures op.FinishOp? && !ResumeFinish(op, view).Watch? ==> ResumeFinish(op, view) == ResumeFinish(op, FullView(db))
  {
  }

  /** The watched keys cover everything a committed block depends on: a program
      that has stopped asking would decide the same on the complete database. */
  lemma ObservedDecisionIsAtomic(cfg: Config, op: Op, view: View, db: Db, ticket: Option<nat>)
    requires Agrees(view, db)
    requires !Resume(cfg, op, view, ticket).Watch?
    ensures Resume(cfg, op, view, ticket) == Atomic(cfg, op, db, ticket)
  {
    assert Sees(view, db);
    RecordOnlySees(cfg, op, view, db);
    if op.ClaimOp? {
      ClaimSees(cfg, op, view, db);
    } else if op.ActivateOp? {
      ActivateSees(cfg, op, view, db, ticket);
    } else if op.RecoverOp? {
      RecoverSees(op, view, db, ticket);
    } else if op.CreateOp? {
      CreateSees(cfg, op, view, db);
    }
  }

  /** A complete view never asks for another key. */
  lemma AtomicNeverWatches(cfg: Config, op: Op, db: Db, ticket: Option<nat>)
    ensures !Atomic(cfg, op, db, ticket).Watch?
  {
  }

  // ----- Answers without a commit -----

  /** The answers that also rest on a key read before the last one: no room, and a
      record gone although a lease or queue named it. */
  ghost predicate LateAnswer(cfg: Config, op: Op, db: Db, answer: Reply) {
    || (op.ActivateOp? && answer.Full?)
    || (op.CreateOp? && answer.Full? && |db.index| >= cfg.maxRecords)
    || (op.RecoverOp? && answer.NotFound? && op.id !in db.records)
    || (op.ClaimOp? && answer.NotFound?)
  }

  /** The answer the call would give in a single step on this database, or a late one. */
  ghost predicate TrueAnswer(cfg: Config, op: Op, db: Db, answer: Reply) {
    Atomic(cfg, op, db, None) == Give(answer) || LateAnswer(cfg, op, db, answer)
  }

  /** The program reads the idempotency entry before the record index, and the
      lease before the record. */
  ghost predicate InOrder(op: Op, view: View) {
    && (op.CreateOp? && op.sub.key.Some? && IndexKey in view ==>
          IdemKey(ScopeOf(NewRecord(op.sub, op.who, op.trace, op.id, op.now)).value) in view)
    && (op.RecoverOp? && RecordKey(op.id) in view ==> LeaseKey(op.pool) in view)
  }

  lemma ReadsInOrder(cfg: Config, op: Op, view: View, key: Key, value: Value, ticket: Option<nat>)
    requires InOrder(op, view) && Resume(cfg, op, view, ticket) == Watch(key)
    ensures InOrder(op, view[key := value])
  {
  }

  /** A call that answers after reading one more key answers what was true of the
      store at that read. */
  lemma LastReadIsTrue(cfg: Config, op: Op, view: View, key: Key, db: Db, ticket: Option<nat>)
    requires InOrder(op, view) && Resume(cfg, op, view, ticket) == Watch(key)
    requires Resume(cfg, op, view[key := Read(db, key)], ticket).Give?
    ensures TrueAnswer(cfg, op, db, Resume(cfg, op, view[key := Read(db, key)], ticket).answer)
  {
    if op.CreateOp? {
      CreateAnswers(cfg, op, view, key, db);
    } else if op.ActivateOp? {
      ActivateAnswers(cfg, op, view, key, db, ticket);
    } else if op.RecoverOp? {
      RecoverAnswers(cfg, op, view, key, db, ticket);
    } else if op.ClaimOp? {
      ClaimAnswers(cfg, op, view, key, db);
    } else {
      RecordAnswers(cfg, op, view, key, db, ticket);
    }
  }

  lemma CreateAnswers(cfg: Config, op: Op, view: View, key: Key, db: Db)
    requires op.CreateOp? && InOrder(op, view) && ResumeCreate(cfg, op, view) == Watch(key)
    requires ResumeCreate(cfg, op, view[key := Read(db, key)]).Give?
    ensures TrueAnswer(cfg, op, db, ResumeCreate(cfg, op, view[key := Read(db, key)]).answer)
  {
  }

  lemma ActivateAnswers(cfg: Config, op: Op, view: View, key: Key, db: Db, ticket: Option<nat>)
    requires op.ActivateOp? && ResumeActivate(cfg, op, view, ticket) == Watch(key)
    requires ResumeActivate(cfg, op, view[key := Read(db, key)], ticket).Give?
    ensures TrueAnswer(cfg, op, db, ResumeActivate(cfg, op, view[key := Read(db, key)], ticket).answer)
  {
  }

  lemma RecoverAnswers(cfg: Config, op: Op, view: View, key: Key, db: Db, ticket: Option<nat>)
    requires op.RecoverOp? && InOrder(op, view) && ResumeRecover(op, view, ticket) == Watch(key)
    requires ResumeRecover(op, view[key := Read(db, key)], ticket).Give?
    ensures TrueAnswer(cfg, op, db, ResumeRecover(op, view[key := Read(db, key)], ticket).answer)
  {
  }

  lemma ClaimAnswers(cfg: Config, op: Op, view: View, key: Key, db: Db)
    requires op.ClaimOp? && ResumeClaim(cfg, op, view) == Watch(key)
    requires ResumeClaim(cfg, op, view[key := Read(db, key)]).Give?
    ensures TrueAnswer(cfg, op, db, ResumeClaim(cfg, op, view[key := Read(db, key)]).answer)
  {
  }

  lemma RecordAnswers(cfg: Config, op: Op, view: View, key: Key, db: Db, ticket: Option<nat>)
    requires op.PurgeOp? || op.CountAuditOp? || op.SetAttemptsOp? || op.RejectOp? || op.HeartbeatOp? || op.FinishOp?
    requires Resume(cfg, op, view, ticket) == Watch(key)
    requires Resume(cfg, op, view[key := Read(db, key)], ticket).Give?
    ensures Atomic(cfg, op, db, None) == Resume(cfg, op, view[key := Read(db, key)], ticket)
  {
  }

  /** What some answers say about the store. */
  lemma AnswersTell(cfg: Config, op: Op, db: Db, answer: Reply)
    requires TrueAnswer(cfg, op, db, answer)
    ensures op.ClaimOp? && answer.NoTask? ==> db.queues.At(op.pool) == map[]
    ensures op.PurgeOp? && answer.NotFound? ==> op.id !in db.records
    ensures op.HeartbeatOp? && answer == Flag(false) ==>
              op.id in db.records && !(db.records[op.id].status.Running? && db.records[op.id].holder == Some(op.worker))
    ensures (op.FinishOp? || op.RejectOp?) && answer.Unchanged? ==>
              op.id in db.records && db.records[op.id] == answer.record && Terminal(answer.record.status)
  {
  }
}
