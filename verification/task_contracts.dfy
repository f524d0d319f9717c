/** Values shared by the task runtime: enumerations, records, settings and the
    per-pool container.  Mirrors safeagent_gov/task_runtime/contracts.py. */
module TaskContracts {

  datatype Option<+T> = None | Some(value: T) {
    function GetOr(default: T): T {
      match this case Some(v) => v case None => default
    }
  }

  /** `task-` + uuid4().hex.  All ids have the same length, so Redis' byte order
      on them is the numeric order on the uuid value. */
  type TaskId = nat

  /** One per `process_next` call: `_worker_id` ends in a fresh uuid. */
  type ClientId = nat

  /** Microseconds since the epoch. */
  type Time = int

  datatype TaskKind = SecurityCheck | AgentTask | SkillScan | Evaluation
  datatype Pool = SecurityPool | AgentPool | EvaluationPool
  datatype Priority = Critical | High | Medium | Low
  datatype Status = Queued | Running | Succeeded | Failed | Rejected

  function PoolOf(kind: TaskKind): Pool {
    match kind
    case SecurityCheck => SecurityPool
    case SkillScan => SecurityPool
    case AgentTask => AgentPool
    case Evaluation => EvaluationPool
  }

  function Rank(priority: Priority): nat {
    match priority
    case Critical => 0
    case High => 1
    case Medium => 2
    case Low => 3
  }

  predicate Terminal(status: Status) {
    status.Succeeded? || status.Failed? || status.Rejected?
  }

  datatype Identity = Identity(tenant: string, actor: string, role: string)

  datatype Submission = Submission(
    kind: TaskKind, priority: Priority, payload: string, key: Option<string>, maxAttempts: nat)

  datatype Record = Record(
    id: TaskId, trace: string, tenant: string, actor: string, role: string,
    kind: TaskKind, pool: Pool, priority: Priority, payload: string, key: Option<string>,
    maxAttempts: nat, status: Status, attempts: nat,
    result: Option<string>, errorCode: Option<string>, errorMessage: Option<string>,
    auditEvents: nat, deliveryCount: nat, recoveredCount: nat,
    holder: Option<ClientId>, leaseExpires: Option<Time>,
    createdAt: Time, updatedAt: Time, startedAt: Option<Time>, completedAt: Option<Time>)

  datatype PerPool<T> = PerPool(security: T, agent: T, evaluation: T) {
    function At(p: Pool): T {
      match p case SecurityPool => security case AgentPool => agent case EvaluationPool => evaluation
    }

    function With(p: Pool, v: T): PerPool<T> {
      match p
      case SecurityPool => this.(security := v)
      case AgentPool => this.(agent := v)
      case EvaluationPool => this.(evaluation := v)
    }
  }

  datatype PoolSettings = PoolSettings(workers: nat, queueCapacity: nat)

  datatype Config = Config(pools: PerPool<PoolSettings>, maxRecords: nat, leaseMicros: nat) {
    /** `queue_capacity + workers`: the most tasks a pool may hold queued or leased. */
    function Room(p: Pool): nat {
      pools.At(p).queueCapacity + pools.At(p).workers
    }
  }

  /** `_millis`: Redis scores are whole milliseconds. */
  function Millis(t: Time): int {
    t / 1000
  }

  function Truncate(s: string): string {
    if |s| <= 1000 then s else s[..1000]
  }
}
