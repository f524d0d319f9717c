/** The Redis keyspace of the task store and the effect of one MULTI/EXEC block.
    Every block of redis_store.py addresses one task, and its commands touch
    pairwise distinct keys, so a block is a record of per-key writes. */
module StoreState {
  import opened TaskContracts

  /** A Redis sorted set: member to score. */
  type ZSet = map<TaskId, int>

  /** `pool|task_id|generation` in the outbox. */
  datatype Member = Member(pool: Pool, id: TaskId, generation: nat)

  /** The tuple whose digest is the idempotency key. */
  datatype Scope = Scope(tenant: string, actor: string, key: string)

  datatype Counters = Counters(
    submitted: nat, replays: nat, retried: nat, accepted: nat, rejected: nat, started: nat, recovered: nat,
    succeeded: nat, failed: nat, deadLettered: nat, auditFailures: nat, notificationFailures: nat)
  {
    function Plus(d: Counters): Counters {
      Counters(submitted + d.submitted, replays + d.replays, retried + d.retried, accepted + d.accepted,
               rejected + d.rejected, started + d.started, recovered + d.recovered, succeeded + d.succeeded,
               failed + d.failed, deadLettered + d.deadLettered, auditFailures + d.auditFailures,
               notificationFailures + d.notificationFailures)
    }
  }

  const ZERO := Counters(0, 0, 0, 0, 0, 0, 0, 0, 0, 0, 0, 0)

  datatype Db = Db(
    records: map<TaskId, Record>,
    index: ZSet,
    tenants: map<(string, TaskId), int>,
    staging: ZSet,
    queues: PerPool<ZSet>,
    leases: PerPool<ZSet>,
    terminal: ZSet,
    dead: ZSet,
    deadPools: PerPool<ZSet>,
    outbox: map<Member, int>,
    idem: map<Scope, TaskId>,
    sequence: nat,
    counters: Counters)

  const EMPTY := Db(map[], map[], map[], map[], PerPool(map[], map[], map[]), PerPool(map[], map[], map[]),
                    map[], map[], PerPool(map[], map[], map[]), map[], map[], 0, ZERO)

  function ScopeOf(r: Record): Option<Scope> {
    match r.key
    case None => None
    case Some(k) => Some(Scope(r.tenant, r.actor, k))
  }

  datatype ZWrite = Keep | Add(score: int) | Remove
  datatype RecordWrite = KeepRecord | SetRecord(record: Record) | DeleteRecord
  datatype OutboxWrite = KeepOutbox | AddMember(added: Member, score: int) | RemoveMember(removed: Member)
  datatype IdemWrite = KeepIdem | Bind(bound: Scope) | Unbind(freed: Scope)

  datatype Block = Block(
    id: TaskId, pool: Pool, tenant: string,
    record: RecordWrite, index: ZWrite, tenantIndex: ZWrite, staging: ZWrite, queue: ZWrite, lease: ZWrite,
    terminal: ZWrite, dead: ZWrite, outbox: OutboxWrite, idem: IdemWrite, counters: Counters)

  function NoWrites(id: TaskId, pool: Pool): Block {
    Block(id, pool, "", KeepRecord, Keep, Keep, Keep, Keep, Keep, Keep, Keep, KeepOutbox, KeepIdem, ZERO)
  }

  function WriteZ<K>(z: map<K, int>, k: K, w: ZWrite): map<K, int> {
    match w
    case Keep => z
    case Add(score) => z[k := score]
    case Remove => z - {k}
  }

  function WritePool(z: PerPool<ZSet>, p: Pool, id: TaskId, w: ZWrite): PerPool<ZSet> {
    z.With(p, WriteZ(z.At(p), id, w))
  }

  function WriteRecord(records: map<TaskId, Record>, id: TaskId, w: RecordWrite): map<TaskId, Record> {
    match w
    case KeepRecord => records
    case SetRecord(r) => records[id := r]
    case DeleteRecord => records - {id}
  }

  function WriteOutbox(outbox: map<Member, int>, w: OutboxWrite): map<Member, int> {
    match w
    case KeepOutbox => outbox
    case AddMember(m, score) => outbox[m := score]
    case RemoveMember(m) => outbox - {m}
  }

  function WriteIdem(idem: map<Scope, TaskId>, id: TaskId, w: IdemWrite): map<Scope, TaskId> {
    match w
    case KeepIdem => idem
    case Bind(s) => idem[s := id]
    case Unbind(s) => idem - {s}
  }

  /** EXEC. */
  function Apply(db: Db, b: Block): Db {
    Db(WriteRecord(db.records, b.id, b.record),
       WriteZ(db.index, b.id, b.index),
       WriteZ(db.tenants, (b.tenant, b.id), b.tenantIndex),
       WriteZ(db.staging, b.id, b.staging),
       WritePool(db.queues, b.pool, b.id, b.queue),
       WritePool(db.leases, b.pool, b.id, b.lease),
       WriteZ(db.terminal, b.id, b.terminal),
       WriteZ(db.dead, b.id, b.dead),
       WritePool(db.deadPools, b.pool, b.id, b.dead),
       WriteOutbox(db.outbox, b.outbox),
       WriteIdem(db.idem, b.id, b.idem),
       db.sequence,
       db.counters.Plus(b.counters))
  }

  // ----- Keys a transaction may WATCH, and what reading them returns -----

  datatype Key =
    | RecordKey(id: TaskId)
    | IdemKey(scope: Scope)
    | IndexKey
    | TerminalKey
    | QueueKey(pool: Pool)
    | LeaseKey(pool: Pool)

  datatype Value = RecordValue(record: Option<Record>) | IdemValue(ref: Option<TaskId>) | ZValue(z: ZSet)

  function Read(db: Db, key: Key): Value {
    match key
    case RecordKey(id) => RecordValue(if id in db.records then Some(db.records[id]) else None)
    case IdemKey(s) => IdemValue(if s in db.idem then Some(db.idem[s]) else None)
    case IndexKey => ZValue(db.index)
    case TerminalKey => ZValue(db.terminal)
    case QueueKey(p) => ZValue(db.queues.At(p))
    case LeaseKey(p) => ZValue(db.leases.At(p))
  }

  /** What one client has observed so far. */
  type View = imap<Key, Value>

  ghost function FullView(db: Db): View {
    imap k: Key | true :: Read(db, k)
  }

  ghost predicate Agrees(view: View, db: Db) {
    forall k :: k in view ==> view[k] == Read(db, k)
  }

  ghost function SeenRecord(view: View, id: TaskId): Option<Record>
    requires RecordKey(id) in view
  {
    match view[RecordKey(id)] case RecordValue(r) => r case _ => None
  }

  ghost function SeenIdem(view: View, s: Scope): Option<TaskId>
    requires IdemKey(s) in view
  {
    match view[IdemKey(s)] case IdemValue(r) => r case _ => None
  }

  ghost function SeenSet(view: View, k: Key): ZSet
    requires k in view
  {
    match view[k] case ZValue(z) => z case _ => map[]
  }

  // ----- The member ZRANGE key 0 0 returns: least (score, member) -----

  ghost predicate IsHead(z: ZSet, id: TaskId) {
    id in z && forall x :: x in z ==> z[id] < z[x] || (z[id] == z[x] && id <= x)
  }

  lemma {:induction false} HeadExists(z: ZSet)
    requires z != map[]
    ensures exists id :: IsHead(z, id)
    decreases |z|
  {
    var x :| x in z;
    var rest := z - {x};
    if rest == map[] {
      assert forall y :: y in z && y != x ==> y in rest;
      assert IsHead(z, x);
    } else {
      assert |rest| < |z| by { assert rest.Keys == z.Keys - {x}; assert |rest| == |rest.Keys|; assert |z| == |z.Keys|; }
      HeadExists(rest);
      var y :| IsHead(rest, y);
      var best := if z[x] < z[y] || (z[x] == z[y] && x <= y) then x else y;
      forall w | w in z ensures z[best] < z[w] || (z[best] == z[w] && best <= w) {
        if w != x { assert w in rest; assert rest[w] == z[w]; }
      }
      assert IsHead(z, best);
    }
  }

  ghost function Head(z: ZSet): (id: TaskId)
    requires z != map[]
    ensures IsHead(z, id)
  {
    HeadExists(z);
    var id :| IsHead(z, id);
    id
  }

  lemma HeadUnique(z: ZSet, id: TaskId)
    requires z != map[] && IsHead(z, id)
    ensures id == Head(z)
  {
  }
}
