/** Conservation: the store's counters equal sums over every task ever created,
    purged ones included. */
module ProtocolCounters {
  import opened TaskContracts
  import opened StoreState
  import opened StoreTransactions
  import opened StoreInvariant
  import opened StorePreservation
  import opened TaskProtocol
  import opened ProtocolRecords
  import opened ProtocolInvariant

  datatype Tally = Deliveries | Recoveries | Successes | Failures

  function Weight(t: Tally, r: Record): nat {
    match t
    case Deliveries => r.deliveryCount
    case Recoveries => r.recoveredCount
    case Successes => if r.status.Succeeded? then 1 else 0
    case Failures => if r.status.Failed? then 1 else 0
  }

  function Counter(t: Tally, c: Counters): nat {
    match t
    case Deliveries => c.started
    case Recoveries => c.recovered
    case Successes => c.succeeded
    case Failures => c.failed
  }

  ghost function Total(t: Tally, created: seq<TaskId>, history: map<TaskId, Record>): nat
    requires forall id :: id in created ==> id in history
  {
    if created == [] then 0
    else Weight(t, history[created[0]]) + Total(t, created[1..], history)
  }

  lemma {:induction false} TotalUnchanged(t: Tally, created: seq<TaskId>, h: map<TaskId, Record>, h': map<TaskId, Record>)
    requires forall id :: id in created ==> id in h && id in h' && Weight(t, h[id]) == Weight(t, h'[id])
    ensures Total(t, created, h) == Total(t, created, h')
  {
    if created != [] {
      assert created[0] in created && forall id :: id in created[1..] ==> id in created;
      TotalUnchanged(t, created[1..], h, h');
    }
  }

  lemma {:induction false} TotalUpdate(t: Tally, created: seq<TaskId>, h: map<TaskId, Record>, id: TaskId, r: Record)
    requires forall x :: x in created ==> x in h
    requires forall i, j :: 0 <= i < j < |created| ==> created[i] != created[j]
    requires id in created
    ensures Total(t, created, h[id := r]) + Weight(t, h[id]) == Total(t, created, h) + Weight(t, r)
  {
    var rest := created[1..];
    assert forall x :: x in rest ==> x in created;
    if created[0] == id {
      assert id !in rest;
      TotalUnchanged(t, rest, h, h[id := r]);
    } else {
      assert id in rest;
      TotalUpdate(t, rest, h, id, r);
    }
  }

  lemma {:induction false} TotalAppend(t: Tally, created: seq<TaskId>, h: map<TaskId, Record>, id: TaskId)
    requires (forall x :: x in created ==> x in h) && id in h
    ensures Total(t, created + [id], h) == Total(t, created, h) + Weight(t, h[id])
  {
    if created == [] {
      assert created + [id] == [id];
    } else {
      assert (created + [id])[1..] == created[1..] + [id];
      assert forall x :: x in created[1..] ==> x in created;
      TotalAppend(t, created[1..], h, id);
    }
  }

  ghost predicate CountersOk(s: State)
    requires Lists(s.created, s.history)
  {
    && (forall t: Tally :: Counter(t, s.db.counters) == Total(t, s.created, s.history))
    && s.db.counters.deadLettered == s.db.counters.failed
  }

  ghost function WeightBefore(t: Tally, db: Db, b: Block): nat {
    if b.record.SetRecord? && b.id in db.records then Weight(t, db.records[b.id]) else 0
  }

  ghost function WeightAfter(t: Tally, b: Block): nat {
    if b.record.SetRecord? then Weight(t, b.record.record) else 0
  }

  /** A block counts exactly what it does to its record. */
  ghost predicate CountsRecord(db: Db, b: Block) {
    && b.counters.deadLettered == b.counters.failed
    && (forall t: Tally :: Counter(t, b.counters) + WeightBefore(t, db, b) == WeightAfter(t, b))
  }

  lemma QuietCounts(cfg: Config, op: Op, db: Db, tk: Option<nat>, b: Block, reply: Reply)
    requires Valid(cfg, db) && Admissible(op, db) && Atomic(cfg, op, db, tk) == Exec(b, reply)
    requires op.BumpOp? ==> Loose(op.delta)
    requires !op.RejectOp? && !op.ClaimOp? && !op.RecoverOp? && !op.FinishOp?
    ensures CountsRecord(db, b)
  {
    if op.CreateOp? {
      CreateShape(cfg, op, db, tk, b, reply);
    } else if op.PurgeOp? {
      PurgeCommit(cfg, op, db, tk, b, reply);
    } else if op.CountAuditOp? || op.SetAttemptsOp? {
      UpdateShape(cfg, op, db, tk, b, reply);
    } else if op.ActivateOp? {
      ActivateShape(cfg, op, db, tk, b, reply);
    } else if op.HeartbeatOp? {
      HeartbeatShape(cfg, op, db, tk, b, reply);
    }
  }

  lemma RejectCounts(cfg: Config, op: Op, db: Db, tk: Option<nat>, b: Block, reply: Reply)
    requires Valid(cfg, db) && op.RejectOp? && Atomic(cfg, op, db, tk) == Exec(b, reply)
    ensures CountsRecord(db, b)
  {
    RejectCommit(cfg, op, db, tk, b, reply);
  }

  lemma ClaimCounts(cfg: Config, op: Op, db: Db, tk: Option<nat>, b: Block, reply: Reply)
    requires Valid(cfg, db) && op.ClaimOp? && Atomic(cfg, op, db, tk) == Exec(b, reply)
    ensures CountsRecord(db, b)
  {
    ClaimCommit(cfg, op, db, tk, b, reply);
  }

  lemma RecoverCounts(cfg: Config, op: Op, db: Db, tk: Option<nat>, b: Block, reply: Reply)
    requires Valid(cfg, db) && op.RecoverOp? && Atomic(cfg, op, db, tk) == Exec(b, reply)
    ensures CountsRecord(db, b)
  {
    RecoverCommit(cfg, op, db, tk, b, reply);
  }

  lemma FinishCounts(cfg: Config, op: Op, db: Db, tk: Option<nat>, b: Block, reply: Reply)
    requires Valid(cfg, db) && op.FinishOp? && Atomic(cfg, op, db, tk) == Exec(b, reply)
    ensures CountsRecord(db, b)
  {
    FinishShape(cfg, op, db, tk, b, reply);
  }

  lemma CommitCounts(cfg: Config, op: Op, db: Db, tk: Option<nat>, b: Block, reply: Reply)
    requires Valid(cfg, db) && Admissible(op, db) && Atomic(cfg, op, db, tk) == Exec(b, reply)
    requires op.BumpOp? ==> Loose(op.delta)
    ensures CountsRecord(db, b)
  {
    if op.RejectOp? {
      RejectCounts(cfg, op, db, tk, b, reply);
    } else if op.ClaimOp? {
      ClaimCounts(cfg, op, db, tk, b, reply);
    } else if op.RecoverOp? {
      RecoverCounts(cfg, op, db, tk, b, reply);
    } else if op.FinishOp? {
      FinishCounts(cfg, op, db, tk, b, reply);
    } else {
      QuietCounts(cfg, op, db, tk, b, reply);
    }
  }

  lemma CountersPlus(t: Tally, c: Counters, d: Counters)
    ensures Counter(t, c.Plus(d)) == Counter(t, c) + Counter(t, d)
  {
  }

  lemma TallyFollows(s: State, s': State, op: Op, b: Block, t: Tally)
    requires HistoryOk(s) && CountersOk(s) && CountsRecord(s.db, b)
    requires s'.history == Record1(s.history, b) && s'.created == (if op.CreateOp? then s.created + [op.id] else s.created)
    requires s'.db.counters == s.db.counters.Plus(b.counters)
    requires op.CreateOp? ==> op.id == b.id && b.id !in s.history && b.record.SetRecord?
    requires !op.CreateOp? && b.record.SetRecord? ==> b.id in s.db.records
    requires Lists(s'.created, s'.history)
    ensures Counter(t, s'.db.counters) == Total(t, s'.created, s'.history)
  {
    hide Total, Atomic, TrueAnswer;
    CountersPlus(t, s.db.counters, b.counters);
    if op.CreateOp? {
      TotalUnchanged(t, s.created, s.history, s'.history);
      TotalAppend(t, s.created, s'.history, b.id);
    } else if b.record.SetRecord? {
      TotalUpdate(t, s.created, s.history, b.id, b.record.record);
    }
  }

  lemma CountersFollow(s: State, s': State, op: Op, b: Block)
    requires HistoryOk(s) && CountersOk(s) && CountsRecord(s.db, b)
    requires s'.history == Record1(s.history, b) && s'.created == (if op.CreateOp? then s.created + [op.id] else s.created)
    requires s'.db.counters == s.db.counters.Plus(b.counters)
    requires op.CreateOp? ==> op.id == b.id && b.id !in s.history && b.record.SetRecord?
    requires !op.CreateOp? && b.record.SetRecord? ==> b.id in s.db.records
    requires Lists(s'.created, s'.history)
    ensures CountersOk(s')
  {
    forall t: Tally ensures Counter(t, s'.db.counters) == Total(t, s'.created, s'.history) {
      TallyFollows(s, s', op, b, t);
    }
  }

  lemma EffectTarget(cfg: Config, op: Op, db: Db, b: Block, reply: Reply)
    requires RecordEffect(cfg, op, db, b, reply)
    ensures op.CreateOp? ==> op.id == b.id && b.record.SetRecord?
    ensures !op.CreateOp? && b.record.SetRecord? ==> b.id in db.records
  {
  }

  lemma CommitKeepsCounters(cfg: Config, s: State, s': State, c: ClientId, op: Op, tk: Option<nat>, b: Block, reply: Reply)
    requires CoreInv(cfg, s) && CountersOk(s) && NextStep(cfg, s, s', CommitStep(c, op, tk, b, reply))
    ensures Lists(s'.created, s'.history) && CountersOk(s')
  {
    CallsAreAdmissible(s, c, op);
    CommitHistory(cfg, s, s', c, op, tk, b, reply);
    EffectTarget(cfg, op, s.db, b, reply);
    CommitCounts(cfg, op, s.db, tk, b, reply);
    CountersFollow(s, s', op, b);
  }

  lemma OtherStepsCountNothing(cfg: Config, s: State, s': State, step: Step)
    requires NextStep(cfg, s, s', step) && !step.CommitStep?
    ensures s'.history == s.history && s'.created == s.created && s'.db.counters == s.db.counters
  {
  }

  lemma NextKeepsCounters(cfg: Config, s: State, s': State)
    requires CoreInv(cfg, s) && CountersOk(s) && Next(cfg, s, s')
    ensures Lists(s'.created, s'.history) && CountersOk(s')
  {
    var step :| NextStep(cfg, s, s', step);
    if step.CommitStep? {
      CommitKeepsCounters(cfg, s, s', step.c, step.op, step.ticket, step.block, step.reply);
    } else {
      OtherStepsCountNothing(cfg, s, s', step);
    }
  }

  lemma InitCounts(s: State)
    requires Init(s)
    ensures Lists(s.created, s.history) && CountersOk(s)
  {
    forall t: Tally ensures Counter(t, s.db.counters) == Total(t, s.created, s.history) { }
  }

  /** `started`, `recovered`, `succeeded` and `failed` equal the deliveries,
      recoveries, successes and failures of all tasks ever created, and every
      failure is dead-lettered. */
  lemma {:induction false} RunKeepsCounters(cfg: Config, run: seq<State>, n: nat)
    requires IsRun(cfg, run) && n < |run|
    ensures Lists(run[n].created, run[n].history) && CountersOk(run[n])
  {
    hide *;
    RunIsNonEmpty(cfg, run);
    if n == 0 {
      InitCounts(run[0]);
    } else {
      RunKeepsCounters(cfg, run, n - 1);
      RunKeepsCore(cfg, run, n - 1);
      RunSteps(cfg, run, n - 1);
      if run[n - 1] != run[n] { NextKeepsCounters(cfg, run[n - 1], run[n]); }
    }
  }
}
