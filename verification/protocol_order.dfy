/** Queue order over whole runs: sequence numbers are unique, and a claim takes
    the first task of its pool by priority rank and sequence number. */
module ProtocolOrder {
  import opened TaskContracts
  import opened StoreState
  import opened StoreTransactions
  import opened StoreInvariant
  import opened StorePreservation
  import opened ScoreOrder
  import opened TaskProtocol
  import opened ProtocolRecords
  import opened ProtocolInvariant

  ghost predicate InQueue(s: State, p: Pool, id: TaskId) {
    id in s.db.queues.At(p) && id in s.history
  }

  /** The sequence number in a queued task's score. */
  ghost function NumberOf(s: State, p: Pool, id: TaskId): int
    requires InQueue(s, p, id)
  {
    s.db.queues.At(p)[id] - Rank(s.history[id].priority) * STRIDE
  }

  ghost predicate NumberOk(s: State, p: Pool, id: TaskId) {
    InQueue(s, p, id) && 1 <= NumberOf(s, p, id) <= s.db.sequence && forall n :: n in s.tickets ==> n != NumberOf(s, p, id)
  }

  ghost predicate OrderOk(s: State) {
    && (forall n :: n in s.tickets ==> 1 <= n <= s.db.sequence)
    && (forall p: Pool, id :: id in s.db.queues.At(p) ==> NumberOk(s, p, id))
    && (forall p: Pool, x, y :: InQueue(s, p, x) && InQueue(s, p, y) && x != y ==> NumberOf(s, p, x) != NumberOf(s, p, y))
  }

  /** Nothing this module looks at changed, except that numbers may have been drawn. */
  ghost predicate OrderFrame(s: State, s': State) {
    && s'.db.queues == s.db.queues && s'.history == s.history
    && s.db.sequence <= s'.db.sequence
    && (forall n :: n in s'.tickets ==> 1 <= n <= s'.db.sequence && (n in s.tickets || n > s.db.sequence))
  }

  lemma FrameKeepsOrder(s: State, s': State)
    requires OrderOk(s) && OrderFrame(s, s')
    ensures OrderOk(s')
  {
    forall p: Pool, id | id in s'.db.queues.At(p) ensures NumberOk(s', p, id) { assert NumberOk(s, p, id); }
    forall p: Pool, x, y | InQueue(s', p, x) && InQueue(s', p, y) && x != y
      ensures NumberOf(s', p, x) != NumberOf(s', p, y)
    {
      assert InQueue(s, p, x) && InQueue(s, p, y);
    }
  }

  ghost predicate Entered(b: Block, p: Pool, id: TaskId) {
    b.queue.Add? && p == b.pool && id == b.id
  }

  /** A task that was queued before and did not just enter keeps its number. */
  lemma NumberKept(s: State, s': State, b: Block, creates: bool, p: Pool, id: TaskId)
    requires HistoryStep(s, s', b, creates) && s'.db.queues == WritePool(s.db.queues, b.pool, b.id, b.queue)
    requires id in s'.db.queues.At(p) && !Entered(b, p, id) && id in s.history
    ensures InQueue(s, p, id) && InQueue(s', p, id) && NumberOf(s', p, id) == NumberOf(s, p, id)
  {
    WritePoolAt(s.db.queues, b.pool, b.id, b.queue, p);
    assert Later(s.history[id], s'.history[id]);
  }

  lemma NumberDrawn(s: State, s': State, op: Op, t: Option<nat>, b: Block, creates: bool)
    requires HistoryOk(s) && HistoryStep(s, s', b, creates) && Enqueues(op, s.db, t, b)
    requires s'.db.queues == WritePool(s.db.queues, b.pool, b.id, b.queue)
    ensures InQueue(s', b.pool, b.id) && NumberOf(s', b.pool, b.id) == t.value
  {
    WritePoolAt(s.db.queues, b.pool, b.id, b.queue, b.pool);
    assert Later(s.history[b.id], s'.history[b.id]);
  }

  lemma WasQueued(s: State, s': State, b: Block, p: Pool, id: TaskId)
    requires OrderOk(s) && s'.db.queues == WritePool(s.db.queues, b.pool, b.id, b.queue)
    requires id in s'.db.queues.At(p) && !Entered(b, p, id)
    ensures NumberOk(s, p, id)
  {
    WritePoolAt(s.db.queues, b.pool, b.id, b.queue, p);
  }

  lemma CommitKeepsOrder(cfg: Config, s: State, s': State, c: ClientId, op: Op, t: Option<nat>, b: Block, reply: Reply)
    requires CoreInv(cfg, s) && OrderOk(s) && NextStep(cfg, s, s', CommitStep(c, op, t, b, reply))
    ensures OrderOk(s')
  {
    CallsAreAdmissible(s, c, op);
    CommitQueueEffect(cfg, op, s.db, t, b, reply);
    CommitHistory(cfg, s, s', c, op, t, b, reply);
    CommitOrderFollows(s, s', c, op, t, b, reply);
  }

  lemma NumberAfter(s: State, s': State, op: Op, t: Option<nat>, b: Block, p: Pool, id: TaskId)
    requires HistoryOk(s) && OrderOk(s) && HistoryStep(s, s', b, op.CreateOp?) && QueueEffect(op, s.db, t, b)
    requires s'.db.queues == WritePool(s.db.queues, b.pool, b.id, b.queue) && s'.db.sequence == s.db.sequence
    requires s'.tickets == if b.queue.Add? && t.Some? then s.tickets - {t.value} else s.tickets
    requires t.Some? ==> t.value in s.tickets
    requires id in s'.db.queues.At(p)
    ensures NumberOk(s', p, id)
    ensures if Entered(b, p, id) then t.Some? && NumberOf(s', p, id) == t.value
            else NumberOk(s, p, id) && NumberOf(s', p, id) == NumberOf(s, p, id)
  {
    if Entered(b, p, id) {
      NumberDrawn(s, s', op, t, b, op.CreateOp?);
    } else {
      WasQueued(s, s', b, p, id);
      NumberKept(s, s', b, op.CreateOp?, p, id);
    }
  }

  lemma CommitOrderFollows(s: State, s': State, c: ClientId, op: Op, t: Option<nat>, b: Block, reply: Reply)
    requires HistoryOk(s) && OrderOk(s) && HistoryStep(s, s', b, op.CreateOp?) && QueueEffect(op, s.db, t, b)
    requires c in s.clients && s' == Committed(s, c, op, t, b, reply) && (t.Some? ==> t.value in s.tickets)
    ensures OrderOk(s')
  {
    forall p: Pool, id | id in s'.db.queues.At(p) ensures NumberOk(s', p, id) {
      NumberAfter(s, s', op, t, b, p, id);
    }
    forall p: Pool, x, y | InQueue(s', p, x) && InQueue(s', p, y) && x != y
      ensures NumberOf(s', p, x) != NumberOf(s', p, y)
    {
      NumberAfter(s, s', op, t, b, p, x);
      NumberAfter(s, s', op, t, b, p, y);
    }
  }

  lemma OtherStepsFrame(cfg: Config, s: State, s': State, step: Step)
    requires NextStep(cfg, s, s', step) && !step.CommitStep? && OrderOk(s)
    ensures OrderFrame(s, s')
  {
  }

  lemma NextKeepsOrder(cfg: Config, s: State, s': State)
    requires CoreInv(cfg, s) && OrderOk(s) && Next(cfg, s, s')
    ensures OrderOk(s')
  {
    var step :| NextStep(cfg, s, s', step);
    if step.CommitStep? {
      CommitKeepsOrder(cfg, s, s', step.c, step.op, step.ticket, step.block, step.reply);
    } else {
      OtherStepsFrame(cfg, s, s', step);
      FrameKeepsOrder(s, s');
    }
  }

  lemma {:induction false} RunKeepsOrder(cfg: Config, run: seq<State>, n: nat)
    requires IsRun(cfg, run) && n < |run|
    ensures OrderOk(run[n])
  {
    hide *;
    RunIsNonEmpty(cfg, run);
    if n == 0 {
      InitialOrder(run[0]);
    } else {
      RunKeepsOrder(cfg, run, n - 1);
      RunKeepsCore(cfg, run, n - 1);
      RunSteps(cfg, run, n - 1);
      StepKeepsOrder(cfg, run[n - 1], run[n]);
    }
  }

  lemma InitialOrder(s: State)
    requires Init(s)
    ensures OrderOk(s)
  {
    assert forall p: Pool :: s.db.queues.At(p) == map[];
  }

  lemma StepKeepsOrder(cfg: Config, s: State, s': State)
    requires CoreInv(cfg, s) && OrderOk(s) && (Next(cfg, s, s') || s == s')
    ensures OrderOk(s')
  {
    hide *;
    if s != s' { NextKeepsOrder(cfg, s, s'); }
  }

  lemma ClaimIsFirst(cfg: Config, s: State, op: Op, t: Option<nat>, b: Block, reply: Reply, x: TaskId)
    requires op.ClaimOp? && Valid(cfg, s.db) && OrderOk(s) && s.db.sequence <= STRIDE
    requires Atomic(cfg, op, s.db, t) == Exec(b, reply)
    requires InQueue(s, op.pool, x) && x != b.id
    ensures InQueue(s, op.pool, b.id)
    ensures var n, m := NumberOf(s, op.pool, b.id), NumberOf(s, op.pool, x);
            n >= 0 && m >= 0 && TupleBefore(s.history[b.id].priority, n, b.id, s.history[x].priority, m, x)
  {
    ClaimCommit(cfg, op, s.db, t, b, reply);
    assert IsHead(s.db.queues.At(op.pool), b.id);
    assert NumberOk(s, op.pool, b.id) && NumberOk(s, op.pool, x);
    OrdersAgree(s.history[b.id].priority, NumberOf(s, op.pool, b.id), b.id,
                s.history[x].priority, NumberOf(s, op.pool, x), x);
  }

  /** While at most STRIDE numbers were drawn, the task a claim takes comes
      before every other task queued in its pool, in the in-memory queue's order. */
  lemma ClaimTakesFirst(cfg: Config, run: seq<State>, i: nat, c: ClientId, op: Op, t: Option<nat>, b: Block, reply: Reply,
                        x: TaskId)
    requires IsRun(cfg, run) && i + 1 < |run| && op.ClaimOp?
    requires NextStep(cfg, run[i], run[i + 1], CommitStep(c, op, t, b, reply))
    requires run[i].db.sequence <= STRIDE
    requires x in run[i].db.queues.At(op.pool) && x != b.id
    ensures InQueue(run[i], op.pool, b.id) && InQueue(run[i], op.pool, x)
    ensures var n, m := NumberOf(run[i], op.pool, b.id), NumberOf(run[i], op.pool, x);
            n >= 0 && m >= 0 && TupleBefore(run[i].history[b.id].priority, n, b.id, run[i].history[x].priority, m, x)
  {
    RunKeepsCore(cfg, run, i);
    RunKeepsOrder(cfg, run, i);
    assert NumberOk(run[i], op.pool, x);
    ClaimIsFirst(cfg, run[i], op, t, b, reply, x);
  }

  /** A task enqueued with the newest number, new or recovered, is behind every
      queued task of its own priority. */
  lemma EnqueuesAtBack(cfg: Config, run: seq<State>, i: nat, c: ClientId, op: Op, t: Option<nat>, b: Block, reply: Reply,
                       x: TaskId)
    requires IsRun(cfg, run) && i + 1 < |run| && b.queue.Add?
    requires NextStep(cfg, run[i], run[i + 1], CommitStep(c, op, t, b, reply))
    requires t == Some(run[i].db.sequence)
    requires x in run[i + 1].db.queues.At(b.pool) && x != b.id
    ensures InQueue(run[i + 1], b.pool, b.id) && InQueue(run[i + 1], b.pool, x)
    ensures NumberOf(run[i + 1], b.pool, x) < NumberOf(run[i + 1], b.pool, b.id) == t.value
  {
    hide IsRun, CoreInv, Atomic;
    var s, s' := run[i], run[i + 1];
    RunKeepsCore(cfg, run, i);
    RunKeepsOrder(cfg, run, i + 1);
    EnqueueNumber(cfg, s, s', c, op, t, b, reply);
    assert NumberOk(s', b.pool, x);
  }

  lemma EnqueueNumber(cfg: Config, s: State, s': State, c: ClientId, op: Op, t: Option<nat>, b: Block, reply: Reply)
    requires CoreInv(cfg, s) && b.queue.Add? && NextStep(cfg, s, s', CommitStep(c, op, t, b, reply))
    ensures t.Some? && InQueue(s', b.pool, b.id) && NumberOf(s', b.pool, b.id) == t.value
    ensures s'.db.sequence == s.db.sequence
  {
    CallsAreAdmissible(s, c, op);
    CommitQueueEffect(cfg, op, s.db, t, b, reply);
    CommitHistory(cfg, s, s', c, op, t, b, reply);
    NumberDrawn(s, s', op, t, b, op.CreateOp?);
  }
}
