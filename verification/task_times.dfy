/** Time over whole runs: scores are the times of the records, a submission younger
    than the cutoff is never given up, and the oldest ended task is purged first. */
module TaskTimes {
  import opened TaskContracts
  import opened StoreState
  import opened StoreTransactions
  import opened StoreInvariant
  import opened StorePreservation
  import opened StoreTimes
  import opened StoreReconciliation
  import opened TaskProtocol
  import opened ProtocolRecords
  import opened ProtocolInvariant
  import opened ProtocolWakes
  import opened TaskGuarantees

  // ----- Scores -----

  lemma CommitKeepsTimesIn(cfg: Config, s: State, s': State, c: ClientId, op: Op, t: Option<nat>, b: Block, reply: Reply)
    requires CoreInv(cfg, s) && TimesOk(s.db) && NextStep(cfg, s, s', CommitStep(c, op, t, b, reply))
    ensures TimesOk(s'.db)
  {
    hide Valid, RecordsOk, StartsOk, TimesOk, Atomic, Apply;
    CallsAreAdmissible(s, c, op);
    CommitKeepsTimes(cfg, op, s.db, t, b, reply);
  }

  lemma OtherStepsKeepTimes(cfg: Config, s: State, s': State, step: Step)
    requires TimesOk(s.db) && NextStep(cfg, s, s', step) && !step.CommitStep?
    ensures TimesOk(s'.db)
  {
    hide Atomic, TrueAnswer, TimedAt;
    assert s'.db == s.db.(sequence := s'.db.sequence);
    forall id: TaskId ensures TimedAt(s'.db, id) {
      assert TimedAt(s.db, id);
      SequenceKeepsTimes(s.db, s'.db.sequence, id);
    }
  }

  lemma SequenceKeepsTimes(db: Db, n: nat, id: TaskId)
    requires TimedAt(db, id)
    ensures TimedAt(db.(sequence := n), id)
  {
  }

  lemma NextKeepsTimes(cfg: Config, s: State, s': State)
    requires CoreInv(cfg, s) && TimesOk(s.db) && (Next(cfg, s, s') || s == s')
    ensures TimesOk(s'.db)
  {
    if s != s' {
      var step :| NextStep(cfg, s, s', step);
      hide *;
      if step.CommitStep? {
        CommitKeepsTimesIn(cfg, s, s', step.c, step.op, step.ticket, step.block, step.reply);
      } else {
        OtherStepsKeepTimes(cfg, s, s', step);
      }
    }
  }

  lemma StartIsTimed(cfg: Config, run: seq<State>)
    requires IsRun(cfg, run)
    ensures |run| > 0 && TimesOk(run[0].db)
  {
  }

  lemma {:induction false} RunKeepsTimes(cfg: Config, run: seq<State>, n: nat)
    requires IsRun(cfg, run) && n < |run|
    ensures TimesOk(run[n].db)
  {
    hide *;
    StartIsTimed(cfg, run);
    if n > 0 {
      RunKeepsTimes(cfg, run, n - 1);
      RunKeepsCore(cfg, run, n - 1);
      RunSteps(cfg, run, n - 1);
      NextKeepsTimes(cfg, run[n - 1], run[n]);
    }
  }

  /** In every reachable state a live task is indexed and, while staged, staged under
      the millisecond of its creation, and once ended it is listed under that of its
      completion. */
  lemma ScoresAreTimes(cfg: Config, run: seq<State>, n: nat, id: TaskId)
    requires IsRun(cfg, run) && n < |run| && id in run[n].db.records
    ensures var db, r := run[n].db, run[n].db.records[id];
            && id in db.index && db.index[id] == r.createdAt / 1000
            && (r.tenant, id) in db.tenants && db.tenants[(r.tenant, id)] == r.createdAt / 1000
            && (id in db.staging ==> db.staging[id] == r.createdAt / 1000)
            && (Terminal(r.status) ==> r.completedAt.Some? && id in db.terminal && db.terminal[id] == r.completedAt.value / 1000)
            && (r.status.Failed? ==> id in db.dead && db.dead[id] == r.completedAt.value / 1000
                                     && id in db.deadPools.At(r.pool) && db.deadPools.At(r.pool)[id] == r.completedAt.value / 1000)
  {
    RunKeepsTimes(cfg, run, n);
    RunKeepsCore(cfg, run, n);
    assert TimedAt(run[n].db, id) && IdOk(run[n].db, id);
  }

  // ----- Abandoned submissions -----

  /** The staged tasks a pass looks at are those created at its cutoff or before, as far
      as its limit goes. */
  lemma DueWhenOld(cfg: Config, run: seq<State>, n: nat, cutoff: int, limit: nat, due: seq<TaskId>, id: TaskId)
    requires IsRun(cfg, run) && n < |run| && IsDue(run[n].db.staging, cutoff, limit, due)
    requires id in run[n].db.staging
    ensures id in run[n].db.records
    ensures id in due ==> 0 <= run[n].db.records[id].createdAt / 1000 <= cutoff
    ensures |due| < limit ==> (id in due <==> 0 <= run[n].db.records[id].createdAt / 1000 <= cutoff)
  {
    RunKeepsCore(cfg, run, n);
    assert IdOk(run[n].db, id);
    ScoresAreTimes(cfg, run, n, id);
  }

  /** A reconciler that looks at a task, or is about to reject it, found it old enough. */
  ghost predicate OldEnough(s: State, c: ClientId) {
    c in s.clients && s.clients[c].Reconciler? ==>
      match s.clients[c].reconcile
      case Looking(id, cutoff) => id in s.history && s.history[id].createdAt / 1000 <= cutoff
      case ToReject(id, cutoff) => id in s.history && s.history[id].createdAt / 1000 <= cutoff
      case _ => true
  }

  lemma LookIsOldEnough(cfg: Config, s: State, s': State, c: ClientId, to: Client)
    requires CoreInv(cfg, s) && TimesOk(s.db) && OldEnough(s, c) && NextStep(cfg, s, s', LookStep(c, to))
    ensures OldEnough(s', c)
  {
    hide Valid, RecordsOk, ClientsOk, StartsOk;
    if to.Reconciler? && to.reconcile.Looking? {
      var id := to.reconcile.id;
      StagedIsLive(cfg, s, id);
      assert TimedAt(s.db, id);
    }
  }

  lemma StagedIsLive(cfg: Config, s: State, id: TaskId)
    requires CoreInv(cfg, s) && id in s.db.staging
    ensures id in s.db.records && id in s.history && s.history[id] == s.db.records[id]
  {
    assert IdOk(s.db, id);
  }

  /** Other steps leave the client as it is or take it out of the two stages. */
  lemma StepIsOldEnough(cfg: Config, s: State, s': State, step: Step, c: ClientId)
    requires CoreInv(cfg, s) && OldEnough(s, c) && NextStep(cfg, s, s', step) && !(step.LookStep? && step.c == c)
    requires forall id :: id in s.history ==> id in s'.history && Later(s.history[id], s'.history[id])
    ensures OldEnough(s', c)
  {
    hide CoreInv, Atomic, TrueAnswer, Apply;
  }

  lemma NextIsOldEnough(cfg: Config, s: State, s': State, c: ClientId)
    requires CoreInv(cfg, s) && TimesOk(s.db) && OldEnough(s, c) && (Next(cfg, s, s') || s == s')
    ensures OldEnough(s', c)
  {
    if s != s' {
      var step :| NextStep(cfg, s, s', step);
      hide *;
      forall id | id in s.history ensures id in s'.history && Later(s.history[id], s'.history[id]) {
        NextIsLater(cfg, s, s', id);
      }
      if step.LookStep? && step.c == c {
        LookIsOldEnough(cfg, s, s', c, step.to);
      } else {
        StepIsOldEnough(cfg, s, s', step, c);
      }
    }
  }

  lemma StartIsOldEnough(cfg: Config, run: seq<State>, c: ClientId)
    requires IsRun(cfg, run)
    ensures |run| > 0 && OldEnough(run[0], c)
  {
  }

  lemma {:induction false} RunIsOldEnough(cfg: Config, run: seq<State>, n: nat, c: ClientId)
    requires IsRun(cfg, run) && n < |run|
    ensures OldEnough(run[n], c)
  {
    hide *;
    StartIsOldEnough(cfg, run, c);
    if n > 0 {
      RunIsOldEnough(cfg, run, n - 1, c);
      RunKeepsCore(cfg, run, n - 1);
      RunKeepsTimes(cfg, run, n - 1);
      RunSteps(cfg, run, n - 1);
      NextIsOldEnough(cfg, run[n - 1], run[n], c);
    }
  }

  /** No reconciler ever gives up a submission younger than its cutoff, however the
      submission and the pass interleave. */
  lemma YoungSubmissionsStand(cfg: Config, run: seq<State>, i: nat, c: ClientId, op: Op, t: Option<nat>, b: Block, reply: Reply)
    requires IsRun(cfg, run) && i + 1 < |run| && NextStep(cfg, run[i], run[i + 1], CommitStep(c, op, t, b, reply))
    requires op.RejectOp? && run[i].clients[c].Reconciler?
    ensures run[i].clients[c].reconcile.ToReject? && run[i].clients[c].reconcile.id == op.id && op.id in run[i].history
    ensures run[i].history[op.id].createdAt / 1000 <= run[i].clients[c].reconcile.cutoff
  {
    RunIsOldEnough(cfg, run, i, c);
  }

  // ----- Making room -----

  /** The task picked for purging is one that completed first. */
  lemma OldestIsPicked(cfg: Config, run: seq<State>, n: nat, x: TaskId, y: TaskId)
    requires IsRun(cfg, run) && n < |run| && IsHead(run[n].db.terminal, x)
    requires y in run[n].db.records && Terminal(run[n].db.records[y].status)
    ensures x in run[n].db.records && run[n].db.records[x].completedAt.Some? && run[n].db.records[y].completedAt.Some?
    ensures run[n].db.records[x].completedAt.value / 1000 <= run[n].db.records[y].completedAt.value / 1000
  {
    RunKeepsCore(cfg, run, n);
    assert IdOk(run[n].db, x);
    ScoresAreTimes(cfg, run, n, x);
    ScoresAreTimes(cfg, run, n, y);
  }

  // ----- Insertions -----

  /** What a commit adds to the outbox it adds to exactly one of the two counters. */
  lemma InsertionCounts(cfg: Config, op: Op, db: Db, t: Option<nat>, b: Block, reply: Reply)
    requires Atomic(cfg, op, db, t) == Exec(b, reply) && (op.BumpOp? ==> Loose(op.delta))
    ensures b.counters.accepted + b.counters.recovered == if b.outbox.AddMember? then 1 else 0
  {
    hide Atomic, Loose;
    if op.ActivateOp? {
      ActivationCounts(cfg, op, db, t, b, reply);
    } else if op.RecoverOp? {
      RecoveryCounts(cfg, op, db, t, b, reply);
    } else {
      OthersCountNoInsertion(cfg, op, db, t, b, reply);
    }
  }

  lemma ActivationCounts(cfg: Config, op: Op, db: Db, t: Option<nat>, b: Block, reply: Reply)
    requires op.ActivateOp? && Atomic(cfg, op, db, t) == Exec(b, reply)
    ensures b.counters.accepted + b.counters.recovered == if b.outbox.AddMember? then 1 else 0
  {
  }

  lemma RecoveryCounts(cfg: Config, op: Op, db: Db, t: Option<nat>, b: Block, reply: Reply)
    requires op.RecoverOp? && Atomic(cfg, op, db, t) == Exec(b, reply)
    ensures b.counters.accepted + b.counters.recovered == if b.outbox.AddMember? then 1 else 0
  {
  }

  lemma OthersCountNoInsertion(cfg: Config, op: Op, db: Db, t: Option<nat>, b: Block, reply: Reply)
    requires !op.ActivateOp? && !op.RecoverOp? && Atomic(cfg, op, db, t) == Exec(b, reply)
    requires op.BumpOp? ==> Loose(op.delta)
    ensures b.counters.accepted == 0 && b.counters.recovered == 0 && !b.outbox.AddMember?
  {
  }

  ghost predicate InsertionsCounted(s: State) {
    s.db.counters.accepted + s.db.counters.recovered == |s.inserted|
  }

  lemma CommitCountsInsertions(cfg: Config, s: State, s': State, c: ClientId, op: Op, t: Option<nat>, b: Block, reply: Reply)
    requires CoreInv(cfg, s) && MembersOk(s) && InsertionsCounted(s) && NextStep(cfg, s, s', CommitStep(c, op, t, b, reply))
    ensures InsertionsCounted(s')
  {
    hide CoreInv, MembersOk, Atomic;
    InsertionCounts(cfg, op, s.db, t, b, reply);
    if b.outbox.AddMember? { InsertedOnce(cfg, s, s', c, op, t, b, reply); }
    CountersAdd(s.db, b);
    hide Apply;
  }

  lemma CountersAdd(db: Db, b: Block)
    ensures Apply(db, b).counters.accepted + Apply(db, b).counters.recovered
            == db.counters.accepted + db.counters.recovered + b.counters.accepted + b.counters.recovered
  {
  }

  lemma OtherStepsInsertNothing(cfg: Config, s: State, s': State, step: Step)
    requires InsertionsCounted(s) && NextStep(cfg, s, s', step) && !step.CommitStep?
    ensures InsertionsCounted(s')
  {
    hide Atomic, TrueAnswer;
  }

  lemma NextCountsInsertions(cfg: Config, s: State, s': State)
    requires CoreInv(cfg, s) && WakesOk(s) && InsertionsCounted(s) && (Next(cfg, s, s') || s == s')
    ensures InsertionsCounted(s')
  {
    if s != s' {
      var step :| NextStep(cfg, s, s', step);
      var ok := MembersOk(s);
      hide *;
      if step.CommitStep? {
        CommitCountsInsertions(cfg, s, s', step.c, step.op, step.ticket, step.block, step.reply);
      } else {
        OtherStepsInsertNothing(cfg, s, s', step);
      }
    }
  }

  lemma StartInsertsNothing(cfg: Config, run: seq<State>)
    requires IsRun(cfg, run)
    ensures |run| > 0 && InsertionsCounted(run[0])
  {
  }

  /** Every task accepted into a queue and every recovery put exactly one member in the
      outbox, and nothing else did. */
  lemma {:induction false} RunCountsInsertions(cfg: Config, run: seq<State>, n: nat)
    requires IsRun(cfg, run) && n < |run|
    ensures InsertionsCounted(run[n])
  {
    hide *;
    StartInsertsNothing(cfg, run);
    if n > 0 {
      RunCountsInsertions(cfg, run, n - 1);
      RunKeepsCore(cfg, run, n - 1);
      RunKeepsWakes(cfg, run, n - 1);
      RunSteps(cfg, run, n - 1);
      NextCountsInsertions(cfg, run[n - 1], run[n]);
    }
  }
}
