/** The condition of NoLostWakeUp is needed: whatever the pool and the settings, as
    long as they leave room for one task, a run in which one claim raises leaves a
    queued task with no outbox member and no broker message.  The broker does not
    retry a message whose claim raised (max_retries = 0) and no reconciler
    re-notifies a task that is already queued. */
module StrandedTask {
  import opened TaskContracts
  import opened StoreState
  import opened StoreTransactions
  import opened TaskProtocol
  import opened ProtocolWakes
  import opened TaskGuarantees

  const WHO := Identity("t", "a", "r")
  const TASK: TaskId := 7

  function KindOf(p: Pool): TaskKind {
    match p case SecurityPool => SecurityCheck case AgentPool => AgentTask case EvaluationPool => Evaluation
  }

  function Sub(p: Pool): Submission {
    Submission(KindOf(p), Medium, "p", None, 1)
  }

  function Mem(p: Pool): Member {
    Member(p, TASK, 0)
  }

  function Submitting(p: Pool, stage: SubmitStage): Client {
    Submitter(stage, Sub(p), WHO, "x", TASK)
  }

  /** The broker and the outbox so far. */
  ghost predicate Quiet(s: State, p: Pool) {
    s.db.outbox == map[] && s.wakes == map[] && s.issued == 0 && s.wasted.At(p) == 0
  }

  ghost predicate Staged(s: State, p: Pool, audits: nat, stage: SubmitStage) {
    && Quiet(s, p) && 0 in s.clients && s.clients[0] == Submitting(p, stage) && 1 !in s.clients && 2 !in s.clients
    && TASK in s.db.records && s.db.records[TASK].auditEvents == audits && s.db.records[TASK].status.Queued?
    && s.db.records[TASK].pool == p && s.db.records[TASK].recoveredCount == 0
    && s.db.queues.At(p) == map[] && s.db.leases.At(p) == map[]
  }

  ghost predicate OneQueued(s: State, p: Pool) {
    |s.db.queues.At(p)| == 1 && s.wasted.At(p) == 0
  }

  lemma Spawn(cfg: Config, p: Pool) returns (s0: State, s1: State)
    ensures Init(s0) && Next(cfg, s0, s1) && s1.db == EMPTY && Quiet(s1, p) && s1.clients == map[0 := Submitting(p, Creating)]
    ensures s1.history == map[]
  {
    s0 := State(EMPTY, map[], map[], 0, map[], [], {}, {}, {}, PerPool(0, 0, 0), []);
    s1 := s0.(clients := s0.clients[0 := Submitting(p, Creating)]);
    assert NextStep(cfg, s0, s1, SpawnStep(0, Submitting(p, Creating)));
  }

  lemma RoomToCreate(cfg: Config, p: Pool, op: Op)
    requires cfg.maxRecords >= 1 && op == CreateOp(Sub(p), WHO, "x", TASK, 0)
    ensures var r := NewRecord(Sub(p), WHO, "x", TASK, 0); Atomic(cfg, op, EMPTY, None) == Exec(CreateBlock(r), Updated(r))
  {
  }

  lemma Submit(cfg: Config, p: Pool, s1: State) returns (s2: State)
    requires cfg.maxRecords >= 1
    requires s1.db == EMPTY && Quiet(s1, p) && s1.clients == map[0 := Submitting(p, Creating)] && s1.history == map[]
    ensures Next(cfg, s1, s2) && Staged(s2, p, 0, QueueAudit)
  {
    hide Atomic;
    var op := CreateOp(Sub(p), WHO, "x", TASK, 0);
    var r := NewRecord(Sub(p), WHO, "x", TASK, 0);
    s2 := Committed(s1, 0, op, None, CreateBlock(r), Updated(r));
    RoomToCreate(cfg, p, op);
    assert NextStep(cfg, s1, s2, CommitStep(0, op, None, CreateBlock(r), Updated(r)));
  }

  lemma Audit(cfg: Config, p: Pool, s2: State) returns (s3: State)
    requires Staged(s2, p, 0, QueueAudit)
    ensures Next(cfg, s2, s3) && Staged(s3, p, 1, Activating)
  {
    var op := CountAuditOp(TASK, 0);
    var r := s2.db.records[TASK];
    var u := r.(auditEvents := 1, updatedAt := 0);
    var b := NoWrites(TASK, p).(record := SetRecord(u));
    s3 := Committed(s2, 0, op, None, b, Updated(u));
    assert NextStep(cfg, s2, s3, CommitStep(0, op, None, b, Updated(u)));
  }

  lemma Draw(cfg: Config, p: Pool, s3: State) returns (s4: State)
    requires Staged(s3, p, 1, Activating)
    ensures Next(cfg, s3, s4) && Staged(s4, p, 1, Activating) && s4.db.sequence in s4.tickets
  {
    s4 := s3.(db := s3.db.(sequence := s3.db.sequence + 1), tickets := s3.tickets + {s3.db.sequence + 1});
    assert NextStep(cfg, s3, s4, DrawStep);
  }

  lemma Activate(cfg: Config, p: Pool, s4: State) returns (s5: State)
    requires cfg.Room(p) >= 1 && Staged(s4, p, 1, Activating) && s4.db.sequence in s4.tickets
    ensures Next(cfg, s4, s5) && OneQueued(s5, p) && s5.wakes == map[] && s5.issued == 0
    ensures Mem(p) in s5.db.outbox && s5.db.outbox - {Mem(p)} == map[] && 1 !in s5.clients && 2 !in s5.clients
  {
    hide Atomic, ActivateBlock, Committed, OneQueued;
    var op := ActivateOp(TASK, p, 0);
    var r := s4.db.records[TASK];
    var b := ActivateBlock(TASK, r, s4.db.sequence, 0);
    s5 := Committed(s4, 0, op, Some(s4.db.sequence), b, Unchanged(r));
    RoomToActivate(cfg, p, s4, op, s4.db.sequence);
    assert NextStep(cfg, s4, s5, CommitStep(0, op, Some(s4.db.sequence), b, Unchanged(r)));
    ActivationQueues(p, s4);
  }

  lemma ActivationQueues(p: Pool, s4: State)
    requires Staged(s4, p, 1, Activating)
    ensures var r, n := s4.db.records[TASK], s4.db.sequence;
            var s5 := Committed(s4, 0, ActivateOp(TASK, p, 0), Some(n), ActivateBlock(TASK, r, n, 0), Unchanged(r));
            && OneQueued(s5, p) && s5.wakes == map[] && s5.issued == 0
            && Mem(p) in s5.db.outbox && s5.db.outbox - {Mem(p)} == map[] && 1 !in s5.clients && 2 !in s5.clients
  {
    hide Score;
    var r, n := s4.db.records[TASK], s4.db.sequence;
    var db := Apply(s4.db, ActivateBlock(TASK, r, n, 0));
    assert db.queues.At(p) == map[][TASK := Score(r.priority, n)];
    assert db.outbox == map[][Mem(p) := 0];
  }

  lemma RoomToActivate(cfg: Config, p: Pool, s: State, op: Op, ticket: nat)
    requires cfg.Room(p) >= 1 && Staged(s, p, 1, Activating) && op == ActivateOp(TASK, p, 0)
    ensures Atomic(cfg, op, s.db, Some(ticket))
            == Exec(ActivateBlock(TASK, s.db.records[TASK], ticket, 0), Unchanged(s.db.records[TASK]))
  {
  }

  lemma Look(cfg: Config, p: Pool, s5: State) returns (s6: State, s7: State)
    requires Mem(p) in s5.db.outbox && 1 !in s5.clients && 2 !in s5.clients
    ensures Next(cfg, s5, s6) && Next(cfg, s6, s7)
    ensures s7 == s5.(clients := s5.clients[1 := Reconciler(Notifying(Mem(p)))])
  {
    hide Atomic, TrueAnswer, Apply, Committed, Answered, Moves;
    s6 := s5.(clients := s5.clients[1 := Reconciler(Idle)]);
    assert NextStep(cfg, s5, s6, SpawnStep(1, Reconciler(Idle)));
    s7 := s6.(clients := s6.clients[1 := Reconciler(Notifying(Mem(p)))]);
    assert NextStep(cfg, s6, s7, LookStep(1, Reconciler(Notifying(Mem(p)))));
  }

  lemma Notify(cfg: Config, p: Pool, s7: State) returns (s8: State)
    requires s7.wakes == map[] && s7.issued == 0
    requires 1 in s7.clients && s7.clients[1] == Reconciler(Notifying(Mem(p))) && 2 !in s7.clients
    ensures Next(cfg, s7, s8) && s8.db == s7.db && s8.wasted == s7.wasted && 2 !in s8.clients
    ensures 1 in s8.clients && s8.clients[1] == Reconciler(Acknowledging(Mem(p)))
    ensures s8.wakes == map[0 := p] && s8.issued == 1
  {
    s8 := s7.(clients := s7.clients[1 := Reconciler(Acknowledging(Mem(p)))], wakes := s7.wakes[s7.issued := p],
              issued := s7.issued + 1, notified := s7.notified + {Mem(p)});
    assert NextStep(cfg, s7, s8, NotifyStep(1));
  }

  lemma Acknowledge(cfg: Config, p: Pool, s8: State) returns (s9: State)
    requires OneQueued(s8, p) && s8.db.outbox - {Mem(p)} == map[] && 2 !in s8.clients
    requires 1 in s8.clients && s8.clients[1] == Reconciler(Acknowledging(Mem(p)))
    ensures Next(cfg, s8, s9) && OneQueued(s9, p) && s9.db.outbox == map[] && 2 !in s9.clients
    ensures s9.wakes == s8.wakes && s9.issued == s8.issued
  {
    var b := NoWrites(TASK, p).(outbox := RemoveMember(Mem(p)));
    s9 := Committed(s8, 1, AcknowledgeOp(Mem(p)), None, b, Flag(true));
    assert NextStep(cfg, s8, s9, CommitStep(1, AcknowledgeOp(Mem(p)), None, b, Flag(true)));
  }

  lemma RaiseInClaim(cfg: Config, p: Pool, s9: State) returns (s10: State, s11: State)
    requires OneQueued(s9, p) && s9.db.outbox == map[] && 2 !in s9.clients
    requires s9.wakes == map[0 := p] && s9.issued == 1
    ensures Next(cfg, s9, s10) && Next(cfg, s10, s11) && Stranded(s11, p)
  {
    hide Atomic, TrueAnswer;
    var worker := Worker(Claiming, p, 0, 0, 0, 0, 0);
    s10 := s9.(clients := s9.clients[2 := worker]);
    assert NextStep(cfg, s9, s10, SpawnStep(2, worker));
    var op := ClaimOp(p, 2, 0);
    s11 := Answered(s10, 2, op, Refused);
    assert NextStep(cfg, s10, s11, GiveStep(2, op, Refused));
  }

  /** A queued task that nothing will wake a worker for. */
  ghost predicate Stranded(s: State, p: Pool) {
    |s.db.queues.At(p)| == 1 && s.db.outbox == map[] && s.wakes == map[] && s.wasted.At(p) == 1
  }

  ghost predicate Reaches(cfg: Config, run: seq<State>, s: State) {
    IsRun(cfg, run) && run[|run| - 1] == s
  }

  lemma Extend(cfg: Config, run: seq<State>, s: State, s': State) returns (longer: seq<State>)
    requires Reaches(cfg, run, s) && Next(cfg, s, s')
    ensures Reaches(cfg, longer, s')
  {
    hide NextStep, Init;
    longer := run + [s'];
    forall i: nat | i + 1 < |longer| ensures StepAt(cfg, longer, i) {
      if i + 1 < |run| { assert StepAt(cfg, run, i); }
    }
  }

  /** Submission, queue audit and activation. */
  lemma ReachQueued(cfg: Config, p: Pool) returns (run: seq<State>, s5: State)
    requires cfg.Room(p) >= 1 && cfg.maxRecords >= 1
    ensures Reaches(cfg, run, s5) && OneQueued(s5, p) && s5.wakes == map[] && s5.issued == 0
    ensures Mem(p) in s5.db.outbox && s5.db.outbox - {Mem(p)} == map[] && 1 !in s5.clients && 2 !in s5.clients
  {
    hide Next, NextStep, Staged, OneQueued;
    var s0, s1 := Spawn(cfg, p);
    var s2 := Submit(cfg, p, s1);
    var s3 := Audit(cfg, p, s2);
    var s4 := Draw(cfg, p, s3);
    s5 := Activate(cfg, p, s4);
    run := [s0];
    run := Extend(cfg, run, s0, s1);
    run := Extend(cfg, run, s1, s2);
    run := Extend(cfg, run, s2, s3);
    run := Extend(cfg, run, s3, s4);
    run := Extend(cfg, run, s4, s5);
  }

  lemma ARaisedClaimStrandsATask(cfg: Config, p: Pool) returns (run: seq<State>)
    requires cfg.Room(p) >= 1 && cfg.maxRecords >= 1
    ensures IsRun(cfg, run) && Stranded(run[|run| - 1], p)
  {
    var s5;
    run, s5 := ReachQueued(cfg, p);
    var s6, s7 := Look(cfg, p, s5);
    run := Extend(cfg, run, s5, s6);
    run := Extend(cfg, run, s6, s7);
    var s8 := Notify(cfg, p, s7);
    var s9 := Acknowledge(cfg, p, s8);
    var s10, s11 := RaiseInClaim(cfg, p, s9);
    run := Extend(cfg, run, s7, s8);
    run := Extend(cfg, run, s8, s9);
    run := Extend(cfg, run, s9, s10);
    run := Extend(cfg, run, s10, s11);
  }

  /** Outbox members and messages cover the queue whenever at most k claims of the
      pool raised before. */
  ghost predicate CoveredUpTo(cfg: Config, p: Pool, k: nat) {
    forall run, n: nat {:trigger CoveredAt(cfg, run, n, p, k)} :: CoveredAt(cfg, run, n, p, k)
  }

  ghost predicate CoveredAt(cfg: Config, run: seq<State>, n: nat, p: Pool, k: nat) {
    IsRun(cfg, run) && n < |run| && run[n].wasted.At(p) <= k ==>
      |OutboxOf(run[n].db, p)| + |Pending(run[n], p)| >= |run[n].db.queues.At(p)|
  }

  /** In every pool with room for a task, the queue stays covered in all runs with at
      most k raised claims if and only if k is 0: the first one may already strand
      a task. */
  lemma WakesSurviveNoRaise(cfg: Config, p: Pool, k: nat)
    requires cfg.Room(p) >= 1 && cfg.maxRecords >= 1
    ensures CoveredUpTo(cfg, p, k) <==> k == 0
  {
    if k == 0 {
      forall run: seq<State>, n: nat ensures CoveredAt(cfg, run, n, p, 0) {
        if IsRun(cfg, run) && n < |run| && run[n].wasted.At(p) <= 0 { NoLostWakeUp(cfg, run, n, p); }
      }
    } else {
      var run := ARaisedClaimStrandsATask(cfg, p);
      NothingCovers(cfg, run, p);
      assert !CoveredAt(cfg, run, |run| - 1, p, k);
    }
  }

  lemma NothingCovers(cfg: Config, run: seq<State>, p: Pool)
    requires IsRun(cfg, run) && Stranded(run[|run| - 1], p)
    ensures var s := run[|run| - 1]; |OutboxOf(s.db, p)| + |Pending(s, p)| < |s.db.queues.At(p)|
  {
    var s := run[|run| - 1];
    assert OutboxOf(s.db, p) == {} && Pending(s, p) == {};
  }
}
