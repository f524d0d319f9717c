/** No lost wake-up.  Broker messages are sent before their outbox member is
    acknowledged, every enqueue inserts a member that was never there before,
    and a message is consumed by the claim it caused. */
module ProtocolWakes {
  import opened TaskContracts
  import opened StoreState
  import opened StoreTransactions
  import opened StoreInvariant
  import opened StorePreservation
  import opened TaskProtocol
  import opened ProtocolRecords
  import opened ProtocolInvariant

  /** Members still waiting for their first notification. */
  ghost function Unnotified(s: State, p: Pool): set<Member> {
    set m | m in s.db.outbox && m.pool == p && m !in s.notified
  }

  /** Messages sent to the pool's broker queue and not consumed. */
  ghost function Pending(s: State, p: Pool): set<nat> {
    set k | k in s.wakes && s.wakes[k] == p
  }

  /** Members ever inserted belong to generations the task has reached, and the
      task has left staging for good. */
  ghost predicate MembersOk(s: State) {
    && (forall m :: m in s.inserted ==> MemberOk(s.history, s.db.staging, m))
    && (forall m :: m in s.db.outbox ==> m in s.inserted)
    && (forall m :: m in s.notified ==> m in s.inserted)
    && NotifyingOk(s)
    && TokensOk(s)
  }

  /** Message numbers are below the number issued; every worker was started by a
      message of its own pool. */
  ghost predicate TokensOk(s: State) {
    && (forall k :: k in s.wakes ==> k < s.issued)
    && (forall c :: c in s.clients && s.clients[c].Worker? ==> TokenOk(s, s.clients[c].token, s.clients[c].pool))
  }

  /** A reconciler only notifies for members that were inserted. */
  ghost predicate NotifyingOk(s: State) {
    forall c :: c in s.clients && s.clients[c].Reconciler? && s.clients[c].reconcile.Notifying?
      ==> s.clients[c].reconcile.member in s.inserted
  }

  ghost predicate WakesCover(s: State, p: Pool) {
    |Unnotified(s, p)| + |Pending(s, p)| + s.wasted.At(p) >= |s.db.queues.At(p)|
  }

  ghost predicate WakesOk(s: State) {
    MembersOk(s) && forall p: Pool :: WakesCover(s, p)
  }

  /** Each (task, generation) member enters the outbox at most once. */
  lemma InsertedOnce(cfg: Config, s: State, s': State, c: ClientId, op: Op, t: Option<nat>, b: Block, reply: Reply)
    requires CoreInv(cfg, s) && MembersOk(s) && NextStep(cfg, s, s', CommitStep(c, op, t, b, reply))
    requires b.outbox.AddMember?
    ensures b.outbox.added !in s.inserted
  {
    CallsAreAdmissible(s, c, op);
    CommitQueueEffect(cfg, op, s.db, t, b, reply);
    assert Enqueues(op, s.db, t, b);
    assert s.history[b.id] == s.db.records[b.id];
  }

  ghost predicate MemberOk(history: map<TaskId, Record>, staging: ZSet, m: Member) {
    m.id in history && m.id !in staging && m.generation <= history[m.id].recoveredCount
  }

  lemma MemberKept(s: State, s': State, b: Block, creates: bool, m: Member)
    requires MemberOk(s.history, s.db.staging, m) && HistoryStep(s, s', b, creates)
    requires s'.db.staging == WriteZ(s.db.staging, b.id, b.staging)
    requires b.staging.Add? ==> b.id !in s.history
    ensures MemberOk(s'.history, s'.db.staging, m)
  {
    assert Later(s.history[m.id], s'.history[m.id]);
  }

  lemma NewMemberOk(s: State, s': State, op: Op, t: Option<nat>, b: Block)
    requires HistoryOk(s) && Enqueues(op, s.db, t, b)
    requires s'.db.staging == WriteZ(s.db.staging, b.id, b.staging) && s'.history == Record1(s.history, b)
    ensures MemberOk(s'.history, s'.db.staging, b.outbox.added)
  {
  }

  lemma CommitMembersOk(cfg: Config, s: State, s': State, c: ClientId, op: Op, t: Option<nat>, b: Block, reply: Reply)
    requires CoreInv(cfg, s) && MembersOk(s) && NextStep(cfg, s, s', CommitStep(c, op, t, b, reply))
    ensures MembersOk(s')
  {
    CallsAreAdmissible(s, c, op);
    CommitQueueEffect(cfg, op, s.db, t, b, reply);
    CommitHistory(cfg, s, s', c, op, t, b, reply);
    MembersFollow(s, s', c, op, t, b, reply);
  }

  lemma NotifyingKept(s: State, s': State, c: ClientId, op: Op, reply: Reply, d: ClientId)
    requires c in s.clients && s'.clients == s.clients[c := AfterExec(s.clients[c], op, reply)]
    requires d in s'.clients && s'.clients[d].Reconciler? && s'.clients[d].reconcile.Notifying?
    ensures d in s.clients && s.clients[d] == s'.clients[d]
  {
  }

  lemma MembersFollow(s: State, s': State, c: ClientId, op: Op, t: Option<nat>, b: Block, reply: Reply)
    requires HistoryOk(s) && MembersOk(s) && QueueEffect(op, s.db, t, b)
    requires HistoryStep(s, s', b, op.CreateOp?) && (op.CreateOp? ==> op.id !in s.history)
    requires c in s.clients && s' == Committed(s, c, op, t, b, reply)
    ensures MembersOk(s')
  {
    AllMembersOk(s, s', c, op, t, b, reply);
    TokensKept(s, s', c, op, reply);
    AllNotifyingKept(s, s', c, op, reply);
  }

  lemma TokensKept(s: State, s': State, c: ClientId, op: Op, reply: Reply)
    requires TokensOk(s) && c in s.clients && s'.issued == s.issued
    requires s'.clients == s.clients[c := AfterExec(s.clients[c], op, reply)]
    requires s'.wakes == s.wakes || s'.wakes == Consume(s, c, op)
    ensures TokensOk(s')
  {
    SameToken(s.clients[c], op, reply);
  }

  lemma SameToken(cl: Client, op: Op, reply: Reply)
    ensures cl.Worker? <==> AfterExec(cl, op, reply).Worker?
    ensures cl.Worker? ==> AfterExec(cl, op, reply).token == cl.token && AfterExec(cl, op, reply).pool == cl.pool
  {
  }

  lemma AllMembersOk(s: State, s': State, c: ClientId, op: Op, t: Option<nat>, b: Block, reply: Reply)
    requires HistoryOk(s) && MembersOk(s) && QueueEffect(op, s.db, t, b)
    requires HistoryStep(s, s', b, op.CreateOp?) && (op.CreateOp? ==> op.id !in s.history)
    requires c in s.clients && s' == Committed(s, c, op, t, b, reply)
    ensures forall m :: m in s'.inserted ==> MemberOk(s'.history, s'.db.staging, m)
  {
    forall m | m in s'.inserted ensures MemberOk(s'.history, s'.db.staging, m) {
      if m in s.inserted {
        MemberKept(s, s', b, op.CreateOp?, m);
      } else {
        NewMemberOk(s, s', op, t, b);
      }
    }
  }

  lemma AllNotifyingKept(s: State, s': State, c: ClientId, op: Op, reply: Reply)
    requires NotifyingOk(s) && c in s.clients && s.inserted <= s'.inserted
    requires s'.clients == s.clients[c := AfterExec(s.clients[c], op, reply)]
    ensures NotifyingOk(s')
  {
    forall d | d in s'.clients && s'.clients[d].Reconciler? && s'.clients[d].reconcile.Notifying?
      ensures s'.clients[d].reconcile.member in s'.inserted
    {
      NotifyingKept(s, s', c, op, reply, d);
    }
  }

  // ----- Counting -----

  lemma SetDrop<T>(a: set<T>, b: set<T>, x: T)
    requires a <= b + {x}
    ensures |a| <= |b| + 1
    ensures x in b || x !in a ==> |a| <= |b|
  {
    if x in b || x !in a {
      assert a <= b;
      SubsetSize(a, b);
    } else {
      SubsetSize(a, b + {x});
      assert |b + {x}| == |b| + 1;
    }
  }

  lemma {:induction false} SubsetSize<T>(a: set<T>, b: set<T>)
    requires a <= b
    ensures |a| <= |b|
    decreases |a|
  {
    if a != {} {
      var x :| x in a;
      SubsetSize(a - {x}, b - {x});
    }
  }

  ghost function UnnotifiedIn(outbox: map<Member, int>, notified: set<Member>, p: Pool): set<Member> {
    set m | m in outbox && m.pool == p && m !in notified
  }

  /** Inserting a new member adds it to the waiting ones; acknowledging a notified one does not. */
  lemma UnnotifiedAfter(outbox: map<Member, int>, notified: set<Member>, w: OutboxWrite, p: Pool)
    requires w.AddMember? ==> w.added !in outbox && w.added !in notified
    requires w.RemoveMember? ==> w.removed in notified
    ensures |UnnotifiedIn(WriteOutbox(outbox, w), notified, p)|
            == |UnnotifiedIn(outbox, notified, p)| + if w.AddMember? && w.added.pool == p then 1 else 0
  {
    var before, after := UnnotifiedIn(outbox, notified, p), UnnotifiedIn(WriteOutbox(outbox, w), notified, p);
    if w.AddMember? && w.added.pool == p {
      assert after == before + {w.added};
    } else {
      assert after == before;
    }
  }

  lemma PendingAfter(s: State, s': State, c: ClientId, op: Op, p: Pool)
    requires MembersOk(s) && c in s.clients && s'.wakes == Consume(s, c, op)
    requires op.ClaimOp? && s.clients[c].Worker? ==> s.clients[c].pool == op.pool
    ensures |Pending(s, p)| <= |Pending(s', p)| + if op.ClaimOp? && p == op.pool then 1 else 0
  {
    if op.ClaimOp? && s.clients[c].Worker? {
      assert TokenOk(s, s.clients[c].token, op.pool);
      SetDrop(Pending(s, p), Pending(s', p), s.clients[c].token);
    } else {
      assert Pending(s', p) == Pending(s, p);
    }
  }

  lemma QueueAfter(s: State, s': State, b: Block, p: Pool)
    requires s'.db.queues == WritePool(s.db.queues, b.pool, b.id, b.queue)
    ensures |s'.db.queues.At(p)| <= |s.db.queues.At(p)| + if b.queue.Add? && b.pool == p then 1 else 0
    ensures b.queue.Remove? && b.pool == p && b.id in s.db.queues.At(p) ==> |s'.db.queues.At(p)| == |s.db.queues.At(p)| - 1
  {
    WritePoolAt(s.db.queues, b.pool, b.id, b.queue, p);
    WriteSize(s.db.queues.At(b.pool), b.id, b.queue);
  }

  lemma CommitNeverAgain(cfg: Config, op: Op, db: Db, t: Option<nat>, b: Block, reply: Reply)
    requires Valid(cfg, db) && Admissible(op, db) && Atomic(cfg, op, db, t) == Exec(b, reply)
    ensures !reply.Again?
  {
    CommitRecordEffect(cfg, op, db, t, b, reply);
  }

  lemma CommitKeepsWakes(cfg: Config, s: State, s': State, c: ClientId, op: Op, t: Option<nat>, b: Block, reply: Reply)
    requires CoreInv(cfg, s) && WakesOk(s) && NextStep(cfg, s, s', CommitStep(c, op, t, b, reply))
    ensures WakesOk(s')
  {
    CommitMembersOk(cfg, s, s', c, op, t, b, reply);
    if b.outbox.AddMember? { InsertedOnce(cfg, s, s', c, op, t, b, reply); }
    CallsAreAdmissible(s, c, op);
    CommitQueueEffect(cfg, op, s.db, t, b, reply);
    CommitNeverAgain(cfg, op, s.db, t, b, reply);
    assert forall p: Pool :: WakesCover(s, p);
    CommitCovers(s, s', c, op, t, b, reply);
  }

  lemma CommitCovers(s: State, s': State, c: ClientId, op: Op, t: Option<nat>, b: Block, reply: Reply)
    requires MembersOk(s) && ClientsOk(s) && Calls(s, c, op) && QueueEffect(op, s.db, t, b) && !reply.Again?
    requires s' == Committed(s, c, op, t, b, reply)
    requires b.outbox.AddMember? ==> b.outbox.added !in s.inserted
    requires forall p: Pool :: WakesCover(s, p)
    ensures forall p: Pool :: WakesCover(s', p)
  {
    forall p: Pool ensures WakesCover(s', p) {
      hide *;
      assert WakesCover(s, p);
      CommitCoversPool(s, s', c, op, t, b, reply, p);
    }
  }

  lemma CallerKnows(s: State, c: ClientId, op: Op)
    requires ClientsOk(s) && InCall(s, c, op)
    ensures op.AcknowledgeOp? ==> op.member in s.notified
    ensures op.ClaimOp? ==> s.clients[c].Worker? && s.clients[c].pool == op.pool
  {
    assert ClientOk(s, c, s.clients[c]);
  }

  lemma CommitCoversPool(s: State, s': State, c: ClientId, op: Op, t: Option<nat>, b: Block, reply: Reply, p: Pool)
    requires MembersOk(s) && ClientsOk(s) && Calls(s, c, op) && QueueEffect(op, s.db, t, b) && !reply.Again?
    requires s' == Committed(s, c, op, t, b, reply)
    requires b.outbox.AddMember? ==> b.outbox.added !in s.inserted
    requires WakesCover(s, p)
    ensures WakesCover(s', p)
  {
    hide ClientOk, CallOf, AfterExec;
    CallerKnows(s, c, op);
    UnnotifiedAfter(s.db.outbox, s.notified, b.outbox, p);
    assert Unnotified(s, p) == UnnotifiedIn(s.db.outbox, s.notified, p);
    assert Unnotified(s', p) == UnnotifiedIn(s'.db.outbox, s'.notified, p);
    PendingAfter(s, s', c, op, p);
    QueueAfter(s, s', b, p);
  }

  // ----- The other steps -----

  /** Nothing the counting argument looks at got worse. */
  ghost predicate WakesFrame(s: State, s': State) {
    && s'.db.queues == s.db.queues && s'.db.outbox == s.db.outbox && s'.db.staging == s.db.staging
    && s'.history == s.history && s'.inserted == s.inserted && s.issued <= s'.issued
  }

  lemma QuietCovers(s: State, s': State, p: Pool)
    requires WakesCover(s, p) && WakesFrame(s, s') && s'.notified == s.notified && s'.wakes == s.wakes
    requires s.wasted.At(p) <= s'.wasted.At(p)
    ensures WakesCover(s', p)
  {
    assert Unnotified(s', p) == Unnotified(s, p) && Pending(s', p) == Pending(s, p);
  }

  lemma GiveCovers(cfg: Config, s: State, s': State, c: ClientId, op: Op, answer: Reply, p: Pool)
    requires MembersOk(s) && WakesCover(s, p) && NextStep(cfg, s, s', GiveStep(c, op, answer))
    ensures WakesCover(s', p)
  {
    assert Unnotified(s', p) == Unnotified(s, p);
    PendingAfter(s, s', c, op, p);
    if op.ClaimOp? && p == op.pool && answer.NoTask? {
      AnswersTell(cfg, op, s.db, answer);
      assert |s'.db.queues.At(p)| == 0;
    }
  }

  lemma NotifyCovers(s: State, s': State, m: Member, p: Pool)
    requires WakesCover(s, p) && s.issued !in s.wakes
    requires s'.db == s.db && s'.wakes == s.wakes[s.issued := m.pool] && s'.notified == s.notified + {m}
    requires s'.wasted == s.wasted
    ensures WakesCover(s', p)
  {
    if p == m.pool {
      assert Pending(s', p) == Pending(s, p) + {s.issued};
      SetDrop(Unnotified(s, p), Unnotified(s', p), m);
    } else {
      assert Pending(s', p) == Pending(s, p);
      assert Unnotified(s', p) == Unnotified(s, p);
    }
  }

  /** A changed client that is a reconciler about to notify has read its member from the outbox. */
  lemma ClientMembersOk(s: State, s': State, c: ClientId, cl: Client)
    requires MembersOk(s) && s'.clients == s.clients[c := cl] && WakesFrame(s, s') && s'.notified == s.notified
    requires forall k :: k in s'.wakes ==> k in s.wakes && s'.wakes[k] == s.wakes[k]
    requires cl.Reconciler? && cl.reconcile.Notifying? ==> cl.reconcile.member in s.inserted
    requires cl.Worker? ==> TokenOk(s', cl.token, cl.pool)
    ensures MembersOk(s')
  {
    forall d | d in s'.clients && s'.clients[d].Worker? ensures TokenOk(s', s'.clients[d].token, s'.clients[d].pool) {
      if d != c { assert TokenOk(s, s.clients[d].token, s.clients[d].pool); }
    }
  }

  lemma NotifyKeepsWakes(cfg: Config, s: State, s': State, c: ClientId)
    requires WakesOk(s) && NextStep(cfg, s, s', NotifyStep(c))
    ensures WakesOk(s')
  {
    var m := s.clients[c].reconcile.member;
    forall p: Pool ensures WakesCover(s', p) { assert WakesCover(s, p); NotifyCovers(s, s', m, p); }
    forall d | d in s'.clients && s'.clients[d].Worker? ensures TokenOk(s', s'.clients[d].token, s'.clients[d].pool) {
      assert TokenOk(s, s.clients[d].token, s.clients[d].pool);
    }
  }

  lemma GiveKeepsWakes(cfg: Config, s: State, s': State, c: ClientId, op: Op, answer: Reply)
    requires WakesOk(s) && NextStep(cfg, s, s', GiveStep(c, op, answer))
    ensures WakesOk(s')
  {
    forall p: Pool ensures WakesCover(s', p) { assert WakesCover(s, p); GiveCovers(cfg, s, s', c, op, answer, p); }
    GiveKeepsRole(s.clients[c], op, answer);
    if s.clients[c].Worker? { assert TokenOk(s, s.clients[c].token, s.clients[c].pool); }
    ClientMembersOk(s, s', c, s'.clients[c]);
  }

  lemma GiveKeepsRole(cl: Client, op: Op, answer: Reply)
    ensures var cl' := AfterGive(cl, op, answer);
            && (cl'.Reconciler? && cl'.reconcile.Notifying? ==> cl' == cl)
            && (cl'.Worker? ==> cl.Worker? && cl'.token == cl.token && cl'.pool == cl.pool)
  {
  }

  lemma MoveKeepsRole(cl: Client, cl': Client)
    requires Moves(cl, cl')
    ensures !(cl'.Reconciler? && cl'.reconcile.Notifying?)
    ensures cl'.Worker? ==> cl.Worker? && cl'.token == cl.token && cl'.pool == cl.pool
  {
  }

  lemma QuietKeepsWakes(s: State, s': State, c: ClientId, to: Client)
    requires WakesOk(s) && WakesFrame(s, s') && s'.notified == s.notified && s'.wakes == s.wakes
    requires s'.wasted == s.wasted && s'.clients == s.clients[c := to]
    requires to.Reconciler? && to.reconcile.Notifying? ==> to.reconcile.member in s.inserted
    requires to.Worker? ==> (c in s.clients && s.clients[c].Worker? && to.token == s.clients[c].token
                             && to.pool == s.clients[c].pool) || TokenOk(s, to.token, to.pool)
    ensures WakesOk(s')
  {
    forall p: Pool ensures WakesCover(s', p) { assert WakesCover(s, p); QuietCovers(s, s', p); }
    if c in s.clients && s.clients[c].Worker? { assert TokenOk(s, s.clients[c].token, s.clients[c].pool); }
    ClientMembersOk(s, s', c, to);
  }

  lemma DrawKeepsWakes(cfg: Config, s: State, s': State)
    requires WakesOk(s) && NextStep(cfg, s, s', DrawStep)
    ensures WakesOk(s')
  {
    forall p: Pool ensures WakesCover(s', p) { assert WakesCover(s, p); QuietCovers(s, s', p); }
    forall d | d in s'.clients && s'.clients[d].Worker? ensures TokenOk(s', s'.clients[d].token, s'.clients[d].pool) {
      assert TokenOk(s, s.clients[d].token, s.clients[d].pool);
    }
  }

  lemma MoveKeepsWakes(cfg: Config, s: State, s': State, c: ClientId, to: Client)
    requires WakesOk(s) && NextStep(cfg, s, s', MoveStep(c, to))
    ensures WakesOk(s')
  {
    MoveKeepsRole(s.clients[c], to);
    QuietKeepsWakes(s, s', c, to);
  }

  lemma LookKeepsWakes(cfg: Config, s: State, s': State, c: ClientId, to: Client)
    requires WakesOk(s) && NextStep(cfg, s, s', LookStep(c, to))
    ensures WakesOk(s')
  {
    QuietKeepsWakes(s, s', c, to);
  }

  lemma StartKeepsWakes(cfg: Config, s: State, s': State, c: ClientId)
    requires WakesOk(s) && NextStep(cfg, s, s', StartStep(c))
    ensures WakesOk(s')
  {
    QuietKeepsWakes(s, s', c, s'.clients[c]);
  }

  lemma SpawnKeepsWakes(cfg: Config, s: State, s': State, c: ClientId, to: Client)
    requires WakesOk(s) && NextStep(cfg, s, s', SpawnStep(c, to))
    ensures WakesOk(s')
  {
    QuietKeepsWakes(s, s', c, to);
  }

  lemma NextKeepsWakes(cfg: Config, s: State, s': State)
    requires CoreInv(cfg, s) && WakesOk(s) && Next(cfg, s, s')
    ensures WakesOk(s')
  {
    hide Atomic, TrueAnswer;
    hide CoreInv, WakesOk, Atomic, CallOf;
    var step :| NextStep(cfg, s, s', step);
    match step
    case CommitStep(c, op, t, b, reply) => CommitKeepsWakes(cfg, s, s', c, op, t, b, reply);
    case GiveStep(c, op, answer) => GiveKeepsWakes(cfg, s, s', c, op, answer);
    case DrawStep => DrawKeepsWakes(cfg, s, s');
    case MoveStep(c, to) => MoveKeepsWakes(cfg, s, s', c, to);
    case LookStep(c, to) => LookKeepsWakes(cfg, s, s', c, to);
    case StartStep(c) => StartKeepsWakes(cfg, s, s', c);
    case NotifyStep(c) => NotifyKeepsWakes(cfg, s, s', c);
    case SpawnStep(c, to) => SpawnKeepsWakes(cfg, s, s', c, to);
  }

  lemma StepKeepsWakes(cfg: Config, s: State, s': State)
    requires CoreInv(cfg, s) && WakesOk(s) && (Next(cfg, s, s') || s == s')
    ensures WakesOk(s')
  {
    hide *;
    if s != s' { NextKeepsWakes(cfg, s, s'); }
  }

  lemma InitialWakes(s: State)
    requires Init(s)
    ensures WakesOk(s)
  {
    forall p: Pool ensures WakesCover(s, p) { assert Unnotified(s, p) == {} && Pending(s, p) == {}; }
  }

  /** In every reachable state a pool's queue is covered by waiting outbox
      members, unconsumed broker messages, and messages wasted on a claim that raised. */
  lemma {:induction false} RunKeepsWakes(cfg: Config, run: seq<State>, n: nat)
    requires IsRun(cfg, run) && n < |run|
    ensures WakesOk(run[n])
  {
    hide *;
    RunIsNonEmpty(cfg, run);
    if n == 0 {
      InitialWakes(run[0]);
    } else {
      RunKeepsWakes(cfg, run, n - 1);
      RunKeepsCore(cfg, run, n - 1);
      RunSteps(cfg, run, n - 1);
      StepKeepsWakes(cfg, run[n - 1], run[n]);
    }
  }
}
