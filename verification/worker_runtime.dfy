/** `execute_claimed` on a store nobody else touches: the attempt loop, the order
    of audits, and the one terminal state it commits.  TaskProtocol covers the same
    steps under interference, crashes and lease loss at any point. */
module WorkerRuntime {
  import opened TaskContracts
  import opened StoreState
  import opened StoreTransactions
  import opened StoreInvariant
  import opened StoreCalls
  import opened TaskStore

  /** An exception: the name of its type, and its text. */
  datatype Error = Error(kind: string, message: string)

  datatype HandlerEnd = Returned(result: string) | Nothing | Transient(error: Error) | Crashed(error: Error)

  /** What the audits, the handler and the heartbeat do; a Some is the exception an
      audit raises.  Attempts are numbered as in the source. */
  datatype Script = Script(
    bound: bool, started: Option<Error>, handler: nat -> HandlerEnd, leaseLost: nat -> bool,
    retried: nat -> Option<Error>, completed: Option<Error>, output: Option<Error>, failed: Option<Error>)

  datatype End = Win(result: string) | Lose(code: string, message: string, auditFailed: bool)

  // The runtime's own errors, with their texts translated.
  const RUNTIME := "TaskRuntimeError"
  const LEASE_LOST := Error(RUNTIME, "lease lost while the task ran")
  const NO_RESULT := Error(RUNTIME, "task without a result")
  const EXHAUSTED := Error(RUNTIME, "attempts exhausted after redelivery")

  function NoHandler(kind: TaskKind): Error {
    var name := match kind
      case SecurityCheck => "security_check"
      case AgentTask => "agent"
      case SkillScan => "skill_scan"
      case Evaluation => "evaluation";
    Error(RUNTIME, "no trusted handler for task kind: " + name)
  }

  /** One attempt as the loop sees it: a result, an error that ends the loop, or a
      transient error. */
  datatype Attempt = Good(result: string) | Bad(error: Error) | Retry(error: Error)

  function AttemptOf(s: Script, k: nat): Attempt {
    match s.handler(k)
    case Returned(result) => if s.leaseLost(k) then Bad(LEASE_LOST) else Good(result)
    case Nothing => Bad(if s.leaseLost(k) then LEASE_LOST else NO_RESULT)
    case Transient(error) => Retry(error)
    case Crashed(error) => Bad(error)
  }

  /** Attempt k is followed by another one. */
  predicate GoesOn(s: Script, k: nat, max: nat) {
    AttemptOf(s, k).Retry? && k < max && s.retried(k).None?
  }

  /** The attempt the loop ends at, starting from attempt k. */
  function LastAttempt(s: Script, k: nat, max: nat): (last: nat)
    requires k <= max
    ensures k <= last <= max && !GoesOn(s, last, max)
    ensures forall j :: k <= j < last ==> GoesOn(s, j, max)
    decreases max - k
  {
    if GoesOn(s, k, max) then LastAttempt(s, k + 1, max) else k
  }

  /** `_finish_failure` of an error that is not an audit failure. */
  function Lost(s: Script, error: Error): End {
    match s.failed case None => Lose(error.kind, error.message, false) case Some(e) => AuditLost(e)
  }

  function AuditLost(e: Error): End {
    Lose("audit_error:" + e.kind, e.message, true)
  }

  /** The terminal state of a result. */
  function Completed(s: Script, result: string): End {
    if s.completed.Some? then AuditLost(s.completed.value)
    else if s.output.Some? then AuditLost(s.output.value)
    else Win(result)
  }

  /** The terminal state after the loop ended at an attempt. */
  function Verdict(s: Script, last: nat, max: nat): End {
    match AttemptOf(s, last)
    case Good(result) => Completed(s, result)
    case Bad(error) => Lost(s, error)
    case Retry(error) => Lost(s, if last < max && s.retried(last).Some? then s.retried(last).value else error)
  }

  /** The terminal state of a delivery, read off the script: it succeeds exactly when
      the start was audited, a handler is bound, some attempt within the budget gave a
      result after nothing but audited transient failures, and both closing audits
      were recorded. */
  function EndOf(s: Script, kind: TaskKind, attempts: nat, max: nat): End {
    if s.started.Some? then AuditLost(s.started.value)
    else if !s.bound then Lost(s, NoHandler(kind))
    else if attempts + 1 > max then Lost(s, EXHAUSTED)
    else Verdict(s, LastAttempt(s, attempts + 1, max), max)
  }

  /** The handler starts of a delivery. */
  function Starts(s: Script, attempts: nat, max: nat): nat {
    if s.started.Some? || !s.bound || attempts + 1 > max then 0 else LastAttempt(s, attempts + 1, max) - attempts
  }

  /** The audits a delivery counts: the start, one for each retry, and the closing
      ones that were recorded. */
  function Audits(s: Script, attempts: nat, max: nat): nat {
    if s.started.Some? then 0
    else if !s.bound || attempts + 1 > max then 1 + Closing(s)
    else
      var last := LastAttempt(s, attempts + 1, max);
      1 + (last - attempts - 1) + if AttemptOf(s, last).Good? then Completing(s) else Closing(s)
  }

  /** The two closing audits of a result, up to the first that fails. */
  function Completing(s: Script): nat {
    if s.completed.Some? then 0 else if s.output.Some? then 1 else 2
  }

  /** The final_output audit of a failure. */
  function Closing(s: Script): nat {
    if s.failed.None? then 1 else 0
  }

  /** The transient failures that had an attempt left; each counts as a retry, also
      when its audit then fails. */
  function Retries(s: Script, attempts: nat, max: nat): nat {
    if s.started.Some? || !s.bound || attempts + 1 > max then 0
    else
      var last := LastAttempt(s, attempts + 1, max);
      last - attempts - 1 + Unaudited(s, last, max)
  }

  /** The last retry, whose audit failed. */
  function Unaudited(s: Script, last: nat, max: nat): nat {
    if AttemptOf(s, last).Retry? && last < max then 1 else 0
  }

  /** What the delivery adds to the counters. */
  function Tally(end: End): Counters {
    match end
    case Win(_) => ZERO.(succeeded := 1)
    case Lose(_, _, auditFailed) => ZERO.(failed := 1, deadLettered := 1, auditFailures := if auditFailed then 1 else 0)
  }

  /** The record a delivery leaves behind. */
  function Delivered(s: Script, was: Record, now: Time): Record {
    Concluded(was.(attempts := was.attempts + Starts(s, was.attempts, was.maxAttempts),
                   auditEvents := was.auditEvents + Audits(s, was.attempts, was.maxAttempts)),
              EndOf(s, was.kind, was.attempts, was.maxAttempts), now)
  }

  lemma {:induction false} LastIsFirstToStop(s: Script, k: nat, max: nat, stop: nat)
    requires k <= stop <= max && !GoesOn(s, stop, max) && forall j: nat :: k <= j < stop ==> GoesOn(s, j, max)
    ensures LastAttempt(s, k, max) == stop
    decreases stop - k
  {
    if k < stop { LastIsFirstToStop(s, k + 1, max, stop); }
  }

  // ----- What that means, in terms of the handler, the heartbeat and the audits -----

  /** The loop ends at attempt k: every one before it failed transiently and its retry
      was audited, and this one did not, or had no attempt left. */
  ghost predicate StopsAt(s: Script, attempts: nat, max: nat, k: nat) {
    && attempts < k <= max
    && (forall j: nat :: attempts < j < k ==> s.handler(j).Transient? && s.retried(j) == None)
    && !(s.handler(k).Transient? && k < max && s.retried(k) == None)
  }

  lemma StopIsLast(s: Script, attempts: nat, max: nat, k: nat)
    requires StopsAt(s, attempts, max, k)
    ensures attempts + 1 <= max && LastAttempt(s, attempts + 1, max) == k
  {
    LastIsFirstToStop(s, attempts + 1, max, k);
  }

  /** A delivery that gets to its handler ends at exactly one attempt. */
  lemma OneStop(s: Script, attempts: nat, max: nat) returns (k: nat)
    requires attempts < max
    ensures StopsAt(s, attempts, max, k) && forall j: nat :: StopsAt(s, attempts, max, j) ==> j == k
  {
    k := LastAttempt(s, attempts + 1, max);
    forall j: nat | attempts < j < k ensures s.handler(j).Transient? && s.retried(j) == None { assert GoesOn(s, j, max); }
    forall j: nat | StopsAt(s, attempts, max, j) ensures j == k { StopIsLast(s, attempts, max, j); }
  }

  /** The delivery is a success with this result: the start and both closing audits
      were recorded, a handler is bound, and within the budget it returned the result
      while the lease was held, after nothing but audited transient failures. */
  ghost predicate Wins(s: Script, attempts: nat, max: nat, result: string) {
    && s.started == None && s.bound && s.completed == None && s.output == None
    && exists k: nat :: attempts < k <= max && s.handler(k) == Returned(result) && !s.leaseLost(k)
                        && forall j: nat :: attempts < j < k ==> s.handler(j).Transient? && s.retried(j) == None
  }

  lemma WinsExactly(s: Script, kind: TaskKind, attempts: nat, max: nat, result: string)
    ensures EndOf(s, kind, attempts, max) == Win(result) <==> Wins(s, attempts, max, result)
  {
    if attempts < max {
      var last := OneStop(s, attempts, max);
      StopIsLast(s, attempts, max, last);
      forall k: nat | attempts < k <= max && s.handler(k) == Returned(result)
                      && forall j: nat :: attempts < j < k ==> s.handler(j).Transient? && s.retried(j) == None
        ensures k == last
      {
        assert StopsAt(s, attempts, max, k);
      }
    }
  }

  /** The error attempt k ends the loop with, if any. */
  ghost predicate FailsWith(s: Script, max: nat, k: nat, error: Error) {
    match s.handler(k)
    case Returned(_) => s.leaseLost(k) && error == LEASE_LOST
    case Nothing => error == if s.leaseLost(k) then LEASE_LOST else NO_RESULT
    case Crashed(e) => error == e
    case Transient(e) => error == if k < max && s.retried(k).Some? then s.retried(k).value else e
  }

  /** The delivery fails with this error before any closing audit of a result. */
  ghost predicate Loses(s: Script, kind: TaskKind, attempts: nat, max: nat, error: Error) {
    s.started == None
    && if !s.bound then error == NoHandler(kind)
       else if attempts >= max then error == EXHAUSTED
       else exists k: nat :: StopsAt(s, attempts, max, k) && FailsWith(s, max, k, error)
  }

  /** A failure carries the type and text of its error, or those of the exception of
      the audit that should have reported it. */
  lemma LosesExactly(s: Script, kind: TaskKind, attempts: nat, max: nat, error: Error)
    requires Loses(s, kind, attempts, max, error)
    ensures EndOf(s, kind, attempts, max)
            == match s.failed
               case None => Lose(error.kind, error.message, false)
               case Some(e) => Lose("audit_error:" + e.kind, e.message, true)
  {
    if s.bound && attempts < max {
      var k: nat :| StopsAt(s, attempts, max, k) && FailsWith(s, max, k, error);
      StopIsLast(s, attempts, max, k);
    }
  }

  /** A lost lease is never a success: if it was lost when the last attempt came back
      without raising, the delivery fails with the runtime error. */
  lemma ALostLeaseLoses(s: Script, kind: TaskKind, attempts: nat, max: nat, k: nat)
    requires s.started == None && s.bound && StopsAt(s, attempts, max, k) && s.leaseLost(k)
    requires s.handler(k).Returned? || s.handler(k).Nothing?
    ensures EndOf(s, kind, attempts, max)
            == match s.failed
               case None => Lose("TaskRuntimeError", LEASE_LOST.message, false)
               case Some(e) => Lose("audit_error:" + e.kind, e.message, true)
  {
    assert FailsWith(s, max, k, LEASE_LOST);
    LosesExactly(s, kind, attempts, max, LEASE_LOST);
  }

  /** There is no other way to end: a success, a failure, or an audit of the start or
      of the result that raised. */
  lemma EndIsOneOf(s: Script, kind: TaskKind, attempts: nat, max: nat)
    ensures s.started.Some? ==>
              EndOf(s, kind, attempts, max) == Lose("audit_error:" + s.started.value.kind, s.started.value.message, true)
    ensures s.started == None ==>
              || (exists result :: Wins(s, attempts, max, result))
              || (exists error :: Loses(s, kind, attempts, max, error))
              || (exists e :: (s.completed == Some(e) || (s.completed == None && s.output == Some(e)))
                              && EndOf(s, kind, attempts, max) == Lose("audit_error:" + e.kind, e.message, true))
  {
    if s.started == None {
      if !s.bound {
        assert Loses(s, kind, attempts, max, NoHandler(kind));
      } else if attempts >= max {
        assert Loses(s, kind, attempts, max, EXHAUSTED);
      } else {
        var k := OneStop(s, attempts, max);
        StopIsLast(s, attempts, max, k);
        var h := s.handler(k);
        if h.Returned? && !s.leaseLost(k) {
          if s.completed == None && s.output == None { assert Wins(s, attempts, max, h.result); }
        } else {
          var error := match h
            case Returned(_) => LEASE_LOST
            case Nothing => if s.leaseLost(k) then LEASE_LOST else NO_RESULT
            case Crashed(e) => e
            case Transient(e) => if k < max && s.retried(k).Some? then s.retried(k).value else e;
          assert FailsWith(s, max, k, error);
          assert Loses(s, kind, attempts, max, error);
        }
      }
    }
  }

  /** The record a delivery leaves: terminal, without holder or lease, with the result
      of a success or the error of a failure, and otherwise as it was but for the
      attempts and the audits. */
  lemma DeliveredMeans(s: Script, was: Record, now: Time)
    ensures var r, end := Delivered(s, was, now), EndOf(s, was.kind, was.attempts, was.maxAttempts);
            && r == was.(status := r.status, result := r.result, errorCode := r.errorCode, errorMessage := r.errorMessage,
                         attempts := r.attempts, auditEvents := r.auditEvents, holder := None, leaseExpires := None,
                         completedAt := Some(now), updatedAt := now)
            && match end
               case Win(result) => r.status == Succeeded && r.result == Some(result) && r.errorCode == None && r.errorMessage == None
               case Lose(code, message, _) =>
                 r.status == Failed && r.result == None && r.errorCode == Some(code)
                 && r.errorMessage == if message == "" then None else Some(if |message| <= 1000 then message else message[..1000])
  {
  }

  lemma SuccessMeansWins(s: Script, was: Record, now: Time)
    ensures var r := Delivered(s, was, now);
            forall x :: r.status.Succeeded? && r.result == Some(x) <==> Wins(s, was.attempts, was.maxAttempts, x)
  {
    hide Delivered, EndOf, Wins;
    DeliveredMeans(s, was, now);
    forall x ensures EndOf(s, was.kind, was.attempts, was.maxAttempts) == Win(x) <==> Wins(s, was.attempts, was.maxAttempts, x) {
      WinsExactly(s, was.kind, was.attempts, was.maxAttempts, x);
    }
  }

  /** Attempts, audits and retries of a delivery: every handler start is an attempt;
      the start audit, one audit for each retry and the closing audits recorded are
      counted; and every transient failure with an attempt left is a retry. */
  lemma DeliveryCounts(s: Script, was: Record, now: Time)
    ensures var r, max := Delivered(s, was, now), was.maxAttempts;
            var closing := if s.failed == None then 1 else 0;
            && (s.started.Some? ==> r.attempts == was.attempts && r.auditEvents == was.auditEvents)
            && (s.started == None && (!s.bound || was.attempts >= max) ==>
                  r.attempts == was.attempts && r.auditEvents == was.auditEvents + 1 + closing)
            && (s.started == None && s.bound ==>
                  forall k: nat :: StopsAt(s, was.attempts, max, k) ==>
                    && r.attempts == k
                    && Retries(s, was.attempts, max) == k - was.attempts - (if s.handler(k).Transient? && k < max then 0 else 1)
                    && r.auditEvents == was.auditEvents + (k - was.attempts)
                                        + (if !s.handler(k).Returned? || s.leaseLost(k) then closing
                                           else if s.completed.Some? then 0 else if s.output.Some? then 1 else 2))
    ensures s.started.Some? || !s.bound || was.attempts >= was.maxAttempts ==> Retries(s, was.attempts, was.maxAttempts) == 0
  {
    if s.started == None && s.bound {
      forall k: nat | StopsAt(s, was.attempts, was.maxAttempts, k)
        ensures LastAttempt(s, was.attempts + 1, was.maxAttempts) == k
      {
        StopIsLast(s, was.attempts, was.maxAttempts, k);
      }
    }
  }

  /** The counters: one success, or one failure that is dead-lettered, and the failure
      of an audit when one decided it. */
  lemma TallyMeans(end: End, c: Counters)
    ensures c.Plus(Tally(end))
            == match end
               case Win(_) => c.(succeeded := c.succeeded + 1)
               case Lose(_, _, auditFailed) =>
                 c.(failed := c.failed + 1, deadLettered := c.deadLettered + 1,
                    auditFailures := c.auditFailures + if auditFailed then 1 else 0)
  {
  }

  /** The budget: a delivery never starts more handlers than attempts are left. */
  lemma StartsWithinBudget(s: Script, attempts: nat, max: nat)
    ensures attempts <= max ==> attempts + Starts(s, attempts, max) <= max
    ensures attempts >= max ==> Starts(s, attempts, max) == 0
  {
  }

  // ----- The store as the holder of a lease sees it -----

  ghost predicate Holds(store: RedisTaskStore, id: TaskId, worker: ClientId)
    reads store
  {
    store.Consistent() && id in store.db.records && store.db.records[id].status.Running? && store.db.records[id].holder == Some(worker)
  }

  method Audit(store: RedisTaskStore, id: TaskId, worker: ClientId, now: Time) returns (r: Record)
    requires Holds(store, id, worker)
    modifies store
    ensures Holds(store, id, worker) && store.db.records == old(store.db.records)[id := r]
    ensures var was := old(store.db.records)[id]; r == was.(auditEvents := was.auditEvents + 1, updatedAt := now)
    ensures store.db.counters == old(store.db.counters)
  {
    hide IsAtomic, Valid;
    var reply := store.IncrementAudit(id, now);
    r := reply.record;
  }

  method TakeAttempt(store: RedisTaskStore, id: TaskId, worker: ClientId, attempt: nat, now: Time) returns (r: Record)
    requires Holds(store, id, worker)
    modifies store
    ensures Holds(store, id, worker) && store.db.records == old(store.db.records)[id := r]
    ensures r == old(store.db.records)[id].(attempts := attempt, updatedAt := now)
    ensures store.db.counters == old(store.db.counters)
  {
    hide IsAtomic, Valid;
    var reply := store.SetAttempts(id, worker, attempt, now);
    r := reply.record;
  }

  method CountRetry(store: RedisTaskStore, id: TaskId, worker: ClientId)
    requires Holds(store, id, worker)
    modifies store
    ensures Holds(store, id, worker) && store.db.records == old(store.db.records)
    ensures store.db.counters == old(store.db.counters).Plus(ZERO.(retried := 1))
  {
    hide Valid;
    store.IncrementMetric(ZERO.(retried := 1));
  }

  method Conclude(store: RedisTaskStore, id: TaskId, worker: ClientId, end: End, now: Time) returns (r: Record)
    requires Holds(store, id, worker)
    modifies store
    ensures store.Consistent() && store.db.records == old(store.db.records)[id := r]
    ensures r == Concluded(old(store.db.records)[id], end, now)
    ensures store.db.counters == old(store.db.counters).Plus(Tally(end))
  {
    hide IsAtomic, Valid;
    var reply;
    if end.Win? {
      reply := store.Finish(id, worker, Succeeded, Some(end.result), None, None, false, now);
    } else {
      reply := store.Finish(id, worker, Failed, None, Some(end.code), Some(end.message), end.auditFailed, now);
    }
    r := reply.record;
  }

  function Concluded(r: Record, end: End, now: Time): Record {
    match end
    case Win(result) => Finished(r, Succeeded, Some(result), None, None, now)
    case Lose(code, message, _) => Finished(r, Failed, None, Some(code), Some(message), now)
  }

  /** `_finish_failure` without a failed audit before it. */
  method FinishFailure(store: RedisTaskStore, id: TaskId, worker: ClientId, error: Error, s: Script, now: Time)
    returns (r: Record)
    requires Holds(store, id, worker)
    modifies store
    ensures store.Consistent() && store.db.records == old(store.db.records)[id := r]
    ensures var was := old(store.db.records)[id];
            r == Concluded(was.(auditEvents := was.auditEvents + Closing(s)), Lost(s, error), now)
    ensures store.db.counters == old(store.db.counters).Plus(Tally(Lost(s, error)))
  {
    hide Valid;
    if s.failed.None? {
      var _ := Audit(store, id, worker, now);
    }
    r := Conclude(store, id, worker, Lost(s, error), now);
  }

  /** The attempt loop: what it leaves in `result` and `error`. */
  function LoopEnd(s: Script, last: nat, max: nat): (Option<string>, Option<Error>) {
    match AttemptOf(s, last)
    case Good(result) => (Some(result), None)
    case Bad(error) => (None, Some(error))
    case Retry(error) => (None, Some(if last < max && s.retried(last).Some? then s.retried(last).value else error))
  }

  /** The counters after n retries. */
  function Retried(c: Counters, n: nat): Counters {
    c.(retried := c.retried + n)
  }

  /** What the loop leaves behind agrees with the attempt it ended at; without a
      result or an error the code after it reports a runtime error. */
  ghost predicate Leaves(s: Script, last: nat, max: nat, result: Option<string>, error: Option<Error>) {
    (if error.None? && result.Some? then (result, error) else (None, Some(error.GetOr(NO_RESULT)))) == LoopEnd(s, last, max)
  }

  /** One turn of the attempt loop: the fenced attempt update, the handler, and after
      a transient error the retry audit. */
  method TryOnce(store: RedisTaskStore, id: TaskId, worker: ClientId, s: Script, attempt: nat, max: nat, now: Time)
    returns (r: Record, result: Option<string>, error: Option<Error>, again: bool)
    requires Holds(store, id, worker)
    modifies store
    ensures Holds(store, id, worker) && store.db.records == old(store.db.records)[id := r]
    ensures var was := old(store.db.records)[id];
            r == was.(attempts := attempt, auditEvents := was.auditEvents + (if again then 1 else 0), updatedAt := now)
    ensures store.db.counters == Retried(old(store.db.counters), if again then 1 else Unaudited(s, attempt, max))
    ensures (again <==> GoesOn(s, attempt, max)) && (!again ==> Leaves(s, attempt, max, result, error))
  {
    hide Valid;
    r := TakeAttempt(store, id, worker, attempt, now);
    result, error, again := None, None, false;
    var end := s.handler(attempt);
    if end.Transient? {
      error := Some(end.error);
      if attempt < max {
        CountRetry(store, id, worker);
        if s.retried(attempt).Some? {
          error := s.retried(attempt);
        } else {
          r := Audit(store, id, worker, now);
          again := true;
        }
      }
    } else if end.Crashed? {
      error := Some(end.error);
    } else {
      result := if end.Returned? then Some(end.result) else None;
      error := if s.leaseLost(attempt) then Some(LEASE_LOST) else None;
    }
  }

  method RunAttempts(store: RedisTaskStore, id: TaskId, worker: ClientId, s: Script, now: Time)
    returns (r: Record, result: Option<string>, error: Option<Error>, starts: nat)
    requires Holds(store, id, worker) && store.db.records[id].attempts < store.db.records[id].maxAttempts
    modifies store
    ensures Holds(store, id, worker) && store.db.records == old(store.db.records)[id := r]
    ensures var was := old(store.db.records)[id];
            var last := LastAttempt(s, was.attempts + 1, was.maxAttempts);
            && r == was.(attempts := last, auditEvents := was.auditEvents + last - was.attempts - 1, updatedAt := now)
            && starts == last - was.attempts
            && store.db.counters == Retried(old(store.db.counters), last - was.attempts - 1 + Unaudited(s, last, was.maxAttempts))
            && Leaves(s, last, was.maxAttempts, result, error)
  {
    hide Valid, Unaudited, Leaves, GoesOn, LastAttempt;
    r := store.db.records[id];
    ghost var was, counted := r, store.db.counters;
    var max := r.maxAttempts;
    var first := r.attempts + 1;
    var attempt, again := first, true;
    starts := 0;
    while true
      invariant Holds(store, id, worker) && store.db.records == old(store.db.records)[id := r]
      invariant first <= attempt <= max && starts == attempt - first
      invariant r == was.(attempts := r.attempts, auditEvents := was.auditEvents + attempt - first, updatedAt := r.updatedAt)
      invariant store.db.counters == Retried(counted, attempt - first)
      invariant forall j: nat :: first <= j < attempt ==> GoesOn(s, j, max)
      decreases max - attempt
    {
      r, result, error, again := TryOnce(store, id, worker, s, attempt, max, now);
      starts := starts + 1;
      if !again { break; }
      LastIsNotRetried(s, attempt, max);
      attempt := attempt + 1;
    }
    LastIsFirstToStop(s, first, max, attempt);
  }

  lemma LastIsNotRetried(s: Script, k: nat, max: nat)
    requires GoesOn(s, k, max)
    ensures k < max
  {
  }

  /** What a delivery does to the store: one record, and its counts. */
  ghost predicate DeliveredAs(s: Script, was: Db, db: Db, id: TaskId, r: Record, now: Time)
    requires id in was.records
  {
    var rec := was.records[id];
    && r == Delivered(s, rec, now) && db.records == was.records[id := r]
    && db.counters == Retried(was.counters, Retries(s, rec.attempts, rec.maxAttempts))
                      .Plus(Tally(EndOf(s, rec.kind, rec.attempts, rec.maxAttempts)))
  }

  /** `execute_claimed`: the record and the counters end exactly as the script says,
      and no other record is touched. */
  method ExecuteClaimed(store: RedisTaskStore, id: TaskId, worker: ClientId, s: Script, now: Time)
    returns (r: Record, starts: nat)
    requires Holds(store, id, worker)
    modifies store
    ensures store.Consistent() && DeliveredAs(s, old(store.db), store.db, id, r, now)
    ensures starts == Starts(s, old(store.db.records)[id].attempts, old(store.db.records)[id].maxAttempts)
    ensures var was := old(store.db.records)[id];
            forall x :: r.status.Succeeded? && r.result == Some(x) <==> Wins(s, was.attempts, was.maxAttempts, x)
  {
    hide Valid, LastAttempt, Delivered, EndOf, Starts, Retries, Tally, Lost, Concluded, Wins;
    LoopSkipped(s, store.db.records[id], now);
    SuccessMeansWins(s, store.db.records[id], now);
    starts := 0;
    if s.started.Some? {
      r := Conclude(store, id, worker, AuditLost(s.started.value), now);
      return;
    }
    r := Audit(store, id, worker, now);
    if !s.bound {
      r := FinishFailure(store, id, worker, NoHandler(r.kind), s, now);
      return;
    }
    if r.attempts + 1 > r.maxAttempts {
      r := FinishFailure(store, id, worker, EXHAUSTED, s, now);
      return;
    }
    r, starts := Deliver(store, id, worker, s, old(store.db.records)[id], now);
  }

  /** Delivered, Starts and Retries when the loop is not entered. */
  lemma LoopSkipped(s: Script, was: Record, now: Time)
    ensures var max := was.maxAttempts;
            s.started.Some? || !s.bound || was.attempts >= max ==>
              && Starts(s, was.attempts, max) == 0 && Retries(s, was.attempts, max) == 0
              && (s.started.Some? ==> EndOf(s, was.kind, was.attempts, max) == AuditLost(s.started.value)
                                      && Delivered(s, was, now) == Concluded(was, AuditLost(s.started.value), now))
              && (s.started.None? ==>
                    var end := Lost(s, if s.bound then EXHAUSTED else NoHandler(was.kind));
                    && EndOf(s, was.kind, was.attempts, max) == end
                    && Delivered(s, was, now)
                       == Concluded(was.(auditEvents := was.auditEvents + 1 + Closing(s), updatedAt := now), end, now))
  {
  }

  /** Delivered, Starts and Retries once the loop is entered. */
  lemma LoopEntered(s: Script, was: Record, now: Time)
    requires s.started.None? && s.bound && was.attempts < was.maxAttempts
    ensures var max := was.maxAttempts;
            var last := LastAttempt(s, was.attempts + 1, max);
            && EndOf(s, was.kind, was.attempts, max) == Verdict(s, last, max) && Starts(s, was.attempts, max) == last - was.attempts
            && Retries(s, was.attempts, max) == last - was.attempts - 1 + Unaudited(s, last, max)
            && Delivered(s, was, now)
               == Concluded(was.(attempts := last, updatedAt := now,
                                 auditEvents := was.auditEvents + last - was.attempts
                                                + if AttemptOf(s, last).Good? then Completing(s) else Closing(s)),
                            Verdict(s, last, max), now)
  {
  }

  /** What the code after the loop reads off `result` and `error`. */
  lemma LoopLeft(s: Script, last: nat, max: nat, result: Option<string>, error: Option<Error>)
    requires Leaves(s, last, max, result, error)
    ensures if error.Some? || result.None? then !AttemptOf(s, last).Good? && Verdict(s, last, max) == Lost(s, error.GetOr(NO_RESULT))
            else AttemptOf(s, last).Good? && Verdict(s, last, max) == Completed(s, result.value)
  {
  }

  /** The attempts and the end they lead to; `was` is the record before its start audit. */
  method Deliver(store: RedisTaskStore, id: TaskId, worker: ClientId, s: Script, ghost was: Record, now: Time)
    returns (r: Record, starts: nat)
    requires Holds(store, id, worker) && s.started.None? && s.bound && was.attempts < was.maxAttempts
    requires store.db.records[id] == was.(auditEvents := was.auditEvents + 1, updatedAt := now)
    modifies store
    ensures store.Consistent() && store.db.records == old(store.db.records)[id := r]
    ensures starts == Starts(s, was.attempts, was.maxAttempts) && r == Delivered(s, was, now)
    ensures store.db.counters == Retried(old(store.db.counters), Retries(s, was.attempts, was.maxAttempts))
                                 .Plus(Tally(EndOf(s, was.kind, was.attempts, was.maxAttempts)))
  {
    hide Valid, LastAttempt, AttemptOf, Verdict, Leaves, Delivered, EndOf, Starts, Retries, Tally, Lost, Completed, Concluded;
    var result, error;
    r, result, error, starts := RunAttempts(store, id, worker, s, now);
    LoopEntered(s, was, now);
    LoopLeft(s, LastAttempt(s, was.attempts + 1, was.maxAttempts), was.maxAttempts, result, error);
    if error.Some? || result.None? {
      r := FinishFailure(store, id, worker, error.GetOr(NO_RESULT), s, now);
    } else {
      r := CloseSuccess(store, id, worker, result.value, s, now);
    }
  }

  /** The two closing audits and the commit. */
  method CloseSuccess(store: RedisTaskStore, id: TaskId, worker: ClientId, result: string, s: Script, now: Time)
    returns (r: Record)
    requires Holds(store, id, worker)
    modifies store
    ensures store.Consistent() && store.db.records == old(store.db.records)[id := r]
    ensures var was := old(store.db.records)[id];
            && r == Concluded(was.(auditEvents := was.auditEvents + Completing(s)), Completed(s, result), now)
            && store.db.counters == old(store.db.counters).Plus(Tally(Completed(s, result)))
  {
    hide Valid;
    if s.completed.Some? {
      r := Conclude(store, id, worker, AuditLost(s.completed.value), now);
      return;
    }
    r := Audit(store, id, worker, now);
    if s.output.Some? {
      r := Conclude(store, id, worker, AuditLost(s.output.value), now);
      return;
    }
    r := Audit(store, id, worker, now);
    r := Conclude(store, id, worker, Win(result), now);
  }
}
