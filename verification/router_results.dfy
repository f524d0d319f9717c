/** What a single sub-agent task comes to, and the equations a result map of a
    whole plan has to satisfy.  Mirrors `run_one` and `record_audit` of
    safeagent_gov/router/executor.py. */
module RouterResults {
  import opened TaskContracts
  import opened RouterContracts
  import opened RouterLayering

  /** Everything outside the executor: which agents have a handler, how each
      handler call ends, and whether the audit callback raises for a result. */
  datatype Env = Env(registered: set<string>, handler: SubTask -> Handled, auditor: Result -> Option<string>)

  function Refusal(t: SubTask): Decision {
    if t.mandatory then Block else RequireApproval
  }

  function Failure(t: SubTask, status: ResultStatus, error: string): Result {
    Result(t.id, t.agent, status, Refusal(t), if t.mandatory then CriticalRisk else MediumRisk, "", Some(error), false)
  }

  function SkippedResult(t: SubTask): Result {
    Result(t.id, t.agent, Skipped, Refusal(t), if t.mandatory then HighRisk else MediumRisk, "",
           Some("blocked_predecessor"), false)
  }

  function HandledResult(t: SubTask, h: Handled): Result {
    match h
    case Returned(decision, risk, output) => Result(t.id, t.agent, Completed, decision, risk, output, None, false)
    case OutOfTime => Failure(t, TimedOut, "subagent_timeout")
    case Raised(name) => Failure(t, FailedResult, "subagent_error:" + name)
  }

  predicate Stopped(t: SubTask, blocked: bool) {
    blocked && !t.alwaysRun
  }

  /** The task reaches its handler. */
  predicate Runs(env: Env, t: SubTask, blocked: bool) {
    !Stopped(t, blocked) && t.agent in env.registered
  }

  /** The result handed to `record_audit`. */
  function Draft(env: Env, t: SubTask, blocked: bool): Result {
    if Stopped(t, blocked) then SkippedResult(t)
    else if t.agent !in env.registered then Failure(t, FailedResult, "handler_not_registered")
    else HandledResult(t, env.handler(t))
  }

  function Audited(env: Env, r: Result): Result {
    match env.auditor(r)
    case None => r.(auditRecorded := true)
    case Some(name) => r.(status := FailedResult, decision := Block, risk := CriticalRisk,
                          error := Some("audit_error:" + name), auditRecorded := false)
  }

  function Final(env: Env, t: SubTask, blocked: bool): Result {
    Audited(env, Draft(env, t, blocked))
  }

  type Results = map<SubTaskId, Result>

  predicate Blocked(t: SubTask, results: Results) {
    exists p :: p in t.predecessors && p in results && results[p].decision.Block?
  }

  /** The equation of one task. */
  ghost predicate Settled(tasks: Tasks, env: Env, results: Results, id: SubTaskId)
    requires id in tasks && id in results
  {
    results[id] == Final(env, tasks[id], Blocked(tasks[id], results))
  }

  /** The result map of the whole plan, independent of any order of execution. */
  ghost predicate Solves(tasks: Tasks, env: Env, results: Results) {
    results.Keys == tasks.Keys
    && forall id {:trigger Settled(tasks, env, results, id)} :: id in tasks ==> Settled(tasks, env, results, id)
  }

  /** Equal predecessors make equal results. */
  lemma SamePredecessors(t: SubTask, a: Results, b: Results)
    requires forall p :: p in t.predecessors ==> p in a && p in b && a[p] == b[p]
    ensures Blocked(t, a) == Blocked(t, b)
  {
  }

  lemma {:induction false} SolutionsAgree(tasks: Tasks, env: Env, gens: seq<set<SubTaskId>>, a: Results, b: Results,
                                          g: nat, id: SubTaskId)
    requires IsLayering(tasks, gens) && Solves(tasks, env, a) && Solves(tasks, env, b)
    requires g < |gens| && id in gens[g]
    ensures id in a && id in b && a[id] == b[id]
    decreases g
  {
    assert Fits(tasks, gens, g, id);
    forall p | p in tasks[id].predecessors ensures p in a && p in b && a[p] == b[p] {
      assert Before(gens, g, p);
      var h: nat :| h < g && p in gens[h];
      SolutionsAgree(tasks, env, gens, a, b, h, p);
    }
    SamePredecessors(tasks[id], a, b);
    assert Settled(tasks, env, a, id) && Settled(tasks, env, b, id);
  }

  /** An acyclic plan has at most one solution. */
  lemma SolutionIsUnique(tasks: Tasks, env: Env, gens: seq<set<SubTaskId>>, a: Results, b: Results)
    requires IsLayering(tasks, gens) && Solves(tasks, env, a) && Solves(tasks, env, b)
    ensures a == b
  {
    forall id | id in tasks ensures a[id] == b[id] {
      assert In(gens, id);
      var g: nat :| g < |gens| && id in gens[g];
      SolutionsAgree(tasks, env, gens, a, b, g, id);
    }
  }

  // ----- The sequential recursion over the DAG -----

  /** The generation of a task. */
  ghost function Level(gens: seq<set<SubTaskId>>, id: SubTaskId): (g: nat)
    requires In(gens, id)
    ensures g < |gens| && id in gens[g]
  {
    var g: nat :| g < |gens| && id in gens[g];
    g
  }

  /** One task after the other, each asking for the results of its predecessors. */
  ghost function Sequential(tasks: Tasks, env: Env, gens: seq<set<SubTaskId>>, id: SubTaskId): Result
    requires IsLayering(tasks, gens) && id in tasks
    decreases (assert In(gens, id); Level(gens, id))
  {
    assert In(gens, id);
    Lower(tasks, gens, id);
    var blocked := exists p :: p in tasks[id].predecessors && Sequential(tasks, env, gens, p).decision.Block?;
    Final(env, tasks[id], blocked)
  }

  lemma Lower(tasks: Tasks, gens: seq<set<SubTaskId>>, id: SubTaskId)
    requires IsLayering(tasks, gens) && id in tasks
    ensures In(gens, id)
    ensures forall p :: p in tasks[id].predecessors ==> p in tasks && In(gens, p) && Level(gens, p) < Level(gens, id)
  {
    assert In(gens, id);
    var g := Level(gens, id);
    assert Fits(tasks, gens, g, id);
    forall p | p in tasks[id].predecessors ensures p in tasks && In(gens, p) && Level(gens, p) < g {
      assert Before(gens, g, p);
      var h: nat :| h < g && p in gens[h];
      assert In(gens, p);
      SamePlace(gens, h, Level(gens, p), p);
    }
  }

  lemma SequentialSolves(tasks: Tasks, env: Env, gens: seq<set<SubTaskId>>)
    requires IsLayering(tasks, gens)
    ensures Solves(tasks, env, map id | id in tasks :: Sequential(tasks, env, gens, id))
  {
    var all := map id | id in tasks :: Sequential(tasks, env, gens, id);
    forall id | id in tasks ensures Settled(tasks, env, all, id) {
      Lower(tasks, gens, id);
      var blocked := exists p :: p in tasks[id].predecessors && Sequential(tasks, env, gens, p).decision.Block?;
      assert blocked == Blocked(tasks[id], all);
    }
  }
}
