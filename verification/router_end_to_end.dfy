/** Plans as the planner builds them, run as the executor runs them. */
module RouterEndToEnd {
  import opened TaskContracts
  import opened RouterContracts
  import opened RouterLayering
  import opened RouterResults
  import opened RouterPlanner
  import E = RouterExecutor
  import A = RouterAggregation

  /** The planner's tasks with their two layers. */
  function Executable(tasks: seq<SubTask>, n: nat, limit: nat): E.Plan
    requires n <= |tasks| && Validated(tasks)
  {
    E.Plan(ById(tasks), LayersOf(tasks, n), limit)
  }

  /** Every plan the planner builds can be executed under any concurrency limit. */
  lemma PlansAreExecutable(trace: string, tasks: seq<SubTask>, agents: seq<string>, audited: bool, limit: nat)
    requires IsFanIn(trace, tasks, agents, audited) && limit >= 1
    ensures Validated(tasks) && E.WellFormed(Executable(tasks, |agents|, limit))
  {
    PlansAreLayered(trace, tasks, agents, audited);
    ByIdIsClosed(tasks);
  }

  /** The planned audit agent only starts when every other task has its result,
      whatever the interleaving. */
  lemma AuditComesLast(trace: string, tasks: seq<SubTask>, agents: seq<string>, limit: nat, env: Env,
                       run: seq<E.State>, n: nat)
    requires IsFanIn(trace, tasks, agents, true) && Validated(tasks) && limit >= 1
    requires E.IsRun(Executable(tasks, |agents|, limit), env, run) && n < |run|
    requires tasks[|agents|].id in run[n].started
    ensures forall i :: 0 <= i < |agents| ==> tasks[i].id in run[n].results
  {
    var plan, id := Executable(tasks, |agents|, limit), tasks[|agents|].id;
    PlansAreExecutable(trace, tasks, agents, true, limit);
    PlansAreLayered(trace, tasks, agents, true);
    ByIdIsClosed(tasks);
    E.RunOk(plan, env, run, n);
    E.CollectedAreNew(plan, env, run[n], id);
    assert plan.tasks[id] == tasks[|agents|];
  }

  /** ... and it always does start, even when everything before it was blocked. */
  lemma AuditAlwaysRuns(trace: string, tasks: seq<SubTask>, agents: seq<string>, limit: nat, env: Env,
                        run: seq<E.State>, n: nat)
    requires IsFanIn(trace, tasks, agents, true) && Validated(tasks) && limit >= 1
    requires E.IsRun(Executable(tasks, |agents|, limit), env, run) && n < |run|
    requires E.Finished(Executable(tasks, |agents|, limit), run[n])
    ensures tasks[|agents|].id in run[n].started <==> AUDIT in env.registered
  {
    var plan, id := Executable(tasks, |agents|, limit), tasks[|agents|].id;
    PlansAreExecutable(trace, tasks, agents, true, limit);
    ByIdIsClosed(tasks);
    assert plan.tasks[id] == tasks[|agents|];
    A.AlwaysRunTasksRun(plan, env, run, n, id);
  }
}
