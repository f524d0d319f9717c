/** Fan-in of the sub-agent results and why it fails closed. */
module RouterAggregation {
  import opened TaskContracts
  import opened RouterContracts
  import opened RouterLayering
  import opened RouterResults
  import E = RouterExecutor

  datatype Verdict = CompletedRun | Masked | PendingApproval | BlockedRun

  datatype Summary = Summary(verdict: Verdict, decision: Decision, risk: Risk, auditComplete: bool, ordered: seq<Result>)

  function MaxDecision(rs: seq<Result>): Decision
    requires |rs| > 0
  {
    if |rs| == 1 then rs[0].decision
    else
      var rest := MaxDecision(rs[..|rs| - 1]);
      if DecisionRank(rs[|rs| - 1].decision) > DecisionRank(rest) then rs[|rs| - 1].decision else rest
  }

  function MaxRisk(rs: seq<Result>): Risk
    requires |rs| > 0
  {
    if |rs| == 1 then rs[0].risk
    else
      var rest := MaxRisk(rs[..|rs| - 1]);
      if RiskRank(rs[|rs| - 1].risk) > RiskRank(rest) then rs[|rs| - 1].risk else rest
  }

  lemma {:induction false} MaxDecisionIsLargest(rs: seq<Result>)
    requires |rs| > 0
    ensures exists i :: 0 <= i < |rs| && rs[i].decision == MaxDecision(rs)
    ensures forall i :: 0 <= i < |rs| ==> DecisionRank(rs[i].decision) <= DecisionRank(MaxDecision(rs))
  {
    if |rs| == 1 {
      assert rs[0].decision == MaxDecision(rs);
    } else {
      var rest := rs[..|rs| - 1];
      MaxDecisionIsLargest(rest);
      var k :| 0 <= k < |rest| && rest[k].decision == MaxDecision(rest);
      assert rs[k] == rest[k];
      assert rs[k].decision == MaxDecision(rs) || rs[|rs| - 1].decision == MaxDecision(rs);
    }
  }

  lemma {:induction false} MaxRiskIsLargest(rs: seq<Result>)
    requires |rs| > 0
    ensures exists i :: 0 <= i < |rs| && rs[i].risk == MaxRisk(rs)
    ensures forall i :: 0 <= i < |rs| ==> RiskRank(rs[i].risk) <= RiskRank(MaxRisk(rs))
  {
    if |rs| == 1 {
      assert rs[0].risk == MaxRisk(rs);
    } else {
      var rest := rs[..|rs| - 1];
      MaxRiskIsLargest(rest);
      var k :| 0 <= k < |rest| && rest[k].risk == MaxRisk(rest);
      assert rs[k] == rest[k];
      assert rs[k].risk == MaxRisk(rs) || rs[|rs| - 1].risk == MaxRisk(rs);
    }
  }

  /** `ordered = [results[task.task_id] for task in plan.sub_tasks]`. */
  function Ordered(plan: seq<SubTask>, results: Results): seq<Result>
    requires forall i :: 0 <= i < |plan| ==> plan[i].id in results
  {
    seq(|plan|, i requires 0 <= i < |plan| => results[plan[i].id])
  }

  function VerdictOf(d: Decision): Verdict {
    match d
    case Block => BlockedRun
    case RequireApproval => PendingApproval
    case MaskAndAllow => Masked
    case _ => CompletedRun
  }

  function Summarize(ordered: seq<Result>): Summary
    requires |ordered| > 0
  {
    var complete := forall i :: 0 <= i < |ordered| ==> ordered[i].auditRecorded;
    var decision := if complete then MaxDecision(ordered) else Block;
    var risk := if complete then MaxRisk(ordered) else CriticalRisk;
    Summary(VerdictOf(decision), decision, risk, complete, ordered)
  }

  /** The plan ran to the result map of its equations. */
  ghost predicate Ran(plan: seq<SubTask>, env: Env, results: Results) {
    |plan| > 0 && Validated(plan) && Solves(ById(plan), env, results)
  }

  function Outcome(plan: seq<SubTask>, results: Results): Summary
    requires |plan| > 0 && forall i :: 0 <= i < |plan| ==> plan[i].id in results
  {
    Summarize(Ordered(plan, results))
  }

  lemma EntryOf(plan: seq<SubTask>, env: Env, results: Results, i: nat)
    requires Ran(plan, env, results) && i < |plan|
    ensures forall j :: 0 <= j < |plan| ==> plan[j].id in results
    ensures results[plan[i].id] == Final(env, plan[i], Blocked(plan[i], results))
  {
    ByIdIsClosed(plan);
    assert Settled(ById(plan), env, results, plan[i].id);
  }

  /** The least decision a task's result can force on the whole run. */
  function Floor(t: SubTask, r: Result): Decision {
    if !r.auditRecorded || (t.mandatory && !r.status.Completed?) then Block
    else if !r.status.Completed? then RequireApproval
    else r.decision
  }

  lemma FinalFacts(env: Env, t: SubTask, blocked: bool)
    ensures var r := Final(env, t, blocked);
            r.decision == Floor(t, r) && (!r.auditRecorded ==> r.decision.Block? && r.risk.CriticalRisk?)
  {
  }

  /** Each entry of the ordered results already carries its floor. */
  ghost predicate Floored(plan: seq<SubTask>, ordered: seq<Result>) {
    |ordered| == |plan| && forall i :: 0 <= i < |plan| ==>
      ordered[i].decision == Floor(plan[i], ordered[i])
      && (!ordered[i].auditRecorded ==> ordered[i].decision.Block? && ordered[i].risk.CriticalRisk?)
  }

  lemma RunIsFloored(plan: seq<SubTask>, env: Env, results: Results)
    requires Ran(plan, env, results)
    ensures forall j :: 0 <= j < |plan| ==> plan[j].id in results
    ensures Floored(plan, Ordered(plan, results))
  {
    EntryOf(plan, env, results, 0);
    forall i | 0 <= i < |plan|
      ensures var r := results[plan[i].id];
              r.decision == Floor(plan[i], r) && (!r.auditRecorded ==> r.decision.Block? && r.risk.CriticalRisk?)
    {
      EntryOf(plan, env, results, i);
      FinalFacts(env, plan[i], Blocked(plan[i], results));
    }
  }

  /** A task whose audit was not recorded is itself a blocking result, so the
      override for an incomplete audit never changes the decision or the risk. */
  lemma AuditOverrideIsRedundant(plan: seq<SubTask>, ordered: seq<Result>)
    requires |plan| > 0 && Floored(plan, ordered)
    ensures Summarize(ordered).decision == MaxDecision(ordered) && Summarize(ordered).risk == MaxRisk(ordered)
  {
    MaxDecisionIsLargest(ordered);
    MaxRiskIsLargest(ordered);
  }

  /** Fail-closed aggregation: a mandatory task that did not complete or an
      unrecorded audit blocks the run, any other incomplete task forces at least an
      approval, and the run's decision is the strictest of these. */
  lemma FailsClosed(plan: seq<SubTask>, env: Env, results: Results)
    requires Ran(plan, env, results)
    ensures forall j :: 0 <= j < |plan| ==> plan[j].id in results
    ensures var d := Outcome(plan, results).decision;
            && (forall i :: 0 <= i < |plan| ==> DecisionRank(Floor(plan[i], results[plan[i].id])) <= DecisionRank(d))
            && (exists i :: 0 <= i < |plan| && d == Floor(plan[i], results[plan[i].id]))
  {
    RunIsFloored(plan, env, results);
    var o := Ordered(plan, results);
    AuditOverrideIsRedundant(plan, o);
    MaxDecisionIsLargest(o);
    var k :| 0 <= k < |o| && o[k].decision == MaxDecision(o);
    assert o[k].decision == Floor(plan[k], results[plan[k].id]);
    forall i | 0 <= i < |plan| ensures DecisionRank(Floor(plan[i], results[plan[i].id])) <= DecisionRank(MaxDecision(o)) {
      assert o[i].decision == Floor(plan[i], o[i]);
    }
  }

  /** A run that is neither blocked nor pending approval completed and recorded
      every task, and no handler asked for more. */
  lemma PassingMeansComplete(plan: seq<SubTask>, env: Env, results: Results)
    requires Ran(plan, env, results)
    ensures forall j :: 0 <= j < |plan| ==> plan[j].id in results
    ensures (Outcome(plan, results).verdict.CompletedRun? || Outcome(plan, results).verdict.Masked?)
            <==> forall i :: 0 <= i < |plan| ==>
                   var r := results[plan[i].id];
                   r.status.Completed? && r.auditRecorded && DecisionRank(r.decision) <= DecisionRank(MaskAndAllow)
  {
    hide Ran;
    FailsClosed(plan, env, results);
    var d := Outcome(plan, results).decision;
    if DecisionRank(d) <= DecisionRank(MaskAndAllow) {
      forall i | 0 <= i < |plan|
        ensures var r := results[plan[i].id];
                r.status.Completed? && r.auditRecorded && DecisionRank(r.decision) <= DecisionRank(MaskAndAllow)
      {
        assert DecisionRank(Floor(plan[i], results[plan[i].id])) <= DecisionRank(d);
      }
    } else {
      var i :| 0 <= i < |plan| && d == Floor(plan[i], results[plan[i].id]);
      assert !(results[plan[i].id].status.Completed? && results[plan[i].id].auditRecorded
               && DecisionRank(results[plan[i].id].decision) <= DecisionRank(MaskAndAllow));
    }
  }

  // ----- Block propagation -----

  /** Every task of the path after the first respects a block, and every one
      between the ends is mandatory. */
  ghost predicate Carries(tasks: Tasks, path: seq<SubTaskId>) {
    && IsPath(tasks, path)
    && (forall i :: 0 < i < |path| ==> path[i] in tasks && !tasks[path[i]].alwaysRun)
    && (forall i :: 0 < i < |path| - 1 ==> path[i] in tasks && tasks[path[i]].mandatory)
  }

  lemma {:induction false} BlockTravels(tasks: Tasks, env: Env, results: Results, path: seq<SubTaskId>)
    requires Solves(tasks, env, results) && Carries(tasks, path) && |path| >= 2
    requires path[0] in results && results[path[0]].decision.Block?
    ensures var t := tasks[path[|path| - 1]];
            Stopped(t, Blocked(t, results)) && (t.mandatory ==> results[path[|path| - 1]].decision.Block?)
    decreases |path|
  {
    var n := |path| - 1;
    assert Edge(tasks, path[n - 1], path[n]);
    if |path| > 2 {
      var front := path[..n];
      forall i: nat | i + 1 < |front| ensures Edge(tasks, front[i], front[i + 1]) {
        assert Edge(tasks, path[i], path[i + 1]);
      }
      BlockTravels(tasks, env, results, front);
    }
    assert path[n - 1] in tasks[path[n]].predecessors && results[path[n - 1]].decision.Block?;
    assert Settled(tasks, env, results, path[n]);
  }

  /** In every finished run: from a blocked task, no handler is started for the
      end of a path that carries the block. */
  lemma NoHandlerAfterBlock(plan: E.Plan, env: Env, run: seq<E.State>, n: nat, path: seq<SubTaskId>)
    requires E.WellFormed(plan) && E.IsRun(plan, env, run) && n < |run| && E.Finished(plan, run[n])
    requires Carries(plan.tasks, path) && |path| >= 2
    requires path[0] in run[n].results && run[n].results[path[0]].decision.Block?
    ensures path[|path| - 1] !in run[n].started
  {
    E.RunOk(plan, env, run, n);
    E.FinishedSolves(plan, env, run[n]);
    BlockTravels(plan.tasks, env, run[n].results, path);
    E.HandlersStarted(plan, env, run, n, path[|path| - 1]);
  }

  /** A task marked always_run reaches its handler in every finished run, whatever
      was blocked before it; only a missing handler stops it. */
  lemma AlwaysRunTasksRun(plan: E.Plan, env: Env, run: seq<E.State>, n: nat, id: SubTaskId)
    requires E.WellFormed(plan) && E.IsRun(plan, env, run) && n < |run| && E.Finished(plan, run[n])
    requires id in plan.tasks && plan.tasks[id].alwaysRun
    ensures id in run[n].started <==> plan.tasks[id].agent in env.registered
  {
    E.HandlersStarted(plan, env, run, n, id);
  }

  /** The aggregate of a finished run of a plan is the aggregate of the sequential
      recursion: parallel and serial mode report the same decision and risk. */
  lemma AggregateIsScheduleFree(plan: seq<SubTask>, exec: E.Plan, env: Env, run: seq<E.State>, n: nat)
    requires |plan| > 0 && Validated(plan) && exec.tasks == ById(plan)
    requires E.WellFormed(exec) && E.IsRun(exec, env, run) && n < |run| && E.Finished(exec, run[n])
    ensures Ran(plan, env, run[n].results)
    ensures var sequential: Results := map id | id in exec.tasks :: Sequential(exec.tasks, env, exec.gens, id);
            && (forall j :: 0 <= j < |plan| ==> plan[j].id in run[n].results && plan[j].id in sequential)
            && Outcome(plan, run[n].results) == Outcome(plan, sequential)
  {
    E.EveryScheduleAgrees(exec, env, run, n);
    SequentialSolves(exec.tasks, env, exec.gens);
    EntryOf(plan, env, run[n].results, 0);
  }
}
