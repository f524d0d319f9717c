/** What a finished run reports, in terms of the handlers, the audit callback and the
    graph: every task's result, and the decision, risk and status of the run. */
module RouterOutcomes {
  import opened TaskContracts
  import opened RouterContracts
  import opened RouterLayering
  import opened RouterResults
  import E = RouterExecutor
  import A = RouterAggregation

  // ----- One task -----

  /** A blocked predecessor stops the task. */
  ghost predicate StoppedBy(t: SubTask, results: Results) {
    !t.alwaysRun && exists p :: p in t.predecessors && p in results && results[p].decision == Block
  }

  /** A result that refuses: a mandatory task blocks, any other asks for an approval. */
  ghost predicate Refuses(t: SubTask, r: Result, status: ResultStatus, error: string, risk: Risk) {
    && r.status == status && r.error == Some(error) && r.output == ""
    && r.decision == (if t.mandatory then Block else RequireApproval)
    && r.risk == if t.mandatory then risk else MediumRisk
  }

  /** What is put before the audit callback. */
  ghost predicate Drafted(env: Env, t: SubTask, stopped: bool, r: Result) {
    && r.id == t.id && r.agent == t.agent && !r.auditRecorded
    && if stopped then Refuses(t, r, Skipped, "blocked_predecessor", HighRisk)
       else if t.agent !in env.registered then Refuses(t, r, FailedResult, "handler_not_registered", CriticalRisk)
       else
         match env.handler(t)
         case Returned(decision, risk, output) =>
           r.status == Completed && r.decision == decision && r.risk == risk && r.output == output && r.error == None
         case OutOfTime => Refuses(t, r, TimedOut, "subagent_timeout", CriticalRisk)
         case Raised(name) => Refuses(t, r, FailedResult, "subagent_error:" + name, CriticalRisk)
  }

  /** A recorded draft is the result; one whose audit raised fails and blocks. */
  ghost predicate Reported(env: Env, draft: Result, r: Result) {
    match env.auditor(draft)
    case None => r == draft.(auditRecorded := true)
    case Some(name) =>
      r == Result(draft.id, draft.agent, FailedResult, Block, CriticalRisk, draft.output, Some("audit_error:" + name), false)
  }

  /** In every finished run each task's handler was started exactly when it is
      registered and no blocked predecessor stopped it, and the task's result is what
      the handler returned, or a refusal, as the audit callback let it stand. */
  lemma TaskReports(plan: E.Plan, env: Env, run: seq<E.State>, n: nat, id: SubTaskId) returns (draft: Result)
    requires E.WellFormed(plan) && E.IsRun(plan, env, run) && n < |run| && E.Finished(plan, run[n]) && id in plan.tasks
    ensures var t, results := plan.tasks[id], run[n].results;
            && id in results && (id in run[n].started <==> t.agent in env.registered && !StoppedBy(t, results))
            && Drafted(env, t, StoppedBy(t, results), draft) && Reported(env, draft, results[id])
  {
    E.RunOk(plan, env, run, n);
    E.FinishedSolves(plan, env, run[n]);
    E.HandlersStarted(plan, env, run, n, id);
    assert Settled(plan.tasks, env, run[n].results, id);
    draft := Draft(env, plan.tasks[id], Blocked(plan.tasks[id], run[n].results));
  }

  /** An outcome a started handler returned stands exactly, if its audit was recorded. */
  lemma ReturnedOutcomeStands(plan: E.Plan, env: Env, run: seq<E.State>, n: nat, id: SubTaskId,
                              decision: Decision, risk: Risk, output: string)
    requires E.WellFormed(plan) && E.IsRun(plan, env, run) && n < |run| && E.Finished(plan, run[n]) && id in plan.tasks
    requires id in run[n].started && env.handler(plan.tasks[id]) == Returned(decision, risk, output)
    requires env.auditor(Result(plan.tasks[id].id, plan.tasks[id].agent, Completed, decision, risk, output, None, false)).None?
    ensures id in run[n].results
    ensures var r := run[n].results[id];
            r.status == Completed && r.decision == decision && r.risk == risk && r.output == output && r.error == None && r.auditRecorded
  {
    var draft := TaskReports(plan, env, run, n, id);
    assert draft == Result(plan.tasks[id].id, plan.tasks[id].agent, Completed, decision, risk, output, None, false);
  }

  // ----- The whole run -----

  /** The decision and the risk a task brings to the run. */
  ghost predicate Brings(env: Env, t: SubTask, results: Results, d: Decision, k: Risk) {
    exists draft :: Drafted(env, t, StoppedBy(t, results), draft)
      && if env.auditor(draft).None? then d == draft.decision && k == draft.risk else d == Block && k == CriticalRisk
  }

  /** `plan` was executed to its end. */
  ghost predicate Executed(plan: seq<SubTask>, exec: E.Plan, env: Env, run: seq<E.State>, n: nat) {
    && |plan| > 0 && Validated(plan) && exec.tasks == ById(plan)
    && E.WellFormed(exec) && E.IsRun(exec, env, run) && n < |run| && E.Finished(exec, run[n])
  }

  /** Each task brings exactly the decision and the risk of its result. */
  lemma BringsItsResult(plan: seq<SubTask>, exec: E.Plan, env: Env, run: seq<E.State>, n: nat, i: nat)
    requires Executed(plan, exec, env, run, n) && i < |plan|
    ensures plan[i].id in run[n].results
    ensures forall d, k :: Brings(env, plan[i], run[n].results, d, k)
              <==> d == run[n].results[plan[i].id].decision && k == run[n].results[plan[i].id].risk
  {
    ByIdIsClosed(plan);
    var results := run[n].results;
    var draft := TaskReports(exec, env, run, n, plan[i].id);
    forall d, k ensures Brings(env, plan[i], results, d, k)
                        <==> d == results[plan[i].id].decision && k == results[plan[i].id].risk
    {
      forall other | Drafted(env, plan[i], StoppedBy(plan[i], results), other) ensures other == draft {
        SameDraft(env, plan[i], StoppedBy(plan[i], results), draft, other);
      }
    }
  }

  lemma SameDraft(env: Env, t: SubTask, stopped: bool, a: Result, b: Result)
    requires Drafted(env, t, stopped, a) && Drafted(env, t, stopped, b)
    ensures a == b
  {
  }

  /** The largest decision and risk among the results, and the status. */
  ghost predicate Largest(plan: seq<SubTask>, results: Results, out: A.Summary)
    requires forall j :: 0 <= j < |plan| ==> plan[j].id in results
  {
    && (forall i :: 0 <= i < |plan| ==>
          DecisionRank(results[plan[i].id].decision) <= DecisionRank(out.decision)
          && RiskRank(results[plan[i].id].risk) <= RiskRank(out.risk))
    && (exists i :: 0 <= i < |plan| && results[plan[i].id].decision == out.decision)
    && (exists i :: 0 <= i < |plan| && results[plan[i].id].risk == out.risk)
  }

  lemma OutcomeIsLargest(plan: seq<SubTask>, env: Env, results: Results)
    requires A.Ran(plan, env, results)
    ensures forall j :: 0 <= j < |plan| ==> plan[j].id in results
    ensures Largest(plan, results, A.Outcome(plan, results))
  {
    A.RunIsFloored(plan, env, results);
    hide A.Ran;
    var o := A.Ordered(plan, results);
    var i, j := SummaryIsLargest(plan, o);
    hide A.Floored, A.Summarize;
    assert results[plan[i].id] == o[i] && results[plan[j].id] == o[j];
    forall k | 0 <= k < |plan| ensures results[plan[k].id] == o[k] { }
  }

  lemma SummaryIsLargest(plan: seq<SubTask>, o: seq<Result>) returns (i: nat, j: nat)
    requires |plan| > 0 && A.Floored(plan, o)
    ensures var out := A.Summarize(o);
            && (forall k :: 0 <= k < |o| ==>
                  DecisionRank(o[k].decision) <= DecisionRank(out.decision) && RiskRank(o[k].risk) <= RiskRank(out.risk))
            && i < |o| && o[i].decision == out.decision && j < |o| && o[j].risk == out.risk
  {
    A.AuditOverrideIsRedundant(plan, o);
    A.MaxDecisionIsLargest(o);
    A.MaxRiskIsLargest(o);
    hide A.Floored, A.MaxDecision, A.MaxRisk, A.Summarize;
    i :| i < |o| && o[i].decision == A.MaxDecision(o);
    j :| j < |o| && o[j].risk == A.MaxRisk(o);
  }

  lemma StatusFollows(ordered: seq<Result>)
    requires |ordered| > 0
    ensures var out := A.Summarize(ordered);
            && (out.verdict.BlockedRun? <==> out.decision == Block)
            && (out.verdict.PendingApproval? <==> out.decision == RequireApproval)
            && (out.verdict.Masked? <==> out.decision == MaskAndAllow)
            && (out.verdict.CompletedRun? <==> out.decision in {Allow, AllowWithLog})
  {
  }

  /** The decision is the strictest and the risk the highest that the tasks bring. */
  ghost predicate Decides(plan: seq<SubTask>, env: Env, results: Results, out: A.Summary) {
    && (forall i, d, k :: 0 <= i < |plan| && Brings(env, plan[i], results, d, k) ==>
          DecisionRank(d) <= DecisionRank(out.decision) && RiskRank(k) <= RiskRank(out.risk))
    && (exists i, k :: 0 <= i < |plan| && Brings(env, plan[i], results, out.decision, k))
    && (exists i, d :: 0 <= i < |plan| && Brings(env, plan[i], results, d, out.risk))
  }

  /** The decision and risk of a run are the largest that its tasks bring, and the
      status follows from the decision. */
  lemma RunDecides(plan: seq<SubTask>, exec: E.Plan, env: Env, run: seq<E.State>, n: nat)
    requires Executed(plan, exec, env, run, n)
    ensures forall j :: 0 <= j < |plan| ==> plan[j].id in run[n].results
    ensures var out := A.Outcome(plan, run[n].results);
            && Decides(plan, env, run[n].results, out)
            && (out.verdict.BlockedRun? <==> out.decision == Block)
            && (out.verdict.PendingApproval? <==> out.decision == RequireApproval)
            && (out.verdict.Masked? <==> out.decision == MaskAndAllow)
            && (out.verdict.CompletedRun? <==> out.decision in {Allow, AllowWithLog})
  {
    ExecutedRan(plan, exec, env, run, n);
    hide Brings, Executed, Largest, Decides, A.Ran;
    var results := run[n].results;
    OutcomeIsLargest(plan, env, results);
    StatusFollows(A.Ordered(plan, results));
    forall i: nat | i < |plan|
      ensures forall d, k :: Brings(env, plan[i], results, d, k)
                <==> d == results[plan[i].id].decision && k == results[plan[i].id].risk
    {
      BringsItsResult(plan, exec, env, run, n, i);
    }
    LargestIsBrought(plan, env, results, A.Outcome(plan, results));
  }

  lemma ExecutedRan(plan: seq<SubTask>, exec: E.Plan, env: Env, run: seq<E.State>, n: nat)
    requires Executed(plan, exec, env, run, n)
    ensures n < |run| && A.Ran(plan, env, run[n].results)
  {
    A.AggregateIsScheduleFree(plan, exec, env, run, n);
  }

  lemma LargestIsBrought(plan: seq<SubTask>, env: Env, results: Results, out: A.Summary)
    requires (forall j :: 0 <= j < |plan| ==> plan[j].id in results) && Largest(plan, results, out)
    requires forall i, d, k :: 0 <= i < |plan| ==>
               (Brings(env, plan[i], results, d, k) <==> d == results[plan[i].id].decision && k == results[plan[i].id].risk)
    ensures Decides(plan, env, results, out)
  {
    hide Brings;
    var i :| 0 <= i < |plan| && results[plan[i].id].decision == out.decision;
    var j :| 0 <= j < |plan| && results[plan[j].id].risk == out.risk;
    assert Brings(env, plan[i], results, out.decision, results[plan[i].id].risk);
    assert Brings(env, plan[j], results, results[plan[j].id].decision, out.risk);
  }

  /** A handler that returns BLOCK blocks the run, audited or not. */
  lemma ABlockingHandlerBlocks(plan: seq<SubTask>, exec: E.Plan, env: Env, run: seq<E.State>, n: nat, i: nat)
    requires Executed(plan, exec, env, run, n) && i < |plan| && plan[i].id in run[n].started
    requires env.handler(plan[i]).Returned? && env.handler(plan[i]).decision == Block
    ensures forall j :: 0 <= j < |plan| ==> plan[j].id in run[n].results
    ensures A.Outcome(plan, run[n].results).verdict.BlockedRun? && A.Outcome(plan, run[n].results).decision == Block
  {
    ByIdIsClosed(plan);
    ExecutedRan(plan, exec, env, run, n);
    OutcomeIsLargest(plan, env, run[n].results);
    StatusFollows(A.Ordered(plan, run[n].results));
    var draft := TaskReports(exec, env, run, n, plan[i].id);
    hide A.Outcome;
    assert run[n].results[plan[i].id].decision == Block;
  }

  /** The task's handler was started, returned an outcome no stricter than `limit`,
      and the audit of that outcome was recorded. */
  ghost predicate Passes(env: Env, t: SubTask, started: bool, limit: Decision) {
    started && env.handler(t).Returned? && DecisionRank(env.handler(t).decision) <= DecisionRank(limit)
    && var h := env.handler(t);
       env.auditor(Result(t.id, t.agent, Completed, h.decision, h.risk, h.output, None, false)).None?
  }

  /** A run passes unmasked if and only if every handler was started, allowed its task
      and was audited; it passes at all if and only if none of them asked for more
      than masking. */
  lemma PassingMeansHandlersAllowed(plan: seq<SubTask>, exec: E.Plan, env: Env, run: seq<E.State>, n: nat)
    requires Executed(plan, exec, env, run, n)
    ensures forall j :: 0 <= j < |plan| ==> plan[j].id in run[n].results
    ensures A.Outcome(plan, run[n].results).verdict.CompletedRun?
            <==> forall i :: 0 <= i < |plan| ==> Passes(env, plan[i], plan[i].id in run[n].started, AllowWithLog)
    ensures A.Outcome(plan, run[n].results).verdict in {A.CompletedRun, A.Masked}
            <==> forall i :: 0 <= i < |plan| ==> Passes(env, plan[i], plan[i].id in run[n].started, MaskAndAllow)
  {
    hide Passes;
    WithinMeansAllPass(plan, exec, env, run, n, AllowWithLog);
    WithinMeansAllPass(plan, exec, env, run, n, MaskAndAllow);
    StatusFollows(A.Ordered(plan, run[n].results));
  }

  lemma WithinMeansAllPass(plan: seq<SubTask>, exec: E.Plan, env: Env, run: seq<E.State>, n: nat, limit: Decision)
    requires Executed(plan, exec, env, run, n) && limit in {AllowWithLog, MaskAndAllow}
    ensures forall j :: 0 <= j < |plan| ==> plan[j].id in run[n].results
    ensures DecisionRank(A.Outcome(plan, run[n].results).decision) <= DecisionRank(limit)
            <==> forall i :: 0 <= i < |plan| ==> Passes(env, plan[i], plan[i].id in run[n].started, limit)
  {
    ExecutedRan(plan, exec, env, run, n);
    hide Executed, Passes, Largest, A.Ran, A.Outcome, DecisionRank;
    var results := run[n].results;
    OutcomeIsLargest(plan, env, results);
    forall i: nat | i < |plan|
      ensures DecisionRank(results[plan[i].id].decision) <= DecisionRank(limit)
              <==> Passes(env, plan[i], plan[i].id in run[n].started, limit)
    {
      PassesItself(plan, exec, env, run, n, i, limit);
    }
    LargestWithin(plan, results, A.Outcome(plan, results), limit);
  }

  lemma LargestWithin(plan: seq<SubTask>, results: Results, out: A.Summary, limit: Decision)
    requires (forall j :: 0 <= j < |plan| ==> plan[j].id in results) && Largest(plan, results, out)
    ensures DecisionRank(out.decision) <= DecisionRank(limit)
            <==> forall i :: 0 <= i < |plan| ==> DecisionRank(results[plan[i].id].decision) <= DecisionRank(limit)
  {
  }

  lemma PassesItself(plan: seq<SubTask>, exec: E.Plan, env: Env, run: seq<E.State>, n: nat, i: nat, limit: Decision)
    requires Executed(plan, exec, env, run, n) && i < |plan| && limit in {AllowWithLog, MaskAndAllow}
    ensures plan[i].id in run[n].results
    ensures DecisionRank(run[n].results[plan[i].id].decision) <= DecisionRank(limit)
            <==> Passes(env, plan[i], plan[i].id in run[n].started, limit)
  {
    ByIdIsClosed(plan);
    var t := plan[i];
    var draft := TaskReports(exec, env, run, n, t.id);
    if t.id in run[n].started && env.handler(t).Returned? {
      var h := env.handler(t);
      assert draft == Result(t.id, t.agent, Completed, h.decision, h.risk, h.output, None, false);
    }
  }
}
