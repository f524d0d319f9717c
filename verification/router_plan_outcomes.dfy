/** What the planner's choices mean: which agents a plan holds and in what order, and
    what it costs a run when one of them does not deliver. */
module RouterPlanOutcomes {
  import opened TaskContracts
  import opened RouterContracts
  import opened RouterLayering
  import opened RouterResults
  import opened RouterPlanner
  import opened RouterOutcomes
  import E = RouterExecutor
  import A = RouterAggregation

  const TOOL_RISK := "agent.tool_risk_agent"
  const COMPLIANCE := "agent.compliance_agent"
  const SKILL_SCAN := "agent.skill_scan_agent"
  const DOCUMENT_RISK := "agent.document_risk_agent"
  const GOV_RAG := "agent.gov_rag_agent"

  /** The names differ in length or in their seventh letter. */
  lemma NamesDiffer()
    ensures |AUDIT| == 17 && |GOV_RAG| == 19 && |TOOL_RISK| == 21 && |COMPLIANCE| == 22 && |SKILL_SCAN| == 22
            && |DOCUMENT_RISK| == 25 && COMPLIANCE[6] == 'c' && SKILL_SCAN[6] == 's'
  {
  }

  /** The agents a plan may hold besides the audit; all but the retrieval agent must
      deliver. */
  lemma KnownAgents(agent: string)
    ensures agent in BEHAVIOR && agent != AUDIT <==> agent in {TOOL_RISK, COMPLIANCE, SKILL_SCAN, DOCUMENT_RISK, GOV_RAG}
    ensures agent in {TOOL_RISK, COMPLIANCE, SKILL_SCAN, DOCUMENT_RISK} ==> agent in BEHAVIOR && BEHAVIOR[agent].mandatory
    ensures agent == GOV_RAG ==> agent in BEHAVIOR && !BEHAVIOR[agent].mandatory
  {
    NamesDiffer();
  }

  // ----- The order of the agents -----

  /** Risk and supply-chain agents before compliance before retrieval. */
  ghost function Urgency(agent: string): nat {
    if agent in {TOOL_RISK, SKILL_SCAN, DOCUMENT_RISK} then 0 else if agent == COMPLIANCE then 1 else 2
  }

  /** Dictionary order: the shorter one first if it begins the other, else by the first
      letter in which they differ. */
  ghost predicate InDictionaryOrder(a: string, b: string) {
    a <= b || exists k: nat :: k < |a| && k < |b| && a[..k] == b[..k] && a[k] < b[k]
  }

  lemma {:induction false} TextIsDictionaryOrder(a: string, b: string)
    ensures TextLeq(a, b) <==> InDictionaryOrder(a, b)
  {
    if |a| == 0 {
      assert a <= b;
    } else if |b| > 0 {
      if a[0] < b[0] {
        assert a[..0] == b[..0];
      } else if a[0] == b[0] {
        TextIsDictionaryOrder(a[1..], b[1..]);
        Shifted(a, b);
      } else {
        forall k: nat | 0 < k < |a| && k < |b| ensures a[..k] != b[..k] { assert a[..k][0] != b[..k][0]; }
      }
    }
  }

  lemma Shifted(a: string, b: string)
    requires |a| > 0 && |b| > 0 && a[0] == b[0]
    ensures InDictionaryOrder(a, b) <==> InDictionaryOrder(a[1..], b[1..])
  {
    assert a == [a[0]] + a[1..] && b == [b[0]] + b[1..];
    forall k: nat | 0 < k < |a| && k < |b| ensures a[..k] == b[..k] <==> a[1..][..k - 1] == b[1..][..k - 1] {
      assert a[..k] == [a[0]] + a[1..][..k - 1] && b[..k] == [b[0]] + b[1..][..k - 1];
    }
    if InDictionaryOrder(a, b) && !(a <= b) {
      var k: nat :| k < |a| && k < |b| && a[..k] == b[..k] && a[k] < b[k];
      assert k > 0;
      assert a[1..][k - 1] < b[1..][k - 1];
    }
    if InDictionaryOrder(a[1..], b[1..]) && !(a[1..] <= b[1..]) {
      var k: nat :| k < |a[1..]| && k < |b[1..]| && a[1..][..k] == b[1..][..k] && a[1..][k] < b[1..][k];
      assert a[k + 1] < b[k + 1] && a[..k + 1] == b[..k + 1];
    }
  }

  lemma OrderMeans(a: string, b: string)
    requires {a, b} <= {TOOL_RISK, COMPLIANCE, SKILL_SCAN, DOCUMENT_RISK, GOV_RAG}
    ensures Precedes(a, b) <==> Urgency(a) < Urgency(b) || (Urgency(a) == Urgency(b) && InDictionaryOrder(a, b))
  {
    UrgencyIsRank(a);
    UrgencyIsRank(b);
    TextIsDictionaryOrder(a, b);
  }

  lemma UrgencyIsRank(agent: string)
    requires agent in {TOOL_RISK, COMPLIANCE, SKILL_SCAN, DOCUMENT_RISK, GOV_RAG}
    ensures KeyRank(agent) == Urgency(agent)
  {
    NamesDiffer();
  }

  /** The plan the service builds for the agents it found. */
  ghost predicate IsPlanFor(candidates: seq<string>, maxSubAgents: nat, trace: string, tasks: seq<SubTask>) {
    maxSubAgents >= 2
    && IsFanIn(trace, tasks, Selected(candidates, maxSubAgents), Reserves(candidates) || Selected(candidates, maxSubAgents) == [])
  }

  lemma SelectedIsKnown(candidates: seq<string>, maxSubAgents: nat, i: nat)
    requires maxSubAgents >= 2 && i < |Selected(candidates, maxSubAgents)|
    ensures var agent := Selected(candidates, maxSubAgents)[i];
            agent in candidates && agent in {TOOL_RISK, COMPLIANCE, SKILL_SCAN, DOCUMENT_RISK, GOV_RAG}
  {
    hide Selected, Analysts, Sort;
    var agents := Selected(candidates, maxSubAgents);
    SelectedIsAnalyst(candidates, maxSubAgents, i);
    KnownAgents(agents[i]);
    SelectionIsTop(candidates, maxSubAgents);
    assert agents[i] in multiset(agents);
    assert agents[i] in multiset(Analysts(candidates));
  }

  /** Every analysis task of a plan is for a known agent that was found, waits for
      nothing, can be stopped, and is mandatory but for the retrieval agent. */
  lemma PlanHolds(candidates: seq<string>, maxSubAgents: nat, trace: string, tasks: seq<SubTask>, i: nat)
    requires IsPlanFor(candidates, maxSubAgents, trace, tasks) && i < |Selected(candidates, maxSubAgents)|
    ensures i < |tasks|
    ensures var t := tasks[i];
            && t.agent == Selected(candidates, maxSubAgents)[i]
            && t.agent in candidates && t.agent in {TOOL_RISK, COMPLIANCE, SKILL_SCAN, DOCUMENT_RISK, GOV_RAG}
            && t.id == SubTaskId(trace, t.agent, i + 1) && t.predecessors == [] && !t.alwaysRun
            && (t.mandatory <==> t.agent != GOV_RAG)
  {
    SelectedIsKnown(candidates, maxSubAgents, i);
    hide Selected;
    KnownAgents(Selected(candidates, maxSubAgents)[i]);
  }

  /** They stand in the order of urgency, and of name where that is equal. */
  lemma PlanIsOrdered(candidates: seq<string>, maxSubAgents: nat, trace: string, tasks: seq<SubTask>, i: nat, j: nat)
    requires IsPlanFor(candidates, maxSubAgents, trace, tasks) && i < j < |Selected(candidates, maxSubAgents)|
    ensures j < |tasks|
    ensures var a, b := tasks[i].agent, tasks[j].agent;
            Urgency(a) < Urgency(b) || (Urgency(a) == Urgency(b) && InDictionaryOrder(a, b))
  {
    PlanHolds(candidates, maxSubAgents, trace, tasks, i);
    PlanHolds(candidates, maxSubAgents, trace, tasks, j);
    SelectionIsTop(candidates, maxSubAgents);
    hide Selected, Precedes, IsPlanFor;
    OrderMeans(tasks[i].agent, tasks[j].agent);
  }

  /** An agent is left out only for want of room: it was found as often as it is
      planned, or the plan is full, and then nothing planned comes after it. */
  lemma LeftOutForRoom(candidates: seq<string>, maxSubAgents: nat, x: string)
    requires maxSubAgents >= 2 && x in {TOOL_RISK, COMPLIANCE, SKILL_SCAN, DOCUMENT_RISK, GOV_RAG}
    ensures var chosen := Selected(candidates, maxSubAgents);
            var room := maxSubAgents - if AUDIT in candidates then 1 else 0;
            && multiset(chosen)[x] <= multiset(candidates)[x] && |chosen| <= room
            && (multiset(chosen)[x] < multiset(candidates)[x] ==>
                  |chosen| == room && forall i :: 0 <= i < |chosen| ==>
                    Urgency(chosen[i]) < Urgency(x) || (Urgency(chosen[i]) == Urgency(x) && InDictionaryOrder(chosen[i], x)))
  {
    hide Selected, Analysts, Precedes, Urgency, InDictionaryOrder;
    var chosen := Selected(candidates, maxSubAgents);
    SelectionIsTop(candidates, maxSubAgents);
    AnalystsAreCounted(candidates, x);
    KnownAgents(x);
    if multiset(chosen)[x] < multiset(candidates)[x] {
      assert x in multiset(Analysts(candidates)) - multiset(chosen);
      forall i: nat | i < |chosen|
        ensures Urgency(chosen[i]) < Urgency(x) || (Urgency(chosen[i]) == Urgency(x) && InDictionaryOrder(chosen[i], x))
      {
        SelectedIsKnown(candidates, maxSubAgents, i);
        OrderMeans(chosen[i], x);
      }
    }
  }

  /** The audit is planned exactly when it was found or no known agent was. */
  lemma AuditIsPlanned(candidates: seq<string>, maxSubAgents: nat, trace: string, tasks: seq<SubTask>)
    requires IsPlanFor(candidates, maxSubAgents, trace, tasks)
    ensures (exists i :: 0 <= i < |tasks| && tasks[i].agent == AUDIT)
            <==> AUDIT in candidates
                 || forall x :: x in candidates ==> x !in {TOOL_RISK, COMPLIANCE, SKILL_SCAN, DOCUMENT_RISK, GOV_RAG}
  {
    var agents := Selected(candidates, maxSubAgents);
    NothingSelected(candidates, maxSubAgents);
    var audited := Reserves(candidates) || agents == [];
    hide Selected;
    if audited {
      assert tasks[|agents|].agent == AUDIT;
    } else {
      forall i: nat | i < |tasks| ensures tasks[i].agent != AUDIT {
        SelectedIsAnalyst(candidates, maxSubAgents, i);
        assert tasks[i].agent == agents[i];
      }
    }
  }

  lemma NothingSelected(candidates: seq<string>, maxSubAgents: nat)
    requires maxSubAgents >= 2
    ensures Selected(candidates, maxSubAgents) == []
            <==> forall x :: x in candidates ==> x !in {TOOL_RISK, COMPLIANCE, SKILL_SCAN, DOCUMENT_RISK, GOV_RAG}
  {
    hide Selected, Analysts, Precedes;
    var agents := Selected(candidates, maxSubAgents);
    if agents != [] { SelectedIsKnown(candidates, maxSubAgents, 0); }
    forall x | x in candidates && x in {TOOL_RISK, COMPLIANCE, SKILL_SCAN, DOCUMENT_RISK, GOV_RAG} ensures agents != [] {
      LeftOutForRoom(candidates, maxSubAgents, x);
      assert x in multiset(candidates);
    }
  }

  // ----- What an agent that does not deliver costs -----

  /** The handler of the agent is registered and returned an outcome. */
  ghost predicate Delivers(env: Env, t: SubTask) {
    t.agent in env.registered && env.handler(t).Returned?
  }

  /** A task that does not deliver refuses: it blocks if it is mandatory, and asks for
      an approval, or more, if it is not. */
  lemma UndeliveredRefuses(exec: E.Plan, env: Env, run: seq<E.State>, n: nat, id: SubTaskId)
    requires E.WellFormed(exec) && E.IsRun(exec, env, run) && n < |run| && E.Finished(exec, run[n])
    requires id in exec.tasks && !Delivers(env, exec.tasks[id])
    ensures id in run[n].results
    ensures DecisionRank(run[n].results[id].decision) >= DecisionRank(if exec.tasks[id].mandatory then Block else RequireApproval)
  {
    var draft := TaskReports(exec, env, run, n, id);
  }

  /** When a risk, supply-chain or compliance agent of the plan does not deliver, the
      run is blocked; when the retrieval agent does not, it needs an approval. */
  lemma AgentsFailClosed(candidates: seq<string>, maxSubAgents: nat, trace: string, tasks: seq<SubTask>,
                         exec: E.Plan, env: Env, run: seq<E.State>, n: nat, i: nat)
    requires IsPlanFor(candidates, maxSubAgents, trace, tasks) && i < |Selected(candidates, maxSubAgents)|
    requires Executed(tasks, exec, env, run, n) && i < |tasks| && !Delivers(env, tasks[i])
    ensures forall j :: 0 <= j < |tasks| ==> tasks[j].id in run[n].results
    ensures var out := A.Outcome(tasks, run[n].results);
            if tasks[i].agent == GOV_RAG then out.verdict in {A.PendingApproval, A.BlockedRun} else out.verdict == A.BlockedRun
  {
    hide Executed, IsPlanFor, Delivers, Selected, A.Outcome;
    PlanHolds(candidates, maxSubAgents, trace, tasks, i);
    RunIsNoMilder(tasks, exec, env, run, n, i);
  }

  /** The run's verdict is no milder than what an undelivered task asks for. */
  lemma RunIsNoMilder(tasks: seq<SubTask>, exec: E.Plan, env: Env, run: seq<E.State>, n: nat, i: nat)
    requires Executed(tasks, exec, env, run, n) && i < |tasks| && !Delivers(env, tasks[i])
    ensures forall j :: 0 <= j < |tasks| ==> tasks[j].id in run[n].results
    ensures var out := A.Outcome(tasks, run[n].results);
            if tasks[i].mandatory then out.verdict == A.BlockedRun else out.verdict in {A.PendingApproval, A.BlockedRun}
  {
    TaskOfPlan(tasks, exec, env, run, n, i);
    UndeliveredRefuses(exec, env, run, n, tasks[i].id);
    ExecutedRan(tasks, exec, env, run, n);
    hide Executed, A.Ran, Delivers;
    OutcomeIsLargest(tasks, env, run[n].results);
    StatusFollows(A.Ordered(tasks, run[n].results));
    hide A.Summarize, A.Ordered;
  }

  lemma TaskOfPlan(tasks: seq<SubTask>, exec: E.Plan, env: Env, run: seq<E.State>, n: nat, i: nat)
    requires Executed(tasks, exec, env, run, n) && i < |tasks|
    ensures E.WellFormed(exec) && E.IsRun(exec, env, run) && n < |run| && E.Finished(exec, run[n])
    ensures tasks[i].id in exec.tasks && exec.tasks[tasks[i].id] == tasks[i]
  {
    ByIdIsClosed(tasks);
  }
}
