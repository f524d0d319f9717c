/** `SafeRouterService.plan`: selection of the sub-agents and construction of the
    audit fan-in.  The capability search is an input: the list of agents it found. */
module RouterPlanner {
  import opened TaskContracts
  import opened RouterContracts
  import opened RouterLayering

  datatype Behavior = Behavior(priority: Priority, mandatory: bool, alwaysRun: bool)

  const AUDIT := "agent.audit_agent"

  const BEHAVIOR: map<string, Behavior> := map[
    "agent.tool_risk_agent" := Behavior(Critical, true, false),
    "agent.compliance_agent" := Behavior(High, true, false),
    "agent.skill_scan_agent" := Behavior(Critical, true, false),
    "agent.document_risk_agent" := Behavior(Critical, true, false),
    "agent.gov_rag_agent" := Behavior(Medium, false, false),
    AUDIT := Behavior(Critical, true, true)]

  lemma OnlyAuditAlwaysRuns(agent: string)
    ensures AUDIT in BEHAVIOR
    ensures agent in BEHAVIOR ==> (BEHAVIOR[agent].alwaysRun <==> agent == AUDIT)
  {
    assert |AUDIT| == 17;
    assert |"agent.tool_risk_agent"| == 21;
    assert |"agent.compliance_agent"| == 22;
    assert |"agent.skill_scan_agent"| == 22;
    assert |"agent.document_risk_agent"| == 25;
    assert |"agent.gov_rag_agent"| == 19;
  }

  // ----- The sort key (priority rank, agent id) -----

  predicate TextLeq(a: string, b: string) {
    |a| == 0 || (|b| > 0 && (a[0] < b[0] || (a[0] == b[0] && TextLeq(a[1..], b[1..]))))
  }

  lemma {:induction false} TextLeqTotal(a: string, b: string)
    ensures TextLeq(a, b) || TextLeq(b, a)
    ensures TextLeq(a, b) && TextLeq(b, a) ==> a == b
  {
    if |a| > 0 && |b| > 0 && a[0] == b[0] {
      TextLeqTotal(a[1..], b[1..]);
      assert a == [a[0]] + a[1..] && b == [b[0]] + b[1..];
    }
  }

  lemma {:induction false} TextLeqTransitive(a: string, b: string, c: string)
    requires TextLeq(a, b) && TextLeq(b, c)
    ensures TextLeq(a, c)
  {
    if |a| > 0 && a[0] == b[0] == c[0] { TextLeqTransitive(a[1..], b[1..], c[1..]); }
  }

  function KeyRank(agent: string): nat {
    if agent in BEHAVIOR then Rank(BEHAVIOR[agent].priority) else 0
  }

  predicate Precedes(a: string, b: string) {
    KeyRank(a) < KeyRank(b) || (KeyRank(a) == KeyRank(b) && TextLeq(a, b))
  }

  lemma PrecedesTotal(a: string, b: string)
    ensures Precedes(a, b) || Precedes(b, a)
  {
    TextLeqTotal(a, b);
  }

  lemma PrecedesTransitive(a: string, b: string, c: string)
    requires Precedes(a, b) && Precedes(b, c)
    ensures Precedes(a, c)
  {
    if KeyRank(a) == KeyRank(b) == KeyRank(c) { TextLeqTransitive(a, b, c); }
  }

  predicate InOrder(agents: seq<string>) {
    forall i, j :: 0 <= i < j < |agents| ==> Precedes(agents[i], agents[j])
  }

  function Insert(agent: string, agents: seq<string>): (r: seq<string>)
    requires InOrder(agents)
    ensures InOrder(r) && multiset(r) == multiset(agents) + multiset{agent}
  {
    if |agents| == 0 then [agent]
    else if Precedes(agent, agents[0]) then
      FirstStays(agent, agents);
      assert [agent] + agents == [agent] + agents[..];
      [agent] + agents
    else
      PrecedesTotal(agent, agents[0]);
      assert agents == [agents[0]] + agents[1..];
      var rest := Insert(agent, agents[1..]);
      HeadStays(agents[0], agents[1..], agent, rest);
      [agents[0]] + rest
  }

  lemma FirstStays(agent: string, agents: seq<string>)
    requires InOrder(agents) && |agents| > 0 && Precedes(agent, agents[0])
    ensures InOrder([agent] + agents)
  {
    forall j | 0 <= j < |agents| ensures Precedes(agent, agents[j]) {
      if j > 0 { PrecedesTransitive(agent, agents[0], agents[j]); }
    }
  }

  lemma HeadStays(head: string, tail: seq<string>, agent: string, rest: seq<string>)
    requires InOrder([head] + tail) && Precedes(head, agent) && InOrder(rest)
    requires multiset(rest) == multiset(tail) + multiset{agent}
    ensures InOrder([head] + rest)
  {
    forall j | 0 <= j < |rest| ensures Precedes(head, rest[j]) {
      assert rest[j] in multiset(rest);
      if rest[j] != agent {
        assert rest[j] in multiset(tail);
        var k :| 0 <= k < |tail| && tail[k] == rest[j];
        assert ([head] + tail)[0] == head && ([head] + tail)[k + 1] == tail[k];
      }
    }
  }

  /** `sorted(..., key=...)`. */
  function Sort(agents: seq<string>): (r: seq<string>)
    ensures InOrder(r) && multiset(r) == multiset(agents)
  {
    if |agents| == 0 then []
    else
      assert agents == agents[..|agents| - 1] + [agents[|agents| - 1]];
      Insert(agents[|agents| - 1], Sort(agents[..|agents| - 1]))
  }

  // ----- Selection -----

  function Analysts(candidates: seq<string>): (r: seq<string>)
    ensures forall x :: x in r <==> x in candidates && x in BEHAVIOR && x != AUDIT
  {
    if |candidates| == 0 then []
    else
      var last := candidates[|candidates| - 1];
      assert candidates == candidates[..|candidates| - 1] + [last];
      Analysts(candidates[..|candidates| - 1]) + if last in BEHAVIOR && last != AUDIT then [last] else []
  }

  /** No candidate is lost or doubled. */
  lemma {:induction false} AnalystsAreCounted(candidates: seq<string>, x: string)
    ensures multiset(Analysts(candidates))[x] == if x in BEHAVIOR && x != AUDIT then multiset(candidates)[x] else 0
  {
    if |candidates| > 0 {
      var n := |candidates| - 1;
      AnalystsAreCounted(candidates[..n], x);
      assert candidates == candidates[..n] + [candidates[n]];
    }
  }

  predicate Reserves(candidates: seq<string>) {
    AUDIT in candidates
  }

  /** The analysis agents of the plan: the first of the sorted candidates. */
  function Selected(candidates: seq<string>, maxSubAgents: nat): seq<string>
    requires maxSubAgents >= 2
  {
    var sorted := Sort(Analysts(candidates));
    var limit := maxSubAgents - if Reserves(candidates) then 1 else 0;
    if |sorted| <= limit then sorted else sorted[..limit]
  }

  /** The first n of an ordered sequence, against the bag it came from: nothing
      left out comes before something kept, and with all kept nothing is left out. */
  ghost predicate IsTop(chosen: seq<string>, bag: multiset<string>) {
    && multiset(chosen) <= bag && InOrder(chosen)
    && forall x, i :: x in bag - multiset(chosen) && 0 <= i < |chosen| ==> Precedes(chosen[i], x)
  }

  lemma PrefixIsTop(sorted: seq<string>, n: nat)
    requires InOrder(sorted) && n <= |sorted|
    ensures IsTop(sorted[..n], multiset(sorted))
    ensures n == |sorted| ==> multiset(sorted[..n]) == multiset(sorted)
  {
    assert sorted == sorted[..n] + sorted[n..];
    var left := multiset(sorted) - multiset(sorted[..n]);
    assert left == multiset(sorted[n..]);
    forall x, i | x in left && 0 <= i < n ensures Precedes(sorted[..n][i], x) {
      var k :| 0 <= k < |sorted| - n && sorted[n..][k] == x;
    }
  }

  lemma SelectedIsPrefix(candidates: seq<string>, maxSubAgents: nat)
    requires maxSubAgents >= 2
    ensures var sorted, chosen := Sort(Analysts(candidates)), Selected(candidates, maxSubAgents);
            var room := maxSubAgents - if "agent.audit_agent" in candidates then 1 else 0;
            && InOrder(sorted) && multiset(sorted) == multiset(Analysts(candidates))
            && |chosen| <= |sorted| && chosen == sorted[..|chosen|] && |chosen| <= room
            && (|chosen| < room ==> |chosen| == |sorted|)
  {
    hide Sort, Analysts, InOrder;
  }

  /** The plan takes the top candidates, all of them while there is room, and
      keeps a place for the audit when it is among the candidates. */
  lemma SelectionIsTop(candidates: seq<string>, maxSubAgents: nat)
    requires maxSubAgents >= 2
    ensures var chosen := Selected(candidates, maxSubAgents);
            var room := maxSubAgents - if "agent.audit_agent" in candidates then 1 else 0;
            IsTop(chosen, multiset(Analysts(candidates))) && |chosen| <= room
            && (|chosen| < room ==> multiset(chosen) == multiset(Analysts(candidates)))
  {
    var sorted, chosen := Sort(Analysts(candidates)), Selected(candidates, maxSubAgents);
    SelectedIsPrefix(candidates, maxSubAgents);
    hide Selected, Sort, Analysts, IsTop, InOrder, Reserves;
    PrefixIsTop(sorted, |chosen|);
  }

  // ----- Plan construction -----

  function AnalysisTask(trace: string, agent: string, index: nat): SubTask {
    SubTask(SubTaskId(trace, agent, index), agent,
            if agent in BEHAVIOR then BEHAVIOR[agent].priority else Low, [],
            agent in BEHAVIOR && BEHAVIOR[agent].mandatory, false)
  }

  function AuditTask(trace: string, index: nat, predecessors: seq<SubTaskId>): SubTask {
    SubTask(SubTaskId(trace, AUDIT, index), AUDIT, Critical, predecessors, true, true)
  }

  function IdsOf(tasks: seq<SubTask>): seq<SubTaskId> {
    seq(|tasks|, i requires 0 <= i < |tasks| => tasks[i].id)
  }

  /** What a plan looks like: analysis tasks without predecessors, then possibly
      the audit task that waits for all of them. */
  ghost predicate IsFanIn(trace: string, tasks: seq<SubTask>, agents: seq<string>, audited: bool) {
    && |tasks| == |agents| + (if audited then 1 else 0)
    && (forall i :: 0 <= i < |agents| ==> tasks[i] == AnalysisTask(trace, agents[i], i + 1))
    && (audited ==> tasks[|agents|].predecessors == IdsOf(tasks[..|agents|]) && tasks[|agents|].id.index > |agents|
                    && tasks[|agents|] == AuditTask(trace, tasks[|agents|].id.index, tasks[|agents|].predecessors))
  }

  /** The selection part of `SafeRouterService.plan`. */
  method SelectAgents(candidates: seq<string>, maxSubAgents: nat) returns (agents: seq<string>, reserve: bool)
    requires maxSubAgents >= 2
    ensures agents == Selected(candidates, maxSubAgents) && reserve == Reserves(candidates)
  {
    var analysts := [];
    reserve := false;
    for k := 0 to |candidates|
      invariant analysts == Analysts(candidates[..k]) && reserve == (AUDIT in candidates[..k])
    {
      assert candidates[..k + 1][..k] == candidates[..k];
      OnlyAuditAlwaysRuns(candidates[k]);
      if candidates[k] in BEHAVIOR {
        if candidates[k] != AUDIT { analysts := analysts + [candidates[k]]; } else { reserve := true; }
      }
    }
    assert candidates[..|candidates|] == candidates;
    var sorted := Sort(analysts);
    var limit := maxSubAgents - if reserve then 1 else 0;
    agents := if |sorted| <= limit then sorted else sorted[..limit];
  }

  /** The construction part: every analysis agent, then the audit fan-in. */
  method BuildTasks(agents: seq<string>, reserve: bool, trace: string) returns (tasks: seq<SubTask>)
    requires forall i :: 0 <= i < |agents| ==> agents[i] in BEHAVIOR && agents[i] != AUDIT
    ensures IsFanIn(trace, tasks, agents, reserve || agents == [])
  {
    var specs := agents + if reserve then [AUDIT] else [];
    if specs == [] { specs := [AUDIT]; }
    tasks := [];
    for index := 0 to |specs|
      invariant |tasks| == if index <= |agents| then index else |agents|
      invariant forall i :: 0 <= i < |tasks| ==> tasks[i] == AnalysisTask(trace, agents[i], i + 1)
    {
      var agent := specs[index];
      OnlyAuditAlwaysRuns(agent);
      if !BEHAVIOR[agent].alwaysRun {
        tasks := tasks + [AnalysisTask(trace, agent, index + 1)];
      }
    }
    if reserve || tasks == [] {
      ghost var analysis := tasks;
      tasks := tasks + [AuditTask(trace, |specs| + 1, IdsOf(tasks))];
      assert tasks[..|agents|] == analysis;
    }
  }

  /** `SafeRouterService.plan`. */
  method BuildPlan(candidates: seq<string>, maxSubAgents: nat, trace: string) returns (tasks: seq<SubTask>)
    requires 2 <= maxSubAgents <= 16
    ensures IsFanIn(trace, tasks, Selected(candidates, maxSubAgents),
                    Reserves(candidates) || Selected(candidates, maxSubAgents) == [])
    ensures 1 <= |tasks| <= maxSubAgents && Validated(tasks)
  {
    var agents, reserve := SelectAgents(candidates, maxSubAgents);
    forall i | 0 <= i < |agents| ensures agents[i] in BEHAVIOR && agents[i] != AUDIT {
      SelectedIsAnalyst(candidates, maxSubAgents, i);
    }
    tasks := BuildTasks(agents, reserve, trace);
    SelectionIsTop(candidates, maxSubAgents);
    FanInIsValid(trace, tasks, agents, reserve || agents == []);
  }

  lemma SelectedIsAnalyst(candidates: seq<string>, maxSubAgents: nat, i: nat)
    requires maxSubAgents >= 2 && i < |Selected(candidates, maxSubAgents)|
    ensures Selected(candidates, maxSubAgents)[i] in BEHAVIOR && Selected(candidates, maxSubAgents)[i] != AUDIT
  {
    var sorted := Sort(Analysts(candidates));
    assert sorted[i] in multiset(sorted);
    assert sorted[i] in multiset(Analysts(candidates));
  }

  lemma FanInIsValid(trace: string, tasks: seq<SubTask>, agents: seq<string>, audited: bool)
    requires IsFanIn(trace, tasks, agents, audited)
    ensures Validated(tasks)
  {
    forall i, j | 0 <= i < j < |tasks| ensures tasks[i].id != tasks[j].id {
      assert tasks[i].id.index == i + 1;
    }
    if audited {
      var n := |agents|;
      forall p | p in tasks[n].predecessors ensures p != tasks[n].id && exists j :: 0 <= j < |tasks| && tasks[j].id == p {
        var k :| 0 <= k < n && IdsOf(tasks[..n])[k] == p;
        assert tasks[k].id == p;
      }
    }
  }

  /** The layers of a plan: all analysis tasks, then the audit. */
  function LayersOf(tasks: seq<SubTask>, n: nat): seq<set<SubTaskId>>
    requires n <= |tasks|
  {
    (if n > 0 then [set i | 0 <= i < n :: tasks[i].id] else [])
    + (if n < |tasks| then [set i | n <= i < |tasks| :: tasks[i].id] else [])
  }

  lemma LayersCover(tasks: seq<SubTask>, n: nat)
    requires n <= |tasks| && Validated(tasks)
    ensures forall id {:trigger In(LayersOf(tasks, n), id)} :: id in ById(tasks) <==> In(LayersOf(tasks, n), id)
  {
    ByIdIsClosed(tasks);
    var gens := LayersOf(tasks, n);
    forall id ensures id in ById(tasks) <==> In(gens, id) {
      if id in ById(tasks) {
        var i :| 0 <= i < |tasks| && tasks[i] == ById(tasks)[id];
        assert id in gens[if i < n then 0 else |gens| - 1];
      }
      if In(gens, id) {
        var g :| 0 <= g < |gens| && id in gens[g];
        var i :| 0 <= i < |tasks| && tasks[i].id == id;
      }
    }
  }

  /** Every plan is acyclic, and a planned audit runs after every other task. */
  lemma AuditIsLast(trace: string, tasks: seq<SubTask>, agents: seq<string>, audited: bool)
    requires IsFanIn(trace, tasks, agents, audited)
    ensures audited ==> tasks[|agents|].agent == AUDIT && tasks[|agents|].mandatory && tasks[|agents|].alwaysRun
                        && forall i :: 0 <= i < |agents| ==> tasks[i].id in tasks[|agents|].predecessors
  {
    if audited {
      forall i | 0 <= i < |agents| ensures tasks[i].id in tasks[|agents|].predecessors {
        assert IdsOf(tasks[..|agents|])[i] == tasks[i].id;
      }
    }
  }

  lemma PlansAreLayered(trace: string, tasks: seq<SubTask>, agents: seq<string>, audited: bool)
    requires IsFanIn(trace, tasks, agents, audited)
    ensures Validated(tasks) && IsLayering(ById(tasks), LayersOf(tasks, |agents|)) && Acyclic(ById(tasks))
    ensures audited ==> tasks[|agents|].agent == AUDIT && tasks[|agents|].mandatory && tasks[|agents|].alwaysRun
                        && forall i :: 0 <= i < |agents| ==> tasks[i].id in tasks[|agents|].predecessors
  {
    hide Validated, IsLayering, Acyclic, LayersOf;
    FanInIsValid(trace, tasks, agents, audited);
    ByIdIsClosed(tasks);
    AuditIsLast(trace, tasks, agents, audited);
    FanInIsLayered(trace, tasks, agents, audited);
    LayeringExcludesCycles(ById(tasks), LayersOf(tasks, |agents|));
  }

  lemma FanInIsLayered(trace: string, tasks: seq<SubTask>, agents: seq<string>, audited: bool)
    requires IsFanIn(trace, tasks, agents, audited) && Validated(tasks)
    ensures IsLayering(ById(tasks), LayersOf(tasks, |agents|))
  {
    var n, m := |agents|, ById(tasks);
    var gens := LayersOf(tasks, n);
    LayersCover(tasks, n);
    if n > 0 { assert tasks[0].id in gens[0]; }
    if n < |tasks| { assert tasks[n].id in gens[|gens| - 1]; }
    forall g: nat, id | g < |gens| && id in gens[g] ensures Fits(m, gens, g, id) {
      LayerFits(trace, tasks, agents, audited, g, id);
    }
  }

  lemma LayerFits(trace: string, tasks: seq<SubTask>, agents: seq<string>, audited: bool, g: nat, id: SubTaskId)
    requires IsFanIn(trace, tasks, agents, audited) && Validated(tasks)
    requires g < |LayersOf(tasks, |agents|)| && id in LayersOf(tasks, |agents|)[g]
    ensures Fits(ById(tasks), LayersOf(tasks, |agents|), g, id)
  {
    hide ById;
    ByIdIsClosed(tasks);
    var n, m := |agents|, ById(tasks);
    var gens := LayersOf(tasks, n);
    var i :| 0 <= i < |tasks| && tasks[i].id == id && (i < n <==> (g == 0 && n > 0));
    assert m[id] == tasks[i];
    if i == n && audited {
      forall p | p in tasks[n].predecessors ensures Before(gens, g, p) {
        var k :| 0 <= k < n && IdsOf(tasks[..n])[k] == p;
        assert tasks[k].id in gens[0];
      }
      if g > 0 {
        assert IdsOf(tasks[..n])[0] == tasks[0].id;
        assert tasks[0].id in gens[0];
      }
    }
  }
}
