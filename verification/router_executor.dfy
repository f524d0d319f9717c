/** `SafeRouterExecutor.execute` as a state machine over every interleaving of
    the tasks of a generation under the semaphore, and its schedule independence.
    `started`, `begun` and `maxActive` only observe. */
module RouterExecutor {
  import opened TaskContracts
  import opened RouterContracts
  import opened RouterLayering
  import opened RouterResults

  datatype Phase =
    | Pending                   // scheduled by gather, not yet running
    | Waiting                   // at the semaphore
    | Running                   // inside the handler
    | Recording(draft: Result)  // inside the audit callback
    | Done(result: Result)

  datatype Plan = Plan(tasks: Tasks, gens: seq<set<SubTaskId>>, limit: nat)

  datatype State = State(
    gen: nat, phase: map<SubTaskId, Phase>, results: Results, active: nat, maxActive: nat, started: set<SubTaskId>)

  ghost predicate WellFormed(plan: Plan) {
    Closed(plan.tasks) && IsLayering(plan.tasks, plan.gens) && plan.limit >= 1
  }

  ghost function Scheduled(plan: Plan, g: nat): map<SubTaskId, Phase> {
    if g < |plan.gens| then map id | id in plan.gens[g] :: Pending else map[]
  }

  ghost function Start(plan: Plan): State {
    State(0, Scheduled(plan, 0), map[], 0, 0, {})
  }

  datatype Step = Begin(id: SubTaskId) | Enter(id: SubTaskId) | Leave(id: SubTaskId) | Record(id: SubTaskId) | Advance

  predicate AllDone(phase: map<SubTaskId, Phase>) {
    forall id :: id in phase ==> phase[id].Done?
  }

  function Collected(phase: map<SubTaskId, Phase>): Results
    requires AllDone(phase)
  {
    map id | id in phase :: phase[id].result
  }

  /** What `run_one` does up to its first wait. */
  function Opening(env: Env, t: SubTask, blocked: bool): Phase {
    if Runs(env, t, blocked) then Waiting else Recording(Draft(env, t, blocked))
  }

  ghost predicate Enabled(plan: Plan, s: State, step: Step) {
    match step
    case Begin(id) => id in s.phase && s.phase[id].Pending? && id in plan.tasks
    case Enter(id) => id in s.phase && s.phase[id].Waiting? && s.active < plan.limit
    case Leave(id) => id in s.phase && s.phase[id].Running? && id in plan.tasks && s.active > 0
    case Record(id) => id in s.phase && s.phase[id].Recording?
    case Advance => s.gen < |plan.gens| && AllDone(s.phase)
  }

  ghost function Take(plan: Plan, env: Env, s: State, step: Step): State
    requires Enabled(plan, s, step)
  {
    match step
    case Begin(id) => s.(phase := s.phase[id := Opening(env, plan.tasks[id], Blocked(plan.tasks[id], s.results))])
    case Enter(id) =>
      s.(phase := s.phase[id := Phase.Running], active := s.active + 1,
         maxActive := if s.active + 1 > s.maxActive then s.active + 1 else s.maxActive, started := s.started + {id})
    case Leave(id) =>
      s.(phase := s.phase[id := Recording(HandledResult(plan.tasks[id], env.handler(plan.tasks[id])))], active := s.active - 1)
    case Record(id) => s.(phase := s.phase[id := Done(Audited(env, s.phase[id].draft))])
    case Advance =>
      s.(results := s.results + Collected(s.phase), gen := s.gen + 1, phase := Scheduled(plan, s.gen + 1))
  }

  ghost predicate IsStep(plan: Plan, env: Env, s: State, s': State, step: Step) {
    Enabled(plan, s, step) && s' == Take(plan, env, s, step)
  }

  ghost predicate Next(plan: Plan, env: Env, s: State, s': State) {
    exists step :: IsStep(plan, env, s, s', step)
  }

  ghost predicate IsRun(plan: Plan, env: Env, run: seq<State>) {
    |run| > 0 && run[0] == Start(plan) && forall i: nat :: i + 1 < |run| ==> Next(plan, env, run[i], run[i + 1])
  }

  ghost predicate Finished(plan: Plan, s: State) {
    s.gen == |plan.gens|
  }

  // ----- Invariant -----

  /** The task stands in the current generation, so its predecessors have results. */
  ghost predicate PhaseOk(env: Env, t: SubTask, blocked: bool, p: Phase) {
    match p
    case Pending => true
    case Waiting => Runs(env, t, blocked)
    case Running => Runs(env, t, blocked)
    case Recording(draft) => draft == Draft(env, t, blocked)
    case Done(result) => result == Final(env, t, blocked)
  }

  ghost function RunningIn(phase: map<SubTaskId, Phase>): set<SubTaskId> {
    set id | id in phase && phase[id].Running?
  }

  lemma SetPhase(phase: map<SubTaskId, Phase>, id: SubTaskId, p: Phase)
    requires id in phase
    ensures |RunningIn(phase[id := p])|
            == |RunningIn(phase)| - (if phase[id].Running? then 1 else 0) + (if p.Running? then 1 else 0)
  {
    var without := RunningIn(phase) - {id};
    assert RunningIn(phase) == if phase[id].Running? then without + {id} else without;
    assert RunningIn(phase[id := p]) == if p.Running? then without + {id} else without;
  }

  ghost predicate PhasesOk(plan: Plan, env: Env, s: State) {
    forall id :: id in s.phase ==>
      id in plan.tasks && PhaseOk(env, plan.tasks[id], Blocked(plan.tasks[id], s.results), s.phase[id])
  }

  ghost predicate ResultsOk(plan: Plan, env: Env, s: State) {
    && (forall id {:trigger Before(plan.gens, s.gen, id)} :: id in s.results <==> Before(plan.gens, s.gen, id))
    && (forall id :: id in s.results ==> id in plan.tasks)
    && (forall id {:trigger Settled(plan.tasks, env, s.results, id)} :: id in s.results ==> Settled(plan.tasks, env, s.results, id))
  }

  /** A handler was started exactly for the tasks that got past the checks. */
  ghost predicate StartedOk(plan: Plan, env: Env, s: State) {
    && (forall id :: id in s.started ==>
          id in plan.tasks && Runs(env, plan.tasks[id], Blocked(plan.tasks[id], s.results)) && (id in s.results || id in s.phase))
    && (forall id :: id in s.results && id in plan.tasks && Runs(env, plan.tasks[id], Blocked(plan.tasks[id], s.results)) ==> id in s.started)
    && (forall id :: id in s.phase && id in plan.tasks && Runs(env, plan.tasks[id], Blocked(plan.tasks[id], s.results)) ==>
          (id in s.started <==> !s.phase[id].Pending? && !s.phase[id].Waiting?))
  }

  ghost predicate CountsOk(plan: Plan, s: State) {
    s.active == |RunningIn(s.phase)| && s.active <= s.maxActive <= plan.limit
  }

  ghost predicate ShapeOk(plan: Plan, s: State) {
    s.gen <= |plan.gens| && s.phase.Keys == Scheduled(plan, s.gen).Keys
  }

  ghost predicate Inv(plan: Plan, env: Env, s: State) {
    ShapeOk(plan, s) && PhasesOk(plan, env, s) && ResultsOk(plan, env, s) && StartedOk(plan, env, s) && CountsOk(plan, s)
  }

  lemma ScheduledTasks(plan: Plan, g: nat, id: SubTaskId)
    requires WellFormed(plan) && id in Scheduled(plan, g)
    ensures g < |plan.gens| && id in plan.tasks && !Before(plan.gens, g, id)
    ensures forall p :: p in plan.tasks[id].predecessors ==> Before(plan.gens, g, p)
  {
    assert Fits(plan.tasks, plan.gens, g, id);
    forall h: nat | h < g ensures id !in plan.gens[h] {
      assert plan.gens[h] !! plan.gens[g];
    }
  }

  lemma StartOk(plan: Plan, env: Env)
    requires WellFormed(plan)
    ensures Inv(plan, env, Start(plan))
  {
    var s := Start(plan);
    forall id | id in s.phase ensures id in plan.tasks { ScheduledTasks(plan, 0, id); }
    assert RunningIn(s.phase) == {};
  }

  /** A step of one task changes no results and no other task's phase. */
  lemma TaskStepOk(plan: Plan, env: Env, s: State, step: Step)
    requires WellFormed(plan) && Inv(plan, env, s) && Enabled(plan, s, step) && !step.Advance?
    ensures Inv(plan, env, Take(plan, env, s, step))
  {
    var s' := Take(plan, env, s, step);
    assert s'.phase.Keys == s.phase.Keys;
    NotYetThere(plan, s, step.id);
    StepCounts(plan, s, step, env);
    StepPhases(plan, env, s, step);
    StepStarts(plan, env, s, step);
  }

  lemma StepCounts(plan: Plan, s: State, step: Step, env: Env)
    requires CountsOk(plan, s) && Enabled(plan, s, step) && !step.Advance?
    ensures CountsOk(plan, Take(plan, env, s, step))
  {
    var s' := Take(plan, env, s, step);
    SetPhase(s.phase, step.id, s'.phase[step.id]);
    assert s'.phase == s.phase[step.id := s'.phase[step.id]];
  }

  lemma StepPhases(plan: Plan, env: Env, s: State, step: Step)
    requires PhasesOk(plan, env, s) && Enabled(plan, s, step) && !step.Advance?
    ensures PhasesOk(plan, env, Take(plan, env, s, step))
  {
  }

  lemma StepStarts(plan: Plan, env: Env, s: State, step: Step)
    requires PhasesOk(plan, env, s) && StartedOk(plan, env, s) && Enabled(plan, s, step) && !step.Advance?
    ensures StartedOk(plan, env, Take(plan, env, s, step))
  {
  }

  lemma NotYetThere(plan: Plan, s: State, id: SubTaskId)
    requires WellFormed(plan) && ShapeOk(plan, s) && id in s.phase
    requires forall x {:trigger Before(plan.gens, s.gen, x)} :: x in s.results <==> Before(plan.gens, s.gen, x)
    ensures id in plan.tasks && id !in s.results
    ensures forall p :: p in plan.tasks[id].predecessors ==> p in s.results
  {
    ScheduledTasks(plan, s.gen, id);
  }

  /** Results of later generations do not change what a task saw. */
  lemma BlockedKept(plan: Plan, s: State, more: Results, id: SubTaskId)
    requires WellFormed(plan) && id in plan.tasks
    requires forall p :: p in plan.tasks[id].predecessors ==> p in s.results && p !in more
    ensures Blocked(plan.tasks[id], s.results + more) == Blocked(plan.tasks[id], s.results)
  {
    SamePredecessors(plan.tasks[id], s.results, s.results + more);
  }

  lemma CollectedAreNew(plan: Plan, env: Env, s: State, id: SubTaskId)
    requires WellFormed(plan) && Inv(plan, env, s) && id in plan.tasks && (id in s.results || id in s.phase)
    ensures forall p :: p in plan.tasks[id].predecessors ==> p in s.results && p !in s.phase
  {
    forall p | p in plan.tasks[id].predecessors ensures p in s.results && p !in s.phase {
      if id in s.phase {
        NotYetThere(plan, s, id);
      } else {
        assert Before(plan.gens, s.gen, id);
        var g: nat :| g < s.gen && id in plan.gens[g];
        assert Fits(plan.tasks, plan.gens, g, id);
        assert Before(plan.gens, g, p);
        var h: nat :| h < g && p in plan.gens[h];
        assert Before(plan.gens, s.gen, p);
      }
      if p in s.phase { NotYetThere(plan, s, p); }
    }
  }

  /** No earlier task is affected by the results that joined. */
  ghost predicate SameBlocks(plan: Plan, s: State, s': State) {
    forall id :: id in plan.tasks && (id in s.results || id in s.phase) ==>
      Blocked(plan.tasks[id], s'.results) == Blocked(plan.tasks[id], s.results)
  }

  lemma AdvancedKeys(plan: Plan, env: Env, s: State, s': State)
    requires WellFormed(plan) && ShapeOk(plan, s) && IsStep(plan, env, s, s', Advance)
    requires forall id {:trigger Before(plan.gens, s.gen, id)} :: id in s.results <==> Before(plan.gens, s.gen, id)
    ensures forall id {:trigger Before(plan.gens, s'.gen, id)} :: id in s'.results <==> Before(plan.gens, s'.gen, id)
    ensures forall id :: id in s'.phase ==> id in plan.tasks && id !in s'.results
  {
    forall id ensures id in s'.results <==> Before(plan.gens, s.gen + 1, id) {
      assert id in s.results <==> Before(plan.gens, s.gen, id);
      assert id in s'.results <==> id in s.results || id in plan.gens[s.gen];
      BeforeNext(plan.gens, s.gen, id);
    }
    forall id | id in s'.phase ensures id in plan.tasks && id !in s'.results {
      ScheduledTasks(plan, s'.gen, id);
    }
  }

  lemma BeforeNext(gens: seq<set<SubTaskId>>, g: nat, id: SubTaskId)
    requires g < |gens|
    ensures Before(gens, g + 1, id) <==> Before(gens, g, id) || id in gens[g]
  {
  }

  lemma AdvancedResults(plan: Plan, env: Env, s: State, s': State)
    requires PhasesOk(plan, env, s) && IsStep(plan, env, s, s', Advance) && SameBlocks(plan, s, s')
    requires forall id :: id in s.results ==> id in plan.tasks && Settled(plan.tasks, env, s.results, id)
    ensures forall id :: id in s'.results ==> id in plan.tasks && Settled(plan.tasks, env, s'.results, id)
  {
    forall id | id in s'.results ensures id in plan.tasks && Settled(plan.tasks, env, s'.results, id) {
      if id !in s.phase {
        assert Settled(plan.tasks, env, s.results, id);
      }
    }
  }

  lemma AdvancedStarts(plan: Plan, env: Env, s: State, s': State)
    requires StartedOk(plan, env, s) && PhasesOk(plan, env, s) && IsStep(plan, env, s, s', Advance) && SameBlocks(plan, s, s')
    requires forall id :: id in s'.phase ==> id in plan.tasks && id !in s'.results
    ensures StartedOk(plan, env, s')
  {
  }

  lemma AdvancedShape(plan: Plan, env: Env, s: State, s': State)
    requires WellFormed(plan) && CountsOk(plan, s) && IsStep(plan, env, s, s', Advance)
    requires forall id :: id in s'.phase ==> id in plan.tasks && id !in s'.results
    ensures ShapeOk(plan, s') && PhasesOk(plan, env, s') && CountsOk(plan, s')
  {
    assert RunningIn(s.phase) == {} && RunningIn(s'.phase) == {};
  }

  lemma AdvancedBlocks(plan: Plan, env: Env, s: State, s': State)
    requires WellFormed(plan) && Inv(plan, env, s) && IsStep(plan, env, s, s', Advance)
    ensures SameBlocks(plan, s, s')
  {
    forall id | id in plan.tasks && (id in s.results || id in s.phase)
      ensures Blocked(plan.tasks[id], s'.results) == Blocked(plan.tasks[id], s.results)
    {
      CollectedAreNew(plan, env, s, id);
      BlockedKept(plan, s, Collected(s.phase), id);
    }
  }

  lemma AdvanceOk(plan: Plan, env: Env, s: State, s': State)
    requires WellFormed(plan) && Inv(plan, env, s) && IsStep(plan, env, s, s', Advance)
    ensures Inv(plan, env, s')
  {
    hide WellFormed, IsStep, ShapeOk, PhasesOk, StartedOk, CountsOk, SameBlocks;
    AdvancedBlocks(plan, env, s, s');
    AdvancedKeys(plan, env, s, s');
    AdvancedResults(plan, env, s, s');
    AdvancedStarts(plan, env, s, s');
    AdvancedShape(plan, env, s, s');
  }

  lemma StepOk(plan: Plan, env: Env, s: State, s': State)
    requires WellFormed(plan) && Inv(plan, env, s) && Next(plan, env, s, s')
    ensures Inv(plan, env, s')
  {
    var step :| IsStep(plan, env, s, s', step);
    if step.Advance? { AdvanceOk(plan, env, s, s'); } else { TaskStepOk(plan, env, s, step); }
  }

  lemma RunStarts(plan: Plan, env: Env, run: seq<State>)
    requires IsRun(plan, env, run)
    ensures |run| > 0 && run[0] == Start(plan)
  {
  }

  lemma RunGoesOn(plan: Plan, env: Env, run: seq<State>, n: nat)
    requires IsRun(plan, env, run) && 0 < n < |run|
    ensures Next(plan, env, run[n - 1], run[n])
  {
    assert Next(plan, env, run[n - 1], run[(n - 1) + 1]);
  }

  lemma {:induction false} RunOk(plan: Plan, env: Env, run: seq<State>, n: nat)
    requires WellFormed(plan) && IsRun(plan, env, run) && n < |run|
    ensures Inv(plan, env, run[n])
  {
    hide *;
    if n == 0 {
      RunStarts(plan, env, run);
      StartOk(plan, env);
    } else {
      RunOk(plan, env, run, n - 1);
      RunGoesOn(plan, env, run, n);
      StepOk(plan, env, run[n - 1], run[n]);
    }
  }

  // ----- Theorems -----

  /** The concurrency bound holds in every state of every run, and the reported
      maximum is within it. */
  lemma ConcurrencyIsBounded(plan: Plan, env: Env, run: seq<State>, n: nat)
    requires WellFormed(plan) && IsRun(plan, env, run) && n < |run|
    ensures |RunningIn(run[n].phase)| == run[n].active <= run[n].maxActive <= plan.limit
  {
    RunOk(plan, env, run, n);
  }

  /** When a task looks up its predecessors, every one of them has a result. */
  lemma LookupIsTotal(plan: Plan, env: Env, run: seq<State>, n: nat, id: SubTaskId)
    requires WellFormed(plan) && IsRun(plan, env, run) && n < |run| && id in run[n].phase
    ensures id in plan.tasks && forall p :: p in plan.tasks[id].predecessors ==> p in run[n].results
  {
    RunOk(plan, env, run, n);
    NotYetThere(plan, run[n], id);
  }

  lemma FinishedSolves(plan: Plan, env: Env, s: State)
    requires WellFormed(plan) && Inv(plan, env, s) && Finished(plan, s)
    ensures Solves(plan.tasks, env, s.results)
  {
    forall id ensures id in s.results <==> id in plan.tasks {
      assert id in s.results <==> Before(plan.gens, s.gen, id);
      assert id in plan.tasks <==> In(plan.gens, id);
    }
  }

  /** Schedule independence: whatever the interleaving and the concurrency bound,
      a finished run holds the results of the sequential recursion. */
  lemma EveryScheduleAgrees(plan: Plan, env: Env, run: seq<State>, n: nat)
    requires WellFormed(plan) && IsRun(plan, env, run) && n < |run| && Finished(plan, run[n])
    ensures run[n].results == map id | id in plan.tasks :: Sequential(plan.tasks, env, plan.gens, id)
  {
    RunOk(plan, env, run, n);
    FinishedSolves(plan, env, run[n]);
    SequentialSolves(plan.tasks, env, plan.gens);
    SolutionIsUnique(plan.tasks, env, plan.gens, run[n].results,
                     map id | id in plan.tasks :: Sequential(plan.tasks, env, plan.gens, id));
  }

  /** Parallel and serial mode agree. */
  lemma ModesAgree(plan: Plan, other: Plan, env: Env, run: seq<State>, run': seq<State>, n: nat, m: nat)
    requires WellFormed(plan) && WellFormed(other) && other.tasks == plan.tasks
    requires IsRun(plan, env, run) && n < |run| && Finished(plan, run[n])
    requires IsRun(other, env, run') && m < |run'| && Finished(other, run'[m])
    ensures run[n].results == run'[m].results
  {
    RunOk(plan, env, run, n);
    RunOk(other, env, run', m);
    FinishedSolves(plan, env, run[n]);
    FinishedSolves(other, env, run'[m]);
    SolutionIsUnique(plan.tasks, env, plan.gens, run[n].results, run'[m].results);
  }

  /** A handler is started exactly for the tasks that are not stopped by a blocked
      predecessor and have a handler. */
  lemma HandlersStarted(plan: Plan, env: Env, run: seq<State>, n: nat, id: SubTaskId)
    requires WellFormed(plan) && IsRun(plan, env, run) && n < |run| && Finished(plan, run[n])
    ensures id in run[n].started
            <==> id in plan.tasks && Runs(env, plan.tasks[id], Blocked(plan.tasks[id], run[n].results))
  {
    RunOk(plan, env, run, n);
    FinishedSolves(plan, env, run[n]);
  }

  ghost predicate CanGoOn(plan: Plan, env: Env, s: State) {
    exists s' :: Next(plan, env, s, s')
  }

  /** Some step is enabled until the run is finished. */
  lemma NeverStuck(plan: Plan, env: Env, s: State)
    requires WellFormed(plan) && Inv(plan, env, s) && !Finished(plan, s)
    ensures CanGoOn(plan, env, s)
  {
    var step := SomeStep(plan, env, s);
    var s' := Take(plan, env, s, step);
    assert IsStep(plan, env, s, s', step);
    assert Next(plan, env, s, s');
  }

  lemma SomeStep(plan: Plan, env: Env, s: State) returns (step: Step)
    requires WellFormed(plan) && Inv(plan, env, s) && !Finished(plan, s)
    ensures Enabled(plan, s, step)
  {
    if AllDone(s.phase) { return Advance; }
    var id :| id in s.phase && !s.phase[id].Done?;
    match s.phase[id]
    case Pending => step := Begin(id);
    case Waiting =>
      if s.active < plan.limit {
        step := Enter(id);
      } else {
        assert RunningIn(s.phase) != {};
        var x :| x in RunningIn(s.phase);
        step := Leave(x);
      }
    case Running =>
      assert id in RunningIn(s.phase);
      step := Leave(id);
    case Recording(_) => step := Step.Record(id);
  }

  // ----- Termination -----

  ghost function Behind(s: State, k: nat): set<SubTaskId> {
    set id | id in s.phase && Progress(s.phase[id]) <= k
  }

  function Progress(p: Phase): nat {
    match p case Pending => 0 case Waiting => 1 case Running => 2 case Recording(_) => 3 case Done(_) => 4
  }

  ghost function Work(s: State): nat {
    |Behind(s, 0)| + |Behind(s, 1)| + |Behind(s, 2)| + |Behind(s, 3)|
  }

  lemma Subset(a: set<SubTaskId>, b: set<SubTaskId>)
    requires a <= b
    ensures |a| <= |b| && (a != b ==> |a| < |b|)
  {
    assert |b| == |a| + |b - a| by { assert b == a + (b - a); }
  }

  /** Every step finishes a generation or leaves less to do in it. */
  lemma StepsRunOut(plan: Plan, env: Env, s: State, s': State)
    requires Next(plan, env, s, s')
    ensures s.gen <= |plan.gens| ==> s'.gen <= |plan.gens|
    ensures if s'.gen == s.gen then Work(s') < Work(s)
            else s'.gen == s.gen + 1 && s.gen < |plan.gens| && s'.phase == Scheduled(plan, s'.gen)
  {
    var step :| IsStep(plan, env, s, s', step);
    if !step.Advance? {
      var was := Progress(s.phase[step.id]);
      assert Progress(s'.phase[step.id]) > was;
      assert step.id in Behind(s, was) && step.id !in Behind(s', was);
      forall k: nat ensures Behind(s', k) <= Behind(s, k) {}
      Subset(Behind(s', 0), Behind(s, 0));
      Subset(Behind(s', 1), Behind(s, 1));
      Subset(Behind(s', 2), Behind(s, 2));
      Subset(Behind(s', 3), Behind(s, 3));
    }
  }

  /** Four steps for each task of the generations from g on, and one to leave each. */
  ghost function ToGo(gens: seq<set<SubTaskId>>, g: nat): nat
    decreases |gens| - g
  {
    if g >= |gens| then 0 else 4 * |gens[g]| + 1 + ToGo(gens, g + 1)
  }

  ghost function Remaining(plan: Plan, s: State): nat {
    Work(s) + if s.gen < |plan.gens| then 1 + ToGo(plan.gens, s.gen + 1) else 0
  }

  lemma ScheduledWork(plan: Plan, s: State)
    requires s.phase == Scheduled(plan, s.gen)
    ensures Remaining(plan, s) == ToGo(plan.gens, s.gen)
  {
    var ids := if s.gen < |plan.gens| then plan.gens[s.gen] else {};
    assert Behind(s, 0) == ids && Behind(s, 1) == ids && Behind(s, 2) == ids && Behind(s, 3) == ids;
  }

  lemma StepsCount(plan: Plan, env: Env, s: State, s': State)
    requires Next(plan, env, s, s')
    ensures Remaining(plan, s') < Remaining(plan, s)
  {
    StepsRunOut(plan, env, s, s');
    if s'.gen != s.gen { ScheduledWork(plan, s'); }
  }

  ghost function Union(gens: seq<set<SubTaskId>>, g: nat): set<SubTaskId>
    decreases |gens| - g
  {
    if g >= |gens| then {} else gens[g] + Union(gens, g + 1)
  }

  lemma {:induction false} UnionHolds(gens: seq<set<SubTaskId>>, g: nat)
    ensures forall id :: id in Union(gens, g) <==> exists h: nat :: g <= h < |gens| && id in gens[h]
    decreases |gens| - g
  {
    if g < |gens| {
      UnionHolds(gens, g + 1);
      forall id | id in gens[g] ensures exists h: nat :: g <= h < |gens| && id in gens[h] { }
    }
  }

  lemma {:induction false} ToGoCounts(gens: seq<set<SubTaskId>>, g: nat)
    requires g <= |gens| && forall i, j :: 0 <= i < j < |gens| ==> gens[i] !! gens[j]
    ensures ToGo(gens, g) == 4 * |Union(gens, g)| + |gens| - g
    decreases |gens| - g
  {
    if g < |gens| {
      ToGoCounts(gens, g + 1);
      UnionHolds(gens, g + 1);
      assert gens[g] !! Union(gens, g + 1);
    }
  }

  /** The number of steps a plan can take at most. */
  ghost function Bound(plan: Plan): nat {
    4 * |plan.tasks| + |plan.gens|
  }

  lemma BoundIsToGo(plan: Plan)
    requires WellFormed(plan)
    ensures ToGo(plan.gens, 0) == Bound(plan)
  {
    ToGoCounts(plan.gens, 0);
    UnionHolds(plan.gens, 0);
    forall id ensures id in Union(plan.gens, 0) <==> id in plan.tasks {
      assert id in plan.tasks <==> In(plan.gens, id);
    }
    assert Union(plan.gens, 0) == plan.tasks.Keys;
    assert |plan.tasks| == |plan.tasks.Keys|;
  }

  lemma {:induction false} RunsAreBounded(plan: Plan, env: Env, run: seq<State>, n: nat)
    requires WellFormed(plan) && IsRun(plan, env, run) && n < |run|
    ensures n + Remaining(plan, run[n]) <= Bound(plan)
  {
    if n == 0 {
      BoundIsToGo(plan);
      ScheduledWork(plan, run[0]);
    } else {
      RunsAreBounded(plan, env, run, n - 1);
      RunGoesOn(plan, env, run, n);
      StepsCount(plan, env, run[n - 1], run[n]);
    }
  }

  /** No run is longer than four steps for each task and one for each generation, and
      it can go on if and only if it is not finished: however it is scheduled, a run
      that goes on as long as it can ends finished. */
  lemma EveryRunEnds(plan: Plan, env: Env, run: seq<State>)
    requires WellFormed(plan) && IsRun(plan, env, run)
    ensures |run| <= Bound(plan) + 1
    ensures CanGoOn(plan, env, run[|run| - 1]) <==> !Finished(plan, run[|run| - 1])
  {
    var last := run[|run| - 1];
    RunsAreBounded(plan, env, run, |run| - 1);
    RunOk(plan, env, run, |run| - 1);
    if Finished(plan, last) { FinishedStays(plan, env, last); } else { NeverStuck(plan, env, last); }
  }

  lemma FinishedStays(plan: Plan, env: Env, s: State)
    requires Finished(plan, s) && ShapeOk(plan, s)
    ensures !CanGoOn(plan, env, s)
  {
    assert s.phase.Keys == {};
    assert forall step :: !Enabled(plan, s, step);
  }
}
