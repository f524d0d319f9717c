/** Values of the sub-agent router: tasks, handler outcomes, results and the two
    ordered scales.  Mirrors safeagent_gov/router/contracts.py. */
module RouterContracts {
  import opened TaskContracts

  datatype Decision = Allow | AllowWithLog | MaskAndAllow | RequireApproval | Block
  datatype Risk = Safe | LowRisk | MediumRisk | HighRisk | CriticalRisk

  function DecisionRank(d: Decision): nat {
    match d
    case Allow => 0
    case AllowWithLog => 1
    case MaskAndAllow => 2
    case RequireApproval => 3
    case Block => 4
  }

  function RiskRank(r: Risk): nat {
    match r
    case Safe => 0
    case LowRisk => 1
    case MediumRisk => 2
    case HighRisk => 3
    case CriticalRisk => 4
  }

  /** The tuple whose digest is the task id. */
  datatype SubTaskId = SubTaskId(trace: string, agent: string, index: nat)

  datatype SubTask = SubTask(
    id: SubTaskId, agent: string, priority: Priority, predecessors: seq<SubTaskId>, mandatory: bool, alwaysRun: bool)

  datatype ResultStatus = Completed | FailedResult | TimedOut | Skipped

  datatype Result = Result(
    id: SubTaskId, agent: string, status: ResultStatus, decision: Decision, risk: Risk, output: string,
    error: Option<string>, auditRecorded: bool)

  /** How a handler call ends. */
  datatype Handled = Returned(decision: Decision, risk: Risk, output: string) | OutOfTime | Raised(name: string)

  /** The plan as `{task.task_id: task}`. */
  type Tasks = map<SubTaskId, SubTask>

  /** `RouterPlan.validate_task_graph`: unique ids, known predecessors, no self-dependency. */
  predicate Validated(plan: seq<SubTask>) {
    && (forall i, j :: 0 <= i < j < |plan| ==> plan[i].id != plan[j].id)
    && (forall i, p :: 0 <= i < |plan| && p in plan[i].predecessors ==>
          p != plan[i].id && exists j :: 0 <= j < |plan| && plan[j].id == p)
  }

  predicate Closed(tasks: Tasks) {
    forall id :: id in tasks ==> tasks[id].id == id && forall p :: p in tasks[id].predecessors ==> p in tasks
  }

  function ById(plan: seq<SubTask>): Tasks
    requires Validated(plan)
  {
    map t | t in plan :: t.id := t
  }

  lemma ByIdIsClosed(plan: seq<SubTask>)
    requires Validated(plan)
    ensures Closed(ById(plan))
    ensures forall i :: 0 <= i < |plan| ==> plan[i].id in ById(plan) && ById(plan)[plan[i].id] == plan[i]
    ensures forall id :: id in ById(plan) ==> ById(plan)[id] in plan
  {
    forall i | 0 <= i < |plan| ensures plan[i].id in ById(plan) {
      assert plan[i] in plan;
    }
  }
}
