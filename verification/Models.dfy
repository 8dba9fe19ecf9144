// The values of the control plane. Times are nanoseconds; None stands for
// Go's zero time.
module Models {
  import opened Text

  datatype Risk = Low | Medium | High | Unlisted

  datatype JobStatus =
    Planned | Approved | Running | Verified | Completed | Failed | Blocked | PendingApproval

  datatype DecisionType = AutoRun | RequiresApproval | DecisionBlocked

  /** A parameter value of type any. `shown` is what fmt.Sprint makes of it. */
  datatype Value =
    | Null
    | Str(s: string)
    | Int(n: int)
    | Float(r: real, shown: string)
    | Other(shown: string)

  type Params = map<string, Value>

  function Get(p: Params, key: string): Value {
    if key in p then p[key] else Null
  }

  /** stringFrom: the string value, or "" for any other type. */
  function StringFrom(v: Value): string {
    if v.Str? then v.s else ""
  }

  /** intFrom: JSON numbers truncate toward zero. */
  function IntFrom(v: Value, fallback: int): int {
    match v
    case Int(n) => n
    case Float(r, _) => if r >= 0.0 then r.Floor else -((-r).Floor)
    case _ => fallback
  }

  /** Two's-complement wrap-around of a 64-bit product. */
  function Wrap64(x: int): int {
    (x + 0x8000_0000_0000_0000) % 0x1_0000_0000_0000_0000 - 0x8000_0000_0000_0000
  }

  const MINUTE := 60_000_000_000

  datatype PolicyMode = GuardedSre | AggressiveAuto

  datatype PolicyModeState = PolicyModeState(
    mode: PolicyMode,
    aggressiveUntil: Option<int>,
    lastChangedBy: string,
    updatedAt: int)

  datatype Node = Node(id: string, status: string, lastHeartbeat: int, runnerHealthy: bool)

  datatype Decision = Decision(
    allow: bool,
    needsReview: bool,
    reason: string,
    kind: DecisionType,
    requiredApprovals: nat)

  /** A map that a record points to: one of its own, or a cell that other records or the
      cluster state point to as well and that is written in place. */
  datatype Contents = Own(params: Params) | Shared(cell: string)

  datatype Job = Job(
    id: string,
    idemKey: string,
    tool: string,
    input: Contents,
    risk: Risk,
    decision: DecisionType,
    requiredApprovals: nat,
    rollbackPlanId: string,
    status: JobStatus,
    history: seq<JobStatus>,
    result: Option<Contents>,
    error: string,
    createdAt: int,
    updatedAt: int)

  datatype Audit = Audit(
    id: string,
    action: string,
    actor: string,
    risk: Risk,
    approved: bool,
    detail: AuditDetail,
    createdAt: int)

  /** What the health gate says about a cluster. */
  datatype HealthReport = HealthReport(
    allowWrites: bool,
    reason: string,
    quorumHealthy: bool,
    runnerHealthy: bool,
    onlineNodes: nat,
    totalNodes: nat,
    lastChecked: int,
    summary: string)

  datatype AuditDetail = AuditDetail(
    decisionReason: string,
    metadata: Params,
    health: HealthReport,
    secondApprover: string,
    hardwareMfa: bool,
    keySet: bool)

  datatype Incident = Incident(
    id: string,
    kind: string,
    severity: string,
    message: string,
    createdAt: int)

  datatype TaskStatus = Queued | TaskRunning | TaskCompleted | TaskFailed

  /** The result map of a completed task: the acknowledgement of a dead letter, or what
      the worker reports of its call. */
  datatype TaskResult =
    | Acknowledged
    | Report(jobId: string, decision: DecisionType, status: JobStatus, output: Option<Contents>)

  /** `payload` is the cell of the task's payload map, None for Go's nil. */
  datatype AgentTask = AgentTask(
    id: string,
    kind: string,
    payload: Option<string>,
    status: TaskStatus,
    requestedBy: string,
    priority: int,
    maxAttempts: int,
    deadLetter: bool,
    result: Option<TaskResult>,
    error: string,
    attempts: nat,
    createdAt: int,
    updatedAt: int,
    startedAt: Option<int>,
    finishedAt: Option<int>)
}
