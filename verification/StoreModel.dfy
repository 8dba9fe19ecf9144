// What backend/internal/store/memory.go does, as a value and one step function.
// The class MemoryStore (Store.dfy) is proved to perform exactly these steps;
// the run properties are proved about them.
module StoreModel {
  import opened Text
  import opened Models
  import opened Ids
  import opened PolicyGate

  /** One entry into orchestrator.Execute: a history variable. */
  datatype Execution = Execution(
    jobId: string,
    key: string,
    tool: string,
    risk: Risk,
    approveNow: bool,
    hardwareMfa: bool,
    secondApproverBlank: bool)

  /** `trace` holds every status ever written to a job and `executed` every tool
      execution; both are history, not state the program keeps. */
  datatype Ledger = Ledger(
    jobs: map<string, Job>,
    byKey: map<string, string>,
    audits: seq<Audit>,
    incidents: seq<Incident>,
    trace: map<string, seq<JobStatus>>,
    executed: seq<Execution>)

  /** A lineage is a task and its retries. History: `claims` lists claimed task
      ids, `root` maps a task to the first of its lineage, `next` a failed task to
      its successor and `head` a lineage to its newest task. */
  datatype Queue = Queue(
    tasks: map<string, AgentTask>,
    claims: seq<string>,
    root: map<string, string>,
    next: map<string, string>,
    head: map<string, string>)

  /** The maps that records share. `payloads` are the payload maps of tasks, each under the
      id of the task it was made for, and `outputs` the results that share slices with
      the cluster state, under the id of their job. History: `lastTag` maps a payload to
      the task the worker last wrote into it. */
  datatype Heap = Heap(payloads: map<string, Params>, outputs: map<string, Params>, lastTag: map<string, string>)

  datatype Store = Store(
    seqNo: nat,
    rollbackNo: nat,
    ledger: Ledger,
    queue: Queue,
    heap: Heap,
    nodes: seq<Node>,
    mode: PolicyModeState)

  /** The payload handed to CreateAgentTask: nil, a map of its own, or the map of another
      task. */
  datatype Payload = Absent | Fresh(params: Params) | SameAs(cell: string)

  datatype TaskSeed = TaskSeed(
    kind: string,
    payload: Payload,
    requestedBy: string,
    priority: int,
    maxAttempts: int,
    deadLetter: bool)

  /** Only the worker's retries take over the payload of another task. */
  type NewSeed = s: TaskSeed | !s.payload.SameAs? witness TaskSeed("", Absent, "", 0, 0, false)

  /** What a tool may do to the store besides succeeding or failing: take
      generated ids, queue one task, change the nodes, and with the cluster state the
      earlier results that share it. */
  datatype ToolEffect = ToolEffect(
    idsTaken: nat,
    newTask: Option<NewSeed>,
    nodes: seq<Node>,
    touched: map<string, Params>,
    at: int)

  datatype Op =
    | ReadPolicyMode(at: int)
    | CreateJob(draft: Job, at: int)
    | UpdateJob(job: Job, at: int)
    | AddAudit(action: string, actor: string, risk: Risk, approved: bool, detail: AuditDetail, at: int)
    | RecordIncident(kind: string, severity: string, message: string, at: int)
    | RunTool(entry: Execution, params: Params, effect: ToolEffect, output: Option<Params>)
    | CreateTask(seed: TaskSeed, parent: Option<string>, at: int)
    | ClaimTask(id: string, at: int)
    | TagPayload(id: string)
    | CompleteTask(id: string, result: TaskResult, error: string, at: int)
    | SetNodes(nodes: seq<Node>, touched: map<string, Params>)
    | TakeIds(count: nat)

  function FreshStore(nodes: seq<Node>): Store {
    Store(0, 0, Ledger(map[], map[], [], [], map[], []), Queue(map[], [], map[], map[], map[]),
          Heap(map[], map[], map[]), nodes, INITIAL_MODE)
  }

  // ---- Jobs ----

  function CreatedJob(draft: Job, seqNo: nat, rollbackNo: nat, at: int): Job {
    draft.(
    id := IdText("job", seqNo + 1),
    createdAt := at,
    updatedAt := at,
    history := if draft.history == [] then [draft.status] else draft.history,
    rollbackPlanId :=
      if draft.rollbackPlanId == "" then IdText("rollback", rollbackNo + 1) else draft.rollbackPlanId)
  }

  function PutCreatedJob(l: Ledger, job: Job): Ledger {
    l.(
    jobs := l.jobs[job.id := job],
    byKey := if job.idemKey == "" then l.byKey else l.byKey[job.idemKey := job.id],
    trace := l.trace[job.id := [job.status]])
  }

  /** UpdateJob appends the status to the history the caller hands in, not to the
      stored one, unless the caller's is empty. */
  function UpdatedJob(l: Ledger, job: Job, at: int): Job {
    var stamped := job.(updatedAt := at);
    if job.id !in l.jobs then stamped
    else
      var base := if job.history == [] then l.jobs[job.id].history else job.history;
      stamped.(history := if base == [] || base[|base| - 1] != job.status then base + [job.status] else base)
  }

  function Trace(l: Ledger, id: string): seq<JobStatus> {
    if id in l.trace then l.trace[id] else []
  }

  function PutUpdatedJob(l: Ledger, job: Job, at: int): Ledger {
    l.(
    jobs := l.jobs[job.id := UpdatedJob(l, job, at)],
    trace := l.trace[job.id := Trace(l, job.id) + [job.status]])
  }

  /** GetJobByIdempotencyKey */
  function Lookup(l: Ledger, key: string): Option<Job> {
    if key in l.byKey && l.byKey[key] in l.jobs then Some(l.jobs[l.byKey[key]]) else None
  }

  // ---- Agent tasks ----

  function PayloadCell(payload: Payload, id: string): Option<string> {
    match payload
    case Absent => None
    case Fresh(_) => Some(id)
    case SameAs(cell) => Some(cell)
  }

  /** A new task's own payload map is a new cell. */
  function Allocated(h: Heap, payload: Payload, id: string): Heap {
    if payload.Fresh? then h.(payloads := h.payloads[id := payload.params]) else h
  }

  function TaskOf(seed: TaskSeed, id: string, at: int): AgentTask {
    AgentTask(
      id,
      seed.kind,
      PayloadCell(seed.payload, id),
      Queued,
      if seed.requestedBy == "" then "android-admin" else seed.requestedBy,
      if seed.priority == 0 then 50 else seed.priority,
      if seed.maxAttempts == 0 then 3 else seed.maxAttempts,
      seed.deadLetter,
      None,
      "",
      0,
      at,
      at,
      None,
      None)
  }

  function RootOf(q: Queue, parent: Option<string>, id: string): string {
    if parent.Some? && parent.value in q.root then q.root[parent.value] else id
  }

  function PutTask(q: Queue, task: AgentTask, parent: Option<string>): Queue {
    var root := RootOf(q, parent, task.id);
    q.(
    tasks := q.tasks[task.id := task],
    root := q.root[task.id := root],
    head := q.head[root := task.id],
    next := if parent.Some? then q.next[parent.value := task.id] else q.next)
  }

  /** The order in which tasks are served: priority first, then age. */
  predicate Ahead(a: AgentTask, b: AgentTask) {
    a.priority > b.priority || (a.priority == b.priority && a.createdAt < b.createdAt)
  }

  /** A queued task that no queued task is ahead of. */
  predicate Claimable(q: Queue, id: string) {
    && id in q.tasks
    && q.tasks[id].status == Queued
    && forall other | other in q.tasks && q.tasks[other].status == Queued ::
        !Ahead(q.tasks[other], q.tasks[id])
  }

  function Claim(q: Queue, id: string, at: int): Queue {
    if id !in q.tasks then q
    else
      var t := q.tasks[id];
      q.(
      tasks := q.tasks[id := t.(
                  status := TaskRunning, attempts := t.attempts + 1, updatedAt := at, startedAt := Some(at))],
      claims := q.claims + [id])
  }

  const RECONCILE_KEY := "reconcile_job_id"

  /** The worker writes its task's id into the payload map, in place. */
  function Tag(h: Heap, q: Queue, id: string): Heap {
    if id in q.tasks && q.tasks[id].payload.Some? && q.tasks[id].payload.value in h.payloads then
      var cell := q.tasks[id].payload.value;
      h.(
      payloads := h.payloads[cell := h.payloads[cell][RECONCILE_KEY := Str(id)]],
      lastTag := h.lastTag[cell := id])
    else h
  }

  // ---- Results ----

  /** The results that share the cluster state after a change to it. */
  function Touched(outputs: map<string, Params>, touched: map<string, Params>): map<string, Params> {
    map id | id in outputs :: if id in touched then touched[id] else outputs[id]
  }

  function ContentsIn(cells: map<string, Params>, c: Contents): Params {
    match c
    case Own(params) => params
    case Shared(cell) => if cell in cells then cells[cell] else map[]
  }

  /** What a job's input map holds now. */
  function InputIn(h: Heap, job: Job): Params {
    ContentsIn(h.payloads, job.input)
  }

  function ResultIn(h: Heap, job: Job): Option<Params> {
    if job.result.None? then None else Some(ContentsIn(h.outputs, job.result.value))
  }

  const DEAD := "deadletter."

  function Complete(q: Queue, id: string, result: TaskResult, error: string, at: int): Queue {
    if id !in q.tasks then q
    else
      var t := q.tasks[id];
      q.(tasks := q.tasks[id := t.(
                  updatedAt := at,
                  finishedAt := Some(at),
                  result := Some(result),
                  error := error,
                  deadLetter := t.deadLetter || HasPrefix(t.kind, DEAD),
                  status := if error != "" then TaskFailed else TaskCompleted)])
  }

  // ---- Policy mode as a tool ----

  /** proxmox.Client.SetPolicyMode: minutes below zero count as zero, and the
      conversion to nanoseconds is a 64-bit product. */
  function ModeSetByTool(params: Params, at: int): PolicyModeState {
    var minutes := IntFrom(Get(params, "duration_minutes"), 0);
    WriteMode(
      if StringFrom(Get(params, "mode")) in {"AGGRESSIVE_AUTO", "aggressive", "aggressive_auto"}
      then AggressiveAuto else GuardedSre,
      StringFrom(Get(params, "actor")),
      Wrap64((if minutes < 0 then 0 else minutes) * MINUTE),
      at)
  }

  // ---- One step ----

  function Apply(st: Store, op: Op): Store {
    match op
    case ReadPolicyMode(at) => st.(mode := ReadMode(st.mode, at))
    case CreateJob(draft, at) =>
      var job := CreatedJob(draft, st.seqNo, st.rollbackNo, at);
      st.(
      seqNo := st.seqNo + 1,
      rollbackNo := if draft.rollbackPlanId == "" then st.rollbackNo + 1 else st.rollbackNo,
      ledger := PutCreatedJob(st.ledger, job))
    case UpdateJob(job, at) => st.(ledger := PutUpdatedJob(st.ledger, job, at))
    case AddAudit(action, actor, risk, approved, detail, at) =>
      var audit := Audit(IdText("audit", st.seqNo + 1), action, actor, risk, approved, detail, at);
      st.(seqNo := st.seqNo + 1, ledger := st.ledger.(audits := st.ledger.audits + [audit]))
    case RecordIncident(kind, severity, message, at) =>
      var incident := Incident(IdText("incident", st.seqNo + 1), kind, severity, message, at);
      st.(seqNo := st.seqNo + 1, ledger := st.ledger.(incidents := st.ledger.incidents + [incident]))
    case RunTool(entry, params, effect, output) =>
      var ran := RanTool(st, entry, params, effect, output);
      if effect.newTask.None? then ran else AddTask(ran, effect.newTask.value, None, effect.at)
    case CreateTask(seed, parent, at) => AddTask(st, seed, parent, at)
    case ClaimTask(id, at) => st.(queue := Claim(st.queue, id, at))
    case TagPayload(id) => st.(heap := Tag(st.heap, st.queue, id))
    case CompleteTask(id, result, error, at) => st.(queue := Complete(st.queue, id, result, error, at))
    case SetNodes(nodes, touched) =>
      st.(nodes := nodes, heap := st.heap.(outputs := Touched(st.heap.outputs, touched)))
    case TakeIds(count) => st.(seqNo := st.seqNo + count)
  }

  /** A tool run apart from the task it may queue. */
  function RanTool(st: Store, entry: Execution, params: Params, effect: ToolEffect, output: Option<Params>): Store {
    st.(
    seqNo := st.seqNo + effect.idsTaken,
    heap := OutputPut(st.heap, entry.jobId, effect, output),
    nodes := effect.nodes,
    mode := if entry.tool == "policy.mode.set" then ModeSetByTool(params, effect.at) else st.mode,
    ledger := st.ledger.(executed := st.ledger.executed + [entry]))
  }

  function OutputPut(h: Heap, jobId: string, effect: ToolEffect, output: Option<Params>): Heap {
    var outputs := Touched(h.outputs, effect.touched);
    h.(outputs := if output.Some? then outputs[jobId := output.value] else outputs)
  }

  function AddTask(st: Store, seed: TaskSeed, parent: Option<string>, at: int): Store {
    st.(
    seqNo := st.seqNo + 1,
    queue := PutTask(st.queue, TaskOf(seed, IdText("task", st.seqNo + 1), at), parent),
    heap := Allocated(st.heap, seed.payload, IdText("task", st.seqNo + 1)))
  }

  function ApplyAll(st: Store, ops: seq<Op>): Store {
    if ops == [] then st else Apply(ApplyAll(st, ops[..|ops| - 1]), ops[|ops| - 1])
  }

  lemma ApplyAllSnoc(st: Store, ops: seq<Op>, op: Op)
    ensures ApplyAll(st, ops + [op]) == Apply(ApplyAll(st, ops), op)
  {
    hide Apply;
    assert (ops + [op])[..|ops|] == ops;
  }

  lemma {:induction false} ApplyAllConcat(st: Store, first: seq<Op>, rest: seq<Op>)
    ensures ApplyAll(st, first + rest) == ApplyAll(ApplyAll(st, first), rest)
  {
    hide Apply;
    if rest == [] {
      assert first + rest == first;
    } else {
      var init := rest[..|rest| - 1];
      ApplyAllConcat(st, first, init);
      assert (first + rest)[..|first + rest| - 1] == first + init;
    }
  }
}
