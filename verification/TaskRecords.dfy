// What the steps of the queue and of the worker leave on record, field by field.
module TaskRecords {
  import opened Text
  import opened Models
  import opened Ids
  import opened StoreModel
  import opened Orchestrator
  import opened Pipeline
  import opened CallEffects
  import opened ControlRuns
  import opened ControlTheorems
  import opened Retry
  import opened QueueRuns
  import opened Autonomy
  import opened WorkerRuns
  import opened Records

  /** A new task: the seed's fields, with a requester, a priority of 50 and 3 attempts where
      it has none, and its payload map. */
  lemma NewTaskOnRecord(st: Store, seed: TaskSeed, parent: Option<string>, at: int)
    ensures var st', id := Apply(st, CreateTask(seed, parent, at)), IdText("task", st.seqNo + 1);
            && st'.queue.tasks.Keys == st.queue.tasks.Keys + {id}
            && (forall x | x in st.queue.tasks && x != id :: st'.queue.tasks[x] == st.queue.tasks[x])
            && var t := st'.queue.tasks[id];
               && t.id == id && t.kind == seed.kind && t.status == Queued && t.attempts == 0
               && t.requestedBy == (if seed.requestedBy == "" then "android-admin" else seed.requestedBy)
               && t.priority == (if seed.priority == 0 then 50 else seed.priority)
               && t.maxAttempts == (if seed.maxAttempts == 0 then 3 else seed.maxAttempts)
               && t.deadLetter == seed.deadLetter && t.result == None && t.error == ""
               && t.createdAt == t.updatedAt == at && t.startedAt == None && t.finishedAt == None
               && (seed.payload.Absent? ==> t.payload == None && st'.heap.payloads == st.heap.payloads)
               && (seed.payload.Fresh? ==>
                     t.payload == Some(id) && st'.heap.payloads == st.heap.payloads[id := seed.payload.params])
               && (seed.payload.SameAs? ==>
                     t.payload == Some(seed.payload.cell) && st'.heap.payloads == st.heap.payloads)
  {
    hide IdText;
  }

  /** A claim starts one task and touches no other. */
  lemma ClaimOnRecord(st: Store, id: string, at: int)
    requires id in st.queue.tasks
    ensures var st', t := Apply(st, ClaimTask(id, at)), st.queue.tasks[id];
            && st'.queue.claims == st.queue.claims + [id]
            && st'.queue.tasks == st.queue.tasks[id := t.(status := TaskRunning, attempts := t.attempts + 1,
                                                          updatedAt := at, startedAt := Some(at))]
            && st'.heap == st.heap && st'.ledger == st.ledger
  {
  }

  /** A completion records result, error and time; the mark of a dead letter follows its kind. */
  lemma CompletionOnRecord(st: Store, id: string, result: TaskResult, error: string, at: int)
    requires id in st.queue.tasks
    ensures var st', old_ := Apply(st, CompleteTask(id, result, error, at)), st.queue.tasks[id];
            && id in st'.queue.tasks && st'.queue.tasks == st.queue.tasks[id := st'.queue.tasks[id]]
            && var t := st'.queue.tasks[id];
               && t.status == (if error == "" then TaskCompleted else TaskFailed)
               && t.result == Some(result) && t.error == error && t.updatedAt == at && t.finishedAt == Some(at)
               && (t.deadLetter <==> old_.deadLetter || HasPrefix(old_.kind, "deadletter."))
               && t.id == old_.id && t.kind == old_.kind && t.payload == old_.payload
               && t.priority == old_.priority && t.requestedBy == old_.requestedBy
               && t.maxAttempts == old_.maxAttempts && t.attempts == old_.attempts
               && t.createdAt == old_.createdAt && t.startedAt == old_.startedAt
  {
  }

  /** What the worker asks for: the task's tool with its parameters and its id written into
      them, under the id as key and without any approval. */
  lemma WorkerCallOnRecord(h: Heap, task: AgentTask)
    ensures var req := WorkerRequest(h, task);
            var own := task.payload.Some? && task.payload.value in h.payloads;
            && req.tool == task.kind && req.idemKey == task.id
            && !req.approveNow && !req.hardwareMfa && Blank(req.secondApprover)
            && req.actor == "autonomy-worker" && req.metadata == map["source" := Str("autonomy-task")]
            && req.params == (if own then h.payloads[task.payload.value] else map[])["reconcile_job_id" := Str(task.id)]
            && (req.shared == if own then task.payload else None)
  {
  }

  /** What the worker writes into a payload map that it finds. */
  lemma WriteOnRecord(st: Store, id: string)
    requires id in st.queue.tasks && st.queue.tasks[id].payload.Some?
    requires st.queue.tasks[id].payload.value in st.heap.payloads
    ensures var st', cell := Apply(st, TagPayload(id)), st.queue.tasks[id].payload.value;
            && st'.heap.payloads ==
               st.heap.payloads[cell := st.heap.payloads[cell]["reconcile_job_id" := Str(id)]]
            && st'.queue == st.queue && st'.ledger == st.ledger
  {
  }

  /** The scheduler's tasks. */
  lemma ScheduledOnRecord(p: Plan, tool: string, minInterval: int, now: int)
    requires tool !in p.last || now - p.last[tool] >= minInterval
    ensures var p', id := Polled(p, tool, minInterval, now), IdText("task", p.st.seqNo + 1);
            && p'.last == p.last[tool := now] && id in p'.st.queue.tasks
            && var t := p'.st.queue.tasks[id];
               && t.kind == tool && t.priority == 50 && t.maxAttempts == 3 && t.createdAt == now
               && t.requestedBy == "autonomy-scheduler" && !t.deadLetter && t.status == Queued
               && t.payload == Some(id) && id in p'.st.heap.payloads && p'.st.heap.payloads[id] == map[]
  {
    hide IdText;
  }

  /** The job that decides a worker's step: the one its id names, or the one it adds. */
  ghost predicate Decides(st: Store, st': Store, id: string, job: Job) {
    match Lookup(st.ledger, id)
    case Some(bound) => job == bound
    case None => IdText("job", st.seqNo + 1) in st'.ledger.jobs && job == st'.ledger.jobs[IdText("job", st.seqNo + 1)]
  }

  /** The task after a worker's step says which job decided it and what became of that; the
      output only if the step's own call produced it. */
  lemma WorkedTaskOnRecord(cfg: Config, nodes: seq<Node>, acts: seq<Activity>, id: string,
                           t: WorkerTimes, clock: Clock, run: ToolRun) returns (job: Job)
    requires LegalRun(cfg, FreshStore(nodes), acts)
    requires Claimable(Run(cfg, FreshStore(nodes), acts).queue, id)
    requires !IsDeadLetter(Run(cfg, FreshStore(nodes), acts).queue.tasks[id].kind)
    ensures var st := Run(cfg, FreshStore(nodes), acts);
            var st' := WorkerStep(cfg, st, id, t, clock, run);
            && Decides(st, st', id, job) && id in st'.queue.tasks
            && var task := st'.queue.tasks[id];
               && task.finishedAt == Some(t.finished)
               && task.result == Some(Report(job.id, job.decision, job.status,
                                             if Lookup(st.ledger, id).Some? then None else job.result))
               && task.error == (if job.status == Completed then ""
                                 else if job.error == "" then "task not completed automatically" else job.error)
  {
    hide Run, LegalRun, Inv, QueueInv, KeysInv, Claimable, Lookup, AttemptsInv, IsTaskId, WorkerStep, IsDeadLetter;
    var st := Run(cfg, FreshStore(nodes), acts);
    LegalRunsAreControlled(cfg, nodes, acts);
    ClaimableIsTask(st.queue, id);
    RunHasKeys(cfg, nodes, acts, id);
    job := WorkedJob(cfg, st, id, t, clock, run);
  }

  lemma WorkedJob(cfg: Config, st: Store, id: string, t: WorkerTimes, clock: Clock, run: ToolRun) returns (job: Job)
    requires Inv(st) && KeysInv(st.queue, st.seqNo) && Claimable(st.queue, id) && id in st.queue.tasks
    requires IsTaskId(id) && st.queue.tasks[id].id == id && !IsDeadLetter(st.queue.tasks[id].kind)
    ensures var st' := WorkerStep(cfg, st, id, t, clock, run);
            && Decides(st, st', id, job) && id in st'.queue.tasks
            && var task := st'.queue.tasks[id];
               && task.finishedAt == Some(t.finished)
               && task.result == Some(Report(job.id, job.decision, job.status,
                                             if Lookup(st.ledger, id).Some? then None else job.result))
               && task.error == (if job.status == Completed then ""
                                 else if job.error == "" then "task not completed automatically" else job.error)
  {
    hide Inv, KeysInv, Claimable, Handle, ReturnedJob, Concluded, Calling, StepCompletes, Answered, Lookup, IsTaskId,
         WorkerStep, WorkerRequest, IsDeadLetter, IdText;
    var calling := Calling(st, id, t);
    var task := Claim(st.queue, id, t.claimed).tasks[id];
    var req := WorkerRequest(calling.heap, task);
    CallingKeepsRest(st, id, t);
    WorkerErrorIff(cfg, st, calling, task, clock, run);
    CallKeepsTask(cfg, calling, req, clock, run, id);
    WorkedOn(cfg, st, id, t, clock, run);
    var called := Handle(cfg, calling, req, clock, run);
    job := DecidingJob(cfg, st, calling, task, clock, run);
    ConcludedTask(called, id, WorkerReport(cfg, calling, task, clock, run),
                  WorkerError(ReturnedJob(cfg, calling, req, clock, run)), t);
  }

  /** The job that the worker's call returns, as it is stored. */
  lemma DecidingJob(cfg: Config, st: Store, calling: Store, task: AgentTask, clock: Clock, run: ToolRun)
    returns (job: Job)
    requires Inv(st) && calling.ledger == st.ledger && calling.seqNo == st.seqNo
    requires Lookup(st.ledger, task.id).Some? <==> Answered(calling, WorkerRequest(calling.heap, task))
    ensures var req := WorkerRequest(calling.heap, task);
            var returned := ReturnedJob(cfg, calling, req, clock, run);
            && Decides(st, Handle(cfg, calling, req, clock, run), task.id, job)
            && returned.id == job.id && returned.decision == job.decision && returned.status == job.status
            && returned.error == job.error && returned.result == job.result
            && job.status in {Completed, Failed, Blocked, PendingApproval}
  {
    hide IndexInv, ExecutedInv, AuditsInv, IncidentsInv, ApprovalInv, Path, CounterOf, Handle, IdText, Answered;
    var req := WorkerRequest(calling.heap, task);
    if Answered(calling, req) {
      job := Lookup(st.ledger, task.id).value;
      AnsweredIsInert(cfg, calling, req, clock, run);
    } else {
      ReturnedIsStored(cfg, calling, req, clock, run);
      UnansweredStatus(cfg, calling, req, clock, run);
      job := Handle(cfg, calling, req, clock, run).ledger.jobs[IdText("job", calling.seqNo + 1)];
    }
  }

  /** Completing a task nobody knows changes nothing, but a failure is followed by a retry of
      the zero value: no tool, no payload, and every default. */
  lemma UnknownTaskOnRecord(st: Store, id: string, result: TaskResult, error: string, t: WorkerTimes)
    requires id !in st.queue.tasks
    ensures error == "" ==> Concluded(st, id, result, error, t) == st
    ensures error != "" ==>
              var st', y := Concluded(st, id, result, error, t), IdText("task", st.seqNo + 1);
              && st'.queue.tasks.Keys == st.queue.tasks.Keys + {y} && st'.ledger == st.ledger
              && var retry := st'.queue.tasks[y];
                 && retry.kind == "" && retry.payload == None && retry.requestedBy == "android-admin"
                 && retry.priority == 50 && retry.maxAttempts == 3 && !retry.deadLetter
                 && retry.status == Queued && retry.createdAt == t.requeued
  {
    hide IdText;
  }

  /** A change of the nodes touches nothing else but the results that share them. */
  lemma NodesOnRecord(st: Store, nodes: seq<Node>, touched: map<string, Params>)
    ensures var st' := Apply(st, SetNodes(nodes, touched));
            && st'.nodes == nodes && st'.ledger == st.ledger && st'.queue == st.queue && st'.mode == st.mode
            && st'.heap.payloads == st.heap.payloads && st'.heap.outputs.Keys == st.heap.outputs.Keys
            && forall id | id in st.heap.outputs ::
                 st'.heap.outputs[id] == if id in touched then touched[id] else st.heap.outputs[id]
  {
  }

  /** A failed task without attempts left is followed by a dead letter that names it and its
      error. */
  lemma DeadLetterOnRecord(st: Store, id: string, result: TaskResult, error: string, t: WorkerTimes)
    requires KeysInv(st.queue, st.seqNo) && id in st.queue.tasks && error != ""
    requires var task := st.queue.tasks[id];
             task.attempts >= if task.maxAttempts <= 0 then 3 else task.maxAttempts
    ensures var st', y := Concluded(st, id, result, error, t), IdText("task", st.seqNo + 1);
            && y in st'.queue.tasks && st'.queue.tasks[y].kind == "deadletter." + st.queue.tasks[id].kind
            && st'.queue.tasks[y].payload == Some(y) && y in st'.heap.payloads
            && st'.heap.payloads[y] == map["origin_task_id" := Str(id), "error" := Str(error)]
  {
    hide IdText, CounterOf;
  }

  /** A dead letter is only acknowledged: no call is made, and nothing but that task changes. */
  lemma AcknowledgementOnRecord(cfg: Config, st: Store, id: string, t: WorkerTimes, clock: Clock, run: ToolRun)
    requires id in st.queue.tasks && HasPrefix(st.queue.tasks[id].kind, "deadletter.")
    ensures var st' := WorkerStep(cfg, st, id, t, clock, run);
            && st'.ledger == st.ledger && st'.heap == st.heap && st'.mode == st.mode && st'.seqNo == st.seqNo
            && st'.queue.tasks == st.queue.tasks[id := st'.queue.tasks[id]]
            && st'.queue.tasks[id].status == TaskCompleted && st'.queue.tasks[id].result == Some(Acknowledged)
            && st'.queue.tasks[id].error == "" && st'.queue.tasks[id].finishedAt == Some(t.finished)
  {
  }
}
