// backend/internal/store/memory.go: the mutable store.
module StoreImpl {
  import opened Text
  import opened Models
  import opened Ids
  import opened PolicyGate
  import opened StoreModel

  class MemoryStore {
    var seqNo: nat
    var rollbackSeqNo: nat
    var jobs: map<string, Job>
    var byIdemKey: map<string, string>
    var audits: seq<Audit>
    var incidents: seq<Incident>
    var nodes: seq<Node>
    var agentTasks: map<string, AgentTask>
    var payloads: map<string, Params>
    var outputs: map<string, Params>
    var policyMode: PolicyModeState

    ghost var trace: map<string, seq<JobStatus>>
    ghost var executed: seq<Execution>
    ghost var claims: seq<string>
    ghost var root: map<string, string>
    ghost var next: map<string, string>
    ghost var head: map<string, string>
    ghost var lastTag: map<string, string>

    ghost function QueueView(): Queue
      reads this
    {
      Queue(agentTasks, claims, root, next, head)
    }

    ghost function HeapView(): Heap
      reads this
    {
      Heap(payloads, outputs, lastTag)
    }

    ghost function View(): Store
      reads this
    {
      Store(seqNo, rollbackSeqNo, Ledger(jobs, byIdemKey, audits, incidents, trace, executed),
            QueueView(), HeapView(), nodes, policyMode)
    }

    constructor (seedNodes: seq<Node>)
      ensures View() == FreshStore(seedNodes)
    {
      seqNo, rollbackSeqNo := 0, 0;
      jobs, byIdemKey, audits, incidents := map[], map[], [], [];
      nodes, agentTasks, policyMode := seedNodes, map[], INITIAL_MODE;
      trace, executed, claims := map[], [], [];
      root, next, head := map[], map[], map[];
      payloads, outputs, lastTag := map[], map[], map[];
    }

    method NextID(prefix: string) returns (id: string)
      modifies this`seqNo
      ensures View() == old(View()).(seqNo := old(seqNo) + 1)
      ensures id == IdText(prefix, old(seqNo) + 1)
    {
      seqNo := seqNo + 1;
      id := IdText(prefix, seqNo);
    }

    method NextRollbackPlanID() returns (id: string)
      modifies this`rollbackSeqNo
      ensures View() == old(View()).(rollbackNo := old(rollbackSeqNo) + 1)
      ensures id == IdText("rollback", old(rollbackSeqNo) + 1)
    {
      rollbackSeqNo := rollbackSeqNo + 1;
      id := IdText("rollback", rollbackSeqNo);
    }

    method CreateJob(draft: Job, at: int) returns (job: Job)
      modifies this
      ensures View() == Apply(old(View()), Op.CreateJob(draft, at)) && seqNo == old(seqNo) + 1
      ensures job == CreatedJob(draft, old(seqNo), old(rollbackSeqNo), at)
    {
      hide PutCreatedJob;
      var id := NextID("job");
      job := draft.(id := id, createdAt := at, updatedAt := at);
      if job.history == [] {
        job := job.(history := [job.status]);
      }
      if job.rollbackPlanId == "" {
        var rollback := NextRollbackPlanID();
        job := job.(rollbackPlanId := rollback);
      }
      InsertJob(job);
    }

    /** The locked part of CreateJob. */
    method InsertJob(job: Job)
      modifies this`jobs, this`byIdemKey, this`trace
      ensures View() == old(View()).(ledger := PutCreatedJob(old(View()).ledger, job))
    {
      jobs := jobs[job.id := job];
      if job.idemKey != "" {
        byIdemKey := byIdemKey[job.idemKey := job.id];
      }
      trace := trace[job.id := [job.status]];
    }

    method UpdateJob(update: Job, at: int)
      modifies this`jobs, this`trace
      ensures View() == Apply(old(View()), Op.UpdateJob(update, at))
    {
      var job := update.(updatedAt := at);
      if job.id in jobs {
        if job.history == [] {
          job := job.(history := jobs[job.id].history);
        }
        if job.history == [] || job.history[|job.history| - 1] != job.status {
          job := job.(history := job.history + [job.status]);
        }
      }
      trace := trace[job.id := Trace(View().ledger, job.id) + [job.status]];
      jobs := jobs[job.id := job];
    }

    method GetJobByIdempotencyKey(key: string) returns (job: Option<Job>)
      ensures job == Lookup(View().ledger, key)
    {
      if key in byIdemKey && byIdemKey[key] in jobs {
        job := Some(jobs[byIdemKey[key]]);
      } else {
        job := None;
      }
    }

    method AddAudit(action: string, actor: string, risk: Risk, approved: bool, detail: AuditDetail, at: int)
      returns (audit: Audit)
      modifies this`seqNo, this`audits
      ensures View() == Apply(old(View()), Op.AddAudit(action, actor, risk, approved, detail, at))
      ensures audit == Audit(IdText("audit", old(seqNo) + 1), action, actor, risk, approved, detail, at)
    {
      var id := NextID("audit");
      audit := Audit(id, action, actor, risk, approved, detail, at);
      audits := audits + [audit];
    }

    method RecordIncident(kind: string, severity: string, message: string, at: int)
      modifies this`seqNo, this`incidents
      ensures View() == Apply(old(View()), Op.RecordIncident(kind, severity, message, at))
    {
      var id := NextID("incident");
      incidents := incidents + [Incident(id, kind, severity, message, at)];
    }

    method GetPolicyMode(at: int) returns (mode: PolicyModeState)
      modifies this`policyMode
      ensures View() == Apply(old(View()), ReadPolicyMode(at))
      ensures mode == policyMode == ReadMode(old(policyMode), at)
    {
      if policyMode.mode == AggressiveAuto && policyMode.aggressiveUntil.Some?
         && at > policyMode.aggressiveUntil.value {
        policyMode := policyMode.(mode := GuardedSre, updatedAt := at);
      }
      mode := policyMode;
    }

    method SetPolicyMode(mode: PolicyMode, actor: string, duration: int, at: int)
      modifies this`policyMode
      ensures View() == old(View()).(mode := WriteMode(mode, actor, duration, at))
    {
      policyMode := policyMode.(mode := mode, lastChangedBy := actor, updatedAt := at);
      if mode == AggressiveAuto && duration > 0 {
        policyMode := policyMode.(aggressiveUntil := Some(at + duration));
      } else {
        policyMode := policyMode.(aggressiveUntil := None);
      }
    }

    /** The locked part of CreateAgentTask. `parent` is history: the failed task
        this one succeeds. */
    method InsertTask(task: AgentTask, ghost parent: Option<string>)
      modifies this`agentTasks, this`root, this`next, this`head
      ensures View() == old(View()).(queue := PutTask(old(QueueView()), task, parent))
    {
      hide RootOf;
      ghost var q := PutTask(QueueView(), task, parent);
      agentTasks := agentTasks[task.id := task];
      root, next, head := q.root, q.next, q.head;
    }

    /** A map that no record points to yet. */
    method NewPayload(payload: Payload, id: string)
      modifies this`payloads
      ensures View() == old(View()).(heap := Allocated(old(HeapView()), payload, id))
    {
      if payload.Fresh? {
        payloads := payloads[id := payload.params];
      }
    }

    /** The task with the defaults of CreateAgentTask. */
    method FilledIn(seed: TaskSeed, id: string, at: int) returns (task: AgentTask)
      ensures task == TaskOf(seed, id, at)
    {
      task := AgentTask(id, seed.kind, PayloadCell(seed.payload, id), Queued, seed.requestedBy, seed.priority,
                        seed.maxAttempts, seed.deadLetter, None, "", 0, at, at, None, None);
      if task.requestedBy == "" {
        task := task.(requestedBy := "android-admin");
      }
      if task.priority == 0 {
        task := task.(priority := 50);
      }
      if task.maxAttempts == 0 {
        task := task.(maxAttempts := 3);
      }
    }

    method CreateAgentTask(seed: TaskSeed, ghost parent: Option<string>, at: int) returns (task: AgentTask)
      modifies this`seqNo, this`agentTasks, this`root, this`next, this`head, this`payloads
      ensures View() == AddTask(old(View()), seed, parent, at) == Apply(old(View()), CreateTask(seed, parent, at))
      ensures task == TaskOf(seed, IdText("task", old(seqNo) + 1), at)
    {
      hide PutTask, Allocated, TaskOf;
      var id := NextID("task");
      task := FilledIn(seed, id, at);
      NewPayload(seed.payload, id);
      InsertTask(task, parent);
    }

    method MarkClaimed(id: string, at: int)
      requires id in agentTasks
      modifies this`agentTasks, this`claims
      ensures View() == Apply(old(View()), ClaimTask(id, at)) && id in agentTasks
    {
      var t := agentTasks[id];
      agentTasks := agentTasks[id := t.(status := TaskRunning, attempts := t.attempts + 1,
                                        updatedAt := at, startedAt := Some(at))];
      claims := claims + [id];
    }

    /** The claim loop over the task map in whatever order the map yields. */
    method ClaimNextAgentTask(at: int) returns (picked: Option<AgentTask>)
      modifies this`agentTasks, this`claims
      ensures picked.None? ==>
                && View() == old(View())
                && forall id | id in agentTasks :: agentTasks[id].status != Queued
      ensures picked.Some? ==>
                exists id ::
                  && Claimable(old(QueueView()), id) && id in agentTasks
                  && View() == Apply(old(View()), ClaimTask(id, at))
                  && picked.value == agentTasks[id]
    {
      var rest := agentTasks.Keys;
      var best: Option<string> := None;
      while rest != {}
        invariant rest <= agentTasks.Keys
        invariant best.Some? ==> best.value in agentTasks && agentTasks[best.value].status == Queued
        invariant forall id | id in agentTasks.Keys - rest && agentTasks[id].status == Queued ::
                    best.Some? && !Ahead(agentTasks[id], agentTasks[best.value])
        decreases rest
      {
        var id :| id in rest;
        rest := rest - {id};
        var t := agentTasks[id];
        if t.status == Queued && (best.None? || Ahead(t, agentTasks[best.value])) {
          best := Some(id);
        }
      }
      if best.None? {
        return None;
      }
      var id := best.value;
      assert Claimable(QueueView(), id);
      MarkClaimed(id, at);
      picked := Some(agentTasks[id]);
    }

    method CompleteAgentTask(id: string, result: TaskResult, error: string, at: int) returns (task: Option<AgentTask>)
      modifies this`agentTasks
      ensures View() == Apply(old(View()), CompleteTask(id, result, error, at))
      ensures task == if id in agentTasks then Some(agentTasks[id]) else None
    {
      if id !in agentTasks {
        return None;
      }
      var t := agentTasks[id].(updatedAt := at, finishedAt := Some(at), result := Some(result), error := error);
      if HasPrefix(t.kind, DEAD) {
        t := t.(deadLetter := true);
      }
      if error != "" {
        t := t.(status := TaskFailed);
      } else {
        t := t.(status := TaskCompleted);
      }
      agentTasks := agentTasks[id := t];
      task := Some(t);
    }

    /** A tool changes the cluster state, and with it the results that share it. */
    method TouchOutputs(jobId: string, effect: ToolEffect, output: Option<Params>)
      modifies this`outputs
      ensures View() == old(View()).(heap := OutputPut(old(HeapView()), jobId, effect, output))
    {
      outputs := Touched(outputs, effect.touched);
      if output.Some? {
        outputs := outputs[jobId := output.value];
      }
    }

    /** The worker writes into the payload map that the task, its retries and the jobs called
        for them share. */
    method TagTaskPayload(id: string)
      modifies this`payloads, this`lastTag
      ensures View() == Apply(old(View()), TagPayload(id))
    {
      if id in agentTasks && agentTasks[id].payload.Some? {
        var cell := agentTasks[id].payload.value;
        if cell in payloads {
          payloads := payloads[cell := payloads[cell][RECONCILE_KEY := Str(id)]];
          lastTag := lastTag[cell := id];
        }
      }
    }
  }
}
