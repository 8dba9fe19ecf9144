// backend/internal/autonomy/service.go: the scheduler and the worker.
module Autonomy {
  import opened Text
  import opened Models
  import opened Ids
  import opened StoreModel
  import opened StoreImpl
  import opened Orchestrator
  import opened Pipeline
  import opened ControlTheorems
  import opened Retry
  import opened QueueRuns
  import Scheduler

  /** The instants of one worker step besides those of its call. */
  datatype WorkerTimes = WorkerTimes(claimed: int, finished: int, requeued: int)

  /** The error the worker records for a returned job, "" when it completed. */
  function WorkerError(job: Job): string {
    if job.status in {Blocked, PendingApproval, Failed} then
      if job.error == "" then "task not completed automatically" else job.error
    else ""
  }

  function ScheduledSeed(tool: string): TaskSeed {
    TaskSeed(tool, Fresh(map[]), "autonomy-scheduler", 50, 3, false)
  }

  /** What the worker records of its call. An answered call has no output. */
  function WorkerReport(cfg: Config, st: Store, task: AgentTask, clock: Clock, run: ToolRun): TaskResult {
    var req := WorkerRequest(st.heap, task);
    var job := ReturnedJob(cfg, st, req, clock, run);
    Report(job.id, job.decision, job.status, if Answered(st, req) then None else job.result)
  }

  /** Go's zero value, which completing an unknown task returns. */
  const NO_TASK := AgentTask("", "", None, Queued, "", 0, 0, false, None, "", 0, 0, 0, None, None)

  /** The worker's end of a task: completed, or failed and followed by its successor. An
      unknown task is "followed" by a retry of the zero value. */
  function Concluded(st: Store, id: string, result: TaskResult, error: string, t: WorkerTimes): Store {
    var done := Apply(st, CompleteTask(id, result, error, t.finished));
    if error == "" then done
    else if id in done.queue.tasks then
      Apply(done, CreateTask(SuccessorSeed(done.queue.tasks[id]), Some(id), t.requeued))
    else Apply(done, CreateTask(SuccessorSeed(NO_TASK), None, t.requeued))
  }

  /** The store at the moment the worker calls the pipeline. */
  function Calling(st: Store, id: string, t: WorkerTimes): Store {
    Apply(Apply(st, ClaimTask(id, t.claimed)), TagPayload(id))
  }

  /** The worker's step from its call on. */
  function Worked(cfg: Config, calling: Store, task: AgentTask, t: WorkerTimes, clock: Clock, run: ToolRun): Store {
    var req := WorkerRequest(calling.heap, task);
    Concluded(Handle(cfg, calling, req, clock, run), task.id, WorkerReport(cfg, calling, task, clock, run),
              WorkerError(ReturnedJob(cfg, calling, req, clock, run)), t)
  }

  /** One worker step on the claimable task id. */
  function WorkerStep(cfg: Config, st: Store, id: string, t: WorkerTimes, clock: Clock, run: ToolRun): Store
    requires id in st.queue.tasks
  {
    var task := Claim(st.queue, id, t.claimed).tasks[id];
    if IsDeadLetter(task.kind) then Concluded(Apply(st, ClaimTask(id, t.claimed)), id, Acknowledged, "", t)
    else Worked(cfg, Calling(st, id, t), task, t, clock, run)
  }

  /** The store, and when the scheduler last created a task of each tool. */
  datatype Plan = Plan(st: Store, last: map<string, int>)

  function LastIn(last: map<string, int>, tool: string): Option<int> {
    if tool in last then Some(last[tool]) else None
  }

  /** One poll of a recurring tool. */
  function Polled(p: Plan, tool: string, minInterval: int, now: int): Plan {
    if Scheduler.Due(LastIn(p.last, tool), minInterval, now)
    then Plan(Apply(p.st, CreateTask(ScheduledSeed(tool), None, now)), p.last[tool := now]) else p
  }

  class Service {
    const store: MemoryStore
    const mcp: Pipeline.Service
    var lastScheduled: map<string, int>

    constructor (store: MemoryStore, mcp: Pipeline.Service)
      requires mcp.store == store
      ensures this.store == store && this.mcp == mcp && lastScheduled == map[]
    {
      this.store, this.mcp, lastScheduled := store, mcp, map[];
    }

    method ScheduleOnce(tool: string, minInterval: int, now: int)
      modifies this`lastScheduled, store
      ensures Plan(store.View(), lastScheduled) ==
              Polled(old(Plan(store.View(), lastScheduled)), tool, minInterval, now)
    {
      if tool in lastScheduled && now - lastScheduled[tool] < minInterval {
        return;
      }
      lastScheduled := lastScheduled[tool := now];
      var _ := store.CreateAgentTask(ScheduledSeed(tool), None, now);
    }

    method RunOnce(t: WorkerTimes, clock: Clock, run: ToolRun) returns (idle: bool)
      requires mcp.store == store
      requires KeysInv(store.QueueView(), store.seqNo)
      modifies store
      ensures idle ==>
                && store.View() == old(store.View())
                && forall id | id in store.agentTasks :: store.agentTasks[id].status != Queued
      ensures !idle ==>
                exists id ::
                  && Claimable(old(store.QueueView()), id)
                  && store.View() == WorkerStep(mcp.cfg, old(store.View()), id, t, clock, run)
    {
      hide Apply, Concluded, Worked, Calling, CounterOf;
      ghost var st := store.View();
      var claimed := store.ClaimNextAgentTask(t.claimed);
      if claimed.None? {
        return true;
      }
      idle := false;
      ghost var id :| Claimable(st.queue, id) && store.View() == Apply(st, ClaimTask(id, t.claimed))
                      && id in store.agentTasks && claimed.value == store.agentTasks[id];
      var task := claimed.value;
      ClaimedTask(st, id, t.claimed);
      if HasPrefix(task.kind, DEAD) {
        Conclude(task.id, Acknowledged, "", t);
        return;
      }
      Work(task, t, clock, run, st);
    }

    /** runOnce on a claimed task that is no dead letter. */
    method Work(task: AgentTask, t: WorkerTimes, clock: Clock, run: ToolRun, ghost st: Store)
      requires mcp.store == store
      requires KeysInv(st.queue, st.seqNo)
      requires store.View() == Apply(st, ClaimTask(task.id, t.claimed))
      modifies store
      ensures store.View() == Worked(mcp.cfg, Calling(st, task.id, t), task, t, clock, run)
    {
      hide Apply, Concluded, CounterOf, Handle, ReturnedJob, WorkerRequest;
      store.TagTaskPayload(task.id);
      assert store.View() == Calling(st, task.id, t);
      var req := RequestFor(task);
      var resp := mcp.HandleCall(req, clock, run);
      var result := Report(resp.jobId, resp.decision, resp.job.status, resp.output);
      var error := WorkerErrorOf(resp.job);
      Conclude(task.id, result, error, t);
    }

    /** The payload map itself is passed on, a new one for a nil payload. */
    method RequestFor(task: AgentTask) returns (req: Request)
      ensures req == WorkerRequest(store.HeapView(), task)
    {
      var params := map[];
      var shared: Option<string> := None;
      if task.payload.Some? && task.payload.value in store.payloads {
        params, shared := store.payloads[task.payload.value], task.payload;
      }
      params := params[RECONCILE_KEY := Str(task.id)];
      req := Request(task.kind, params, shared, "autonomy-worker", false, task.id, "", false,
                     map["source" := Str("autonomy-task")]);
    }

    method Conclude(id: string, result: TaskResult, error: string, t: WorkerTimes)
      modifies store
      ensures store.View() == Concluded(old(store.View()), id, result, error, t)
    {
      hide AddTask;
      if error != "" {
        CompleteWithRetry(id, result, error, t);
      } else {
        var _ := store.CompleteAgentTask(id, result, "", t.finished);
      }
    }

    method WorkerErrorOf(job: Job) returns (error: string)
      ensures error == WorkerError(job)
    {
      error := "";
      if job.status == Blocked || job.status == PendingApproval || job.status == Failed {
        error := job.error;
        if error == "" {
          error := "task not completed automatically";
        }
      }
    }

    method CompleteWithRetry(id: string, result: TaskResult, error: string, t: WorkerTimes)
      requires error != ""
      modifies store
      ensures store.View() == Concluded(old(store.View()), id, result, error, t)
    {
      hide AddTask, Complete;
      var done := store.CompleteAgentTask(id, result, error, t.finished);
      var updated := if done.Some? then done.value else NO_TASK;
      var maxAttempts := updated.maxAttempts;
      if maxAttempts <= 0 {
        maxAttempts := 3;
      }
      var seed: TaskSeed;
      if updated.attempts < maxAttempts {
        var payload := if updated.payload.Some? then SameAs(updated.payload.value) else Absent;
        seed := TaskSeed(updated.kind, payload, updated.requestedBy, updated.priority, maxAttempts, false);
      } else {
        var about := map["origin_task_id" := Str(updated.id), "error" := Str(updated.error)];
        seed := TaskSeed(DEAD + updated.kind, Fresh(about),
                         "autonomy-worker", 10, 1, true);
      }
      var _ := store.CreateAgentTask(seed, if done.Some? then Some(id) else None, t.requeued);
    }
  }

  lemma ClaimableIsTask(q: Queue, id: string)
    ensures Claimable(q, id) ==> id in q.tasks && q.tasks[id].status == Queued
  {
    hide Ahead;
  }

  lemma ClaimedTask(st: Store, id: string, at: int)
    requires KeysInv(st.queue, st.seqNo) && Claimable(st.queue, id)
    ensures var st' := Apply(st, ClaimTask(id, at));
            && id in st'.queue.tasks && st'.queue.tasks[id] == Claim(st.queue, id, at).tasks[id]
            && st'.queue.tasks[id].id == id
  {
    hide Claimable, CounterOf, IsTaskId;
    ClaimableIsTask(st.queue, id);
  }
}
