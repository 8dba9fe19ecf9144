// The worker's step as part of whole runs, and what it means for one
// recurring task.
module WorkerRuns {
  import opened Text
  import opened Models
  import opened Ids
  import opened RiskEngine
  import opened StoreModel
  import opened Orchestrator
  import opened Pipeline
  import opened CallEffects
  import opened ControlRuns
  import opened ControlTheorems
  import opened Retry
  import opened QueueRuns
  import opened Autonomy

  lemma OneMore(cfg: Config, st: Store, acts: seq<Activity>, act: Activity)
    requires LegalRun(cfg, st, acts) && Legal(Run(cfg, st, acts), PendingAfterAll(acts), act)
    ensures LegalRun(cfg, st, acts + [act])
    ensures Run(cfg, st, acts + [act]) == Perform(cfg, Run(cfg, st, acts), act)
    ensures PendingAfterAll(acts + [act]) == PendingAfter(PendingAfterAll(acts), act)
  {
    hide Perform, Legal, PendingAfter;
    RunStep(cfg, st, acts + [act]);
    assert (acts + [act])[..|acts + [act]| - 1] == acts;
  }

  /** Completing a running task and, if it failed, creating its successor are legal
      steps that leave nothing pending. */
  lemma ConcludingIsLegal(cfg: Config, st: Store, acts: seq<Activity>, id: string, result: TaskResult, error: string,
                          t: WorkerTimes)
    returns (more: seq<Activity>)
    requires LegalRun(cfg, st, acts) && PendingAfterAll(acts).None?
    requires id in Run(cfg, st, acts).queue.tasks
    requires Run(cfg, st, acts).queue.tasks[id].status == TaskRunning
    requires IsDeadLetter(Run(cfg, st, acts).queue.tasks[id].kind) ==> error == ""
    ensures LegalRun(cfg, st, acts + more) && PendingAfterAll(acts + more).None?
    ensures Run(cfg, st, acts + more) == Concluded(Run(cfg, st, acts), id, result, error, t)
  {
    hide Run, LegalRun, PendingAfterAll, AddTask, SuccessorSeed;
    var complete := Background(CompleteTask(id, result, error, t.finished));
    OneMore(cfg, st, acts, complete);
    more := [complete];
    if error != "" {
      var done := Run(cfg, st, acts + [complete]);
      var create := Background(CreateTask(SuccessorSeed(done.queue.tasks[id]), Some(id), t.requeued));
      OneMore(cfg, st, acts + [complete], create);
      more := [complete, create];
      assert acts + [complete] + [create] == acts + more;
    }
  }

  /** A worker step on a claimable task extends a legal run by legal steps, so
      every property of legal runs covers runs with the worker in them. */
  lemma WorkerStepIsLegal(cfg: Config, nodes: seq<Node>, acts: seq<Activity>, id: string,
                          t: WorkerTimes, clock: Clock, run: ToolRun) returns (more: seq<Activity>)
    requires LegalRun(cfg, FreshStore(nodes), acts) && PendingAfterAll(acts).None?
    requires Claimable(Run(cfg, FreshStore(nodes), acts).queue, id)
    ensures LegalRun(cfg, FreshStore(nodes), acts + more) && PendingAfterAll(acts + more).None?
    ensures Run(cfg, FreshStore(nodes), acts + more)
         == WorkerStep(cfg, Run(cfg, FreshStore(nodes), acts), id, t, clock, run)
  {
    hide Run, LegalRun, PendingAfterAll, Handle, ReturnedJob, Concluded, LineageInv, NextInv, AttemptsInv, KindInv,
         CounterOf, Claimable, IsTaskId, WorkerReport, WorkerError, WorkerRequest;
    var st0 := FreshStore(nodes);
    var st := Run(cfg, st0, acts);
    var claim := Background(ClaimTask(id, t.claimed));
    OneMore(cfg, st0, acts, claim);
    RunKeepsQueueInv(cfg, nodes, acts);
    assert Claimable(st.queue, id) ==> id in st.queue.tasks by { ClaimableIsTask(st.queue, id); }
    var task := Claim(st.queue, id, t.claimed).tasks[id];
    if IsDeadLetter(task.kind) {
      var rest := ConcludingIsLegal(cfg, st0, acts + [claim], id, Acknowledged, "", t);
      more := [claim] + rest;
      assert acts + [claim] + rest == acts + more;
    } else {
      var tag := Background(TagPayload(id));
      OneMore(cfg, st0, acts + [claim], tag);
      var tagged := acts + [claim] + [tag];
      assert Run(cfg, st0, tagged) == Calling(st, id, t);
      var call := Call(WorkerRequest(Calling(st, id, t).heap, task), clock, run);
      OneMore(cfg, st0, tagged, call);
      RunKeepsQueueInv(cfg, nodes, tagged);
      CallKeepsTask(cfg, Calling(st, id, t), WorkerRequest(Calling(st, id, t).heap, task), clock, run, id);
      var error := WorkerError(ReturnedJob(cfg, Calling(st, id, t), call.req, clock, run));
      var result := WorkerReport(cfg, Calling(st, id, t), task, clock, run);
      var rest := ConcludingIsLegal(cfg, st0, tagged + [call], id, result, error, t);
      more := [claim, tag, call] + rest;
      assert tagged + [call] + rest == acts + more;
    }
  }

  /** A call leaves the tasks that are already there alone. */
  lemma CallKeepsTask(cfg: Config, st: Store, req: Request, clock: Clock, run: ToolRun, id: string)
    requires KeysInv(st.queue, st.seqNo) && id in st.queue.tasks
    ensures var q' := Handle(cfg, st, req, clock, run).queue; id in q'.tasks && q'.tasks[id] == st.queue.tasks[id]
    ensures var st' := Handle(cfg, st, req, clock, run); KeysInv(st'.queue, st'.seqNo)
  {
    hide Handle, CounterOf, IdText;
    CallQueueEffect(cfg, st, req, clock, run);
    var st' := Handle(cfg, st, req, clock, run);
    if st'.queue != st.queue {
      var seed, n, at :| && st.seqNo < n <= st'.seqNo
                         && st'.queue == PutTask(st.queue, TaskOf(seed, IdText("task", n), at), None);
      CounterOfIdText("task", n);
      PutTaskKeepsKeys(st.queue, st.seqNo, TaskOf(seed, IdText("task", n), at), None);
    }
  }

  lemma {:induction false} LegalRunsAreWellFormed(cfg: Config, st: Store, acts: seq<Activity>)
    requires LegalRun(cfg, st, acts)
    ensures WellFormed(acts)
  {
    hide Run, PendingAfterAll;
    if acts != [] {
      var before := acts[..|acts| - 1];
      LegalRunsAreWellFormed(cfg, st, before);
      forall i | 0 <= i < |acts| && acts[i].Background?
        ensures IsBackground(acts[i].op)
      {
        if i < |before| {
          assert before[i] == acts[i];
        }
      }
    }
  }

  /** So the invariant of the control plane holds in every legal run of the queue, with
      the worker's steps in it. */
  lemma LegalRunsAreControlled(cfg: Config, nodes: seq<Node>, acts: seq<Activity>)
    requires LegalRun(cfg, FreshStore(nodes), acts)
    ensures WellFormed(acts) && Inv(Run(cfg, FreshStore(nodes), acts))
  {
    hide Run, LegalRun, Inv;
    LegalRunsAreWellFormed(cfg, FreshStore(nodes), acts);
    ReachableInv(cfg, nodes, acts);
  }

  // ---- What one step does to its task ----

  lemma IdIsNotEmpty(prefix: string, n: nat)
    ensures IdText(prefix, n) != ""
  {
    hide Padded;
  }

  lemma TaskIdIsNotEmpty(id: string)
    requires IsTaskId(id)
    ensures id != ""
  {
    hide CounterOf, IdText;
    IdIsNotEmpty("task", CounterOf(id));
  }

  lemma UnansweredStatus(cfg: Config, st: Store, req: Request, clock: Clock, run: ToolRun)
    requires !Answered(st, req)
    ensures var status := ReturnedJob(cfg, st, req, clock, run).status;
            && (status == Completed <==> Admits(cfg, st, req, clock) && run.outcome.Done?)
            && (status == Failed <==> Admits(cfg, st, req, clock) && run.outcome.Broke?)
            && status in {Completed, Failed, PendingApproval, Blocked}
  {
    hide Assess, Admits, LocalJob;
    AllowedIff(cfg, st, req, clock);
  }

  lemma CallingKeepsRest(st: Store, id: string, t: WorkerTimes)
    requires KeysInv(st.queue, st.seqNo) && Claimable(st.queue, id)
    ensures var c := Calling(st, id, t);
            && KeysInv(c.queue, c.seqNo) && id in c.queue.tasks
            && c.queue.tasks[id].kind == st.queue.tasks[id].kind
            && BudgetOf(c.queue.tasks[id]) == BudgetOf(st.queue.tasks[id])
            && c.queue.tasks[id].attempts == st.queue.tasks[id].attempts + 1
            && c.ledger == st.ledger && c.mode == st.mode && c.nodes == st.nodes && c.seqNo == st.seqNo
            && WorkerRequest(c.heap, Claim(st.queue, id, t.claimed).tasks[id])
               == WorkerRequest(st.heap, Claim(st.queue, id, t.claimed).tasks[id])
  {
    hide CounterOf, IsTaskId, Claimable;
    ClaimableIsTask(st.queue, id);
  }

  /** The conclusion of a task that has been claimed once. */
  lemma ConcludedTask(st: Store, id: string, result: TaskResult, error: string, t: WorkerTimes)
    requires KeysInv(st.queue, st.seqNo) && id in st.queue.tasks
    ensures var st' := Concluded(st, id, result, error, t);
            && st'.ledger == st.ledger && id in st'.queue.tasks
            && st'.queue.tasks[id].status == (if error == "" then TaskCompleted else TaskFailed)
            && st'.queue.tasks[id].result == Some(result) && st'.queue.tasks[id].error == error
            && st'.queue.tasks[id].finishedAt == Some(t.finished)
            && (error != "" && st.queue.tasks[id].attempts == 1 && BudgetOf(st.queue.tasks[id]) >= 2 ==>
                  && id in st'.queue.next && st'.queue.next[id] in st'.queue.tasks
                  && var retry := st'.queue.tasks[st'.queue.next[id]];
                     && retry.kind == st.queue.tasks[id].kind && retry.status == Queued
                     && BudgetOf(retry) == BudgetOf(st.queue.tasks[id]))
  {
    hide CounterOf, IdText, IsTaskId;
    NewTaskIdIsFresh(st.queue, st.seqNo);
  }

  /** Whether the worker's step on a task completes it, read off before the step: its id,
      which is its call's key, names a COMPLETED job, or names none and the guard lets
      the call through to a tool that succeeds. */
  predicate StepCompletes(cfg: Config, st: Store, task: AgentTask, clock: Clock, run: ToolRun) {
    match Lookup(st.ledger, task.id)
    case Some(job) => job.status == Completed
    case None => Admits(cfg, st, WorkerRequest(st.heap, task), clock) && run.outcome.Done?
  }

  lemma WorkerErrorIff(cfg: Config, st: Store, calling: Store, task: AgentTask, clock: Clock, run: ToolRun)
    requires Inv(st) && IsTaskId(task.id)
    requires calling.ledger == st.ledger && calling.mode == st.mode && calling.nodes == st.nodes
    requires WorkerRequest(calling.heap, task) == WorkerRequest(st.heap, task)
    ensures WorkerError(ReturnedJob(cfg, calling, WorkerRequest(calling.heap, task), clock, run)) == "" <==>
            StepCompletes(cfg, st, task, clock, run)
    ensures Lookup(st.ledger, task.id).Some? <==> Answered(calling, WorkerRequest(calling.heap, task))
  {
    hide IndexInv, ExecutedInv, AuditsInv, IncidentsInv, ApprovalInv, Path, CounterOf, IsTaskId, ReturnedJob,
         Classify;
    TaskIdIsNotEmpty(task.id);
    var req := WorkerRequest(calling.heap, task);
    if Answered(calling, req) {
      AnsweredIsInert(cfg, calling, req, clock, run);
    } else {
      UnansweredStatus(cfg, calling, req, clock, run);
      assert Admits(cfg, calling, req, clock) == Admits(cfg, st, req, clock);
    }
  }

  /** In every run, the worker's step on a claimable task that is no dead letter completes
      the task exactly as just described, and fails it otherwise; a task whose id is
      already a key is settled without touching the ledger. */
  lemma WorkerStepCompletesIff(cfg: Config, nodes: seq<Node>, acts: seq<Activity>, id: string,
                               t: WorkerTimes, clock: Clock, run: ToolRun)
    requires LegalRun(cfg, FreshStore(nodes), acts)
    requires Claimable(Run(cfg, FreshStore(nodes), acts).queue, id)
    requires !IsDeadLetter(Run(cfg, FreshStore(nodes), acts).queue.tasks[id].kind)
    ensures var st := Run(cfg, FreshStore(nodes), acts);
            var st' := WorkerStep(cfg, st, id, t, clock, run);
            var completes := StepCompletes(cfg, st, Claim(st.queue, id, t.claimed).tasks[id], clock, run);
            && id in st'.queue.tasks
            && st'.queue.tasks[id].status == (if completes then TaskCompleted else TaskFailed)
            && (Lookup(st.ledger, id).Some? ==> st'.ledger == st.ledger)
  {
    hide Run, LegalRun, Inv, QueueInv, KeysInv, Claimable, Handle, ReturnedJob, Concluded, Calling, WorkerRequest,
         StepCompletes, Answered, WorkerError, WorkerReport;
    var st := Run(cfg, FreshStore(nodes), acts);
    LegalRunsAreControlled(cfg, nodes, acts);
    ClaimableIsTask(st.queue, id);
    RunHasKeys(cfg, nodes, acts, id);
    WorkedOn(cfg, st, id, t, clock, run);
  }

  lemma RunHasKeys(cfg: Config, nodes: seq<Node>, acts: seq<Activity>, id: string)
    requires LegalRun(cfg, FreshStore(nodes), acts)
    requires id in Run(cfg, FreshStore(nodes), acts).queue.tasks
    ensures var st := Run(cfg, FreshStore(nodes), acts);
            KeysInv(st.queue, st.seqNo) && AttemptsInv(st.queue) && IsTaskId(id) && st.queue.tasks[id].id == id
  {
    hide Run, LegalRun, LineageInv, NextInv, KindInv, AttemptsInv, CounterOf, IsTaskId;
    RunKeepsQueueInv(cfg, nodes, acts);
    TasksAreNamed(cfg, nodes, acts);
  }

  lemma WorkedOn(cfg: Config, st: Store, id: string, t: WorkerTimes, clock: Clock, run: ToolRun)
    requires Inv(st) && KeysInv(st.queue, st.seqNo) && Claimable(st.queue, id) && id in st.queue.tasks
    requires IsTaskId(id) && st.queue.tasks[id].id == id && !IsDeadLetter(st.queue.tasks[id].kind)
    ensures var st' := WorkerStep(cfg, st, id, t, clock, run);
            var completes := StepCompletes(cfg, st, Claim(st.queue, id, t.claimed).tasks[id], clock, run);
            && st' == Worked(cfg, Calling(st, id, t), Claim(st.queue, id, t.claimed).tasks[id], t, clock, run)
            && id in st'.queue.tasks
            && st'.queue.tasks[id].status == (if completes then TaskCompleted else TaskFailed)
            && (Lookup(st.ledger, id).Some? ==> st'.ledger == st.ledger)
  {
    hide Inv, KeysInv, Claimable, Handle, ReturnedJob, Concluded, Calling, StepCompletes, Answered, Lookup, WorkerError,
         WorkerReport, IsTaskId;
    var calling := Calling(st, id, t);
    var task := Claim(st.queue, id, t.claimed).tasks[id];
    var req := WorkerRequest(calling.heap, task);
    CallingKeepsRest(st, id, t);
    WorkerErrorIff(cfg, st, calling, task, clock, run);
    CallKeepsTask(cfg, calling, req, clock, run, id);
    var called := Handle(cfg, calling, req, clock, run);
    var error := WorkerError(ReturnedJob(cfg, calling, req, clock, run));
    ConcludedTask(called, id, WorkerReport(cfg, calling, task, clock, run), error, t);
    if Answered(calling, req) {
      AnsweredIsInert(cfg, calling, req, clock, run);
    }
  }

  // ---- The recurring backup.verify.sample task ----

  /** A worker step on the scheduler's own backup.verify.sample task never runs a tool. It
      completes the task if and only if its id already names a COMPLETED job as a key;
      otherwise the task fails and, its budget being restarted, is queued again with
      the full budget. */
  lemma BackupSampleStep(cfg: Config, nodes: seq<Node>, acts: seq<Activity>, id: string,
                         t: WorkerTimes, clock: Clock, run: ToolRun)
    requires LegalRun(cfg, FreshStore(nodes), acts)
    requires Claimable(Run(cfg, FreshStore(nodes), acts).queue, id)
    requires Run(cfg, FreshStore(nodes), acts).queue.tasks[id].kind == "backup.verify.sample"
    ensures var st := Run(cfg, FreshStore(nodes), acts);
            var st' := WorkerStep(cfg, st, id, t, clock, run);
            var bound := Lookup(st.ledger, id);
            && st'.ledger.executed == st.ledger.executed
            && id in st'.queue.tasks
            && st'.queue.tasks[id].status ==
               (if bound.Some? && bound.value.status == Completed then TaskCompleted else TaskFailed)
            && (st'.queue.tasks[id].status == TaskFailed && BudgetOf(st.queue.tasks[id]) >= 2 ==>
                  && id in st'.queue.next && st'.queue.next[id] in st'.queue.tasks
                  && var retry := st'.queue.tasks[st'.queue.next[id]];
                     && retry.kind == "backup.verify.sample" && retry.status == Queued
                     && BudgetOf(retry) == BudgetOf(st.queue.tasks[id]))
  {
    hide Run, LegalRun, Inv, QueueInv, KeysInv, Claimable, WorkerStep, Lookup, AttemptsInv, IsTaskId;
    var st := Run(cfg, FreshStore(nodes), acts);
    LegalRunsAreControlled(cfg, nodes, acts);
    ClaimableIsTask(st.queue, id);
    RunHasKeys(cfg, nodes, acts, id);
    SampleWorkedOn(cfg, st, id, t, clock, run);
  }

  lemma SampleWorkedOn(cfg: Config, st: Store, id: string, t: WorkerTimes, clock: Clock, run: ToolRun)
    requires Inv(st) && KeysInv(st.queue, st.seqNo) && AttemptsInv(st.queue) && Claimable(st.queue, id)
    requires id in st.queue.tasks && IsTaskId(id) && st.queue.tasks[id].id == id
    requires st.queue.tasks[id].kind == "backup.verify.sample"
    ensures var st' := WorkerStep(cfg, st, id, t, clock, run);
            var bound := Lookup(st.ledger, id);
            && st'.ledger.executed == st.ledger.executed
            && id in st'.queue.tasks
            && st'.queue.tasks[id].status ==
               (if bound.Some? && bound.value.status == Completed then TaskCompleted else TaskFailed)
            && (st'.queue.tasks[id].status == TaskFailed && BudgetOf(st.queue.tasks[id]) >= 2 ==>
                  && id in st'.queue.next && st'.queue.next[id] in st'.queue.tasks
                  && var retry := st'.queue.tasks[st'.queue.next[id]];
                     && retry.kind == "backup.verify.sample" && retry.status == Queued
                     && BudgetOf(retry) == BudgetOf(st.queue.tasks[id]))
  {
    hide Inv, KeysInv, Claimable, Handle, ReturnedJob, Concluded, Calling, Answered, Lookup, WorkerError,
         WorkerReport, IsTaskId, Admits, WorkerStep;
    var calling := Calling(st, id, t);
    var task := Claim(st.queue, id, t.claimed).tasks[id];
    var req := WorkerRequest(calling.heap, task);
    assert !IsDeadLetter(task.kind) by { assert task.kind[0] == 'b' && DEAD[0] == 'd'; }
    ClaimableIsTask(st.queue, id);
    WorkedOn(cfg, st, id, t, clock, run);
    WorkerGuard(cfg, st, task, clock);
    CallingKeepsRest(st, id, t);
    CallKeepsTask(cfg, calling, req, clock, run, id);
    WorkerNeverRunsHigh(cfg, calling, task, clock, run);
    SampleRunsNothing(cfg, calling, task, clock, run);
    var called := Handle(cfg, calling, req, clock, run);
    ConcludedTask(called, id, WorkerReport(cfg, calling, task, clock, run),
                  WorkerError(ReturnedJob(cfg, calling, req, clock, run)), t);
  }

  /** The guard never lets the worker through to a HIGH tool. */
  lemma WorkerGuard(cfg: Config, st: Store, task: AgentTask, clock: Clock)
    ensures task.kind == "backup.verify.sample" ==> !Admits(cfg, st, WorkerRequest(st.heap, task), clock)
  {
    hide Classify;
    if task.kind == "backup.verify.sample" {
      BackupSampleIsHigh(WorkerRequest(st.heap, task).params);
    }
  }

  lemma SampleRunsNothing(cfg: Config, st: Store, task: AgentTask, clock: Clock, run: ToolRun)
    requires task.kind == "backup.verify.sample"
    ensures Handle(cfg, st, WorkerRequest(st.heap, task), clock, run).ledger.executed == st.ledger.executed
  {
    hide Assess, Classify, IncidentsOf, AuditOf, Handle, Answered, Admits, StoredJob;
    var req := WorkerRequest(st.heap, task);
    WorkerGuard(cfg, st, task, clock);
    AllowedIff(cfg, st, req, clock);
    if Answered(st, req) {
      AnsweredIsInert(cfg, st, req, clock, run);
    } else {
      CallEffect(cfg, st, req, clock, run);
      assert st.ledger.executed + [] == st.ledger.executed;
    }
  }

  // ---- And how it can complete after all ----

  /** A LOW call under the id of a task that does not exist yet. */
  const TAKING_THE_KEY := Request("cluster.get_state", map[], None, "", false, IdText("task", 3), "", false, map[])

  function Succeeding(nodes: seq<Node>, at: int): ToolRun {
    ToolRun(Done(map[], false, None), ToolEffect(0, None, nodes, map[], at))
  }

  function PreboundRun(nodes: seq<Node>, clock: Clock, at: int): seq<Activity> {
    [Call(TAKING_THE_KEY, clock, Succeeding(nodes, at)),
     Background(CreateTask(ScheduledSeed("backup.verify.sample"), None, at))]
  }

  lemma TakingTheKey(cfg: Config, nodes: seq<Node>, clock: Clock, at: int)
    ensures var st := Handle(cfg, FreshStore(nodes), TAKING_THE_KEY, clock, Succeeding(nodes, at));
            && st.seqNo == 2 && st.queue == FreshStore(nodes).queue
            && Lookup(st.ledger, IdText("task", 3)).Some?
            && Lookup(st.ledger, IdText("task", 3)).value.status == Completed
  {
    var st0, req, run := FreshStore(nodes), TAKING_THE_KEY, Succeeding(nodes, at);
    hide Handle, IdText, Lookup;
    assert ToLower("cluster.get_state") == "cluster.get_state";
    IdIsNotEmpty("task", 3);
    LowCallSucceeds(cfg, st0, req, clock, run);
  }

  /** A LOW call under a new key whose tool succeeds without taking ids or queueing a task. */
  predicate QuietSuccess(st: Store, req: Request, run: ToolRun) {
    && Classify(req.tool, req.params) == Low && req.idemKey != "" && req.idemKey !in st.ledger.byKey
    && run.outcome.Done? && run.effect.idsTaken == 0 && run.effect.newTask.None?
  }

  lemma QuietCallIsAllowed(cfg: Config, st: Store, req: Request, clock: Clock, run: ToolRun)
    requires QuietSuccess(st, req, run)
    ensures !Answered(st, req) && Assess(cfg, st, req, clock).decision.allow
  {
    hide Assess, Classify;
    AllowedIff(cfg, st, req, clock);
  }

  lemma QuietCallCounts(cfg: Config, st: Store, req: Request, clock: Clock, run: ToolRun)
    requires QuietSuccess(st, req, run)
    ensures var st' := Handle(cfg, st, req, clock, run); st'.seqNo == st.seqNo + 2 && st'.queue == st.queue
  {
    hide Assess, Classify, Handle, Answered, LedgerAfter;
    QuietCallIsAllowed(cfg, st, req, clock, run);
    CallEffect(cfg, st, req, clock, run);
    CallQueueExactly(cfg, st, req, clock, run);
  }

  lemma LowCallSucceeds(cfg: Config, st: Store, req: Request, clock: Clock, run: ToolRun)
    requires QuietSuccess(st, req, run)
    ensures var st' := Handle(cfg, st, req, clock, run);
            && st'.seqNo == st.seqNo + 2 && st'.queue == st.queue
            && Lookup(st'.ledger, req.idemKey).Some?
            && Lookup(st'.ledger, req.idemKey).value.status == Completed
  {
    hide Assess, Classify, AuditOf, Handle, IdText, LocalJob, Answered, IncidentsOf, Path;
    QuietCallIsAllowed(cfg, st, req, clock, run);
    QuietCallCounts(cfg, st, req, clock, run);
    CallEffect(cfg, st, req, clock, run);
    CallIsSettled(cfg, st, req, clock, run);
  }

  /** The step cannot be promised to fail: when an earlier call has taken the task's id
      as its key and completed, the worker marks the sample as completed although no
      tool has ever run for it. */
  lemma PreboundSampleCompletes(cfg: Config, nodes: seq<Node>, clock: Clock, at: int,
                                t: WorkerTimes, clock': Clock, run': ToolRun)
    ensures var acts := PreboundRun(nodes, clock, at);
            var st := Run(cfg, FreshStore(nodes), acts);
            var id := IdText("task", 3);
            && LegalRun(cfg, FreshStore(nodes), acts) && PendingAfterAll(acts).None?
            && Claimable(st.queue, id) && st.queue.tasks[id].kind == "backup.verify.sample"
            && var st' := WorkerStep(cfg, st, id, t, clock', run');
               && id in st'.queue.tasks && st'.queue.tasks[id].status == TaskCompleted
               && st'.ledger.executed == st.ledger.executed
  {
    hide Run, LegalRun, PendingAfterAll, Handle, IdText, Lookup, WorkerStep, QueueInv, CounterOf, TAKING_THE_KEY;
    var st0 := FreshStore(nodes);
    var acts := PreboundRun(nodes, clock, at);
    var none: seq<Activity> := [];
    assert Run(cfg, st0, none) == st0 && LegalRun(cfg, st0, none) && PendingAfterAll(none).None? by {
      EmptyRun(cfg, st0);
    }
    OneMore(cfg, st0, none, acts[0]);
    assert none + [acts[0]] == [acts[0]];
    TakingTheKey(cfg, nodes, clock, at);
    OneMore(cfg, st0, [acts[0]], acts[1]);
    assert [acts[0]] + [acts[1]] == acts;
    BackupSampleStep(cfg, nodes, acts, IdText("task", 3), t, clock', run');
  }

  lemma EmptyRun(cfg: Config, st: Store)
    ensures Run(cfg, st, []) == st && LegalRun(cfg, st, []) && PendingAfterAll([]).None?
  {
  }
}
