// The main results about runs of the control plane.
module ControlTheorems {
  import opened Text
  import opened Models
  import opened Ids
  import opened HealthGates
  import opened PolicyGate
  import opened RiskEngine
  import opened StoreModel
  import opened Orchestrator
  import opened Pipeline
  import opened CallEffects
  import opened ControlRuns

  lemma ReachableInv(cfg: Config, nodes: seq<Node>, acts: seq<Activity>)
    requires WellFormed(acts)
    ensures Inv(Run(cfg, FreshStore(nodes), acts))
  {
    FreshStoreInv(nodes);
    RunKeepsInv(cfg, FreshStore(nodes), acts);
  }

  /** In every run, every executed HIGH tool carried a reauthentication, and at or
      before it some HIGH tool ran with reauthentication, hardware MFA and a second
      approver; the aggressive mode, too, has such an origin. */
  lemma HighNeedsFullApproval(cfg: Config, nodes: seq<Node>, acts: seq<Activity>)
    requires WellFormed(acts)
    ensures var st := Run(cfg, FreshStore(nodes), acts);
            var log := st.ledger.executed;
            && (forall i | 0 <= i < |log| && log[i].risk == High ::
                  log[i].approveNow && exists j :: 0 <= j <= i && FullyApproved(log[j]))
            && (st.mode.mode == AggressiveAuto ==> exists j :: 0 <= j < |log| && FullyApproved(log[j]))
  {
    hide Run, JobsInv, IndexInv, ExecutedInv, AuditsInv, IncidentsInv;
    ReachableInv(cfg, nodes, acts);
    var log := Run(cfg, FreshStore(nodes), acts).ledger.executed;
    forall i | 0 <= i < |log| && log[i].risk == High
      ensures exists j :: 0 <= j <= i && FullyApproved(log[j])
    {
      var j :| 0 <= j < |log[..i + 1]| && FullyApproved(log[..i + 1][j]);
      assert FullyApproved(log[j]);
    }
  }

  lemma CallKeepsGuarded(cfg: Config, st: Store, req: Request, clock: Clock, run: ToolRun)
    requires forall i | 0 <= i < |st.ledger.executed| && Guarded(st.ledger.executed[i].tool) ::
               st.ledger.executed[i].risk == High
    ensures var log := Handle(cfg, st, req, clock, run).ledger.executed;
            forall i | 0 <= i < |log| && Guarded(log[i].tool) :: log[i].risk == High
  {
    hide Handle, IncidentsOf, StoredJob, Answered, AuditOf, Guarded, Classify, HardBlockReason, Evaluate, SnapshotOf;
    if Answered(st, req) {
      AnsweredIsInert(cfg, st, req, clock, run);
    } else {
      CallEffect(cfg, st, req, clock, run);
      if Guarded(req.tool) {
        GuardedIsHigh(req.tool, req.params);
      }
    }
  }

  lemma {:induction false} GuardedEntriesAreHigh(cfg: Config, nodes: seq<Node>, acts: seq<Activity>)
    requires WellFormed(acts)
    ensures var log := Run(cfg, FreshStore(nodes), acts).ledger.executed;
            forall i | 0 <= i < |log| && Guarded(log[i].tool) :: log[i].risk == High
  {
    if acts != [] {
      hide Handle, Apply, Guarded;
      var before := acts[..|acts| - 1];
      RunStep(cfg, FreshStore(nodes), acts);
      GuardedEntriesAreHigh(cfg, nodes, before);
      var st := Run(cfg, FreshStore(nodes), before);
      match acts[|acts| - 1] {
        case Call(req, clock, run) => CallKeepsGuarded(cfg, st, req, clock, run);
        case Background(op) => BackgroundLeavesLedger(st, op);
      }
    }
  }

  /** By name: in every run, whenever a guarded tool was executed, its call carried a
      reauthentication, and at or before it a call carried the full approval. */
  lemma GuardedToolsNeedApproval(cfg: Config, nodes: seq<Node>, acts: seq<Activity>)
    requires WellFormed(acts)
    ensures var log := Run(cfg, FreshStore(nodes), acts).ledger.executed;
            forall i | 0 <= i < |log| && Guarded(log[i].tool) ::
              log[i].approveNow && exists j :: 0 <= j <= i && FullyApproved(log[j])
  {
    hide Run, Guarded, FullyApproved;
    GuardedEntriesAreHigh(cfg, nodes, acts);
    HighNeedsFullApproval(cfg, nodes, acts);
  }

  /** The parameters of the worker's call: the payload with the task's id written into it. */
  function WorkerParams(h: Heap, task: AgentTask): Params {
    (if task.payload.Some? && task.payload.value in h.payloads then h.payloads[task.payload.value] else map[])
    [RECONCILE_KEY := Str(task.id)]
  }

  /** The call the autonomy worker makes for a task, with the task's own payload map. */
  function WorkerRequest(h: Heap, task: AgentTask): Request {
    Request(task.kind, WorkerParams(h, task),
            if task.payload.Some? && task.payload.value in h.payloads then task.payload else None,
            "autonomy-worker", false, task.id, "", false, map["source" := Str("autonomy-task")])
  }

  /** Whatever the policy mode is, a call without reauthentication (every call of
      the autonomy worker is one) never reaches a HIGH tool. */
  lemma WorkerNeverRunsHigh(cfg: Config, st: Store, task: AgentTask, clock: Clock, run: ToolRun)
    ensures var st' := Handle(cfg, st, WorkerRequest(st.heap, task), clock, run);
            var before, after := st.ledger.executed, st'.ledger.executed;
            && before <= after
            && forall i | |before| <= i < |after| :: after[i].risk != High
  {
    hide Assess, Handle, IncidentsOf, StoredJob, Answered, AuditOf;
    var req := WorkerRequest(st.heap, task);
    AllowedHighIsApproved(cfg, st, req, clock);
    if Answered(st, req) {
      assert Handle(cfg, st, req, clock, run) == st by { AnsweredIsInert(cfg, st, req, clock, run); }
    } else {
      CallEffect(cfg, st, req, clock, run);
    }
  }

  /** In a run whose calls never carry a reauthentication no HIGH tool executes
      and the mode stays guarded. */
  lemma {:induction false} UnapprovedRunsStayGuarded(cfg: Config, nodes: seq<Node>, acts: seq<Activity>)
    requires WellFormed(acts)
    requires forall i | 0 <= i < |acts| && acts[i].Call? :: !acts[i].req.approveNow
    ensures var st := Run(cfg, FreshStore(nodes), acts);
            && st.mode.mode == GuardedSre
            && forall i | 0 <= i < |st.ledger.executed| ::
                 st.ledger.executed[i].risk != High && !st.ledger.executed[i].approveNow
  {
    if acts == [] {
    } else {
      hide Handle, Apply;
      var before := acts[..|acts| - 1];
      RunStep(cfg, FreshStore(nodes), acts);
      UnapprovedRunsStayGuarded(cfg, nodes, before);
      var st := Run(cfg, FreshStore(nodes), before);
      match acts[|acts| - 1] {
        case Call(req, clock, run) => UnapprovedCall(cfg, st, req, clock, run);
        case Background(op) => BackgroundStaysGuarded(st, op);
      }
    }
  }

  lemma BackgroundStaysGuarded(st: Store, op: Op)
    requires IsBackground(op) && st.mode.mode == GuardedSre
    ensures Apply(st, op).ledger == st.ledger && Apply(st, op).mode.mode == GuardedSre
  {
  }

  lemma UnapprovedCall(cfg: Config, st: Store, req: Request, clock: Clock, run: ToolRun)
    requires !req.approveNow && st.mode.mode == GuardedSre
    requires forall i | 0 <= i < |st.ledger.executed| ::
               st.ledger.executed[i].risk != High && !st.ledger.executed[i].approveNow
    ensures var st' := Handle(cfg, st, req, clock, run);
            && st'.mode.mode == GuardedSre
            && forall i | 0 <= i < |st'.ledger.executed| ::
                 st'.ledger.executed[i].risk != High && !st'.ledger.executed[i].approveNow
  {
    hide Assess, IncidentsOf, StoredJob, AuditOf, ModeSetByTool, Handle, Answered, Path;
    if Answered(st, req) {
      AnsweredIsInert(cfg, st, req, clock, run);
    } else {
      AllowedHighIsApproved(cfg, st, req, clock);
      CallEffect(cfg, st, req, clock, run);
      if req.tool == "policy.mode.set" && ModeSetByTool(req.params, run.effect.at).mode == AggressiveAuto {
        OnlyHighGoesAggressive(cfg, st, req, clock, run);
      }
    }
  }

  // ---- Idempotency ----

  lemma CallKeepsStoredJobs(cfg: Config, st: Store, req: Request, clock: Clock, run: ToolRun)
    requires Inv(st)
    ensures forall id | id in st.ledger.jobs ::
              var l' := Handle(cfg, st, req, clock, run).ledger;
              id in l'.jobs && l'.jobs[id] == st.ledger.jobs[id]
    ensures forall k | k in st.ledger.byKey ::
              var l' := Handle(cfg, st, req, clock, run).ledger;
              k in l'.byKey && l'.byKey[k] == st.ledger.byKey[k]
  {
    hide Assess, IncidentsOf, AuditOf, ApplyAll, Writes, Path, JobsInv, ExecutedInv, AuditsInv, IncidentsInv,
         ApprovalInv, StoredJob, LocalJob;
    if !Answered(st, req) {
      CallEffect(cfg, st, req, clock, run);
      CallIsSettled(cfg, st, req, clock, run);
      NewIdIsFresh(st.ledger, st.seqNo);
      UnansweredKeyIsUnbound(st, req);
    }
  }

  lemma {:induction false} RunKeepsStoredJobs(cfg: Config, st: Store, acts: seq<Activity>)
    requires Inv(st) && WellFormed(acts)
    ensures forall id | id in st.ledger.jobs ::
              var l' := Run(cfg, st, acts).ledger; id in l'.jobs && l'.jobs[id] == st.ledger.jobs[id]
    ensures forall k | k in st.ledger.byKey ::
              var l' := Run(cfg, st, acts).ledger; k in l'.byKey && l'.byKey[k] == st.ledger.byKey[k]
  {
    hide Handle, Apply, JobsInv, IndexInv, ExecutedInv, AuditsInv, IncidentsInv, ApprovalInv;
    if acts != [] {
      var before := acts[..|acts| - 1];
      RunStep(cfg, st, acts);
      RunKeepsStoredJobs(cfg, st, before);
      RunKeepsInv(cfg, st, before);
      match acts[|acts| - 1] {
        case Call(req, clock, run) => CallKeepsStoredJobs(cfg, Run(cfg, st, before), req, clock, run);
        case Background(op) => BackgroundKeepsInv(Run(cfg, st, before), op);
      }
    }
  }

  /** A stored job is final: in every run no later call and no other operation
      changes a field of it, which map its input and its result are included, and its
      key keeps naming it. The contents are final, too, of the maps that are its own. */
  lemma StoredJobsAreFinal(cfg: Config, nodes: seq<Node>, acts: seq<Activity>, later: seq<Activity>)
    requires WellFormed(acts) && WellFormed(later)
    ensures var st := Run(cfg, FreshStore(nodes), acts);
            var l, l' := st.ledger, Run(cfg, st, later).ledger;
            && (forall id | id in l.jobs :: id in l'.jobs && l'.jobs[id] == l.jobs[id])
            && (forall id | id in l.jobs ::
                  && (l.jobs[id].input.Own? ==>
                        InputIn(Run(cfg, st, later).heap, l'.jobs[id]) == InputIn(st.heap, l.jobs[id]))
                  && ((l.jobs[id].result.Some? ==> l.jobs[id].result.value.Own?) ==>
                        ResultIn(Run(cfg, st, later).heap, l'.jobs[id]) == ResultIn(st.heap, l.jobs[id])))
            && (forall k | k in l.byKey :: k in l'.byKey && l'.byKey[k] == l.byKey[k])
  {
    hide Run, Inv;
    ReachableInv(cfg, nodes, acts);
    RunKeepsStoredJobs(cfg, Run(cfg, FreshStore(nodes), acts), later);
  }

  lemma CallBindsItsKey(cfg: Config, st: Store, req: Request, clock: Clock, run: ToolRun)
    requires Inv(st) && req.idemKey != ""
    ensures var l := Handle(cfg, st, req, clock, run).ledger;
            && req.idemKey in l.byKey && l.byKey[req.idemKey] in l.jobs
            && l.byKey[req.idemKey] == ReturnedJob(cfg, st, req, clock, run).id
            && l.jobs[l.byKey[req.idemKey]].id == l.byKey[req.idemKey]
            && l.jobs[l.byKey[req.idemKey]].status == ReturnedJob(cfg, st, req, clock, run).status
  {
    hide Assess, IncidentsOf, AuditOf, ApplyAll, Writes, Path, ExecutedInv, AuditsInv, IncidentsInv, ApprovalInv,
         IdText, CounterOf;
    if !Answered(st, req) {
      CallEffect(cfg, st, req, clock, run);
    }
  }

  /** In every run, whatever happens between two calls with the same key, the second
      one changes nothing at all and returns the stored job of the first, with the
      status the first call left: a job awaiting approval is never promoted by
      calling again. */
  lemma RepeatedCallIsInert(cfg: Config, nodes: seq<Node>, before: seq<Activity>,
                            req: Request, clock: Clock, run: ToolRun, between: seq<Activity>,
                            req': Request, clock': Clock, run': ToolRun)
    requires WellFormed(before) && WellFormed(between)
    requires req.idemKey != "" && req'.idemKey == req.idemKey
    ensures var st := Run(cfg, FreshStore(nodes), before);
            var later := Run(cfg, Handle(cfg, st, req, clock, run), between);
            var first := ReturnedJob(cfg, st, req, clock, run);
            var second := ReturnedJob(cfg, later, req', clock', run');
            && Handle(cfg, later, req', clock', run') == later
            && second.id == first.id && second.status == first.status
            && first.id in later.ledger.jobs && second == later.ledger.jobs[first.id]
  {
    hide Handle, Run, ReturnedJob, JobsInv, ExecutedInv, AuditsInv, IncidentsInv, ApprovalInv, IndexInv;
    ReachableInv(cfg, nodes, before);
    var st := Run(cfg, FreshStore(nodes), before);
    var mid := Handle(cfg, st, req, clock, run);
    CallKeepsInv(cfg, st, req, clock, run);
    CallBindsItsKey(cfg, st, req, clock, run);
    RunKeepsStoredJobs(cfg, mid, between);
    RunKeepsInv(cfg, mid, between);
    var later := Run(cfg, mid, between);
    BoundKeyFindsJob(mid, req);
    BoundKeyFindsJob(later, req');
    AnsweredIsInert(cfg, later, req', clock', run');
  }

  lemma BoundKeyFindsJob(st: Store, req: Request)
    requires IndexInv(st.ledger) && req.idemKey in st.ledger.byKey
    ensures Answered(st, req)
  {
  }

  /** In every serialized run a non-empty key names at most one job and at most one
      tool execution. */
  lemma AtMostOncePerKey(cfg: Config, nodes: seq<Node>, acts: seq<Activity>)
    requires WellFormed(acts)
    ensures var l := Run(cfg, FreshStore(nodes), acts).ledger;
            && (forall x, y | x in l.jobs && y in l.jobs && l.jobs[x].idemKey == l.jobs[y].idemKey != "" :: x == y)
            && (forall i, j | 0 <= i < |l.executed| && 0 <= j < |l.executed|
                           && l.executed[i].key == l.executed[j].key != "" :: i == j)
  {
    hide Run, AuditsInv, IncidentsInv, ApprovalInv, Path, CounterOf;
    ReachableInv(cfg, nodes, acts);
    var l := Run(cfg, FreshStore(nodes), acts).ledger;
    forall i, j | 0 <= i < |l.executed| && 0 <= j < |l.executed| && l.executed[i].key == l.executed[j].key != ""
      ensures i == j
    {
      assert l.byKey[l.executed[i].key] == l.executed[i].jobId;
      assert l.byKey[l.executed[j].key] == l.executed[j].jobId;
    }
  }

  // ---- Lifecycle, ledger and ids ----

  /** At call boundaries every job has gone through one of the four legal paths;
      the stored history is its first and last status and therefore the whole path
      only for the calls that were refused. */
  lemma JobLifecycle(cfg: Config, nodes: seq<Node>, acts: seq<Activity>, id: string)
    requires WellFormed(acts)
    ensures var l := Run(cfg, FreshStore(nodes), acts).ledger;
            id in l.jobs ==>
            var job := l.jobs[id];
            && id in l.trace
            && l.trace[id] in {[Planned, Blocked], [Planned, PendingApproval],
                               [Planned, Approved, Running, Failed],
                               [Planned, Approved, Running, Verified, Completed]}
            && job.history == [l.trace[id][0], l.trace[id][|l.trace[id]| - 1]]
            && job.history[1] == job.status
            && (job.history == l.trace[id] <==> job.status in {Blocked, PendingApproval})
  {
    hide Run, AuditsInv, IncidentsInv, ApprovalInv, ExecutedInv, IndexInv, CounterOf;
    ReachableInv(cfg, nodes, acts);
  }

  lemma UnansweredCallHistory(cfg: Config, st: Store, req: Request, clock: Clock, run: ToolRun)
    requires !Answered(st, req)
    ensures var l' := Handle(cfg, st, req, clock, run).ledger;
            var id := IdText("job", st.seqNo + 1);
            && id in l'.jobs && id in l'.trace
            && (l'.jobs[id].history == l'.trace[id] <==> !Admits(cfg, st, req, clock))
  {
    hide Assess, IncidentsOf, AuditOf, Handle, ApplyAll, Writes, IdText, Admits, Answered;
    CallEffect(cfg, st, req, clock, run);
    AllowedIff(cfg, st, req, clock);
    AllowIsAutoRun(cfg, st, req, clock);
  }

  /** In every run, the stored history of the job that a call adds is its whole status path
      if and only if the guard of the call fails: exactly the jobs that run lose their
      middle. */
  lemma HistoryIsCompleteIff(cfg: Config, nodes: seq<Node>, acts: seq<Activity>,
                             req: Request, clock: Clock, run: ToolRun, id: string)
    requires WellFormed(acts)
    ensures var st := Run(cfg, FreshStore(nodes), acts);
            var l' := Run(cfg, FreshStore(nodes), acts + [Call(req, clock, run)]).ledger;
            id !in st.ledger.jobs && id in l'.jobs ==>
              && id in l'.trace
              && (l'.jobs[id].history == l'.trace[id] <==> !Admits(cfg, st, req, clock))
  {
    hide Run, Handle, Answered, Admits, IdText, ReturnedJob, JobsInv, ApprovalInv, IndexInv, ExecutedInv, AuditsInv,
         IncidentsInv;
    ReachableInv(cfg, nodes, acts);
    var call := Call(req, clock, run);
    assert (acts + [call])[..|acts + [call]| - 1] == acts;
    RunStep(cfg, FreshStore(nodes), acts + [call]);
    var st := Run(cfg, FreshStore(nodes), acts);
    if Answered(st, req) {
      AnsweredIsInert(cfg, st, req, clock, run);
    } else {
      UnansweredCallAddsItsJob(cfg, st, req, clock, run);
      UnansweredCallHistory(cfg, st, req, clock, run);
    }
  }

  // ---- Rollback plans ----

  /** Rollback plan ids have a counter of their own. */
  ghost predicate PlansDiffer(l: Ledger, rollbackNo: nat) {
    && (forall id | id in l.jobs :: CounterOf(l.jobs[id].rollbackPlanId) <= rollbackNo)
    && (forall x, y | x in l.jobs && y in l.jobs && x != y ::
          l.jobs[x].rollbackPlanId != l.jobs[y].rollbackPlanId)
  }

  lemma CallKeepsPlans(cfg: Config, st: Store, req: Request, clock: Clock, run: ToolRun)
    requires JobsInv(st.ledger, st.seqNo) && PlansDiffer(st.ledger, st.rollbackNo)
    ensures var st' := Handle(cfg, st, req, clock, run); PlansDiffer(st'.ledger, st'.rollbackNo)
  {
    hide Assess, IncidentsOf, AuditOf, ApplyAll, Writes, Path, IdText, CounterOf, JobsInv, Answered;
    if !Answered(st, req) {
      CallEffect(cfg, st, req, clock, run);
      NewIdIsFresh(st.ledger, st.seqNo);
      CounterOfIdText("rollback", st.rollbackNo + 1);
    }
  }

  /** In every run no two jobs share a rollback plan id. */
  lemma {:induction false} PlanIdsAreDistinct(cfg: Config, nodes: seq<Node>, acts: seq<Activity>)
    requires WellFormed(acts)
    ensures var st := Run(cfg, FreshStore(nodes), acts); PlansDiffer(st.ledger, st.rollbackNo)
  {
    if acts != [] {
      hide Handle, Apply, PlansDiffer, JobsInv, IndexInv, ExecutedInv, AuditsInv, IncidentsInv, ApprovalInv;
      var before := acts[..|acts| - 1];
      RunStep(cfg, FreshStore(nodes), acts);
      PlanIdsAreDistinct(cfg, nodes, before);
      ReachableInv(cfg, nodes, before);
      var st := Run(cfg, FreshStore(nodes), before);
      match acts[|acts| - 1] {
        case Call(req, clock, run) => CallKeepsPlans(cfg, st, req, clock, run);
        case Background(op) => BackgroundLeavesLedger(st, op);
      }
    }
  }

  // ---- The ledger ----

  /** The books balance: one audit event per job, one incident per BLOCKED or FAILED
      job, one tool execution for each COMPLETED or FAILED job and none for
      any other, and no event id is issued twice. */
  lemma LedgerBalances(cfg: Config, nodes: seq<Node>, acts: seq<Activity>)
    requires WellFormed(acts)
    ensures var l := Run(cfg, FreshStore(nodes), acts).ledger;
            && |l.audits| == |l.jobs|
            && |l.incidents| == |set id | id in l.jobs && l.jobs[id].status in {Blocked, Failed}|
            && (forall i | 0 <= i < |l.executed| ::
                  l.executed[i].jobId in l.jobs && l.jobs[l.executed[i].jobId].status in {Completed, Failed})
            && (forall i, j | 0 <= i < j < |l.executed| :: l.executed[i].jobId != l.executed[j].jobId)
            && |l.executed| == |set id | id in l.jobs && l.jobs[id].status in {Completed, Failed}|
            && (forall i, j | 0 <= i < j < |l.audits| :: l.audits[i].id != l.audits[j].id)
            && (forall i, j | 0 <= i < j < |l.incidents| :: l.incidents[i].id != l.incidents[j].id)
  {
    hide Run, ApprovalInv, JobsInv, IndexInv, CounterOf;
    ReachableInv(cfg, nodes, acts);
  }

  /** CreateJob never overwrites: in every run an unanswered call adds one job,
      under the next id of the counter, which no job had. */
  lemma CallAddsOneJob(cfg: Config, nodes: seq<Node>, acts: seq<Activity>, req: Request, clock: Clock, run: ToolRun)
    requires WellFormed(acts)
    ensures var st := Run(cfg, FreshStore(nodes), acts);
            var jobs, jobs' := st.ledger.jobs, Run(cfg, FreshStore(nodes), acts + [Call(req, clock, run)]).ledger.jobs;
            var id := IdText("job", st.seqNo + 1);
            if Answered(st, req) then jobs' == jobs
            else id !in jobs && jobs'.Keys == jobs.Keys + {id} && |jobs'| == |jobs| + 1
  {
    hide Run, JobsInv, ApprovalInv, IndexInv, ExecutedInv, AuditsInv, IncidentsInv, Handle, ReturnedJob, Answered,
         IdText;
    ReachableInv(cfg, nodes, acts);
    var st := Run(cfg, FreshStore(nodes), acts);
    var call := Call(req, clock, run);
    assert (acts + [call])[..|acts + [call]| - 1] == acts;
    RunStep(cfg, FreshStore(nodes), acts + [call]);
    if Answered(st, req) {
      AnsweredIsInert(cfg, st, req, clock, run);
    } else {
      UnansweredCallAddsItsJob(cfg, st, req, clock, run);
    }
  }

  lemma UnansweredCallAddsItsJob(cfg: Config, st: Store, req: Request, clock: Clock, run: ToolRun)
    requires JobsInv(st.ledger, st.seqNo) && !Answered(st, req)
    ensures var st' := Handle(cfg, st, req, clock, run);
            var id := ReturnedJob(cfg, st, req, clock, run).id;
            && id == IdText("job", st.seqNo + 1) && id !in st.ledger.jobs
            && st'.ledger.jobs.Keys == st.ledger.jobs.Keys + {id}
            && |st'.ledger.jobs| == |st.ledger.jobs| + 1
  {
    hide JobsInv, Assess, IncidentsOf, AuditOf, Handle, ApplyAll, Writes, Path, IdText, CounterOf;
    CallEffect(cfg, st, req, clock, run);
    NewIdIsFresh(st.ledger, st.seqNo);
    var jobs, jobs' := st.ledger.jobs, Handle(cfg, st, req, clock, run).ledger.jobs;
    var id := ReturnedJob(cfg, st, req, clock, run).id;
    assert jobs' == jobs[id := jobs'[id]];
    assert jobs'.Keys == jobs.Keys + {id};
  }
}
