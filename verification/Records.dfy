// What a call leaves on record, field by field and in terms of the request, the clock and
// what the tool returned.
module Records {
  import opened Text
  import opened Models
  import opened Ids
  import opened HealthGates
  import opened PolicyGate
  import opened RiskEngine
  import opened StoreModel
  import opened Orchestrator
  import opened Pipeline
  import opened CallEffects
  import opened ControlRuns

  /** The health gate's refusal of a call above LOW, if it refuses. */
  function Refusal(cfg: Config, st: Store, req: Request, clock: Clock): Option<string> {
    if Classify(req.tool, req.params) == Low then None
    else ValidateForWrite(cfg.failClosed, SnapshotOf(st.nodes, clock.snapshot, cfg.maxAge))
  }

  /** The job of an unanswered call, whatever becomes of it. */
  lemma JobOnRecord(cfg: Config, st: Store, req: Request, clock: Clock, run: ToolRun)
    requires !Answered(st, req)
    ensures var jobs, id := Handle(cfg, st, req, clock, run).ledger.jobs, IdText("job", st.seqNo + 1);
            && id in jobs
            && var job := jobs[id];
               && job.id == id && job.idemKey == req.idemKey && job.tool == req.tool
               && job.input == (if req.shared.Some? then Shared(req.shared.value) else Own(req.params))
               && job.risk == Classify(req.tool, req.params)
               && (job.decision == AutoRun <==> Admits(cfg, st, req, clock))
               && (job.decision == DecisionBlocked <==> Refusal(cfg, st, req, clock).Some?)
               && job.requiredApprovals ==
                  (if Refusal(cfg, st, req, clock).None? && job.risk == High
                      && !(req.approveNow && AggressiveLive(ReadMode(st.mode, clock.modeRead), clock.gate))
                   then 2 else 0)
               && job.rollbackPlanId == IdText("rollback", st.rollbackNo + 1)
               && job.createdAt == clock.created && job.updatedAt == clock.settled
  {
    hide Answered, Handle, Classify, HardBlockReason, Evaluate, SnapshotOf, IncidentsOf, AuditOf, IdText, Path, Admits,
         ValidateForWrite, AggressiveLive, ReadMode;
    CallEffect(cfg, st, req, clock, run);
    AllowedIff(cfg, st, req, clock);
    AllowIsAutoRun(cfg, st, req, clock);
    RefusedHow(cfg, st, req, clock);
  }

  /** What an allowed call stores is what its tool returned: the result, live or not, or the
      error. */
  lemma OutcomeOnRecord(cfg: Config, st: Store, req: Request, clock: Clock, run: ToolRun)
    requires !Answered(st, req) && Admits(cfg, st, req, clock)
    ensures var st', id := Handle(cfg, st, req, clock, run), IdText("job", st.seqNo + 1);
            && id in st'.ledger.jobs
            && var job := st'.ledger.jobs[id];
               && (run.outcome.Done? ==>
                     && job.status == Completed && job.error == ""
                     && ResultIn(st'.heap, job) == Some(run.outcome.result)
                     && (!run.outcome.live ==> job.result == Some(Own(run.outcome.result)))
                     && (run.outcome.live ==>
                           && job.result == Some(Shared(id))
                           && id in st'.heap.outputs && st'.heap.outputs[id] == run.outcome.result))
               && (run.outcome.Broke? ==>
                     job.status == Failed && job.error == run.outcome.error && job.result == None)
  {
    hide Answered, Handle, Assess, IncidentsOf, AuditOf, IdText, Path, Admits, Touched, PutTask, TaskOf;
    CallEffect(cfg, st, req, clock, run);
    CallQueueExactly(cfg, st, req, clock, run);
    AllowedIff(cfg, st, req, clock);
  }

  /** A refused call stores why, and no result. */
  lemma RefusalOnRecord(cfg: Config, st: Store, req: Request, clock: Clock, run: ToolRun)
    requires !Answered(st, req) && !Admits(cfg, st, req, clock)
    ensures var jobs, id := Handle(cfg, st, req, clock, run).ledger.jobs, IdText("job", st.seqNo + 1);
            && id in jobs
            && var job, refusal := jobs[id], Refusal(cfg, st, req, clock);
               && job.result == None
               && job.status == (if refusal.Some? then Blocked else PendingApproval)
               && (refusal.Some? ==> job.error == refusal.value)
               && (refusal.None? ==>
                     job.error == if req.approveNow
                                  then "high-risk action requires reauth + hardware MFA + second approver"
                                  else HardBlockText(ToLower(req.tool), req.params))
  {
    hide Answered, Handle, IncidentsOf, AuditOf, IdText, Path, Classify, HardBlockText, SnapshotOf, ValidateForWrite,
         AggressiveLive, ReadMode, ToLower;
    CallEffect(cfg, st, req, clock, run);
    ClassifiedRisks(req.tool, req.params);
  }

  /** The job a call returns is the one it stores, but for the history and the time stamp,
      which are still those of its creation. */
  lemma ReturnedIsStored(cfg: Config, st: Store, req: Request, clock: Clock, run: ToolRun)
    requires !Answered(st, req)
    ensures var jobs, id := Handle(cfg, st, req, clock, run).ledger.jobs, IdText("job", st.seqNo + 1);
            && id in jobs
            && ReturnedJob(cfg, st, req, clock, run) == jobs[id].(history := [Planned], updatedAt := clock.created)
  {
    hide Answered, Handle, Assess, IncidentsOf, AuditOf, IdText, Path;
    CallEffect(cfg, st, req, clock, run);
  }

  /** So the output of an allowed call, which is the result of the job it returns, is in the
      store as the call leaves it what the tool returned; a failed tool has none. */
  lemma OutputIsTheResult(cfg: Config, st: Store, req: Request, clock: Clock, run: ToolRun)
    requires !Answered(st, req) && Admits(cfg, st, req, clock)
    ensures var output := ReturnedJob(cfg, st, req, clock, run).result;
            && (output.Some? <==> run.outcome.Done?)
            && (output.Some? ==>
                  ContentsIn(Handle(cfg, st, req, clock, run).heap.outputs, output.value) == run.outcome.result)
  {
    hide Answered, Handle, Admits, ReturnedJob, IdText;
    OutcomeOnRecord(cfg, st, req, clock, run);
    ReturnedIsStored(cfg, st, req, clock, run);
  }

  /** The audit event of a call. */
  lemma AuditOnRecord(cfg: Config, st: Store, req: Request, clock: Clock, run: ToolRun)
    requires !Answered(st, req)
    ensures var st' := Handle(cfg, st, req, clock, run);
            var audits, audits' := st.ledger.audits, st'.ledger.audits;
            && |audits'| == |audits| + 1 && audits' == audits + [audits'[|audits|]]
            && var e := audits'[|audits|];
               && e.id == IdText("audit", st.seqNo + 2) && e.action == req.tool
               && e.actor == (if req.actor == "" then "android-admin" else req.actor)
               && e.risk == Classify(req.tool, req.params) && e.approved == req.approveNow
               && e.createdAt == clock.audited
               && e.detail.metadata == req.metadata && e.detail.secondApprover == req.secondApprover
               && e.detail.hardwareMfa == req.hardwareMfa && (e.detail.keySet <==> req.idemKey != "")
  {
    hide Answered, Handle, Classify, HardBlockReason, Evaluate, SnapshotOf, IncidentsOf, IdText, Path, StoredJob,
         LocalJob, HealthGates.Explain;
    CallEffect(cfg, st, req, clock, run);
  }

  /** What the event says of the health gate and of the decision. */
  lemma HealthOnRecord(cfg: Config, st: Store, req: Request, clock: Clock, run: ToolRun)
    requires !Answered(st, req)
    ensures var st', id := Handle(cfg, st, req, clock, run), IdText("job", st.seqNo + 1);
            && |st'.ledger.audits| == |st.ledger.audits| + 1 && id in st'.ledger.jobs
            && var d := st'.ledger.audits[|st.ledger.audits|].detail;
               && (d.health.quorumHealthy <==> 2 * CountOnline(st.nodes) > |st.nodes|)
               && (d.health.runnerHealthy <==>
                     forall n | n in st.nodes :: n.runnerHealthy && clock.snapshot - n.lastHeartbeat <= cfg.maxAge)
               && (d.health.allowWrites <==> d.health.quorumHealthy && (d.health.runnerHealthy || !cfg.failClosed))
               && d.health.reason ==
                  (if !d.health.quorumHealthy then "quorum is not healthy"
                   else if !d.health.runnerHealthy && cfg.failClosed then "runner heartbeat unhealthy (fail-closed)"
                   else "")
               && d.health.summary ==
                  "nodes " + Decimal(CountOnline(st.nodes)) + "/" + Decimal(|st.nodes|) + " online"
               && d.health.onlineNodes == CountOnline(st.nodes) && d.health.totalNodes == |st.nodes|
               && d.health.lastChecked == clock.snapshot
               && (!Admits(cfg, st, req, clock) ==> d.decisionReason == st'.ledger.jobs[id].error)
               && (Admits(cfg, st, req, clock) && Classify(req.tool, req.params) != High ==> d.decisionReason == "")
  {
    hide Answered, Handle, IncidentsOf, IdText, Path, Classify, HardBlockText, AggressiveLive, ReadMode, Decimal;
    CallEffect(cfg, st, req, clock, run);
    AllowedIff(cfg, st, req, clock);
    ClassifiedRisks(req.tool, req.params);
  }

  /** The incident of a blocked or failed call, and the only one. */
  lemma IncidentOnRecord(cfg: Config, st: Store, req: Request, clock: Clock, run: ToolRun)
    requires !Answered(st, req)
    ensures var st' := Handle(cfg, st, req, clock, run);
            var incidents, incidents' := st.ledger.incidents, st'.ledger.incidents;
            var refusal := Refusal(cfg, st, req, clock);
            if refusal.Some? then
              incidents' == incidents + [Incident(IdText("incident", st'.seqNo), "policy_block", "warning",
                                                  refusal.value, clock.incident)]
            else if Admits(cfg, st, req, clock) && run.outcome.Broke? then
              incidents' == incidents + [Incident(IdText("incident", st'.seqNo), "job_failed", "critical",
                                                  run.outcome.error, clock.incident)]
            else incidents' == incidents
  {
    hide Answered, Handle, Classify, HardBlockReason, SnapshotOf, AuditOf, IdText, Path, StoredJob, LocalJob, Evaluate,
         ValidateForWrite, Admits;
    CallEffect(cfg, st, req, clock, run);
    AllowedIff(cfg, st, req, clock);
    AllowIsAutoRun(cfg, st, req, clock);
    RefusedHow(cfg, st, req, clock);
  }

  /** The execution of an allowed call, and what becomes of the nodes. */
  lemma ExecutionOnRecord(cfg: Config, st: Store, req: Request, clock: Clock, run: ToolRun)
    requires !Answered(st, req)
    ensures var st' := Handle(cfg, st, req, clock, run);
            st'.ledger.executed == st.ledger.executed +
            if !Admits(cfg, st, req, clock) then []
            else [Execution(IdText("job", st.seqNo + 1), req.idemKey, req.tool, Classify(req.tool, req.params),
                            req.approveNow, req.hardwareMfa, Blank(req.secondApprover))]
    ensures Handle(cfg, st, req, clock, run).nodes ==
            if Admits(cfg, st, req, clock) then run.effect.nodes else st.nodes
  {
    hide Answered, Handle, Classify, HardBlockReason, SnapshotOf, AuditOf, IdText, Path, StoredJob, Evaluate,
         ValidateForWrite, Admits, IncidentsOf, Blank, QueuedBy, HeapBy;
    CallEffect(cfg, st, req, clock, run);
    CallQueueExactly(cfg, st, req, clock, run);
    AllowedIff(cfg, st, req, clock);
  }

  /** The writes of an allowed call to its job, in order, each with its own instant. */
  lemma WritesOnRecord(cfg: Config, st: Store, req: Request, clock: Clock, run: ToolRun)
    requires Admits(cfg, st, req, clock)
    ensures var ops := Writes(cfg, st, req, clock, run);
            && |ops| == 8
            && ops[0] == ReadPolicyMode(clock.modeRead)
            && ops[1].CreateJob? && ops[1].draft.status == Planned && ops[1].at == clock.created
            && ops[2].AddAudit? && ops[2].at == clock.audited
            && ops[3].UpdateJob? && ops[3].job.status == Approved && ops[3].at == clock.approved
            && ops[4].UpdateJob? && ops[4].job.status == Running && ops[4].at == clock.running
            && ops[5].RunTool? && ops[5].params == req.params && ops[5].effect == run.effect
            && (run.outcome.Done? ==>
                  && ops[6].UpdateJob? && ops[6].job.status == Verified && ops[6].at == clock.settling
                  && ops[7].UpdateJob? && ops[7].job.status == Completed && ops[7].at == clock.settled)
            && (run.outcome.Broke? ==>
                  && ops[6].RecordIncident? && ops[6].at == clock.incident
                  && ops[7].UpdateJob? && ops[7].job.status == Failed && ops[7].at == clock.settled)
  {
    hide Assess, Admits, IdText;
    AllowedIff(cfg, st, req, clock);
  }

  /** What a tool changes in the cluster state it changes in the earlier results that share it,
      and a call does no more to them. */
  lemma EarlierResultsOnRecord(cfg: Config, st: Store, req: Request, clock: Clock, run: ToolRun, id: string)
    requires !Answered(st, req) && id in st.heap.outputs && id != IdText("job", st.seqNo + 1)
    ensures var outputs := Handle(cfg, st, req, clock, run).heap.outputs;
            && id in outputs
            && outputs[id] == if Admits(cfg, st, req, clock) && id in run.effect.touched then run.effect.touched[id]
                              else st.heap.outputs[id]
  {
    hide Answered, Handle, Assess, IdText, Admits, PutTask, TaskOf;
    CallQueueExactly(cfg, st, req, clock, run);
    AllowedIff(cfg, st, req, clock);
  }

  /** An update of a known job keeps the record it is given, stamps it, and sees to it that the
      history, the given one or else the stored one, ends in the given status. */
  lemma UpdateOnRecord(st: Store, job: Job, at: int)
    requires job.id in st.ledger.jobs
    ensures var jobs := Apply(st, UpdateJob(job, at)).ledger.jobs;
            var base := if job.history != [] then job.history else st.ledger.jobs[job.id].history;
            && jobs == st.ledger.jobs[job.id := jobs[job.id]]
            && jobs[job.id] == job.(updatedAt := at, history := jobs[job.id].history)
            && base <= jobs[job.id].history <= base + [job.status]
            && jobs[job.id].history != [] && jobs[job.id].history[|jobs[job.id].history| - 1] == job.status
            && (base != [] && base[|base| - 1] == job.status ==> jobs[job.id].history == base)
  {
  }
}
