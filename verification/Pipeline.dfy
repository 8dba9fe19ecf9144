// backend/internal/mcp/service.go: the guarded call pipeline.
module Pipeline {
  import opened Text
  import opened Models
  import opened Ids
  import opened HealthGates
  import opened PolicyGate
  import opened RiskEngine
  import opened StoreModel
  import opened StoreImpl
  import opened Orchestrator

  datatype Config = Config(failClosed: bool, maxAge: int)

  /** `shared` is the cell of `params` when that map is a task's payload. */
  datatype Request = Request(
    tool: string,
    params: Params,
    shared: Option<string>,
    actor: string,
    approveNow: bool,
    idemKey: string,
    secondApprover: string,
    hardwareMfa: bool,
    metadata: Params)

  /** The instants at which one call reads the wall clock. */
  datatype Clock = Clock(
    snapshot: int,
    modeRead: int,
    gate: int,
    created: int,
    audited: int,
    incident: int,
    approved: int,
    running: int,
    settling: int,
    settled: int)

  datatype Response = Response(
    job: Job,
    jobId: string,
    risk: Risk,
    decision: DecisionType,
    requiredApprovals: nat,
    rollbackPlanId: string,
    hardBlocked: bool,
    needsApprove: bool,
    audit: Option<Audit>,
    output: Option<Contents>,
    driftDelta: Option<Params>)

  datatype SimulationResponse = SimulationResponse(
    risk: Risk,
    decision: DecisionType,
    reason: string,
    requiredApprovals: nat,
    hardBlocked: bool)

  datatype Assessment = Assessment(
    risk: Risk,
    hardBlock: Option<string>,
    snapshot: Snapshot,
    gate: Option<string>,
    decision: Decision)

  function Assess(cfg: Config, st: Store, req: Request, clock: Clock): Assessment {
    var risk := Classify(req.tool, req.params);
    var hardBlock := HardBlockReason(req.tool, req.params, risk);
    var snapshot := SnapshotOf(st.nodes, clock.snapshot, cfg.maxAge);
    var gate := if risk == Low then None else ValidateForWrite(cfg.failClosed, snapshot);
    Assessment(
      risk, hardBlock, snapshot, gate,
      Evaluate(risk, hardBlock, req.approveNow, gate, req.hardwareMfa, Blank(req.secondApprover),
               ReadMode(st.mode, clock.modeRead), clock.gate))
  }

  function Actor(req: Request): string {
    if req.actor == "" then "android-admin" else req.actor
  }

  /** The job keeps the request's map itself. */
  function InputOf(req: Request): Contents {
    if req.shared.Some? then Shared(req.shared.value) else Own(req.params)
  }

  function Draft(req: Request, a: Assessment): Job {
    Job("", req.idemKey, req.tool, InputOf(req), a.risk, a.decision.kind, a.decision.requiredApprovals,
        "", Planned, [], None, "", 0, 0)
  }

  function Detail(cfg: Config, req: Request, a: Assessment): AuditDetail {
    AuditDetail(a.decision.reason, req.metadata, Explain(cfg.failClosed, a.snapshot),
                req.secondApprover, req.hardwareMfa, req.idemKey != "")
  }

  function EntryFor(req: Request, a: Assessment, jobId: string): Execution {
    Execution(jobId, req.idemKey, req.tool, a.risk, req.approveNow, req.hardwareMfa, Blank(req.secondApprover))
  }

  /** The job record the call creates and keeps passing to UpdateJob. */
  function LocalJob(st: Store, req: Request, a: Assessment, clock: Clock): Job {
    CreatedJob(Draft(req, a), st.seqNo, st.rollbackNo, clock.created)
  }

  /** The audit event of the call: its id follows the job's. */
  function AuditOf(cfg: Config, st: Store, req: Request, a: Assessment, clock: Clock): Audit {
    Audit(IdText("audit", st.seqNo + 2), req.tool, Actor(req), a.risk, req.approveNow,
          Detail(cfg, req, a), clock.audited)
  }

  function OpeningOps(cfg: Config, req: Request, a: Assessment, clock: Clock): seq<Op> {
    [ReadPolicyMode(clock.modeRead),
     CreateJob(Draft(req, a), clock.created),
     AddAudit(req.tool, Actor(req), a.risk, req.approveNow, Detail(cfg, req, a), clock.audited)]
  }

  function RefusedJob(job: Job, a: Assessment): Job {
    job.(status := if a.decision.kind == RequiresApproval then PendingApproval else Blocked,
    error := a.decision.reason)
  }

  function RefusalOps(a: Assessment, job: Job, clock: Clock): seq<Op> {
    if a.decision.kind == DecisionBlocked then
      [RecordIncident("policy_block", "warning", a.decision.reason, clock.incident),
       UpdateJob(RefusedJob(job, a), clock.settled)]
    else [UpdateJob(RefusedJob(job, a), clock.settled)]
  }

  function ExecutionOps(req: Request, a: Assessment, job: Job, clock: Clock, run: ToolRun): seq<Op> {
    [UpdateJob(job.(status := Approved), clock.approved),
     UpdateJob(job.(status := Running), clock.running),
     RunTool(EntryFor(req, a, job.id), req.params, run.effect, LiveOutput(run.outcome))]
  }

  function OutcomeOps(job: Job, clock: Clock, outcome: Outcome): seq<Op> {
    match outcome
    case Broke(error) =>
      [RecordIncident("job_failed", "critical", error, clock.incident),
       UpdateJob(job.(status := Failed, error := error), clock.settled)]
    case Done(_, _, _) =>
      [UpdateJob(job.(status := Verified), clock.settling),
       UpdateJob(job.(status := Completed, result := Some(KeptResult(outcome, job.id))), clock.settled)]
  }

  /** The store operations of one call that its key does not answer, in order. */
  function Writes(cfg: Config, st: Store, req: Request, clock: Clock, run: ToolRun): seq<Op> {
    var a := Assess(cfg, st, req, clock);
    var job := LocalJob(st, req, a, clock);
    OpeningOps(cfg, req, a, clock) +
    if !a.decision.allow then RefusalOps(a, job, clock)
    else ExecutionOps(req, a, job, clock, run) + OutcomeOps(job, clock, run.outcome)
  }

  /** A non-empty key that already names a job answers the call. */
  predicate Answered(st: Store, req: Request) {
    req.idemKey != "" && Lookup(st.ledger, req.idemKey).Some?
  }

  function Handle(cfg: Config, st: Store, req: Request, clock: Clock, run: ToolRun): Store {
    if Answered(st, req) then st else ApplyAll(st, Writes(cfg, st, req, clock, run))
  }

  function SettledJob(job: Job, outcome: Outcome): Job {
    match outcome
    case Broke(error) => job.(status := Failed, error := error)
    case Done(_, _, _) => job.(status := Completed, result := Some(KeptResult(outcome, job.id)))
  }

  /** The job a call returns. Its history is still the one CreateJob gave it. */
  function ReturnedJob(cfg: Config, st: Store, req: Request, clock: Clock, run: ToolRun): Job {
    if Answered(st, req) then Lookup(st.ledger, req.idemKey).value
    else
      var a := Assess(cfg, st, req, clock);
      var job := LocalJob(st, req, a, clock);
      if a.decision.allow then SettledJob(job, run.outcome) else RefusedJob(job, a)
  }

  /** SimulatePolicy's decision for a tool, its parameters and a reauthentication flag. */
  function Simulated(cfg: Config, st: Store, tool: string, params: Params, approveNow: bool, clock: Clock): Decision {
    var risk := Classify(tool, params);
    Simulate(risk, HardBlockReason(tool, params, risk), approveNow, SnapshotOf(st.nodes, clock.snapshot, cfg.maxAge),
             ReadMode(st.mode, clock.modeRead), clock.gate)
  }

  class Service {
    const store: MemoryStore
    const cfg: Config

    constructor (store: MemoryStore, cfg: Config)
      ensures this.store == store && this.cfg == cfg
    {
      this.store, this.cfg := store, cfg;
    }

    method HandleCall(req: Request, clock: Clock, run: ToolRun) returns (resp: Response)
      modifies store
      ensures store.View() == Handle(cfg, old(store.View()), req, clock, run)
      ensures resp.job == ReturnedJob(cfg, old(store.View()), req, clock, run)
      ensures resp.jobId == resp.job.id && resp.risk == resp.job.risk && resp.decision == resp.job.decision
      ensures resp.requiredApprovals == resp.job.requiredApprovals && resp.rollbackPlanId == resp.job.rollbackPlanId
      ensures resp.hardBlocked <==> !Answered(old(store.View()), req) && resp.risk == High
      ensures resp.audit == if Answered(old(store.View()), req) then None
                            else Some(AuditOf(cfg, old(store.View()), req,
                                              Assess(cfg, old(store.View()), req, clock), clock))
      ensures resp.output == if Answered(old(store.View()), req) then None else resp.job.result
      ensures resp.driftDelta == if resp.output.Some? then run.outcome.driftDelta else None
      ensures resp.needsApprove <==> resp.job.status in {PendingApproval, Blocked}
    {
      hide Apply, Assess, ApplyAll, AuditOf, OpeningOps, RefusalOps, ExecutionOps, OutcomeOps, Writes, LocalJob,
           RefusedJob, SettledJob;
      ghost var st := store.View();
      if req.idemKey != "" {
        var existing := store.GetJobByIdempotencyKey(req.idemKey);
        if existing.Some? {
          var j := existing.value;
          return Response(j, j.id, j.risk, j.decision, j.requiredApprovals, j.rollbackPlanId, false,
                          j.status == PendingApproval || j.status == Blocked, None, None, None);
        }
      }

      var a := Decide(req, clock);
      StagesAreWrites(cfg, st, req, clock, run);
      OpeningIsThree(cfg, st, req, a, clock);
      ReturnedFields(st, req, a, clock, run);

      var job, audit := Open(req, a, clock);
      if a.decision.allow {
        StartTool(req, a, job, clock, run);
        job := Settle(job, clock, run.outcome);
      } else {
        job := Refuse(a, job, clock);
      }
      resp := Response(job, job.id, a.risk, a.decision.kind, a.decision.requiredApprovals, job.rollbackPlanId,
                       a.hardBlock.Some?, a.decision.needsReview, Some(audit), job.result,
                       if a.decision.allow && run.outcome.Done? then run.outcome.driftDelta else None);
    }

    /** Classification, gates and policy; reading the mode may demote it. */
    method Decide(req: Request, clock: Clock) returns (a: Assessment)
      modifies store`policyMode
      ensures a == Assess(cfg, old(store.View()), req, clock)
      ensures a.decision.needsReview <==> !a.decision.allow
      ensures a.hardBlock.Some? <==> a.risk == High
      ensures store.View() == Apply(old(store.View()), ReadPolicyMode(clock.modeRead))
    {
      hide Classify, HardBlockReason, Evaluate, SnapshotOf, Apply;
      var risk := Classify(req.tool, req.params);
      var hardBlock := HardBlockReason(req.tool, req.params, risk);
      var snapshot := SnapshotFromState(store.nodes, clock.snapshot, cfg.maxAge);
      var gate: Option<string> := None;
      if risk != Low {
        gate := ValidateForWrite(cfg.failClosed, snapshot);
      }
      var mode := store.GetPolicyMode(clock.modeRead);
      var decision := Evaluate(risk, hardBlock, req.approveNow, gate, req.hardwareMfa,
                               Blank(req.secondApprover), mode, clock.gate);
      a := Assessment(risk, hardBlock, snapshot, gate, decision);
    }

    method SimulatePolicy(tool: string, params: Params, approveNow: bool, clock: Clock)
      returns (resp: SimulationResponse)
      modifies store`policyMode
      ensures var d := Simulated(cfg, old(store.View()), tool, params, approveNow, clock);
              resp.decision == d.kind && resp.reason == d.reason && resp.requiredApprovals == d.requiredApprovals
      ensures resp.risk == Classify(tool, params) && (resp.hardBlocked <==> resp.risk == High)
      ensures store.View() == Apply(old(store.View()), ReadPolicyMode(clock.modeRead))
    {
      hide Classify, HardBlockReason, Evaluate, SnapshotOf, Apply;
      var risk := Classify(tool, params);
      var snapshot := SnapshotFromState(store.nodes, clock.snapshot, cfg.maxAge);
      var mode := store.GetPolicyMode(clock.modeRead);
      var hardBlock := HardBlockReason(tool, params, risk);
      var d := Simulate(risk, hardBlock, approveNow, snapshot, mode, clock.gate);
      resp := SimulationResponse(risk, d.kind, d.reason, d.requiredApprovals, hardBlock.Some?);
    }

    /** The job and its audit entry. */
    method Open(req: Request, a: Assessment, clock: Clock) returns (job: Job, audit: Audit)
      modifies store
      ensures store.View() == Apply(Apply(old(store.View()), OpeningOps(cfg, req, a, clock)[1]),
                                    OpeningOps(cfg, req, a, clock)[2])
      ensures job == LocalJob(old(store.View()), req, a, clock)
      ensures audit == AuditOf(cfg, old(store.View()), req, a, clock)
    {
      hide Apply;
      job := store.CreateJob(Draft(req, a), clock.created);
      audit := store.AddAudit(req.tool, Actor(req), a.risk, req.approveNow, Detail(cfg, req, a), clock.audited);
    }

    /** HandleCall after the audit entry, for a call that is not allowed. */
    method Refuse(a: Assessment, created: Job, clock: Clock) returns (job: Job)
      modifies store
      ensures store.View() == ApplyAll(old(store.View()), RefusalOps(a, created, clock))
      ensures job == RefusedJob(created, a)
    {
      hide Apply;
      ghost var st := store.View();
      ghost var ops := RefusalOps(a, created, clock);
      if a.decision.kind == DecisionBlocked {
        store.RecordIncident("policy_block", "warning", a.decision.reason, clock.incident);
      }
      job := created;
      if a.decision.kind == RequiresApproval {
        job := job.(status := PendingApproval);
      } else {
        job := job.(status := Blocked);
      }
      job := job.(error := a.decision.reason);
      store.UpdateJob(job, clock.settled);
      if a.decision.kind == DecisionBlocked {
        ApplyTwo(st, ops[0], ops[1]);
      } else {
        ApplyOne(st, ops[0]);
      }
    }

    /** HandleCall after the audit entry, for a call that is allowed. */
    method StartTool(req: Request, a: Assessment, created: Job, clock: Clock, run: ToolRun)
      modifies store
      ensures store.View() == ApplyAll(old(store.View()), ExecutionOps(req, a, created, clock, run))
    {
      hide Apply;
      ghost var st := store.View();
      ghost var ops := ExecutionOps(req, a, created, clock, run);
      var job := created.(status := Approved);
      store.UpdateJob(job, clock.approved);
      job := job.(status := Running);
      store.UpdateJob(job, clock.running);
      Execute(store, EntryFor(req, a, job.id), req.params, run.effect, LiveOutput(run.outcome));
      ApplyThree(st, ops[0], ops[1], ops[2]);
    }

    /** HandleCall after the tool has returned. */
    method Settle(created: Job, clock: Clock, outcome: Outcome) returns (job: Job)
      modifies store
      ensures store.View() == ApplyAll(old(store.View()), OutcomeOps(created, clock, outcome))
      ensures job == SettledJob(created, outcome)
    {
      hide Apply;
      ghost var st := store.View();
      ghost var ops := OutcomeOps(created, clock, outcome);
      match outcome {
        case Broke(error) =>
          store.RecordIncident("job_failed", "critical", error, clock.incident);
          job := created.(status := Failed, error := error);
          store.UpdateJob(job, clock.settled);
        case Done(_, _, _) =>
          job := created.(status := Verified);
          store.UpdateJob(job, clock.settling);
          job := job.(status := Completed, result := Some(KeptResult(outcome, job.id)));
          store.UpdateJob(job, clock.settled);
      }
      ApplyTwo(st, ops[0], ops[1]);
    }
  }

  lemma OpeningIsThree(cfg: Config, st: Store, req: Request, a: Assessment, clock: Clock)
    ensures var ops := OpeningOps(cfg, req, a, clock);
            && |ops| == 3
            && ApplyAll(st, ops) == Apply(Apply(Apply(st, ReadPolicyMode(clock.modeRead)), ops[1]), ops[2])
            && LocalJob(Apply(st, ReadPolicyMode(clock.modeRead)), req, a, clock) == LocalJob(st, req, a, clock)
            && AuditOf(cfg, Apply(st, ReadPolicyMode(clock.modeRead)), req, a, clock) == AuditOf(cfg, st, req, a, clock)
  {
    hide ApplyAll, IdText, Detail;
    var ops := OpeningOps(cfg, req, a, clock);
    ApplyThree(st, ops[0], ops[1], ops[2]);
  }

  /** What the two ways out of a call leave in the fields the response repeats. */
  lemma ReturnedFields(st: Store, req: Request, a: Assessment, clock: Clock, run: ToolRun)
    ensures var job := LocalJob(st, req, a, clock);
            var refused, settled := RefusedJob(job, a), SettledJob(job, run.outcome);
            && refused.id == settled.id == job.id
            && refused.risk == settled.risk == a.risk
            && refused.decision == settled.decision == a.decision.kind
            && refused.requiredApprovals == settled.requiredApprovals == a.decision.requiredApprovals
            && refused.rollbackPlanId == settled.rollbackPlanId == job.rollbackPlanId
            && refused.result.None? && (settled.result.Some? <==> run.outcome.Done?)
            && refused.status in {PendingApproval, Blocked} && settled.status in {Completed, Failed}
  {
    hide IdText;
  }

  lemma ApplyOne(st: Store, x: Op)
    ensures ApplyAll(st, [x]) == Apply(st, x)
  {
    hide Apply;
    ApplyAllSnoc(st, [], x);
    assert [] + [x] == [x];
  }

  lemma ApplyTwo(st: Store, x: Op, y: Op)
    ensures ApplyAll(st, [x, y]) == Apply(Apply(st, x), y)
  {
    hide Apply;
    ApplyOne(st, x);
    ApplyAllSnoc(st, [x], y);
    assert [x] + [y] == [x, y];
  }

  lemma ApplyThree(st: Store, x: Op, y: Op, z: Op)
    ensures ApplyAll(st, [x, y, z]) == Apply(Apply(Apply(st, x), y), z)
  {
    hide Apply;
    ApplyTwo(st, x, y);
    ApplyAllSnoc(st, [x, y], z);
    assert [x, y] + [z] == [x, y, z];
  }

  /** The four stages of a call make up its whole list of operations. */
  lemma StagesAreWrites(cfg: Config, st: Store, req: Request, clock: Clock, run: ToolRun)
    ensures var a := Assess(cfg, st, req, clock);
            var job := LocalJob(st, req, a, clock);
            var start := ApplyAll(st, OpeningOps(cfg, req, a, clock));
            ApplyAll(st, Writes(cfg, st, req, clock, run)) ==
            if a.decision.allow
            then ApplyAll(ApplyAll(start, ExecutionOps(req, a, job, clock, run)), OutcomeOps(job, clock, run.outcome))
            else ApplyAll(start, RefusalOps(a, job, clock))
  {
    hide Apply, Assess, ApplyAll, LocalJob;
    var a := Assess(cfg, st, req, clock);
    var job := LocalJob(st, req, a, clock);
    var opening := OpeningOps(cfg, req, a, clock);
    if a.decision.allow {
      var execution := ExecutionOps(req, a, job, clock, run);
      var outcome := OutcomeOps(job, clock, run.outcome);
      ApplyAllConcat(st, opening, execution + outcome);
      ApplyAllConcat(ApplyAll(st, opening), execution, outcome);
    } else {
      ApplyAllConcat(st, opening, RefusalOps(a, job, clock));
    }
  }
}
