// Properties of whole runs of the control plane: any sequence of pipeline
// calls (from the API or from the autonomy worker) and of the other store
// operations, from a fresh store.
module ControlRuns {
  import opened Text
  import opened Models
  import opened Ids
  import opened HealthGates
  import opened PolicyGate
  import opened RiskEngine
  import opened StoreModel
  import opened Orchestrator
  import opened Pipeline
  import opened CallEffects

  datatype Activity =
    | Call(req: Request, clock: Clock, run: ToolRun)
    | Background(op: Op)

  /** The store operations that happen outside the pipeline. */
  predicate IsBackground(op: Op) {
    || op.ReadPolicyMode? || op.CreateTask? || op.ClaimTask? || op.TagPayload?
    || op.CompleteTask? || op.SetNodes? || op.TakeIds?
  }

  predicate WellFormed(acts: seq<Activity>) {
    forall i | 0 <= i < |acts| && acts[i].Background? :: IsBackground(acts[i].op)
  }

  function Perform(cfg: Config, st: Store, act: Activity): Store {
    match act
    case Call(req, clock, run) => Handle(cfg, st, req, clock, run)
    case Background(op) => Apply(st, op)
  }

  // One recursion, written as three functions so that stating something about a run does not
  // unfold what a step does; proofs take the one-step equation from RunStep.

  /** A run of activities: what its last activity makes of the run before it. */
  function Run(cfg: Config, st: Store, acts: seq<Activity>): Store
    decreases |acts|, 1
  {
    if acts == [] then st else AfterLast(cfg, st, acts[..|acts| - 1], acts[|acts| - 1])
  }

  function AfterLast(cfg: Config, st: Store, before: seq<Activity>, last: Activity): Store
    decreases |before|, 3
  {
    match last
    case Call(req, clock, run) => AfterCall(cfg, st, before, req, clock, run)
    case Background(op) => AfterOp(cfg, st, before, op)
  }

  function AfterCall(cfg: Config, st: Store, before: seq<Activity>, req: Request, clock: Clock, run: ToolRun): Store
    decreases |before|, 2
  {
    Handle(cfg, Run(cfg, st, before), req, clock, run)
  }

  function AfterOp(cfg: Config, st: Store, before: seq<Activity>, op: Op): Store
    decreases |before|, 2
  {
    Apply(Run(cfg, st, before), op)
  }

  lemma RunStep(cfg: Config, st: Store, acts: seq<Activity>)
    requires acts != []
    ensures Run(cfg, st, acts) == Perform(cfg, Run(cfg, st, acts[..|acts| - 1]), acts[|acts| - 1])
  {
    hide Handle, Apply;
    var before, last := acts[..|acts| - 1], acts[|acts| - 1];
    assert Run(cfg, st, acts) == AfterLast(cfg, st, before, last);
    if last.Call? {
      assert AfterLast(cfg, st, before, last) == AfterCall(cfg, st, before, last.req, last.clock, last.run);
    } else {
      assert AfterLast(cfg, st, before, last) == AfterOp(cfg, st, before, last.op);
    }
  }

  // ---- The invariant ----

  ghost predicate JobsInv(l: Ledger, seqNo: nat) {
    && l.trace.Keys == l.jobs.Keys
    && forall id | id in l.jobs ::
         && l.jobs[id].id == id
         && CounterOf(id) <= seqNo
         && l.trace[id] == Path(l.jobs[id].status)
         && l.jobs[id].history == [Planned, l.jobs[id].status]
         && l.jobs[id].status in {Completed, Failed, Blocked, PendingApproval}
  }

  ghost predicate IndexInv(l: Ledger) {
    && (forall k | k in l.byKey :: k != "" && l.byKey[k] in l.jobs && l.jobs[l.byKey[k]].idemKey == k)
    && (forall id | id in l.jobs && l.jobs[id].idemKey != "" ::
          l.jobs[id].idemKey in l.byKey && l.byKey[l.jobs[id].idemKey] == id)
  }

  ghost predicate ExecutedInv(l: Ledger) {
    && (forall i | 0 <= i < |l.executed| ::
          && l.executed[i].jobId in l.jobs
          && l.executed[i].key == l.jobs[l.executed[i].jobId].idemKey
          && l.jobs[l.executed[i].jobId].status in {Completed, Failed})
    && (forall i, j | 0 <= i < j < |l.executed| :: l.executed[i].jobId != l.executed[j].jobId)
    && |l.executed| == |Ran(l)|
  }

  function Ran(l: Ledger): set<string> {
    set id | id in l.jobs && l.jobs[id].status in {Completed, Failed}
  }

  function Faulty(l: Ledger): set<string> {
    set id | id in l.jobs && l.jobs[id].status in {Blocked, Failed}
  }

  ghost predicate AuditsInv(l: Ledger, seqNo: nat) {
    && |l.audits| == |l.jobs|
    && (forall i | 0 <= i < |l.audits| :: CounterOf(l.audits[i].id) <= seqNo)
    && (forall i, j | 0 <= i < j < |l.audits| :: l.audits[i].id != l.audits[j].id)
  }

  ghost predicate IncidentsInv(l: Ledger, seqNo: nat) {
    && |l.incidents| == |Faulty(l)|
    && (forall i | 0 <= i < |l.incidents| :: CounterOf(l.incidents[i].id) <= seqNo)
    && (forall i, j | 0 <= i < j < |l.incidents| :: l.incidents[i].id != l.incidents[j].id)
  }

  /** Reauthentication, hardware MFA and a second approver, on a HIGH tool. */
  predicate FullyApproved(e: Execution) {
    e.risk == High && e.approveNow && e.hardwareMfa && !e.secondApproverBlank
  }

  ghost predicate SomeFullyApproved(executed: seq<Execution>) {
    exists i :: 0 <= i < |executed| && FullyApproved(executed[i])
  }

  ghost predicate ApprovalInv(executed: seq<Execution>, mode: PolicyModeState) {
    && (forall i | 0 <= i < |executed| && executed[i].risk == High ::
          executed[i].approveNow && SomeFullyApproved(executed[..i + 1]))
    && (mode.mode == AggressiveAuto ==> SomeFullyApproved(executed))
  }

  ghost predicate Inv(st: Store) {
    && JobsInv(st.ledger, st.seqNo)
    && IndexInv(st.ledger)
    && ExecutedInv(st.ledger)
    && AuditsInv(st.ledger, st.seqNo)
    && IncidentsInv(st.ledger, st.seqNo)
    && ApprovalInv(st.ledger.executed, st.mode)
  }

  // ---- One call keeps it ----

  /** The id CreateJob hands out is not in use. */
  lemma NewIdIsFresh(l: Ledger, seqNo: nat)
    requires JobsInv(l, seqNo)
    ensures IdText("job", seqNo + 1) !in l.jobs
  {
    CounterOfIdText("job", seqNo + 1);
  }

  /** What the stored job of a call looks like from outside. */
  ghost predicate Settled(job: Job, seqNo: nat) {
    && job.id == IdText("job", seqNo + 1)
    && job.history == [Planned, job.status]
    && job.status in {Completed, Failed, Blocked, PendingApproval}
  }

  lemma ExtendKeepsJobs(l: Ledger, seqNo: nat, job: Job, audit: Audit, incidents: seq<Incident>,
                        executed: seq<Execution>, seqNo': nat)
    requires JobsInv(l, seqNo) && Settled(job, seqNo) && seqNo' > seqNo
    ensures JobsInv(Extend(l, job, audit, incidents, executed), seqNo')
  {
    hide Path, IdText, CounterOf;
    CounterOfIdText("job", seqNo + 1);
  }

  lemma ExtendKeepsIndex(l: Ledger, job: Job, audit: Audit, incidents: seq<Incident>, executed: seq<Execution>)
    requires IndexInv(l) && job.id !in l.jobs && job.idemKey !in l.byKey
    ensures IndexInv(Extend(l, job, audit, incidents, executed))
  {
  }

  lemma ExtendRan(l: Ledger, l': Ledger, job: Job)
    requires job.id !in l.jobs && l'.jobs == l.jobs[job.id := job]
    ensures |Ran(l')| == |Ran(l)| + (if job.status in {Completed, Failed} then 1 else 0)
  {
    assert Ran(l') == if job.status in {Completed, Failed} then Ran(l) + {job.id} else Ran(l);
  }

  lemma ExtendFaulty(l: Ledger, l': Ledger, job: Job)
    requires job.id !in l.jobs && l'.jobs == l.jobs[job.id := job]
    ensures |Faulty(l')| == |Faulty(l)| + (if job.status in {Blocked, Failed} then 1 else 0)
  {
    assert Faulty(l') == if job.status in {Blocked, Failed} then Faulty(l) + {job.id} else Faulty(l);
  }

  lemma ExtendKeepsExecuted(l: Ledger, job: Job, audit: Audit, incidents: seq<Incident>, executed: seq<Execution>)
    requires ExecutedInv(l) && job.id !in l.jobs
    requires |executed| == if job.status in {Completed, Failed} then 1 else 0
    requires executed != [] ==> executed[0].jobId == job.id && executed[0].key == job.idemKey
    ensures ExecutedInv(Extend(l, job, audit, incidents, executed))
  {
    hide Path, Ran, Faulty;
    var l' := Extend(l, job, audit, incidents, executed);
    ExtendRan(l, l', job);
    forall i | 0 <= i < |l'.executed|
      ensures && l'.executed[i].jobId in l'.jobs
              && l'.executed[i].key == l'.jobs[l'.executed[i].jobId].idemKey
              && l'.jobs[l'.executed[i].jobId].status in {Completed, Failed}
    {
      assert i < |l.executed| ==> l'.executed[i] == l.executed[i];
    }
  }

  lemma ExtendKeepsAudits(l: Ledger, seqNo: nat, job: Job, audit: Audit, incidents: seq<Incident>,
                          executed: seq<Execution>, seqNo': nat)
    requires AuditsInv(l, seqNo) && job.id !in l.jobs
    requires seqNo < CounterOf(audit.id) <= seqNo'
    ensures AuditsInv(Extend(l, job, audit, incidents, executed), seqNo')
  {
    hide Path, CounterOf;
    assert forall i | 0 <= i < |l.audits| :: (l.audits + [audit])[i] == l.audits[i];
  }

  lemma ExtendKeepsIncidents(l: Ledger, seqNo: nat, job: Job, audit: Audit, incidents: seq<Incident>,
                             executed: seq<Execution>, seqNo': nat)
    requires IncidentsInv(l, seqNo) && job.id !in l.jobs && seqNo <= seqNo'
    requires |incidents| == if job.status in {Blocked, Failed} then 1 else 0
    requires incidents != [] ==> seqNo < CounterOf(incidents[0].id) <= seqNo'
    ensures IncidentsInv(Extend(l, job, audit, incidents, executed), seqNo')
  {
    hide Path, CounterOf, Ran, Faulty;
    var l' := Extend(l, job, audit, incidents, executed);
    ExtendFaulty(l, l', job);
    assert forall i | 0 <= i < |l.incidents| :: l'.incidents[i] == l.incidents[i];
  }

  /** The facts about one call that the four lemmas above ask for. */
  lemma CallIsSettled(cfg: Config, st: Store, req: Request, clock: Clock, run: ToolRun)
    ensures var a := Assess(cfg, st, req, clock);
            var job := StoredJob(a, LocalJob(st, req, a, clock), clock, run);
            var incidents := IncidentsOf(a, st, clock, run);
            && Settled(job, st.seqNo) && job.idemKey == req.idemKey
            && (a.decision.allow <==> job.status in {Completed, Failed})
            && |incidents| == (if job.status in {Blocked, Failed} then 1 else 0)
            && (incidents != [] ==>
                  CounterOf(incidents[0].id) == st.seqNo + 3 +
                    if a.decision.allow
                    then run.effect.idsTaken + (if run.effect.newTask.Some? then 1 else 0) else 0)
            && CounterOf(AuditOf(cfg, st, req, a, clock).id) == st.seqNo + 2
  {
    AllowIsAutoRun(cfg, st, req, clock);
    hide Assess, CounterOf, IdText;
    CounterOfIdText("audit", st.seqNo + 2);
    CounterOfIdText("incident", st.seqNo + 3);
    CounterOfIdText("incident", st.seqNo + 3 + run.effect.idsTaken + if run.effect.newTask.Some? then 1 else 0);
  }

  lemma AllowIsAutoRun(cfg: Config, st: Store, req: Request, clock: Clock)
    ensures var d := Assess(cfg, st, req, clock).decision; d.kind == AutoRun <==> d.allow
  {
    hide Classify, HardBlockReason;
  }

  /** The guard of a call, to be read off before it: a HIGH tool needs a reauthentication
      and an open aggressive box or the second factor, everything but LOW a passing
      health gate. */
  predicate Admits(cfg: Config, st: Store, req: Request, clock: Clock) {
    var risk := Classify(req.tool, req.params);
    && (risk != Low ==> ValidateForWrite(cfg.failClosed, SnapshotOf(st.nodes, clock.snapshot, cfg.maxAge)).None?)
    && (risk == High ==>
          && req.approveNow
          && (|| AggressiveLive(ReadMode(st.mode, clock.modeRead), clock.gate)
              || (req.hardwareMfa && !Blank(req.secondApprover))))
  }

  /** Exactly when a call reaches its tool. */
  lemma AllowedIff(cfg: Config, st: Store, req: Request, clock: Clock)
    ensures Assess(cfg, st, req, clock).decision.allow <==> Admits(cfg, st, req, clock)
  {
    hide Classify, HardBlockText, SnapshotOf;
    assert Assess(cfg, st, req, clock).risk != Unlisted by { ClassifiedRisks(req.tool, req.params); }
  }

  /** What an allowed HIGH call has shown. */
  lemma AllowedHighIsApproved(cfg: Config, st: Store, req: Request, clock: Clock)
    ensures var a := Assess(cfg, st, req, clock);
            a.decision.allow && a.risk == High ==>
              && req.approveNow
              && (|| AggressiveLive(ReadMode(st.mode, clock.modeRead), clock.gate)
                  || (req.hardwareMfa && !Blank(req.secondApprover)))
  {
    hide Classify, HardBlockReason, Evaluate, SnapshotOf, AggressiveLive, ReadMode;
    AllowedIff(cfg, st, req, clock);
  }

  /** How a call is refused and how many approvals it asks for: only the health gate
      blocks, and two approvals are asked for every HIGH tool unless a reauthenticated
      call rides on an open aggressive box. */
  lemma RefusedHow(cfg: Config, st: Store, req: Request, clock: Clock)
    ensures var a := Assess(cfg, st, req, clock);
            && (a.decision.kind == DecisionBlocked <==> a.gate.Some?)
            && (a.decision.kind == RequiresApproval <==> a.gate.None? && !Admits(cfg, st, req, clock))
            && (a.gate.Some? ==> a.decision.reason == a.gate.value)
            && a.decision.requiredApprovals ==
               if a.gate.None? && a.risk == High
                  && !(req.approveNow && AggressiveLive(ReadMode(st.mode, clock.modeRead), clock.gate))
               then 2 else 0
  {
    hide Classify, HardBlockText, SnapshotOf;
    assert Assess(cfg, st, req, clock).risk != Unlisted by { ClassifiedRisks(req.tool, req.params); }
  }

  lemma ClassifiedRisks(tool: string, params: Params)
    ensures Classify(tool, params) != Unlisted
  {
  }

  /** A tool run switches the mode to aggressive only as a HIGH tool. */
  lemma OnlyHighGoesAggressive(cfg: Config, st: Store, req: Request, clock: Clock, run: ToolRun)
    requires req.tool == "policy.mode.set" && ModeSetByTool(req.params, run.effect.at).mode == AggressiveAuto
    ensures Assess(cfg, st, req, clock).risk == High
  {
    hide Classify, HardBlockReason, Evaluate;
    AggressiveRequestIsHigh(req.params);
  }

  lemma CallKeepsApproval(log: seq<Execution>, mode: PolicyModeState, entry: Execution, mode': PolicyModeState)
    requires ApprovalInv(log, mode)
    requires entry.risk == High ==>
               entry.approveNow && (mode.mode == AggressiveAuto || (entry.hardwareMfa && !entry.secondApproverBlank))
    requires mode'.mode == AggressiveAuto ==> mode.mode == AggressiveAuto || entry.risk == High
    ensures ApprovalInv(log + [entry], mode')
  {
    var log' := log + [entry];
    SomeFullyApprovedGrows(log, entry);
    if entry.risk == High {
      assert FullyApproved(entry) || SomeFullyApproved(log);
      assert FullyApproved(entry) ==> FullyApproved(log'[|log|]);
    }
    forall i | 0 <= i < |log'| && log'[i].risk == High
      ensures log'[i].approveNow && SomeFullyApproved(log'[..i + 1])
    {
      if i < |log| {
        assert log'[..i + 1] == log[..i + 1];
        assert log[i].risk == High;
      } else {
        assert log'[..i + 1] == log';
      }
    }
  }

  lemma SomeFullyApprovedGrows(log: seq<Execution>, entry: Execution)
    ensures SomeFullyApproved(log) ==> SomeFullyApproved(log + [entry])
  {
    if SomeFullyApproved(log) {
      var i :| 0 <= i < |log| && FullyApproved(log[i]);
      assert (log + [entry])[i] == log[i];
    }
  }

  lemma ApprovalAfterCall(cfg: Config, st: Store, req: Request, clock: Clock, run: ToolRun)
    requires Inv(st) && !Answered(st, req)
    ensures var st' := Handle(cfg, st, req, clock, run);
            ApprovalInv(st'.ledger.executed, st'.mode)
  {
    hide Assess, ModeSetByTool, Handle, JobsInv, IndexInv, ExecutedInv, AuditsInv, IncidentsInv, ApprovalInv, Path,
         StoredJob, IncidentsOf, LocalJob, AuditOf, Answered;
    CallEffect(cfg, st, req, clock, run);
    AllowedHighIsApproved(cfg, st, req, clock);
    if req.tool == "policy.mode.set" && ModeSetByTool(req.params, run.effect.at).mode == AggressiveAuto {
      OnlyHighGoesAggressive(cfg, st, req, clock, run);
    }
    var a := Assess(cfg, st, req, clock);
    var st' := Handle(cfg, st, req, clock, run);
    if a.decision.allow {
      var entry := EntryFor(req, a, LocalJob(st, req, a, clock).id);
      CallKeepsApproval(st.ledger.executed, st.mode, entry, st'.mode);
    } else {
      assert st'.ledger.executed == st.ledger.executed;
      DemotionKeepsApproval(st.ledger.executed, st.mode, st'.mode);
    }
  }

  lemma DemotionKeepsApproval(log: seq<Execution>, mode: PolicyModeState, mode': PolicyModeState)
    requires ApprovalInv(log, mode) && (mode'.mode == AggressiveAuto ==> mode.mode == AggressiveAuto)
    ensures ApprovalInv(log, mode')
  {
  }

  lemma UnansweredKeyIsUnbound(st: Store, req: Request)
    requires IndexInv(st.ledger) && !Answered(st, req)
    ensures req.idemKey !in st.ledger.byKey
  {
  }

  lemma LedgerAfterCall(cfg: Config, st: Store, req: Request, clock: Clock, run: ToolRun, seqNo': nat)
    requires Inv(st) && !Answered(st, req)
    requires seqNo' >= st.seqNo + 2 + |IncidentsOf(Assess(cfg, st, req, clock), st, clock, run)| +
                       if Assess(cfg, st, req, clock).decision.allow
                       then run.effect.idsTaken + (if run.effect.newTask.Some? then 1 else 0) else 0
    ensures var l' := LedgerAfter(cfg, st, req, clock, run);
            JobsInv(l', seqNo') && IndexInv(l') && ExecutedInv(l') && AuditsInv(l', seqNo') && IncidentsInv(l', seqNo')
  {
    hide Assess, JobsInv, IndexInv, ExecutedInv, AuditsInv, IncidentsInv, ApprovalInv, StoredJob, IncidentsOf,
         LocalJob, Extend, AuditOf, CounterOf, IdText, Answered;
    CallIsSettled(cfg, st, req, clock, run);
    NewIdIsFresh(st.ledger, st.seqNo);
    UnansweredKeyIsUnbound(st, req);
    var a := Assess(cfg, st, req, clock);
    var job := StoredJob(a, LocalJob(st, req, a, clock), clock, run);
    var audit, incidents := AuditOf(cfg, st, req, a, clock), IncidentsOf(a, st, clock, run);
    var executed := if a.decision.allow then [EntryFor(req, a, LocalJob(st, req, a, clock).id)] else [];
    assert LocalJob(st, req, a, clock).id == job.id by { StoredKeepsId(st, req, a, clock, run); }
    ExtendKeepsJobs(st.ledger, st.seqNo, job, audit, incidents, executed, seqNo');
    ExtendKeepsIndex(st.ledger, job, audit, incidents, executed);
    ExtendKeepsExecuted(st.ledger, job, audit, incidents, executed);
    ExtendKeepsAudits(st.ledger, st.seqNo, job, audit, incidents, executed, seqNo');
    ExtendKeepsIncidents(st.ledger, st.seqNo, job, audit, incidents, executed, seqNo');
  }

  lemma StoredKeepsId(st: Store, req: Request, a: Assessment, clock: Clock, run: ToolRun)
    ensures StoredJob(a, LocalJob(st, req, a, clock), clock, run).id == LocalJob(st, req, a, clock).id
  {
  }

  lemma CallKeepsInv(cfg: Config, st: Store, req: Request, clock: Clock, run: ToolRun)
    requires Inv(st)
    ensures Inv(Handle(cfg, st, req, clock, run))
  {
    hide Assess, JobsInv, IndexInv, ExecutedInv, AuditsInv, IncidentsInv, ApprovalInv, IncidentsOf, LedgerAfter,
         ModeSetByTool, ReadMode, ApplyAll, Writes, Answered;
    if !Answered(st, req) {
      ApprovalAfterCall(cfg, st, req, clock, run);
      CallEffect(cfg, st, req, clock, run);
      LedgerAfterCall(cfg, st, req, clock, run, Handle(cfg, st, req, clock, run).seqNo);
    }
  }

  lemma BackgroundLeavesLedger(st: Store, op: Op)
    requires IsBackground(op)
    ensures var st' := Apply(st, op);
            && st'.ledger == st.ledger && st'.seqNo >= st.seqNo && st'.rollbackNo == st.rollbackNo
            && (st'.mode.mode == AggressiveAuto ==> st.mode.mode == AggressiveAuto)
  {
    hide PutTask, TaskOf, Claim, Tag, Complete, IdText, ModeSetByTool, PutCreatedJob, PutUpdatedJob, RanTool;
  }

  lemma LaterCountersKeepInv(l: Ledger, seqNo: nat, seqNo': nat)
    requires JobsInv(l, seqNo) && AuditsInv(l, seqNo) && IncidentsInv(l, seqNo) && seqNo <= seqNo'
    ensures JobsInv(l, seqNo') && AuditsInv(l, seqNo') && IncidentsInv(l, seqNo')
  {
    hide Path, CounterOf, Faulty;
  }

  lemma BackgroundKeepsInv(st: Store, op: Op)
    requires Inv(st) && IsBackground(op)
    ensures Inv(Apply(st, op)) && Apply(st, op).ledger == st.ledger
  {
    hide Apply, IsBackground, JobsInv, IndexInv, ExecutedInv, AuditsInv, IncidentsInv, ApprovalInv;
    BackgroundLeavesLedger(st, op);
    var st' := Apply(st, op);
    LaterCountersKeepInv(st.ledger, st.seqNo, st'.seqNo);
    DemotionKeepsApproval(st.ledger.executed, st.mode, st'.mode);
  }

  lemma {:induction false} RunKeepsInv(cfg: Config, st: Store, acts: seq<Activity>)
    requires Inv(st) && WellFormed(acts)
    ensures Inv(Run(cfg, st, acts))
  {
    hide Handle, Apply, JobsInv, IndexInv, ExecutedInv, AuditsInv, IncidentsInv, ApprovalInv;
    if acts != [] {
      var before := acts[..|acts| - 1];
      RunStep(cfg, st, acts);
      RunKeepsInv(cfg, st, before);
      match acts[|acts| - 1] {
        case Call(req, clock, run) => CallKeepsInv(cfg, Run(cfg, st, before), req, clock, run);
        case Background(op) => BackgroundKeepsInv(Run(cfg, st, before), op);
      }
    }
  }

  lemma FreshStoreInv(nodes: seq<Node>)
    ensures Inv(FreshStore(nodes))
  {
    assert Faulty(FreshStore(nodes).ledger) == {} && Ran(FreshStore(nodes).ledger) == {};
  }
}
