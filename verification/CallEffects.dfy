// What one call of the pipeline leaves in the store, in closed form.
module CallEffects {
  import opened Text
  import opened Models
  import opened Ids
  import opened PolicyGate
  import opened StoreModel
  import opened Orchestrator
  import opened Pipeline

  function FinalStatus(a: Assessment, run: ToolRun): JobStatus {
    if a.decision.allow then if run.outcome.Done? then Completed else Failed
    else if a.decision.kind == RequiresApproval then PendingApproval else Blocked
  }

  /** The four legal status paths of a job. */
  function Path(final: JobStatus): seq<JobStatus> {
    match final
    case Completed => [Planned, Approved, Running, Verified, Completed]
    case Failed => [Planned, Approved, Running, Failed]
    case other => [Planned, other]
  }

  /** The record a call leaves behind: the returned job with the final status
      appended to the one-element history the caller kept passing in. */
  function StoredJob(a: Assessment, job: Job, clock: Clock, run: ToolRun): Job {
    (if a.decision.allow then SettledJob(job, run.outcome) else RefusedJob(job, a))
    .(history := [Planned, FinalStatus(a, run)], updatedAt := clock.settled)
  }

  function IncidentsOf(a: Assessment, st: Store, clock: Clock, run: ToolRun): seq<Incident> {
    if !a.decision.allow then
      if a.decision.kind == DecisionBlocked
      then [Incident(IdText("incident", st.seqNo + 3), "policy_block", "warning", a.decision.reason, clock.incident)]
      else []
    else
      match run.outcome
      case Done(_, _, _) => []
      case Broke(error) =>
        var before := st.seqNo + 2 + run.effect.idsTaken + if run.effect.newTask.Some? then 1 else 0;
        [Incident(IdText("incident", before + 1), "job_failed", "critical", error, clock.incident)]
  }

  /** A ledger with one more settled job. */
  function Extend(l: Ledger, job: Job, audit: Audit, incidents: seq<Incident>, executed: seq<Execution>): Ledger {
    Ledger(
      l.jobs[job.id := job],
      if job.idemKey == "" then l.byKey else l.byKey[job.idemKey := job.id],
      l.audits + [audit],
      l.incidents + incidents,
      l.trace[job.id := Path(job.status)],
      l.executed + executed)
  }

  function LedgerAfter(cfg: Config, st: Store, req: Request, clock: Clock, run: ToolRun): Ledger {
    var a := Assess(cfg, st, req, clock);
    var job := LocalJob(st, req, a, clock);
    Extend(st.ledger, StoredJob(a, job, clock, run), AuditOf(cfg, st, req, a, clock),
           IncidentsOf(a, st, clock, run),
           if a.decision.allow then [EntryFor(req, a, job.id)] else [])
  }

  lemma OpeningEffect(cfg: Config, st: Store, req: Request, a: Assessment, clock: Clock)
    ensures var job := LocalJob(st, req, a, clock);
            var l := st.ledger;
            var s := ApplyAll(st, OpeningOps(cfg, req, a, clock));
            && s.seqNo == st.seqNo + 2 && s.rollbackNo == st.rollbackNo + 1
            && s.queue == st.queue && s.nodes == st.nodes && s.heap == st.heap
            && s.mode == ReadMode(st.mode, clock.modeRead)
            && s.ledger == Ledger(l.jobs[job.id := job],
                                  if req.idemKey == "" then l.byKey else l.byKey[req.idemKey := job.id],
                                  l.audits + [AuditOf(cfg, st, req, a, clock)],
                                  l.incidents, l.trace[job.id := [Planned]], l.executed)
  {
    var ops := OpeningOps(cfg, req, a, clock);
    ApplyThree(st, ops[0], ops[1], ops[2]);
  }

  /** A job record and its trace, put into a ledger. */
  function Put(l: Ledger, job: Job, trace: seq<JobStatus>): Ledger {
    l.(jobs := l.jobs[job.id := job], trace := l.trace[job.id := trace])
  }

  /** UpdateJob on a job that was created with the one-element history. */
  lemma UpdateEffect(st: Store, job: Job, at: int, trace: seq<JobStatus>)
    requires job.id in st.ledger.jobs && job.history == [Planned] && job.status != Planned
    requires Trace(st.ledger, job.id) == trace
    ensures Apply(st, UpdateJob(job, at)) ==
            st.(ledger := Put(st.ledger, job.(updatedAt := at, history := [Planned, job.status]), trace + [job.status]))
  {
    assert [Planned] + [job.status] == [Planned, job.status];
    assert UpdatedJob(st.ledger, job, at) == job.(updatedAt := at, history := [Planned, job.status]);
  }

  lemma IncidentEffect(st: Store, kind: string, severity: string, message: string, at: int)
    ensures Apply(st, RecordIncident(kind, severity, message, at)) ==
            st.(seqNo := st.seqNo + 1, ledger := st.ledger.(incidents := st.ledger.incidents +
            [Incident(IdText("incident", st.seqNo + 1), kind, severity, message, at)]))
  {
  }

  lemma PutTwice(l: Ledger, job: Job, trace: seq<JobStatus>, job': Job, trace': seq<JobStatus>)
    requires job.id == job'.id
    ensures Put(Put(l, job, trace), job', trace') == Put(l, job', trace')
  {
    assert l.jobs[job.id := job][job.id := job'] == l.jobs[job.id := job'];
    assert l.trace[job.id := trace][job.id := trace'] == l.trace[job.id := trace'];
  }

  lemma RefusalEffect(s: Store, a: Assessment, job: Job, clock: Clock, run: ToolRun)
    requires job.id in s.ledger.jobs && job.history == [Planned] && !a.decision.allow
    requires Trace(s.ledger, job.id) == [Planned]
    ensures var added := if a.decision.kind == DecisionBlocked
                       then [Incident(IdText("incident", s.seqNo + 1), "policy_block", "warning",
                                      a.decision.reason, clock.incident)]
                       else [];
            ApplyAll(s, RefusalOps(a, job, clock)) ==
            s.(seqNo := s.seqNo + |added|,
            ledger := Put(s.ledger.(incidents := s.ledger.incidents + added),
                          StoredJob(a, job, clock, run), Path(FinalStatus(a, run))))
  {
    hide Apply, ApplyAll;
    var ops := RefusalOps(a, job, clock);
    if a.decision.kind == DecisionBlocked {
      ApplyTwo(s, ops[0], ops[1]);
      IncidentEffect(s, "policy_block", "warning", a.decision.reason, clock.incident);
      UpdateEffect(Apply(s, ops[0]), RefusedJob(job, a), clock.settled, [Planned]);
    } else {
      ApplyOne(s, ops[0]);
      UpdateEffect(s, RefusedJob(job, a), clock.settled, [Planned]);
      assert s.ledger.(incidents := s.ledger.incidents + []) == s.ledger;
    }
    assert [Planned] + [FinalStatus(a, run)] == Path(FinalStatus(a, run));
  }

  lemma ToolEffectOnLedger(s: Store, entry: Execution, params: Params, effect: ToolEffect, output: Option<Params>)
    ensures var s' := Apply(s, RunTool(entry, params, effect, output));
            && s'.seqNo == s.seqNo + effect.idsTaken + (if effect.newTask.Some? then 1 else 0)
            && s'.ledger == s.ledger.(executed := s.ledger.executed + [entry])
            && s'.mode == (if entry.tool == "policy.mode.set" then ModeSetByTool(params, effect.at) else s.mode)
            && s'.rollbackNo == s.rollbackNo && s'.queue == QueuedBy(s, effect) && s'.nodes == effect.nodes
            && s'.heap == HeapBy(s, entry.jobId, effect, output)
  {
  }

  /** The queue after a tool run started in s. */
  function QueuedBy(s: Store, effect: ToolEffect): Queue {
    if effect.newTask.None? then s.queue
    else PutTask(s.queue, TaskOf(effect.newTask.value, IdText("task", s.seqNo + effect.idsTaken + 1), effect.at), None)
  }

  /** The shared maps after a tool run started in s. */
  function HeapBy(s: Store, jobId: string, effect: ToolEffect, output: Option<Params>): Heap {
    var h := OutputPut(s.heap, jobId, effect, output);
    if effect.newTask.None? then h
    else Allocated(h, effect.newTask.value.payload, IdText("task", s.seqNo + effect.idsTaken + 1))
  }

  lemma ExecutionEffect(s: Store, req: Request, a: Assessment, job: Job, clock: Clock, run: ToolRun)
    requires job.id in s.ledger.jobs && job.history == [Planned]
    requires Trace(s.ledger, job.id) == [Planned]
    ensures var l := s.ledger.(executed := s.ledger.executed + [EntryFor(req, a, job.id)]);
            var s' := ApplyAll(s, ExecutionOps(req, a, job, clock, run));
            && s'.seqNo == s.seqNo + run.effect.idsTaken + (if run.effect.newTask.Some? then 1 else 0)
            && s'.mode == (if req.tool == "policy.mode.set" then ModeSetByTool(req.params, run.effect.at) else s.mode)
            && s'.ledger == Put(l, job.(status := Running, history := [Planned, Running], updatedAt := clock.running),
                                [Planned, Approved, Running])
            && s'.rollbackNo == s.rollbackNo && s'.queue == QueuedBy(s, run.effect) && s'.nodes == run.effect.nodes
            && s'.heap == HeapBy(s, job.id, run.effect, LiveOutput(run.outcome))
  {
    hide Apply, ApplyAll, ModeSetByTool, PutTask, TaskOf, OutputPut, Allocated, LiveOutput;
    var ops := ExecutionOps(req, a, job, clock, run);
    ApplyThree(s, ops[0], ops[1], ops[2]);
    var approved := job.(status := Approved);
    UpdateEffect(s, approved, clock.approved, [Planned]);
    var s1 := Apply(s, ops[0]);
    assert [Planned] + [Approved] == [Planned, Approved];
    assert [Planned, Approved] + [Running] == [Planned, Approved, Running];
    UpdateEffect(s1, job.(status := Running), clock.running, [Planned, Approved]);
    var done := job.(status := Running, history := [Planned, Running], updatedAt := clock.running);
    PutTwice(s.ledger, approved.(updatedAt := clock.approved, history := [Planned, Approved]), [Planned, Approved],
             done, [Planned, Approved, Running]);
    ToolEffectOnLedger(Apply(s1, ops[1]), EntryFor(req, a, job.id), req.params, run.effect, LiveOutput(run.outcome));
  }

  lemma OutcomeEffect(s: Store, a: Assessment, job: Job, clock: Clock, run: ToolRun)
    requires job.id in s.ledger.jobs && job.history == [Planned] && a.decision.allow
    requires Trace(s.ledger, job.id) == [Planned, Approved, Running]
    ensures var added := match run.outcome
                       case Done(_, _, _) => []
                       case Broke(error) => [Incident(IdText("incident", s.seqNo + 1), "job_failed", "critical",
                                                      error, clock.incident)];
            ApplyAll(s, OutcomeOps(job, clock, run.outcome)) ==
            s.(seqNo := s.seqNo + |added|,
            ledger := Put(s.ledger.(incidents := s.ledger.incidents + added),
                          StoredJob(a, job, clock, run), Path(FinalStatus(a, run))))
  {
    hide Apply, ApplyAll;
    var ops := OutcomeOps(job, clock, run.outcome);
    ApplyTwo(s, ops[0], ops[1]);
    var ran := [Planned, Approved, Running];
    match run.outcome {
      case Broke(error) =>
        IncidentEffect(s, "job_failed", "critical", error, clock.incident);
        UpdateEffect(Apply(s, ops[0]), job.(status := Failed, error := error), clock.settled, ran);
        assert ran + [Failed] == Path(Failed);
      case Done(_, _, _) =>
        var verified := job.(status := Verified);
        var completed := job.(status := Completed, result := Some(KeptResult(run.outcome, job.id)));
        UpdateEffect(s, verified, clock.settling, ran);
        UpdateEffect(Apply(s, ops[0]), completed, clock.settled, ran + [Verified]);
        assert ran + [Verified] + [Completed] == Path(Completed);
        PutTwice(s.ledger, verified.(updatedAt := clock.settling, history := [Planned, Verified]), ran + [Verified],
                 completed.(updatedAt := clock.settled, history := [Planned, Completed]), Path(Completed));
        assert s.ledger.(incidents := s.ledger.incidents + []) == s.ledger;
    }
  }

  /** One unanswered call adds exactly one job with its complete status path, one
      audit event, one incident if and only if the job ended BLOCKED or FAILED, and
      one tool execution if and only if the decision allowed it. */
  lemma CallEffect(cfg: Config, st: Store, req: Request, clock: Clock, run: ToolRun)
    requires !Answered(st, req)
    ensures var a := Assess(cfg, st, req, clock);
            var st' := Handle(cfg, st, req, clock, run);
            && st'.ledger == LedgerAfter(cfg, st, req, clock, run)
            && st'.seqNo == st.seqNo + 2 + |IncidentsOf(a, st, clock, run)|
                 + (if a.decision.allow
                    then run.effect.idsTaken + (if run.effect.newTask.Some? then 1 else 0) else 0)
            && st'.rollbackNo == st.rollbackNo + 1
            && st'.mode == (if a.decision.allow && req.tool == "policy.mode.set"
                            then ModeSetByTool(req.params, run.effect.at)
                            else ReadMode(st.mode, clock.modeRead))
  {
    hide Apply, ApplyAll, Assess, ModeSetByTool, ReadMode, Path, IdText, AuditOf, Writes, OpeningOps, RefusalOps,
         ExecutionOps, OutcomeOps, QueuedBy, HeapBy, LiveOutput, KeptResult;
    StagesAreWrites(cfg, st, req, clock, run);
    var a := Assess(cfg, st, req, clock);
    var job := LocalJob(st, req, a, clock);
    OpeningEffect(cfg, st, req, a, clock);
    var s := ApplyAll(st, OpeningOps(cfg, req, a, clock));
    var stored := StoredJob(a, job, clock, run);
    var path := Path(FinalStatus(a, run));
    if a.decision.allow {
      ExecutionEffect(s, req, a, job, clock, run);
      var s1 := ApplyAll(s, ExecutionOps(req, a, job, clock, run));
      OutcomeEffect(s1, a, job, clock, run);
      PutTwice(s.ledger, job.(status := Running, history := [Planned, Running], updatedAt := clock.running),
               [Planned, Approved, Running], stored, path);
    } else {
      RefusalEffect(s, a, job, clock, run);
    }
    PutTwice(st.ledger, job, [Planned], stored, path);
    assert st.ledger.incidents + IncidentsOf(a, st, clock, run) == Handle(cfg, st, req, clock, run).ledger.incidents;
    assert st.ledger.executed + [] == st.ledger.executed;
    assert stored.status == FinalStatus(a, run) && stored.id == job.id && stored.idemKey == req.idemKey;
  }

  lemma AnsweredIsInert(cfg: Config, st: Store, req: Request, clock: Clock, run: ToolRun)
    requires Answered(st, req)
    ensures Handle(cfg, st, req, clock, run) == st
    ensures ReturnedJob(cfg, st, req, clock, run) == st.ledger.jobs[st.ledger.byKey[req.idemKey]]
  {
  }

  /** A call queues the task of its tool, if the tool runs and has one, as the root of a new
      lineage, and leaves the shared maps and the nodes to the tool. */
  lemma CallQueueExactly(cfg: Config, st: Store, req: Request, clock: Clock, run: ToolRun)
    requires !Answered(st, req)
    ensures Handle(cfg, st, req, clock, run).queue ==
            if Assess(cfg, st, req, clock).decision.allow
            then QueuedBy(st.(seqNo := st.seqNo + 2), run.effect) else st.queue
    ensures Handle(cfg, st, req, clock, run).heap ==
            if Assess(cfg, st, req, clock).decision.allow
            then HeapBy(st.(seqNo := st.seqNo + 2), IdText("job", st.seqNo + 1), run.effect, LiveOutput(run.outcome))
            else st.heap
    ensures Handle(cfg, st, req, clock, run).nodes ==
            if Assess(cfg, st, req, clock).decision.allow then run.effect.nodes else st.nodes
  {
    hide Apply, ApplyAll, Assess, ModeSetByTool, ReadMode, Path, AuditOf, Writes, OpeningOps, RefusalOps,
         ExecutionOps, OutcomeOps, PutTask, TaskOf, StoredJob, IdText, OutputPut, Allocated, LiveOutput;
    StagesAreWrites(cfg, st, req, clock, run);
    var a := Assess(cfg, st, req, clock);
    var job := LocalJob(st, req, a, clock);
    OpeningEffect(cfg, st, req, a, clock);
    var s := ApplyAll(st, OpeningOps(cfg, req, a, clock));
    if a.decision.allow {
      ExecutionEffect(s, req, a, job, clock, run);
      OutcomeEffect(ApplyAll(s, ExecutionOps(req, a, job, clock, run)), a, job, clock, run);
    } else {
      RefusalEffect(s, a, job, clock, run);
    }
  }

  /** A call queues at most one task, as the root of a new lineage. */
  lemma CallQueueEffect(cfg: Config, st: Store, req: Request, clock: Clock, run: ToolRun)
    ensures var st' := Handle(cfg, st, req, clock, run);
            && st'.seqNo >= st.seqNo
            && (|| st'.queue == st.queue
                || exists seed, n, at ::
                     && st.seqNo < n <= st'.seqNo
                     && st'.queue == PutTask(st.queue, TaskOf(seed, IdText("task", n), at), None))
  {
    hide Assess, Handle, Path, AuditOf, PutTask, TaskOf, StoredJob, IncidentsOf, IdText, LedgerAfter, ModeSetByTool,
         ReadMode;
    if Answered(st, req) {
      AnsweredIsInert(cfg, st, req, clock, run);
    } else {
      CallEffect(cfg, st, req, clock, run);
      CallQueueExactly(cfg, st, req, clock, run);
      if Assess(cfg, st, req, clock).decision.allow && run.effect.newTask.Some? {
        var n := st.seqNo + 2 + run.effect.idsTaken + 1;
        assert Handle(cfg, st, req, clock, run).queue ==
               PutTask(st.queue, TaskOf(run.effect.newTask.value, IdText("task", n), run.effect.at), None);
      }
    }
  }
}
