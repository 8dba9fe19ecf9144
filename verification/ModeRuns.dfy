// The policy mode over whole runs: the lazily demoted cell of the store against the
// eager time box of the last executed mode change.
module ModeRuns {
  import opened Text
  import opened Models
  import opened HealthGates
  import opened PolicyGate
  import opened RiskEngine
  import opened StoreModel
  import opened Orchestrator
  import opened Pipeline
  import opened CallEffects
  import opened ControlRuns

  /** The write that an executed policy.mode.set performs. */
  function ModeChange(params: Params, at: int): ModeEvent {
    var minutes := IntFrom(Get(params, "duration_minutes"), 0);
    Written(
      if AsksForAggressive(params) then AggressiveAuto else GuardedSre,
      StringFrom(Get(params, "actor")),
      Wrap64((if minutes < 0 then 0 else minutes) * MINUTE),
      at)
  }

  /** The reads and writes of the mode during one activity. */
  function ModeEventsOf(cfg: Config, st: Store, act: Activity): seq<ModeEvent> {
    match act
    case Call(req, clock, run) =>
      if Answered(st, req) then []
      else if Admits(cfg, st, req, clock) && req.tool == "policy.mode.set"
      then [Read(clock.modeRead), ModeChange(req.params, run.effect.at)]
      else [Read(clock.modeRead)]
    case Background(op) => if op.ReadPolicyMode? then [Read(op.at)] else []
  }

  function ModeLog(cfg: Config, st: Store, acts: seq<Activity>): seq<ModeEvent> {
    if acts == [] then []
    else
      var before := acts[..|acts| - 1];
      ModeLog(cfg, st, before) + ModeEventsOf(cfg, Run(cfg, st, before), acts[|acts| - 1])
  }

  lemma ModeAfterSnoc(events: seq<ModeEvent>, e: ModeEvent)
    ensures ModeAfter(events + [e]) ==
            if e.Written? then WriteMode(e.mode, e.actor, e.duration, e.at) else ReadMode(ModeAfter(events), e.at)
  {
    assert (events + [e])[..|events|] == events;
  }

  lemma ChangeIsSetByTool(params: Params, at: int)
    ensures var e := ModeChange(params, at);
            e.Written? && WriteMode(e.mode, e.actor, e.duration, e.at) == ModeSetByTool(params, at)
  {
  }

  lemma CallIsLogged(cfg: Config, st: Store, req: Request, clock: Clock, run: ToolRun, log: seq<ModeEvent>)
    requires st.mode == ModeAfter(log)
    ensures Handle(cfg, st, req, clock, run).mode == ModeAfter(log + ModeEventsOf(cfg, st, Call(req, clock, run)))
  {
    hide Assess, Handle, Answered, Admits, ModeSetByTool, ReadMode, WriteMode, ModeAfter, ModeChange, LedgerAfter,
         IncidentsOf;
    if Answered(st, req) {
      AnsweredIsInert(cfg, st, req, clock, run);
      assert log + [] == log;
    } else {
      CallEffect(cfg, st, req, clock, run);
      AllowedIff(cfg, st, req, clock);
      ModeAfterSnoc(log, Read(clock.modeRead));
      if Admits(cfg, st, req, clock) && req.tool == "policy.mode.set" {
        var change := ModeChange(req.params, run.effect.at);
        ChangeIsSetByTool(req.params, run.effect.at);
        ModeAfterSnoc(log + [Read(clock.modeRead)], change);
        assert log + [Read(clock.modeRead), change] == log + [Read(clock.modeRead)] + [change];
      }
    }
  }

  lemma BackgroundIsLogged(cfg: Config, st: Store, op: Op, log: seq<ModeEvent>)
    requires IsBackground(op) && st.mode == ModeAfter(log)
    ensures Apply(st, op).mode == ModeAfter(log + ModeEventsOf(cfg, st, Background(op)))
  {
    hide PutTask, TaskOf, Claim, Tag, Complete, ModeSetByTool, PutCreatedJob, PutUpdatedJob, ModeAfter;
    if op.ReadPolicyMode? {
      ModeAfterSnoc(log, Read(op.at));
    } else {
      assert log + [] == log;
    }
  }

  /** The store's mode is what the executed mode changes and the reads make of it. */
  lemma {:induction false} ModeIsLogged(cfg: Config, nodes: seq<Node>, acts: seq<Activity>)
    requires WellFormed(acts)
    ensures Run(cfg, FreshStore(nodes), acts).mode == ModeAfter(ModeLog(cfg, FreshStore(nodes), acts))
  {
    if acts != [] {
      hide Handle, Apply, ModeEventsOf, ModeAfter;
      var before := acts[..|acts| - 1];
      RunStep(cfg, FreshStore(nodes), acts);
      ModeIsLogged(cfg, nodes, before);
      var st, log := Run(cfg, FreshStore(nodes), before), ModeLog(cfg, FreshStore(nodes), before);
      match acts[|acts| - 1] {
        case Call(req, clock, run) => CallIsLogged(cfg, st, req, clock, run, log);
        case Background(op) => BackgroundIsLogged(cfg, st, op, log);
      }
    }
  }

  /** In every run whose mode reads and writes are in order of time, a reauthenticated HIGH
      call without the second factor is allowed if and only if the health gate passes and
      the last executed mode change opened an aggressive box that is still open. */
  lemma SecondFactorIsWaivedIff(cfg: Config, nodes: seq<Node>, acts: seq<Activity>, req: Request, clock: Clock)
    requires WellFormed(acts)
    requires InOrder(ModeLog(cfg, FreshStore(nodes), acts) + [Read(clock.modeRead)]) && clock.modeRead <= clock.gate
    requires Classify(req.tool, req.params) == High && req.approveNow
    requires !req.hardwareMfa || Blank(req.secondApprover)
    ensures var st := Run(cfg, FreshStore(nodes), acts);
            Assess(cfg, st, req, clock).decision.allow <==>
            && ValidateForWrite(cfg.failClosed, SnapshotOf(st.nodes, clock.snapshot, cfg.maxAge)).None?
            && BoxOpen(ModeLog(cfg, FreshStore(nodes), acts), clock.gate)
  {
    hide Run, ModeLog, Assess, Classify, InOrder, BoxOpen, AggressiveLive, ModeAfter, SnapshotOf, ValidateForWrite,
         ReadMode;
    var st, log := Run(cfg, FreshStore(nodes), acts), ModeLog(cfg, FreshStore(nodes), acts);
    ModeIsLogged(cfg, nodes, acts);
    AllowedIff(cfg, st, req, clock);
    LazyExpiryRefinesEagerBox(log, clock.modeRead, clock.gate);
    ModeAfterSnoc(log, Read(clock.modeRead));
  }
}
