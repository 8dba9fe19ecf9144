// The guard of HandleCall under concurrent callers: a call is assessed, decided on the mode
// it reads, entered into its tool and, if that is policy.mode.set, writes the mode in
// separate steps, and any number of calls may be between them.
module ApprovalStages {
  import opened Text
  import opened Models
  import opened HealthGates
  import opened PolicyGate
  import opened RiskEngine
  import opened StoreModel
  import opened Orchestrator
  import opened Pipeline
  import opened CallEffects
  import opened ControlRuns

  datatype Stage =
    | Gauged(req: Request, snapshot: Snapshot)
    | Decided(req: Request, allow: bool, ground: Ground)
    | Inside(req: Request)
    | Left

  /** The mode a decision read, and its instant. */
  datatype Ground = Ground(mode: PolicyModeState, at: int)

  /** History: `grounds` has the ground of each execution. */
  datatype Floor = Floor(mode: PolicyModeState, executed: seq<Execution>, grounds: seq<Ground>, calls: map<nat, Stage>)

  datatype Step =
    | Arrive(call: nat, req: Request, snapshot: Snapshot)
    | Decide(call: nat, modeRead: int, gate: int)
    | Enter(call: nat, jobId: string)
    | ChangeMode(call: nat, at: int)
    | ReadElsewhere(at: int)

  const CALM := Floor(INITIAL_MODE, [], [], map[])

  function RiskOf(req: Request): Risk {
    Classify(req.tool, req.params)
  }

  function Verdict(failClosed: bool, req: Request, snapshot: Snapshot, ground: Ground): Decision {
    Evaluate(RiskOf(req), HardBlockReason(req.tool, req.params, RiskOf(req)), req.approveNow,
             if RiskOf(req) == Low then None else ValidateForWrite(failClosed, snapshot),
             req.hardwareMfa, Blank(req.secondApprover), ground.mode, ground.at)
  }

  function Entry(req: Request, jobId: string): Execution {
    Execution(jobId, req.idemKey, req.tool, RiskOf(req), req.approveNow, req.hardwareMfa, Blank(req.secondApprover))
  }

  /** A step whose call is not at the right stage does nothing. */
  function Next(failClosed: bool, f: Floor, step: Step): Floor {
    match step
    case Arrive(c, req, snapshot) => if c in f.calls then f else f.(calls := f.calls[c := Gauged(req, snapshot)])
    case Decide(c, modeRead, gate) =>
      if c in f.calls && f.calls[c].Gauged? then
        var ground := Ground(ReadMode(f.mode, modeRead), gate);
        var allow := Verdict(failClosed, f.calls[c].req, f.calls[c].snapshot, ground).allow;
        f.(mode := ground.mode, calls := f.calls[c := Decided(f.calls[c].req, allow, ground)])
      else f
    case Enter(c, jobId) =>
      if c in f.calls && f.calls[c].Decided? then
        if f.calls[c].allow then
          f.(executed := f.executed + [Entry(f.calls[c].req, jobId)],
          grounds := f.grounds + [f.calls[c].ground],
          calls := f.calls[c := Inside(f.calls[c].req)])
        else f.(calls := f.calls[c := Left])
      else f
    case ChangeMode(c, at) =>
      if c in f.calls && f.calls[c].Inside? && f.calls[c].req.tool == "policy.mode.set" then
        f.(mode := ModeSetByTool(f.calls[c].req.params, at), calls := f.calls[c := Left])
      else f
    case ReadElsewhere(at) => f.(mode := ReadMode(f.mode, at))
  }

  function After(failClosed: bool, steps: seq<Step>): Floor {
    if steps == [] then CALM else Next(failClosed, After(failClosed, steps[..|steps| - 1]), steps[|steps| - 1])
  }

  // ---- The invariant ----

  /** What an allowed HIGH call carries on its way from the decision to the tool. */
  ghost predicate Carried(executed: seq<Execution>, stage: Stage) {
    && (stage.Decided? && stage.allow && RiskOf(stage.req) == High ==>
          && stage.req.approveNow
          && (|| (stage.req.hardwareMfa && !Blank(stage.req.secondApprover))
              || (AggressiveLive(stage.ground.mode, stage.ground.at) && SomeFullyApproved(executed))))
    && (stage.Inside? && stage.req.tool == "policy.mode.set" && AsksForAggressive(stage.req.params) ==>
          SomeFullyApproved(executed))
  }

  /** A HIGH tool without the second factor rode on a box that was open at its decision. */
  ghost predicate Grounded(f: Floor) {
    && |f.grounds| == |f.executed|
    && forall i | 0 <= i < |f.executed| && f.executed[i].risk == High && !FullyApproved(f.executed[i]) ::
         AggressiveLive(f.grounds[i].mode, f.grounds[i].at)
  }

  ghost predicate FloorInv(f: Floor) {
    && ApprovalInv(f.executed, f.mode)
    && (forall c | c in f.calls :: Carried(f.executed, f.calls[c]))
    && Grounded(f)
  }

  lemma VerdictOnHigh(failClosed: bool, req: Request, snapshot: Snapshot, ground: Ground)
    requires RiskOf(req) == High && Verdict(failClosed, req, snapshot, ground).allow
    ensures req.approveNow
    ensures AggressiveLive(ground.mode, ground.at) || (req.hardwareMfa && !Blank(req.secondApprover))
  {
    hide Classify, HardBlockText;
  }

  lemma DecideKeepsInv(failClosed: bool, f: Floor, c: nat, modeRead: int, gate: int)
    requires FloorInv(f)
    ensures FloorInv(Next(failClosed, f, Decide(c, modeRead, gate)))
  {
    hide Classify, Verdict, FullyApproved, SomeFullyApproved, ModeSetByTool, Blank;
    if c in f.calls && f.calls[c].Gauged? {
      var ground := Ground(ReadMode(f.mode, modeRead), gate);
      var req, snapshot := f.calls[c].req, f.calls[c].snapshot;
      if RiskOf(req) == High && Verdict(failClosed, req, snapshot, ground).allow {
        VerdictOnHigh(failClosed, req, snapshot, ground);
      }
      DemotionKeepsApproval(f.executed, f.mode, ground.mode);
    }
  }

  lemma CarriedGrows(executed: seq<Execution>, entry: Execution, stage: Stage)
    requires Carried(executed, stage)
    ensures Carried(executed + [entry], stage)
  {
    hide Classify, SomeFullyApproved, Blank, AsksForAggressive;
    SomeFullyApprovedGrows(executed, entry);
  }

  lemma HighEntryHasOrigin(executed: seq<Execution>, stage: Stage, jobId: string)
    requires Carried(executed, stage) && stage.Decided? && stage.allow
    ensures RiskOf(stage.req) == High ==> SomeFullyApproved(executed + [Entry(stage.req, jobId)])
  {
    hide Classify, Blank;
    var entry := Entry(stage.req, jobId);
    SomeFullyApprovedGrows(executed, entry);
    assert FullyApproved(entry) ==> FullyApproved((executed + [entry])[|executed|]);
  }

  /** The entry joins the log of executions. */
  lemma EntryKeepsApproval(f: Floor, stage: Stage, jobId: string)
    requires ApprovalInv(f.executed, f.mode) && Carried(f.executed, stage) && stage.Decided? && stage.allow
    ensures ApprovalInv(f.executed + [Entry(stage.req, jobId)], f.mode)
  {
    hide Classify, Blank;
    var entry := Entry(stage.req, jobId);
    var log := f.executed + [entry];
    SomeFullyApprovedGrows(f.executed, entry);
    HighEntryHasOrigin(f.executed, stage, jobId);
    hide SomeFullyApproved;
    forall i | 0 <= i < |log| && log[i].risk == High
      ensures log[i].approveNow && SomeFullyApproved(log[..i + 1])
    {
      if i < |f.executed| {
        assert log[..i + 1] == f.executed[..i + 1];
      } else {
        assert log[..i + 1] == log;
      }
    }
  }

  lemma EnterKeepsInv(failClosed: bool, f: Floor, c: nat, jobId: string)
    requires FloorInv(f)
    ensures FloorInv(Next(failClosed, f, Enter(c, jobId)))
  {
    hide Classify, Verdict, SomeFullyApproved, ApprovalInv, AsksForAggressive, Blank, AggressiveLive;
    if c in f.calls && f.calls[c].Decided? && f.calls[c].allow {
      var stage := f.calls[c];
      EntryKeepsApproval(f, stage, jobId);
      HighEntryHasOrigin(f.executed, stage, jobId);
      AggressiveChangeIsHigh(stage.req);
      forall d | d in f.calls
        ensures Carried(f.executed + [Entry(stage.req, jobId)], f.calls[d])
      {
        CarriedGrows(f.executed, Entry(stage.req, jobId), f.calls[d]);
      }
    }
  }

  lemma AggressiveChangeIsHigh(req: Request)
    ensures req.tool == "policy.mode.set" && AsksForAggressive(req.params) ==> RiskOf(req) == High
  {
    hide Classify, AsksForAggressive;
    if req.tool == "policy.mode.set" && AsksForAggressive(req.params) {
      AggressiveRequestIsHigh(req.params);
    }
  }

  lemma ChangeKeepsInv(failClosed: bool, f: Floor, c: nat, at: int)
    requires FloorInv(f)
    ensures FloorInv(Next(failClosed, f, ChangeMode(c, at)))
  {
    hide Classify, Verdict, SomeFullyApproved, Blank, FullyApproved, AggressiveLive;
  }

  lemma StepKeepsInv(failClosed: bool, f: Floor, step: Step)
    requires FloorInv(f)
    ensures FloorInv(Next(failClosed, f, step))
  {
    match step {
      case Decide(c, modeRead, gate) => DecideKeepsInv(failClosed, f, c, modeRead, gate);
      case Enter(c, jobId) => EnterKeepsInv(failClosed, f, c, jobId);
      case ChangeMode(c, at) => ChangeKeepsInv(failClosed, f, c, at);
      case Arrive(_, _, _) => hide *; hide Classify;
      case ReadElsewhere(at) => DemotionKeepsApproval(f.executed, f.mode, ReadMode(f.mode, at));
    }
  }

  lemma {:induction false} StepsKeepInv(failClosed: bool, steps: seq<Step>)
    ensures FloorInv(After(failClosed, steps))
  {
    if steps != [] {
      hide Next, FloorInv;
      StepsKeepInv(failClosed, steps[..|steps| - 1]);
      StepKeepsInv(failClosed, After(failClosed, steps[..|steps| - 1]), steps[|steps| - 1]);
    }
  }

  // ---- What survives every interleaving ----

  /** Under every interleaving of any number of calls, every executed HIGH tool carried a
      reauthentication, at or before it one carried the full approval, so did an
      origin of the aggressive mode, and a HIGH tool without full approval was decided on
      an aggressive box that was open at that instant. */
  lemma InterleavedHighNeedsFullApproval(failClosed: bool, steps: seq<Step>)
    ensures var f := After(failClosed, steps);
            && |f.grounds| == |f.executed|
            && (forall i | 0 <= i < |f.executed| && f.executed[i].risk == High ::
                  && f.executed[i].approveNow
                  && (exists j :: 0 <= j <= i && FullyApproved(f.executed[j]))
                  && (FullyApproved(f.executed[i]) || AggressiveLive(f.grounds[i].mode, f.grounds[i].at)))
            && (f.mode.mode == AggressiveAuto ==> exists j :: 0 <= j < |f.executed| && FullyApproved(f.executed[j]))
  {
    hide After, Carried, AggressiveLive;
    StepsKeepInv(failClosed, steps);
    var log := After(failClosed, steps).executed;
    forall i | 0 <= i < |log| && log[i].risk == High
      ensures exists j :: 0 <= j <= i && FullyApproved(log[j])
    {
      var j :| 0 <= j < |log[..i + 1]| && FullyApproved(log[..i + 1][j]);
      assert FullyApproved(log[j]);
    }
  }

  /** And without any reauthentication no HIGH tool executes and the mode stays guarded,
      however the calls interleave. */
  lemma InterleavedUnapprovedStaysGuarded(failClosed: bool, steps: seq<Step>)
    requires forall i | 0 <= i < |steps| && steps[i].Arrive? :: !steps[i].req.approveNow
    ensures var f := After(failClosed, steps);
            && f.mode.mode == GuardedSre
            && forall i | 0 <= i < |f.executed| :: f.executed[i].risk != High
  {
    hide After, AggressiveLive, FullyApproved;
    InterleavedHighNeedsFullApproval(failClosed, steps);
    UnapprovedEntries(failClosed, steps);
    assert forall e: Execution :: FullyApproved(e) ==> e.approveNow by { ApprovedEntries(); }
  }

  lemma ApprovedEntries()
    ensures forall e: Execution :: FullyApproved(e) ==> e.approveNow
  {
  }

  ghost predicate Unapproved(f: Floor) {
    && (forall c | c in f.calls && !f.calls[c].Left? :: !f.calls[c].req.approveNow)
    && (forall i | 0 <= i < |f.executed| :: !f.executed[i].approveNow)
  }

  lemma {:induction false} UnapprovedEntries(failClosed: bool, steps: seq<Step>)
    requires forall i | 0 <= i < |steps| && steps[i].Arrive? :: !steps[i].req.approveNow
    ensures Unapproved(After(failClosed, steps))
  {
    if steps != [] {
      var before, last := steps[..|steps| - 1], steps[|steps| - 1];
      assert forall i | 0 <= i < |before| :: before[i] == steps[i];
      UnapprovedEntries(failClosed, before);
      UnapprovedStep(failClosed, After(failClosed, before), last);
      hide Next, Unapproved;
    }
  }

  lemma UnapprovedStep(failClosed: bool, f: Floor, step: Step)
    requires Unapproved(f) && (step.Arrive? ==> !step.req.approveNow)
    ensures Unapproved(Next(failClosed, f, step))
  {
    hide Verdict, ReadMode, ModeSetByTool, RiskOf, Blank;
  }

  /** A call with nobody in between reads and leaves the mode and the log of executions as
      the whole call does. */
  lemma UndisturbedIsTheCall(cfg: Config, st: Store, req: Request, clock: Clock, run: ToolRun, c: nat)
    requires !Answered(st, req)
    ensures var a := Assess(cfg, st, req, clock);
            var f := Floor(st.mode, st.ledger.executed, seq(|st.ledger.executed|, _ => Ground(st.mode, 0)), map[]);
            var f1 := Next(cfg.failClosed, f, Arrive(c, req, SnapshotOf(st.nodes, clock.snapshot, cfg.maxAge)));
            var f2 := Next(cfg.failClosed, f1, Decide(c, clock.modeRead, clock.gate));
            var f3 := Next(cfg.failClosed, f2, Enter(c, LocalJob(st, req, a, clock).id));
            var f4 := Next(cfg.failClosed, f3, ChangeMode(c, run.effect.at));
            var st' := Handle(cfg, st, req, clock, run);
            f4.mode == st'.mode && f4.executed == st'.ledger.executed
  {
    hide Handle, Classify, HardBlockReason, SnapshotOf, ModeSetByTool, Evaluate, IncidentsOf, AuditOf, StoredJob,
         LocalJob,
         Blank, Path, ReadMode;
    CallEffect(cfg, st, req, clock, run);
    assert st.ledger.executed + [] == st.ledger.executed;
  }

  // ---- What does not survive ----

  const SWITCH_ON :=
    Request("policy.mode.set", map["mode" := Str("aggressive")], None, "", true, "", "second", true, map[])
  const SWITCH_OFF :=
    Request("policy.mode.set", map["mode" := Str("guarded")], None, "", true, "", "second", true, map[])

  const RIDER := Request("backup.verify.sample", map[], None, "", true, "", "", false, map[])

  /** The way of one call up to its tool. */
  function Passing(call: nat, req: Request, healthy: Snapshot, at: int): seq<Step> {
    [Arrive(call, req, healthy), Decide(call, at, at), Enter(call, "")]
  }

  function BoxOpens(healthy: Snapshot, at: int): seq<Step> {
    Passing(0, SWITCH_ON, healthy, at) + [ChangeMode(0, at)]
  }

  function Overtaken(healthy: Snapshot, at: int): seq<Step> {
    BoxOpens(healthy, at)
    + [Arrive(1, RIDER, healthy)] + [Decide(1, at, at)]
    + Passing(2, SWITCH_OFF, healthy, at) + [ChangeMode(2, at)]
  }

  lemma AfterSnoc(failClosed: bool, steps: seq<Step>, step: Step)
    ensures After(failClosed, steps + [step]) == Next(failClosed, After(failClosed, steps), step)
  {
    hide Next;
    assert (steps + [step])[..|steps|] == steps;
  }

  /** A call with reauthentication and the second factor passes whatever its risk and the mode. */
  lemma FullyApprovedPasses(failClosed: bool, steps: seq<Step>, c: nat, req: Request, healthy: Snapshot, at: int)
    requires ValidateForWrite(failClosed, healthy).None? && c !in After(failClosed, steps).calls
    requires req.approveNow && req.hardwareMfa && !Blank(req.secondApprover)
    ensures var f, f' := After(failClosed, steps), After(failClosed, steps + Passing(c, req, healthy, at));
            && f'.mode == ReadMode(f.mode, at) && |f'.executed| == |f.executed| + 1
            && f'.calls == f.calls[c := Inside(req)]
  {
    hide Classify, HardBlockText, After, ReadMode, ValidateForWrite, AggressiveLive;
    ClassifiedRisks(req.tool, req.params);
    var arrive, decide, enter := Arrive(c, req, healthy), Decide(c, at, at), Enter(c, "");
    AfterSnoc(failClosed, steps, arrive);
    AfterSnoc(failClosed, steps + [arrive], decide);
    AfterSnoc(failClosed, steps + [arrive] + [decide], enter);
    assert steps + Passing(c, req, healthy, at) == steps + [arrive] + [decide] + [enter];
    var f2 := After(failClosed, steps + [arrive] + [decide]);
    var f3 := After(failClosed, steps + Passing(c, req, healthy, at));
    assert f2.calls[c].Decided? && f2.calls[c].allow;
    assert f3.calls == After(failClosed, steps).calls[c := Inside(req)];
  }

  /** A reauthenticated call rides on an open box. */
  lemma RiderIsAllowed(failClosed: bool, steps: seq<Step>, c: nat, req: Request, healthy: Snapshot, at: int)
    requires ValidateForWrite(failClosed, healthy).None? && c !in After(failClosed, steps).calls
    requires req.approveNow && AggressiveLive(ReadMode(After(failClosed, steps).mode, at), at)
    ensures var f := After(failClosed, steps);
            var f' := After(failClosed, steps + [Arrive(c, req, healthy)] + [Decide(c, at, at)]);
            && f'.mode == ReadMode(f.mode, at) && f'.executed == f.executed && f'.calls.Keys == f.calls.Keys + {c}
            && f'.calls[c].Decided? && f'.calls[c].allow && f'.calls[c].req == req
  {
    hide Classify, HardBlockText, After, ReadMode, ValidateForWrite, AggressiveLive;
    ClassifiedRisks(req.tool, req.params);
    AfterSnoc(failClosed, steps, Arrive(c, req, healthy));
    AfterSnoc(failClosed, steps + [Arrive(c, req, healthy)], Decide(c, at, at));
  }

  lemma SwitchedOn(failClosed: bool, f: Floor, at: int)
    requires 0 in f.calls && f.calls[0] == Inside(SWITCH_ON)
    ensures var f' := Next(failClosed, f, ChangeMode(0, at));
            && f'.mode.mode == AggressiveAuto && f'.mode.aggressiveUntil.None?
            && f'.calls.Keys == f.calls.Keys && f'.executed == f.executed
  {
  }

  lemma SwitchedOff(failClosed: bool, f: Floor, at: int)
    requires 2 in f.calls && f.calls[2] == Inside(SWITCH_OFF)
    ensures var f' := Next(failClosed, f, ChangeMode(2, at));
            && f'.mode.mode == GuardedSre && f'.calls == f.calls[2 := Left] && f'.executed == f.executed
  {
  }

  lemma RiderEnters(failClosed: bool, f: Floor)
    requires 1 in f.calls && f.calls[1].Decided? && f.calls[1].allow && f.calls[1].req == RIDER
    ensures var f' := Next(failClosed, f, Enter(1, ""));
            && |f'.executed| == |f.executed| + 1
            && f'.executed[|f.executed|].risk == High && !FullyApproved(f'.executed[|f.executed|])
  {
    BackupSampleIsHigh(RIDER.params);
  }

  lemma SecondIsGiven()
    ensures !Blank(SWITCH_ON.secondApprover) && !Blank(SWITCH_OFF.secondApprover)
  {
    assert SWITCH_ON.secondApprover[0] == 's' && SWITCH_OFF.secondApprover[0] == 's';
    assert !IsSpace('s');
  }

  lemma BoxIsOpen(failClosed: bool, healthy: Snapshot, at: int)
    requires ValidateForWrite(failClosed, healthy).None?
    ensures var f := After(failClosed, BoxOpens(healthy, at));
            AggressiveLive(ReadMode(f.mode, at), at) && f.calls.Keys == {0}
  {
    hide After, Next, Classify, ValidateForWrite, Passing, Blank, SWITCH_ON;
    var none: seq<Step> := [];
    assert After(failClosed, none) == CALM by { NothingYet(failClosed); }
    SecondIsGiven();
    assert SWITCH_ON.approveNow && SWITCH_ON.hardwareMfa by { TwoFactors(); }
    FullyApprovedPasses(failClosed, none, 0, SWITCH_ON, healthy, at);
    var on := none + Passing(0, SWITCH_ON, healthy, at);
    assert on + [ChangeMode(0, at)] == BoxOpens(healthy, at);
    AfterSnoc(failClosed, on, ChangeMode(0, at));
    SwitchedOn(failClosed, After(failClosed, on), at);
  }

  lemma TwoFactors()
    ensures SWITCH_ON.approveNow && SWITCH_ON.hardwareMfa && SWITCH_OFF.approveNow && SWITCH_OFF.hardwareMfa
    ensures RIDER.approveNow
  {
  }

  /** The decision is made on the mode of its instant: a HIGH tool without the second factor
      can start after the box it rode on has been switched off. */
  lemma WaiverOutlivesTheBox(failClosed: bool, healthy: Snapshot, at: int)
    requires ValidateForWrite(failClosed, healthy).None?
    ensures var steps := Overtaken(healthy, at);
            var f, f' := After(failClosed, steps), After(failClosed, steps + [Enter(1, "")]);
            && f.mode.mode == GuardedSre
            && |f'.executed| == |f.executed| + 1
            && f'.executed[|f.executed|].risk == High && !FullyApproved(f'.executed[|f.executed|])
  {
    hide After, Next, Classify, ValidateForWrite, Passing, Blank, SWITCH_ON, SWITCH_OFF, RIDER, FullyApproved, ReadMode,
         AggressiveLive, BoxOpens;
    SecondIsGiven();
    TwoFactors();
    var open := BoxOpens(healthy, at);
    BoxIsOpen(failClosed, healthy, at);
    RiderIsAllowed(failClosed, open, 1, RIDER, healthy, at);
    var decided := open + [Arrive(1, RIDER, healthy)] + [Decide(1, at, at)];
    FullyApprovedPasses(failClosed, decided, 2, SWITCH_OFF, healthy, at);
    var off := decided + Passing(2, SWITCH_OFF, healthy, at);
    AfterSnoc(failClosed, off, ChangeMode(2, at));
    SwitchedOff(failClosed, After(failClosed, off), at);
    AfterSnoc(failClosed, Overtaken(healthy, at), Enter(1, ""));
    RiderEnters(failClosed, After(failClosed, Overtaken(healthy, at)));
  }

  lemma NothingYet(failClosed: bool)
    ensures After(failClosed, []) == CALM
  {
  }
}
