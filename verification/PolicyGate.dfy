// backend/internal/policy/gate.go and the policy-mode cell of
// backend/internal/store/memory.go
module PolicyGate {
  import opened Text
  import opened Models
  import opened HealthGates

  /** The aggressive mode counts at instant `now` until strictly before its end. */
  predicate AggressiveLive(mode: PolicyModeState, now: int) {
    && mode.mode == AggressiveAuto
    && (mode.aggressiveUntil.None? || mode.aggressiveUntil.value > now)
  }

  /** `hardBlock` and `gate` are None when the check passes. */
  function Evaluate(risk: Risk, hardBlock: Option<string>, approveNow: bool, gate: Option<string>,
                    hardwareMfa: bool, secondApproverBlank: bool, mode: PolicyModeState, now: int): (d: Decision)
    ensures d.needsReview <==> !d.allow
    ensures d.allow <==> d.kind == AutoRun
  {
    if gate.Some? then Decision(false, true, gate.value, DecisionBlocked, 0)
    else if hardBlock.Some? && !approveNow then
      Decision(false, true, hardBlock.value, RequiresApproval, 2)
    else match risk
      case Low => Decision(true, false, "", AutoRun, 0)
      case Medium => Decision(true, false, "", AutoRun, 0)
      case High =>
        if AggressiveLive(mode, now) then Decision(true, false, "aggressive auto mode active", AutoRun, 0)
        else if approveNow && hardwareMfa && !secondApproverBlank then Decision(true, false, "", AutoRun, 2)
        else
          Decision(false, true, "high-risk action requires reauth + hardware MFA + second approver",
                   RequiresApproval, 2)
      case Unlisted => Decision(false, true, "unknown risk level", DecisionBlocked, 0)
  }

  /** The conditions behind a decision: what it allows, what it blocks for good, and when it
      asks for two approvals. */
  lemma EvaluateIff(risk: Risk, hardBlock: Option<string>, approveNow: bool, gate: Option<string>,
                    hardwareMfa: bool, secondApproverBlank: bool, mode: PolicyModeState, now: int)
    ensures var d := Evaluate(risk, hardBlock, approveNow, gate, hardwareMfa, secondApproverBlank, mode, now);
            var passed := gate.None? && (hardBlock.None? || approveNow);
            var full := approveNow && hardwareMfa && !secondApproverBlank;
            && (d.allow <==> passed && risk != Unlisted && (risk == High ==> AggressiveLive(mode, now) || full))
            && (d.kind == DecisionBlocked <==> gate.Some? || (passed && risk == Unlisted))
            && (d.requiredApprovals == 2 <==>
                  gate.None? && if hardBlock.Some? && !approveNow then true
                                else risk == High && !AggressiveLive(mode, now))
            && d.requiredApprovals in {0, 2}
            && (gate.Some? ==> d.reason == gate.value)
            && (gate.None? && hardBlock.Some? && !approveNow ==> d.reason == hardBlock.value)
            && (d.allow ==>
                  d.reason == if risk == High && AggressiveLive(mode, now) then "aggressive auto mode active" else "")
  {
  }

  /** No approval, no open box and no healthier cluster ever turns an allowed call into a
      refused one. */
  lemma MoreApprovalNeverHurts(risk: Risk, hardBlock: Option<string>, approveNow: bool, gate: Option<string>,
                               hardwareMfa: bool, secondApproverBlank: bool, mode: PolicyModeState, now: int,
                               approveNow': bool, gate': Option<string>, hardwareMfa': bool,
                               secondApproverBlank': bool, mode': PolicyModeState, now': int)
    requires (approveNow ==> approveNow') && (hardwareMfa ==> hardwareMfa')
    requires secondApproverBlank' ==> secondApproverBlank
    requires (gate'.Some? ==> gate.Some?) && (AggressiveLive(mode, now) ==> AggressiveLive(mode', now'))
    requires Evaluate(risk, hardBlock, approveNow, gate, hardwareMfa, secondApproverBlank, mode, now).allow
    ensures Evaluate(risk, hardBlock, approveNow', gate', hardwareMfa', secondApproverBlank', mode', now').allow
  {
    EvaluateIff(risk, hardBlock, approveNow, gate, hardwareMfa, secondApproverBlank, mode, now);
    EvaluateIff(risk, hardBlock, approveNow', gate', hardwareMfa', secondApproverBlank', mode', now');
  }

  /** Simulation always validates the health gate fail-closed and offers no
      second factor. */
  function Simulate(risk: Risk, hardBlock: Option<string>, approveNow: bool, snapshot: Snapshot,
                    mode: PolicyModeState, now: int): Decision
  {
    Evaluate(risk, hardBlock, approveNow, ValidateForWrite(true, snapshot), false, true, mode, now)
  }

  /** GetPolicyMode: an expired aggressive mode is demoted when it is read. */
  function ReadMode(mode: PolicyModeState, now: int): PolicyModeState {
    if mode.mode == AggressiveAuto && mode.aggressiveUntil.Some? && now > mode.aggressiveUntil.value
    then mode.(mode := GuardedSre, updatedAt := now)
    else mode
  }

  /** A read demotes exactly the aggressive modes past their end, and stamps the demotion. */
  lemma DemotedIff(mode: PolicyModeState, now: int)
    ensures var after := ReadMode(mode, now);
            && (after.mode != mode.mode <==>
                  mode.mode == AggressiveAuto && mode.aggressiveUntil.Some? && mode.aggressiveUntil.value < now)
            && (after.mode == mode.mode ==> after == mode)
            && (after.mode != mode.mode ==>
                  && after.mode == GuardedSre && after.updatedAt == now
                  && after.aggressiveUntil == mode.aggressiveUntil && after.lastChangedBy == mode.lastChangedBy)
  {
  }

  /** SetPolicyMode. */
  function WriteMode(mode: PolicyMode, actor: string, duration: int, now: int): PolicyModeState {
    PolicyModeState(
      mode,
      if mode == AggressiveAuto && duration > 0 then Some(now + duration) else None,
      actor,
      now)
  }

  const INITIAL_MODE := PolicyModeState(GuardedSre, None, "", 0)

  // ---- The lazily demoted cell against an eager time box ----

  datatype ModeEvent =
    | Written(mode: PolicyMode, actor: string, duration: int, at: int)
    | Read(at: int)

  function ModeAfter(events: seq<ModeEvent>): PolicyModeState {
    if events == [] then INITIAL_MODE
    else
      var before := ModeAfter(events[..|events| - 1]);
      match events[|events| - 1]
      case Written(mode, actor, duration, at) => WriteMode(mode, actor, duration, at)
      case Read(at) => ReadMode(before, at)
  }

  predicate InOrder(events: seq<ModeEvent>) {
    forall i, j | 0 <= i < j < |events| :: events[i].at <= events[j].at
  }

  /** Index of the last write, or -1. */
  function LastWrite(events: seq<ModeEvent>): (i: int)
    ensures -1 <= i < |events|
    ensures i >= 0 ==> events[i].Written?
    ensures forall j | i < j < |events| :: events[j].Read?
  {
    if events == [] then -1
    else if events[|events| - 1].Written? then |events| - 1
    else LastWrite(events[..|events| - 1])
  }

  /** The eager specification: the last write opened an aggressive box that is
      either unlimited or still open at `now`. */
  predicate BoxOpen(events: seq<ModeEvent>, now: int) {
    var i := LastWrite(events);
    && i >= 0
    && events[i].mode == AggressiveAuto
    && (events[i].duration <= 0 || now < events[i].at + events[i].duration)
  }

  /** What the lazy cell may look like after the last write: the written value,
      possibly demoted by a read past its end. */
  lemma {:induction false} CellFollowsLastWrite(events: seq<ModeEvent>)
    requires InOrder(events)
    ensures var i := LastWrite(events);
            var cell := ModeAfter(events);
            if i < 0 then cell == INITIAL_MODE
            else
              var w := WriteMode(events[i].mode, events[i].actor, events[i].duration, events[i].at);
              || cell == w
              || (&& w.mode == AggressiveAuto && w.aggressiveUntil.Some? && cell.mode == GuardedSre
                  && events[|events| - 1].at > w.aggressiveUntil.value)
  {
    if events != [] {
      var init := events[..|events| - 1];
      CellFollowsLastWrite(init);
      if events[|events| - 1].Read? {
        assert LastWrite(events) == LastWrite(init);
      }
    }
  }

  /** For any placement of reads and writes, a decision taken at `gateAt`, after
      reading the mode at `readAt`, waives the second factor exactly while the
      eager box is open: the boundary instant is already closed even though the
      read has not demoted the cell yet. */
  lemma LazyExpiryRefinesEagerBox(events: seq<ModeEvent>, readAt: int, gateAt: int)
    requires InOrder(events + [Read(readAt)])
    requires readAt <= gateAt
    ensures AggressiveLive(ModeAfter(events + [Read(readAt)]), gateAt) <==> BoxOpen(events, gateAt)
  {
    var all := events + [Read(readAt)];
    assert all[..|all| - 1] == events;
    assert InOrder(events) by {
      forall i, j | 0 <= i < j < |events| ensures events[i].at <= events[j].at {
        assert all[i].at <= all[j].at;
      }
    }
    CellFollowsLastWrite(events);
    if events != [] {
      assert all[|events| - 1].at <= all[|events|].at;
    }
  }

  /** A read never changes what a later decision sees. */
  lemma ReadsAreInvisible(events: seq<ModeEvent>, extra: int, readAt: int, gateAt: int)
    requires InOrder(events + [Read(extra), Read(readAt)])
    requires readAt <= gateAt
    ensures AggressiveLive(ModeAfter(events + [Read(extra), Read(readAt)]), gateAt)
        <==> AggressiveLive(ModeAfter(events + [Read(readAt)]), gateAt)
  {
    var long := events + [Read(extra)];
    var all := events + [Read(extra), Read(readAt)];
    assert long + [Read(readAt)] == all;
    forall i, j | 0 <= i < j <= |events|
      ensures (events + [Read(readAt)])[i].at <= (events + [Read(readAt)])[j].at
    {
      if j < |events| {
        assert all[i].at <= all[j].at;
      } else {
        assert all[i].at <= all[|events| + 1].at;
      }
    }
    LazyExpiryRefinesEagerBox(long, readAt, gateAt);
    LazyExpiryRefinesEagerBox(events, readAt, gateAt);
    assert long[..|long| - 1] == events;
    assert LastWrite(long) == LastWrite(events);
  }
}
