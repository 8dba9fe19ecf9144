// How SimulatePolicy relates to HandleCall, and what a requested aggressive
// time box amounts to.
module Simulation {
  import opened Text
  import opened Models
  import opened HealthGates
  import opened PolicyGate
  import opened RiskEngine
  import opened StoreModel
  import opened Pipeline

  /** An allowed simulation is a promise: at the same instants the call is allowed
      under every fail-closed setting, MFA flag and second approver. */
  lemma AllowedSimulationIsSound(cfg: Config, st: Store, req: Request, clock: Clock, failClosed: bool)
    requires Simulated(cfg, st, req.tool, req.params, req.approveNow, clock).allow
    ensures Assess(cfg.(failClosed := failClosed), st, req, clock).decision.allow
  {
    hide Classify, SnapshotOf;
  }

  /** The calls that are allowed although their simulation is not: reads on an
      unhealthy cluster, writes past stale runners when the gate is not
      fail-closed, and HIGH tools carried by the second factor alone. */
  lemma SimulationIsStricterExactly(cfg: Config, st: Store, req: Request, clock: Clock)
    requires Assess(cfg, st, req, clock).decision.allow
    ensures var risk := Classify(req.tool, req.params);
            var snapshot := SnapshotOf(st.nodes, clock.snapshot, cfg.maxAge);
            !Simulated(cfg, st, req.tool, req.params, req.approveNow, clock).allow <==>
            || (risk == Low && !(snapshot.quorumHealthy && snapshot.runnerHealthy))
            || (risk != Low && !snapshot.runnerHealthy && !cfg.failClosed)
            || (risk == High && !AggressiveLive(ReadMode(st.mode, clock.modeRead), clock.gate)
                && req.hardwareMfa && !Blank(req.secondApprover))
  {
    hide Classify, SnapshotOf;
  }

  /** A write is never allowed without a strict majority of the nodes online, nor, when the
      gate is fail-closed, past an unhealthy or silent runner. */
  lemma WritesNeedQuorum(cfg: Config, st: Store, req: Request, clock: Clock)
    requires Classify(req.tool, req.params) != Low
    requires Assess(cfg, st, req, clock).decision.allow
    ensures 2 * |set i | 0 <= i < |st.nodes| && st.nodes[i].status == "online"| > |st.nodes|
    ensures cfg.failClosed ==>
              forall n | n in st.nodes :: n.runnerHealthy && clock.snapshot - n.lastHeartbeat <= cfg.maxAge
  {
    hide Classify, CountOnline;
    OnlineAreCounted(st.nodes);
    assert OnlineOf(st.nodes) == set i | 0 <= i < |st.nodes| && st.nodes[i].status == "online";
  }

  /** How many whole minutes a parameter asks for. JSON numbers arrive as floats. */
  predicate AsksFor(v: Value, minutes: int) {
    v == Int(minutes) || (v.Float? && v.r > 0.0 && v.r.Floor == minutes)
  }

  /** A number is read as the whole number next to it on the side of zero. */
  lemma FloatsTruncate(r: real, shown: string, fallback: int)
    ensures var n := IntFrom(Float(r, shown), fallback);
            && (r >= 0.0 ==> 0 <= n && n as real <= r < n as real + 1.0)
            && (r <= 0.0 ==> n <= 0 && n as real - 1.0 < r <= n as real)
  {
  }

  /** Other values than numbers are read as the fallback. */
  lemma OnlyNumbersCount(v: Value, fallback: int)
    ensures v.Int? ==> IntFrom(v, fallback) == v.n
    ensures !v.Int? && !v.Float? ==> IntFrom(v, fallback) == fallback
  {
  }

  const LONGEST_BOX := 153_722_867

  /** Minutes become a 64-bit nanosecond count. The box has the requested length
      exactly up to LONGEST_BOX minutes. */
  lemma BoxLengthIsExactIff(params: Params, at: int, minutes: int)
    requires AsksForAggressive(params) && minutes > 0
    requires "duration_minutes" in params && AsksFor(params["duration_minutes"], minutes)
    ensures ModeSetByTool(params, at).aggressiveUntil == Some(at + minutes * MINUTE) <==> minutes <= LONGEST_BOX
  {
    assert IntFrom(Get(params, "duration_minutes"), 0) == minutes;
  }

  /** One minute more and the box never closes. */
  lemma LongerBoxNeverCloses(params: Params, at: int, now: int)
    requires AsksForAggressive(params)
    requires "duration_minutes" in params && AsksFor(params["duration_minutes"], LONGEST_BOX + 1)
    ensures AggressiveLive(ModeSetByTool(params, at), now)
  {
    assert IntFrom(Get(params, "duration_minutes"), 0) == LONGEST_BOX + 1;
  }

  /** The parameter is a number of at least one minute. */
  predicate AsksForBox(params: Params) {
    && "duration_minutes" in params
    && var v := params["duration_minutes"]; (v.Int? && v.n >= 1) || (v.Float? && v.r >= 1.0)
  }

  /** An aggressive box is unlimited, and then live at any time, if and only if its length is
      no number, is below one minute, or overflows to a count that is not positive. */
  lemma BoxIsUnlimitedIff(params: Params, at: int, now: int)
    requires AsksForAggressive(params)
    ensures var mode := ModeSetByTool(params, at);
            && mode.mode == AggressiveAuto && mode.updatedAt == at
            && (mode.aggressiveUntil.None? <==>
                  || !AsksForBox(params)
                  || exists minutes: int :: AsksFor(params["duration_minutes"], minutes) && Overflows(minutes))
            && (mode.aggressiveUntil.None? ==> AggressiveLive(mode, now))
  {
    hide Wrap64, Overflows, IntFrom;
    ReadMinutes(params);
    if AsksForBox(params) {
      var minutes := IntFrom(params["duration_minutes"], 0);
      WrapIsPositiveIff(minutes);
    } else {
      assert Wrap64(0 * MINUTE) == 0 by { WrapOfZero(); }
    }
  }

  lemma WrapOfZero()
    ensures Wrap64(0) == 0
  {
  }

  /** What the minutes are read as: the number asked for, or nothing above zero. */
  lemma ReadMinutes(params: Params)
    ensures AsksForBox(params) ==>
              var v := params["duration_minutes"];
              && AsksFor(v, IntFrom(v, 0)) && IntFrom(v, 0) >= 1
              && forall minutes: int :: AsksFor(v, minutes) ==> minutes == IntFrom(v, 0)
    ensures !AsksForBox(params) ==> IntFrom(Get(params, "duration_minutes"), 0) <= 0
  {
  }

  lemma WrapIsPositiveIff(minutes: int)
    ensures Wrap64(minutes * MINUTE) > 0 <==> !Overflows(minutes)
  {
    HalfShift(minutes * MINUTE);
  }

  /** A number is its remainder when it differs from it by a multiple. */
  lemma RemainderIs(y: int, m: int, q: int, r: int)
    requires m > 0 && y == q * m + r && 0 <= r < m
    ensures y % m == r
  {
    var k := y / m;
    assert (k - q) * m == r - y % m;
    if k > q {
      Multiple(k - q, m);
    } else if k < q {
      Multiple(q - k, m);
    }
  }

  lemma Multiple(n: int, m: int)
    requires n >= 1 && m > 0
    ensures n * m >= m
  {
  }

  /** Adding half of the range before taking the remainder. */
  lemma HalfShift(x: int)
    ensures var half, rest := 0x8000_0000_0000_0000, x % 0x1_0000_0000_0000_0000;
            (x + half) % 0x1_0000_0000_0000_0000 == if rest < half then rest + half else rest - half
  {
    var m, half := 0x1_0000_0000_0000_0000, 0x8000_0000_0000_0000;
    var q, rest := x / m, x % m;
    if rest < half {
      RemainderIs(x + half, m, q, rest + half);
    } else {
      RemainderIs(x + half, m, q + 1, rest - half);
    }
  }

  /** The nanoseconds of that many minutes, modulo 2^64, are the two's complement of a number
      that is not positive. */
  predicate Overflows(minutes: int) {
    var rest := (minutes * 60_000_000_000) % 0x1_0000_0000_0000_0000;
    rest == 0 || rest >= 0x8000_0000_0000_0000
  }

  /** A request for any other mode is guarded. */
  lemma OtherModesAreGuarded(params: Params, at: int)
    requires !AsksForAggressive(params)
    ensures ModeSetByTool(params, at) == PolicyModeState(GuardedSre, None, StringFrom(Get(params, "actor")), at)
  {
  }
}
