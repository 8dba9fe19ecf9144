// backend/internal/gitops/service.go: deploy and rollback behind a running flag
// whose mutex is dropped between the steps.
module GitOps {
  import opened Text

  /** The mutable fields of the service. */
  datatype Fields = Fields(
    running: bool,
    lastRunAt: Option<int>,
    lastResult: string,
    lastError: string,
    lastCommit: string,
    lastStable: string,
    lastHealth: string)

  const IDLE := Fields(false, None, "", "", "", "", "")

  // ---- The locked sections ----

  function Taken(f: Fields): Fields {
    f.(running := true)
  }

  function Released(f: Fields, now: int): Fields {
    f.(running := false, lastRunAt := Some(now))
  }

  function AtCommit(f: Fields, commit: string): Fields {
    f.(lastCommit := commit)
  }

  function MarkedFailed(f: Fields, error: string): Fields {
    f.(lastResult := "failed", lastError := error, lastHealth := "unhealthy")
  }

  function MarkedStable(f: Fields, commit: string): Fields {
    f.(lastResult := "success", lastError := "", lastStable := commit, lastHealth := "healthy")
  }

  function MarkedRolledBack(f: Fields, commit: string, error: string): Fields {
    f.(lastResult := "rolled_back", lastError := error, lastCommit := commit, lastHealth := "healthy_after_rollback")
  }

  // ---- Operations in flight ----

  /** Where an operation is. `before` is the commit read at the start of a sync ("" when
      rev-parse failed), `after` the one recorded after the pull, `exact` says that the
      second rev-parse succeeded, `clean` that every rollback command so far did. */
  datatype Stage =
    | ReadBefore
    | Fetching(before: string)
    | CheckingOut(before: string)
    | Pulling(before: string)
    | ReadAfter(before: string)
    | Composing(before: string, after: string, exact: bool)
    | Checking(before: string, after: string, exact: bool)
    | Passed(before: string, after: string, exact: bool)
    | Failing(before: string, cause: string)
    | RollingBack(before: string, cause: string)
    | Recomposing(before: string, cause: string, clean: bool)
    | Rechecking(before: string, cause: string, clean: bool)
    | Recovered(before: string, cause: string, clean: bool)
    | Restoring(commit: string)
    | RestoreComposing(commit: string)
    | RestoreChecking(commit: string)
    | Restored(commit: string)
    | Leaving(how: Exit)

  datatype Exit = GaveUp | Synced(commit: string) | Undone(before: string, clean: bool) | RestoredTo(commit: string)

  /** An operation remembers, as history, HEAD and the stable commit at its start. */
  datatype Flight = Flight(stage: Stage, head0: string, stable0: string)

  datatype System = System(f: Fields, head: string, flights: map<nat, Flight>)

  /** What happens next to a caller: it starts an operation, or the external command of its
      current stage ends. A command that fails, or moves the branch, may leave HEAD
      anywhere; checking out a commit leaves HEAD at that commit. */
  datatype Event =
    | StartSync
    | StartRollback
    | Returns(ok: bool, error: string, head: string, now: int)

  function Start(s: System, p: nat, ev: Event): System {
    if ev.StartSync? then
      if s.f.running then s
      else System(Taken(s.f), s.head, s.flights[p := Flight(ReadBefore, s.head, s.f.lastStable)])
    else if ev.StartRollback? then
      if s.f.running || Blank(s.f.lastStable) then s
      else System(Taken(s.f), s.head, s.flights[p := Flight(Restoring(s.f.lastStable), s.head, s.f.lastStable)])
    else s
  }

  /** Fields, HEAD and stage after a return. */
  datatype Next = Next(f: Fields, head: string, stage: Stage)

  function AfterReturn(rollbackOnFail: bool, f: Fields, head: string, stage: Stage, ev: Event): Next
    requires ev.Returns? && !stage.Leaving?
  {
    match stage
    case Restoring(_) => AfterRestoreReturn(f, head, stage, ev)
    case RestoreComposing(_) => AfterRestoreReturn(f, head, stage, ev)
    case RestoreChecking(_) => AfterRestoreReturn(f, head, stage, ev)
    case Restored(_) => AfterRestoreReturn(f, head, stage, ev)
    case Failing(_, _) => AfterUndoReturn(rollbackOnFail, f, head, stage, ev)
    case RollingBack(_, _) => AfterUndoReturn(rollbackOnFail, f, head, stage, ev)
    case Recomposing(_, _, _) => AfterUndoReturn(rollbackOnFail, f, head, stage, ev)
    case Rechecking(_, _, _) => AfterUndoReturn(rollbackOnFail, f, head, stage, ev)
    case Recovered(_, _, _) => AfterUndoReturn(rollbackOnFail, f, head, stage, ev)
    case _ => AfterSyncReturn(f, head, stage, ev)
  }

  /** SyncNow. */
  function AfterSyncReturn(f: Fields, head: string, stage: Stage, ev: Event): Next
    requires ev.Returns?
  {
    var failed := MarkedFailed(f, ev.error);
    match stage
    case ReadBefore =>
      var before := if ev.ok then head else "";
      Next(if before != "" then AtCommit(f, before) else f, head, Fetching(before))
    case Fetching(before) =>
      if ev.ok then Next(f, head, CheckingOut(before)) else Next(failed, head, Leaving(GaveUp))
    case CheckingOut(before) =>
      if ev.ok then Next(f, ev.head, Pulling(before)) else Next(failed, ev.head, Leaving(GaveUp))
    case Pulling(before) =>
      if ev.ok then Next(f, ev.head, ReadAfter(before)) else Next(failed, ev.head, Leaving(GaveUp))
    case ReadAfter(before) =>
      var exact := ev.ok && head != "";
      var after := if exact then head else before;
      Next(AtCommit(f, after), head, Composing(before, after, exact))
    case Composing(before, after, exact) =>
      Next(f, head, if ev.ok then Checking(before, after, exact) else Failing(before, "compose up failed: " + ev.error))
    case Checking(before, after, exact) =>
      Next(f, head, if ev.ok then Passed(before, after, exact) else Failing(before, ev.error))
    case Passed(before, after, exact) => Next(MarkedStable(f, after), head, Leaving(Synced(after)))
    case _ => Next(f, head, stage)
  }

  /** rollbackOnFailure. */
  function AfterUndoReturn(rollbackOnFail: bool, f: Fields, head: string, stage: Stage, ev: Event): Next
    requires ev.Returns?
  {
    match stage
    case Failing(before, cause) =>
      Next(MarkedFailed(f, cause), head,
           if !rollbackOnFail || Blank(before) then Leaving(GaveUp) else RollingBack(before, cause))
    case RollingBack(before, cause) => Next(f, if ev.ok then before else ev.head, Recomposing(before, cause, ev.ok))
    case Recomposing(before, cause, clean) => Next(f, head, Rechecking(before, cause, clean && ev.ok))
    case Rechecking(before, cause, clean) =>
      Next(f, head, if ev.ok then Recovered(before, cause, clean) else Leaving(GaveUp))
    case Recovered(before, cause, clean) =>
      Next(MarkedRolledBack(f, before, cause), head, Leaving(Undone(before, clean)))
    case _ => Next(f, head, stage)
  }

  /** RollbackLastStable. */
  function AfterRestoreReturn(f: Fields, head: string, stage: Stage, ev: Event): Next
    requires ev.Returns?
  {
    var failed := MarkedFailed(f, ev.error);
    match stage
    case Restoring(commit) =>
      if ev.ok then Next(f, commit, RestoreComposing(commit)) else Next(failed, ev.head, Leaving(GaveUp))
    case RestoreComposing(commit) =>
      if ev.ok then Next(f, head, RestoreChecking(commit)) else Next(failed, head, Leaving(GaveUp))
    case RestoreChecking(commit) =>
      if ev.ok then Next(f, head, Restored(commit)) else Next(failed, head, Leaving(GaveUp))
    case Restored(commit) => Next(MarkedRolledBack(f, commit, ""), head, Leaving(RestoredTo(commit)))
    case _ => Next(f, head, stage)
  }

  function Step(rollbackOnFail: bool, s: System, p: nat, ev: Event): System {
    if p !in s.flights then Start(s, p, ev)
    else if !ev.Returns? then s
    else
      var fl := s.flights[p];
      if fl.stage.Leaving? then System(Released(s.f, ev.now), s.head, s.flights - {p})
      else
        var next := AfterReturn(rollbackOnFail, s.f, s.head, fl.stage, ev);
        System(next.f, next.head, s.flights[p := fl.(stage := next.stage)])
  }

  // One recursion, written as three functions so that stating something about a run does not
  // unfold what a step does; proofs take the one-step equation from RunStep.

  /** A run of events: what its last event makes of the run before it. */
  function Run(rollbackOnFail: bool, s: System, events: seq<(nat, Event)>): System
    decreases |events|, 0
  {
    if events == [] then s else AfterLast(rollbackOnFail, s, events[..|events| - 1], events[|events| - 1])
  }

  function AfterLast(rollbackOnFail: bool, s: System, before: seq<(nat, Event)>, last: (nat, Event)): System
    decreases |before|, 2
  {
    AfterEvent(rollbackOnFail, s, before, last.0, last.1)
  }

  function AfterEvent(rollbackOnFail: bool, s: System, before: seq<(nat, Event)>, p: nat, ev: Event): System
    decreases |before|, 1
  {
    Step(rollbackOnFail, Run(rollbackOnFail, s, before), p, ev)
  }

  lemma RunStep(rollbackOnFail: bool, s: System, events: seq<(nat, Event)>)
    requires events != []
    ensures var before, last := events[..|events| - 1], events[|events| - 1];
            Run(rollbackOnFail, s, events) == Step(rollbackOnFail, Run(rollbackOnFail, s, before), last.0, last.1)
  {
    hide Step;
    var before, last := events[..|events| - 1], events[|events| - 1];
    assert Run(rollbackOnFail, s, events) == AfterLast(rollbackOnFail, s, before, last);
    assert AfterLast(rollbackOnFail, s, before, last) == AfterEvent(rollbackOnFail, s, before, last.0, last.1);
  }

  // ---- The invariant ----

  /** What is true at each stage of the operation in flight. */
  predicate StageOk(f: Fields, head: string, fl: Flight) {
    match fl.stage
    case ReadBefore => head == fl.head0 && f.lastStable == fl.stable0
    case Fetching(before) => StartOk(f, before, fl)
    case CheckingOut(before) => StartOk(f, before, fl)
    case Pulling(before) => StartOk(f, before, fl)
    case ReadAfter(before) => StartOk(f, before, fl)
    case Composing(before, after, exact) =>
      BeforeOk(before, fl) && f.lastStable == fl.stable0 && AfterOk(f, head, after, exact)
    case Checking(before, after, exact) =>
      BeforeOk(before, fl) && f.lastStable == fl.stable0 && AfterOk(f, head, after, exact)
    case Passed(before, after, exact) =>
      BeforeOk(before, fl) && f.lastStable == fl.stable0 && AfterOk(f, head, after, exact)
    case Failing(before, _) => BeforeOk(before, fl) && f.lastStable == fl.stable0
    case RollingBack(before, _) => UndoOk(f, head, fl, before, false)
    case Recomposing(before, _, clean) => UndoOk(f, head, fl, before, clean)
    case Rechecking(before, _, clean) => UndoOk(f, head, fl, before, clean)
    case Recovered(before, _, clean) => UndoOk(f, head, fl, before, clean)
    case Restoring(commit) => commit == fl.stable0 == f.lastStable && !Blank(commit)
    case RestoreComposing(commit) => commit == fl.stable0 == f.lastStable == head && !Blank(commit)
    case RestoreChecking(commit) => commit == fl.stable0 == f.lastStable == head && !Blank(commit)
    case Restored(commit) => commit == fl.stable0 == f.lastStable == head && !Blank(commit)
    case Leaving(how) => ExitOk(f, head, fl, how)
  }

  predicate UndoOk(f: Fields, head: string, fl: Flight, before: string, clean: bool) {
    && before == fl.head0 && f.lastStable == fl.stable0 && f.lastResult == "failed" && f.lastHealth == "unhealthy"
    && (clean ==> head == before)
  }

  /** The commit that was read is on record. */
  predicate StartOk(f: Fields, before: string, fl: Flight) {
    BeforeOk(before, fl) && f.lastStable == fl.stable0 && (before != "" ==> f.lastCommit == before)
  }

  predicate BeforeOk(before: string, fl: Flight) {
    before == "" || before == fl.head0
  }

  predicate AfterOk(f: Fields, head: string, after: string, exact: bool) {
    f.lastCommit == after && (exact ==> head == after)
  }

  predicate ExitOk(f: Fields, head: string, fl: Flight, how: Exit) {
    match how
    case GaveUp => f.lastStable == fl.stable0 && f.lastResult == "failed" && f.lastHealth == "unhealthy"
    case Synced(commit) =>
      && f.lastStable == commit == f.lastCommit
      && f.lastResult == "success" && f.lastHealth == "healthy" && f.lastError == ""
    case Undone(before, clean) =>
      && before == fl.head0 == f.lastCommit && f.lastStable == fl.stable0
      && f.lastResult == "rolled_back" && f.lastHealth == "healthy_after_rollback" && (clean ==> head == before)
    case RestoredTo(commit) =>
      && commit == fl.stable0 == f.lastStable == f.lastCommit == head && !Blank(commit)
      && f.lastResult == "rolled_back" && f.lastHealth == "healthy_after_rollback" && f.lastError == ""
  }

  /** The flag is held exactly while one operation is in flight. */
  predicate FlagOk(s: System) {
    && (s.f.running <==> s.flights != map[])
    && (forall p, q | p in s.flights && q in s.flights :: p == q)
  }

  predicate Inv(s: System) {
    && FlagOk(s)
    && forall p | p in s.flights :: StageOk(s.f, s.head, s.flights[p])
  }

  lemma StepKeepsFlag(rollbackOnFail: bool, s: System, p: nat, ev: Event)
    requires FlagOk(s)
    ensures FlagOk(Step(rollbackOnFail, s, p, ev))
    ensures Step(rollbackOnFail, s, p, ev).flights.Keys <= s.flights.Keys + {p}
  {
    hide AfterReturn;
    var s' := Step(rollbackOnFail, s, p, ev);
    if p in s.flights {
      assert s.flights.Keys == {p};
      if ev.Returns? && !s.flights[p].stage.Leaving? {
        ReturnKeepsFlag(rollbackOnFail, s.f, s.head, s.flights[p].stage, ev);
      }
      assert s'.flights.Keys == {p} || s'.flights == map[];
    } else {
      assert s' == s || (s.flights == map[] && s'.flights.Keys == {p});
    }
  }

  lemma ReturnKeepsFlag(rollbackOnFail: bool, f: Fields, head: string, stage: Stage, ev: Event)
    requires ev.Returns? && !stage.Leaving?
    ensures AfterReturn(rollbackOnFail, f, head, stage, ev).f.running == f.running
  {
  }

  predicate Undoing(stage: Stage) {
    stage.Failing? || stage.RollingBack? || stage.Recomposing? || stage.Rechecking? || stage.Recovered?
  }

  lemma UndoReturnKeepsStage(rollbackOnFail: bool, f: Fields, head: string, fl: Flight, ev: Event)
    requires ev.Returns? && Undoing(fl.stage) && StageOk(f, head, fl)
    ensures var n := AfterUndoReturn(rollbackOnFail, f, head, fl.stage, ev); StageOk(n.f, n.head, fl.(stage := n.stage))
  {
    assert Blank("");
  }

  lemma ReturnKeepsStage(rollbackOnFail: bool, f: Fields, head: string, fl: Flight, ev: Event)
    requires ev.Returns? && !fl.stage.Leaving? && StageOk(f, head, fl)
    ensures var n := AfterReturn(rollbackOnFail, f, head, fl.stage, ev); StageOk(n.f, n.head, fl.(stage := n.stage))
  {
    hide Blank, AfterUndoReturn, UndoOk;
    if Undoing(fl.stage) {
      UndoReturnKeepsStage(rollbackOnFail, f, head, fl, ev);
    }
  }

  lemma StepKeepsStage(rollbackOnFail: bool, s: System, p: nat, ev: Event)
    requires p in s.flights && StageOk(s.f, s.head, s.flights[p])
    ensures var s' := Step(rollbackOnFail, s, p, ev); p in s'.flights ==> StageOk(s'.f, s'.head, s'.flights[p])
  {
    hide StageOk, AfterReturn;
    if ev.Returns? && !s.flights[p].stage.Leaving? {
      ReturnKeepsStage(rollbackOnFail, s.f, s.head, s.flights[p], ev);
    }
  }

  lemma StepKeepsInv(rollbackOnFail: bool, s: System, p: nat, ev: Event)
    requires Inv(s)
    ensures Inv(Step(rollbackOnFail, s, p, ev))
  {
    StepKeepsFlag(rollbackOnFail, s, p, ev);
    if p in s.flights {
      StepKeepsStage(rollbackOnFail, s, p, ev);
      hide Step, StageOk;
      var s' := Step(rollbackOnFail, s, p, ev);
      assert s.flights.Keys == {p};
    }
  }

  lemma {:induction false} RunKeepsInv(rollbackOnFail: bool, head: string, events: seq<(nat, Event)>)
    ensures Inv(Run(rollbackOnFail, System(IDLE, head, map[]), events))
  {
    hide Step, StageOk;
    if events != [] {
      var before := events[..|events| - 1];
      RunStep(rollbackOnFail, System(IDLE, head, map[]), events);
      RunKeepsInv(rollbackOnFail, head, before);
      var last := events[|events| - 1];
      StepKeepsInv(rollbackOnFail, Run(rollbackOnFail, System(IDLE, head, map[]), before), last.0, last.1);
    }
  }

  // ---- Main results, under any interleaving of callers ----

  /** The running flag holds iff exactly one operation is in flight. */
  lemma MutualExclusion(rollbackOnFail: bool, head: string, events: seq<(nat, Event)>)
    ensures var s := Run(rollbackOnFail, System(IDLE, head, map[]), events);
            && (s.f.running <==> |s.flights| == 1)
            && (!s.f.running <==> s.flights == map[])
  {
    hide Step, StageOk;
    RunKeepsInv(rollbackOnFail, head, events);
    var s := Run(rollbackOnFail, System(IDLE, head, map[]), events);
    if s.flights != map[] {
      var p :| p in s.flights;
      assert s.flights.Keys == {p};
      assert |s.flights| == |s.flights.Keys|;
    }
  }

  /** While an operation is in flight nobody else changes a field, HEAD or the set of
      operations. */
  lemma OnlyTheHolderWrites(rollbackOnFail: bool, head: string, events: seq<(nat, Event)>, p: nat, q: nat, ev: Event)
    requires var s := Run(rollbackOnFail, System(IDLE, head, map[]), events); p in s.flights && q != p
    ensures var s := Run(rollbackOnFail, System(IDLE, head, map[]), events); Step(rollbackOnFail, s, q, ev) == s
  {
    hide StageOk;
    RunKeepsInv(rollbackOnFail, head, events);
  }

  /** From the compose stage, two returns lead to Passed if and only if compose and health
      check both succeed; HEAD does not move in between. */
  lemma PassedNeedsBothChecks(rollbackOnFail: bool, s: System, p: nat, compose: Event, check: Event)
    requires p in s.flights && s.flights[p].stage.Composing?
    ensures var s1 := Step(rollbackOnFail, s, p, compose);
            var s2 := Step(rollbackOnFail, s1, p, check);
            p in s2.flights && s2.head == s.head
            && (s2.flights[p].stage.Passed? <==> compose.Returns? && compose.ok && check.Returns? && check.ok)
  {
  }

  function After(rollbackOnFail: bool, head: string, events: seq<(nat, Event)>): System {
    Run(rollbackOnFail, System(IDLE, head, map[]), events)
  }

  predicate At(s: System, p: nat, stage: Stage, head: string) {
    p in s.flights && s.flights[p].stage == stage && s.head == head
  }

  predicate Succeeds(event: (nat, Event), p: nat) {
    event.0 == p && event.1.Returns? && event.1.ok
  }

  /** From prefix `from` to prefix `to` of the events p stays at one stage and HEAD at one
      commit. */
  ghost predicate StaysAt(rollbackOnFail: bool, head: string, events: seq<(nat, Event)>, p: nat,
                          stage: Stage, at: string, from: nat, to: nat)
    requires to <= |events|
  {
    forall k {:trigger events[..k]} | from <= k <= to :: At(After(rollbackOnFail, head, events[..k]), p, stage, at)
  }

  /** Event i is p's compose command succeeding, and p has been waiting for the health check
      ever since, with HEAD where compose found it. */
  ghost predicate ComposedAt(rollbackOnFail: bool, head: string, events: seq<(nat, Event)>, to: nat, p: nat,
                             before: string, after: string, exact: bool, at: string, i: nat)
    requires to <= |events|
  {
    && i < to
    && Succeeds(events[i], p)
    && At(After(rollbackOnFail, head, events[..i]), p, Composing(before, after, exact), at)
    && StaysAt(rollbackOnFail, head, events, p, Checking(before, after, exact), at, i + 1, to)
  }

  /** The commit at HEAD has been composed and then found healthy: events i and j are p's
      compose and health check succeeding, i before j, and neither p's stage nor HEAD has
      changed otherwise since. */
  ghost predicate CheckedAt(rollbackOnFail: bool, head: string, events: seq<(nat, Event)>, p: nat,
                            before: string, after: string, exact: bool, at: string, i: nat, j: nat)
  {
    && j < |events|
    && ComposedAt(rollbackOnFail, head, events, j, p, before, after, exact, at, i)
    && Succeeds(events[j], p)
    && StaysAt(rollbackOnFail, head, events, p, Passed(before, after, exact), at, j + 1, |events|)
  }

  /** Where an operation can come from: a step that puts p at Checking or Passed either left
      the whole system alone or was p's own command succeeding one stage earlier. */
  lemma ArrivesBySuccess(rollbackOnFail: bool, s: System, p: nat, q: nat, ev: Event)
    requires Inv(s)
    ensures var s' := Step(rollbackOnFail, s, q, ev);
            p in s'.flights && (s'.flights[p].stage.Checking? || s'.flights[p].stage.Passed?) && s' != s ==>
              && q == p && p in s.flights && ev.Returns? && ev.ok && s'.head == s.head
              && s.flights[p].stage == (match s'.flights[p].stage
                                        case Checking(b, a, e) => Composing(b, a, e)
                                        case Passed(b, a, e) => Checking(b, a, e)
                                        case other => other)
  {
    hide Blank, StageOk;
  }

  lemma PrefixOf(events: seq<(nat, Event)>, k: nat)
    requires events != [] && k < |events|
    ensures events[..|events| - 1][..k] == events[..k]
  {
  }

  lemma StaysLonger(rollbackOnFail: bool, head: string, events: seq<(nat, Event)>, p: nat, stage: Stage, at: string,
                    from: nat)
    requires events != [] && from <= |events|
    requires At(After(rollbackOnFail, head, events), p, stage, at)
    requires from < |events| ==>
               StaysAt(rollbackOnFail, head, events[..|events| - 1], p, stage, at, from, |events| - 1)
    ensures StaysAt(rollbackOnFail, head, events, p, stage, at, from, |events|)
  {
    hide After, At;
    forall k | from <= k <= |events|
      ensures At(After(rollbackOnFail, head, events[..k]), p, stage, at)
    {
      if k == |events| {
        assert events[..k] == events;
      } else {
        PrefixOf(events, k);
        assert events[..|events| - 1][..k] == events[..k];
      }
    }
  }

  lemma {:induction false} CheckingWasComposed(rollbackOnFail: bool, head: string, events: seq<(nat, Event)>, p: nat)
    returns (i: nat)
    requires var s := After(rollbackOnFail, head, events); p in s.flights && s.flights[p].stage.Checking?
    ensures var s := After(rollbackOnFail, head, events);
            var stage := s.flights[p].stage;
            ComposedAt(rollbackOnFail, head, events, |events|, p, stage.before, stage.after, stage.exact, s.head, i)
  {
    hide Run, Step, Inv;
    var s0 := System(IDLE, head, map[]);
    var s := After(rollbackOnFail, head, events);
    assert events != [] by { EmptyRun(rollbackOnFail, s0); }
    var before, last := events[..|events| - 1], events[|events| - 1];
    RunStep(rollbackOnFail, s0, events);
    RunKeepsInv(rollbackOnFail, head, before);
    var s1 := After(rollbackOnFail, head, before);
    ArrivesBySuccess(rollbackOnFail, s1, p, last.0, last.1);
    if s == s1 {
      i := CheckingWasComposed(rollbackOnFail, head, before, p);
      PrefixOf(events, i);
    } else {
      i := |events| - 1;
    }
    StaysLonger(rollbackOnFail, head, events, p, s.flights[p].stage, s.head, i + 1);
  }

  /** In every run, an operation at Passed got there by its own compose and then its own
      health check succeeding, with HEAD unmoved from the one to the other and since. */
  lemma {:induction false} PassedWasChecked(rollbackOnFail: bool, head: string, events: seq<(nat, Event)>, p: nat)
    returns (i: nat, j: nat)
    requires var s := After(rollbackOnFail, head, events); p in s.flights && s.flights[p].stage.Passed?
    ensures var s := After(rollbackOnFail, head, events);
            var stage := s.flights[p].stage;
            CheckedAt(rollbackOnFail, head, events, p, stage.before, stage.after, stage.exact, s.head, i, j)
  {
    hide Run, Step, Inv;
    var s0 := System(IDLE, head, map[]);
    var s := After(rollbackOnFail, head, events);
    assert events != [] by { EmptyRun(rollbackOnFail, s0); }
    var before, last := events[..|events| - 1], events[|events| - 1];
    RunStep(rollbackOnFail, s0, events);
    RunKeepsInv(rollbackOnFail, head, before);
    var s1 := After(rollbackOnFail, head, before);
    ArrivesBySuccess(rollbackOnFail, s1, p, last.0, last.1);
    var stage := s.flights[p].stage;
    if s == s1 {
      i, j := PassedWasChecked(rollbackOnFail, head, before, p);
    } else {
      i := CheckingWasComposed(rollbackOnFail, head, before, p);
      j := |events| - 1;
    }
    ComposedInLonger(rollbackOnFail, head, events, j, p, stage.before, stage.after, stage.exact, s.head, i);
    assert Succeeds(events[j], p);
    StaysLonger(rollbackOnFail, head, events, p, stage, s.head, j + 1);
  }

  lemma ComposedInLonger(rollbackOnFail: bool, head: string, events: seq<(nat, Event)>, to: nat, p: nat,
                         before: string, after: string, exact: bool, at: string, i: nat)
    requires events != [] && to < |events|
    requires ComposedAt(rollbackOnFail, head, events[..|events| - 1], to, p, before, after, exact, at, i)
    ensures ComposedAt(rollbackOnFail, head, events, to, p, before, after, exact, at, i)
  {
    hide After, At;
    var shorter := events[..|events| - 1];
    PrefixOf(events, i);
    forall k | i + 1 <= k <= to
      ensures At(After(rollbackOnFail, head, events[..k]), p, Checking(before, after, exact), at)
    {
      PrefixOf(events, k);
      assert shorter[..k] == events[..k];
    }
  }

  lemma EmptyRun(rollbackOnFail: bool, s: System)
    ensures Run(rollbackOnFail, s, []) == s
  {
  }

  lemma StableStep(rollbackOnFail: bool, s: System, p: nat, ev: Event)
    requires Inv(s)
    ensures var s' := Step(rollbackOnFail, s, p, ev);
            s'.f.lastStable != s.f.lastStable ==>
              && p in s.flights && s.flights[p].stage.Passed? && s'.head == s.head
              && s'.f.lastStable == s.flights[p].stage.after == s'.f.lastCommit
              && (s.flights[p].stage.exact ==> s'.f.lastStable == s'.head)
  {
    hide Blank;
    if p in s.flights {
      assert StageOk(s.f, s.head, s.flights[p]);
    }
  }

  /** Under every interleaving the stable commit changes only in the last step of a sync, to
      the commit that this sync's compose and health check, both successful and in this
      order, found at HEAD, where HEAD still is, provided the rev-parse after the pull
      succeeded. */
  lemma StableMeansPassed(rollbackOnFail: bool, head: string, events: seq<(nat, Event)>, p: nat, ev: Event)
    ensures var s := After(rollbackOnFail, head, events);
            var s' := After(rollbackOnFail, head, events + [(p, ev)]);
            s'.f.lastStable != s.f.lastStable ==>
              && p in s.flights && s.flights[p].stage.Passed?
              && s'.f.lastStable == s.flights[p].stage.after == s'.f.lastCommit
              && (s.flights[p].stage.exact ==> s'.f.lastStable == s'.head)
              && s'.head == s.head
              && var stage := s.flights[p].stage;
                 exists i, j ::
                   CheckedAt(rollbackOnFail, head, events, p, stage.before, stage.after, stage.exact, s.head, i, j)
  {
    hide Run, Step, Inv, CheckedAt;
    RunKeepsInv(rollbackOnFail, head, events);
    var longer := events + [(p, ev)];
    assert longer[..|longer| - 1] == events;
    RunStep(rollbackOnFail, System(IDLE, head, map[]), longer);
    var s, s' := After(rollbackOnFail, head, events), After(rollbackOnFail, head, longer);
    StableStep(rollbackOnFail, s, p, ev);
    if s'.f.lastStable != s.f.lastStable {
      var i, j := PassedWasChecked(rollbackOnFail, head, events, p);
    }
  }

  /** A sync that fails after the pull and whose rollback commands all succeed leaves HEAD
      and the last commit where HEAD was before the sync, and the stable commit
      untouched; a restore leaves everything at the stable commit; every other failure
      leaves at least the stable commit alone. */
  lemma ExitsAreConsistent(rollbackOnFail: bool, head: string, events: seq<(nat, Event)>, p: nat)
    requires var s := Run(rollbackOnFail, System(IDLE, head, map[]), events);
             p in s.flights && s.flights[p].stage.Leaving?
    ensures var s := Run(rollbackOnFail, System(IDLE, head, map[]), events);
            var fl := s.flights[p];
            match fl.stage.how
            case GaveUp => s.f.lastStable == fl.stable0 && s.f.lastResult == "failed"
            case Synced(commit) => s.f.lastStable == commit == s.f.lastCommit && s.f.lastResult == "success"
            case Undone(before, clean) =>
              && s.f.lastCommit == fl.head0 && s.f.lastStable == fl.stable0 && s.f.lastResult == "rolled_back"
              && (clean ==> s.head == fl.head0)
            case RestoredTo(commit) =>
              && s.f.lastStable == fl.stable0 == s.f.lastCommit == s.head && s.f.lastResult == "rolled_back"
  {
    RunKeepsInv(rollbackOnFail, head, events);
    hide Run, Step;
    var s := Run(rollbackOnFail, System(IDLE, head, map[]), events);
    assert StageOk(s.f, s.head, s.flights[p]);
  }

  // ---- The flag is always released ----

  function StepsLeft(stage: Stage): nat {
    match stage
    case ReadBefore => 13
    case Fetching(_) => 12
    case CheckingOut(_) => 11
    case Pulling(_) => 10
    case ReadAfter(_) => 9
    case Composing(_, _, _) => 8
    case Checking(_, _, _) => 7
    case Passed(_, _, _) => 1
    case Failing(_, _) => 6
    case RollingBack(_, _) => 5
    case Recomposing(_, _, _) => 4
    case Rechecking(_, _, _) => 3
    case Recovered(_, _, _) => 2
    case Restoring(_) => 5
    case RestoreComposing(_) => 4
    case RestoreChecking(_) => 3
    case Restored(_) => 2
    case Leaving(_) => 0
  }

  lemma EachReturnAdvances(rollbackOnFail: bool, s: System, p: nat, ev: Event)
    requires p in s.flights && ev.Returns?
    ensures var s' := Step(rollbackOnFail, s, p, ev);
            if s.flights[p].stage.Leaving? then p !in s'.flights && !s'.f.running && s'.f.lastRunAt == Some(ev.now)
            else p in s'.flights && StepsLeft(s'.flights[p].stage) < StepsLeft(s.flights[p].stage)
  {
  }

  /** How many of the events are commands of p returning. */
  function ReturnsOf(p: nat, events: seq<(nat, Event)>): nat {
    if events == [] then 0
    else ReturnsOf(p, events[..|events| - 1]) +
         if events[|events| - 1].0 == p && events[|events| - 1].1.Returns? then 1 else 0
  }

  /** p is in flight after each prefix from the first n events on. */
  ghost predicate StaysInFlight(rollbackOnFail: bool, head: string, events: seq<(nat, Event)>, p: nat, n: nat) {
    forall k {:trigger events[..k]} | n <= k <= |events| :: p in After(rollbackOnFail, head, events[..k]).flights
  }

  /** Under every interleaving, an operation uses up a stage with each of its returns: while
      it stays in flight, its returns and the stages still ahead of it together never
      exceed the stages that were ahead of it. */
  lemma {:induction false} ReturnsUseUpStages(rollbackOnFail: bool, head: string, events: seq<(nat, Event)>, p: nat,
                                              n: nat)
    requires n <= |events| && StaysInFlight(rollbackOnFail, head, events, p, n)
    ensures var first := After(rollbackOnFail, head, events[..n]);
            var s := After(rollbackOnFail, head, events);
            && p in first.flights && p in s.flights
            && ReturnsOf(p, events[n..]) + StepsLeft(s.flights[p].stage) <= StepsLeft(first.flights[p].stage)
  {
    assert events[..|events|] == events;
    assert p in After(rollbackOnFail, head, events[..n]).flights;
    assert p in After(rollbackOnFail, head, events[..|events|]).flights;
    if n < |events| {
      hide Run, Step, Inv, StepsLeft;
      var before, last := events[..|events| - 1], events[|events| - 1];
      forall k | n <= k <= |before|
        ensures p in After(rollbackOnFail, head, before[..k]).flights
      {
        PrefixOf(events, k);
        assert before[..k] == events[..k];
      }
      PrefixOf(events, n);
      ReturnsUseUpStages(rollbackOnFail, head, before, p, n);
      RunStep(rollbackOnFail, System(IDLE, head, map[]), events);
      var s1 := After(rollbackOnFail, head, before);
      RunKeepsInv(rollbackOnFail, head, before);
      StepUsesUpStages(rollbackOnFail, s1, p, last.0, last.1);
      assert events[n..][..|events[n..]| - 1] == before[n..];
      assert events[n..][|events[n..]| - 1] == last;
    }
  }

  lemma StepUsesUpStages(rollbackOnFail: bool, s: System, p: nat, q: nat, ev: Event)
    requires Inv(s) && p in s.flights
    ensures var s' := Step(rollbackOnFail, s, q, ev);
            p in s'.flights ==>
              StepsLeft(s'.flights[p].stage) + (if q == p && ev.Returns? then 1 else 0) <= StepsLeft(s.flights[p].stage)
    ensures p !in Step(rollbackOnFail, s, q, ev).flights ==> !Step(rollbackOnFail, s, q, ev).f.running
  {
    hide StageOk, AfterReturn, Blank;
    if q == p && ev.Returns? {
      EachReturnAdvances(rollbackOnFail, s, p, ev);
    }
  }

  /** No exit path keeps the flag: whatever its commands return and whoever acts in between,
      an operation with more returns than stages ahead has left, and at the moment it left
      the flag was free. */
  lemma FlagIsReleased(rollbackOnFail: bool, head: string, events: seq<(nat, Event)>, p: nat, n: nat)
    requires n <= |events| && p in After(rollbackOnFail, head, events[..n]).flights
    requires ReturnsOf(p, events[n..]) > StepsLeft(After(rollbackOnFail, head, events[..n]).flights[p].stage)
    ensures exists k :: n < k <= |events| && p !in After(rollbackOnFail, head, events[..k]).flights
                        && !After(rollbackOnFail, head, events[..k]).f.running
  {
    hide Run, Step, Inv, StepsLeft, ReturnsOf;
    var k := FirstAbsence(rollbackOnFail, head, events, p, n);
    var now, before := events[..k], events[..k - 1];
    assert now[..|now| - 1] == before;
    RunStep(rollbackOnFail, System(IDLE, head, map[]), now);
    RunKeepsInv(rollbackOnFail, head, before);
    StepUsesUpStages(rollbackOnFail, After(rollbackOnFail, head, before), p, now[|now| - 1].0, now[|now| - 1].1);
  }

  lemma FirstAbsence(rollbackOnFail: bool, head: string, events: seq<(nat, Event)>, p: nat, n: nat) returns (k: nat)
    requires n <= |events| && p in After(rollbackOnFail, head, events[..n]).flights
    requires ReturnsOf(p, events[n..]) > StepsLeft(After(rollbackOnFail, head, events[..n]).flights[p].stage)
    ensures n < k <= |events|
    ensures p !in After(rollbackOnFail, head, events[..k]).flights
    ensures p in After(rollbackOnFail, head, events[..k - 1]).flights
  {
    hide After, StepsLeft, ReturnsOf;
    k := n;
    while k < |events| && p in After(rollbackOnFail, head, events[..k]).flights
      invariant n <= k <= |events|
      invariant forall m {:trigger events[..m]} | n <= m < k :: p in After(rollbackOnFail, head, events[..m]).flights
    {
      k := k + 1;
    }
    if p in After(rollbackOnFail, head, events[..k]).flights {
      assert StaysInFlight(rollbackOnFail, head, events, p, n);
      ReturnsUseUpStages(rollbackOnFail, head, events, p, n);
      assert false;
    }
    assert k > n;
    assert p in After(rollbackOnFail, head, events[..k - 1]).flights;
  }

  // ---- The service itself ----

  /** Results of the external commands of one sync, in order; None is success. The
      service looks neither at `undone` nor at `recomposed`, the checkout and the
      compose of its own rollback. */
  datatype SyncRun = SyncRun(
    before: string,
    fetch: Option<string>,
    checkout: Option<string>,
    pull: Option<string>,
    after: string,
    compose: Option<string>,
    health: Option<string>,
    undone: bool,
    recomposed: bool,
    recovery: Option<string>,
    finishedAt: int)

  /** Every command of the sync itself succeeds. */
  predicate AllSucceed(r: SyncRun) {
    r.fetch.None? && r.checkout.None? && r.pull.None? && r.compose.None? && r.health.None?
  }

  /** The fields after a sync that found the flag free. */
  function SyncedFields(f: Fields, rollbackOnFail: bool, r: SyncRun): Fields {
    Released(
      FetchedFields(if r.before != "" then AtCommit(Taken(f), r.before) else Taken(f), rollbackOnFail, r),
      r.finishedAt)
  }

  /** From the fetch on. */
  function FetchedFields(f: Fields, rollbackOnFail: bool, r: SyncRun): Fields {
    if r.fetch.Some? then MarkedFailed(f, r.fetch.value)
    else if r.checkout.Some? then MarkedFailed(f, r.checkout.value)
    else if r.pull.Some? then MarkedFailed(f, r.pull.value)
    else DeployedFields(f, rollbackOnFail, r)
  }

  /** The fields after the pull has succeeded, before the release. */
  function DeployedFields(f: Fields, rollbackOnFail: bool, r: SyncRun): Fields {
    var after := if r.after == "" then r.before else r.after;
    var f1 := AtCommit(f, after);
    if r.compose.Some? then RecoveredFields(f1, rollbackOnFail, r, "compose up failed: " + r.compose.value)
    else if r.health.Some? then RecoveredFields(f1, rollbackOnFail, r, r.health.value)
    else MarkedStable(f1, after)
  }

  /** What a sync returns; a rollback does not turn the failure into a success. */
  function FirstError(r: SyncRun): Option<string> {
    if r.fetch.Some? then r.fetch
    else if r.checkout.Some? then r.checkout
    else if r.pull.Some? then r.pull
    else if r.compose.Some? then Some("compose up failed: " + r.compose.value)
    else r.health
  }

  function FirstFailure(checkout: Option<string>, compose: Option<string>, health: Option<string>): Option<string> {
    if checkout.Some? then checkout else if compose.Some? then compose else health
  }

  /** The fields after a restore of the stable commit that found the flag free. */
  function RestoredFields(f: Fields, checkout: Option<string>, compose: Option<string>, health: Option<string>,
                          now: int): Fields
  {
    var error := FirstFailure(checkout, compose, health);
    Released(
      if error.Some? then MarkedFailed(Taken(f), error.value) else MarkedRolledBack(Taken(f), f.lastStable, ""),
      now)
  }

  function RecoveredFields(f: Fields, rollbackOnFail: bool, r: SyncRun, cause: string): Fields {
    var marked := MarkedFailed(f, cause);
    if !rollbackOnFail || Blank(r.before) || r.recovery.Some? then marked else MarkedRolledBack(marked, r.before, cause)
  }

  class Service {
    const rollbackOnFail: bool
    var running: bool
    var lastRunAt: Option<int>
    var lastResult: string
    var lastError: string
    var lastCommit: string
    var lastStableCommit: string
    var lastHealth: string

    constructor (rollbackOnFail: bool)
      ensures this.rollbackOnFail == rollbackOnFail && View() == IDLE
    {
      this.rollbackOnFail := rollbackOnFail;
      running, lastRunAt, lastResult, lastError := false, None, "", "";
      lastCommit, lastStableCommit, lastHealth := "", "", "";
    }

    function View(): Fields
      reads this
    {
      Fields(running, lastRunAt, lastResult, lastError, lastCommit, lastStableCommit, lastHealth)
    }

    method MarkFailed(error: string)
      modifies this
      ensures View() == MarkedFailed(old(View()), error)
    {
      lastResult, lastError, lastHealth := "failed", error, "unhealthy";
    }

    /** The deferred section of both operations. */
    method Release(now: int)
      modifies this
      ensures View() == Released(old(View()), now)
    {
      running := false;
      lastRunAt := Some(now);
    }

    /** A call that finds the flag taken changes nothing. */
    method SyncNow(r: SyncRun) returns (error: Option<string>)
      modifies this
      ensures View() == if old(running) then old(View()) else SyncedFields(old(View()), rollbackOnFail, r)
      ensures error == if old(running) then Some("gitops sync already running") else FirstError(r)
      ensures !old(running) ==>
                && !running && lastRunAt == Some(r.finishedAt)
                && (error.None? <==> AllSucceed(r))
                && (error.None? ==>
                      && lastResult == "success" && lastError == "" && lastHealth == "healthy"
                      && lastStableCommit == lastCommit == if r.after == "" then r.before else r.after)
                && (error.Some? ==> lastError == error.value && lastStableCommit == old(lastStableCommit))
                && (r.fetch.Some? || r.checkout.Some? || r.pull.Some? ==>
                      lastCommit == if r.before != "" then r.before else old(lastCommit))
    {
      if running {
        return Some("gitops sync already running");
      }
      running := true;
      if r.before != "" {
        lastCommit := r.before;
      }
      if r.fetch.Some? {
        MarkFailed(r.fetch.value);
        error := r.fetch;
      } else if r.checkout.Some? {
        MarkFailed(r.checkout.value);
        error := r.checkout;
      } else if r.pull.Some? {
        MarkFailed(r.pull.value);
        error := r.pull;
      } else {
        error := Deploy(r);
      }
      Release(r.finishedAt);
    }

    method Deploy(r: SyncRun) returns (error: Option<string>)
      requires r.fetch.None? && r.checkout.None? && r.pull.None?
      modifies this
      ensures View() == DeployedFields(old(View()), rollbackOnFail, r)
      ensures error == FirstError(r)
    {
      var after := r.after;
      if after == "" {
        after := r.before;
      }
      lastCommit := after;
      if r.compose.Some? {
        RollbackOnFailure(r, "compose up failed: " + r.compose.value);
        return Some("compose up failed: " + r.compose.value);
      }
      if r.health.Some? {
        RollbackOnFailure(r, r.health.value);
        return r.health;
      }
      lastResult, lastError, lastStableCommit, lastHealth := "success", "", after, "healthy";
      error := None;
    }

    method RollbackOnFailure(r: SyncRun, cause: string)
      modifies this
      ensures View() == RecoveredFields(old(View()), rollbackOnFail, r, cause)
    {
      MarkFailed(cause);
      if !rollbackOnFail || Blank(r.before) {
        return;
      }
      if r.recovery.None? {
        lastResult, lastError, lastCommit, lastHealth := "rolled_back", cause, r.before, "healthy_after_rollback";
      }
    }

    /** Results of checkout, compose and health check, in order. */
    method RollbackLastStable(checkout: Option<string>, compose: Option<string>, health: Option<string>, now: int)
      returns (error: Option<string>)
      modifies this
      ensures old(running) || Blank(old(lastStableCommit)) ==>
                View() == old(View())
                && error == Some(if old(running) then "gitops sync already running" else "no stable commit recorded")
      ensures !old(running) && !Blank(old(lastStableCommit)) ==>
                && error == FirstFailure(checkout, compose, health)
                && View() == RestoredFields(old(View()), checkout, compose, health, now)
                && (error.None? <==> checkout.None? && compose.None? && health.None?)
                && (error.None? ==> lastCommit == old(lastStableCommit) && lastResult == "rolled_back")
                && (error.Some? ==> lastError == error.value && lastResult == "failed")
                && !running && lastRunAt == Some(now) && lastStableCommit == old(lastStableCommit)
    {
      if running {
        return Some("gitops sync already running");
      }
      if Blank(lastStableCommit) {
        return Some("no stable commit recorded");
      }
      var commit := lastStableCommit;
      running := true;
      error := if checkout.Some? then checkout else if compose.Some? then compose else health;
      if error.Some? {
        MarkFailed(error.value);
      } else {
        lastCommit, lastResult, lastError, lastHealth := commit, "rolled_back", "", "healthy_after_rollback";
      }
      Release(now);
    }
  }

  // ---- The service's sync is the uninterrupted run of the state machine ----

  /** How an external command with this error returns. */
  function Outcome(error: Option<string>, head: string, now: int): Event {
    Returns(error.None?, if error.Some? then error.value else "", head, now)
  }

  /** What the command of a stage returns in the sync, or in the restore with the same
      results for checkout, compose and health, that r describes; checkout and pull leave
      HEAD at `pulled`. */
  function Reply(r: SyncRun, pulled: string, stage: Stage): Event {
    match stage
    case ReadBefore => Returns(r.before != "", "", pulled, r.finishedAt)
    case Fetching(_) => Outcome(r.fetch, pulled, r.finishedAt)
    case CheckingOut(_) => Outcome(r.checkout, pulled, r.finishedAt)
    case Pulling(_) => Outcome(r.pull, pulled, r.finishedAt)
    case ReadAfter(_) => Returns(r.after != "", "", pulled, r.finishedAt)
    case Composing(_, _, _) => Outcome(r.compose, pulled, r.finishedAt)
    case Checking(_, _, _) => Outcome(r.health, pulled, r.finishedAt)
    case Restoring(_) => Outcome(r.checkout, pulled, r.finishedAt)
    case RestoreComposing(_) => Outcome(r.compose, pulled, r.finishedAt)
    case RestoreChecking(_) => Outcome(r.health, pulled, r.finishedAt)
    case RollingBack(_, _) => Returns(r.undone, "", pulled, r.finishedAt)
    case Recomposing(_, _, _) => Returns(r.recomposed, "", pulled, r.finishedAt)
    case Rechecking(_, _, _) => Outcome(r.recovery, pulled, r.finishedAt)
    case _ => Returns(true, "", pulled, r.finishedAt)
  }

  lemma ReturnAdvances(rollbackOnFail: bool, n: Next, ev: Event)
    requires ev.Returns? && !n.stage.Leaving?
    ensures StepsLeft(AfterReturn(rollbackOnFail, n.f, n.head, n.stage, ev).stage) < StepsLeft(n.stage)
  {
  }

  /** The operation run on to its exit. */
  function Drive(rollbackOnFail: bool, n: Next, r: SyncRun, pulled: string): Next
    decreases StepsLeft(n.stage)
  {
    if n.stage.Leaving? then n
    else
      ReturnAdvances(rollbackOnFail, n, Reply(r, pulled, n.stage));
      Drive(rollbackOnFail, AfterReturn(rollbackOnFail, n.f, n.head, n.stage, Reply(r, pulled, n.stage)), r, pulled)
  }

  /** One command of the drive. */
  function Driven(rollbackOnFail: bool, n: Next, r: SyncRun, pulled: string): Next
    requires !n.stage.Leaving?
  {
    AfterReturn(rollbackOnFail, n.f, n.head, n.stage, Reply(r, pulled, n.stage))
  }

  lemma DriveStep(rollbackOnFail: bool, n: Next, r: SyncRun, pulled: string)
    requires !n.stage.Leaving?
    ensures Drive(rollbackOnFail, n, r, pulled) ==
            Drive(rollbackOnFail, Driven(rollbackOnFail, n, r, pulled), r, pulled)
  {
    hide AfterReturn, Reply;
  }

  /** Out, but not with a new stable commit. */
  predicate LeftWithout(stage: Stage) {
    stage == Leaving(GaveUp) || (stage.Leaving? && stage.how.Undone?)
  }

  predicate LeftIff(stage: Stage, synced: bool) {
    if synced then stage.Leaving? && stage.how.Synced? else LeftWithout(stage)
  }

  lemma DriveUndo(rollbackOnFail: bool, f: Fields, head: string, cause: string, r: SyncRun, pulled: string)
    ensures Drive(rollbackOnFail, Next(f, head, Failing(r.before, cause)), r, pulled).f
         == RecoveredFields(f, rollbackOnFail, r, cause)
    ensures LeftWithout(Drive(rollbackOnFail, Next(f, head, Failing(r.before, cause)), r, pulled).stage)
  {
    var n0 := Next(f, head, Failing(r.before, cause));
    DriveStep(rollbackOnFail, n0, r, pulled);
    if rollbackOnFail && !Blank(r.before) {
      DriveRollback(rollbackOnFail, MarkedFailed(f, cause), head, cause, r, pulled);
    }
  }

  lemma DriveRollback(rollbackOnFail: bool, f: Fields, head: string, cause: string, r: SyncRun, pulled: string)
    ensures Drive(rollbackOnFail, Next(f, head, RollingBack(r.before, cause)), r, pulled).f
         == if r.recovery.Some? then f else MarkedRolledBack(f, r.before, cause)
    ensures LeftWithout(Drive(rollbackOnFail, Next(f, head, RollingBack(r.before, cause)), r, pulled).stage)
  {
    hide Drive, Blank;
    var head' := if r.undone then r.before else pulled;
    var clean := r.undone && r.recomposed;
    var n1 := Next(f, head, RollingBack(r.before, cause));
    var n2 := Next(f, head', Recomposing(r.before, cause, r.undone));
    var n3 := Next(f, head', Rechecking(r.before, cause, clean));
    DriveStep(rollbackOnFail, n1, r, pulled);
    assert Driven(rollbackOnFail, n1, r, pulled) == n2;
    DriveStep(rollbackOnFail, n2, r, pulled);
    assert Driven(rollbackOnFail, n2, r, pulled) == n3;
    DriveStep(rollbackOnFail, n3, r, pulled);
    if r.recovery.None? {
      var n4 := Next(f, head', Recovered(r.before, cause, clean));
      assert Driven(rollbackOnFail, n3, r, pulled) == n4;
      DriveStep(rollbackOnFail, n4, r, pulled);
    }
    DriveEnds(rollbackOnFail, f, head', GaveUp, r, pulled);
    DriveEnds(rollbackOnFail, MarkedRolledBack(f, r.before, cause), head', Undone(r.before, clean), r, pulled);
  }

  lemma DriveEnds(rollbackOnFail: bool, f: Fields, head: string, how: Exit, r: SyncRun, pulled: string)
    ensures Drive(rollbackOnFail, Next(f, head, Leaving(how)), r, pulled) == Next(f, head, Leaving(how))
  {
  }

  lemma DriveDeploy(rollbackOnFail: bool, f: Fields, r: SyncRun, pulled: string)
    requires r.after == "" || r.after == pulled
    ensures Drive(rollbackOnFail, Next(f, pulled, ReadAfter(r.before)), r, pulled).f ==
            DeployedFields(f, rollbackOnFail, r)
    ensures LeftIff(Drive(rollbackOnFail, Next(f, pulled, ReadAfter(r.before)), r, pulled).stage,
                    r.compose.None? && r.health.None?)
  {
    var after := if r.after == "" then r.before else r.after;
    var f1 := AtCommit(f, after);
    var exact := r.after != "";
    var n1 := Next(f1, pulled, Composing(r.before, after, exact));
    assert Drive(rollbackOnFail, Next(f, pulled, ReadAfter(r.before)), r, pulled) ==
           Drive(rollbackOnFail, n1, r, pulled);
    if r.compose.Some? {
      DriveUndo(rollbackOnFail, f1, pulled, "compose up failed: " + r.compose.value, r, pulled);
    } else {
      var n2 := Next(f1, pulled, Checking(r.before, after, exact));
      assert Drive(rollbackOnFail, n1, r, pulled) == Drive(rollbackOnFail, n2, r, pulled);
      if r.health.Some? {
        DriveUndo(rollbackOnFail, f1, pulled, r.health.value, r, pulled);
      } else {
        var n3 := Next(f1, pulled, Passed(r.before, after, exact));
        assert Drive(rollbackOnFail, n2, r, pulled) == Drive(rollbackOnFail, n3, r, pulled);
        var n4 := Next(MarkedStable(f1, after), pulled, Leaving(Synced(after)));
        assert Drive(rollbackOnFail, n3, r, pulled) == Drive(rollbackOnFail, n4, r, pulled) == n4;
      }
    }
  }

  /** Run without interruption, the state machine leaves the fields exactly as the
      service's SyncNow does. */
  lemma MachineRefinesSyncNow(rollbackOnFail: bool, f: Fields, head: string, r: SyncRun, pulled: string)
    requires r.before == "" || r.before == head
    requires r.after == "" || r.after == pulled
    ensures Released(Drive(rollbackOnFail, Next(Taken(f), head, ReadBefore), r, pulled).f, r.finishedAt)
         == SyncedFields(f, rollbackOnFail, r)
    ensures LeftIff(Drive(rollbackOnFail, Next(Taken(f), head, ReadBefore), r, pulled).stage, AllSucceed(r))
  {
    var f1 := if r.before != "" then AtCommit(Taken(f), r.before) else Taken(f);
    var n1 := Next(f1, head, Fetching(r.before));
    assert Drive(rollbackOnFail, Next(Taken(f), head, ReadBefore), r, pulled) == Drive(rollbackOnFail, n1, r, pulled);
    DriveFetch(rollbackOnFail, f1, head, r, pulled);
  }

  lemma DriveFetch(rollbackOnFail: bool, f: Fields, head: string, r: SyncRun, pulled: string)
    requires r.after == "" || r.after == pulled
    ensures Drive(rollbackOnFail, Next(f, head, Fetching(r.before)), r, pulled).f == FetchedFields(f, rollbackOnFail, r)
    ensures LeftIff(Drive(rollbackOnFail, Next(f, head, Fetching(r.before)), r, pulled).stage, AllSucceed(r))
  {
    var n1 := Next(f, head, Fetching(r.before));
    if r.fetch.Some? {
      GivesUp(rollbackOnFail, n1, r, pulled, r.fetch.value);
    } else {
      var n2 := Next(f, head, CheckingOut(r.before));
      assert Drive(rollbackOnFail, n1, r, pulled) == Drive(rollbackOnFail, n2, r, pulled);
      if r.checkout.Some? {
        GivesUp(rollbackOnFail, n2, r, pulled, r.checkout.value);
      } else {
        var n3 := Next(f, pulled, Pulling(r.before));
        assert Drive(rollbackOnFail, n2, r, pulled) == Drive(rollbackOnFail, n3, r, pulled);
        if r.pull.Some? {
          GivesUp(rollbackOnFail, n3, r, pulled, r.pull.value);
        } else {
          var n4 := Next(f, pulled, ReadAfter(r.before));
          assert Drive(rollbackOnFail, n3, r, pulled) == Drive(rollbackOnFail, n4, r, pulled);
          DriveDeploy(rollbackOnFail, f, r, pulled);
        }
      }
    }
  }

  lemma GivesUp(rollbackOnFail: bool, n: Next, r: SyncRun, pulled: string, error: string)
    requires !n.stage.Leaving?
    requires var n' := AfterReturn(rollbackOnFail, n.f, n.head, n.stage, Reply(r, pulled, n.stage));
             n'.stage == Leaving(GaveUp) && n'.f == MarkedFailed(n.f, error)
    ensures Drive(rollbackOnFail, n, r, pulled).f == MarkedFailed(n.f, error)
    ensures Drive(rollbackOnFail, n, r, pulled).stage == Leaving(GaveUp)
  {
    var n' := AfterReturn(rollbackOnFail, n.f, n.head, n.stage, Reply(r, pulled, n.stage));
    assert Drive(rollbackOnFail, n, r, pulled) == Drive(rollbackOnFail, n', r, pulled) == n';
  }

  /** Likewise for a restore of the stable commit: the machine's restore stages leave the
      fields exactly as the service's RollbackLastStable does. */
  lemma MachineRefinesRollback(rollbackOnFail: bool, f: Fields, head: string, r: SyncRun, pulled: string)
    ensures Released(Drive(rollbackOnFail, Next(Taken(f), head, Restoring(f.lastStable)), r, pulled).f, r.finishedAt)
         == RestoredFields(f, r.checkout, r.compose, r.health, r.finishedAt)
    ensures Drive(rollbackOnFail, Next(Taken(f), head, Restoring(f.lastStable)), r, pulled).stage
         == Leaving(if r.checkout.None? && r.compose.None? && r.health.None? then RestoredTo(f.lastStable) else GaveUp)
  {
    var commit, f1 := f.lastStable, Taken(f);
    var n1 := Next(f1, head, Restoring(commit));
    if r.checkout.Some? {
      GivesUp(rollbackOnFail, n1, r, pulled, r.checkout.value);
    } else {
      DriveStep(rollbackOnFail, n1, r, pulled);
      DriveRestored(rollbackOnFail, f1, commit, r, pulled);
    }
  }

  lemma DriveRestored(rollbackOnFail: bool, f: Fields, commit: string, r: SyncRun, pulled: string)
    ensures Drive(rollbackOnFail, Next(f, commit, RestoreComposing(commit)), r, pulled).f
         == if r.compose.Some? then MarkedFailed(f, r.compose.value)
            else if r.health.Some? then MarkedFailed(f, r.health.value)
            else MarkedRolledBack(f, commit, "")
    ensures Drive(rollbackOnFail, Next(f, commit, RestoreComposing(commit)), r, pulled).stage
         == Leaving(if r.compose.None? && r.health.None? then RestoredTo(commit) else GaveUp)
  {
    var n2 := Next(f, commit, RestoreComposing(commit));
    if r.compose.Some? {
      GivesUp(rollbackOnFail, n2, r, pulled, r.compose.value);
    } else {
      var n3 := Next(f, commit, RestoreChecking(commit));
      DriveStep(rollbackOnFail, n2, r, pulled);
      if r.health.Some? {
        GivesUp(rollbackOnFail, n3, r, pulled, r.health.value);
      } else {
        var n4 := Next(f, commit, Restored(commit));
        DriveStep(rollbackOnFail, n3, r, pulled);
        DriveStep(rollbackOnFail, n4, r, pulled);
        DriveEnds(rollbackOnFail, MarkedRolledBack(f, commit, ""), commit, RestoredTo(commit), r, pulled);
      }
    }
  }

  /** What a sync returns is what happened: it returns no error if and only if each of its
      commands succeeded, which is when the machine leaves with a new stable commit, and
      otherwise the error that the machine records. */
  lemma SyncErrorIsTheMachines(rollbackOnFail: bool, f: Fields, head: string, r: SyncRun, pulled: string)
    requires r.before == "" || r.before == head
    requires r.after == "" || r.after == pulled
    ensures var out := Drive(rollbackOnFail, Next(Taken(f), head, ReadBefore), r, pulled);
            && out.stage.Leaving?
            && (FirstError(r).None? <==> AllSucceed(r))
            && (FirstError(r).None? <==> out.stage.how.Synced?)
            && (r.fetch.None? && r.checkout.None? && r.pull.None? && r.compose.Some? ==>
                  FirstError(r) == Some("compose up failed: " + r.compose.value))
            && (FirstError(r).Some? ==>
                  && out.f.lastError == FirstError(r).value
                  && out.f.lastResult ==
                     if r.fetch.None? && r.checkout.None? && r.pull.None? && rollbackOnFail && !Blank(r.before)
                        && r.recovery.None? then "rolled_back" else "failed")
  {
    hide Drive, Blank;
    MachineRefinesSyncNow(rollbackOnFail, f, head, r, pulled);
  }

  /** Likewise a restore returns no error if and only if the machine leaves with the stable
      commit restored, and otherwise the error it records. */
  lemma RestoreErrorIsTheMachines(rollbackOnFail: bool, f: Fields, head: string, r: SyncRun, pulled: string)
    ensures var out := Drive(rollbackOnFail, Next(Taken(f), head, Restoring(f.lastStable)), r, pulled);
            var error := FirstFailure(r.checkout, r.compose, r.health);
            && (error.None? <==> out.stage == Leaving(RestoredTo(f.lastStable)))
            && (error.None? <==> r.checkout.None? && r.compose.None? && r.health.None?)
            && (error.Some? ==> out.f.lastError == error.value && out.f.lastResult == "failed")
  {
    hide Drive;
    MachineRefinesRollback(rollbackOnFail, f, head, r, pulled);
  }

  /** An operation starts exactly when the flag is free and, for a restore, a stable commit is
      recorded; otherwise nothing happens. */
  lemma StartsIff(rollbackOnFail: bool, s: System, p: nat, ev: Event)
    requires p !in s.flights && (ev.StartSync? || ev.StartRollback?)
    ensures var s' := Step(rollbackOnFail, s, p, ev);
            && (p in s'.flights <==> !s.f.running && (ev.StartSync? || !Blank(s.f.lastStable)))
            && (p !in s'.flights ==> s' == s)
            && (p in s'.flights ==>
                  && s'.f == s.f.(running := true) && s'.head == s.head
                  && s'.flights[p].stage == if ev.StartSync? then ReadBefore else Restoring(s.f.lastStable))
  {
  }
}
