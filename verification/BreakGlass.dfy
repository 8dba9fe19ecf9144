// backend/internal/breakglass/service.go: the time-boxed SSH access.
module BreakGlass {
  import opened Text

  datatype Box = Box(
    enabled: bool,
    enabledUntil: Option<int>,
    lastChangedBy: string,
    lastChangedAt: Option<int>,
    lastError: string,
    lastAutoDisableAt: Option<int>)

  const CLOSED := Box(false, None, "", None, "", None)

  function ActorName(actor: string): string {
    if Blank(actor) then "admin" else actor
  }

  /** `hook` is the error of the hook command, if it failed; `now` is read after it. */
  function Enabled(b: Box, duration: int, actor: string, hook: Option<string>, now: int): Box {
    if hook.Some? then b.(lastError := hook.value)
    else b.(enabled := true, enabledUntil := Some(now + duration), lastChangedBy := ActorName(actor),
            lastChangedAt := Some(now), lastError := "")
  }

  function Disabled(b: Box, actor: string, hook: Option<string>, now: int): Box {
    if hook.Some? then b.(lastError := hook.value)
    else b.(enabled := false, enabledUntil := None, lastChangedBy := ActorName(actor),
            lastChangedAt := Some(now), lastError := "")
  }

  /** autoDisableIfExpiredLocked; the hook's error is ignored. */
  function Expired(b: Box, now: int): Box {
    if b.enabled && !(b.enabledUntil.Some? && now < b.enabledUntil.value)
    then b.(enabled := false, lastAutoDisableAt := Some(now))
    else b
  }

  function Effective(duration: int, default: int): int {
    if duration <= 0 then default else duration
  }

  class Service {
    var enabled: bool
    var enabledUntil: Option<int>
    var lastChangedBy: string
    var lastChangedAt: Option<int>
    var lastError: string
    var lastAutoDisableAt: Option<int>
    const defaultDuration: int

    function View(): Box
      reads this
    {
      Box(enabled, enabledUntil, lastChangedBy, lastChangedAt, lastError, lastAutoDisableAt)
    }

    constructor (defaultMinutes: int)
      ensures View() == CLOSED
      ensures defaultDuration == (if defaultMinutes <= 0 then 60 else defaultMinutes) * 60_000_000_000
    {
      enabled, enabledUntil, lastChangedBy, lastChangedAt := false, None, "", None;
      lastError, lastAutoDisableAt := "", None;
      defaultDuration := (if defaultMinutes <= 0 then 60 else defaultMinutes) * 60_000_000_000;
    }

    method Enable(duration: int, actor: string, hook: Option<string>, now: int) returns (ok: bool)
      modifies this
      ensures View() == Enabled(old(View()), Effective(duration, defaultDuration), actor, hook, now)
      ensures ok <==> hook.None?
    {
      var name := actor;
      if Blank(name) {
        name := "admin";
      }
      var d := duration;
      if d <= 0 {
        d := defaultDuration;
      }
      if hook.Some? {
        lastError := hook.value;
        return false;
      }
      enabled := true;
      enabledUntil := Some(now + d);
      lastChangedBy, lastChangedAt, lastError := name, Some(now), "";
      ok := true;
    }

    method Disable(actor: string, hook: Option<string>, now: int) returns (ok: bool)
      modifies this
      ensures View() == Disabled(old(View()), actor, hook, now)
      ensures ok <==> hook.None?
    {
      var name := actor;
      if Blank(name) {
        name := "admin";
      }
      if hook.Some? {
        lastError := hook.value;
        return false;
      }
      enabled, enabledUntil := false, None;
      lastChangedBy, lastChangedAt, lastError := name, Some(now), "";
      ok := true;
    }

    method Status(now: int) returns (reported: bool)
      modifies this
      ensures View() == Expired(old(View()), now)
      ensures reported == enabled
    {
      if enabled && !(enabledUntil.Some? && now < enabledUntil.value) {
        enabled := false;
        lastAutoDisableAt := Some(now);
      }
      reported := enabled;
    }
  }

  // ---- Runs ----

  datatype Event =
    | EnableCall(duration: int, actor: string, hook: Option<string>, at: int)
    | DisableCall(actor: string, hook: Option<string>, at: int)
    | StatusCall(at: int)

  function Step(b: Box, e: Event, default: int): Box {
    match e
    case EnableCall(duration, actor, hook, at) => Enabled(b, Effective(duration, default), actor, hook, at)
    case DisableCall(actor, hook, at) => Disabled(b, actor, hook, at)
    case StatusCall(at) => Expired(b, at)
  }

  function After(events: seq<Event>, default: int): Box {
    if events == [] then CLOSED else Step(After(events[..|events| - 1], default), events[|events| - 1], default)
  }

  predicate InOrder(events: seq<Event>) {
    forall i, j | 0 <= i < j < |events| :: events[i].at <= events[j].at
  }

  /** A call whose hook succeeded. */
  predicate TookEffect(e: Event) {
    !e.StatusCall? && e.hook.None?
  }

  function LastEffect(events: seq<Event>): (i: int)
    ensures -1 <= i < |events|
    ensures i >= 0 ==> TookEffect(events[i])
    ensures forall j | i < j < |events| :: !TookEffect(events[j])
  {
    if events == [] then -1
    else if TookEffect(events[|events| - 1]) then |events| - 1
    else LastEffect(events[..|events| - 1])
  }

  /** The specification: the last call that took effect was an Enable whose box is
      still open. */
  predicate AccessOpen(events: seq<Event>, default: int, now: int) {
    var i := LastEffect(events);
    && i >= 0 && events[i].EnableCall?
    && now < events[i].at + if events[i].duration > 0 then events[i].duration else default
  }

  lemma {:induction false} BoxFollowsLastEffect(events: seq<Event>, default: int)
    requires InOrder(events)
    ensures var b, i := After(events, default), LastEffect(events);
            if i < 0 || events[i].DisableCall? then !b.enabled
            else
              var end := events[i].at + Effective(events[i].duration, default);
              && b.enabledUntil == Some(end)
              && (!b.enabled ==> events[|events| - 1].at >= end)
  {
    if events != [] {
      var init := events[..|events| - 1];
      BoxFollowsLastEffect(init, default);
      var last := events[|events| - 1];
      if !TookEffect(last) {
        assert LastEffect(events) == LastEffect(init);
        assert forall i | 0 <= i < |init| :: init[i] == events[i];
      }
    }
  }

  /** Over every run with failing or succeeding hooks, Status at `now` reports the access
      as enabled exactly while the last effective Enable's box is open. */
  lemma StatusIsTheTimeBox(events: seq<Event>, default: int, now: int)
    requires InOrder(events + [StatusCall(now)])
    ensures After(events + [StatusCall(now)], default).enabled <==> AccessOpen(events, default, now)
  {
    var all := events + [StatusCall(now)];
    assert all[..|all| - 1] == events;
    assert InOrder(events) by {
      forall i, j | 0 <= i < j < |events|
        ensures events[i].at <= events[j].at
      {
        assert all[i].at <= all[j].at;
      }
    }
    BoxFollowsLastEffect(events, default);
    if events != [] {
      assert all[|events| - 1].at <= all[|events|].at;
    }
  }

  predicate IsFailure(e: Event) {
    !e.StatusCall? && e.hook.Some?
  }

  function WithoutFailures(events: seq<Event>): seq<Event> {
    if events == [] then []
    else
      var before := WithoutFailures(events[..|events| - 1]);
      if IsFailure(events[|events| - 1]) then before else before + [events[|events| - 1]]
  }

  /** A failed Enable or Disable changes nothing but the recorded error: a run with its
      failed calls erased ends in the same state up to that error. */
  lemma {:induction false} FailedCallsAreInvisible(events: seq<Event>, default: int)
    ensures After(events, default).(lastError := "") == After(WithoutFailures(events), default).(lastError := "")
  {
    if events != [] {
      hide Step;
      var before, last := events[..|events| - 1], events[|events| - 1];
      FailedCallsAreInvisible(before, default);
      var kept := WithoutFailures(events);
      ErrorsDoNotMatter(After(before, default), After(WithoutFailures(before), default), last, default);
      if !IsFailure(last) {
        assert kept[..|kept| - 1] == WithoutFailures(before);
      }
    }
  }

  lemma ErrorsDoNotMatter(b: Box, c: Box, e: Event, default: int)
    requires b.(lastError := "") == c.(lastError := "")
    ensures Step(b, e, default).(lastError := "") ==
            if IsFailure(e) then b.(lastError := "") else Step(c, e, default).(lastError := "")
  {
    hide Blank, Effective;
  }

  /** The error on record is that of the last call if its hook failed, and cleared by the next
      one that succeeds. */
  function LastCall(events: seq<Event>): (i: int)
    ensures -1 <= i < |events|
    ensures i >= 0 ==> !events[i].StatusCall?
    ensures forall j | i < j < |events| :: events[j].StatusCall?
  {
    if events == [] then -1
    else if !events[|events| - 1].StatusCall? then |events| - 1
    else LastCall(events[..|events| - 1])
  }

  lemma {:induction false} ErrorIsTheLastCalls(events: seq<Event>, default: int)
    ensures var i := LastCall(events);
            After(events, default).lastError ==
            if i >= 0 && events[i].hook.Some? then events[i].hook.value else ""
  {
    if events != [] {
      ErrorIsTheLastCalls(events[..|events| - 1], default);
    }
  }

  /** Who changed the access last, when, and until when: the last call that took effect. */
  lemma {:induction false} ChangeIsTheLastEffects(events: seq<Event>, default: int)
    ensures var b, i := After(events, default), LastEffect(events);
            if i < 0 then b.lastChangedBy == "" && b.lastChangedAt == None && b.enabledUntil == None
            else
              && b.enabledUntil ==
                 (if events[i].DisableCall? then None
                  else Some(events[i].at + if events[i].duration > 0 then events[i].duration else default))
              && b.lastChangedAt == Some(events[i].at)
              && b.lastChangedBy == if Blank(events[i].actor) then "admin" else events[i].actor
  {
    if events != [] {
      hide Blank;
      ChangeIsTheLastEffects(events[..|events| - 1], default);
    }
  }

  /** The access is closed automatically at, and only at, a status call that finds the box of
      an enabled access past its end. */
  lemma AutoDisableIff(b: Box, e: Event, default: int)
    ensures var b' := Step(b, e, default);
            b'.lastAutoDisableAt != b.lastAutoDisableAt ==>
              && e.StatusCall? && b.enabled && !b'.enabled && b'.lastAutoDisableAt == Some(e.at)
              && (b.enabledUntil.Some? ==> b.enabledUntil.value <= e.at)
    ensures e.StatusCall? && b.enabled && b.enabledUntil.Some? && b.enabledUntil.value <= e.at ==>
              !Step(b, e, default).enabled && Step(b, e, default).lastAutoDisableAt == Some(e.at)
  {
  }
}
