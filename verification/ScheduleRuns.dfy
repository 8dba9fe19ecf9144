// The scheduler's polls among everything else that happens to the queue: which recurring
// tasks a run creates, and when.
module ScheduleRuns {
  import opened Text
  import opened Models
  import opened Ids
  import opened StoreModel
  import opened Pipeline
  import opened ControlRuns
  import opened QueueRuns
  import opened Autonomy
  import opened WorkerRuns
  import opened Scheduler

  datatype Event = Poll(tool: string, minInterval: int, now: int) | Other(act: Activity)

  /** History: the activities so far, and the tasks created for each recurring tool. */
  datatype Diary = Diary(plan: Plan, acts: seq<Activity>, created: map<string, seq<string>>)

  function CreatedFor(d: Diary, tool: string): seq<string> {
    if tool in d.created then d.created[tool] else []
  }

  function Next(cfg: Config, d: Diary, e: Event): Diary {
    match e
    case Poll(tool, minInterval, now) =>
      var plan := Polled(d.plan, tool, minInterval, now);
      if Due(LastIn(d.plan.last, tool), minInterval, now) then
        Diary(plan, d.acts + [Background(CreateTask(ScheduledSeed(tool), None, now))],
              d.created[tool := CreatedFor(d, tool) + [IdText("task", d.plan.st.seqNo + 1)]])
      else d.(plan := plan)
    case Other(act) => d.(plan := Plan(Perform(cfg, d.plan.st, act), d.plan.last), acts := d.acts + [act])
  }

  function Schedule(cfg: Config, nodes: seq<Node>, events: seq<Event>): Diary {
    if events == [] then Diary(Plan(FreshStore(nodes), map[]), [], map[])
    else Next(cfg, Schedule(cfg, nodes, events[..|events| - 1]), events[|events| - 1])
  }

  /** Everyone else keeps to the queue's rules. */
  ghost predicate LegalSchedule(cfg: Config, nodes: seq<Node>, events: seq<Event>) {
    events == [] || (
      var d, e := Schedule(cfg, nodes, events[..|events| - 1]), events[|events| - 1];
      && LegalSchedule(cfg, nodes, events[..|events| - 1])
      && (e.Other? ==> Legal(d.plan.st, PendingAfterAll(d.acts), e.act)))
  }

  /** A tool is polled with one interval. */
  predicate OneInterval(events: seq<Event>, tool: string, minInterval: int) {
    forall e | e in events && e.Poll? && e.tool == tool :: e.minInterval == minInterval
  }

  function PollsOf(events: seq<Event>, tool: string): seq<int> {
    if events == [] then []
    else
      var e := events[|events| - 1];
      PollsOf(events[..|events| - 1], tool) + if e.Poll? && e.tool == tool then [e.now] else []
  }

  // ---- Such a schedule is a legal run ----

  lemma PollIsLegal(st: Store, pending: Option<string>, tool: string, now: int)
    ensures Legal(st, pending, Background(CreateTask(ScheduledSeed(tool), None, now)))
    ensures PendingAfter(pending, Background(CreateTask(ScheduledSeed(tool), None, now))) == pending
  {
  }

  lemma {:induction false} ScheduleIsLegal(cfg: Config, nodes: seq<Node>, events: seq<Event>)
    requires LegalSchedule(cfg, nodes, events)
    ensures var d := Schedule(cfg, nodes, events);
            LegalRun(cfg, FreshStore(nodes), d.acts) && d.plan.st == Run(cfg, FreshStore(nodes), d.acts)
  {
    hide Run, LegalRun, Legal, Perform, PendingAfterAll, PendingAfter, AddTask, ScheduledSeed;
    var st0 := FreshStore(nodes);
    if events == [] {
      EmptyRun(cfg, st0);
    } else {
      var before, e := events[..|events| - 1], events[|events| - 1];
      ScheduleIsLegal(cfg, nodes, before);
      var d := Schedule(cfg, nodes, before);
      match e {
        case Poll(tool, minInterval, now) =>
          if Due(LastIn(d.plan.last, tool), minInterval, now) {
            var act := Background(CreateTask(ScheduledSeed(tool), None, now));
            PollIsLegal(d.plan.st, PendingAfterAll(d.acts), tool, now);
            OneMore(cfg, st0, d.acts, act);
            assert Perform(cfg, d.plan.st, act) == Apply(d.plan.st, act.op) by { PerformOp(cfg, d.plan.st, act.op); }
          }
        case Other(act) => OneMore(cfg, st0, d.acts, act);
      }
    }
  }

  lemma PerformOp(cfg: Config, st: Store, op: Op)
    ensures Perform(cfg, st, Background(op)) == Apply(st, op)
  {
  }

  // ---- Which recurring tasks there are ----

  /** The i-th created task carries the i-th stamp, and the scheduler's priority and budget. */
  ghost predicate Stamped(q: Queue, tool: string, ids: seq<string>, stamps: seq<int>) {
    && |ids| == |stamps|
    && (forall i | 0 <= i < |ids| ::
          && ids[i] in q.tasks && q.tasks[ids[i]].kind == tool && q.tasks[ids[i]].createdAt == stamps[i]
          && q.tasks[ids[i]].priority == 50 && q.tasks[ids[i]].maxAttempts == 3)
    && (forall i, j | 0 <= i < j < |ids| :: ids[i] != ids[j])
  }

  lemma SurvivorsStayStamped(q: Queue, q': Queue, tool: string, ids: seq<string>, stamps: seq<int>)
    requires Stamped(q, tool, ids, stamps) && Survives(q, q')
    ensures Stamped(q', tool, ids, stamps)
  {
  }

  lemma PollStamps(st: Store, tool: string, now: int, ids: seq<string>, stamps: seq<int>)
    requires KeysInv(st.queue, st.seqNo) && Stamped(st.queue, tool, ids, stamps)
    ensures var st' := Apply(st, CreateTask(ScheduledSeed(tool), None, now));
            Stamped(st'.queue, tool, ids + [IdText("task", st.seqNo + 1)], stamps + [now])
  {
    hide IdText, CounterOf, IsTaskId;
    NewTaskIdIsFresh(st.queue, st.seqNo);
  }

  lemma PollKeepsStamps(cfg: Config, d: Diary, other: string, interval: int, now: int, tool: string,
                        minInterval: int, polls: seq<int>)
    requires QueueInv(d.plan.st.queue, d.plan.st.seqNo, PendingAfterAll(d.acts))
    requires Stamped(d.plan.st.queue, tool, CreatedFor(d, tool), Enqueued(minInterval, polls))
    requires LastIn(d.plan.last, tool) == Last(Enqueued(minInterval, polls))
    requires other == tool ==> interval == minInterval
    ensures var d' := Next(cfg, d, Poll(other, interval, now));
            var stamps := Enqueued(minInterval, polls + if other == tool then [now] else []);
            && Stamped(d'.plan.st.queue, tool, CreatedFor(d', tool), stamps)
            && LastIn(d'.plan.last, tool) == Last(stamps)
  {
    hide Legal, Perform, PendingAfterAll, ScheduledSeed, Stamped, LineageInv, NextInv, AttemptsInv, KindInv, Survives,
         IdText, CounterOf, AddTask, KeysInv;
    var st := d.plan.st;
    assert (polls + [now])[..|polls|] == polls && polls + [] == polls;
    if Due(LastIn(d.plan.last, other), interval, now) {
      if other == tool {
        PollStamps(st, tool, now, CreatedFor(d, tool), Enqueued(minInterval, polls));
      } else {
        var act := Background(CreateTask(ScheduledSeed(other), None, now));
        PollIsLegal(st, PendingAfterAll(d.acts), other, now);
        StepLosesNothing(cfg, st, PendingAfterAll(d.acts), act);
        PerformOp(cfg, st, act.op);
        SurvivorsStayStamped(st.queue, Apply(st, act.op).queue, tool, CreatedFor(d, tool),
                             Enqueued(minInterval, polls));
      }
    }
  }

  lemma OtherKeepsStamps(cfg: Config, d: Diary, act: Activity, tool: string, stamps: seq<int>)
    requires QueueInv(d.plan.st.queue, d.plan.st.seqNo, PendingAfterAll(d.acts))
    requires Legal(d.plan.st, PendingAfterAll(d.acts), act)
    requires Stamped(d.plan.st.queue, tool, CreatedFor(d, tool), stamps) && LastIn(d.plan.last, tool) == Last(stamps)
    ensures var d' := Next(cfg, d, Event.Other(act));
            && Stamped(d'.plan.st.queue, tool, CreatedFor(d', tool), stamps)
            && LastIn(d'.plan.last, tool) == Last(stamps)
  {
    hide Legal, Perform, PendingAfterAll, Stamped, QueueInv, Survives;
    StepLosesNothing(cfg, d.plan.st, PendingAfterAll(d.acts), act);
    SurvivorsStayStamped(d.plan.st.queue, Perform(cfg, d.plan.st, act).queue, tool, CreatedFor(d, tool), stamps);
  }

  lemma NothingIsStamped(cfg: Config, nodes: seq<Node>, tool: string, minInterval: int)
    ensures var d := Schedule(cfg, nodes, []);
            && PollsOf([], tool) == [] && Enqueued(minInterval, []) == []
            && Stamped(d.plan.st.queue, tool, CreatedFor(d, tool), []) && LastIn(d.plan.last, tool) == Last([])
  {
  }

  lemma ScheduleStep(cfg: Config, nodes: seq<Node>, events: seq<Event>, tool: string, minInterval: int)
    requires events != [] && LegalSchedule(cfg, nodes, events) && OneInterval(events, tool, minInterval)
    ensures var before, e := events[..|events| - 1], events[|events| - 1];
            var d := Schedule(cfg, nodes, before);
            && LegalSchedule(cfg, nodes, before) && OneInterval(before, tool, minInterval)
            && Schedule(cfg, nodes, events) == Next(cfg, d, e)
            && (e.Other? ==> Legal(d.plan.st, PendingAfterAll(d.acts), e.act))
            && (e.Poll? && e.tool == tool ==> e.minInterval == minInterval)
            && PollsOf(events, tool) == PollsOf(before, tool) + if e.Poll? && e.tool == tool then [e.now] else []
  {
    hide Next, Legal;
    assert forall x | x in events[..|events| - 1] :: x in events;
  }

  lemma {:induction false} StampsAre(cfg: Config, nodes: seq<Node>, events: seq<Event>, tool: string,
                                     minInterval: int)
    requires LegalSchedule(cfg, nodes, events) && OneInterval(events, tool, minInterval)
    ensures var d, stamps := Schedule(cfg, nodes, events), Enqueued(minInterval, PollsOf(events, tool));
            && Stamped(d.plan.st.queue, tool, CreatedFor(d, tool), stamps)
            && LastIn(d.plan.last, tool) == Last(stamps)
  {
    hide *;
    if events == [] {
      NothingIsStamped(cfg, nodes, tool, minInterval);
    } else {
      var before, e := events[..|events| - 1], events[|events| - 1];
      ScheduleStep(cfg, nodes, events, tool, minInterval);
      StampsAre(cfg, nodes, before, tool, minInterval);
      ScheduleIsLegal(cfg, nodes, before);
      var d, polls := Schedule(cfg, nodes, before), PollsOf(before, tool);
      RunKeepsQueueInv(cfg, nodes, d.acts);
      match e {
        case Other(act) =>
          OtherKeepsStamps(cfg, d, act, tool, Enqueued(minInterval, polls));
          assert polls + [] == polls;
        case Poll(other, interval, now) =>
          PollKeepsStamps(cfg, d, other, interval, now, tool, minInterval, polls);
      }
    }
  }

  /** In every run, whatever workers, calls and other tools do between the polls, the tasks
      the scheduler has created for a tool are in the queue, each under its own id and
      stamped with the instants of the recurrence, so consecutive ones are at least the
      interval apart. */
  lemma ScheduledTasksAreEnqueued(cfg: Config, nodes: seq<Node>, events: seq<Event>, tool: string,
                                  minInterval: int)
    requires LegalSchedule(cfg, nodes, events) && OneInterval(events, tool, minInterval)
    ensures var d, stamps := Schedule(cfg, nodes, events), Enqueued(minInterval, PollsOf(events, tool));
            var q, ids := d.plan.st.queue, CreatedFor(d, tool);
            && q == Run(cfg, FreshStore(nodes), d.acts).queue
            && Stamped(q, tool, ids, stamps)
            && forall i, j | 0 <= i < |ids| && 0 <= j < |ids| && Neighbours(stamps, i, j) ::
                 q.tasks[ids[j]].createdAt - q.tasks[ids[i]].createdAt >= minInterval
  {
    hide Run, Schedule, Enqueued, Neighbours, LegalSchedule, OneInterval, PollsOf;
    StampsAre(cfg, nodes, events, tool, minInterval);
    ScheduleIsLegal(cfg, nodes, events);
    EnqueuesAreSpaced(minInterval, PollsOf(events, tool));
  }
}
