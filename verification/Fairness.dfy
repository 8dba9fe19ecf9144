// How long a queued task can be bypassed.
module Fairness {
  import opened Text
  import opened Models
  import opened Ids
  import opened PolicyGate
  import opened StoreModel
  import opened Orchestrator
  import opened Pipeline
  import opened CallEffects
  import opened ControlRuns
  import opened QueueRuns

  /** Creation stamps strictly increase. */
  ghost predicate Stamped(q: Queue, q': Queue) {
    forall new_, old_ | new_ in q'.tasks && new_ !in q.tasks && old_ in q.tasks ::
      q.tasks[old_].createdAt < q'.tasks[new_].createdAt
  }

  ghost predicate StampedRun(cfg: Config, st: Store, acts: seq<Activity>) {
    forall n {:trigger acts[..n]} | 0 <= n < |acts| ::
      Stamped(Run(cfg, st, acts[..n]).queue, Perform(cfg, Run(cfg, st, acts[..n]), acts[n]).queue)
  }

  ghost predicate DistinctStamps(q: Queue) {
    forall a, b | a in q.tasks && b in q.tasks && a != b :: q.tasks[a].createdAt != q.tasks[b].createdAt
  }

  /** The queued tasks served before x. */
  function AheadOf(q: Queue, x: string): set<string> {
    set id | id in q.tasks && x in q.tasks && q.tasks[id].status == Queued && Ahead(q.tasks[id], q.tasks[x])
  }

  /** The tasks created since q0 with a priority above p. */
  function NewAbove(q0: Queue, q: Queue, p: int): set<string> {
    set id | id in q.tasks && id !in q0.tasks && q.tasks[id].priority > p
  }

  /** What one step did to the queue, as far as serving x is concerned. */
  datatype QueueChange = Kept | Claimed(id: string) | Added(id: string)

  ghost predicate Changed(q: Queue, q': Queue, c: QueueChange) {
    && Survives(q, q')
    && match c
       case Kept => q'.tasks.Keys == q.tasks.Keys && q'.claims == q.claims
                    && forall id | id in q.tasks :: q'.tasks[id].status == Queued <==> q.tasks[id].status == Queued
       case Claimed(id) =>
         && q'.tasks.Keys == q.tasks.Keys && q'.claims == q.claims + [id] && Claimable(q, id)
         && forall i | i in q.tasks ::
              q'.tasks[i].status == Queued <==> q.tasks[i].status == Queued && i != id
       case Added(id) =>
         && id !in q.tasks && q'.tasks.Keys == q.tasks.Keys + {id} && q'.claims == q.claims
         && forall i | i in q.tasks :: q'.tasks[i].status == Queued <==> q.tasks[i].status == Queued
  }

  lemma PutTaskChange(q: Queue, task: AgentTask, parent: Option<string>)
    requires task.id !in q.tasks
    ensures Changed(q, PutTask(q, task, parent), Added(task.id))
  {
  }

  lemma CallChange(cfg: Config, st: Store, req: Request, clock: Clock, run: ToolRun) returns (c: QueueChange)
    requires KeysInv(st.queue, st.seqNo)
    ensures Changed(st.queue, Handle(cfg, st, req, clock, run).queue, c)
  {
    hide Handle, CounterOf, IdText, PutTask;
    CallQueueEffect(cfg, st, req, clock, run);
    var st' := Handle(cfg, st, req, clock, run);
    c := Kept;
    if st'.queue != st.queue {
      var seed, n, at :| && st.seqNo < n <= st'.seqNo
                         && st'.queue == PutTask(st.queue, TaskOf(seed, IdText("task", n), at), None);
      CounterOfIdText("task", n);
      PutTaskChange(st.queue, TaskOf(seed, IdText("task", n), at), None);
      c := Added(IdText("task", n));
    }
  }

  lemma ClaimChange(q: Queue, id: string, at: int)
    requires Claimable(q, id)
    ensures Changed(q, Claim(q, id, at), Claimed(id))
  {
    hide Ahead;
  }

  /** A task rewritten in place, not to or from the queued status. */
  lemma TouchChange(q: Queue, id: string, t: AgentTask)
    requires id in q.tasks
    requires t.kind == q.tasks[id].kind && t.priority == q.tasks[id].priority
             && t.maxAttempts == q.tasks[id].maxAttempts && t.createdAt == q.tasks[id].createdAt
    requires t.status == q.tasks[id].status
             || (q.tasks[id].status == TaskRunning && t.status in {TaskCompleted, TaskFailed})
    ensures Changed(q, q.(tasks := q.tasks[id := t]), Kept)
  {
  }

  lemma NoChange(q: Queue)
    ensures Changed(q, q, Kept)
  {
  }

  lemma BackgroundChange(st: Store, pending: Option<string>, op: Op) returns (c: QueueChange)
    requires QueueInv(st.queue, st.seqNo, pending) && Legal(st, pending, Background(op))
    requires !op.CreateTask?
    ensures Changed(st.queue, Apply(st, op).queue, c)
  {
    hide KeysInv, LineageInv, NextInv, AttemptsInv, KindInv, CounterOf, ReadMode, Changed, Claim, Claimable;
    var q := st.queue;
    c := Kept;
    NoChange(q);
    match op {
      case ClaimTask(id, at) =>
        ClaimChange(q, id, at);
        c := Claimed(id);
      case CompleteTask(id, result, error, at) =>
        TouchChange(q, id, Complete(q, id, result, error, at).tasks[id]);
      case _ =>
    }
  }

  lemma StepChange(cfg: Config, st: Store, pending: Option<string>, act: Activity) returns (c: QueueChange)
    requires QueueInv(st.queue, st.seqNo, pending) && Legal(st, pending, act)
    ensures Changed(st.queue, Perform(cfg, st, act).queue, c)
  {
    hide Handle, Changed, LineageInv, NextInv, AttemptsInv, KindInv, CounterOf, IdText, PutTask, ReadMode;
    match act {
      case Call(req, clock, run) => c := CallChange(cfg, st, req, clock, run);
      case Background(op) =>
        if op.CreateTask? {
          NewTaskIdIsFresh(st.queue, st.seqNo);
          PutTaskChange(st.queue, TaskOf(op.seed, IdText("task", st.seqNo + 1), op.at), op.parent);
          c := Added(IdText("task", st.seqNo + 1));
        } else {
          c := BackgroundChange(st, pending, op);
        }
    }
  }

  lemma ChangeKeepsDistinct(q: Queue, q': Queue, c: QueueChange)
    requires Changed(q, q', c) && Stamped(q, q') && DistinctStamps(q)
    ensures DistinctStamps(q')
  {
    hide Claimable;
  }

  lemma ClaimUsesUpOneAhead(q: Queue, q': Queue, id: string, x: string)
    requires Changed(q, q', Claimed(id)) && DistinctStamps(q)
    requires x in q.tasks && q.tasks[x].status == Queued && q'.tasks[x].status == Queued
    ensures id in AheadOf(q, x) && AheadOf(q', x) == AheadOf(q, x) - {id}
  {
    assert q.tasks[id].createdAt != q.tasks[x].createdAt;
  }

  lemma AddedAheadIsAbove(q: Queue, q': Queue, id: string, x: string)
    requires Changed(q, q', Added(id)) && Stamped(q, q')
    requires x in q.tasks && q.tasks[x].status == Queued
    ensures AheadOf(q', x) <= AheadOf(q, x) + if q'.tasks[id].priority > q.tasks[x].priority then {id} else {}
  {
    assert q.tasks[x].createdAt < q'.tasks[id].createdAt;
  }

  lemma KeptAhead(q: Queue, q': Queue, x: string)
    requires Changed(q, q', Kept) && x in q.tasks
    ensures AheadOf(q', x) == AheadOf(q, x) && q'.claims == q.claims
  {
  }

  /** The tasks that a change adds to those above priority p. */
  function AddedAbove(q': Queue, c: QueueChange, p: int): set<string> {
    if c.Added? && c.id in q'.tasks && q'.tasks[c.id].priority > p then {c.id} else {}
  }

  lemma NewAboveGrows(q0: Queue, q: Queue, q': Queue, c: QueueChange, p: int)
    requires Changed(q, q', c) && q0.tasks.Keys <= q.tasks.Keys
    ensures NewAbove(q0, q', p) == NewAbove(q0, q, p) + AddedAbove(q', c, p)
    ensures NewAbove(q0, q, p) !! AddedAbove(q', c, p)
  {
    hide Claimable;
  }

  /** Each claim of another task uses up one task ahead of x, and only tasks of
      higher priority get ahead of it later. */
  lemma ChangeSpendsPotential(q0: Queue, q: Queue, q': Queue, c: QueueChange, x: string)
    requires Changed(q, q', c) && Stamped(q, q') && DistinctStamps(q)
    requires x in q.tasks && q.tasks[x].status == Queued
    requires x in q'.tasks && q'.tasks[x].status == Queued
    requires q0.tasks.Keys <= q.tasks.Keys
    requires c.Claimed? ==> q'.claims == q.claims + [c.id]
    requires c.Added? ==> c.id in q'.tasks && q'.claims == q.claims
    ensures |q'.claims| + |AheadOf(q', x)| - |NewAbove(q0, q', q.tasks[x].priority)|
         <= |q.claims| + |AheadOf(q, x)| - |NewAbove(q0, q, q.tasks[x].priority)|
  {
    hide Changed, Stamped, DistinctStamps, AheadOf, NewAbove;
    var p := q.tasks[x].priority;
    NewAboveGrows(q0, q, q', c, p);
    assert |NewAbove(q0, q', p)| == |NewAbove(q0, q, p)| + |AddedAbove(q', c, p)|;
    match c {
      case Kept => KeptAhead(q, q', x);
      case Claimed(id) => ClaimUsesUpOneAhead(q, q', id, x);
      case Added(id) =>
        AddedAheadIsAbove(q, q', id, x);
        SubsetSize(AheadOf(q', x), AheadOf(q, x) + AddedAbove(q', c, p));
    }
  }

  lemma {:induction false} SubsetSize<T>(a: set<T>, b: set<T>)
    requires a <= b
    ensures |a| <= |b|
  {
    if a != {} {
      var x :| x in a;
      SubsetSize(a - {x}, b - {x});
    }
  }

  lemma PrefixOfPrefix(acts: seq<Activity>, n: nat)
    requires n < |acts|
    ensures acts[..|acts| - 1][..n] == acts[..n]
  {
  }

  lemma {:induction false} StampsStayDistinct(cfg: Config, nodes: seq<Node>, acts: seq<Activity>)
    requires LegalRun(cfg, FreshStore(nodes), acts) && StampedRun(cfg, FreshStore(nodes), acts)
    ensures DistinctStamps(Run(cfg, FreshStore(nodes), acts).queue)
  {
    hide Perform, Legal, QueueInv, PendingAfter;
    if acts != [] {
      var before := acts[..|acts| - 1];
      var st := Run(cfg, FreshStore(nodes), before);
      RunStep(cfg, FreshStore(nodes), acts);
      StampedPrefix(cfg, FreshStore(nodes), acts);
      StampsStayDistinct(cfg, nodes, before);
      RunKeepsQueueInv(cfg, nodes, before);
      var c := StepChange(cfg, st, PendingAfterAll(before), acts[|acts| - 1]);
      ChangeKeepsDistinct(st.queue, Run(cfg, FreshStore(nodes), acts).queue, c);
    }
  }

  lemma StampedPrefix(cfg: Config, st: Store, acts: seq<Activity>)
    requires acts != [] && StampedRun(cfg, st, acts)
    ensures StampedRun(cfg, st, acts[..|acts| - 1])
    ensures Stamped(Run(cfg, st, acts[..|acts| - 1]).queue, Run(cfg, st, acts).queue)
  {
    hide Run, Perform, Stamped;
    var before := acts[..|acts| - 1];
    RunStep(cfg, st, acts);
    forall n | 0 <= n < |before|
      ensures Stamped(Run(cfg, st, before[..n]).queue, Perform(cfg, Run(cfg, st, before[..n]), before[n]).queue)
    {
      PrefixOfPrefix(acts, n);
      assert acts[..n] == before[..n];
    }
  }

  /** Bounded bypass: while x waits, the worker makes at most as many claims as
      there were queued tasks ahead of x by priority, then age, plus the tasks
      of higher priority created meanwhile. */
  lemma {:induction false} BoundedBypass(cfg: Config, nodes: seq<Node>, acts: seq<Activity>, n: nat, x: string)
    requires LegalRun(cfg, FreshStore(nodes), acts) && StampedRun(cfg, FreshStore(nodes), acts)
    requires n <= |acts|
    ensures var q0 := Run(cfg, FreshStore(nodes), acts[..n]).queue;
            var q := Run(cfg, FreshStore(nodes), acts).queue;
            x in q0.tasks && x in q.tasks && q.tasks[x].status == Queued ==>
            && q0.tasks.Keys <= q.tasks.Keys
            && q.tasks[x].priority == q0.tasks[x].priority
            && |q.claims| - |q0.claims| + |AheadOf(q, x)| <= |AheadOf(q0, x)| + |NewAbove(q0, q, q0.tasks[x].priority)|
  {
    hide Perform, Legal, QueueInv, PendingAfter, DistinctStamps, Stamped, Changed;
    var q0 := Run(cfg, FreshStore(nodes), acts[..n]).queue;
    if n == |acts| {
      assert acts[..n] == acts;
      assert x in q0.tasks ==> NewAbove(q0, q0, q0.tasks[x].priority) == {};
    } else {
      var before := acts[..|acts| - 1];
      PrefixOfPrefix(acts, n);
      RunStep(cfg, FreshStore(nodes), acts);
      StampedPrefix(cfg, FreshStore(nodes), acts);
      var st := Run(cfg, FreshStore(nodes), before);
      RunKeepsQueueInv(cfg, nodes, before);
      NoTaskIsLost(cfg, nodes, before, n);
      var c := StepChange(cfg, st, PendingAfterAll(before), acts[|acts| - 1]);
      var q' := Run(cfg, FreshStore(nodes), acts).queue;
      ChangeIsSurvival(st.queue, q', c);
      BoundedBypass(cfg, nodes, before, n, x);
      StampsStayDistinct(cfg, nodes, before);
      if x in q0.tasks && x in q'.tasks && q'.tasks[x].status == Queued {
        ChangeSpendsPotential(q0, st.queue, q', c, x);
      }
    }
  }

  lemma ChangeIsSurvival(q: Queue, q': Queue, c: QueueChange)
    requires Changed(q, q', c)
    ensures Survives(q, q')
    ensures c.Claimed? ==> q'.claims == q.claims + [c.id]
    ensures c.Added? ==> c.id in q'.tasks && q'.claims == q.claims
  {
  }

  /** So a task that saw more claims than that has been claimed itself. */
  lemma EnoughClaimsServe(cfg: Config, nodes: seq<Node>, acts: seq<Activity>, n: nat, x: string)
    requires LegalRun(cfg, FreshStore(nodes), acts) && StampedRun(cfg, FreshStore(nodes), acts)
    requires n <= |acts|
    ensures var q0 := Run(cfg, FreshStore(nodes), acts[..n]).queue;
            var q := Run(cfg, FreshStore(nodes), acts).queue;
            x in q0.tasks
            && |q.claims| - |q0.claims| > |AheadOf(q0, x)| + |NewAbove(q0, q, q0.tasks[x].priority)| ==>
            x in q.claims
  {
    hide Run, LegalRun, StampedRun, LineageInv, NextInv, KindInv, AheadOf, NewAbove, CounterOf;
    RunKeepsQueueInv(cfg, nodes, acts);
    NoTaskIsLost(cfg, nodes, acts, n);
    var q0, q := Run(cfg, FreshStore(nodes), acts[..n]).queue, Run(cfg, FreshStore(nodes), acts).queue;
    if x in q0.tasks && q.tasks[x].status == Queued {
      BoundedBypass(cfg, nodes, acts, n, x);
    }
  }
}
