// The maps that stored records share with others: which stored contents change after
// the call that stored them has returned, and which rows fall behind.
module SharedMaps {
  import opened Text
  import opened Models
  import opened Ids
  import opened StoreModel
  import opened Orchestrator
  import opened Pipeline
  import opened CallEffects
  import opened ControlRuns
  import opened ControlTheorems
  import opened Retry
  import opened QueueRuns
  import opened Autonomy
  import opened WorkerRuns
  import opened WorkerMoves

  /** What matters for payload maps. `holding` is the claimed task whose id the worker has not
      written yet. */
  datatype View = View(
    tasks: map<string, AgentTask>,
    next: map<string, string>,
    payloads: map<string, Params>,
    lastTag: map<string, string>,
    holding: Option<string>)

  function ViewOf(w: World): View {
    View(w.st.queue.tasks, w.st.queue.next, w.st.heap.payloads, w.st.heap.lastTag,
         if w.phase.Holding? then Some(w.phase.task.id) else None)
  }

  /** The worker has written t's id into t's parameters. */
  predicate Written(v: View, t: string) {
    t in v.tasks && v.tasks[t].status != Queued && !IsDeadLetter(v.tasks[t].kind) && v.holding != Some(t)
  }

  /** The successor of t shares t's payload map and the worker has written into it. */
  predicate RetryWritten(v: View, t: string) {
    && t in v.tasks && t in v.next && v.next[t] in v.tasks
    && v.tasks[v.next[t]].payload == v.tasks[t].payload
    && Written(v, v.next[t])
  }

  // ---- The invariant ----

  /** Successors belong to failed tasks, which are no dead letters. */
  ghost predicate NextFacts(v: View) {
    forall p | p in v.next ::
      && p in v.tasks && v.tasks[p].status == TaskFailed && !IsDeadLetter(v.tasks[p].kind)
      && v.next[p] in v.tasks
  }

  ghost predicate HasPrev(v: View, t: string) {
    exists p ::
      p in v.next && v.next[p] == t && p in v.tasks && t in v.tasks && v.tasks[p].payload == v.tasks[t].payload
  }

  ghost predicate CellOk(v: View, t: string) {
    t in v.tasks && v.tasks[t].payload.Some? ==>
      var c := v.tasks[t].payload.value;
      && c in v.payloads && c in v.tasks && v.tasks[c].payload == Some(c)
      && (t != c ==> v.tasks[c].status == TaskFailed && HasPrev(v, t))
  }

  /** Every payload map was made for a task, and the other tasks that have it come after
      that task in its lineage. */
  ghost predicate CellsInv(v: View) {
    && (forall c | c in v.payloads :: c in v.tasks)
    && (forall t {:trigger CellOk(v, t)} :: CellOk(v, t))
  }

  ghost predicate TagOk(v: View, t: string) {
    Written(v, t) && v.tasks[t].payload.Some? ==>
      var c := v.tasks[t].payload.value;
      c in v.lastTag && (v.lastTag[c] == t <==> !RetryWritten(v, t))
  }

  /** The last task written into a map is the newest of its tasks that has been called for,
      and the map says so. */
  ghost predicate TagInv(v: View) {
    && (forall t {:trigger TagOk(v, t)} :: TagOk(v, t))
    && (forall c | c in v.lastTag ::
          && c in v.payloads && Written(v, v.lastTag[c]) && v.tasks[v.lastTag[c]].payload == Some(c)
          && RECONCILE_KEY in v.payloads[c] && v.payloads[c][RECONCILE_KEY] == Str(v.lastTag[c]))
  }

  /** A job with a shared input was called for by the worker, for the task that is its key. */
  ghost predicate InputsInv(v: View, jobs: map<string, Job>) {
    forall id | id in jobs && jobs[id].input.Shared? ::
      && Written(v, jobs[id].idemKey)
      && v.tasks[jobs[id].idemKey].payload == Some(jobs[id].input.cell)
  }

  // ---- One change at a time ----

  lemma NewTaskKeepsCells(v: View, y: string, t: AgentTask, payload: Payload)
    requires CellsInv(v) && NextFacts(v) && y !in v.tasks && t.status == Queued
    requires !payload.SameAs? && t.payload == PayloadCell(payload, y)
    ensures var v' := v.(tasks := v.tasks[y := t],
                         payloads := Allocated(Heap(v.payloads, map[], map[]), payload, y).payloads);
            CellsInv(v')
  {
    var v' := v.(tasks := v.tasks[y := t], payloads := Allocated(Heap(v.payloads, map[], map[]), payload, y).payloads);
    forall x
      ensures CellOk(v', x)
    {
      assert CellOk(v, x);
      if x != y && x in v.tasks && v.tasks[x].payload.Some? && x != v.tasks[x].payload.value {
        var p :| p in v.next && v.next[p] == x && p in v.tasks && v.tasks[p].payload == v.tasks[x].payload;
        assert v'.next[p] == x;
      }
    }
  }

  lemma NewTaskKeepsTags(v: View, v': View, y: string, t: AgentTask)
    requires TagInv(v) && NextFacts(v) && y !in v.tasks && t.status == Queued
    requires v'.tasks == v.tasks[y := t] && v'.lastTag == v.lastTag && v'.holding == v.holding
    requires forall p | p in v.next :: p in v'.next && v'.next[p] == v.next[p]
    requires forall p | p in v'.next && p !in v.next :: v'.next[p] == y
    requires forall c | c in v.payloads :: c in v'.payloads && v'.payloads[c] == v.payloads[c]
    ensures TagInv(v')
    ensures forall x | x in v.tasks :: Written(v', x) <==> Written(v, x)
  {
    forall x
      ensures TagOk(v', x)
    {
      assert TagOk(v, x);
    }
  }

  lemma RetryKeepsCells(v: View, p: string, y: string, t: AgentTask)
    requires CellsInv(v) && NextFacts(v) && y !in v.tasks && t.status == Queued
    requires p in v.tasks && v.tasks[p].status == TaskFailed && p !in v.next
    requires t.payload == v.tasks[p].payload
    ensures CellsInv(v.(tasks := v.tasks[y := t], next := v.next[p := y]))
  {
    var v' := v.(tasks := v.tasks[y := t], next := v.next[p := y]);
    assert CellOk(v, p);
    forall x
      ensures CellOk(v', x)
    {
      assert CellOk(v, x);
      if x == y {
        assert v'.next[p] == y;
      } else if x in v.tasks && v.tasks[x].payload.Some? && x != v.tasks[x].payload.value {
        var o :| o in v.next && v.next[o] == x && o in v.tasks && v.tasks[o].payload == v.tasks[x].payload;
        assert v'.next[o] == x;
      }
    }
  }

  lemma DeadLetterKeepsCells(v: View, p: string, y: string, t: AgentTask, params: Params)
    requires CellsInv(v) && NextFacts(v) && y !in v.tasks && t.status == Queued && p !in v.next
    requires t.payload == Some(y)
    ensures CellsInv(v.(tasks := v.tasks[y := t], next := v.next[p := y], payloads := v.payloads[y := params]))
  {
    var v' := v.(tasks := v.tasks[y := t], next := v.next[p := y], payloads := v.payloads[y := params]);
    forall x
      ensures CellOk(v', x)
    {
      assert CellOk(v, x);
      if x != y && x in v.tasks && v.tasks[x].payload.Some? && x != v.tasks[x].payload.value {
        var o :| o in v.next && v.next[o] == x && o in v.tasks && v.tasks[o].payload == v.tasks[x].payload;
        assert v'.next[o] == x;
      }
    }
  }

  /** A task moves on to another status. */
  lemma StatusKeepsCells(v: View, v': View, id: string)
    requires CellsInv(v) && id in v.tasks && v.tasks[id].status != TaskFailed && id in v'.tasks
    requires v'.tasks == v.tasks[id := v'.tasks[id]] && v'.tasks[id].payload == v.tasks[id].payload
    requires v'.next == v.next && v'.payloads == v.payloads
    ensures CellsInv(v')
  {
    forall x
      ensures CellOk(v', x)
    {
      assert CellOk(v, x);
      if x in v.tasks && v.tasks[x].payload.Some? && x != v.tasks[x].payload.value {
        var o :| o in v.next && v.next[o] == x && o in v.tasks && v.tasks[o].payload == v.tasks[x].payload;
        assert v'.next[o] == x;
      }
    }
  }

  /** Nothing that has been written into changes, and nothing else becomes so. */
  lemma StatusKeepsTags(v: View, v': View)
    requires TagInv(v) && v'.tasks.Keys == v.tasks.Keys && v'.next == v.next
    requires v'.payloads == v.payloads && v'.lastTag == v.lastTag
    requires forall x | x in v.tasks :: v'.tasks[x].payload == v.tasks[x].payload && (Written(v', x) <==> Written(v, x))
    ensures TagInv(v')
  {
    forall x
      ensures TagOk(v', x)
    {
      assert TagOk(v, x);
    }
  }

  /** The write itself: every task that the map named before now has a successor that has
      been written, namely this one. */
  lemma WriteKeepsTags(v: View, x: string, c: string)
    requires CellsInv(v) && TagInv(v) && NextFacts(v)
    requires v.holding == Some(x) && x in v.tasks && v.tasks[x].status == TaskRunning && !IsDeadLetter(v.tasks[x].kind)
    requires v.tasks[x].payload == Some(c)
    ensures c in v.payloads
    ensures TagInv(v.(payloads := v.payloads[c := v.payloads[c][RECONCILE_KEY := Str(x)]],
                      lastTag := v.lastTag[c := x], holding := None))
  {
    assert CellOk(v, x);
    var v' := v.(payloads := v.payloads[c := v.payloads[c][RECONCILE_KEY := Str(x)]],
                 lastTag := v.lastTag[c := x], holding := None);
    forall t
      ensures TagOk(v', t)
    {
      assert TagOk(v, t) && CellOk(v, t);
      if t != x && Written(v', t) && v.tasks[t].payload == Some(c) && !RetryWritten(v, t) {
        assert v.lastTag[c] == t;
        var p :| p in v.next && v.next[p] == x && p in v.tasks && v.tasks[p].payload == v.tasks[x].payload;
        assert TagOk(v, p) && Written(v, p) && !RetryWritten(v, p);
      }
    }
  }

  /** A task without a payload map is written to as well, but no map is. */
  lemma PlainWriteKeepsTags(v: View, x: string)
    requires TagInv(v) && x in v.tasks && v.tasks[x].payload.None?
    ensures TagInv(v.(holding := None)) || v.holding != Some(x)
  {
    var v' := v.(holding := None);
    if v.holding == Some(x) {
      forall t
        ensures TagOk(v', t)
      {
        assert TagOk(v, t);
      }
    }
  }

  // ---- Moves ----

  ghost predicate ShareInv(w: World) {
    && CellsInv(ViewOf(w))
    && TagInv(ViewOf(w))
    && InputsInv(ViewOf(w), w.st.ledger.jobs)
  }

  lemma NextFactsHold(w: World, pending: Option<string>)
    requires NextInv(w.st.queue, pending)
    ensures NextFacts(ViewOf(w))
  {
    forall p | p in w.st.queue.next
      ensures && p in w.st.queue.tasks && w.st.queue.tasks[p].status == TaskFailed
              && !IsDeadLetter(w.st.queue.tasks[p].kind) && w.st.queue.next[p] in w.st.queue.tasks
    {
      assert HasNext(w.st.queue, p);
    }
  }

  lemma InputsAreKept(v: View, v': View, jobs: map<string, Job>)
    requires InputsInv(v, jobs)
    requires forall x | x in v.tasks :: x in v'.tasks && v'.tasks[x].payload == v.tasks[x].payload
    requires forall x | Written(v, x) :: Written(v', x)
    ensures InputsInv(v', jobs)
  {
    hide Written;
    assert forall x | Written(v, x) :: x in v.tasks by { WrittenIsTask(v); }
  }

  lemma WrittenIsTask(v: View)
    ensures forall x | Written(v, x) :: x in v.tasks
  {
  }

  /** What a call may do to the jobs: add one with the request's own map and key. */
  lemma CallJobs(cfg: Config, st: Store, req: Request, clock: Clock, run: ToolRun)
    ensures var jobs, jobs' := st.ledger.jobs, Handle(cfg, st, req, clock, run).ledger.jobs;
            forall id | id in jobs' ::
              || (id in jobs && jobs'[id] == jobs[id])
              || (jobs'[id].input == InputOf(req) && jobs'[id].idemKey == req.idemKey)
  {
    hide Handle, Answered, Assess, AuditOf, IncidentsOf, CounterOf, IdText, Path, InputOf;
    if Answered(st, req) {
      AnsweredIsInert(cfg, st, req, clock, run);
    } else {
      CallEffect(cfg, st, req, clock, run);
    }
  }

  lemma TaskOfKeepsId(seed: TaskSeed, id: string, at: int)
    ensures TaskOf(seed, id, at).id == id && TaskOf(seed, id, at).status == Queued
    ensures TaskOf(seed, id, at).payload == PayloadCell(seed.payload, id)
  {
  }

  /** And what to the tasks and their payload maps. */
  lemma CallView(cfg: Config, w: World, req: Request, clock: Clock, run: ToolRun, phase: Phase)
    requires KeysInv(w.st.queue, w.st.seqNo) && (phase.Holding? <==> w.phase.Holding?)
    requires phase.Holding? ==> phase == w.phase
    ensures var v, v' := ViewOf(w), ViewOf(World(Handle(cfg, w.st, req, clock, run), phase));
            || v' == v
            || exists y: string, seed: NewSeed, at: int ::
                 && y !in v.tasks
                 && v' == v.(tasks := v.tasks[y := TaskOf(seed, y, at)],
                             payloads := Allocated(Heap(v.payloads, map[], map[]), seed.payload, y).payloads)
  {
    hide Handle, Answered, Assess, CounterOf, IdText, TaskOf, Touched;
    var st := w.st;
    if Answered(st, req) {
      AnsweredIsInert(cfg, st, req, clock, run);
    } else {
      CallQueueExactly(cfg, st, req, clock, run);
      if Assess(cfg, st, req, clock).decision.allow && run.effect.newTask.Some? {
        var n := st.seqNo + 2 + run.effect.idsTaken + 1;
        var y := IdText("task", n);
        CounterOfIdText("task", n);
        var seed, at := run.effect.newTask.value, run.effect.at;
        var v, v' := ViewOf(w), ViewOf(World(Handle(cfg, st, req, clock, run), phase));
        assert y !in v.tasks;
        TaskOfKeepsId(seed, y, at);
        assert v'.tasks == v.tasks[y := TaskOf(seed, y, at)];
        assert v' == v.(tasks := v.tasks[y := TaskOf(seed, y, at)],
                        payloads := Allocated(Heap(v.payloads, map[], map[]), seed.payload, y).payloads);
      }
    }
  }

  lemma RootKeepsShares(v: View, y: string, seed: NewSeed, at: int, jobs: map<string, Job>)
    requires CellsInv(v) && TagInv(v) && InputsInv(v, jobs) && NextFacts(v) && y !in v.tasks
    ensures var v' := v.(tasks := v.tasks[y := TaskOf(seed, y, at)],
                         payloads := Allocated(Heap(v.payloads, map[], map[]), seed.payload, y).payloads);
            CellsInv(v') && TagInv(v') && InputsInv(v', jobs)
  {
    var t := TaskOf(seed, y, at);
    var v' := v.(tasks := v.tasks[y := t],
                 payloads := Allocated(Heap(v.payloads, map[], map[]), seed.payload, y).payloads);
    assert y !in v.payloads;
    hide CellsInv, TagInv, InputsInv, Written;
    NewTaskKeepsCells(v, y, t, seed.payload);
    NewTaskKeepsTags(v, v', y, t);
    WrittenIsTask(v);
    InputsAreKept(v, v', jobs);
  }

  lemma CallKeepsShares(cfg: Config, w: World, req: Request, clock: Clock, run: ToolRun, phase: Phase)
    requires KeysInv(w.st.queue, w.st.seqNo) && NextFacts(ViewOf(w)) && ShareInv(w)
    requires (phase.Holding? <==> w.phase.Holding?) && (phase.Holding? ==> phase == w.phase)
    requires InputOf(req).Shared? ==>
               && Written(ViewOf(w), req.idemKey)
               && w.st.queue.tasks[req.idemKey].payload == Some(InputOf(req).cell)
    ensures ShareInv(World(Handle(cfg, w.st, req, clock, run), phase))
  {
    hide Handle, CellsInv, TagInv, NextFacts, Written, InputOf, TaskOf, Allocated, KeysInv;
    var v, w' := ViewOf(w), World(Handle(cfg, w.st, req, clock, run), phase);
    CallJobs(cfg, w.st, req, clock, run);
    CallView(cfg, w, req, clock, run, phase);
    assert InputsInv(v, w'.st.ledger.jobs);
    if ViewOf(w') != v {
      var y: string, seed: NewSeed, at: int :|
        && y !in v.tasks
        && ViewOf(w') == v.(tasks := v.tasks[y := TaskOf(seed, y, at)],
                            payloads := Allocated(Heap(v.payloads, map[], map[]), seed.payload, y).payloads);
      RootKeepsShares(v, y, seed, at, w'.st.ledger.jobs);
    }
  }

  lemma TheirMoveKeepsShares(cfg: Config, w: World, act: Activity)
    requires QueueInv(w.st.queue, w.st.seqNo, PendingOf(w.phase)) && OthersMay(act) && ShareInv(w)
    ensures ShareInv(World(Perform(cfg, w.st, act), w.phase))
  {
    hide LineageInv, AttemptsInv, KindInv, NextInv, CounterOf, IdText, Handle, CellsInv, TagInv, InputsInv, NextFacts,
         Written, TaskOf, Allocated, Touched;
    NextFactsHold(w, PendingOf(w.phase));
    var w' := World(Perform(cfg, w.st, act), w.phase);
    match act {
      case Call(req, clock, run) =>
        assert InputOf(req).Own?;
        CallKeepsShares(cfg, w, req, clock, run, w.phase);
      case Background(op) =>
        if op.CreateTask? {
          NewTaskIdIsFresh(w.st.queue, w.st.seqNo);
          var y := IdText("task", w.st.seqNo + 1);
          TaskOfKeepsId(op.seed, y, op.at);
          assert ViewOf(w') == ViewOf(w).(tasks := w.st.queue.tasks[y := TaskOf(op.seed, y, op.at)],
              payloads := Allocated(Heap(w.st.heap.payloads, map[], map[]), op.seed.payload, y).payloads) by {
            AllocatedPayloads(w.st.heap, op.seed.payload, y);
          }
          RootKeepsShares(ViewOf(w), y, op.seed, op.at, w.st.ledger.jobs);
        } else {
          assert ViewOf(w') == ViewOf(w) && w'.st.ledger == w.st.ledger;
        }
    }
  }

  lemma AllocatedPayloads(h: Heap, payload: Payload, id: string)
    ensures Allocated(h, payload, id).payloads == Allocated(Heap(h.payloads, map[], map[]), payload, id).payloads
    ensures Allocated(h, payload, id).lastTag == h.lastTag && Allocated(h, payload, id).outputs == h.outputs
  {
  }

  lemma ClaimKeepsShares(cfg: Config, w: World, act: Activity)
    requires KeysInv(w.st.queue, w.st.seqNo) && ShareInv(w)
    requires w.phase.Resting? && WorkerMay(w, act)
    ensures ShareInv(World(Perform(cfg, w.st, act), NextPhase(cfg, w, act)))
  {
    hide Claimable, CounterOf, CellsInv, TagInv, InputsInv, IsDeadLetter, Handle;
    ClaimableIsTask(w.st.queue, act.op.id);
    var v, v' := ViewOf(w), ViewOf(World(Perform(cfg, w.st, act), NextPhase(cfg, w, act)));
    assert v'.holding == Some(act.op.id);
    StatusKeepsCells(v, v', act.op.id);
    StatusKeepsTags(v, v');
    InputsAreKept(v, v', w.st.ledger.jobs);
  }

  /** The worker writes into the payload of the task it has claimed. */
  lemma TagKeepsShares(cfg: Config, w: World, act: Activity)
    requires PhaseInv(w) && ShareInv(w) && NextFacts(ViewOf(w))
    requires w.phase.Holding? && !IsDeadLetter(w.phase.task.kind) && WorkerMay(w, act)
    ensures ShareInv(World(Perform(cfg, w.st, act), NextPhase(cfg, w, act)))
  {
    hide CellsInv, TagInv, InputsInv, NextFacts, IsDeadLetter, Handle, IsTaskId;
    var x := w.phase.task.id;
    var v, v' := ViewOf(w), ViewOf(World(Perform(cfg, w.st, act), NextPhase(cfg, w, act)));
    var payload := w.st.queue.tasks[x].payload;
    if payload.None? {
      PlainWriteKeepsTags(v, x);
      assert v' == v.(holding := None);
    } else {
      WriteKeepsTags(v, x, payload.value);
      assert v' == v.(payloads := v.payloads[payload.value := v.payloads[payload.value][RECONCILE_KEY := Str(x)]],
                      lastTag := v.lastTag[payload.value := x], holding := None);
    }
    CellsFollowKeys(v, v');
    InputsAreKept(v, v', w.st.ledger.jobs);
  }

  lemma CellsFollowKeys(v: View, v': View)
    requires CellsInv(v) && v'.tasks == v.tasks && v'.next == v.next && v'.payloads.Keys == v.payloads.Keys
    ensures CellsInv(v')
  {
    forall x
      ensures CellOk(v', x)
    {
      assert CellOk(v, x);
      if x in v.tasks && v.tasks[x].payload.Some? && x != v.tasks[x].payload.value {
        var o :| o in v.next && v.next[o] == x && o in v.tasks && v.tasks[o].payload == v.tasks[x].payload;
        assert v'.next[o] == x;
      }
    }
  }

  lemma EndKeepsShares(cfg: Config, w: World, act: Activity)
    requires PhaseInv(w) && ShareInv(w) && WorkerMay(w, act)
    requires w.phase.Heard? || (w.phase.Holding? && IsDeadLetter(w.phase.task.kind))
    ensures ShareInv(World(Perform(cfg, w.st, act), NextPhase(cfg, w, act)))
  {
    hide CellsInv, TagInv, InputsInv, IsDeadLetter, Handle, IsTaskId;
    var x := w.phase.task.id;
    var v, v' := ViewOf(w), ViewOf(World(Perform(cfg, w.st, act), NextPhase(cfg, w, act)));
    StatusKeepsCells(v, v', x);
    StatusKeepsTags(v, v');
    InputsAreKept(v, v', w.st.ledger.jobs);
  }

  lemma SuccessorPayload(failed: AgentTask, y: string, at: int)
    ensures var t := TaskOf(SuccessorSeed(failed), y, at);
            || (t.payload == failed.payload && !SuccessorSeed(failed).payload.Fresh?)
            || (t.payload == Some(y) && SuccessorSeed(failed).payload.Fresh?)
  {
  }

  /** The successor shares the failed task's map or, as a dead letter, has its own. */
  lemma OweKeepsShares(cfg: Config, w: World, act: Activity)
    requires QueueInv(w.st.queue, w.st.seqNo, PendingOf(w.phase)) && ShareInv(w)
    requires w.phase.Owing? && WorkerMay(w, act)
    ensures ShareInv(World(Perform(cfg, w.st, act), NextPhase(cfg, w, act)))
  {
    NextFactsHold(w, PendingOf(w.phase));
    var p, q := w.phase.id, w.st.queue;
    assert p in q.tasks && q.tasks[p].status == TaskFailed && p !in q.next;
    OwedKeepsShares(cfg, w, act);
  }

  lemma OwedKeepsShares(cfg: Config, w: World, act: Activity)
    requires KeysInv(w.st.queue, w.st.seqNo) && NextFacts(ViewOf(w)) && ShareInv(w)
    requires w.phase.Owing? && WorkerMay(w, act)
    requires w.st.queue.tasks[w.phase.id].status == TaskFailed && w.phase.id !in w.st.queue.next
    ensures ShareInv(World(Perform(cfg, w.st, act), NextPhase(cfg, w, act)))
  {
    hide CounterOf, IdText, CellsInv, TagInv, InputsInv, NextFacts, Written, TaskOf, SuccessorSeed, Handle, KeysInv;
    var p, q := w.phase.id, w.st.queue;
    NewTaskIdIsFresh(q, w.st.seqNo);
    var y := IdText("task", w.st.seqNo + 1);
    var seed := SuccessorSeed(q.tasks[p]);
    var t := TaskOf(seed, y, act.op.at);
    TaskOfKeepsId(seed, y, act.op.at);
    SuccessorPayload(q.tasks[p], y, act.op.at);
    var v, v' := ViewOf(w), ViewOf(World(Perform(cfg, w.st, act), NextPhase(cfg, w, act)));
    AllocatedPayloads(w.st.heap, seed.payload, y);
    assert v'.tasks == v.tasks[y := t] && v'.next == v.next[p := y] && v'.lastTag == v.lastTag;
    assert v'.holding == v.holding;
    if seed.payload.Fresh? {
      assert v' == v.(tasks := v.tasks[y := t], next := v.next[p := y],
                      payloads := v.payloads[y := seed.payload.params]);
      CellsAreTasks(v);
      DeadLetterKeepsCells(v, p, y, t, seed.payload.params);
    } else {
      assert v' == v.(tasks := v.tasks[y := t], next := v.next[p := y]);
      RetryKeepsCells(v, p, y, t);
    }
    NewTaskKeepsTags(v, v', y, t);
    WrittenIsTask(v);
    InputsAreKept(v, v', w.st.ledger.jobs);
  }

  lemma CellsAreTasks(v: View)
    requires CellsInv(v)
    ensures forall c | c in v.payloads :: c in v.tasks
  {
  }

  lemma MyCallKeepsShares(cfg: Config, w: World, act: Activity)
    requires QueueInv(w.st.queue, w.st.seqNo, PendingOf(w.phase)) && PhaseInv(w) && ShareInv(w)
    requires w.phase.Tagged? && WorkerMay(w, act)
    ensures ShareInv(World(Perform(cfg, w.st, act), NextPhase(cfg, w, act)))
  {
    NextFactsHold(w, PendingOf(w.phase));
    hide LineageInv, AttemptsInv, KindInv, NextInv, CounterOf, CellsInv, TagInv, InputsInv, NextFacts, IsDeadLetter,
         Handle, ReturnedJob, WorkerReport, WorkerError, IsTaskId, WorkerParams;
    CallKeepsShares(cfg, w, act.req, act.clock, act.run, NextPhase(cfg, w, act));
  }

  lemma MoveKeepsShares(cfg: Config, w: World, move: Move)
    requires QueueInv(w.st.queue, w.st.seqNo, PendingOf(w.phase)) && PhaseInv(w) && ShareInv(w) && May(w, move)
    ensures ShareInv(Advance(cfg, w, move))
  {
    NextFactsHold(w, PendingOf(w.phase));
    hide Perform, OthersMay, WorkerMay, NextPhase, PhaseInv, ShareInv, KeysInv, LineageInv, NextInv, AttemptsInv,
         KindInv,
         NextFacts, IsDeadLetter;
    if move.Theirs? {
      TheirMoveKeepsShares(cfg, w, move.act);
    } else {
      match w.phase {
        case Resting => ClaimKeepsShares(cfg, w, move.act);
        case Tagged(_) => MyCallKeepsShares(cfg, w, move.act);
        case Owing(_) => OweKeepsShares(cfg, w, move.act);
        case Heard(_, _, _) => EndKeepsShares(cfg, w, move.act);
        case Holding(task) =>
          if IsDeadLetter(task.kind) {
            EndKeepsShares(cfg, w, move.act);
          } else {
            TagKeepsShares(cfg, w, move.act);
          }
      }
    }
  }

  lemma OpeningShares(nodes: seq<Node>)
    ensures ShareInv(Opening(nodes))
  {
  }

  lemma {:induction false} PlayKeepsShares(cfg: Config, nodes: seq<Node>, moves: seq<Move>)
    requires FairPlay(cfg, Opening(nodes), moves)
    ensures ShareInv(Play(cfg, Opening(nodes), moves))
  {
    hide *;
    if moves == [] {
      EmptyPlay(cfg, nodes);
      OpeningShares(nodes);
    } else {
      var before, last := moves[..|moves| - 1], moves[|moves| - 1];
      PlayStep(cfg, Opening(nodes), moves);
      PlayKeepsShares(cfg, nodes, before);
      PlayIsLegal(cfg, nodes, before);
      RunKeepsQueueInv(cfg, nodes, Acts(before));
      MoveKeepsShares(cfg, Play(cfg, Opening(nodes), before), last);
    }
  }

  // ---- Which stored inputs change ----

  function Others(params: Params): Params {
    params - {RECONCILE_KEY}
  }

  lemma SharedInputNames(w: World, id: string)
    requires ShareInv(w) && id in w.st.ledger.jobs && w.st.ledger.jobs[id].input.Shared?
    ensures var job := w.st.ledger.jobs[id];
            var input := InputIn(w.st.heap, job);
            && job.input.cell in w.st.heap.payloads && input == w.st.heap.payloads[job.input.cell]
            && RECONCILE_KEY in input
            && (input[RECONCILE_KEY] == Str(job.idemKey) <==> !RetryWritten(ViewOf(w), job.idemKey))
  {
    var v, job := ViewOf(w), w.st.ledger.jobs[id];
    assert TagOk(v, job.idemKey) && CellOk(v, job.idemKey);
  }

  /** At every moment of every play, a stored input that is a task's payload map still names
      the task it was stored for if and only if no retry that shares the map has been
      written to. */
  lemma InputNamesItsTaskIff(cfg: Config, nodes: seq<Node>, moves: seq<Move>, id: string)
    requires FairPlay(cfg, Opening(nodes), moves)
    ensures var w := Play(cfg, Opening(nodes), moves);
            id in w.st.ledger.jobs && w.st.ledger.jobs[id].input.Shared? ==>
              var job := w.st.ledger.jobs[id];
              var input := InputIn(w.st.heap, job);
              && RECONCILE_KEY in input
              && (input[RECONCILE_KEY] == Str(job.idemKey) <==> !RetryWritten(ViewOf(w), job.idemKey))
  {
    hide Play, FairPlay, ShareInv, RetryWritten;
    PlayKeepsShares(cfg, nodes, moves);
    var w := Play(cfg, Opening(nodes), moves);
    if id in w.st.ledger.jobs && w.st.ledger.jobs[id].input.Shared? {
      SharedInputNames(w, id);
    }
  }

  /** No record is replaced, and no payload map loses or changes anything but the id. */
  ghost predicate Kept(w: World, w': World) {
    && (forall id | id in w.st.ledger.jobs :: id in w'.st.ledger.jobs && w'.st.ledger.jobs[id] == w.st.ledger.jobs[id])
    && (forall c | c in w.st.heap.payloads ::
          c in w'.st.heap.payloads && Others(w'.st.heap.payloads[c]) == Others(w.st.heap.payloads[c]))
  }

  lemma CallKeepsAll(cfg: Config, w: World, req: Request, clock: Clock, run: ToolRun, phase: Phase)
    requires Inv(w.st) && KeysInv(w.st.queue, w.st.seqNo) && CellsInv(ViewOf(w))
    ensures Kept(w, World(Handle(cfg, w.st, req, clock, run), phase))
  {
    hide Inv, KeysInv, Handle, Others, TaskOf;
    var resting := World(w.st, Resting);
    CallKeepsStoredJobs(cfg, w.st, req, clock, run);
    CallView(cfg, resting, req, clock, run, Resting);
    var w' := World(Handle(cfg, w.st, req, clock, run), Resting);
    assert forall c | c in w.st.heap.payloads :: c in w.st.queue.tasks;
    if ViewOf(w') != ViewOf(resting) {
      var y: string, seed: NewSeed, at: int :|
        && y !in w.st.queue.tasks
        && ViewOf(w') == ViewOf(resting).(tasks := w.st.queue.tasks[y := TaskOf(seed, y, at)],
                           payloads := Allocated(Heap(w.st.heap.payloads, map[], map[]), seed.payload, y).payloads);
      assert w'.st.heap.payloads == ViewOf(w').payloads;
    } else {
      assert w'.st.heap.payloads == ViewOf(w').payloads == ViewOf(resting).payloads;
    }
  }

  lemma BackgroundKeepsAll(st: Store, op: Op)
    requires IsBackground(op) && KeysInv(st.queue, st.seqNo)
    requires forall c | c in st.heap.payloads :: c in st.queue.tasks
    ensures var st' := Apply(st, op);
            && st'.ledger == st.ledger
            && forall c | c in st.heap.payloads ::
                 c in st'.heap.payloads && Others(st'.heap.payloads[c]) == Others(st.heap.payloads[c])
  {
    hide CounterOf, IdText, PutTask, TaskOf, Claim, Complete, Touched;
    if op.CreateTask? {
      NewTaskIdIsFresh(st.queue, st.seqNo);
    }
  }

  lemma MoveKeepsAll(cfg: Config, w: World, move: Move)
    requires Inv(w.st) && KeysInv(w.st.queue, w.st.seqNo) && CellsInv(ViewOf(w))
    requires move.act.Background? ==> IsBackground(move.act.op)
    ensures Kept(w, Advance(cfg, w, move))
  {
    hide Inv, KeysInv, Handle, Apply, NextPhase, WorkerMay, CellOk;
    match move.act {
      case Call(req, clock, run) => CallKeepsAll(cfg, w, req, clock, run, Advance(cfg, w, move).phase);
      case Background(op) => BackgroundKeepsAll(w.st, op);
    }
  }

  lemma KeptTwice(w: World, w': World, w'': World)
    requires Kept(w, w') && Kept(w', w'')
    ensures Kept(w, w'')
  {
  }

  lemma KeptAtOnce(w: World)
    ensures Kept(w, w)
  {
  }

  lemma MovePrefix(moves: seq<Move>, n: nat)
    requires moves != [] && n < |moves|
    ensures moves[..|moves| - 1][..n] == moves[..n]
  {
  }

  lemma MayIsBackground(w: World, move: Move)
    requires May(w, move)
    ensures move.act.Background? ==> IsBackground(move.act.op)
  {
  }

  lemma {:induction false} PlayKeepsAll(cfg: Config, nodes: seq<Node>, moves: seq<Move>, n: nat)
    requires FairPlay(cfg, Opening(nodes), moves) && n <= |moves|
    ensures FairPlay(cfg, Opening(nodes), moves[..n])
    ensures Kept(Play(cfg, Opening(nodes), moves[..n]), Play(cfg, Opening(nodes), moves))
  {
    hide *;
    if n == |moves| {
      assert moves[..n] == moves;
      KeptAtOnce(Play(cfg, Opening(nodes), moves));
    } else {
      var before, last := moves[..|moves| - 1], moves[|moves| - 1];
      MovePrefix(moves, n);
      PlayStep(cfg, Opening(nodes), moves);
      PlayKeepsAll(cfg, nodes, before, n);
      PlayIsLegal(cfg, nodes, before);
      LegalRunsAreControlled(cfg, nodes, Acts(before));
      var w := Play(cfg, Opening(nodes), before);
      PlayHasCells(cfg, nodes, before);
      MayIsBackground(w, last);
      MoveKeepsAll(cfg, w, last);
      KeptTwice(Play(cfg, Opening(nodes), moves[..n]), w, Play(cfg, Opening(nodes), moves));
    }
  }

  lemma PlayHasCells(cfg: Config, nodes: seq<Node>, moves: seq<Move>)
    requires FairPlay(cfg, Opening(nodes), moves)
    ensures var w := Play(cfg, Opening(nodes), moves);
            KeysInv(w.st.queue, w.st.seqNo) && CellsInv(ViewOf(w))
  {
    hide Play, FairPlay, LineageInv, NextInv, AttemptsInv, KindInv, KeysInv, CellsInv, TagInv, InputsInv, LegalRun, Run,
         PhaseInv;
    PlayIsLegal(cfg, nodes, moves);
    RunKeepsQueueInv(cfg, nodes, Acts(moves));
    PlayKeepsShares(cfg, nodes, moves);
  }

  /** Of a stored job with a shared input nothing ever changes but that id, and from any
      moment at which the input names its own task, such as the return of its call, the
      contents change if and only if a retry that shares the map has been written to since. */
  lemma InputChangesIff(cfg: Config, nodes: seq<Node>, moves: seq<Move>, n: nat, id: string)
    requires FairPlay(cfg, Opening(nodes), moves) && n <= |moves|
    ensures var w, w' := Play(cfg, Opening(nodes), moves[..n]), Play(cfg, Opening(nodes), moves);
            id in w.st.ledger.jobs && w.st.ledger.jobs[id].input.Shared? ==>
              var job := w.st.ledger.jobs[id];
              && id in w'.st.ledger.jobs && w'.st.ledger.jobs[id] == job
              && Others(InputIn(w'.st.heap, job)) == Others(InputIn(w.st.heap, job))
              && (!RetryWritten(ViewOf(w), job.idemKey) ==>
                    (InputIn(w'.st.heap, job) != InputIn(w.st.heap, job) <==> RetryWritten(ViewOf(w'), job.idemKey)))
  {
    hide Play, FairPlay, ShareInv, RetryWritten;
    PlayKeepsAll(cfg, nodes, moves, n);
    PlayKeepsShares(cfg, nodes, moves);
    PlayKeepsShares(cfg, nodes, moves[..n]);
    var w, w' := Play(cfg, Opening(nodes), moves[..n]), Play(cfg, Opening(nodes), moves);
    if id in w.st.ledger.jobs && w.st.ledger.jobs[id].input.Shared? {
      SharedInputNames(w, id);
      SharedInputNames(w', id);
      SameUpToId(InputIn(w.st.heap, w.st.ledger.jobs[id]), InputIn(w'.st.heap, w.st.ledger.jobs[id]));
    }
  }

  /** When the worker's call returns, no retry of its task exists. */
  lemma NoRetryAtReturn(cfg: Config, nodes: seq<Node>, moves: seq<Move>)
    requires FairPlay(cfg, Opening(nodes), moves)
    ensures var w := Play(cfg, Opening(nodes), moves);
            w.phase.Tagged? || w.phase.Heard? ==> !RetryWritten(ViewOf(w), w.phase.task.id)
  {
    hide Play, FairPlay, KeysInv, LineageInv, NextInv, AttemptsInv, KindInv, LegalRun, Run, IsTaskId, Written;
    PlayIsLegal(cfg, nodes, moves);
    RunKeepsQueueInv(cfg, nodes, Acts(moves));
    var w := Play(cfg, Opening(nodes), moves);
    NextFactsHold(w, PendingOf(w.phase));
  }

  lemma SameUpToId(a: Params, b: Params)
    requires RECONCILE_KEY in a && RECONCILE_KEY in b && Others(a) == Others(b)
    ensures a == b <==> a[RECONCILE_KEY] == b[RECONCILE_KEY]
  {
    if a[RECONCILE_KEY] == b[RECONCILE_KEY] {
      assert a == Others(a)[RECONCILE_KEY := a[RECONCILE_KEY]];
      assert b == Others(b)[RECONCILE_KEY := b[RECONCILE_KEY]];
    }
  }
}
