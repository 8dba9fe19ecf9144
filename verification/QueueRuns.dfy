// Lineages of agent tasks over whole runs.
module QueueRuns {
  import opened Text
  import opened Models
  import opened Ids
  import opened PolicyGate
  import opened StoreModel
  import opened Orchestrator
  import opened Pipeline
  import opened CallEffects
  import opened ControlRuns
  import opened Retry

  /** `pending` is the failed task whose successor the worker is about to create. */
  ghost predicate QueueInv(q: Queue, seqNo: nat, pending: Option<string>) {
    && KeysInv(q, seqNo)
    && LineageInv(q)
    && NextInv(q, pending)
    && AttemptsInv(q)
    && KindInv(q)
  }

  ghost predicate KeysInv(q: Queue, seqNo: nat) {
    && q.root.Keys == q.tasks.Keys
    && forall id | id in q.tasks :: q.tasks[id].id == id && CounterOf(id) <= seqNo
  }

  /** An id that CreateAgentTask hands out, now or later. */
  predicate IsTaskId(id: string) {
    id == IdText("task", CounterOf(id))
  }

  /** Every task belongs to one lineage, and the newest task of a lineage is the
      only one without a successor. */
  ghost predicate LineageInv(q: Queue) {
    forall id {:trigger InLineage(q, id)} | id in q.tasks :: InLineage(q, id)
  }

  ghost predicate InLineage(q: Queue, id: string) {
    && id in q.root
    && var r := q.root[id];
       && r in q.tasks && r in q.root && q.root[r] == r
       && r in q.head && q.head[r] in q.tasks && q.head[r] in q.root && q.root[q.head[r]] == r
       && (id !in q.next <==> id == q.head[r])
  }

  /** Successors: only failed tasks have one, no two share one, none is a root, and a
      failed task lacks one only while the worker is creating it. Dead letters never
      fail. */
  ghost predicate NextInv(q: Queue, pending: Option<string>) {
    && (forall id {:trigger HasNext(q, id)} | id in q.next :: HasNext(q, id))
    && (forall a, b | a in q.next && b in q.next && q.next[a] == q.next[b] :: a == b)
    && (forall id | id in q.tasks && q.tasks[id].status == TaskFailed ::
          (id in q.next || pending == Some(id)) && !IsDeadLetter(q.tasks[id].kind))
    && (pending.Some? ==>
          pending.value in q.tasks && q.tasks[pending.value].status == TaskFailed && pending.value !in q.next)
  }

  ghost predicate HasNext(q: Queue, id: string) {
    && id in q.next && id in q.tasks && q.tasks[id].status == TaskFailed && id in q.root
    && q.next[id] in q.tasks && q.next[id] in q.root && q.root[q.next[id]] == q.root[id] != q.next[id]
  }

  /** A task is claimed at most once; attempts is 0 before and 1 after. */
  ghost predicate AttemptsInv(q: Queue) {
    && (forall id | id in q.tasks ::
          && q.tasks[id].attempts == (if q.tasks[id].status == Queued then 0 else 1)
          && (id in q.claims <==> q.tasks[id].status != Queued))
    && (forall id | id in q.claims :: id in q.tasks)
    && (forall i, j | 0 <= i < j < |q.claims| :: q.claims[i] != q.claims[j])
  }

  function BudgetOf(t: AgentTask): int {
    Budget(t.maxAttempts)
  }

  /** What a lineage consists of: with a budget of two or more only retries of its
      root, with a budget of one the root and at most one dead letter. */
  ghost predicate KindInv(q: Queue) {
    forall id {:trigger KindOk(q, id)} | id in q.tasks :: KindOk(q, id)
  }

  ghost predicate KindOk(q: Queue, id: string) {
    && id in q.root && q.root[id] in q.tasks && id in q.tasks
    && KindMatches(q.tasks[id], q.tasks[q.root[id]], id == q.root[id])
  }

  predicate KindMatches(t: AgentTask, root: AgentTask, isRoot: bool) {
    if BudgetOf(root) >= 2 then t.kind == root.kind && BudgetOf(t) == BudgetOf(root)
    else BudgetOf(t) == 1 && (isRoot || t.kind == DEAD + root.kind)
  }

  // ---- Legal steps ----

  /** How the worker and everyone else use the queue: only queued tasks are claimed,
      best first; only running tasks are completed, dead letters always
      successfully; a successor is created for the pending failure only. */
  ghost predicate Legal(st: Store, pending: Option<string>, act: Activity) {
    act.Background? ==>
      && IsBackground(act.op)
      && match act.op
         case ClaimTask(id, _) => Claimable(st.queue, id)
         case CompleteTask(id, _, error, _) =>
           && pending.None? && id in st.queue.tasks && st.queue.tasks[id].status == TaskRunning
           && (IsDeadLetter(st.queue.tasks[id].kind) ==> error == "")
         case CreateTask(seed, parent, _) =>
           if parent.Some? then parent == pending && parent.value in st.queue.tasks
                                && seed == SuccessorSeed(st.queue.tasks[parent.value])
           else !seed.payload.SameAs?
         case _ => true
  }

  function PendingAfter(pending: Option<string>, act: Activity): Option<string> {
    if act.Call? then pending
    else match act.op
      case CompleteTask(id, _, error, _) => if error != "" then Some(id) else pending
      case CreateTask(_, parent, _) => if parent.Some? then None else pending
      case _ => pending
  }

  function PendingAfterAll(acts: seq<Activity>): Option<string> {
    if acts == [] then None else PendingAfter(PendingAfterAll(acts[..|acts| - 1]), acts[|acts| - 1])
  }

  ghost predicate LegalRun(cfg: Config, st: Store, acts: seq<Activity>) {
    acts == [] || (
      var before := acts[..|acts| - 1];
      LegalRun(cfg, st, before) && Legal(Run(cfg, st, before), PendingAfterAll(before), acts[|acts| - 1]))
  }

  // ---- One queue operation at a time ----

  lemma NewTaskIdIsFresh(q: Queue, seqNo: nat)
    requires KeysInv(q, seqNo)
    ensures IdText("task", seqNo + 1) !in q.tasks && CounterOf(IdText("task", seqNo + 1)) == seqNo + 1
    ensures IsTaskId(IdText("task", seqNo + 1))
  {
    CounterOfIdText("task", seqNo + 1);
  }

  // A new task.

  lemma PutTaskKeepsKeys(q: Queue, seqNo: nat, task: AgentTask, parent: Option<string>)
    requires KeysInv(q, seqNo) && seqNo < CounterOf(task.id)
    ensures KeysInv(PutTask(q, task, parent), CounterOf(task.id))
  {
    hide CounterOf;
  }

  lemma PutTaskKeepsLineage(q: Queue, task: AgentTask, parent: Option<string>)
    requires q.root.Keys == q.tasks.Keys && LineageInv(q) && task.id !in q.tasks && task.id !in q.next
    requires forall id | id in q.next :: id in q.tasks
    requires parent.Some? ==> parent.value in q.tasks && parent.value !in q.next
    ensures LineageInv(PutTask(q, task, parent))
  {
    var q' := PutTask(q, task, parent);
    if parent.Some? {
      assert InLineage(q, parent.value);
    }
    forall id | id in q'.tasks
      ensures InLineage(q', id)
    {
      if id != task.id {
        assert InLineage(q, id);
      }
    }
  }

  lemma PutTaskKeepsNext(q: Queue, pending: Option<string>, task: AgentTask, parent: Option<string>)
    requires q.root.Keys == q.tasks.Keys && NextInv(q, pending) && LineageInv(q)
    requires task.id !in q.tasks && task.status == Queued
    requires parent.Some? ==> parent == pending
    ensures NextInv(PutTask(q, task, parent), if parent.Some? then None else pending)
  {
    var q' := PutTask(q, task, parent);
    if parent.Some? {
      assert InLineage(q, parent.value);
    }
    forall id | id in q'.next
      ensures HasNext(q', id)
    {
      if id in q.next {
        assert HasNext(q, id);
      }
    }
    forall a | a in q.next
      ensures q.next[a] != task.id
    {
      assert HasNext(q, a);
    }
  }

  lemma PutTaskKeepsAttempts(q: Queue, task: AgentTask, parent: Option<string>)
    requires AttemptsInv(q) && task.id !in q.tasks && task.status == Queued && task.attempts == 0
    ensures AttemptsInv(PutTask(q, task, parent))
  {
  }

  lemma PutTaskKeepsKind(q: Queue, task: AgentTask, parent: Option<string>)
    requires q.root.Keys == q.tasks.Keys && KindInv(q) && task.id !in q.tasks
    requires parent.None? ==> BudgetOf(task) >= 1
    requires parent.Some? ==>
               && parent.value in q.tasks && q.tasks[parent.value].attempts == 1
               && !IsDeadLetter(q.tasks[parent.value].kind)
               && task.kind == SuccessorSeed(q.tasks[parent.value]).kind
               && task.maxAttempts == SuccessorSeed(q.tasks[parent.value]).maxAttempts
    ensures KindInv(PutTask(q, task, parent))
  {
    var q' := PutTask(q, task, parent);
    if parent.Some? {
      assert KindOk(q, parent.value);
    }
    forall id | id in q'.tasks
      ensures KindOk(q', id)
    {
      if id != task.id {
        assert KindOk(q, id);
      }
    }
  }

  lemma RootTaskKeepsInv(q: Queue, seqNo: nat, pending: Option<string>, task: AgentTask)
    requires QueueInv(q, seqNo, pending)
    requires task.id !in q.tasks && seqNo < CounterOf(task.id) && task.status == Queued && task.attempts == 0
    ensures QueueInv(PutTask(q, task, None), CounterOf(task.id), pending)
  {
    hide LineageInv, AttemptsInv, KindInv, CounterOf, PutTask;
    SuccessorsAreTasks(q, pending);
    PutTaskKeepsKeys(q, seqNo, task, None);
    PutTaskKeepsLineage(q, task, None);
    PutTaskKeepsNext(q, pending, task, None);
    PutTaskKeepsAttempts(q, task, None);
    PutTaskKeepsKind(q, task, None);
  }

  lemma SuccessorsAreTasks(q: Queue, pending: Option<string>)
    requires NextInv(q, pending)
    ensures forall id | id in q.next :: id in q.tasks
  {
    forall id | id in q.next
      ensures id in q.tasks
    {
      assert HasNext(q, id);
    }
  }

  lemma SuccessorKeepsInv(q: Queue, seqNo: nat, failed: string, task: AgentTask)
    requires QueueInv(q, seqNo, Some(failed))
    requires task.id !in q.tasks && seqNo < CounterOf(task.id) && task.status == Queued && task.attempts == 0
    requires task.kind == SuccessorSeed(q.tasks[failed]).kind
    requires task.maxAttempts == SuccessorSeed(q.tasks[failed]).maxAttempts
    ensures QueueInv(PutTask(q, task, Some(failed)), CounterOf(task.id), None)
  {
    hide LineageInv, KindInv, CounterOf, PutTask, SuccessorSeed;
    SuccessorsAreTasks(q, Some(failed));
    PutTaskKeepsKeys(q, seqNo, task, Some(failed));
    PutTaskKeepsLineage(q, task, Some(failed));
    PutTaskKeepsNext(q, Some(failed), task, Some(failed));
    PutTaskKeepsAttempts(q, task, Some(failed));
    PutTaskKeepsKind(q, task, Some(failed));
  }

  // A change to one task that keeps its id, kind and budget.

  lemma TouchKeepsKeys(q: Queue, seqNo: nat, id: string, t: AgentTask, claims: seq<string>)
    requires KeysInv(q, seqNo) && id in q.tasks && t.id == id
    ensures KeysInv(q.(tasks := q.tasks[id := t], claims := claims), seqNo)
  {
    hide CounterOf, IsTaskId;
  }

  lemma TouchKeepsLineage(q: Queue, id: string, t: AgentTask, claims: seq<string>)
    requires LineageInv(q) && id in q.tasks
    ensures LineageInv(q.(tasks := q.tasks[id := t], claims := claims))
  {
    var q' := q.(tasks := q.tasks[id := t], claims := claims);
    forall x | x in q'.tasks
      ensures InLineage(q', x)
    {
      assert InLineage(q, x);
    }
  }

  lemma TouchKeepsKind(q: Queue, id: string, t: AgentTask, claims: seq<string>)
    requires KindInv(q) && id in q.tasks
    requires t.kind == q.tasks[id].kind && t.maxAttempts == q.tasks[id].maxAttempts
    ensures KindInv(q.(tasks := q.tasks[id := t], claims := claims))
  {
    var q' := q.(tasks := q.tasks[id := t], claims := claims);
    forall x | x in q'.tasks
      ensures KindOk(q', x)
    {
      assert KindOk(q, x);
    }
  }

  lemma TouchKeepsShape(q: Queue, seqNo: nat, id: string, t: AgentTask, claims: seq<string>)
    requires KeysInv(q, seqNo) && LineageInv(q) && KindInv(q) && id in q.tasks
    requires t.id == id && t.kind == q.tasks[id].kind && t.maxAttempts == q.tasks[id].maxAttempts
    ensures var q' := q.(tasks := q.tasks[id := t], claims := claims);
            KeysInv(q', seqNo) && LineageInv(q') && KindInv(q')
  {
    hide *;
    TouchKeepsKeys(q, seqNo, id, t, claims);
    TouchKeepsLineage(q, id, t, claims);
    TouchKeepsKind(q, id, t, claims);
  }

  lemma TouchKeepsNext(q: Queue, pending: Option<string>, id: string, t: AgentTask, claims: seq<string>,
                       pending': Option<string>)
    requires NextInv(q, pending) && id in q.tasks
    requires if q.tasks[id].status == TaskFailed then t.status == TaskFailed && pending' == pending
             else pending' == if t.status == TaskFailed then Some(id) else pending
    requires q.tasks[id].status != TaskFailed && t.status == TaskFailed ==> pending.None?
    requires t.kind == q.tasks[id].kind && (t.status == TaskFailed ==> !IsDeadLetter(t.kind))
    ensures NextInv(q.(tasks := q.tasks[id := t], claims := claims), pending')
  {
    var q' := q.(tasks := q.tasks[id := t], claims := claims);
    forall x | x in q'.next
      ensures HasNext(q', x)
    {
      assert HasNext(q, x);
    }
    if id in q.next {
      assert HasNext(q, id);
    }
  }

  lemma ClaimKeepsAttempts(q: Queue, id: string, at: int)
    requires AttemptsInv(q) && id in q.tasks && q.tasks[id].status == Queued
    ensures AttemptsInv(Claim(q, id, at))
  {
    var q' := Claim(q, id, at);
    assert forall x | x in q'.claims :: x in q.claims || x == id;
    assert q'.claims[|q.claims|] == id;
    assert forall i | 0 <= i < |q.claims| :: q'.claims[i] == q.claims[i];
    assert forall x | x in q.claims :: x in q'.claims;
  }

  lemma ClaimKeepsInv(q: Queue, seqNo: nat, pending: Option<string>, id: string, at: int)
    requires QueueInv(q, seqNo, pending) && Claimable(q, id)
    ensures QueueInv(Claim(q, id, at), seqNo, pending)
  {
    hide LineageInv, KindInv, CounterOf, AttemptsInv;
    var t := Claim(q, id, at).tasks[id];
    TouchKeepsShape(q, seqNo, id, t, q.claims + [id]);
    TouchKeepsNext(q, pending, id, t, q.claims + [id], pending);
    ClaimKeepsAttempts(q, id, at);
  }

  lemma TaskCarriesItsId(q: Queue, seqNo: nat, id: string)
    requires KeysInv(q, seqNo) && id in q.tasks
    ensures q.tasks[id].id == id
  {
    hide CounterOf, IsTaskId;
  }

  lemma CompleteKeepsAttempts(q: Queue, id: string, result: TaskResult, error: string, at: int)
    requires AttemptsInv(q) && id in q.tasks && q.tasks[id].status == TaskRunning
    ensures AttemptsInv(Complete(q, id, result, error, at))
  {
  }

  lemma CompleteKeepsInv(q: Queue, seqNo: nat, id: string, result: TaskResult, error: string, at: int)
    requires QueueInv(q, seqNo, None) && id in q.tasks && q.tasks[id].status == TaskRunning
    requires error != "" ==> !IsDeadLetter(q.tasks[id].kind)
    ensures QueueInv(Complete(q, id, result, error, at), seqNo, if error != "" then Some(id) else None)
  {
    hide LineageInv, KindInv, AttemptsInv, KeysInv, CounterOf;
    CompleteKeepsAttempts(q, id, result, error, at);
    assert q.tasks[id].id == id by { TaskCarriesItsId(q, seqNo, id); }
    var t := Complete(q, id, result, error, at).tasks[id];
    TouchKeepsShape(q, seqNo, id, t, q.claims);
    TouchKeepsNext(q, None, id, t, q.claims, if error != "" then Some(id) else None);
  }

  // ---- Whole runs ----

  lemma LaterSeqNo(q: Queue, seqNo: nat, seqNo': nat, pending: Option<string>)
    requires QueueInv(q, seqNo, pending) && seqNo <= seqNo'
    ensures QueueInv(q, seqNo', pending)
  {
    hide LineageInv, NextInv, AttemptsInv, KindInv, CounterOf;
  }

  lemma CallKeepsQueueInv(cfg: Config, st: Store, pending: Option<string>, req: Request, clock: Clock, run: ToolRun)
    requires QueueInv(st.queue, st.seqNo, pending)
    ensures var st' := Handle(cfg, st, req, clock, run); QueueInv(st'.queue, st'.seqNo, pending)
  {
    hide Handle, LineageInv, NextInv, AttemptsInv, KindInv, PutTask, CounterOf, IdText;
    CallQueueEffect(cfg, st, req, clock, run);
    var st' := Handle(cfg, st, req, clock, run);
    if st'.queue != st.queue {
      var seed, n, at :| && st.seqNo < n <= st'.seqNo
                         && st'.queue == PutTask(st.queue, TaskOf(seed, IdText("task", n), at), None);
      CounterOfIdText("task", n);
      RootTaskKeepsInv(st.queue, st.seqNo, pending, TaskOf(seed, IdText("task", n), at));
      LaterSeqNo(st'.queue, n, st'.seqNo, pending);
    } else {
      LaterSeqNo(st.queue, st.seqNo, st'.seqNo, pending);
    }
  }

  lemma CreateKeepsQueueInv(st: Store, pending: Option<string>, seed: TaskSeed, parent: Option<string>, at: int)
    requires QueueInv(st.queue, st.seqNo, pending)
    requires Legal(st, pending, Background(CreateTask(seed, parent, at)))
    ensures var st' := AddTask(st, seed, parent, at);
            QueueInv(st'.queue, st'.seqNo, if parent.Some? then None else pending)
  {
    hide LineageInv, NextInv, KindInv, PutTask, CounterOf, IdText;
    NewTaskIdIsFresh(st.queue, st.seqNo);
    var task := TaskOf(seed, IdText("task", st.seqNo + 1), at);
    if parent.Some? {
      SuccessorKeepsInv(st.queue, st.seqNo, parent.value, task);
    } else {
      RootTaskKeepsInv(st.queue, st.seqNo, pending, task);
    }
  }

  lemma StepKeepsQueueInv(cfg: Config, st: Store, pending: Option<string>, act: Activity)
    requires QueueInv(st.queue, st.seqNo, pending) && Legal(st, pending, act)
    ensures var st' := Perform(cfg, st, act); QueueInv(st'.queue, st'.seqNo, PendingAfter(pending, act))
  {
    hide Handle, LineageInv, NextInv, AttemptsInv, KindInv, KeysInv, AddTask, Claim, Tag, Complete, ReadMode, Claimable;
    match act {
      case Call(req, clock, run) => CallKeepsQueueInv(cfg, st, pending, req, clock, run);
      case Background(op) =>
        match op {
          case CreateTask(seed, parent, at) => CreateKeepsQueueInv(st, pending, seed, parent, at);
          case ClaimTask(id, at) => ClaimKeepsInv(st.queue, st.seqNo, pending, id, at);
          case CompleteTask(id, result, error, at) => CompleteKeepsInv(st.queue, st.seqNo, id, result, error, at);
          case TakeIds(n) => LaterSeqNo(st.queue, st.seqNo, st.seqNo + n, pending);
          case _ =>
        }
    }
  }

  lemma {:induction false} RunKeepsQueueInv(cfg: Config, nodes: seq<Node>, acts: seq<Activity>)
    requires LegalRun(cfg, FreshStore(nodes), acts)
    ensures var st := Run(cfg, FreshStore(nodes), acts); QueueInv(st.queue, st.seqNo, PendingAfterAll(acts))
  {
    hide Perform, Legal, PendingAfter;
    if acts != [] {
      var before := acts[..|acts| - 1];
      RunStep(cfg, FreshStore(nodes), acts);
      RunKeepsQueueInv(cfg, nodes, before);
      StepKeepsQueueInv(cfg, Run(cfg, FreshStore(nodes), before), PendingAfterAll(before), acts[|acts| - 1]);
    }
  }

  ghost predicate NamesInv(q: Queue) {
    forall id | id in q.tasks :: IsTaskId(id)
  }

  lemma StepKeepsNames(cfg: Config, st: Store, act: Activity)
    requires NamesInv(st.queue) && (act.Background? ==> IsBackground(act.op))
    ensures NamesInv(Perform(cfg, st, act).queue)
  {
    hide Handle, CounterOf, IdText, TaskOf, Ahead;
    match act {
      case Call(req, clock, run) =>
        CallQueueEffect(cfg, st, req, clock, run);
        var st' := Handle(cfg, st, req, clock, run);
        if st'.queue != st.queue {
          var seed, n, at :| && st.seqNo < n <= st'.seqNo
                             && st'.queue == PutTask(st.queue, TaskOf(seed, IdText("task", n), at), None);
          CounterOfIdText("task", n);
          PutTaskKeepsNames(st.queue, seed, n, at, None);
        }
      case Background(op) =>
        if op.CreateTask? {
          CounterOfIdText("task", st.seqNo + 1);
          PutTaskKeepsNames(st.queue, op.seed, st.seqNo + 1, op.at, op.parent);
        } else {
          assert Apply(st, op).queue.tasks.Keys == st.queue.tasks.Keys;
        }
    }
  }

  lemma PutTaskKeepsNames(q: Queue, seed: TaskSeed, n: nat, at: int, parent: Option<string>)
    requires NamesInv(q)
    ensures NamesInv(PutTask(q, TaskOf(seed, IdText("task", n), at), parent))
  {
    hide CounterOf, IdText;
    CounterOfIdText("task", n);
  }

  /** Every task of every run carries a generated id. */
  lemma {:induction false} TasksAreNamed(cfg: Config, nodes: seq<Node>, acts: seq<Activity>)
    requires LegalRun(cfg, FreshStore(nodes), acts)
    ensures NamesInv(Run(cfg, FreshStore(nodes), acts).queue)
  {
    if acts != [] {
      hide Run, Perform, NamesInv, Ahead;
      RunStep(cfg, FreshStore(nodes), acts);
      TasksAreNamed(cfg, nodes, acts[..|acts| - 1]);
      StepKeepsNames(cfg, Run(cfg, FreshStore(nodes), acts[..|acts| - 1]), acts[|acts| - 1]);
    }
  }

  /** Every lineage has exactly one task that has not failed, namely its newest. */
  ghost predicate OneLiveTaskEach(q: Queue) {
    && q.root.Keys == q.tasks.Keys
    && forall id | id in q.tasks ::
         && q.root[id] in q.head && q.head[q.root[id]] in q.tasks
         && (q.tasks[id].status != TaskFailed <==> id == q.head[q.root[id]])
  }

  /** Exactly the failed tasks have a successor, each its own, in the same lineage. */
  ghost predicate OwnSuccessors(q: Queue) {
    && q.root.Keys == q.tasks.Keys
    && (forall id | id in q.tasks :: q.tasks[id].status == TaskFailed <==> id in q.next)
    && (forall id | id in q.next :: id in q.tasks && q.next[id] in q.tasks && q.root[q.next[id]] == q.root[id])
    && (forall a, b | a in q.next && b in q.next && a != b :: q.next[a] != q.next[b])
  }

  /** The claimed tasks are the ones that left the queue, each claimed once. */
  ghost predicate ClaimedOnce(q: Queue) {
    && (forall i, j | 0 <= i < j < |q.claims| :: q.claims[i] != q.claims[j])
    && (forall id | id in q.tasks :: id in q.claims <==> q.tasks[id].status != Queued)
  }

  lemma OneLiveTaskEachHolds(q: Queue)
    requires q.root.Keys == q.tasks.Keys && LineageInv(q) && NextInv(q, None)
    ensures OneLiveTaskEach(q)
  {
    forall id | id in q.tasks
      ensures && q.root[id] in q.head && q.head[q.root[id]] in q.tasks
              && (q.tasks[id].status != TaskFailed <==> id == q.head[q.root[id]])
    {
      assert InLineage(q, id);
      if id in q.next {
        assert HasNext(q, id);
      }
    }
  }

  lemma OwnSuccessorsHold(q: Queue)
    requires q.root.Keys == q.tasks.Keys && NextInv(q, None)
    ensures OwnSuccessors(q)
  {
    forall id | id in q.next
      ensures id in q.tasks && q.tasks[id].status == TaskFailed
              && q.next[id] in q.tasks && q.root[q.next[id]] == q.root[id]
    {
      assert HasNext(q, id);
    }
  }

  /** In every run, whenever the worker is not between completing a failed task and
      creating its successor, every lineage has exactly one task that has not failed. */
  lemma LineagesHaveOneLiveTask(cfg: Config, nodes: seq<Node>, acts: seq<Activity>)
    requires LegalRun(cfg, FreshStore(nodes), acts)
    requires PendingAfterAll(acts).None?
    ensures OneLiveTaskEach(Run(cfg, FreshStore(nodes), acts).queue)
  {
    hide Run, LegalRun, LineageInv, NextInv, KindInv, OneLiveTaskEach, CounterOf;
    RunKeepsQueueInv(cfg, nodes, acts);
    OneLiveTaskEachHolds(Run(cfg, FreshStore(nodes), acts).queue);
  }

  /** At the same moments exactly the failed tasks have a successor, each its own. */
  lemma FailedTasksHaveOwnSuccessors(cfg: Config, nodes: seq<Node>, acts: seq<Activity>)
    requires LegalRun(cfg, FreshStore(nodes), acts)
    requires PendingAfterAll(acts).None?
    ensures OwnSuccessors(Run(cfg, FreshStore(nodes), acts).queue)
  {
    hide Run, LegalRun, LineageInv, NextInv, KindInv, OwnSuccessors, CounterOf;
    RunKeepsQueueInv(cfg, nodes, acts);
    OwnSuccessorsHold(Run(cfg, FreshStore(nodes), acts).queue);
  }

  /** At every moment exactly the tasks that left the queue have been claimed, each
      once. */
  lemma TasksAreClaimedOnce(cfg: Config, nodes: seq<Node>, acts: seq<Activity>)
    requires LegalRun(cfg, FreshStore(nodes), acts)
    ensures ClaimedOnce(Run(cfg, FreshStore(nodes), acts).queue)
  {
    hide Run, LegalRun, LineageInv, NextInv, KindInv, CounterOf;
    RunKeepsQueueInv(cfg, nodes, acts);
  }

  /** As written, a lineage whose root has a budget of two or more never contains a
      dead letter of its own: every member is the same tool with the same budget and
      at most one attempt, in every reachable state. With a budget of one it has at
      most the root and dead letters for it. */
  lemma RetriesNeverDeadLetter(cfg: Config, nodes: seq<Node>, acts: seq<Activity>, id: string)
    requires LegalRun(cfg, FreshStore(nodes), acts)
    requires id in Run(cfg, FreshStore(nodes), acts).queue.tasks
    ensures var q := Run(cfg, FreshStore(nodes), acts).queue;
            && id in q.root && q.root[id] in q.tasks
            && q.tasks[id].attempts == (if q.tasks[id].status == Queued then 0 else 1)
            && (BudgetOf(q.tasks[q.root[id]]) >= 2 ==>
                  q.tasks[id].kind == q.tasks[q.root[id]].kind
                  && BudgetOf(q.tasks[id]) == BudgetOf(q.tasks[q.root[id]]))
            && (BudgetOf(q.tasks[q.root[id]]) == 1 ==>
                  id == q.root[id] || q.tasks[id].kind == DEAD + q.tasks[q.root[id]].kind)
  {
    hide Run, LegalRun, LineageInv, NextInv, CounterOf;
    RunKeepsQueueInv(cfg, nodes, acts);
    var q := Run(cfg, FreshStore(nodes), acts).queue;
    assert KindOk(q, id);
  }

  /** What a step may do to a task: it stays, with its identity. */
  ghost predicate Survives(q: Queue, q': Queue) {
    forall id | id in q.tasks ::
      && id in q'.tasks
      && q'.tasks[id].kind == q.tasks[id].kind
      && q'.tasks[id].priority == q.tasks[id].priority
      && q'.tasks[id].maxAttempts == q.tasks[id].maxAttempts
      && q'.tasks[id].createdAt == q.tasks[id].createdAt
      && (|| q.tasks[id].status == q'.tasks[id].status
          || (q.tasks[id].status == Queued && q'.tasks[id].status == TaskRunning)
          || (q.tasks[id].status == TaskRunning && q'.tasks[id].status in {TaskCompleted, TaskFailed}))
  }

  lemma PutTaskLosesNothing(q: Queue, task: AgentTask, parent: Option<string>)
    requires task.id !in q.tasks
    ensures Survives(q, PutTask(q, task, parent))
  {
  }

  lemma CallLosesNothing(cfg: Config, st: Store, req: Request, clock: Clock, run: ToolRun)
    requires KeysInv(st.queue, st.seqNo)
    ensures Survives(st.queue, Handle(cfg, st, req, clock, run).queue)
  {
    hide Handle, CounterOf, IdText, PutTask;
    CallQueueEffect(cfg, st, req, clock, run);
    var st' := Handle(cfg, st, req, clock, run);
    if st'.queue != st.queue {
      var seed, n, at :| && st.seqNo < n <= st'.seqNo
                         && st'.queue == PutTask(st.queue, TaskOf(seed, IdText("task", n), at), None);
      CounterOfIdText("task", n);
      PutTaskLosesNothing(st.queue, TaskOf(seed, IdText("task", n), at), None);
    }
  }

  /** A task rewritten in place, its status only moving forward. */
  lemma TouchLosesNothing(q: Queue, id: string, t: AgentTask, claims: seq<string>)
    requires id in q.tasks
    requires t.kind == q.tasks[id].kind && t.priority == q.tasks[id].priority
             && t.maxAttempts == q.tasks[id].maxAttempts && t.createdAt == q.tasks[id].createdAt
    requires || t.status == q.tasks[id].status
             || (q.tasks[id].status == Queued && t.status == TaskRunning)
             || (q.tasks[id].status == TaskRunning && t.status in {TaskCompleted, TaskFailed})
    ensures Survives(q, q.(tasks := q.tasks[id := t], claims := claims))
  {
  }

  lemma UnchangedLosesNothing(q: Queue)
    ensures Survives(q, q)
  {
  }

  lemma BackgroundLosesNothing(st: Store, pending: Option<string>, op: Op)
    requires Legal(st, pending, Background(op)) && !op.CreateTask?
    ensures Survives(st.queue, Apply(st, op).queue)
  {
    hide Survives, ReadMode, Ahead;
    var q := st.queue;
    UnchangedLosesNothing(q);
    match op {
      case ClaimTask(id, at) => TouchLosesNothing(q, id, Claim(q, id, at).tasks[id], q.claims + [id]);
      case CompleteTask(id, result, error, at) =>
        TouchLosesNothing(q, id, Complete(q, id, result, error, at).tasks[id], q.claims);
      case _ =>
    }
  }

  lemma StepLosesNothing(cfg: Config, st: Store, pending: Option<string>, act: Activity)
    requires QueueInv(st.queue, st.seqNo, pending) && Legal(st, pending, act)
    ensures Survives(st.queue, Perform(cfg, st, act).queue)
  {
    hide Handle, Survives, LineageInv, NextInv, AttemptsInv, KindInv, CounterOf, IdText, ReadMode, PutTask;
    match act {
      case Call(req, clock, run) => CallLosesNothing(cfg, st, req, clock, run);
      case Background(op) =>
        if op.CreateTask? {
          NewTaskIdIsFresh(st.queue, st.seqNo);
          PutTaskLosesNothing(st.queue, TaskOf(op.seed, IdText("task", st.seqNo + 1), op.at), op.parent);
        } else {
          BackgroundLosesNothing(st, pending, op);
        }
    }
  }

  /** No task is ever lost or turned into another, and its status only moves
      forward. */
  lemma {:induction false} NoTaskIsLost(cfg: Config, nodes: seq<Node>, acts: seq<Activity>, n: nat)
    requires LegalRun(cfg, FreshStore(nodes), acts) && n <= |acts|
    ensures var first := FreshStore(nodes);
            forall id | id in Run(cfg, first, acts[..n]).queue.tasks ::
              && id in Run(cfg, first, acts).queue.tasks
              && Run(cfg, first, acts).queue.tasks[id].kind == Run(cfg, first, acts[..n]).queue.tasks[id].kind
              && (Run(cfg, first, acts).queue.tasks[id].status == Queued ==>
                    Run(cfg, first, acts[..n]).queue.tasks[id].status == Queued)
  {
    hide Perform, Legal, QueueInv, PendingAfter;
    if n == |acts| {
      assert acts[..n] == acts;
    } else {
      var before := acts[..|acts| - 1];
      RunStep(cfg, FreshStore(nodes), acts);
      NoTaskIsLost(cfg, nodes, before, n);
      assert before[..n] == acts[..n];
      RunKeepsQueueInv(cfg, nodes, before);
      StepLosesNothing(cfg, Run(cfg, FreshStore(nodes), before), PendingAfterAll(before), acts[|acts| - 1]);
    }
  }
}
