// The retry machine of Retry.dfy is what the queue does: in every run the lineage of a task
// is the lineage that its failures lead to there.
module Lineages {
  import opened Text
  import opened Models
  import opened Ids
  import opened StoreModel
  import opened Orchestrator
  import opened Pipeline
  import opened CallEffects
  import opened ControlRuns
  import opened Retry
  import opened QueueRuns

  /** A task as it was when it was queued. */
  function AsQueued(t: AgentTask): AgentTask {
    t.(status := Queued, attempts := 0, error := "", result := None, updatedAt := t.createdAt, startedAt := None,
    finishedAt := None)
  }

  /** The failure that the successor y of a failed task answers. */
  function FailureOf(q: Queue, p: string, y: string): Failure
    requires p in q.tasks && y in q.tasks
  {
    Failure(q.tasks[p].error, y, q.tasks[y].createdAt)
  }

  ghost predicate EdgeOk(q: Queue, p: string) {
    p in q.next ==>
      && p in q.tasks && q.next[p] in q.tasks && q.tasks[p].status == TaskFailed && !IsDeadLetter(q.tasks[p].kind)
      && AsQueued(q.tasks[q.next[p]]) ==
         Successor(false, FailedOnce(AsQueued(q.tasks[p]), q.tasks[p].error), FailureOf(q, p, q.next[p]))
  }

  /** Every successor in the queue is the successor of the retry machine. */
  ghost predicate EdgesInv(q: Queue) {
    forall p {:trigger EdgeOk(q, p)} :: EdgeOk(q, p)
  }

  lemma RootKeepsEdges(q: Queue, task: AgentTask)
    requires EdgesInv(q) && task.id !in q.tasks
    ensures EdgesInv(PutTask(q, task, None))
  {
    hide Successor, IsDeadLetter;
    var q' := PutTask(q, task, None);
    forall p
      ensures EdgeOk(q', p)
    {
      assert EdgeOk(q, p);
    }
  }

  lemma SuccessorIsAsPredicted(failed: AgentTask, y: string, at: int)
    requires failed.attempts == 1
    ensures AsQueued(TaskOf(SuccessorSeed(failed), y, at)) ==
            Successor(false, FailedOnce(AsQueued(failed), failed.error), Failure(failed.error, y, at))
  {
  }

  lemma SuccessorKeepsEdges(q: Queue, p: string, y: string, at: int)
    requires EdgesInv(q) && p in q.tasks && q.tasks[p].status == TaskFailed && q.tasks[p].attempts == 1
    requires !IsDeadLetter(q.tasks[p].kind) && y !in q.tasks
    ensures EdgesInv(PutTask(q, TaskOf(SuccessorSeed(q.tasks[p]), y, at), Some(p)))
  {
    hide Successor, SuccessorSeed, IsDeadLetter, RootOf;
    var task := TaskOf(SuccessorSeed(q.tasks[p]), y, at);
    var q' := PutTask(q, task, Some(p));
    SuccessorIsAsPredicted(q.tasks[p], y, at);
    forall x
      ensures EdgeOk(q', x)
    {
      assert EdgeOk(q, x);
    }
  }

  /** A task that has not failed is rewritten. */
  lemma TouchKeepsEdges(q: Queue, id: string, t: AgentTask, claims: seq<string>)
    requires EdgesInv(q) && id in q.tasks && q.tasks[id].status != TaskFailed
    requires forall p | p in q.next && q.next[p] == id :: AsQueued(t) == AsQueued(q.tasks[id])
    ensures EdgesInv(q.(tasks := q.tasks[id := t], claims := claims))
  {
    hide Successor, IsDeadLetter;
    var q' := q.(tasks := q.tasks[id := t], claims := claims);
    forall p
      ensures EdgeOk(q', p)
    {
      assert EdgeOk(q, p);
      if p in q.next && q.next[p] == id {
        assert q'.tasks[id].createdAt == AsQueued(t).createdAt == q.tasks[id].createdAt;
      }
    }
  }

  /** A successor is marked as a dead letter from the beginning or never. */
  lemma MarkIsSettled(q: Queue, p: string)
    requires EdgesInv(q) && p in q.next
    ensures q.next[p] in q.tasks
    ensures IsDeadLetter(q.tasks[q.next[p]].kind) ==> q.tasks[q.next[p]].deadLetter
  {
    assert EdgeOk(q, p);
    var t := AsQueued(q.tasks[q.next[p]]);
    assert t.kind == q.tasks[q.next[p]].kind && t.deadLetter == q.tasks[q.next[p]].deadLetter;
  }

  lemma CompleteKeepsEdges(q: Queue, id: string, result: TaskResult, error: string, at: int)
    requires EdgesInv(q) && id in q.tasks && q.tasks[id].status == TaskRunning
    ensures EdgesInv(Complete(q, id, result, error, at))
  {
    hide EdgesInv;
    var t := Complete(q, id, result, error, at).tasks[id];
    forall p | p in q.next && q.next[p] == id
      ensures AsQueued(t) == AsQueued(q.tasks[id])
    {
      MarkIsSettled(q, p);
    }
    TouchKeepsEdges(q, id, t, q.claims);
  }

  lemma ClaimKeepsEdges(q: Queue, id: string, at: int)
    requires EdgesInv(q) && Claimable(q, id)
    ensures EdgesInv(Claim(q, id, at))
  {
    hide EdgesInv, Ahead;
    TouchKeepsEdges(q, id, Claim(q, id, at).tasks[id], q.claims + [id]);
  }

  lemma CallKeepsEdges(cfg: Config, st: Store, req: Request, clock: Clock,
                       run: ToolRun)
    requires KeysInv(st.queue, st.seqNo) && EdgesInv(st.queue)
    ensures EdgesInv(Handle(cfg, st, req, clock, run).queue)
  {
    hide Handle, CounterOf, IdText, PutTask, EdgesInv;
    CallQueueEffect(cfg, st, req, clock, run);
    var st' := Handle(cfg, st, req, clock, run);
    if st'.queue != st.queue {
      var seed, n, at :| && st.seqNo < n <= st'.seqNo
                         && st'.queue == PutTask(st.queue, TaskOf(seed, IdText("task", n), at), None);
      CounterOfIdText("task", n);
      RootKeepsEdges(st.queue, TaskOf(seed, IdText("task", n), at));
    }
  }

  lemma CreateKeepsEdges(st: Store, pending: Option<string>, seed: TaskSeed, parent: Option<string>, at: int)
    requires QueueInv(st.queue, st.seqNo, pending) && EdgesInv(st.queue)
    requires Legal(st, pending, Background(CreateTask(seed, parent, at)))
    ensures EdgesInv(AddTask(st, seed, parent, at).queue)
  {
    hide LineageInv, KindInv, PutTask, CounterOf, IdText, EdgesInv, SuccessorSeed;
    NewTaskIdIsFresh(st.queue, st.seqNo);
    var y := IdText("task", st.seqNo + 1);
    if parent.Some? {
      SuccessorKeepsEdges(st.queue, parent.value, y, at);
    } else {
      RootKeepsEdges(st.queue, TaskOf(seed, y, at));
    }
  }

  lemma StepKeepsEdges(cfg: Config, st: Store, pending: Option<string>, act: Activity)
    requires QueueInv(st.queue, st.seqNo, pending) && Legal(st, pending, act) && EdgesInv(st.queue)
    ensures EdgesInv(Perform(cfg, st, act).queue)
  {
    hide Handle, LineageInv, NextInv, AttemptsInv, KindInv, KeysInv, AddTask, Claim, Tag, Complete, Claimable, EdgesInv;
    match act {
      case Call(req, clock, run) => CallKeepsEdges(cfg, st, req, clock, run);
      case Background(op) =>
        match op {
          case CreateTask(seed, parent, at) => CreateKeepsEdges(st, pending, seed, parent, at);
          case ClaimTask(id, at) => ClaimKeepsEdges(st.queue, id, at);
          case CompleteTask(id, result, error, at) => CompleteKeepsEdges(st.queue, id, result, error, at);
          case _ =>
        }
    }
  }

  lemma {:induction false} RunKeepsEdges(cfg: Config, nodes: seq<Node>, acts: seq<Activity>)
    requires LegalRun(cfg, FreshStore(nodes), acts)
    ensures EdgesInv(Run(cfg, FreshStore(nodes), acts).queue)
  {
    if acts != [] {
      hide Run, Perform, Legal, PendingAfter, EdgesInv, QueueInv;
      var before := acts[..|acts| - 1];
      RunStep(cfg, FreshStore(nodes), acts);
      RunKeepsEdges(cfg, nodes, before);
      RunKeepsQueueInv(cfg, nodes, before);
      StepKeepsEdges(cfg, Run(cfg, FreshStore(nodes), before), PendingAfterAll(before), acts[|acts| - 1]);
    }
  }

  // ---- Lineages ----

  /** A task and its successors, as far as they go: each is the successor of the one before. */
  ghost predicate Chain(q: Queue, ids: seq<string>) {
    && ids != []
    && (forall i | 0 <= i < |ids| :: ids[i] in q.tasks)
    && (forall i | 0 <= i < |ids| - 1 :: ids[i] in q.next && q.next[ids[i]] == ids[i + 1])
  }

  /** The failures along a chain. */
  function FailuresOf(q: Queue, ids: seq<string>): seq<Failure>
    requires ids != [] && forall i | 0 <= i < |ids| :: ids[i] in q.tasks
  {
    seq(|ids| - 1, i requires 0 <= i < |ids| - 1 => FailureOf(q, ids[i], ids[i + 1]))
  }

  lemma ChainPrefix(q: Queue, ids: seq<string>)
    requires Chain(q, ids) && |ids| > 1
    ensures Chain(q, ids[..|ids| - 1])
    ensures FailuresOf(q, ids) ==
            FailuresOf(q, ids[..|ids| - 1]) + [FailureOf(q, ids[|ids| - 2], ids[|ids| - 1])]
  {
    var init := ids[..|ids| - 1];
    assert forall i | 0 <= i < |init| :: init[i] == ids[i];
  }

  lemma FailStep(q: Queue, l: Lineage, p: string)
    requires EdgesInv(q) && p in q.next && p in q.tasks && l.newest == AsQueued(q.tasks[p])
    ensures q.next[p] in q.tasks
    ensures Fail(false, l, FailureOf(q, p, q.next[p])) ==
            Lineage(l.failed + [FailedOnce(AsQueued(q.tasks[p]), q.tasks[p].error)], AsQueued(q.tasks[q.next[p]]))
  {
    hide Successor, IsDeadLetter;
    assert EdgeOk(q, p);
  }

  /** In every run, along every chain of successors, the tasks are those that the retry
      machine makes of the first one and the failures: the failed tasks one by one, and the
      newest as it was queued. */
  lemma ChainIsAfter(cfg: Config, nodes: seq<Node>, acts: seq<Activity>, ids: seq<string>)
    requires LegalRun(cfg, FreshStore(nodes), acts)
    requires Chain(Run(cfg, FreshStore(nodes), acts).queue, ids)
    ensures var q := Run(cfg, FreshStore(nodes), acts).queue;
            var l := After(false, AsQueued(q.tasks[ids[0]]), FailuresOf(q, ids));
            && l.newest == AsQueued(q.tasks[ids[|ids| - 1]])
            && |l.failed| == |ids| - 1
            && forall i | 0 <= i < |ids| - 1 ::
                 l.failed[i] == FailedOnce(AsQueued(q.tasks[ids[i]]), q.tasks[ids[i]].error)
  {
    hide Run, LegalRun, EdgesInv, Chain, After, AsQueued, FailedOnce, FailuresOf;
    RunKeepsEdges(cfg, nodes, acts);
    ChainLeadsTo(Run(cfg, FreshStore(nodes), acts).queue, ids);
  }

  lemma {:induction false} ChainLeadsTo(q: Queue, ids: seq<string>)
    requires EdgesInv(q) && Chain(q, ids)
    ensures var l := After(false, AsQueued(q.tasks[ids[0]]), FailuresOf(q, ids));
            && l.newest == AsQueued(q.tasks[ids[|ids| - 1]])
            && |l.failed| == |ids| - 1
            && forall i | 0 <= i < |ids| - 1 ::
                 l.failed[i] == FailedOnce(AsQueued(q.tasks[ids[i]]), q.tasks[ids[i]].error)
  {
    if |ids| == 1 {
      assert FailuresOf(q, ids) == [];
    } else {
      hide EdgesInv, AsQueued, Fail, FailedOnce, FailuresOf, FailureOf;
      var init := ids[..|ids| - 1];
      ChainPrefix(q, ids);
      ChainLeadsTo(q, init);
      var root, failures := AsQueued(q.tasks[ids[0]]), FailuresOf(q, ids);
      assert failures[..|failures| - 1] == FailuresOf(q, init);
      FailStep(q, After(false, root, FailuresOf(q, init)), ids[|ids| - 2]);
    }
  }

  /** So the budget results are about the queue: in every run, a chain that starts with an
      ordinary task ends in a dead letter if and only if that task's budget is one and it
      has failed, while the documented budget would end it after that many failures. */
  lemma ChainEndsInDeadLetterIff(cfg: Config, nodes: seq<Node>, acts: seq<Activity>, ids: seq<string>)
    requires LegalRun(cfg, FreshStore(nodes), acts)
    requires Chain(Run(cfg, FreshStore(nodes), acts).queue, ids)
    requires !IsDeadLetter(Run(cfg, FreshStore(nodes), acts).queue.tasks[ids[0]].kind)
    ensures var q := Run(cfg, FreshStore(nodes), acts).queue;
            var b, failed := Budget(q.tasks[ids[0]].maxAttempts), |ids| - 1;
            && (IsDeadLetter(q.tasks[ids[failed]].kind) <==> b == 1 && failed >= 1)
            && (DeadLetters(After(true, AsQueued(q.tasks[ids[0]]), FailuresOf(q, ids))) == 1 <==> failed >= b)
  {
    hide Run, LegalRun, After, FailuresOf, LineageIs, DeadLetters, IsDeadLetter;
    var q := Run(cfg, FreshStore(nodes), acts).queue;
    ChainIsAfter(cfg, nodes, acts, ids);
    var root, failures := AsQueued(q.tasks[ids[0]]), FailuresOf(q, ids);
    assert |failures| == |ids| - 1 by { ChainFailures(q, ids); }
    BudgetRestarts(root, failures);
    CodeMeetsBudgetIff(root, failures);
    LastKind(After(false, root, failures), root, |failures|);
    assert AsQueued(q.tasks[ids[|ids| - 1]]).kind == q.tasks[ids[|ids| - 1]].kind;
  }

  lemma ChainFailures(q: Queue, ids: seq<string>)
    requires Chain(q, ids)
    ensures |FailuresOf(q, ids)| == |ids| - 1
  {
  }

  lemma LastKind(l: Lineage, root: AgentTask, failures: nat)
    requires NewRoot(root)
    requires var b := Budget(root.maxAttempts);
             if b >= 2 then LineageIs(l, failures, root.kind, 0, b)
             else if failures == 0 then LineageIs(l, 0, root.kind, 0, 1)
             else LineageIs(l, 1, DEAD + root.kind, 0, 1)
    ensures IsDeadLetter(l.newest.kind) <==> Budget(root.maxAttempts) == 1 && failures >= 1
  {
    hide CountDead;
    BudgetIsPositive(root.maxAttempts);
  }

  /** Field by field: in every run the successor of a failed task is a retry of the same tool
      for the same requester with the same priority and payload map and the full budget,
      unless one attempt was all it had; then it is a dead letter for it. */
  lemma SuccessorInherits(cfg: Config, nodes: seq<Node>, acts: seq<Activity>, p: string)
    requires LegalRun(cfg, FreshStore(nodes), acts)
    requires p in Run(cfg, FreshStore(nodes), acts).queue.next
    ensures var q := Run(cfg, FreshStore(nodes), acts).queue;
            && p in q.tasks && q.next[p] in q.tasks
            && var failed, t := q.tasks[p], q.tasks[q.next[p]];
               if failed.maxAttempts != 1 then
                 && t.kind == failed.kind && t.payload == failed.payload && !t.deadLetter
                 && t.requestedBy == (if failed.requestedBy == "" then "android-admin" else failed.requestedBy)
                 && t.priority == (if failed.priority == 0 then 50 else failed.priority)
                 && t.maxAttempts == (if failed.maxAttempts <= 0 then 3 else failed.maxAttempts)
               else
                 && t.kind == "deadletter." + failed.kind && t.deadLetter && t.payload == Some(t.id)
                 && t.requestedBy == "autonomy-worker" && t.priority == 10 && t.maxAttempts == 1
  {
    hide Run, LegalRun, EdgesInv, LineageInv, NextInv, KindInv, KeysInv, AttemptsInv;
    RunKeepsEdges(cfg, nodes, acts);
    RunKeepsQueueInv(cfg, nodes, acts);
    EdgeInherits(Run(cfg, FreshStore(nodes), acts).queue, Run(cfg, FreshStore(nodes), acts).seqNo, p);
  }

  lemma EdgeInherits(q: Queue, seqNo: nat, p: string)
    requires EdgesInv(q) && KeysInv(q, seqNo) && p in q.next
    ensures && p in q.tasks && q.next[p] in q.tasks
            && var failed, t := q.tasks[p], q.tasks[q.next[p]];
               if failed.maxAttempts != 1 then
                 && t.kind == failed.kind && t.payload == failed.payload && !t.deadLetter
                 && t.requestedBy == (if failed.requestedBy == "" then "android-admin" else failed.requestedBy)
                 && t.priority == (if failed.priority == 0 then 50 else failed.priority)
                 && t.maxAttempts == (if failed.maxAttempts <= 0 then 3 else failed.maxAttempts)
               else
                 && t.kind == "deadletter." + failed.kind && t.deadLetter && t.payload == Some(t.id)
                 && t.requestedBy == "autonomy-worker" && t.priority == 10 && t.maxAttempts == 1
  {
    hide CounterOf;
    assert EdgeOk(q, p);
    var t := AsQueued(q.tasks[q.next[p]]);
    assert t.kind == q.tasks[q.next[p]].kind;
  }
}
