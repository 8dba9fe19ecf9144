// completeWithRetry of backend/internal/autonomy/service.go: what follows a
// failed task.
module Retry {
  import opened Text
  import opened Models
  import opened StoreModel

  function Budget(maxAttempts: int): int {
    if maxAttempts <= 0 then 3 else maxAttempts
  }

  lemma BudgetIsPositive(maxAttempts: int)
    ensures Budget(maxAttempts) >= 1
  {
  }

  /** The task created for a failed one: a retry while attempts are left, else a
      dead letter. Attempts are not part of it. */
  function SuccessorSeed(failed: AgentTask): TaskSeed {
    if failed.attempts < Budget(failed.maxAttempts) then
      TaskSeed(failed.kind, if failed.payload.Some? then SameAs(failed.payload.value) else Absent,
               failed.requestedBy, failed.priority, Budget(failed.maxAttempts), false)
    else
      TaskSeed(DEAD + failed.kind, Fresh(map["origin_task_id" := Str(failed.id), "error" := Str(failed.error)]),
               "autonomy-worker", 10, 1, true)
  }

  predicate IsDeadLetter(kind: string) {
    HasPrefix(kind, DEAD)
  }

  /** One failed run of a task: claimed once, then completed with an error. */
  function FailedOnce(t: AgentTask, error: string): AgentTask {
    t.(status := TaskFailed, attempts := t.attempts + 1, error := error)
  }

  // ---- Lineages, as written and as documented ----

  /** The end of one failed run: its error, and the id and time of the successor. */
  datatype Failure = Failure(error: string, nextId: string, at: int)

  /** The task that follows a failed one. The code creates it from the seed alone; with
      `carry` a retry takes over the attempts already made, as the documented budget
      needs it to. */
  function Successor(carry: bool, failed: AgentTask, f: Failure): AgentTask {
    var t := TaskOf(SuccessorSeed(failed), f.nextId, f.at);
    if carry && !t.deadLetter then t.(attempts := failed.attempts) else t
  }

  /** The tasks of a lineage: the ones that failed, in order, and the newest. */
  datatype Lineage = Lineage(failed: seq<AgentTask>, newest: AgentTask)

  /** The newest task fails and is followed by its successor. A dead letter is only
      acknowledged: it does not fail. */
  function Fail(carry: bool, l: Lineage, f: Failure): Lineage {
    if IsDeadLetter(l.newest.kind) then l
    else
      var failed := FailedOnce(l.newest, f.error);
      Lineage(l.failed + [failed], Successor(carry, failed, f))
  }

  function After(carry: bool, root: AgentTask, failures: seq<Failure>): Lineage {
    if failures == [] then Lineage([], root)
    else Fail(carry, After(carry, root, failures[..|failures| - 1]), failures[|failures| - 1])
  }

  function CountDead(ts: seq<AgentTask>): nat {
    if ts == [] then 0 else CountDead(ts[..|ts| - 1]) + if IsDeadLetter(ts[|ts| - 1].kind) then 1 else 0
  }

  function DeadLetters(l: Lineage): nat {
    CountDead(l.failed) + if IsDeadLetter(l.newest.kind) then 1 else 0
  }

  /** A task as its creator queues it. */
  predicate NewRoot(root: AgentTask) {
    root.status == Queued && root.attempts == 0 && !IsDeadLetter(root.kind)
  }

  /** `failed` tasks have failed, none of them a dead letter, and the newest waits. */
  ghost predicate LineageIs(l: Lineage, failed: nat, kind: string, attempts: nat, budget: int) {
    && |l.failed| == failed && CountDead(l.failed) == 0
    && (forall i | 0 <= i < failed :: l.failed[i].status == TaskFailed)
    && l.newest.kind == kind && l.newest.status == Queued && l.newest.attempts == attempts
    && Budget(l.newest.maxAttempts) == budget
  }

  lemma SuccessorIs(carry: bool, newest: AgentTask, f: Failure)
    ensures var failed := FailedOnce(newest, f.error);
            var next := Successor(carry, failed, f);
            var b := Budget(newest.maxAttempts);
            && next.status == Queued
            && if newest.attempts + 1 < b
               then next.kind == newest.kind && Budget(next.maxAttempts) == b
                    && next.attempts == (if carry then newest.attempts + 1 else 0)
               else IsDeadLetter(next.kind) && next.kind == DEAD + newest.kind && Budget(next.maxAttempts) == 1
                    && next.attempts == 0
  {
  }

  lemma CountDeadSnoc(ts: seq<AgentTask>, t: AgentTask)
    ensures CountDead(ts + [t]) == CountDead(ts) + if IsDeadLetter(t.kind) then 1 else 0
  {
    assert (ts + [t])[..|ts|] == ts;
  }

  /** What one failure makes of a lineage whose newest task is no dead letter. */
  lemma FailureStep(carry: bool, l: Lineage, f: Failure, failed: nat, kind: string, attempts: nat, budget: int)
    requires LineageIs(l, failed, kind, attempts, budget) && !IsDeadLetter(kind)
    ensures if attempts + 1 < budget
            then LineageIs(Fail(carry, l, f), failed + 1, kind, if carry then attempts + 1 else 0, budget)
            else LineageIs(Fail(carry, l, f), failed + 1, DEAD + kind, 0, 1)
  {
    hide CountDead, Successor, Budget, IsDeadLetter;
    SuccessorIs(carry, l.newest, f);
    CountDeadSnoc(l.failed, FailedOnce(l.newest, f.error));
  }

  lemma DeadLetterStays(carry: bool, l: Lineage, f: Failure, failed: nat, kind: string)
    requires LineageIs(l, failed, DEAD + kind, 0, 1)
    ensures Fail(carry, l, f) == l
  {
  }

  /** As written, with a budget of two or more every failure is followed by a retry with the
      full budget, for any number of failures; with a budget of one the first failure
      leaves a dead letter and the lineage ends. */
  lemma {:induction false} BudgetRestarts(root: AgentTask, failures: seq<Failure>)
    requires NewRoot(root)
    ensures var b := Budget(root.maxAttempts);
            var l := After(false, root, failures);
            if b >= 2 then LineageIs(l, |failures|, root.kind, 0, b)
            else if failures == [] then LineageIs(l, 0, root.kind, 0, 1)
            else LineageIs(l, 1, DEAD + root.kind, 0, 1)
  {
    if failures != [] {
      hide LineageIs, Fail;
      var before, f := failures[..|failures| - 1], failures[|failures| - 1];
      var l, b := After(false, root, before), Budget(root.maxAttempts);
      BudgetRestarts(root, before);
      if b >= 2 {
        FailureStep(false, l, f, |before|, root.kind, 0, b);
      } else if before == [] {
        FailureStep(false, l, f, 0, root.kind, 0, 1);
      } else {
        DeadLetterStays(false, l, f, 1, root.kind);
      }
    }
  }

  /** With the attempts carried forward a lineage that goes on failing makes exactly Budget
      attempts, then leaves a dead letter and ends: the documented behaviour, for every
      budget. */
  lemma {:induction false} CarriedBudgetIsExact(root: AgentTask, failures: seq<Failure>)
    requires NewRoot(root)
    ensures var b := Budget(root.maxAttempts);
            var l := After(true, root, failures);
            if |failures| < b then LineageIs(l, |failures|, root.kind, |failures|, b)
            else LineageIs(l, b, DEAD + root.kind, 0, 1)
  {
    if failures != [] {
      hide LineageIs, Fail;
      var before, f := failures[..|failures| - 1], failures[|failures| - 1];
      var l, b := After(true, root, before), Budget(root.maxAttempts);
      CarriedBudgetIsExact(root, before);
      if |before| < b {
        FailureStep(true, l, f, |before|, root.kind, |before|, b);
      } else {
        DeadLetterStays(true, l, f, b, root.kind);
      }
    }
  }

  lemma DeadLettersOf(l: Lineage, failed: nat, kind: string, attempts: nat, budget: int)
    requires LineageIs(l, failed, kind, attempts, budget)
    ensures DeadLetters(l) == if IsDeadLetter(kind) then 1 else 0
  {
  }

  /** After any number of failures the documented lineage has one dead letter exactly when
      its budget is used up, and the code has as many if and only if the budget is one or
      not used up yet. */
  lemma CodeMeetsBudgetIff(root: AgentTask, failures: seq<Failure>)
    requires NewRoot(root)
    ensures var b := Budget(root.maxAttempts);
            var documented := DeadLetters(After(true, root, failures));
            var written := DeadLetters(After(false, root, failures));
            && documented == (if |failures| >= b then 1 else 0)
            && (written == documented <==> b == 1 || |failures| < b)
  {
    hide After, DeadLetters, LineageIs, Budget;
    var b := Budget(root.maxAttempts);
    BudgetIsPositive(root.maxAttempts);
    BudgetRestarts(root, failures);
    CarriedBudgetIsExact(root, failures);
    var d, w := After(true, root, failures), After(false, root, failures);
    if |failures| < b {
      DeadLettersOf(d, |failures|, root.kind, |failures|, b);
    } else {
      DeadLettersOf(d, b, DEAD + root.kind, 0, 1);
    }
    if b >= 2 {
      DeadLettersOf(w, |failures|, root.kind, 0, b);
    } else if failures == [] {
      DeadLettersOf(w, 0, root.kind, 0, 1);
    } else {
      DeadLettersOf(w, 1, DEAD + root.kind, 0, 1);
    }
  }
}
