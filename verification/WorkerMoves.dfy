// The worker among other callers: its claim, its write to the payload, its call, the
// completion and the successor are separate steps, and anyone may act in between.
module WorkerMoves {
  import opened Text
  import opened Models
  import opened Ids
  import opened RiskEngine
  import opened StoreModel
  import opened Orchestrator
  import opened Pipeline
  import opened CallEffects
  import opened ControlRuns
  import opened ControlTheorems
  import opened Retry
  import opened QueueRuns
  import opened Autonomy
  import opened WorkerRuns

  /** Where the worker stands, with what it remembers: the task as it was claimed, and
      the result and error it is about to record. */
  datatype Phase =
    | Resting
    | Holding(task: AgentTask)
    | Tagged(task: AgentTask)
    | Heard(task: AgentTask, result: TaskResult, error: string)
    | Owing(id: string)

  datatype World = World(st: Store, phase: Phase)

  datatype Move = Theirs(act: Activity) | Mine(act: Activity)

  /** Everyone else calls and creates tasks as they like, with maps of their own, and reads
      or changes what is not the queue's. */
  predicate OthersMay(act: Activity) {
    match act
    case Call(req, _, _) => req.shared.None?
    case Background(op) =>
      || op.ReadPolicyMode? || op.SetNodes? || op.TakeIds?
      || (op.CreateTask? && op.parent.None? && !op.seed.payload.SameAs?)
  }

  /** The worker does what runOnce does next. */
  predicate WorkerMay(w: World, act: Activity) {
    match w.phase
    case Resting => act.Background? && act.op.ClaimTask? && Claimable(w.st.queue, act.op.id)
    case Holding(task) =>
      act.Background? &&
      if IsDeadLetter(task.kind)
      then act.op.CompleteTask? && act.op.id == task.id && act.op.result == Acknowledged && act.op.error == ""
      else act.op == TagPayload(task.id)
    case Tagged(task) => act.Call? && act.req == WorkerRequest(w.st.heap, task)
    case Heard(task, result, error) =>
      && act.Background? && act.op.CompleteTask?
      && act.op.id == task.id && act.op.result == result && act.op.error == error
    case Owing(id) =>
      act.Background? && act.op.CreateTask? && act.op.parent == Some(id)
      && id in w.st.queue.tasks && act.op.seed == SuccessorSeed(w.st.queue.tasks[id])
  }

  predicate May(w: World, move: Move) {
    match move
    case Theirs(act) => OthersMay(act)
    case Mine(act) => WorkerMay(w, act)
  }

  function NextPhase(cfg: Config, w: World, act: Activity): Phase
    requires WorkerMay(w, act)
  {
    match w.phase
    case Resting => Holding(Claim(w.st.queue, act.op.id, act.op.at).tasks[act.op.id])
    case Holding(task) => if IsDeadLetter(task.kind) then Resting else Tagged(task)
    case Tagged(task) =>
      Heard(task, WorkerReport(cfg, w.st, task, act.clock, act.run),
            WorkerError(ReturnedJob(cfg, w.st, act.req, act.clock, act.run)))
    case Heard(task, _, error) => if error != "" then Owing(task.id) else Resting
    case Owing(_) => Resting
  }

  function Advance(cfg: Config, w: World, move: Move): World {
    World(Perform(cfg, w.st, move.act),
          if move.Mine? && WorkerMay(w, move.act) then NextPhase(cfg, w, move.act) else w.phase)
  }

  function Play(cfg: Config, w: World, moves: seq<Move>): World {
    if moves == [] then w else Advance(cfg, Play(cfg, w, moves[..|moves| - 1]), moves[|moves| - 1])
  }

  /** Everybody makes only moves that are theirs to make. */
  ghost predicate FairPlay(cfg: Config, w: World, moves: seq<Move>) {
    moves == [] || (
      var before := moves[..|moves| - 1];
      FairPlay(cfg, w, before) && May(Play(cfg, w, before), moves[|moves| - 1]))
  }

  function Acts(moves: seq<Move>): seq<Activity> {
    seq(|moves|, i requires 0 <= i < |moves| => moves[i].act)
  }

  function Opening(nodes: seq<Node>): World {
    World(FreshStore(nodes), Resting)
  }

  // ---- Such plays are legal runs ----

  function PendingOf(phase: Phase): Option<string> {
    if phase.Owing? then Some(phase.id) else None
  }

  predicate Busy(phase: Phase) {
    phase.Holding? || phase.Tagged? || phase.Heard?
  }

  /** The worker's task is running and the worker's copy of it is right. */
  ghost predicate PhaseInv(w: World) {
    Busy(w.phase) ==>
      && w.phase.task.id in w.st.queue.tasks
      && IsTaskId(w.phase.task.id)
      && w.st.queue.tasks[w.phase.task.id].status == TaskRunning
      && w.st.queue.tasks[w.phase.task.id].kind == w.phase.task.kind
      && w.st.queue.tasks[w.phase.task.id].payload == w.phase.task.payload
      && (!w.phase.Holding? ==> !IsDeadLetter(w.phase.task.kind))
  }

  lemma TheirMoveKeepsPhase(cfg: Config, w: World, act: Activity)
    requires QueueInv(w.st.queue, w.st.seqNo, PendingOf(w.phase)) && NamesInv(w.st.queue) && PhaseInv(w)
             && OthersMay(act)
    ensures Legal(w.st, PendingOf(w.phase), act)
    ensures PhaseInv(World(Perform(cfg, w.st, act), w.phase))
    ensures PendingAfter(PendingOf(w.phase), act) == PendingOf(w.phase)
  {
    hide LineageInv, NextInv, AttemptsInv, KindInv, IsTaskId, CounterOf, IdText, Handle;
    if act.Call? && Busy(w.phase) {
      CallKeepsTask(cfg, w.st, act.req, act.clock, act.run, w.phase.task.id);
    }
    if act.Background? && act.op.CreateTask? {
      NewTaskIdIsFresh(w.st.queue, w.st.seqNo);
    }
  }

  lemma MyMoveKeepsPhase(cfg: Config, w: World, act: Activity)
    requires QueueInv(w.st.queue, w.st.seqNo, PendingOf(w.phase)) && NamesInv(w.st.queue) && PhaseInv(w)
             && WorkerMay(w, act)
    ensures Legal(w.st, PendingOf(w.phase), act)
    ensures PhaseInv(World(Perform(cfg, w.st, act), NextPhase(cfg, w, act)))
    ensures PendingAfter(PendingOf(w.phase), act) == PendingOf(NextPhase(cfg, w, act))
  {
    hide LineageInv, NextInv, AttemptsInv, KindInv, IsTaskId, CounterOf, Handle, ReturnedJob, WorkerError, WorkerReport,
         WorkerRequest, Claimable, PutTask, TaskOf;
    match w.phase {
      case Resting => ClaimableIsTask(w.st.queue, act.op.id);
      case Tagged(task) => CallKeepsTask(cfg, w.st, act.req, act.clock, act.run, task.id);
      case _ =>
    }
  }

  lemma PlayStep(cfg: Config, w: World, moves: seq<Move>)
    requires moves != []
    ensures var before, last := moves[..|moves| - 1], moves[|moves| - 1];
            && Play(cfg, w, moves) == Advance(cfg, Play(cfg, w, before), last)
            && (FairPlay(cfg, w, moves) ==> FairPlay(cfg, w, before) && May(Play(cfg, w, before), last))
            && Acts(moves) == Acts(before) + [last.act]
  {
    hide Advance, May;
  }

  lemma EmptyPlay(cfg: Config, nodes: seq<Node>)
    ensures var none: seq<Move> := [];
            && Play(cfg, Opening(nodes), none) == Opening(nodes) && Acts(none) == []
            && PhaseInv(Opening(nodes)) && PendingOf(Opening(nodes).phase).None?
            && Opening(nodes).st == FreshStore(nodes)
  {
  }

  /** A fair play of the worker and everyone else is a legal run of the queue, so every
      theorem about legal runs holds of it at every moment. */
  lemma {:induction false} PlayIsLegal(cfg: Config, nodes: seq<Node>, moves: seq<Move>)
    requires FairPlay(cfg, Opening(nodes), moves)
    ensures var w := Play(cfg, Opening(nodes), moves);
            && w.st == Run(cfg, FreshStore(nodes), Acts(moves))
            && LegalRun(cfg, FreshStore(nodes), Acts(moves))
            && PendingAfterAll(Acts(moves)) == PendingOf(w.phase)
            && PhaseInv(w)
  {
    hide *;
    var st0 := FreshStore(nodes);
    if moves == [] {
      EmptyPlay(cfg, nodes);
      EmptyRun(cfg, st0);
    } else {
      var before, last := moves[..|moves| - 1], moves[|moves| - 1];
      PlayStep(cfg, Opening(nodes), moves);
      PlayIsLegal(cfg, nodes, before);
      RunKeepsQueueInv(cfg, nodes, Acts(before));
      TasksAreNamed(cfg, nodes, Acts(before));
      MoveIsLegal(cfg, Play(cfg, Opening(nodes), before), last);
      OneMore(cfg, st0, Acts(before), last.act);
    }
  }

  lemma MoveIsLegal(cfg: Config, w: World, move: Move)
    requires QueueInv(w.st.queue, w.st.seqNo, PendingOf(w.phase)) && NamesInv(w.st.queue) && PhaseInv(w) && May(w, move)
    ensures var w' := Advance(cfg, w, move);
            && Legal(w.st, PendingOf(w.phase), move.act)
            && w'.st == Perform(cfg, w.st, move.act)
            && PendingAfter(PendingOf(w.phase), move.act) == PendingOf(w'.phase)
            && PhaseInv(w')
  {
    hide Perform, Legal, OthersMay, WorkerMay, NextPhase, PhaseInv, QueueInv, NamesInv, PendingAfter;
    if move.Mine? {
      MyMoveKeepsPhase(cfg, w, move.act);
    } else {
      TheirMoveKeepsPhase(cfg, w, move.act);
    }
  }

  /** Whatever the worker does, and in between whom, if nobody else ever reauthenticates, no
      HIGH tool executes and the mode stays guarded. */
  lemma WorkerAddsNoAuthority(cfg: Config, nodes: seq<Node>, moves: seq<Move>)
    requires FairPlay(cfg, Opening(nodes), moves)
    requires forall m | m in moves && m.Theirs? && m.act.Call? :: !m.act.req.approveNow
    ensures var st := Play(cfg, Opening(nodes), moves).st;
            && st.mode.mode == GuardedSre
            && forall i | 0 <= i < |st.ledger.executed| :: st.ledger.executed[i].risk != High
  {
    hide Run, LegalRun, Play, FairPlay, PhaseInv;
    PlayIsLegal(cfg, nodes, moves);
    LegalRunsAreWellFormed(cfg, FreshStore(nodes), Acts(moves));
    forall i | 0 <= i < |moves| && moves[i].act.Call?
      ensures !moves[i].act.req.approveNow
    {
      assert moves[i] in moves;
      if moves[i].Mine? {
        MyCallsAreUnapproved(cfg, Opening(nodes), moves, i);
      }
    }
    UnapprovedRunsStayGuarded(cfg, nodes, Acts(moves));
  }

  lemma {:induction false} MyCallsAreUnapproved(cfg: Config, w: World, moves: seq<Move>, i: nat)
    requires FairPlay(cfg, w, moves) && i < |moves| && moves[i].Mine? && moves[i].act.Call?
    ensures !moves[i].act.req.approveNow
  {
    hide Play;
    var before := moves[..|moves| - 1];
    if i < |before| {
      assert before[i] == moves[i];
      MyCallsAreUnapproved(cfg, w, before, i);
    }
  }

  // ---- What the worker can never complete ----

  /** Nobody else uses the id of a task, present or future, as an idempotency key. */
  predicate LeavesTaskIds(moves: seq<Move>) {
    forall m | m in moves && m.Theirs? && m.act.Call? :: !IsTaskId(m.act.req.idemKey)
  }

  /** A kind that is HIGH whatever its payload. */
  ghost predicate Hopeless(kind: string) {
    !IsDeadLetter(kind) && forall params: Params :: Classify(kind, params) == High
  }

  lemma BackupSampleIsHopeless()
    ensures Hopeless("backup.verify.sample")
  {
    var kind := "backup.verify.sample";
    assert !IsDeadLetter(kind) by { assert kind[0] == 'b' && DEAD[0] == 'd'; }
    forall params: Params
      ensures Classify(kind, params) == High
    {
      BackupSampleIsHigh(params);
    }
  }

  /** Only tasks that have been called for have their id bound. */
  ghost predicate BoundInv(w: World) {
    forall k | k in w.st.ledger.byKey && IsTaskId(k) ::
      && k in w.st.queue.tasks
      && w.st.queue.tasks[k].status != Queued
      && ((w.phase.Holding? || w.phase.Tagged?) ==> w.phase.task.id != k)
  }

  ghost predicate HopelessInv(w: World) {
    && (forall id | id in w.st.queue.tasks && Hopeless(w.st.queue.tasks[id].kind) ::
          w.st.queue.tasks[id].status != TaskCompleted)
    && (w.phase.Heard? && Hopeless(w.phase.task.kind) ==> w.phase.error != "")
  }

  lemma CallBindsOnlyItsKey(cfg: Config, st: Store, req: Request, clock: Clock, run: ToolRun)
    ensures forall k | k in Handle(cfg, st, req, clock, run).ledger.byKey :: k in st.ledger.byKey || k == req.idemKey
  {
    hide Handle, Answered, Assess, AuditOf, StoredJob, LocalJob, IncidentsOf, CounterOf, IdText, Path;
    if Answered(st, req) {
      AnsweredIsInert(cfg, st, req, clock, run);
    } else {
      CallEffect(cfg, st, req, clock, run);
      CallIsSettled(cfg, st, req, clock, run);
    }
  }

  /** What a call may do to the key index and to the tasks. */
  lemma CallLeaves(cfg: Config, st: Store, req: Request, clock: Clock, run: ToolRun)
    requires KeysInv(st.queue, st.seqNo)
    ensures var st' := Handle(cfg, st, req, clock, run);
            && (forall k | k in st'.ledger.byKey :: k in st.ledger.byKey || k == req.idemKey)
            && (forall id | id in st.queue.tasks :: id in st'.queue.tasks && st'.queue.tasks[id] == st.queue.tasks[id])
            && (forall id | id in st'.queue.tasks && id !in st.queue.tasks :: st'.queue.tasks[id].status == Queued)
  {
    hide Handle, CounterOf, IdText, IsTaskId;
    CallBindsOnlyItsKey(cfg, st, req, clock, run);
    CallQueueEffect(cfg, st, req, clock, run);
    var st' := Handle(cfg, st, req, clock, run);
    if st'.queue != st.queue {
      var seed, n, at :| && st.seqNo < n <= st'.seqNo
                         && st'.queue == PutTask(st.queue, TaskOf(seed, IdText("task", n), at), None);
      CounterOfIdText("task", n);
    }
  }

  /** The worker's call for a task whose id is unbound and whose kind is hopeless fails. */
  lemma HopelessCallFails(cfg: Config, st: Store, task: AgentTask, clock: Clock, run: ToolRun)
    requires Hopeless(task.kind) && task.id !in st.ledger.byKey
    ensures WorkerError(ReturnedJob(cfg, st, WorkerRequest(st.heap, task), clock, run)) != ""
  {
    hide Classify, ReturnedJob, Admits;
    var req := WorkerRequest(st.heap, task);
    assert !Answered(st, req);
    UnansweredStatus(cfg, st, req, clock, run);
    assert !Admits(cfg, st, req, clock) by { HighIsNotAdmitted(cfg, st, req, clock); }
  }

  lemma HighIsNotAdmitted(cfg: Config, st: Store, req: Request, clock: Clock)
    requires Classify(req.tool, req.params) == High && !req.approveNow
    ensures !Admits(cfg, st, req, clock)
  {
    hide Classify;
  }

  lemma TheirMoveKeepsBound(cfg: Config, w: World, act: Activity)
    requires QueueInv(w.st.queue, w.st.seqNo, PendingOf(w.phase)) && NamesInv(w.st.queue) && PhaseInv(w)
             && BoundInv(w) && HopelessInv(w)
    requires OthersMay(act) && (act.Call? ==> !IsTaskId(act.req.idemKey))
    ensures var w' := World(Perform(cfg, w.st, act), w.phase); BoundInv(w') && HopelessInv(w')
  {
    hide LineageInv, NextInv, AttemptsInv, KindInv, IsTaskId, CounterOf, IdText, Handle, Hopeless;
    if act.Call? {
      CallLeaves(cfg, w.st, act.req, act.clock, act.run);
    } else if act.op.CreateTask? {
      NewTaskIdIsFresh(w.st.queue, w.st.seqNo);
    }
  }

  lemma MyCallKeepsBound(cfg: Config, w: World, act: Activity)
    requires QueueInv(w.st.queue, w.st.seqNo, PendingOf(w.phase)) && NamesInv(w.st.queue) && PhaseInv(w)
             && BoundInv(w) && HopelessInv(w)
    requires w.phase.Tagged? && WorkerMay(w, act)
    ensures var w' := World(Perform(cfg, w.st, act), NextPhase(cfg, w, act)); BoundInv(w') && HopelessInv(w')
  {
    hide LineageInv, NextInv, AttemptsInv, KindInv, IsTaskId, CounterOf, Handle, ReturnedJob, WorkerError, WorkerReport,
         Hopeless;
    CallLeaves(cfg, w.st, act.req, act.clock, act.run);
    if Hopeless(w.phase.task.kind) {
      HopelessCallFails(cfg, w.st, w.phase.task, act.clock, act.run);
    }
  }

  /** One task rewritten, not back to the queue. */
  lemma TouchKeepsBound(w: World, w': World, id: string)
    requires BoundInv(w) && HopelessInv(w)
    requires id in w.st.queue.tasks && w'.st.ledger == w.st.ledger && id in w'.st.queue.tasks
    requires var t := w'.st.queue.tasks[id];
             && w'.st.queue.tasks == w.st.queue.tasks[id := t]
             && t.kind == w.st.queue.tasks[id].kind && t.status != Queued
             && (Hopeless(t.kind) ==> t.status != TaskCompleted)
    requires (w'.phase.Holding? || w'.phase.Tagged?) && IsTaskId(w'.phase.task.id) ==>
               w'.phase.task.id !in w.st.ledger.byKey
    requires w'.phase.Heard? ==> w'.phase == w.phase
    ensures BoundInv(w') && HopelessInv(w')
  {
    hide IsTaskId, Hopeless;
  }

  lemma ClaimedIsUnbound(w: World, id: string)
    requires KeysInv(w.st.queue, w.st.seqNo) && NamesInv(w.st.queue) && BoundInv(w) && id in w.st.queue.tasks
    requires w.st.queue.tasks[id].status == Queued
    ensures IsTaskId(id) && w.st.queue.tasks[id].id == id && id !in w.st.ledger.byKey
  {
    hide IsTaskId, CounterOf, Hopeless;
  }

  lemma ClaimKeepsBound(cfg: Config, w: World, act: Activity)
    requires KeysInv(w.st.queue, w.st.seqNo) && NamesInv(w.st.queue) && BoundInv(w) && HopelessInv(w)
    requires w.phase.Resting? && WorkerMay(w, act)
    ensures var w' := World(Perform(cfg, w.st, act), NextPhase(cfg, w, act)); BoundInv(w') && HopelessInv(w')
  {
    hide IsTaskId, CounterOf, Claimable, Hopeless, HopelessInv, Handle, ReturnedJob, WorkerReport, WorkerError,
         WorkerRequest, PutTask, TaskOf, IsDeadLetter, BoundInv, KeysInv, NamesInv;
    ClaimableIsTask(w.st.queue, act.op.id);
    ClaimedIsUnbound(w, act.op.id);
    TouchKeepsBound(w, World(Perform(cfg, w.st, act), NextPhase(cfg, w, act)), act.op.id);
  }

  lemma EndFacts(w: World)
    requires BoundInv(w) && HopelessInv(w) && (w.phase.Holding? || w.phase.Heard?)
    ensures IsDeadLetter(w.phase.task.kind) ==> !Hopeless(w.phase.task.kind)
    ensures w.phase.Heard? && Hopeless(w.phase.task.kind) ==> w.phase.error != ""
    ensures w.phase.Holding? && IsTaskId(w.phase.task.id) ==> w.phase.task.id !in w.st.ledger.byKey
  {
    hide IsTaskId;
  }

  lemma EndKeepsBound(cfg: Config, w: World, act: Activity)
    requires PhaseInv(w) && BoundInv(w) && HopelessInv(w)
    requires (w.phase.Holding? || w.phase.Heard?) && WorkerMay(w, act)
    ensures var w' := World(Perform(cfg, w.st, act), NextPhase(cfg, w, act)); BoundInv(w') && HopelessInv(w')
  {
    hide IsTaskId, CounterOf, Hopeless, HopelessInv, BoundInv, IsDeadLetter, Handle, ReturnedJob, WorkerReport,
         WorkerError,
         WorkerRequest, PutTask, TaskOf;
    EndFacts(w);
    TouchKeepsBound(w, World(Perform(cfg, w.st, act), NextPhase(cfg, w, act)), w.phase.task.id);
  }

  lemma OweKeepsBound(cfg: Config, w: World, act: Activity)
    requires KeysInv(w.st.queue, w.st.seqNo) && NamesInv(w.st.queue) && BoundInv(w) && HopelessInv(w)
    requires w.phase.Owing? && WorkerMay(w, act)
    ensures var w' := World(Perform(cfg, w.st, act), NextPhase(cfg, w, act)); BoundInv(w') && HopelessInv(w')
  {
    hide IsTaskId, CounterOf, IdText, Hopeless, SuccessorSeed, Handle, ReturnedJob, WorkerReport, WorkerError,
         WorkerRequest;
    NewTaskIdIsFresh(w.st.queue, w.st.seqNo);
  }

  lemma MyMoveKeepsBound(cfg: Config, w: World, act: Activity)
    requires QueueInv(w.st.queue, w.st.seqNo, PendingOf(w.phase)) && NamesInv(w.st.queue) && PhaseInv(w)
             && BoundInv(w) && HopelessInv(w)
    requires WorkerMay(w, act)
    ensures var w' := World(Perform(cfg, w.st, act), NextPhase(cfg, w, act)); BoundInv(w') && HopelessInv(w')
  {
    hide KeysInv, NamesInv, LineageInv, NextInv, AttemptsInv, KindInv, WorkerMay, NextPhase, Perform, PhaseInv,
         BoundInv, HopelessInv;
    match w.phase {
      case Resting => ClaimKeepsBound(cfg, w, act);
      case Tagged(_) => MyCallKeepsBound(cfg, w, act);
      case Owing(_) => OweKeepsBound(cfg, w, act);
      case _ => EndKeepsBound(cfg, w, act);
    }
  }

  lemma MoveKeepsBound(cfg: Config, w: World, move: Move)
    requires QueueInv(w.st.queue, w.st.seqNo, PendingOf(w.phase)) && NamesInv(w.st.queue) && PhaseInv(w)
             && BoundInv(w) && HopelessInv(w)
    requires May(w, move) && (move.Theirs? && move.act.Call? ==> !IsTaskId(move.act.req.idemKey))
    ensures var w' := Advance(cfg, w, move); BoundInv(w') && HopelessInv(w')
  {
    hide Perform, OthersMay, WorkerMay, NextPhase, PhaseInv, QueueInv, NamesInv, BoundInv, HopelessInv, IsTaskId;
    if move.Mine? {
      MyMoveKeepsBound(cfg, w, move.act);
    } else {
      TheirMoveKeepsBound(cfg, w, move.act);
    }
  }

  lemma {:induction false} PlayKeepsBound(cfg: Config, nodes: seq<Node>, moves: seq<Move>)
    requires FairPlay(cfg, Opening(nodes), moves) && LeavesTaskIds(moves)
    ensures var w := Play(cfg, Opening(nodes), moves); BoundInv(w) && HopelessInv(w)
  {
    if moves != [] {
      hide Play, FairPlay, Acts, Advance, May, PhaseInv, QueueInv, NamesInv, BoundInv, HopelessInv, IsTaskId, LegalRun,
           Run;
      var before, last := moves[..|moves| - 1], moves[|moves| - 1];
      assert forall m | m in before :: m in moves;
      assert last in moves;
      PlayStep(cfg, Opening(nodes), moves);
      PlayKeepsBound(cfg, nodes, before);
      PlayIsLegal(cfg, nodes, before);
      RunKeepsQueueInv(cfg, nodes, Acts(before));
      TasksAreNamed(cfg, nodes, Acts(before));
      MoveKeepsBound(cfg, Play(cfg, Opening(nodes), before), last);
    }
  }

  /** In every play in which nobody else takes a task's id as a key, no task of a kind
      that is always HIGH is ever completed, whoever created it and however the steps
      interleave. */
  lemma HopelessNeverCompletes(cfg: Config, nodes: seq<Node>, moves: seq<Move>, id: string)
    requires FairPlay(cfg, Opening(nodes), moves) && LeavesTaskIds(moves)
    ensures var q := Play(cfg, Opening(nodes), moves).st.queue;
            id in q.tasks && Hopeless(q.tasks[id].kind) ==> q.tasks[id].status != TaskCompleted
  {
    hide Play, FairPlay, Hopeless, BoundInv, LeavesTaskIds;
    PlayKeepsBound(cfg, nodes, moves);
  }

  /** In particular the scheduler's backup.verify.sample task: its lineage has, whenever the
      worker owes no successor, exactly one task that is queued or running, of the same
      kind and with the same budget, and so it goes on for ever. */
  lemma BackupSampleNeverEnds(cfg: Config, nodes: seq<Node>, moves: seq<Move>, root: string)
    requires FairPlay(cfg, Opening(nodes), moves) && LeavesTaskIds(moves)
    requires !Play(cfg, Opening(nodes), moves).phase.Owing?
    ensures var q := Play(cfg, Opening(nodes), moves).st.queue;
            && root in q.tasks && root in q.root && q.root[root] == root
            && q.tasks[root].kind == "backup.verify.sample" && BudgetOf(q.tasks[root]) >= 2 ==>
              && root in q.head && q.head[root] in q.tasks
              && q.tasks[q.head[root]].kind == "backup.verify.sample"
              && BudgetOf(q.tasks[q.head[root]]) == BudgetOf(q.tasks[root])
              && q.tasks[q.head[root]].status in {Queued, TaskRunning}
  {
    hide Play, FairPlay, Run, LegalRun, PhaseInv, LeavesTaskIds, Hopeless;
    var acts := Acts(moves);
    PlayIsLegal(cfg, nodes, moves);
    var q := Play(cfg, Opening(nodes), moves).st.queue;
    if root in q.tasks && root in q.root && q.root[root] == root
       && q.tasks[root].kind == "backup.verify.sample" && BudgetOf(q.tasks[root]) >= 2 {
      LineagesHaveOneLiveTask(cfg, nodes, acts);
      var head := q.head[root];
      HeadIsInLineage(cfg, nodes, acts, root);
      RetriesNeverDeadLetter(cfg, nodes, acts, head);
      BackupSampleIsHopeless();
      HopelessNeverCompletes(cfg, nodes, moves, head);
    }
  }

  lemma HeadIsInLineage(cfg: Config, nodes: seq<Node>, acts: seq<Activity>, root: string)
    requires LegalRun(cfg, FreshStore(nodes), acts)
    ensures var q := Run(cfg, FreshStore(nodes), acts).queue;
            root in q.tasks && root in q.root && q.root[root] == root ==>
              root in q.head && q.head[root] in q.tasks && q.head[root] in q.root && q.root[q.head[root]] == root
  {
    hide Run, LegalRun, NextInv, AttemptsInv, KindInv, KeysInv;
    RunKeepsQueueInv(cfg, nodes, acts);
    var q := Run(cfg, FreshStore(nodes), acts).queue;
    assert root in q.tasks ==> InLineage(q, root);
  }
}
