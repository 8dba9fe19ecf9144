// Two concrete runs in which what a stored job shows changes after its call returned.
module SampleRun {
  import opened Text
  import opened Models
  import opened Ids
  import opened RiskEngine
  import opened StoreModel
  import opened Orchestrator
  import opened Pipeline
  import opened CallEffects
  import opened ControlRuns
  import opened ControlTheorems
  import opened Retry
  import opened QueueRuns
  import opened Autonomy
  import opened WorkerRuns
  import opened WorkerMoves
  import opened SharedMaps
  import opened RowContents

  // ---- The recurring sample, its refused job and its retry ----

  const SAMPLE := "backup.verify.sample"

  lemma OneMoreMove(cfg: Config, nodes: seq<Node>, moves: seq<Move>, move: Move)
    requires FairPlay(cfg, Opening(nodes), moves) && May(Play(cfg, Opening(nodes), moves), move)
    ensures FairPlay(cfg, Opening(nodes), moves + [move])
    ensures Play(cfg, Opening(nodes), moves + [move]) == Advance(cfg, Play(cfg, Opening(nodes), moves), move)
  {
    hide May, Advance, Opening;
    assert (moves + [move])[..|moves + [move]| - 1] == moves;
  }

  /** The only task there is: a sample with its own payload map. */
  predicate Alone(w: World, id: string) {
    var q := w.st.queue;
    && q.tasks.Keys == {id} && q.tasks[id].id == id && q.tasks[id].kind == SAMPLE && q.tasks[id].payload == Some(id)
    && q.tasks[id].maxAttempts == 3 && q.next == map[] && id in w.st.heap.payloads && id != ""
  }

  lemma SampleIsNoDeadLetter()
    ensures !IsDeadLetter(SAMPLE)
  {
    assert SAMPLE[0] == 'b' && DEAD[0] == 'd';
  }

  lemma Scheduled(cfg: Config, nodes: seq<Node>, at: int)
    ensures var move := Theirs(Background(CreateTask(ScheduledSeed(SAMPLE), None, at)));
            var w, id := Advance(cfg, Opening(nodes), move), IdText("task", 1);
            && May(Opening(nodes), move) && w.phase.Resting? && Alone(w, id)
            && w.st.queue.tasks[id].status == Queued && w.st.queue.tasks[id].attempts == 0
            && w.st.ledger == FreshStore(nodes).ledger && w.st.seqNo == 1
  {
    IdIsNotEmpty("task", 1);
    hide IdText;
  }

  function ClaimMove(id: string, at: int): Move {
    Mine(Background(ClaimTask(id, at)))
  }

  function TagMove(id: string): Move {
    Mine(Background(TagPayload(id)))
  }

  /** A claim and the write that follows it. */
  lemma ClaimedAndTagged(cfg: Config, w: World, id: string, at: int)
    requires w.phase.Resting? && Claimable(w.st.queue, id) && w.st.queue.tasks[id].id == id
    requires w.st.queue.tasks[id].kind == SAMPLE
    ensures var w1 := Advance(cfg, w, ClaimMove(id, at));
            var w2 := Advance(cfg, w1, TagMove(id));
            && May(w, ClaimMove(id, at)) && May(w1, TagMove(id))
            && w2.phase == Tagged(w2.st.queue.tasks[id])
            && w2.st.queue == Claim(w.st.queue, id, at)
            && w2.st.ledger == w.st.ledger && w2.st.heap.payloads.Keys == w.st.heap.payloads.Keys
  {
    SampleIsNoDeadLetter();
    hide Claimable, Handle, IsDeadLetter;
    ClaimableIsTask(w.st.queue, id);
  }

  /** A sample's call is refused: it adds a job with the request's own map and no more. */
  lemma SampleIsRefused(cfg: Config, st: Store, task: AgentTask, clock: Clock, run: ToolRun)
    requires task.kind == SAMPLE && !Answered(st, WorkerRequest(st.heap, task))
    ensures var req := WorkerRequest(st.heap, task);
            var st', job := Handle(cfg, st, req, clock, run), IdText("job", st.seqNo + 1);
            && st'.queue == st.queue && st'.heap == st.heap
            && job in st'.ledger.jobs && st'.ledger.jobs[job].input == InputOf(req)
            && st'.ledger.jobs[job].idemKey == task.id
  {
    hide Answered, Handle, Assess, IncidentsOf, AuditOf, IdText, Path, Classify, Admits, InputOf, QueuedBy, HeapBy;
    var req := WorkerRequest(st.heap, task);
    WorkerGuard(cfg, st, task, clock);
    AllowedIff(cfg, st, req, clock);
    CallEffect(cfg, st, req, clock, run);
    CallQueueExactly(cfg, st, req, clock, run);
  }

  lemma TaggedCall(w: World, id: string, clock: Clock, run: ToolRun)
    requires Alone(w, id) && w.phase == Tagged(w.st.queue.tasks[id]) && w.st.ledger.byKey == map[]
    ensures var req := WorkerRequest(w.st.heap, w.st.queue.tasks[id]);
            && May(w, Mine(Call(req, clock, run))) && InputOf(req) == Shared(id) && !Answered(w.st, req)
  {
  }

  /** The call for the sample is refused, and its job keeps the payload map as its input. */
  lemma CalledInVain(cfg: Config, w: World, id: string, clock: Clock, run: ToolRun)
    requires Alone(w, id) && w.phase == Tagged(w.st.queue.tasks[id]) && w.st.ledger.byKey == map[]
    ensures var move := Mine(Call(WorkerRequest(w.st.heap, w.st.queue.tasks[id]), clock, run));
            var w', job := Advance(cfg, w, move), IdText("job", w.st.seqNo + 1);
            && May(w, move) && w'.phase.Heard? && w'.phase.task == w.phase.task && w'.phase.error != ""
            && w'.st.queue == w.st.queue && w'.st.heap == w.st.heap
            && job in w'.st.ledger.jobs && w'.st.ledger.jobs[job].input == Shared(id)
            && w'.st.ledger.jobs[job].idemKey == id
  {
    hide Answered, Hopeless, Handle, ReturnedJob, WorkerError, WorkerReport, IdText, WorkerRequest, InputOf;
    var task := w.st.queue.tasks[id];
    BackupSampleIsHopeless();
    HopelessCallFails(cfg, w.st, task, clock, run);
    TaggedCall(w, id, clock, run);
    SampleIsRefused(cfg, w.st, task, clock, run);
  }

  function EndMove(w: World, at: int): Move
    requires w.phase.Heard?
  {
    Mine(Background(CompleteTask(w.phase.task.id, w.phase.result, w.phase.error, at)))
  }

  function OweMove(w: World, id: string, at: int): Move
    requires id in w.st.queue.tasks
  {
    Mine(Background(CreateTask(SuccessorSeed(w.st.queue.tasks[id]), Some(id), at)))
  }

  /** The task fails. */
  lemma Failing(cfg: Config, w: World, id: string, at: int)
    requires Alone(w, id) && w.phase.Heard? && w.phase.task.id == id && w.phase.error != ""
    requires w.st.queue.tasks[id].attempts == 1
    ensures var w1 := Advance(cfg, w, EndMove(w, at));
            && May(w, EndMove(w, at)) && w1.phase == Owing(id) && Alone(w1, id) && w1.st.ledger == w.st.ledger
            && w1.st.queue.tasks[id].status == TaskFailed && w1.st.queue.tasks[id].attempts == 1
            && w1.st.seqNo == w.st.seqNo
  {
    SampleIsNoDeadLetter();
    hide Handle, IsDeadLetter, HasPrefix;
  }

  lemma SampleSuccessor(failed: AgentTask, y: string, at: int)
    requires failed.attempts == 1 && failed.maxAttempts == 3
    ensures var t := TaskOf(SuccessorSeed(failed), y, at);
            && t.id == y && t.kind == failed.kind && t.payload == failed.payload && t.status == Queued
            && !SuccessorSeed(failed).payload.Fresh?
  {
  }

  /** And is followed by a retry with the same payload map. */
  lemma Retrying(cfg: Config, w: World, id: string, at: int)
    requires Alone(w, id) && w.phase == Owing(id) && KeysInv(w.st.queue, w.st.seqNo)
    requires w.st.queue.tasks[id].status == TaskFailed && w.st.queue.tasks[id].attempts == 1
    ensures var w1, y := Advance(cfg, w, OweMove(w, id, at)), IdText("task", w.st.seqNo + 1);
            && May(w, OweMove(w, id, at)) && w1.phase.Resting? && y != id
            && w1.st.queue.tasks.Keys == {id, y} && w1.st.queue.tasks[id] == w.st.queue.tasks[id]
            && w1.st.queue.tasks[y].id == y && w1.st.queue.tasks[y].kind == SAMPLE
            && w1.st.queue.tasks[y].status == Queued && w1.st.queue.tasks[y].payload == Some(id)
            && w1.st.queue.next == map[id := y] && w1.st.ledger == w.st.ledger
  {
    hide IdText, CounterOf, Handle, IsDeadLetter, SuccessorSeed, TaskOf, IsTaskId;
    NewTaskIdIsFresh(w.st.queue, w.st.seqNo);
    SampleSuccessor(w.st.queue.tasks[id], IdText("task", w.st.seqNo + 1), at);
  }

  /** The whole run: the sample is scheduled, refused and retried, up to the moment when the
      worker writes into the retry's payload. */
  lemma SampleInputChanges(cfg: Config, nodes: seq<Node>, clock: Clock, run: ToolRun, at: int)
    returns (moves: seq<Move>, n: nat, id: string)
    ensures FairPlay(cfg, Opening(nodes), moves) && n <= |moves|
    ensures var w, w' := Play(cfg, Opening(nodes), moves[..n]), Play(cfg, Opening(nodes), moves);
            && w.phase.Heard? && id in w.st.ledger.jobs && id in w'.st.ledger.jobs
            && w.st.ledger.jobs[id].idemKey == IdText("task", 1)
            && w'.st.ledger.jobs[id] == w.st.ledger.jobs[id]
            && InputIn(w'.st.heap, w'.st.ledger.jobs[id]) != InputIn(w.st.heap, w.st.ledger.jobs[id])
            && var rows := TablesAfter(cfg, nodes, Acts(moves[..n])).jobs;
               var rows' := TablesAfter(cfg, nodes, Acts(moves)).jobs;
               && id in rows && rows[id].input == InputIn(w.st.heap, w.st.ledger.jobs[id])
               && id in rows' && rows'[id].input != InputIn(w'.st.heap, w'.st.ledger.jobs[id])
  {
    hide Play, FairPlay, May, Advance, IdText, KeysInv, LineageInv, NextInv, AttemptsInv, KindInv, LegalRun, Run, Acts,
         TablesAfter, WorkerRequest, SuccessorSeed, Claimable, IsDeadLetter, Opening, ScheduledSeed, PhaseInv, InputIn;
    var task := IdText("task", 1);
    var w0, none := Opening(nodes), [];
    StartOfPlay(cfg, nodes);
    Scheduled(cfg, nodes, at);
    var m0 := Theirs(Background(CreateTask(ScheduledSeed(SAMPLE), None, at)));
    OneMoreMove(cfg, nodes, none, m0);
    moves := none + [m0];
    var w := Play(cfg, Opening(nodes), moves);
    OnlyTaskIsClaimable(w, task);
    ClaimedAndTagged(cfg, w, task, at);
    OneMoreMove(cfg, nodes, moves, ClaimMove(task, at));
    moves := moves + [ClaimMove(task, at)];
    OneMoreMove(cfg, nodes, moves, TagMove(task));
    moves := moves + [TagMove(task)];
    var w2 := Play(cfg, Opening(nodes), moves);
    ClaimKeepsAlone(w, w2, task, at);
    CalledInVain(cfg, w2, task, clock, run);
    var call := Mine(Call(WorkerRequest(w2.st.heap, w2.st.queue.tasks[task]), clock, run));
    OneMoreMove(cfg, nodes, moves, call);
    moves, n, id := moves + [call], |moves| + 1, IdText("job", w2.st.seqNo + 1);
    ghost var called := moves;
    var w3 := Play(cfg, Opening(nodes), called);
    assert Alone(w3, task);
    Failing(cfg, w3, task, at);
    OneMoreMove(cfg, nodes, moves, EndMove(w3, at));
    moves := moves + [EndMove(w3, at)];
    var w4 := Play(cfg, Opening(nodes), moves);
    PlayHasKeys(cfg, nodes, moves);
    Retrying(cfg, w4, task, at);
    OneMoreMove(cfg, nodes, moves, OweMove(w4, task, at));
    moves := moves + [OweMove(w4, task, at)];
    var w5 := Play(cfg, Opening(nodes), moves);
    var y := IdText("task", w4.st.seqNo + 1);
    OnlyQueuedIsClaimable(w5, task, y);
    ClaimedAndTagged(cfg, w5, y, at);
    OneMoreMove(cfg, nodes, moves, ClaimMove(y, at));
    moves := moves + [ClaimMove(y, at)];
    OneMoreMove(cfg, nodes, moves, TagMove(y));
    moves := moves + [TagMove(y)];
    assert moves[..n] == called;
    RetryIsWritten(w5, Play(cfg, Opening(nodes), moves), task, y, at);
    Conclusion(cfg, nodes, moves, n, id, task);
  }

  lemma StartOfPlay(cfg: Config, nodes: seq<Node>)
    ensures var none: seq<Move> := [];
            FairPlay(cfg, Opening(nodes), none) && Play(cfg, Opening(nodes), none) == Opening(nodes)
  {
  }

  lemma OnlyTaskIsClaimable(w: World, id: string)
    requires Alone(w, id) && w.st.queue.tasks[id].status == Queued
    ensures Claimable(w.st.queue, id)
  {
  }

  lemma OnlyQueuedIsClaimable(w: World, id: string, y: string)
    requires w.st.queue.tasks.Keys == {id, y} && w.st.queue.tasks[id].status == TaskFailed
    requires w.st.queue.tasks[y].status == Queued
    ensures Claimable(w.st.queue, y)
  {
  }

  lemma ClaimKeepsAlone(w: World, w': World, id: string, at: int)
    requires Alone(w, id) && w'.st.queue == Claim(w.st.queue, id, at)
    requires w'.st.heap.payloads.Keys == w.st.heap.payloads.Keys
    ensures Alone(w', id) && w'.st.queue.tasks[id].attempts == w.st.queue.tasks[id].attempts + 1
  {
  }

  lemma PlayHasKeys(cfg: Config, nodes: seq<Node>, moves: seq<Move>)
    requires FairPlay(cfg, Opening(nodes), moves)
    ensures var w := Play(cfg, Opening(nodes), moves); KeysInv(w.st.queue, w.st.seqNo)
  {
    hide Play, FairPlay, KeysInv, CellsInv;
    PlayHasCells(cfg, nodes, moves);
  }

  lemma RetryIsWritten(w: World, w': World, id: string, y: string, at: int)
    requires y in w.st.queue.tasks && id in w.st.queue.tasks && id != y
    requires w.st.queue.tasks[y].kind == SAMPLE && w.st.queue.tasks[y].payload == w.st.queue.tasks[id].payload
    requires id in w.st.queue.next && w.st.queue.next[id] == y
    requires w'.st.queue == Claim(w.st.queue, y, at) && w'.phase.Tagged?
    ensures RetryWritten(ViewOf(w'), id)
  {
    SampleIsNoDeadLetter();
    hide IsDeadLetter;
  }

  lemma Conclusion(cfg: Config, nodes: seq<Node>, moves: seq<Move>, n: nat, id: string, task: string)
    requires FairPlay(cfg, Opening(nodes), moves) && n <= |moves|
    requires var w := Play(cfg, Opening(nodes), moves[..n]);
             && w.phase.Heard? && w.phase.task.id == task && id in w.st.ledger.jobs
             && w.st.ledger.jobs[id].input.Shared? && w.st.ledger.jobs[id].idemKey == task
    requires RetryWritten(ViewOf(Play(cfg, Opening(nodes), moves)), task)
    ensures var w, w' := Play(cfg, Opening(nodes), moves[..n]), Play(cfg, Opening(nodes), moves);
            && id in w'.st.ledger.jobs && w'.st.ledger.jobs[id] == w.st.ledger.jobs[id]
            && InputIn(w'.st.heap, w'.st.ledger.jobs[id]) != InputIn(w.st.heap, w.st.ledger.jobs[id])
            && var rows := TablesAfter(cfg, nodes, Acts(moves[..n])).jobs;
               var rows' := TablesAfter(cfg, nodes, Acts(moves)).jobs;
               && id in rows && rows[id].input == InputIn(w.st.heap, w.st.ledger.jobs[id])
               && id in rows' && rows'[id].input != InputIn(w'.st.heap, w'.st.ledger.jobs[id])
  {
    hide Play, FairPlay, RetryWritten, TablesAfter, Acts, InputIn, Others;
    PlayKeepsAll(cfg, nodes, moves, n);
    NoRetryAtReturn(cfg, nodes, moves[..n]);
    InputChangesIff(cfg, nodes, moves, n, id);
    RowInputIsCurrentIff(cfg, nodes, moves[..n], id);
    RowInputIsCurrentIff(cfg, nodes, moves, id);
  }

  // ---- A result that shares the cluster state ----

  const READING_STATE := Request("cluster.get_state", map[], None, "", false, "", "", false, map[])

  /** cluster.get_state answers with slices of the live state, here `before`; a later heartbeat
      writes into them. */
  function StateRun(nodes: seq<Node>, before: Params, at: int): ToolRun {
    ToolRun(Done(before, true, None), ToolEffect(0, None, nodes, map[], at))
  }

  function HeartbeatRun(nodes: seq<Node>, before: Params, after: Params, clock: Clock, at: int): seq<Activity> {
    [Call(READING_STATE, clock, StateRun(nodes, before, at)),
     Background(SetNodes(nodes, map[IdText("job", 1) := after]))]
  }

  lemma StateIsRead(nodes: seq<Node>, before: Params, at: int)
    ensures QuietLook(READING_STATE, StateRun(nodes, before, at))
  {
    assert ToLower("cluster.get_state") == "cluster.get_state";
  }

  /** A LOW call without a key whose tool succeeds. */
  predicate QuietLook(req: Request, run: ToolRun) {
    && Classify(req.tool, req.params) == Low && req.idemKey == ""
    && run.outcome.Done? && run.outcome.live && run.effect.newTask.None?
  }

  lemma LookIsAllowed(cfg: Config, st: Store, req: Request, clock: Clock, run: ToolRun)
    requires QuietLook(req, run)
    ensures !Answered(st, req) && Assess(cfg, st, req, clock).decision.allow
  {
    hide Assess, Classify;
    AllowedIff(cfg, st, req, clock);
  }

  /** The job of such a call keeps the live result itself. */
  lemma LiveResultIsKept(cfg: Config, st: Store, req: Request, clock: Clock, run: ToolRun)
    requires QuietLook(req, run)
    ensures var st', id := Handle(cfg, st, req, clock, run), IdText("job", st.seqNo + 1);
            && id in st'.ledger.jobs && st'.ledger.jobs[id].result == Some(Shared(id))
            && id in st'.heap.outputs && st'.heap.outputs[id] == run.outcome.result
  {
    hide Assess, Classify, AuditOf, Handle, IdText, Answered, IncidentsOf, Path, Touched;
    LookIsAllowed(cfg, st, req, clock, run);
    CallEffect(cfg, st, req, clock, run);
    CallQueueExactly(cfg, st, req, clock, run);
  }

  /** The stored result changes with the state although no field of the job does, and so it is
      only which result a job has that is final. */
  lemma LiveResultChanges(cfg: Config, nodes: seq<Node>, before: Params, after: Params, clock: Clock, at: int)
    ensures var acts := HeartbeatRun(nodes, before, after, clock, at);
            var st, st' := Run(cfg, FreshStore(nodes), acts[..1]), Run(cfg, FreshStore(nodes), acts);
            var id := IdText("job", 1);
            && WellFormed(acts) && id in st.ledger.jobs && st'.ledger == st.ledger
            && ResultIn(st.heap, st.ledger.jobs[id]) == Some(before)
            && ResultIn(st'.heap, st'.ledger.jobs[id]) == Some(after)
  {
    hide Run, Handle, IdText, READING_STATE, Classify;
    var st0 := FreshStore(nodes);
    var acts := HeartbeatRun(nodes, before, after, clock, at);
    var first := acts[..1];
    assert first[..|first| - 1] == [] && acts[..|acts| - 1] == first;
    EmptyRun(cfg, st0);
    RunStep(cfg, st0, first);
    RunStep(cfg, st0, acts);
    StateIsRead(nodes, before, at);
    LiveResultIsKept(cfg, st0, READING_STATE, clock, StateRun(nodes, before, at));
  }
}
