// The rows of jobs whose maps are shared: when a row still shows what the store holds.
module RowContents {
  import opened Text
  import opened Models
  import opened Ids
  import opened StoreModel
  import opened Orchestrator
  import opened Pipeline
  import opened ControlRuns
  import opened QueueRuns
  import opened WorkerRuns
  import opened WorkerMoves
  import opened WriteThrough
  import opened SharedMaps

  /** A row with a shared input shows the map as it was when the call's task had just been
      written into it. */
  ghost predicate RowsInv(st: Store, tb: Tables) {
    forall id | id in st.ledger.jobs && st.ledger.jobs[id].input.Shared? ::
      var job := st.ledger.jobs[id];
      && job.input.cell in st.heap.payloads && id in tb.jobs
      && tb.jobs[id].input == st.heap.payloads[job.input.cell][RECONCILE_KEY := Str(job.idemKey)]
  }

  /** Payload maps are named by ids that have been handed out. */
  ghost predicate CellsAreOld(st: Store) {
    forall c | c in st.heap.payloads :: CounterOf(c) <= st.seqNo
  }

  /** The map holds the id of the task that is the key. */
  predicate InStep(h: Heap, input: Contents, key: string) {
    input.Shared? ==>
      && input.cell in h.payloads && RECONCILE_KEY in h.payloads[input.cell]
      && h.payloads[input.cell][RECONCILE_KEY] == Str(key)
  }

  /** An operation of a call that carries this input and key. */
  predicate Carries(op: Op, input: Contents, key: string) {
    && !op.TagPayload?
    && (op.CreateJob? ==> op.draft.input == input && op.draft.idemKey == key)
    && (op.UpdateJob? ==> op.job.input == input && op.job.idemKey == key)
  }

  lemma PutKeepsRows(st: Store, tb: Tables, job: Job)
    requires RowsInv(st, tb) && InStep(st.heap, job.input, job.idemKey) && !KeyClash(tb.jobs, job)
    ensures RowsInv(st.(ledger := st.ledger.(jobs := st.ledger.jobs[job.id := job])),
                    tb.(jobs := UpsertJob(tb.jobs, st.heap, job)))
  {
    if job.input.Shared? {
      var p := st.heap.payloads[job.input.cell];
      assert p[RECONCILE_KEY := Str(job.idemKey)] == p;
    }
  }

  lemma JobOpKeepsRows(st: Store, tb: Tables, op: Op, input: Contents, key: string)
    requires RowsInv(st, tb) && CellsAreOld(st) && InStep(st.heap, input, key) && Carries(op, input, key)
    requires (op.CreateJob? || op.UpdateJob?) && !Clashes(tb, st, op)
    ensures var st', tb' := Apply(st, op), Persist(tb, st, op);
            RowsInv(st', tb') && CellsAreOld(st') && InStep(st'.heap, input, key)
  {
    hide CounterOf, IdText, KeyClash, RowsInv;
    var job := if op.CreateJob? then CreatedJob(op.draft, st.seqNo, st.rollbackNo, op.at)
               else UpdatedJob(st.ledger, op.job, op.at);
    assert job.input == input && job.idemKey == key;
    PutKeepsRows(st, tb, job);
    RowsDependOnJobs(st.(ledger := st.ledger.(jobs := st.ledger.jobs[job.id := job])), Apply(st, op),
                     Persist(tb, st, op));
  }

  lemma RowsDependOnJobs(st: Store, st': Store, tb: Tables)
    requires RowsInv(st, tb) && st'.ledger.jobs == st.ledger.jobs && st'.heap.payloads == st.heap.payloads
    ensures RowsInv(st', tb)
  {
  }

  lemma AllocationIsNew(h: Heap, payload: Payload, n: nat, seqNo: nat)
    requires forall c | c in h.payloads :: CounterOf(c) <= seqNo
    requires seqNo < n
    ensures var h' := Allocated(h, payload, IdText("task", n));
            && (forall c | c in h'.payloads :: CounterOf(c) <= n)
            && (forall c | c in h.payloads :: c in h'.payloads && h'.payloads[c] == h.payloads[c])
  {
    CounterOfIdText("task", n);
    hide CounterOf, IdText;
  }

  lemma ToolKeepsCells(st: Store, op: Op)
    requires CellsAreOld(st) && op.RunTool?
    ensures CellsAreOld(Apply(st, op))
    ensures forall c | c in st.heap.payloads ::
              c in Apply(st, op).heap.payloads && Apply(st, op).heap.payloads[c] == st.heap.payloads[c]
  {
    hide CounterOf, IdText, PutTask, TaskOf, Touched, ModeSetByTool, Allocated;
    if op.effect.newTask.Some? {
      AllocationIsNew(OutputPut(st.heap, op.entry.jobId, op.effect, op.output), op.effect.newTask.value.payload,
                      st.seqNo + op.effect.idsTaken + 1, st.seqNo);
    }
  }

  /** What an operation that is no write to a payload map may do to the maps. */
  lemma OpKeepsCells(st: Store, op: Op)
    requires CellsAreOld(st) && !op.TagPayload?
    ensures CellsAreOld(Apply(st, op))
    ensures forall c | c in st.heap.payloads ::
              c in Apply(st, op).heap.payloads && Apply(st, op).heap.payloads[c] == st.heap.payloads[c]
  {
    hide CounterOf, IdText, PutTask, TaskOf, Claim, Complete, Touched, PutCreatedJob, PutUpdatedJob, RanTool, Allocated;
    if op.RunTool? {
      ToolKeepsCells(st, op);
    } else if op.CreateTask? {
      AllocationIsNew(st.heap, op.seed.payload, st.seqNo + 1, st.seqNo);
    }
  }

  lemma OtherOpKeepsRows(st: Store, tb: Tables, op: Op, input: Contents, key: string)
    requires RowsInv(st, tb) && CellsAreOld(st) && InStep(st.heap, input, key) && Carries(op, input, key)
    requires !op.CreateJob? && !op.UpdateJob?
    ensures var st', tb' := Apply(st, op), Persist(tb, st, op);
            RowsInv(st', tb') && CellsAreOld(st') && InStep(st'.heap, input, key)
  {
    OpKeepsCells(st, op);
    OpKeepsJobs(st, tb, op);
    hide CounterOf, IdText, Apply, Persist;
  }

  lemma OpKeepsJobs(st: Store, tb: Tables, op: Op)
    requires !op.CreateJob? && !op.UpdateJob?
    ensures Apply(st, op).ledger.jobs == st.ledger.jobs && Persist(tb, st, op).jobs == tb.jobs
  {
    hide IdText, PutTask, TaskOf, Claim, Complete, Touched, Tag, ModeSetByTool;
  }

  lemma {:induction false} OpsKeepRows(st: Store, tb: Tables, ops: seq<Op>, input: Contents, key: string)
    requires SerialOps(st, ops) && BooksInv(st.ledger, st.seqNo, tb) && Mirror(st.ledger, tb)
    requires RowsInv(st, tb) && CellsAreOld(st) && InStep(st.heap, input, key)
    requires forall i | 0 <= i < |ops| :: Carries(ops[i], input, key)
    ensures var st', tb' := ApplyAll(st, ops), PersistAll(tb, st, ops);
            RowsInv(st', tb') && CellsAreOld(st') && InStep(st'.heap, input, key)
  {
    hide Apply, Persist, BooksInv, Mirror, Serial, Clashes, RowsInv, CellsAreOld, InStep, Carries;
    if ops != [] {
      var before, last := ops[..|ops| - 1], ops[|ops| - 1];
      forall i | 0 <= i < |before|
        ensures Carries(before[i], input, key)
      {
        assert ops[i] == before[i];
      }
      OpsKeepRows(st, tb, before, input, key);
      SerialOpsMirror(st, tb, ops);
      var st1, tb1 := ApplyAll(st, before), PersistAll(tb, st, before);
      if last.CreateJob? || last.UpdateJob? {
        JobOpKeepsRows(st1, tb1, last, input, key);
      } else {
        OtherOpKeepsRows(st1, tb1, last, input, key);
      }
    }
  }

  /** The write to a payload map leaves every row alone, which goes on showing the map as it
      was for its own task. */
  lemma TagKeepsRows(st: Store, tb: Tables, id: string)
    requires RowsInv(st, tb) && CellsAreOld(st)
    ensures RowsInv(Apply(st, TagPayload(id)), tb) && CellsAreOld(Apply(st, TagPayload(id)))
  {
    hide CounterOf;
    var st' := Apply(st, TagPayload(id));
    forall x | x in st'.ledger.jobs && st'.ledger.jobs[x].input.Shared?
      ensures var job := st'.ledger.jobs[x];
              && job.input.cell in st'.heap.payloads && x in tb.jobs
              && tb.jobs[x].input == st'.heap.payloads[job.input.cell][RECONCILE_KEY := Str(job.idemKey)]
    {
      var job := st.ledger.jobs[x];
      var p, p' := st.heap.payloads[job.input.cell], st'.heap.payloads[job.input.cell];
      assert p'[RECONCILE_KEY := Str(job.idemKey)] == p[RECONCILE_KEY := Str(job.idemKey)];
    }
  }

  lemma StagesCarry(cfg: Config, req: Request, a: Assessment, job: Job, clock: Clock, run: ToolRun)
    requires job.input == InputOf(req) && job.idemKey == req.idemKey
    ensures forall op | op in OpeningOps(cfg, req, a, clock) || op in RefusalOps(a, job, clock)
                        || op in ExecutionOps(req, a, job, clock, run) || op in OutcomeOps(job, clock, run.outcome) ::
              Carries(op, InputOf(req), req.idemKey)
  {
    hide InputOf, Detail;
  }

  lemma CallCarries(cfg: Config, st: Store, req: Request, clock: Clock, run: ToolRun)
    ensures forall i | 0 <= i < |Writes(cfg, st, req, clock, run)| ::
              Carries(Writes(cfg, st, req, clock, run)[i], InputOf(req), req.idemKey)
  {
    hide Assess, InputOf, IdText;
    var a := Assess(cfg, st, req, clock);
    var job := LocalJob(st, req, a, clock);
    StagesCarry(cfg, req, a, job, clock, run);
    hide OpeningOps, RefusalOps, ExecutionOps, OutcomeOps, Carries, LocalJob;
    var opening, refusal := OpeningOps(cfg, req, a, clock), RefusalOps(a, job, clock);
    var execution, outcome := ExecutionOps(req, a, job, clock, run), OutcomeOps(job, clock, run.outcome);
    var ops := Writes(cfg, st, req, clock, run);
    forall i | 0 <= i < |ops|
      ensures Carries(ops[i], InputOf(req), req.idemKey)
    {
      assert ops[i] in opening || ops[i] in refusal || ops[i] in execution || ops[i] in outcome;
    }
  }

  // ---- Plays ----

  /** The tables after a play whose database is always reachable. */
  function TablesAfter(cfg: Config, nodes: seq<Node>, acts: seq<Activity>): Tables {
    PersistAll(EMPTY, FreshStore(nodes), Flatten(cfg, FreshStore(nodes), acts))
  }

  lemma {:induction false} PersistAllConcat(tb: Tables, st: Store, first: seq<Op>, rest: seq<Op>)
    ensures PersistAll(tb, st, first + rest) == PersistAll(PersistAll(tb, st, first), ApplyAll(st, first), rest)
  {
    hide Apply, Persist;
    if rest == [] {
      assert first + rest == first;
    } else {
      var before := rest[..|rest| - 1];
      PersistAllConcat(tb, st, first, before);
      assert (first + rest)[..|first + rest| - 1] == first + before;
      ApplyAllConcat(st, first, before);
    }
  }

  lemma SerialSuffix(st: Store, first: seq<Op>, rest: seq<Op>)
    requires SerialOps(st, first + rest)
    ensures SerialOps(ApplyAll(st, first), rest)
  {
    hide Apply, Serial;
    if rest != [] {
      var before := rest[..|rest| - 1];
      assert (first + rest)[..|first + rest| - 1] == first + before;
      SerialSuffix(st, first, before);
      ApplyAllConcat(st, first, before);
    }
  }

  lemma EmptyTables(nodes: seq<Node>)
    ensures BooksInv(FreshStore(nodes).ledger, 0, EMPTY) && Mirror(FreshStore(nodes).ledger, EMPTY)
    ensures RowsInv(FreshStore(nodes), EMPTY) && CellsAreOld(FreshStore(nodes))
  {
  }

  /** Books, mirror and serial operations at the start of the last activity of a run. */
  lemma LastActivity(cfg: Config, nodes: seq<Node>, acts: seq<Activity>)
    requires WellFormed(acts) && acts != []
    ensures var before, last := acts[..|acts| - 1], acts[|acts| - 1];
            var st, tb := Run(cfg, FreshStore(nodes), before), TablesAfter(cfg, nodes, before);
            var ops := OpsOf(cfg, st, last);
            && SerialOps(st, ops) && BooksInv(st.ledger, st.seqNo, tb) && Mirror(st.ledger, tb)
            && ApplyAll(st, ops) == Run(cfg, FreshStore(nodes), acts)
            && PersistAll(tb, st, ops) == TablesAfter(cfg, nodes, acts)
  {
    hide Apply, Persist, Run, OpsOf, BooksInv, Mirror, Serial;
    var st0 := FreshStore(nodes);
    var before, last := acts[..|acts| - 1], acts[|acts| - 1];
    var first, ops := Flatten(cfg, st0, before), OpsOf(cfg, Run(cfg, st0, before), last);
    assert Flatten(cfg, st0, acts) == first + ops;
    FlattenIsRun(cfg, st0, before);
    FlattenIsRun(cfg, st0, acts);
    ApplyAllConcat(st0, first, ops);
    PersistAllConcat(EMPTY, st0, first, ops);
    RunsAreSerial(cfg, nodes, acts);
    SerialSuffix(st0, first, ops);
    PrefixIsWellFormed(acts);
    RunsAreSerial(cfg, nodes, before);
    EmptyTables(nodes);
    SerialOpsMirror(st0, EMPTY, first);
  }

  lemma PrefixIsWellFormed(acts: seq<Activity>)
    requires WellFormed(acts) && acts != []
    ensures WellFormed(acts[..|acts| - 1])
  {
    hide IsBackground;
    var before := acts[..|acts| - 1];
    forall i | 0 <= i < |before| && before[i].Background?
      ensures IsBackground(before[i].op)
    {
      assert acts[i].Background?;
    }
  }

  /** The worker's call comes right after its write, everyone else's has a map of its own. */
  lemma MoveIsInStep(w: World, pending: Option<string>, move: Move)
    requires QueueInv(w.st.queue, w.st.seqNo, pending) && PhaseInv(w) && ShareInv(w) && May(w, move) && move.act.Call?
    ensures InStep(w.st.heap, InputOf(move.act.req), move.act.req.idemKey)
  {
    hide KeysInv, LineageInv, NextInv, AttemptsInv, KindInv, IsTaskId, CellsInv;
    NextFactsHold(w, pending);
    if move.Mine? && w.phase.task.payload.Some? {
      var v, x := ViewOf(w), w.phase.task.id;
      assert TagOk(v, x);
    }
  }

  lemma MoveKeepsRows(cfg: Config, w: World, pending: Option<string>, move: Move, tb: Tables)
    requires QueueInv(w.st.queue, w.st.seqNo, pending) && PhaseInv(w) && ShareInv(w) && May(w, move)
    requires SerialOps(w.st, OpsOf(cfg, w.st, move.act))
    requires BooksInv(w.st.ledger, w.st.seqNo, tb) && Mirror(w.st.ledger, tb)
    requires RowsInv(w.st, tb) && CellsAreOld(w.st)
    ensures var ops := OpsOf(cfg, w.st, move.act);
            RowsInv(ApplyAll(w.st, ops), PersistAll(tb, w.st, ops)) && CellsAreOld(ApplyAll(w.st, ops))
  {
    hide Apply, Persist, QueueInv, PhaseInv, ShareInv, May, SerialOps, BooksInv, Mirror, RowsInv, CellsAreOld, Carries,
         InStep, Writes, Answered, ApplyAll, PersistAll, InputOf;
    var own := Own(map[]);
    match move.act {
      case Call(req, clock, run) =>
        if Answered(w.st, req) {
          NoOps(w.st, tb);
        } else {
          MoveIsInStep(w, pending, move);
          CallCarries(cfg, w.st, req, clock, run);
          OpsKeepRows(w.st, tb, Writes(cfg, w.st, req, clock, run), InputOf(req), req.idemKey);
        }
      case Background(op) =>
        MayIsBackground(w, move);
        OneOp(w.st, tb, op);
        if op.TagPayload? {
          TagKeepsRows(w.st, tb, op.id);
          TagIsNotPersisted(w.st, tb, op.id);
        } else {
          BackgroundCarries(w.st.heap, op, own);
          OtherOpKeepsRows(w.st, tb, op, own, "");
        }
    }
  }

  lemma NoOps(st: Store, tb: Tables)
    ensures ApplyAll(st, []) == st && PersistAll(tb, st, []) == tb
  {
  }

  lemma OneOp(st: Store, tb: Tables, op: Op)
    ensures ApplyAll(st, [op]) == Apply(st, op) && PersistAll(tb, st, [op]) == Persist(tb, st, op)
  {
    hide Apply, Persist;
    ApplyOne(st, op);
    var one := [op];
    assert one[..|one| - 1] == [];
    NoOps(st, tb);
  }

  lemma TagIsNotPersisted(st: Store, tb: Tables, id: string)
    ensures Persist(tb, st, TagPayload(id)) == tb
  {
  }

  lemma BackgroundCarries(h: Heap, op: Op, own: Contents)
    requires IsBackground(op) && !op.TagPayload? && own.Own?
    ensures Carries(op, own, "") && InStep(h, own, "") && !op.CreateJob? && !op.UpdateJob?
  {
  }

  lemma {:induction false} PlayKeepsRows(cfg: Config, nodes: seq<Node>, moves: seq<Move>)
    requires FairPlay(cfg, Opening(nodes), moves)
    ensures var w := Play(cfg, Opening(nodes), moves);
            RowsInv(w.st, TablesAfter(cfg, nodes, Acts(moves))) && CellsAreOld(w.st)
  {
    hide *;
    PlayIsLegal(cfg, nodes, moves);
    if moves == [] {
      EmptyPlay(cfg, nodes);
      EmptyTables(nodes);
      NoTables(cfg, nodes);
    } else {
      var before, last := moves[..|moves| - 1], moves[|moves| - 1];
      PlayStep(cfg, Opening(nodes), moves);
      assert Acts(moves)[..|Acts(moves)| - 1] == Acts(before) && Acts(moves)[|Acts(moves)| - 1] == last.act;
      PlayKeepsRows(cfg, nodes, before);
      PlayIsLegal(cfg, nodes, before);
      PlayKeepsShares(cfg, nodes, before);
      RunKeepsQueueInv(cfg, nodes, Acts(before));
      LegalRunsAreWellFormed(cfg, FreshStore(nodes), Acts(moves));
      LastActivity(cfg, nodes, Acts(moves));
      var w := Play(cfg, Opening(nodes), before);
      MoveKeepsRows(cfg, w, PendingOf(w.phase), last, TablesAfter(cfg, nodes, Acts(before)));
    }
  }

  lemma NoTables(cfg: Config, nodes: seq<Node>)
    ensures TablesAfter(cfg, nodes, []) == EMPTY
  {
  }

  /** With the database always reachable, the row of a job with a shared input shows the
      current input if and only if no retry that shares the map has been written to; all
      else in the map agrees at any time. */
  lemma RowInputIsCurrentIff(cfg: Config, nodes: seq<Node>, moves: seq<Move>, id: string)
    requires FairPlay(cfg, Opening(nodes), moves)
    ensures var w := Play(cfg, Opening(nodes), moves);
            var rows := TablesAfter(cfg, nodes, Acts(moves)).jobs;
            id in w.st.ledger.jobs && w.st.ledger.jobs[id].input.Shared? ==>
              var job := w.st.ledger.jobs[id];
              && id in rows
              && Others(rows[id].input) == Others(InputIn(w.st.heap, job))
              && (rows[id].input == InputIn(w.st.heap, job) <==> !RetryWritten(ViewOf(w), job.idemKey))
  {
    hide Play, FairPlay, ShareInv, RetryWritten, TablesAfter, Acts;
    PlayKeepsRows(cfg, nodes, moves);
    PlayKeepsShares(cfg, nodes, moves);
    var w := Play(cfg, Opening(nodes), moves);
    if id in w.st.ledger.jobs && w.st.ledger.jobs[id].input.Shared? {
      SharedInputNames(w, id);
      var row, input := TablesAfter(cfg, nodes, Acts(moves)).jobs[id].input, InputIn(w.st.heap, w.st.ledger.jobs[id]);
      assert Others(row) == Others(input);
      SameUpToId(row, input);
    }
  }
}
