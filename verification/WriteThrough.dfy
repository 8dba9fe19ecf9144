// backend/internal/store/postgres.go: jobs, audit events and incidents are
// written through to tables.
module WriteThrough {
  import opened Text
  import opened Models
  import opened Ids
  import opened PolicyGate
  import opened StoreModel
  import opened StoreImpl
  import opened Orchestrator
  import opened Pipeline
  import opened ControlRuns

  /** A row of the jobs table; None is NULL. */
  datatype JobRow = JobRow(
    key: Option<string>,
    tool: string,
    input: Params,
    risk: Risk,
    decision: DecisionType,
    requiredApprovals: nat,
    rollbackPlanId: Option<string>,
    status: JobStatus,
    history: seq<JobStatus>,
    result: Option<Params>,
    error: Option<string>,
    createdAt: int,
    updatedAt: int)

  datatype Tables = Tables(jobs: map<string, JobRow>, audits: map<string, Audit>, incidents: map<string, Incident>)

  const EMPTY := Tables(map[], map[], map[])

  function Nullable(s: string): Option<string> {
    if s == "" then None else Some(s)
  }

  /** What is written for a job: the contents its maps have at that moment. */
  function RowOf(h: Heap, job: Job): JobRow {
    JobRow(Nullable(job.idemKey), job.tool, InputIn(h, job), job.risk, job.decision, job.requiredApprovals,
           Nullable(job.rollbackPlanId), job.status, job.history, ResultIn(h, job), Nullable(job.error),
           job.createdAt, job.updatedAt)
  }

  /** The UNIQUE constraint on idempotency_key: NULLs never clash. */
  predicate KeyClash(rows: map<string, JobRow>, job: Job) {
    job.idemKey != "" && exists id | id in rows :: id != job.id && rows[id].key == Some(job.idemKey)
  }

  /** INSERT ... ON CONFLICT (id) DO UPDATE, which leaves created_at as it was; a key
      clash fails the statement and is only logged. */
  function UpsertJob(rows: map<string, JobRow>, h: Heap, job: Job): map<string, JobRow> {
    if KeyClash(rows, job) then rows
    else if job.id in rows then rows[job.id := RowOf(h, job).(createdAt := rows[job.id].createdAt)]
    else rows[job.id := RowOf(h, job)]
  }

  /** ON CONFLICT (id) DO NOTHING */
  function InsertOnce<T>(rows: map<string, T>, id: string, row: T): map<string, T> {
    if id in rows then rows else rows[id := row]
  }

  /** The tables after an operation that took the store from st to Apply(st, op),
      with the database reachable. */
  function Persist(tb: Tables, st: Store, op: Op): Tables {
    var l := Apply(st, op).ledger;
    match op
    case CreateJob(draft, at) =>
      tb.(jobs := UpsertJob(tb.jobs, st.heap, CreatedJob(draft, st.seqNo, st.rollbackNo, at)))
    case UpdateJob(job, _) => if job.id in l.jobs then tb.(jobs := UpsertJob(tb.jobs, st.heap, l.jobs[job.id])) else tb
    case AddAudit(_, _, _, _, _, _) =>
      var e := l.audits[|l.audits| - 1]; tb.(audits := InsertOnce(tb.audits, e.id, e))
    case RecordIncident(_, _, _, _) =>
      var e := l.incidents[|l.incidents| - 1]; tb.(incidents := InsertOnce(tb.incidents, e.id, e))
    case _ => tb
  }

  /** Whether the operation makes the UNIQUE constraint fire. */
  predicate Clashes(tb: Tables, st: Store, op: Op) {
    match op
    case CreateJob(draft, at) => KeyClash(tb.jobs, CreatedJob(draft, st.seqNo, st.rollbackNo, at))
    case UpdateJob(job, at) => KeyClash(tb.jobs, UpdatedJob(st.ledger, job, at))
    case _ => false
  }

  /** A nullable column is NULL for the empty text. */
  predicate ColumnShows(column: Option<string>, field: string) {
    (column.None? <==> field == "") && (column.Some? ==> column.value == field)
  }

  /** Every column shows the job's field, input and result as far as they are maps of the
      job's own. */
  predicate RowShows(row: JobRow, job: Job) {
    && ColumnShows(row.key, job.idemKey)
    && row.tool == job.tool
    && (job.input.Own? ==> row.input == job.input.params)
    && row.risk == job.risk && row.decision == job.decision && row.requiredApprovals == job.requiredApprovals
    && ColumnShows(row.rollbackPlanId, job.rollbackPlanId)
    && row.status == job.status && row.history == job.history
    && (row.result.Some? <==> job.result.Some?)
    && (job.result.Some? && job.result.value.Own? ==> row.result == Some(job.result.value.params))
    && ColumnShows(row.error, job.error)
    && row.createdAt == job.createdAt && row.updatedAt == job.updatedAt
  }

  class PostgresStore {
    const mem: MemoryStore
    var jobRows: map<string, JobRow>
    var auditRows: map<string, Audit>
    var incidentRows: map<string, Incident>

    constructor (mem: MemoryStore)
      ensures this.mem == mem && TablesView() == EMPTY
    {
      this.mem, jobRows, auditRows, incidentRows := mem, map[], map[], map[];
    }

    function TablesView(): Tables
      reads this
    {
      Tables(jobRows, auditRows, incidentRows)
    }

    method PersistJob(job: Job, reachable: bool)
      modifies this`jobRows
      ensures jobRows == if reachable then UpsertJob(old(jobRows), mem.HeapView(), job) else old(jobRows)
      ensures reachable && !KeyClash(old(jobRows), job) ==>
                && job.id in jobRows && jobRows == old(jobRows)[job.id := jobRows[job.id]]
                && RowShows(jobRows[job.id], if job.id in old(jobRows)
                                             then job.(createdAt := old(jobRows)[job.id].createdAt) else job)
                && jobRows[job.id].input == InputIn(mem.HeapView(), job)
                && jobRows[job.id].result == ResultIn(mem.HeapView(), job)
      ensures !reachable || KeyClash(old(jobRows), job) ==> jobRows == old(jobRows)
    {
      if reachable && !KeyClash(jobRows, job) {
        var row := JobRow(
          Nullable(job.idemKey), job.tool, ContentsIn(mem.payloads, job.input), job.risk, job.decision,
          job.requiredApprovals, Nullable(job.rollbackPlanId), job.status, job.history,
          if job.result.None? then None else Some(ContentsIn(mem.outputs, job.result.value)), Nullable(job.error),
          job.createdAt, job.updatedAt);
        if job.id in jobRows {
          row := row.(createdAt := jobRows[job.id].createdAt);
        }
        jobRows := jobRows[job.id := row];
      }
    }

    method CreateJob(draft: Job, at: int, reachable: bool) returns (job: Job)
      modifies this`jobRows, mem
      ensures mem.View() == Apply(old(mem.View()), Op.CreateJob(draft, at))
      ensures TablesView() == if reachable then Persist(old(TablesView()), old(mem.View()), Op.CreateJob(draft, at))
                              else old(TablesView())
    {
      job := mem.CreateJob(draft, at);
      PersistJob(job, reachable);
    }

    method UpdateJob(job: Job, at: int, reachable: bool)
      modifies this`jobRows, mem
      ensures mem.View() == Apply(old(mem.View()), Op.UpdateJob(job, at))
      ensures TablesView() == if reachable then Persist(old(TablesView()), old(mem.View()), Op.UpdateJob(job, at))
                              else old(TablesView())
    {
      mem.UpdateJob(job, at);
      if job.id in mem.jobs {
        PersistJob(mem.jobs[job.id], reachable);
      }
    }

    method AddAudit(action: string, actor: string, risk: Risk, approved: bool, detail: AuditDetail, at: int,
                    reachable: bool) returns (audit: Audit)
      modifies this`auditRows, mem
      ensures mem.View() == Apply(old(mem.View()), Op.AddAudit(action, actor, risk, approved, detail, at))
      ensures TablesView() ==
              if reachable
              then Persist(old(TablesView()), old(mem.View()), Op.AddAudit(action, actor, risk, approved, detail, at))
              else old(TablesView())
    {
      audit := mem.AddAudit(action, actor, risk, approved, detail, at);
      if reachable && audit.id !in auditRows {
        auditRows := auditRows[audit.id := audit];
      }
    }

    method RecordIncident(kind: string, severity: string, message: string, at: int, reachable: bool)
      modifies this`incidentRows, mem
      ensures mem.View() == Apply(old(mem.View()), Op.RecordIncident(kind, severity, message, at))
      ensures TablesView() ==
              if reachable
              then Persist(old(TablesView()), old(mem.View()), Op.RecordIncident(kind, severity, message, at))
              else old(TablesView())
    {
      mem.RecordIncident(kind, severity, message, at);
      var incident := mem.incidents[|mem.incidents| - 1];
      if reachable && incident.id !in incidentRows {
        incidentRows := incidentRows[incident.id := incident];
      }
    }
  }

  // ---- The tables mirror the store ----

  ghost predicate JobsMirror(jobs: map<string, Job>, rows: map<string, JobRow>) {
    && rows.Keys == jobs.Keys
    && forall id | id in jobs :: RowShows(rows[id], jobs[id])
  }

  ghost predicate AuditsMirror(audits: seq<Audit>, rows: map<string, Audit>) {
    && (forall i | 0 <= i < |audits| :: audits[i].id in rows && rows[audits[i].id] == audits[i])
    && (forall id | id in rows :: rows[id] in audits)
  }

  ghost predicate IncidentsMirror(incidents: seq<Incident>, rows: map<string, Incident>) {
    && (forall i | 0 <= i < |incidents| :: incidents[i].id in rows && rows[incidents[i].id] == incidents[i])
    && (forall id | id in rows :: rows[id] in incidents)
  }

  ghost predicate Mirror(l: Ledger, tb: Tables) {
    && JobsMirror(l.jobs, tb.jobs)
    && AuditsMirror(l.audits, tb.audits)
    && IncidentsMirror(l.incidents, tb.incidents)
  }

  /** The part of the ledger's invariant that holds between any two operations. */
  ghost predicate BooksInv(l: Ledger, seqNo: nat, tb: Tables) {
    && (forall id | id in l.jobs :: l.jobs[id].id == id && CounterOf(id) <= seqNo)
    && IndexInv(l)
    && (forall id | id in tb.audits :: CounterOf(id) <= seqNo)
    && (forall id | id in tb.incidents :: CounterOf(id) <= seqNo)
  }

  /** What a caller that is alone does: it creates a job only under a free key and
      updates only its own job, keeping key and creation time. */
  ghost predicate Serial(st: Store, op: Op) {
    match op
    case CreateJob(draft, _) => draft.idemKey !in st.ledger.byKey
    case UpdateJob(job, _) =>
      && job.id in st.ledger.jobs
      && job.idemKey == st.ledger.jobs[job.id].idemKey
      && job.createdAt == st.ledger.jobs[job.id].createdAt
    case _ => true
  }

  lemma UpsertMirrors(jobs: map<string, Job>, rows: map<string, JobRow>, h: Heap, job: Job)
    requires JobsMirror(jobs, rows) && !KeyClash(rows, job)
    requires job.id in jobs ==> job.createdAt == jobs[job.id].createdAt
    ensures JobsMirror(jobs[job.id := job], UpsertJob(rows, h, job))
  {
  }

  lemma NoClash(l: Ledger, rows: map<string, JobRow>, job: Job)
    requires IndexInv(l) && JobsMirror(l.jobs, rows)
    requires job.idemKey in l.byKey ==> job.id in l.jobs && l.jobs[job.id].idemKey == job.idemKey
    ensures !KeyClash(rows, job)
  {
  }

  lemma CreateKeepsIndex(l: Ledger, job: Job)
    requires IndexInv(l) && job.id !in l.jobs && job.idemKey !in l.byKey
    ensures IndexInv(PutCreatedJob(l, job))
  {
  }

  lemma CreateKeepsBooks(st: Store, tb: Tables, draft: Job, at: int)
    requires BooksInv(st.ledger, st.seqNo, tb) && draft.idemKey !in st.ledger.byKey
    ensures var st' := Apply(st, Op.CreateJob(draft, at)); BooksInv(st'.ledger, st'.seqNo, tb)
    ensures IdText("job", st.seqNo + 1) !in st.ledger.jobs
  {
    hide CounterOf, IdText, IndexInv;
    CounterOfIdText("job", st.seqNo + 1);
    CreateKeepsIndex(st.ledger, CreatedJob(draft, st.seqNo, st.rollbackNo, at));
  }

  lemma CreateMirrors(st: Store, tb: Tables, draft: Job, at: int)
    requires BooksInv(st.ledger, st.seqNo, tb) && Mirror(st.ledger, tb) && draft.idemKey !in st.ledger.byKey
    ensures var op := Op.CreateJob(draft, at);
            var st', tb' := Apply(st, op), Persist(tb, st, op);
            BooksInv(st'.ledger, st'.seqNo, tb') && Mirror(st'.ledger, tb') && !Clashes(tb, st, op)
  {
    hide CounterOf, IdText, AuditsMirror, IncidentsMirror, JobsMirror, UpsertJob, KeyClash, IndexInv;
    var job := CreatedJob(draft, st.seqNo, st.rollbackNo, at);
    CreateKeepsBooks(st, tb, draft, at);
    NoClash(st.ledger, tb.jobs, job);
    UpsertMirrors(st.ledger.jobs, tb.jobs, st.heap, job);
  }

  lemma UpdateKeepsBooks(st: Store, tb: Tables, job: Job, at: int)
    requires BooksInv(st.ledger, st.seqNo, tb) && Serial(st, Op.UpdateJob(job, at))
    ensures var st' := Apply(st, Op.UpdateJob(job, at)); BooksInv(st'.ledger, st'.seqNo, tb)
  {
    hide CounterOf;
  }

  lemma UpdateMirrors(st: Store, tb: Tables, job: Job, at: int)
    requires BooksInv(st.ledger, st.seqNo, tb) && Mirror(st.ledger, tb) && Serial(st, Op.UpdateJob(job, at))
    ensures var op := Op.UpdateJob(job, at);
            var st', tb' := Apply(st, op), Persist(tb, st, op);
            BooksInv(st'.ledger, st'.seqNo, tb') && Mirror(st'.ledger, tb') && !Clashes(tb, st, op)
  {
    hide CounterOf, AuditsMirror, IncidentsMirror, JobsMirror, UpsertJob, KeyClash, IndexInv;
    var updated := UpdatedJob(st.ledger, job, at);
    UpdateKeepsBooks(st, tb, job, at);
    NoClash(st.ledger, tb.jobs, updated);
    UpsertMirrors(st.ledger.jobs, tb.jobs, st.heap, updated);
  }

  lemma AuditMirrors(audits: seq<Audit>, rows: map<string, Audit>, e: Audit)
    requires AuditsMirror(audits, rows) && e.id !in rows
    ensures AuditsMirror(audits + [e], InsertOnce(rows, e.id, e))
  {
    assert (audits + [e])[|audits|] == e;
    assert forall x | x in audits :: x in audits + [e];
  }

  lemma IncidentMirrors(incidents: seq<Incident>, rows: map<string, Incident>, e: Incident)
    requires IncidentsMirror(incidents, rows) && e.id !in rows
    ensures IncidentsMirror(incidents + [e], InsertOnce(rows, e.id, e))
  {
    assert (incidents + [e])[|incidents|] == e;
    assert forall x | x in incidents :: x in incidents + [e];
  }

  lemma EventMirrors(st: Store, tb: Tables, op: Op)
    requires BooksInv(st.ledger, st.seqNo, tb) && Mirror(st.ledger, tb) && (op.AddAudit? || op.RecordIncident?)
    ensures var st', tb' := Apply(st, op), Persist(tb, st, op);
            BooksInv(st'.ledger, st'.seqNo, tb') && Mirror(st'.ledger, tb')
  {
    hide CounterOf, IdText, JobsMirror, AuditsMirror, IncidentsMirror;
    CounterOfIdText("audit", st.seqNo + 1);
    CounterOfIdText("incident", st.seqNo + 1);
    var l := Apply(st, op).ledger;
    if op.AddAudit? {
      AuditMirrors(st.ledger.audits, tb.audits, l.audits[|l.audits| - 1]);
    } else {
      IncidentMirrors(st.ledger.incidents, tb.incidents, l.incidents[|l.incidents| - 1]);
    }
  }

  lemma OtherMirrors(st: Store, tb: Tables, op: Op)
    requires BooksInv(st.ledger, st.seqNo, tb) && Mirror(st.ledger, tb)
    requires !op.CreateJob? && !op.UpdateJob? && !op.AddAudit? && !op.RecordIncident?
    ensures var st', tb' := Apply(st, op), Persist(tb, st, op);
            BooksInv(st'.ledger, st'.seqNo, tb') && Mirror(st'.ledger, tb')
  {
    hide Apply, CounterOf;
    OtherOpsKeepBooks(st, tb, op);
  }

  lemma OtherOpsKeepBooks(st: Store, tb: Tables, op: Op)
    requires !op.CreateJob? && !op.UpdateJob? && !op.AddAudit? && !op.RecordIncident?
    ensures Apply(st, op).seqNo >= st.seqNo
    ensures Apply(st, op).ledger.(executed := []) == st.ledger.(executed := [])
    ensures Persist(tb, st, op) == tb
  {
    hide IdText, RowOf, PutTask, TaskOf, Claim, Tag, Complete, Touched, Allocated, ModeSetByTool, ReadMode;
  }

  lemma OpMirrors(st: Store, tb: Tables, op: Op)
    requires BooksInv(st.ledger, st.seqNo, tb) && Mirror(st.ledger, tb) && Serial(st, op)
    ensures var st', tb' := Apply(st, op), Persist(tb, st, op);
            BooksInv(st'.ledger, st'.seqNo, tb') && Mirror(st'.ledger, tb') && !Clashes(tb, st, op)
  {
    hide Apply, Persist, BooksInv, Mirror;
    match op {
      case CreateJob(draft, at) => CreateMirrors(st, tb, draft, at);
      case UpdateJob(job, at) => UpdateMirrors(st, tb, job, at);
      case AddAudit(_, _, _, _, _, _) => EventMirrors(st, tb, op);
      case RecordIncident(_, _, _, _) => EventMirrors(st, tb, op);
      case _ => OtherMirrors(st, tb, op);
    }
  }

  // ---- Sequences of operations ----

  ghost predicate SerialOps(st: Store, ops: seq<Op>) {
    ops == [] || (
      var before := ops[..|ops| - 1];
      SerialOps(st, before) && Serial(ApplyAll(st, before), ops[|ops| - 1]))
  }

  function PersistAll(tb: Tables, st: Store, ops: seq<Op>): Tables {
    if ops == [] then tb
    else
      var before := ops[..|ops| - 1];
      Persist(PersistAll(tb, st, before), ApplyAll(st, before), ops[|ops| - 1])
  }

  lemma {:induction false} SerialOpsMirror(st: Store, tb: Tables, ops: seq<Op>)
    requires BooksInv(st.ledger, st.seqNo, tb) && Mirror(st.ledger, tb) && SerialOps(st, ops)
    ensures var st', tb' := ApplyAll(st, ops), PersistAll(tb, st, ops);
            BooksInv(st'.ledger, st'.seqNo, tb') && Mirror(st'.ledger, tb')
    ensures ops != [] ==>
              var before := ops[..|ops| - 1];
              !Clashes(PersistAll(tb, st, before), ApplyAll(st, before), ops[|ops| - 1])
  {
    hide Apply, Persist, BooksInv, Mirror, Serial, Clashes;
    if ops != [] {
      var before := ops[..|ops| - 1];
      SerialOpsMirror(st, tb, before);
      OpMirrors(ApplyAll(st, before), PersistAll(tb, st, before), ops[|ops| - 1]);
    }
  }

  /** An operation that leaves a job alone or updates it keeping key and creation time. */
  predicate Minds(op: Op, job: Job) {
    && !op.CreateJob?
    && (op.UpdateJob? ==> op.job.id == job.id && op.job.idemKey == job.idemKey && op.job.createdAt == job.createdAt)
  }

  ghost predicate Has(l: Ledger, job: Job) {
    job.id in l.jobs && l.jobs[job.id].idemKey == job.idemKey && l.jobs[job.id].createdAt == job.createdAt
  }

  lemma MindingKeepsJob(st: Store, op: Op, job: Job)
    requires Has(st.ledger, job) && Minds(op, job)
    ensures Serial(st, op) && Has(Apply(st, op).ledger, job)
  {
  }

  lemma {:induction false} MindingOpsAreSerial(st: Store, first: seq<Op>, rest: seq<Op>, job: Job)
    requires SerialOps(st, first) && Has(ApplyAll(st, first).ledger, job)
    requires forall i | 0 <= i < |rest| :: Minds(rest[i], job)
    ensures SerialOps(st, first + rest) && Has(ApplyAll(st, first + rest).ledger, job)
  {
    hide Apply, Serial, Has, Minds;
    if rest == [] {
      assert first + rest == first;
    } else {
      var before := rest[..|rest| - 1];
      forall i | 0 <= i < |before|
        ensures Minds(before[i], job)
      {
        assert rest[i] == before[i];
      }
      MindingOpsAreSerial(st, first, before, job);
      assert (first + rest)[..|first + rest| - 1] == first + before;
      MindingKeepsJob(ApplyAll(st, first + before), rest[|rest| - 1], job);
    }
  }

  lemma OpeningIsSerial(st: Store, read: Op, create: Op, job: Job)
    requires read.ReadPolicyMode? && create.CreateJob? && create.draft.idemKey !in st.ledger.byKey
    requires job == CreatedJob(create.draft, st.seqNo, st.rollbackNo, create.at)
    ensures SerialOps(st, [read, create]) && Has(ApplyAll(st, [read, create]).ledger, job)
  {
    var none: seq<Op> := [];
    var one, two := [read], [read, create];
    assert one[..|one| - 1] == none && two[..|two| - 1] == one;
    assert SerialOps(st, none) && SerialOps(st, one);
    ApplyOne(st, read);
    ApplyTwo(st, read, create);
  }

  lemma CallMindsItsJob(req: Request, a: Assessment, job: Job, clock: Clock, run: ToolRun)
    ensures forall op | op in RefusalOps(a, job, clock) || op in ExecutionOps(req, a, job, clock, run)
                        || op in OutcomeOps(job, clock, run.outcome) :: Minds(op, job)
  {
  }

  /** Every operation of an unanswered call is serial at its place. */
  lemma WritesAreSerial(cfg: Config, st: Store, req: Request, clock: Clock, run: ToolRun)
    requires req.idemKey !in st.ledger.byKey
    ensures SerialOps(st, Writes(cfg, st, req, clock, run))
  {
    hide Assess, Apply, ApplyAll, SerialOps, Has;
    var a := Assess(cfg, st, req, clock);
    var job := LocalJob(st, req, a, clock);
    var opening := OpeningOps(cfg, req, a, clock);
    var first := [opening[0], opening[1]];
    OpeningIsSerial(st, opening[0], opening[1], job);
    var rest := [opening[2]] +
      if !a.decision.allow then RefusalOps(a, job, clock)
      else ExecutionOps(req, a, job, clock, run) + OutcomeOps(job, clock, run.outcome);
    CallMindsItsJob(req, a, job, clock, run);
    hide RefusalOps, ExecutionOps, OutcomeOps;
    forall i | 0 <= i < |rest|
      ensures Minds(rest[i], job)
    {
      assert i > 0 ==> rest[i] in rest[1..];
    }
    MindingOpsAreSerial(st, first, rest, job);
    assert first + rest == Writes(cfg, st, req, clock, run);
  }

  // ---- Whole runs ----

  function OpsOf(cfg: Config, st: Store, act: Activity): seq<Op> {
    match act
    case Call(req, clock, run) => if Answered(st, req) then [] else Writes(cfg, st, req, clock, run)
    case Background(op) => [op]
  }

  /** All store operations of a run, in order. */
  function Flatten(cfg: Config, st: Store, acts: seq<Activity>): seq<Op> {
    if acts == [] then []
    else
      var before := acts[..|acts| - 1];
      Flatten(cfg, st, before) + OpsOf(cfg, Run(cfg, st, before), acts[|acts| - 1])
  }

  lemma {:induction false} FlattenIsRun(cfg: Config, st: Store, acts: seq<Activity>)
    ensures ApplyAll(st, Flatten(cfg, st, acts)) == Run(cfg, st, acts)
  {
    hide Apply, Writes;
    if acts != [] {
      var before := acts[..|acts| - 1];
      RunStep(cfg, st, acts);
      FlattenIsRun(cfg, st, before);
      var ops := OpsOf(cfg, Run(cfg, st, before), acts[|acts| - 1]);
      ApplyAllConcat(st, Flatten(cfg, st, before), ops);
      if acts[|acts| - 1].Background? {
        ApplyOne(Run(cfg, st, before), acts[|acts| - 1].op);
      }
    }
  }

  lemma {:induction false} SerialConcat(st: Store, first: seq<Op>, rest: seq<Op>)
    requires SerialOps(st, first) && SerialOps(ApplyAll(st, first), rest)
    ensures SerialOps(st, first + rest)
  {
    hide Apply, Serial;
    if rest == [] {
      assert first + rest == first;
    } else {
      var before := rest[..|rest| - 1];
      SerialConcat(st, first, before);
      assert (first + rest)[..|first + rest| - 1] == first + before;
      ApplyAllConcat(st, first, before);
    }
  }

  lemma {:induction false} RunsAreSerial(cfg: Config, nodes: seq<Node>, acts: seq<Activity>)
    requires WellFormed(acts)
    ensures SerialOps(FreshStore(nodes), Flatten(cfg, FreshStore(nodes), acts))
  {
    hide Apply, Writes, Handle, JobsInv, ExecutedInv, AuditsInv, IncidentsInv, ApprovalInv;
    var st0 := FreshStore(nodes);
    if acts != [] {
      var before := acts[..|acts| - 1];
      RunsAreSerial(cfg, nodes, before);
      FlattenIsRun(cfg, st0, before);
      FreshStoreInv(nodes);
      RunKeepsInv(cfg, st0, before);
      var st := Run(cfg, st0, before);
      match acts[|acts| - 1] {
        case Call(req, clock, run) =>
          if !Answered(st, req) {
            UnansweredKeyIsUnbound(st, req);
            WritesAreSerial(cfg, st, req, clock, run);
          }
        case Background(op) =>
          assert [op][..0] == [];
          assert SerialOps(st, [op]);
      }
      SerialConcat(st0, Flatten(cfg, st0, before), OpsOf(cfg, st, acts[|acts| - 1]));
    }
  }

  lemma {:induction false} SerialPrefix(st: Store, ops: seq<Op>, n: nat)
    requires SerialOps(st, ops) && n <= |ops|
    ensures SerialOps(st, ops[..n])
  {
    hide Apply, Serial;
    if n == |ops| {
      assert ops[..n] == ops;
    } else {
      assert ops[..|ops| - 1][..n] == ops[..n];
      SerialPrefix(st, ops[..|ops| - 1], n);
    }
  }

  /** From empty tables, in every serialized run, after every single store
      operation the tables hold exactly the jobs, audit events and incidents of the
      memory store, but for the inputs and results that are shared maps, and the UNIQUE
      constraint has not fired. */
  lemma TablesMirrorTheStore(cfg: Config, nodes: seq<Node>, acts: seq<Activity>, n: nat)
    requires WellFormed(acts)
    ensures var st0 := FreshStore(nodes);
            n <= |Flatten(cfg, st0, acts)| ==>
            var ops := Flatten(cfg, st0, acts)[..n];
            && Mirror(ApplyAll(st0, ops).ledger, PersistAll(EMPTY, st0, ops))
            && (n > 0 ==>
                  !Clashes(PersistAll(EMPTY, st0, ops[..n - 1]), ApplyAll(st0, ops[..n - 1]), ops[n - 1]))
  {
    hide Flatten, Apply, Persist, Serial, Clashes;
    var st0 := FreshStore(nodes);
    if n <= |Flatten(cfg, st0, acts)| {
      RunsAreSerial(cfg, nodes, acts);
      SerialPrefix(st0, Flatten(cfg, st0, acts), n);
      SerialOpsMirror(st0, EMPTY, Flatten(cfg, st0, acts)[..n]);
    }
  }

  // ---- The constraint ----

  ghost predicate KeysDiffer(rows: map<string, JobRow>) {
    forall a, b | a in rows && b in rows && a != b :: rows[a].key.None? || rows[a].key != rows[b].key
  }

  lemma UpsertKeepsKeys(rows: map<string, JobRow>, h: Heap, job: Job)
    requires KeysDiffer(rows)
    ensures KeysDiffer(UpsertJob(rows, h, job))
  {
  }

  /** Whatever operations reach the tables, those of racing calls included, no two rows ever
      have the same key. */
  lemma {:induction false} RowKeysStayUnique(tb: Tables, st: Store, ops: seq<Op>)
    requires KeysDiffer(tb.jobs)
    ensures KeysDiffer(PersistAll(tb, st, ops).jobs)
  {
    if ops != [] {
      hide Apply, KeysDiffer, UpsertJob, CreatedJob;
      var before, last := ops[..|ops| - 1], ops[|ops| - 1];
      RowKeysStayUnique(tb, st, before);
      var tb1, st1 := PersistAll(tb, st, before), ApplyAll(st, before);
      match last {
        case CreateJob(draft, at) =>
          UpsertKeepsKeys(tb1.jobs, st1.heap, CreatedJob(draft, st1.seqNo, st1.rollbackNo, at));
        case UpdateJob(job, at) =>
          var l := Apply(st1, last).ledger;
          if job.id in l.jobs {
            UpsertKeepsKeys(tb1.jobs, st1.heap, l.jobs[job.id]);
          }
        case _ =>
      }
    }
  }

  /** The row of an event, once written, stays as it is. */
  lemma {:induction false} EventRowsAreFinal(tb: Tables, st: Store, ops: seq<Op>)
    ensures var tb' := PersistAll(tb, st, ops);
            && (forall id | id in tb.audits :: id in tb'.audits && tb'.audits[id] == tb.audits[id])
            && (forall id | id in tb.incidents :: id in tb'.incidents && tb'.incidents[id] == tb.incidents[id])
  {
    if ops != [] {
      hide UpsertJob, CreatedJob, PutTask, TaskOf, Claim, Tag, Complete, RanTool, PutCreatedJob, PutUpdatedJob;
      EventRowsAreFinal(tb, st, ops[..|ops| - 1]);
    }
  }
}
