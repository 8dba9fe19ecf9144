// HandleCall's idempotency under concurrent callers. The lookup, the counters
// and the insertion of CreateJob are separate atomic steps, and any number of
// callers may be between them.
module Interleaving {
  import opened Text
  import opened Models
  import opened Ids
  import opened StoreModel

  /** Where one call stands: its lookup missed, it has a number from the id
      counter, its job is ready to insert, its job is stored, or its key answered. */
  datatype Stage =
    | Missed(draft: Job)
    | Numbered(draft: Job, before: nat)
    | Ready(job: Job)
    | Owner(job: Job)
    | Told(job: Job)

  datatype Machine = Machine(seqNo: nat, rollbackNo: nat, ledger: Ledger, calls: map<nat, Stage>)

  datatype Step =
    | Arrive(call: nat, draft: Job)
    | TakeNumber(call: nat)
    | TakeRollback(call: nat, at: int)
    | Insert(call: nat)
    | Write(call: nat, job: Job, at: int)
    | TakeOthers(count: nat)

  const START := Machine(0, 0, Ledger(map[], map[], [], [], map[], []), map[])

  /** A step whose call is not at the right stage does nothing. */
  function Next(m: Machine, step: Step): Machine {
    match step
    case Arrive(c, draft) =>
      if c in m.calls then m
      else
        var found := if draft.idemKey == "" then None else Lookup(m.ledger, draft.idemKey);
        m.(calls := m.calls[c := if found.Some? then Told(found.value) else Missed(draft)])
    case TakeNumber(c) =>
      if c in m.calls && m.calls[c].Missed? then
        m.(seqNo := m.seqNo + 1, calls := m.calls[c := Numbered(m.calls[c].draft, m.seqNo)])
      else m
    case TakeRollback(c, at) =>
      if c in m.calls && m.calls[c].Numbered? then
        var draft := m.calls[c].draft;
        m.(rollbackNo := if draft.rollbackPlanId == "" then m.rollbackNo + 1 else m.rollbackNo,
        calls := m.calls[c := Ready(CreatedJob(draft, m.calls[c].before, m.rollbackNo, at))])
      else m
    case Insert(c) =>
      if c in m.calls && m.calls[c].Ready? then
        m.(ledger := PutCreatedJob(m.ledger, m.calls[c].job), calls := m.calls[c := Owner(m.calls[c].job)])
      else m
    case Write(c, job, at) =>
      if c in m.calls && m.calls[c].Owner? && job.id == m.calls[c].job.id
         && job.idemKey == m.calls[c].job.idemKey then
        m.(ledger := PutUpdatedJob(m.ledger, job, at))
      else m
    case TakeOthers(count) => m.(seqNo := m.seqNo + count)
  }

  // One recursion, written as three functions so that stating something about a run does not
  // unfold what a step does; proofs take the one-step equation from RunSnoc.

  /** A run of steps: what its last step makes of the run before it. */
  function Run(m: Machine, steps: seq<Step>): Machine
    decreases |steps|, 0
  {
    if steps == [] then m else AfterLast(m, steps[..|steps| - 1], steps[|steps| - 1])
  }

  function AfterLast(m: Machine, before: seq<Step>, last: Step): Machine
    decreases |before|, 2
  {
    AfterStep(m, before, last)
  }

  function AfterStep(m: Machine, before: seq<Step>, last: Step): Machine
    decreases |before|, 1
  {
    Next(Run(m, before), last)
  }

  lemma RunSnoc(m: Machine, steps: seq<Step>, step: Step)
    ensures Run(m, steps + [step]) == Next(Run(m, steps), step)
  {
    hide Next;
    assert (steps + [step])[..|steps|] == steps;
    assert Run(m, steps + [step]) == AfterLast(m, steps, step);
    assert AfterLast(m, steps, step) == AfterStep(m, steps, step);
  }

  /** Between the lookup and the insertion. */
  predicate Pending(stage: Stage) {
    stage.Missed? || stage.Numbered? || stage.Ready?
  }

  function KeyOf(stage: Stage): string {
    if stage.Missed? || stage.Numbered? then stage.draft.idemKey else stage.job.idemKey
  }

  predicate HasId(stage: Stage) {
    stage.Numbered? || stage.Ready? || stage.Owner?
  }

  function IdOf(stage: Stage): string
    requires HasId(stage)
  {
    if stage.Numbered? then IdText("job", stage.before + 1) else stage.job.id
  }

  // ---- What survives every interleaving ----

  ghost predicate IdsInv(m: Machine) {
    && (forall id | id in m.ledger.jobs :: m.ledger.jobs[id].id == id && CounterOf(id) <= m.seqNo)
    && (forall c | c in m.calls && HasId(m.calls[c]) ::
          && CounterOf(IdOf(m.calls[c])) <= m.seqNo
          && (m.calls[c].Owner? <==> IdOf(m.calls[c]) in m.ledger.jobs)
          && (m.calls[c].Owner? ==> m.ledger.jobs[IdOf(m.calls[c])].idemKey == KeyOf(m.calls[c])))
    && (forall c, d | c in m.calls && d in m.calls && c != d && HasId(m.calls[c]) && HasId(m.calls[d]) ::
          IdOf(m.calls[c]) != IdOf(m.calls[d]))
  }

  /** The index names, for exactly the keys some job carries, a job carrying it. */
  ghost predicate IndexPointsHome(l: Ledger) {
    && (forall k | k in l.byKey :: k != "" && l.byKey[k] in l.jobs && l.jobs[l.byKey[k]].idemKey == k)
    && (forall id | id in l.jobs && l.jobs[id].idemKey != "" :: l.jobs[id].idemKey in l.byKey)
  }

  lemma InsertKeepsHome(l: Ledger, job: Job)
    requires IndexPointsHome(l) && job.id !in l.jobs
    ensures IndexPointsHome(PutCreatedJob(l, job))
  {
  }

  /** The part of IdsInv about one call. */
  ghost predicate CallInv(m: Machine, stage: Stage) {
    HasId(stage) ==>
      && CounterOf(IdOf(stage)) <= m.seqNo
      && (stage.Owner? <==> IdOf(stage) in m.ledger.jobs)
      && (stage.Owner? ==> m.ledger.jobs[IdOf(stage)].idemKey == KeyOf(stage))
  }

  lemma InsertKeepsCall(m: Machine, job: Job, stage: Stage)
    requires CallInv(m, stage) && CounterOf(job.id) <= m.seqNo
    requires HasId(stage) ==> IdOf(stage) != job.id
    ensures CallInv(m.(ledger := PutCreatedJob(m.ledger, job)), stage)
    ensures CallInv(m.(ledger := PutCreatedJob(m.ledger, job)), Owner(job))
  {
    hide CounterOf, IdText;
  }

  lemma InsertKeepsIds(m: Machine, c: nat)
    requires IdsInv(m) && IndexPointsHome(m.ledger) && c in m.calls && m.calls[c].Ready?
    ensures var job := m.calls[c].job;
            var m' := m.(ledger := PutCreatedJob(m.ledger, job), calls := m.calls[c := Owner(job)]);
            IdsInv(m') && IndexPointsHome(m'.ledger)
  {
    hide CounterOf, IdText, IndexPointsHome;
    var job := m.calls[c].job;
    assert IdOf(m.calls[c]) == job.id == IdOf(Owner(job));
    InsertKeepsHome(m.ledger, job);
    var m1 := m.(ledger := PutCreatedJob(m.ledger, job));
    forall d | d in m.calls && d != c
      ensures CallInv(m1, m.calls[d])
    {
      InsertKeepsCall(m, job, m.calls[d]);
    }
  }

  lemma NumberIsNew(m: Machine, stage: Stage)
    requires IdsInv(m) && HasId(stage) && CounterOf(IdOf(stage)) == m.seqNo + 1
    ensures IdOf(stage) !in m.ledger.jobs
    ensures forall d | d in m.calls && HasId(m.calls[d]) :: IdOf(m.calls[d]) != IdOf(stage)
  {
    hide CounterOf, IdText;
  }

  lemma NumberKeepsIds(m: Machine, c: nat)
    requires IdsInv(m) && c in m.calls && m.calls[c].Missed?
    ensures IdsInv(m.(seqNo := m.seqNo + 1, calls := m.calls[c := Numbered(m.calls[c].draft, m.seqNo)]))
  {
    CounterOfIdText("job", m.seqNo + 1);
    hide CounterOf, IdText;
    var stage := Numbered(m.calls[c].draft, m.seqNo);
    assert IdOf(stage) == IdText("job", m.seqNo + 1);
    NumberIsNew(m, stage);
    hide IdOf, KeyOf;
  }

  lemma WriteKeepsIds(m: Machine, c: nat, job: Job, at: int)
    requires IdsInv(m) && IndexPointsHome(m.ledger)
    ensures var m' := Next(m, Write(c, job, at)); IdsInv(m') && IndexPointsHome(m'.ledger)
  {
    hide CounterOf, IdText;
    var m' := Next(m, Write(c, job, at));
    if m' != m {
      assert IdOf(m.calls[c]) == job.id;
      assert m'.ledger.jobs.Keys == m.ledger.jobs.Keys;
      assert forall id | id in m.ledger.jobs ::
          m'.ledger.jobs[id].idemKey == m.ledger.jobs[id].idemKey && m'.ledger.jobs[id].id == id;
    }
  }

  lemma RollbackKeepsIds(m: Machine, c: nat, at: int)
    requires IdsInv(m) && c in m.calls && m.calls[c].Numbered?
    ensures IdsInv(Next(m, TakeRollback(c, at)))
  {
    hide CounterOf, IdText;
    var m' := Next(m, TakeRollback(c, at));
    assert IdOf(m'.calls[c]) == IdOf(m.calls[c]);
    assert forall d | d in m'.calls && d != c :: m'.calls[d] == m.calls[d];
  }

  lemma ArrivalKeepsIds(m: Machine, c: nat, stage: Stage)
    requires IdsInv(m) && c !in m.calls && !HasId(stage)
    ensures IdsInv(m.(calls := m.calls[c := stage]))
  {
    hide CounterOf, IdText;
    assert forall d | d in m.calls :: m.calls[c := stage][d] == m.calls[d];
  }

  lemma OthersKeepIds(m: Machine, count: nat)
    requires IdsInv(m)
    ensures IdsInv(m.(seqNo := m.seqNo + count))
  {
    hide CounterOf, IdText;
  }

  lemma StepKeepsIndex(m: Machine, step: Step)
    requires IdsInv(m) && IndexPointsHome(m.ledger)
    ensures IdsInv(Next(m, step)) && IndexPointsHome(Next(m, step).ledger)
  {
    hide IdsInv, CreatedJob, IndexPointsHome, Lookup, PutCreatedJob, PutUpdatedJob;
    match step {
      case Insert(c) =>
        if c in m.calls && m.calls[c].Ready? {
          InsertKeepsIds(m, c);
        }
      case TakeNumber(c) =>
        if c in m.calls && m.calls[c].Missed? {
          NumberKeepsIds(m, c);
        }
      case Write(c, job, at) => WriteKeepsIds(m, c, job, at);
      case TakeRollback(c, at) =>
        if c in m.calls && m.calls[c].Numbered? {
          RollbackKeepsIds(m, c, at);
        }
      case Arrive(c, draft) =>
        if c !in m.calls {
          ArrivalKeepsIds(m, c, Next(m, step).calls[c]);
        }
      case TakeOthers(count) => OthersKeepIds(m, count);
    }
  }

  /** Under any interleaving of any number of calls, the index names a job carrying
      the key for exactly the keys that some stored job carries. */
  lemma {:induction false} IndexSurvivesInterleaving(steps: seq<Step>)
    ensures IdsInv(Run(START, steps)) && IndexPointsHome(Run(START, steps).ledger)
  {
    if steps != [] {
      hide Next, IdsInv, IndexPointsHome;
      var before, last := steps[..|steps| - 1], steps[|steps| - 1];
      assert steps == before + [last];
      RunSnoc(START, before, last);
      IndexSurvivesInterleaving(before);
      StepKeepsIndex(Run(START, before), last);
    }
  }

  /** No insertion overwrites a job: jobs only accumulate, and a stored job keeps its
      key for ever. */
  lemma StepKeepsKeys(m: Machine, step: Step)
    requires IdsInv(m)
    ensures forall id | id in m.ledger.jobs ::
              id in Next(m, step).ledger.jobs && Next(m, step).ledger.jobs[id].idemKey == m.ledger.jobs[id].idemKey
    ensures step.Insert? && Next(m, step) != m ==> m.calls[step.call].job.id !in m.ledger.jobs
  {
    hide CounterOf, IdText;
    if step.Insert? && step.call in m.calls && m.calls[step.call].Ready? {
      assert IdOf(m.calls[step.call]) == m.calls[step.call].job.id;
    }
    if step.Write? && Next(m, step) != m {
      assert IdOf(m.calls[step.call]) == step.job.id;
    }
  }

  // ---- At most one job per key ----

  ghost predicate OneJobPerKey(l: Ledger) {
    forall x, y | x in l.jobs && y in l.jobs && l.jobs[x].idemKey == l.jobs[y].idemKey != "" :: x == y
  }

  /** An insertion under a key that is already bound. */
  predicate Clashes(m: Machine, step: Step) {
    && step.Insert?
    && step.call in m.calls
    && m.calls[step.call].Ready?
    && m.calls[step.call].job.idemKey != ""
    && m.calls[step.call].job.idemKey in m.ledger.byKey
  }

  /** One step keeps "at most one job per key" exactly when it is no clash; and once
      lost, it never comes back. */
  lemma OneJobPerKeyStep(m: Machine, step: Step)
    requires IdsInv(m) && IndexPointsHome(m.ledger)
    ensures OneJobPerKey(Next(m, step).ledger) <==> OneJobPerKey(m.ledger) && !Clashes(m, step)
  {
    hide CounterOf, IdText, IdsInv;
    StepKeepsKeys(m, step);
    var l, l' := m.ledger, Next(m, step).ledger;
    if step.Insert? && step.call in m.calls && m.calls[step.call].Ready? {
      var job := m.calls[step.call].job;
      assert job.id !in l.jobs by { assert Next(m, step).calls[step.call] == Owner(job); }
      assert l'.jobs == l.jobs[job.id := job];
      if Clashes(m, step) {
        assert l'.jobs[l.byKey[job.idemKey]].idemKey == l'.jobs[job.id].idemKey;
      }
    } else {
      assert l'.jobs.Keys == l.jobs.Keys by { OnlyInsertAddsJobs(m, step); }
    }
    if OneJobPerKey(l') {
      forall x, y | x in l.jobs && y in l.jobs && l.jobs[x].idemKey == l.jobs[y].idemKey != ""
        ensures x == y
      {
        assert l'.jobs[x].idemKey == l'.jobs[y].idemKey;
      }
    }
  }

  lemma OnlyInsertAddsJobs(m: Machine, step: Step)
    requires IdsInv(m) && !(step.Insert? && step.call in m.calls && m.calls[step.call].Ready?)
    ensures Next(m, step).ledger.jobs.Keys == m.ledger.jobs.Keys
  {
    hide CounterOf, IdText;
    if step.Write? && Next(m, step) != m {
      assert IdOf(m.calls[step.call]) == step.job.id;
    }
  }

  ghost predicate NeverClashes(steps: seq<Step>) {
    forall i | 0 <= i < |steps| :: !Clashes(Run(START, steps[..i]), steps[i])
  }

  lemma NeverClashesSnoc(before: seq<Step>, step: Step)
    ensures NeverClashes(before + [step]) <==> NeverClashes(before) && !Clashes(Run(START, before), step)
  {
    hide Run, Clashes;
    var steps := before + [step];
    assert forall i | 0 <= i < |before| :: steps[..i] == before[..i] && steps[i] == before[i];
    assert steps[..|before|] == before && steps[|before|] == step;
    if NeverClashes(steps) {
      forall i | 0 <= i < |before|
        ensures !Clashes(Run(START, before[..i]), before[i])
      {
        assert !Clashes(Run(START, steps[..i]), steps[i]);
      }
    }
  }

  /** At most one job per key, over a whole run, exactly when no call inserted under a
      key that had been bound since its own lookup. */
  lemma {:induction false} OneJobPerKeyIff(steps: seq<Step>)
    ensures OneJobPerKey(Run(START, steps).ledger) <==> NeverClashes(steps)
  {
    if steps == [] {
      hide IndexPointsHome, IdsInv, Clashes, Next;
    } else {
      hide *;
      var before, last := steps[..|steps| - 1], steps[|steps| - 1];
      RunSnoc(START, before, last);
      OneJobPerKeyIff(before);
      IndexSurvivesInterleaving(before);
      OneJobPerKeyStep(Run(START, before), last);
      assert steps == before + [last];
      NeverClashesSnoc(before, last);
    }
  }

  // ---- When callers keep out of each other's way ----

  /** Nobody arrives with a key while another call with it has yet to insert. */
  predicate Polite(m: Machine, step: Step) {
    step.Arrive? && step.draft.idemKey != "" ==>
      forall c | c in m.calls && Pending(m.calls[c]) :: KeyOf(m.calls[c]) != step.draft.idemKey
  }

  ghost predicate AlwaysPolite(steps: seq<Step>) {
    forall i | 0 <= i < |steps| :: Polite(Run(START, steps[..i]), steps[i])
  }

  /** Pending calls hold different keys, none of them bound. */
  ghost predicate KeysApart(m: Machine) {
    && (forall c | c in m.calls && Pending(m.calls[c]) && KeyOf(m.calls[c]) != "" ::
          KeyOf(m.calls[c]) !in m.ledger.byKey)
    && (forall c, d | c in m.calls && d in m.calls && c != d && Pending(m.calls[c]) && Pending(m.calls[d])
                   && KeyOf(m.calls[c]) != "" :: KeyOf(m.calls[c]) != KeyOf(m.calls[d]))
  }

  lemma ArrivalKeepsKeysApart(m: Machine, c: nat, draft: Job)
    requires IndexPointsHome(m.ledger) && KeysApart(m) && Polite(m, Arrive(c, draft))
    ensures KeysApart(Next(m, Arrive(c, draft)))
  {
    var m' := Next(m, Arrive(c, draft));
    assert forall d | d in m.calls && d != c :: m'.calls[d] == m.calls[d];
  }

  lemma PoliteStepKeepsKeysApart(m: Machine, step: Step)
    requires IndexPointsHome(m.ledger) && KeysApart(m) && Polite(m, step)
    ensures KeysApart(Next(m, step)) && !Clashes(m, step)
  {
    hide IdText, UpdatedJob, Trace, Lookup, Polite, IndexPointsHome;
    var m' := Next(m, step);
    if step.Arrive? {
      ArrivalKeepsKeysApart(m, step.call, step.draft);
    } else if step.TakeNumber? || step.TakeRollback? || step.Insert? {
      assert forall c | c in m.calls && c != step.call :: m'.calls[c] == m.calls[c];
    }
  }

  lemma AlwaysPoliteSnoc(before: seq<Step>, step: Step)
    requires AlwaysPolite(before + [step])
    ensures AlwaysPolite(before) && Polite(Run(START, before), step)
  {
    hide Run, Polite;
    var steps := before + [step];
    assert steps[..|before|] == before && steps[|before|] == step;
    forall i | 0 <= i < |before|
      ensures Polite(Run(START, before[..i]), before[i])
    {
      assert steps[..i] == before[..i] && steps[i] == before[i];
    }
  }

  lemma {:induction false} PoliteRunKeepsKeysApart(steps: seq<Step>)
    requires AlwaysPolite(steps)
    ensures KeysApart(Run(START, steps)) && NeverClashes(steps)
  {
    if steps != [] {
      hide Next, IdsInv, IndexPointsHome, KeysApart, Clashes, Polite, AlwaysPolite, NeverClashes;
      var before, last := steps[..|steps| - 1], steps[|steps| - 1];
      assert steps == before + [last];
      RunSnoc(START, before, last);
      AlwaysPoliteSnoc(before, last);
      PoliteRunKeepsKeysApart(before);
      IndexSurvivesInterleaving(before);
      PoliteStepKeepsKeysApart(Run(START, before), last);
      NeverClashesSnoc(before, last);
    }
  }

  /** If no call arrives while another with its key is pending, no key ever gets two
      jobs, however the calls with other keys interleave. */
  lemma PoliteRunsKeepOneJobPerKey(steps: seq<Step>)
    requires AlwaysPolite(steps)
    ensures OneJobPerKey(Run(START, steps).ledger)
  {
    hide Run, OneJobPerKey, NeverClashes, KeysApart, AlwaysPolite;
    PoliteRunKeepsKeysApart(steps);
    OneJobPerKeyIff(steps);
  }

  // ---- And when they do not ----

  /** The steps that take a pending call to its insertion. */
  function Finish(c: nat, at: int): seq<Step> {
    [TakeNumber(c), TakeRollback(c, at), Insert(c)]
  }

  lemma RunConcat(m: Machine, first: seq<Step>, rest: seq<Step>)
    ensures Run(m, first + rest) == Run(Run(m, first), rest)
  {
    hide Next;
    if rest == [] {
      assert first + rest == first;
    } else {
      var init, last := rest[..|rest| - 1], rest[|rest| - 1];
      RunConcat(m, first, init);
      RunSnoc(Run(m, first), init, last);
      RunSnoc(m, first + init, last);
      assert init + [last] == rest && first + init + [last] == first + rest;
    }
  }

  lemma FinishInserts(m: Machine, c: nat, at: int)
    requires IdsInv(m) && IndexPointsHome(m.ledger) && c in m.calls && Pending(m.calls[c])
    ensures var m' := Run(m, Finish(c, at));
            && IdsInv(m') && IndexPointsHome(m'.ledger)
            && c in m'.calls && m'.calls[c].Owner? && KeyOf(m'.calls[c]) == KeyOf(m.calls[c])
            && (forall d | d in m.calls && d != c :: d in m'.calls && m'.calls[d] == m.calls[d])
  {
    hide IdsInv, IndexPointsHome, PutCreatedJob, IdText;
    var m1 := Next(m, TakeNumber(c));
    var m2 := Next(m1, TakeRollback(c, at));
    var m3 := Next(m2, Insert(c));
    StepKeepsIndex(m, TakeNumber(c));
    StepKeepsIndex(m1, TakeRollback(c, at));
    StepKeepsIndex(m2, Insert(c));
    ThreeSteps(m, TakeNumber(c), TakeRollback(c, at), Insert(c));
  }

  /** The steps of one call with nobody in between are the store's CreateJob. */
  lemma UndisturbedCallIsCreateJob(m: Machine, c: nat, at: int, st: Store)
    requires c in m.calls && m.calls[c].Missed?
    requires st.seqNo == m.seqNo && st.rollbackNo == m.rollbackNo && st.ledger == m.ledger
    ensures var m' := Run(m, Finish(c, at));
            var st' := Apply(st, CreateJob(m.calls[c].draft, at));
            && m'.seqNo == st'.seqNo && m'.rollbackNo == st'.rollbackNo && m'.ledger == st'.ledger
            && m'.calls == m.calls[c := Owner(CreatedJob(m.calls[c].draft, m.seqNo, m.rollbackNo, at))]
  {
    hide Run, PutCreatedJob, CreatedJob;
    ThreeSteps(m, TakeNumber(c), TakeRollback(c, at), Insert(c));
  }

  /** A later write of the call is the store's UpdateJob. */
  lemma OwnersWriteIsUpdateJob(m: Machine, c: nat, job: Job, at: int, st: Store)
    requires c in m.calls && m.calls[c].Owner? && m.ledger == st.ledger
    requires job.id == m.calls[c].job.id && job.idemKey == m.calls[c].job.idemKey
    ensures var m' := Next(m, Write(c, job, at));
            m'.ledger == Apply(st, UpdateJob(job, at)).ledger && m'.calls == m.calls && m'.seqNo == m.seqNo
  {
  }

  lemma ThreeSteps(m: Machine, x: Step, y: Step, z: Step)
    ensures Run(m, [x, y, z]) == Next(Next(Next(m, x), y), z)
  {
    hide Next;
    RunSnoc(m, [], x);
    RunSnoc(m, [x], y);
    RunSnoc(m, [x, y], z);
    assert [] + [x] == [x] && [x] + [y] == [x, y] && [x, y] + [z] == [x, y, z];
  }

  /** Two pending calls with one key can always both finish, and then the key has two
      jobs of which later lookups find one: the politeness above cannot be relaxed. */
  lemma SharedKeyCanAlwaysDouble(steps: seq<Step>, c: nat, d: nat, at: int)
    requires var m := Run(START, steps);
             && c in m.calls && d in m.calls && c != d && Pending(m.calls[c]) && Pending(m.calls[d])
             && KeyOf(m.calls[c]) == KeyOf(m.calls[d]) != ""
    ensures !OneJobPerKey(Run(START, steps + Finish(c, at) + Finish(d, at)).ledger)
  {
    hide Next, Run, Finish, CounterOf, IdText, IndexPointsHome;
    var m := Run(START, steps);
    IndexSurvivesInterleaving(steps);
    FinishInserts(m, c, at);
    RunConcat(START, steps, Finish(c, at));
    var m1 := Run(m, Finish(c, at));
    FinishInserts(m1, d, at);
    RunConcat(START, steps + Finish(c, at), Finish(d, at));
    var m2 := Run(m1, Finish(d, at));
    assert m2.calls[c] == m1.calls[c];
    var x, y := IdOf(m2.calls[c]), IdOf(m2.calls[d]);
    assert x != y && x in m2.ledger.jobs && y in m2.ledger.jobs;
    assert m2.ledger.jobs[x].idemKey == m2.ledger.jobs[y].idemKey;
  }

  /** Two calls that both look up before either inserts. */
  function RacingRun(draft: Job, at: int): seq<Step> {
    [Arrive(0, draft), Arrive(1, draft)] + Finish(0, at) + Finish(1, at)
  }

  lemma RacingCallsDoubleTheJob(draft: Job, at: int)
    requires draft.idemKey != ""
    ensures !OneJobPerKey(Run(START, RacingRun(draft, at)).ledger)
  {
    var x, y := Arrive(0, draft), Arrive(1, draft);
    RunSnoc(START, [], x);
    RunSnoc(START, [x], y);
    assert [] + [x] == [x] && [x] + [y] == [x, y];
    SharedKeyCanAlwaysDouble([x, y], 0, 1, at);
  }
}
