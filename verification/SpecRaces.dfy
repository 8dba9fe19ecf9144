// ReconcileSpec among other callers: it reads a spec, observes, and writes back under
// separate locks, and anyone may act in between.
module SpecRaces {
  import opened Models
  import opened Reconcile

  /** Where one reconciliation stands: it has read the spec, or it has also observed. */
  datatype Look = Look(scope: string, key: string, desired: Params, version: nat)

  datatype Read =
    | Reading(look: Look)
    | Judged(look: Look, seen: Params, drift: Drift)
    | Written(look: Look, seen: Params, drift: Drift)

  /** `live` is what a reconciliation's observation holds now; it may share slices with the
      cluster state. History: `lastReader` names the reconciliation whose observation a spec has. */
  datatype Desk = Desk(
    specs: Specs,
    readers: map<nat, Read>,
    live: map<nat, Params>,
    lastReader: map<(string, string), nat>)

  datatype Step =
    | Upsert(scope: string, key: string, desired: Params, at: int)
    | Begin(reader: nat, scope: string, key: string)
    | Observe(reader: nat, observed: Params)
    | Record(reader: nat, job: string, at: int)
    | Shift(reader: nat, now: Params)

  const BLANK := Desk(map scope | scope in SCOPES :: map[], map[], map[], map[])

  /** The observations that are slices of the cluster state and not copies. */
  predicate IsShared(scope: string) {
    scope == "storage" || scope == "network"
  }

  /** A step whose reconciliation is not at the right point does nothing. */
  function Next(norm: Normal, d: Desk, step: Step): Desk {
    match step
    case Upsert(scope, key, desired, at) => d.(specs := Upserted(d.specs, ScopeOf(scope), KeyOf(key), desired, at))
    case Begin(r, scope, key) =>
      if r in d.readers || !Known(d.specs, scope, key) then d
      else
        var spec := d.specs[scope][key];
        d.(readers := d.readers[r := Reading(Look(scope, key, spec.desired, spec.version))])
    case Observe(r, observed) =>
      if r in d.readers && d.readers[r].Reading? then
        var drift := DriftOf(norm, d.readers[r].look.desired, observed);
        d.(readers := d.readers[r := Judged(d.readers[r].look, observed, drift)], live := d.live[r := observed])
      else d
    case Record(r, job, at) =>
      if r in d.readers && d.readers[r].Judged? && r in d.live
         && Known(d.specs, d.readers[r].look.scope, d.readers[r].look.key) then
        var read := d.readers[r];
        d.(specs := Recorded(d.specs, read.look.scope, read.look.key, d.live[r], read.drift, job, at),
        readers := d.readers[r := Written(read.look, read.seen, read.drift)],
        lastReader := d.lastReader[(read.look.scope, read.look.key) := r])
      else d
    case Shift(r, now) =>
      if r in d.live && r in d.readers && IsShared(d.readers[r].look.scope) then d.(live := d.live[r := now]) else d
  }

  function Run(norm: Normal, steps: seq<Step>): Desk {
    if steps == [] then BLANK else Next(norm, Run(norm, steps[..|steps| - 1]), steps[|steps| - 1])
  }

  lemma RunSnoc(norm: Normal, steps: seq<Step>, step: Step)
    ensures Run(norm, steps + [step]) == Next(norm, Run(norm, steps), step)
  {
    hide Next;
    assert (steps + [step])[..|steps|] == steps;
  }

  predicate Upserts(step: Step, scope: string, key: string) {
    step.Upsert? && ScopeOf(step.scope) == scope && KeyOf(step.key) == key
  }

  function UpsertCount(steps: seq<Step>, scope: string, key: string): nat {
    if steps == [] then 0
    else UpsertCount(steps[..|steps| - 1], scope, key) + if Upserts(steps[|steps| - 1], scope, key) then 1 else 0
  }

  /** What the observation of a spec holds now. */
  function ObservedNow(d: Desk, scope: string, key: string): Params {
    if (scope, key) in d.lastReader && d.lastReader[(scope, key)] in d.live
    then d.live[d.lastReader[(scope, key)]] else map[]
  }

  /** The status is the one that the desired values and the observation call for. */
  predicate Fits(norm: Normal, d: Desk, scope: string, key: string) {
    SpecOf(d.specs, scope, key).drift == DriftOf(norm, SpecOf(d.specs, scope, key).desired, ObservedNow(d, scope, key))
  }

  // ---- The invariant ----

  ghost predicate ReadOk(norm: Normal, d: Desk, r: nat) {
    r in d.readers ==>
      var look := d.readers[r].look;
      && Known(d.specs, look.scope, look.key) && look.scope != "" && look.key != ""
      && look.version <= d.specs[look.scope][look.key].version
      && (look.version == d.specs[look.scope][look.key].version ==>
            look.desired == d.specs[look.scope][look.key].desired)
      && (!d.readers[r].Reading? ==>
            && r in d.live
            && d.readers[r].drift == DriftOf(norm, look.desired, d.readers[r].seen)
            && (!IsShared(look.scope) ==> d.live[r] == d.readers[r].seen))
  }

  /** A status other than PENDING comes from the reconciliation whose observation is stored. */
  ghost predicate SpecOk(d: Desk, scope: string, key: string) {
    && (Known(d.specs, scope, key) ==> scope != "" && key != "")
    && (Known(d.specs, scope, key) && d.specs[scope][key].drift != Pending ==>
      && (scope, key) in d.lastReader && d.lastReader[(scope, key)] in d.readers
      && var read := d.readers[d.lastReader[(scope, key)]];
         && read.Written? && read.look.scope == scope && read.look.key == key
         && d.specs[scope][key].drift == read.drift)
  }

  ghost predicate DeskInv(norm: Normal, d: Desk) {
    && (forall r {:trigger ReadOk(norm, d, r)} :: ReadOk(norm, d, r))
    && (forall scope, key {:trigger SpecOk(d, scope, key)} :: SpecOk(d, scope, key))
  }

  lemma StepKeepsInv(norm: Normal, d: Desk, step: Step)
    requires DeskInv(norm, d)
    ensures DeskInv(norm, Next(norm, d, step))
  {
    hide DriftOf;
    var d' := Next(norm, d, step);
    forall r
      ensures ReadOk(norm, d', r)
    {
      assert ReadOk(norm, d, r);
      if step.Begin? {
        assert SpecOk(d, step.scope, step.key);
      }
    }
    forall scope, key
      ensures SpecOk(d', scope, key)
    {
      assert SpecOk(d, scope, key);
    }
  }

  lemma {:induction false} RunKeepsInv(norm: Normal, steps: seq<Step>)
    ensures DeskInv(norm, Run(norm, steps))
  {
    if steps != [] {
      hide Next, DeskInv;
      RunKeepsInv(norm, steps[..|steps| - 1]);
      StepKeepsInv(norm, Run(norm, steps[..|steps| - 1]), steps[|steps| - 1]);
    }
  }

  lemma StepCounts(norm: Normal, d: Desk, step: Step, scope: string, key: string)
    ensures SpecOf(Next(norm, d, step).specs, scope, key).version ==
            SpecOf(d.specs, scope, key).version + if Upserts(step, scope, key) then 1 else 0
  {
    hide DriftOf;
  }

  /** The version of a spec counts its upserts, whatever else happens. */
  lemma {:induction false} VersionCountsUpserts(norm: Normal, steps: seq<Step>, scope: string, key: string)
    ensures SpecOf(Run(norm, steps).specs, scope, key).version == UpsertCount(steps, scope, key)
  {
    if steps != [] {
      hide Next, Upserts, SpecOf;
      VersionCountsUpserts(norm, steps[..|steps| - 1], scope, key);
      StepCounts(norm, Run(norm, steps[..|steps| - 1]), steps[|steps| - 1], scope, key);
    } else {
      assert SpecOf(Run(norm, steps).specs, scope, key) == NO_SPEC;
    }
  }

  lemma LookStays(norm: Normal, d: Desk, step: Step, r: nat)
    requires r in d.readers
    ensures r in Next(norm, d, step).readers && Next(norm, d, step).readers[r].look == d.readers[r].look
  {
    hide DriftOf, Upserted, Recorded;
  }

  /** A reconciliation that began at step j holds the version of that moment for good. */
  lemma {:induction false} LookIsKept(norm: Normal, steps: seq<Step>, j: nat)
    requires j < |steps| && steps[j].Begin?
    requires steps[j].reader !in Run(norm, steps[..j]).readers
    requires Known(Run(norm, steps[..j]).specs, steps[j].scope, steps[j].key)
    ensures var r, scope, key := steps[j].reader, steps[j].scope, steps[j].key;
            var d := Run(norm, steps);
            && r in d.readers && d.readers[r].look.scope == scope && d.readers[r].look.key == key
            && d.readers[r].look.version == UpsertCount(steps[..j], scope, key)
  {
    var before, last := steps[..|steps| - 1], steps[|steps| - 1];
    if j == |before| {
      assert before == steps[..j];
      VersionCountsUpserts(norm, before, steps[j].scope, steps[j].key);
    } else {
      assert before[..j] == steps[..j] && before[j] == steps[j];
      LookIsKept(norm, before, j);
      hide Next;
      LookStays(norm, Run(norm, before), last, steps[j].reader);
    }
  }

  predicate NoUpsert(steps: seq<Step>, scope: string, key: string) {
    forall i | 0 <= i < |steps| :: !Upserts(steps[i], scope, key)
  }

  lemma {:induction false} CountStandsIff(steps: seq<Step>, j: nat, scope: string, key: string)
    requires j <= |steps|
    ensures UpsertCount(steps[..j], scope, key) <= UpsertCount(steps, scope, key)
    ensures UpsertCount(steps[..j], scope, key) == UpsertCount(steps, scope, key) <==> NoUpsert(steps[j..], scope, key)
  {
    hide Upserts;
    if j == |steps| {
      assert steps[..j] == steps;
    } else {
      var before, last := steps[..|steps| - 1], steps[|steps| - 1];
      assert before[..j] == steps[..j] && steps[j..] == before[j..] + [last];
      CountStandsIff(before, j, scope, key);
      assert steps[j..][|steps| - 1 - j] == last;
      assert forall i | 0 <= i < |before| - j :: steps[j..][i] == before[j..][i];
      if NoUpsert(steps[j..], scope, key) {
        forall i | 0 <= i < |before| - j
          ensures !Upserts(before[j..][i], scope, key)
        {
          assert !Upserts(steps[j..][i], scope, key);
        }
      }
    }
  }

  // ---- What a write-back leaves ----

  /** One write-back. */
  lemma RecordLeaves(norm: Normal, d: Desk, r: nat, job: string, at: int)
    requires r in d.readers && d.readers[r].Judged? && ReadOk(norm, d, r)
    ensures var read, d' := d.readers[r], Next(norm, d, Record(r, job, at));
            var scope, key := read.look.scope, read.look.key;
            && Known(d.specs, scope, key) && Known(d'.specs, scope, key)
            && d'.specs[scope][key].drift == DriftOf(norm, read.look.desired, read.seen)
            && ObservedNow(d', scope, key) == d'.specs[scope][key].observed
            && d'.specs[scope][key].version == SpecOf(d.specs, scope, key).version
            && (read.look.version == d'.specs[scope][key].version ==> d'.specs[scope][key].desired == read.look.desired)
            && (!IsShared(scope) ==> ObservedNow(d', scope, key) == read.seen)
  {
    hide DriftOf;
  }

  /** A reconciliation that began at step j writes back after `steps`. What it leaves is the
      verdict on the values it read then. They are the stored ones, by version, if and only
      if nobody upserted the spec in between; then, and unless the observation has moved
      since, the status fits. In general it fits if and only if the stored values get the
      same verdict from the observation as it is now. */
  lemma WriteBackFitsIff(norm: Normal, steps: seq<Step>, j: nat, job: string, at: int)
    requires j < |steps| && steps[j].Begin?
    requires steps[j].reader !in Run(norm, steps[..j]).readers
    requires Known(Run(norm, steps[..j]).specs, steps[j].scope, steps[j].key)
    requires steps[j].reader in Run(norm, steps).readers && Run(norm, steps).readers[steps[j].reader].Judged?
    ensures var r, scope, key := steps[j].reader, steps[j].scope, steps[j].key;
            var read := Run(norm, steps).readers[r];
            var d' := Run(norm, steps + [Record(r, job, at)]);
            && Known(d'.specs, scope, key)
            && d'.specs[scope][key].drift == DriftOf(norm, read.look.desired, read.seen)
            && ObservedNow(d', scope, key) == d'.specs[scope][key].observed
            && (read.look.version == d'.specs[scope][key].version <==> NoUpsert(steps[j..], scope, key))
            && (NoUpsert(steps[j..], scope, key) && ObservedNow(d', scope, key) == read.seen ==>
                  Fits(norm, d', scope, key))
            && (scope != "storage" && scope != "network" ==> ObservedNow(d', scope, key) == read.seen)
            && (Fits(norm, d', scope, key) <==>
                  DriftOf(norm, read.look.desired, read.seen) ==
                  DriftOf(norm, d'.specs[scope][key].desired, ObservedNow(d', scope, key)))
  {
    hide DriftOf, Run, UpsertCount, NoUpsert, Next, ReadOk, SpecOk, ObservedNow;
    var r, scope, key := steps[j].reader, steps[j].scope, steps[j].key;
    LookIsKept(norm, steps, j);
    RunKeepsInv(norm, steps);
    assert ReadOk(norm, Run(norm, steps), r);
    RunSnoc(norm, steps, Record(r, job, at));
    RecordLeaves(norm, Run(norm, steps), r, job, at);
    VersionCountsUpserts(norm, steps, scope, key);
    CountStandsIff(steps, j, scope, key);
  }

  /** Over whole runs: a status other than PENDING is the verdict of one reconciliation on
      the values it read and what it saw. It fits the stored values and the observation as
      it is now if no upsert came after that reading and the observation has not
      moved, and observations of the other scopes than storage and network never do. */
  lemma StatusIsAVerdict(norm: Normal, steps: seq<Step>, scope: string, key: string)
    ensures var d := Run(norm, steps);
            Known(d.specs, scope, key) && d.specs[scope][key].drift != Pending ==>
              && (scope, key) in d.lastReader && d.lastReader[(scope, key)] in d.readers
              && var read := d.readers[d.lastReader[(scope, key)]];
                 && read.Written? && d.specs[scope][key].drift == DriftOf(norm, read.look.desired, read.seen)
                 && read.look.version <= UpsertCount(steps, scope, key)
                 && (scope != "storage" && scope != "network" ==> ObservedNow(d, scope, key) == read.seen)
                 && (read.look.version == UpsertCount(steps, scope, key) && ObservedNow(d, scope, key) == read.seen ==>
                       Fits(norm, d, scope, key))
  {
    hide DriftOf, Run, UpsertCount;
    var d := Run(norm, steps);
    RunKeepsInv(norm, steps);
    VersionCountsUpserts(norm, steps, scope, key);
    assert SpecOk(d, scope, key);
    if Known(d.specs, scope, key) && d.specs[scope][key].drift != Pending {
      assert ReadOk(norm, d, d.lastReader[(scope, key)]);
    }
  }

  /** The stored observations of storage and network follow the cluster state. */
  lemma SharedObservationsMove(norm: Normal, steps: seq<Step>, scope: string, key: string, now: Params)
    requires scope == "storage" || scope == "network"
    requires var d := Run(norm, steps); Known(d.specs, scope, key) && d.specs[scope][key].drift != Pending
    ensures var r := Run(norm, steps).lastReader;
            (scope, key) in r && ObservedNow(Run(norm, steps + [Shift(r[(scope, key)], now)]), scope, key) == now
  {
    hide Run, DriftOf;
    var d := Run(norm, steps);
    RunKeepsInv(norm, steps);
    assert SpecOk(d, scope, key) && ReadOk(norm, d, d.lastReader[(scope, key)]);
    RunSnoc(norm, steps, Shift(d.lastReader[(scope, key)], now));
  }

  // ---- How it goes wrong ----

  /** Whatever a reconciliation is about to write, some upsert before it does makes the
      status wrong. */
  lemma EveryVerdictCanGoStale(norm: Normal, steps: seq<Step>, r: nat, job: string, at: int) returns (upsert: Step)
    requires r in Run(norm, steps).readers && Run(norm, steps).readers[r].Judged?
    ensures var look := Run(norm, steps).readers[r].look;
            && Upserts(upsert, look.scope, look.key)
            && Known(Run(norm, steps + [upsert] + [Record(r, job, at)]).specs, look.scope, look.key)
            && !Fits(norm, Run(norm, steps + [upsert] + [Record(r, job, at)]), look.scope, look.key)
  {
    hide Run, Matches;
    var read := Run(norm, steps).readers[r];
    upsert := Upsert(read.look.scope, read.look.key, if read.drift == Pending then map["" := Null] else map[], at);
    RunKeepsInv(norm, steps);
    assert ReadOk(norm, Run(norm, steps), r);
    RunSnoc(norm, steps, upsert);
    RunSnoc(norm, steps + [upsert], Record(r, job, at));
    assert "" in map["" := Null];
  }

  /** A concrete run: the spec is IN_SYNC with values it has never matched. */
  lemma OverwrittenUpsertIsInSync(norm: Normal, field: string, old_: Value, new_: Value, at: int)
    requires norm(old_) != norm(new_)
    ensures var steps := [Upsert("cluster", "", map[field := old_], at)] + [Begin(0, "cluster", "default")]
                         + [Observe(0, map[field := old_])] + [Upsert("cluster", "", map[field := new_], at)]
                         + [Record(0, "", at)];
            var spec := SpecOf(Run(norm, steps).specs, "cluster", "default");
            && spec.desired == map[field := new_] && spec.observed == map[field := old_]
            && spec.drift == InSync && !Matches(norm, spec.desired, spec.observed)
  {
    var first := [Upsert("cluster", "", map[field := old_], at)];
    var begin, observe := Begin(0, "cluster", "default"), Observe(0, map[field := old_]);
    var second, write := Upsert("cluster", "", map[field := new_], at), Record(0, "", at);
    assert [] + first == first;
    assert Differs(norm, map[field := new_], map[field := old_], field);
    hide Run, Matches;
    BlankRun(norm);
    RunSnoc(norm, [], first[0]);
    RunSnoc(norm, first, begin);
    RunSnoc(norm, first + [begin], observe);
    JudgedInSync(norm, Run(norm, first + [begin]), map[field := old_]);
    RunSnoc(norm, first + [begin] + [observe], second);
    RunSnoc(norm, first + [begin] + [observe] + [second], write);
  }

  /** Seeing just what one has read is seeing a match. */
  lemma JudgedInSync(norm: Normal, d: Desk, seen: Params)
    requires 0 in d.readers && d.readers[0].Reading? && d.readers[0].look.desired == seen && seen != map[]
    ensures var d' := Next(norm, d, Observe(0, seen));
            && d'.readers == d.readers[0 := Judged(d.readers[0].look, seen, InSync)]
            && d'.live == d.live[0 := seen] && d'.specs == d.specs
  {
  }

  lemma BlankRun(norm: Normal)
    ensures Run(norm, []) == BLANK
  {
  }

  /** And the steps of one reconciliation with nobody in between are the reconciliation. */
  lemma UndisturbedIsReconciled(obs: Observation, norm: Normal, d: Desk, r: nat, scope: string, key: string,
                                job: string, at: int)
    requires r !in d.readers && Known(d.specs, scope, key)
    ensures var d' := Next(norm, Next(norm, Next(norm, d, Begin(r, scope, key)), Observe(r, obs(scope, key))),
                           Record(r, job, at));
            d'.specs == d.specs[scope := d.specs[scope][key :=
              Reconciled(obs, norm, scope, key, d.specs[scope][key], job, at)]]
  {
    hide DriftOf;
  }
}
