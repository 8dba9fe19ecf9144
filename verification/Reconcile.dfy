// Desired-state specs: UpsertSpec, SetSpecObserved, ReconcileSpec,
// ReconcileAllSpecs, computeObservedAndDrift and diffMaps of
// backend/internal/proxmox/client.go and backend/internal/store/memory.go.
// What a scope currently looks like and how values are normalised before they
// are compared are parameters.
module Reconcile {
  import opened Text
  import opened Models
  import opened Ids
  import opened StoreModel
  import opened StoreImpl

  datatype Drift = InSync | Pending | Drifted

  datatype Spec = Spec(desired: Params, observed: Params, drift: Drift, lastJob: string, version: nat, updatedAt: int)

  type Specs = map<string, map<string, Spec>>

  /** observedFor, by scope and key, while nothing but specs changes. */
  type Observation = (string, string) -> Params

  /** normalizeValue: a JSON round trip. */
  type Normal = Value -> Value

  /** The instant at which a pass reaches a spec. */
  type Instants = (string, string) -> int

  datatype Mismatch = Mismatch(field: string, desired: Value, observed: Value)

  const SCOPES := ["cluster", "storage", "network", "backup", "workloads", "blueprint"]

  // ---- sort.Strings ----

  /** The order of Go's strings; for runes it is the order of their UTF-8 bytes. */
  predicate Less(a: string, b: string) {
    b != "" && (a == "" || a[0] < b[0] || (a[0] == b[0] && Less(a[1..], b[1..])))
  }

  lemma {:induction false} LessIsTotal(a: string, b: string)
    ensures a == b || Less(a, b) || Less(b, a)
  {
    if a != "" && b != "" && a[0] == b[0] {
      LessIsTotal(a[1..], b[1..]);
      assert a == [a[0]] + a[1..] && b == [b[0]] + b[1..];
    }
  }

  lemma {:induction false} LessIsTransitive(a: string, b: string, c: string)
    requires Less(a, b) && Less(b, c)
    ensures Less(a, c)
  {
    if a != "" && a[0] == b[0] == c[0] {
      LessIsTransitive(a[1..], b[1..], c[1..]);
    }
  }

  lemma {:induction false} LessIsStrict(a: string)
    ensures !Less(a, a)
  {
    if a != "" {
      LessIsStrict(a[1..]);
    }
  }

  ghost predicate Ascending(ks: seq<string>) {
    forall i, j | 0 <= i < j < |ks| :: Less(ks[i], ks[j])
  }

  lemma LastIsGreatest(ks: seq<string>, k: string)
    requires Ascending(ks) && k in ks
    ensures k == ks[|ks| - 1] || Less(k, ks[|ks| - 1])
  {
  }

  lemma WithoutLast(ks: seq<string>)
    requires Ascending(ks) && ks != []
    ensures Ascending(ks[..|ks| - 1])
    ensures forall k :: k in ks[..|ks| - 1] <==> k in ks && k != ks[|ks| - 1]
  {
    LessIsStrict(ks[|ks| - 1]);
    var init, last := ks[..|ks| - 1], ks[|ks| - 1];
    assert ks == init + [last];
    assert forall i | 0 <= i < |init| :: Less(init[i], last);
  }

  lemma EmptyOrFirst(ks: seq<string>)
    ensures ks == [] || ks[0] in ks
  {
  }

  /** A set of strings has one ascending enumeration. */
  lemma {:induction false} AscendingIsUnique(a: seq<string>, b: seq<string>)
    requires Ascending(a) && Ascending(b) && forall k :: k in a <==> k in b
    ensures a == b
  {
    EmptyOrFirst(a);
    EmptyOrFirst(b);
    if a != [] {
      var x, y := a[|a| - 1], b[|b| - 1];
      LastIsGreatest(a, y);
      LastIsGreatest(b, x);
      if x != y {
        LessIsTransitive(x, y, x);
        LessIsStrict(x);
      }
      assert x == y;
      WithoutLast(a);
      WithoutLast(b);
      var a', b' := a[..|a| - 1], b[..|b| - 1];
      forall k
        ensures k in a' <==> k in b'
      {
        assert k in a <==> k in b;
      }
      AscendingIsUnique(a', b');
      assert a == a[..|a| - 1] + [x] && b == b[..|b| - 1] + [y];
    }
  }

  predicate Least(k: string, keys: set<string>) {
    k in keys && forall x | x in keys :: x == k || Less(k, x)
  }

  lemma LeastIsBelowTheRest(k: string, keys: set<string>)
    requires Least(k, keys)
    ensures forall x | x in keys - {k} :: Less(k, x)
  {
  }

  lemma {:induction false} SomeKeyIsLeast(keys: set<string>) returns (k: string)
    requires keys != {}
    ensures Least(k, keys)
  {
    var first :| first in keys;
    var rest := keys - {first};
    assert forall x | x in keys :: x == first || x in rest;
    k := first;
    if rest != {} {
      var m := SomeKeyIsLeast(rest);
      LessIsTotal(first, m);
      if Less(m, first) {
        k := m;
      } else {
        forall x | x in rest && x != m
          ensures Less(first, x)
        {
          LessIsTransitive(first, m, x);
        }
      }
    }
  }

  // ---- The field-wise difference ----

  /** A desired field differs when the normalised values do; a field that is not
      observed reads as null. */
  predicate Differs(norm: Normal, desired: Params, observed: Params, k: string) {
    norm(Get(desired, k)) != norm(Get(observed, k))
  }

  predicate Matches(norm: Normal, desired: Params, observed: Params) {
    forall k | k in desired :: !Differs(norm, desired, observed, k)
  }

  /** Every entry is a differing desired field with both its values, in ascending order. */
  ghost predicate OnlyDifferences(norm: Normal, desired: Params, observed: Params, delta: seq<Mismatch>) {
    && (forall i | 0 <= i < |delta| ::
          && delta[i] == Mismatch(delta[i].field, Get(desired, delta[i].field), Get(observed, delta[i].field))
          && delta[i].field in desired && Differs(norm, desired, observed, delta[i].field))
    && (forall i, j | 0 <= i < j < |delta| :: Less(delta[i].field, delta[j].field))
  }

  /** A mismatch list has exactly the differences. */
  ghost predicate IsDiff(norm: Normal, desired: Params, observed: Params, delta: seq<Mismatch>) {
    && OnlyDifferences(norm, desired, observed, delta)
    && forall k | k in desired && Differs(norm, desired, observed, k) :: Lists(delta, k)
  }

  ghost predicate Lists(delta: seq<Mismatch>, k: string) {
    exists i :: 0 <= i < |delta| && delta[i].field == k
  }

  method DiffMaps(norm: Normal, desired: Params, observed: Params) returns (delta: seq<Mismatch>)
    ensures IsDiff(norm, desired, observed, delta)
    ensures delta == [] <==> Matches(norm, desired, observed)
  {
    delta := [];
    var rest := desired.Keys;
    while rest != {}
      invariant rest <= desired.Keys
      invariant forall i, x | 0 <= i < |delta| && x in rest :: Less(delta[i].field, x)
      invariant OnlyDifferences(norm, desired, observed, delta)
      invariant forall k | k in desired && k !in rest && Differs(norm, desired, observed, k) :: Lists(delta, k)
      decreases rest
    {
      ghost var least := SomeKeyIsLeast(rest);
      var k :| k in rest && Least(k, rest);
      LeastIsBelowTheRest(k, rest);
      rest := rest - {k};
      if Differs(norm, desired, observed, k) {
        ghost var before := delta;
        delta := delta + [Mismatch(k, Get(desired, k), Get(observed, k))];
        assert delta[|before|].field == k;
        forall x | Lists(before, x)
          ensures Lists(delta, x)
        {
          var i :| 0 <= i < |before| && before[i].field == x;
          assert delta[i].field == x;
        }
      }
    }
    if delta != [] {
      assert delta[0].field in desired;
    }
  }

  function Fields(delta: seq<Mismatch>): seq<string> {
    seq(|delta|, i requires 0 <= i < |delta| => delta[i].field)
  }

  lemma FieldsAreTheDifferences(norm: Normal, desired: Params, observed: Params, delta: seq<Mismatch>)
    requires IsDiff(norm, desired, observed, delta)
    ensures Ascending(Fields(delta))
    ensures forall k :: k in Fields(delta) <==> k in desired && Differs(norm, desired, observed, k)
  {
    forall k | k in desired && Differs(norm, desired, observed, k)
      ensures k in Fields(delta)
    {
      assert Lists(delta, k);
      var i :| 0 <= i < |delta| && delta[i].field == k;
      assert Fields(delta)[i] == k;
    }
  }

  /** The list is determined by the desired and the observed fields, whatever order the
      map yields its keys in. */
  lemma DiffIsUnique(norm: Normal, desired: Params, observed: Params, a: seq<Mismatch>, b: seq<Mismatch>)
    requires IsDiff(norm, desired, observed, a) && IsDiff(norm, desired, observed, b)
    ensures a == b
  {
    FieldsAreTheDifferences(norm, desired, observed, a);
    FieldsAreTheDifferences(norm, desired, observed, b);
    AscendingIsUnique(Fields(a), Fields(b));
    forall i | 0 <= i < |a|
      ensures a[i] == b[i]
    {
      assert Fields(a)[i] == Fields(b)[i];
    }
  }

  /** Writing the listed desired values over the observed ones. */
  function Patched(observed: Params, delta: seq<Mismatch>): Params {
    if delta == [] then observed
    else Patched(observed, delta[..|delta| - 1])[delta[|delta| - 1].field := delta[|delta| - 1].desired]
  }

  lemma {:induction false} PatchedField(observed: Params, desired: Params, delta: seq<Mismatch>, k: string)
    requires forall i | 0 <= i < |delta| :: delta[i].desired == Get(desired, delta[i].field)
    ensures Get(Patched(observed, delta), k) == if Lists(delta, k) then Get(desired, k) else Get(observed, k)
  {
    if delta != [] {
      var init := delta[..|delta| - 1];
      PatchedField(observed, desired, init, k);
      assert delta[|delta| - 1].field == k ==> Lists(delta, k);
      if Lists(init, k) {
        var i :| 0 <= i < |init| && init[i].field == k;
        assert delta[i].field == k;
      }
      if Lists(delta, k) && delta[|delta| - 1].field != k {
        var i :| 0 <= i < |delta| && delta[i].field == k;
        assert init[i].field == k;
      }
    }
  }

  /** The list is a sufficient patch: writing it into the observed fields leaves no
      difference. */
  lemma PatchingClosesTheDiff(norm: Normal, desired: Params, observed: Params, delta: seq<Mismatch>)
    requires IsDiff(norm, desired, observed, delta)
    ensures Matches(norm, desired, Patched(observed, delta))
  {
    forall k | k in desired
      ensures !Differs(norm, desired, Patched(observed, delta), k)
    {
      PatchedField(observed, desired, delta, k);
    }
  }

  // ---- One spec ----

  /** computeObservedAndDrift's status. */
  function DriftOf(norm: Normal, desired: Params, observed: Params): Drift {
    if desired == map[] then Pending
    else if Matches(norm, desired, observed) then InSync
    else Drifted
  }

  function Reconciled(obs: Observation, norm: Normal, scope: string, key: string, spec: Spec, job: string,
                      at: int): Spec
  {
    spec.(observed := obs(scope, key),
    drift := DriftOf(norm, spec.desired, obs(scope, key)),
    lastJob := job,
    updatedAt := at)
  }

  /** A pass over all specs of the six scopes; other scopes are left alone. */
  function ReconciledAll(obs: Observation, norm: Normal, specs: Specs, job: string, at: Instants): Specs {
    map scope | scope in specs ::
      if scope in SCOPES then ReconciledGroup(obs, norm, scope, specs[scope], job, at) else specs[scope]
  }

  function ReconciledGroup(obs: Observation, norm: Normal, scope: string, group: map<string, Spec>, job: string,
                           at: Instants): map<string, Spec>
  {
    map key | key in group :: Reconciled(obs, norm, scope, key, group[key], job, at(scope, key))
  }

  /** What a pass reports of one spec. */
  datatype PassEntry = PassEntry(scope: string, key: string, delta: seq<Mismatch>)

  ghost predicate Reports(entries: seq<PassEntry>, scope: string, key: string) {
    exists i :: 0 <= i < |entries| && entries[i].scope == scope && entries[i].key == key
  }

  /** Every entry is a spec of one of the scopes, once, with its differences. */
  ghost predicate EntriesAreRight(obs: Observation, norm: Normal, specs: Specs, scopes: seq<string>,
                                  entries: seq<PassEntry>)
  {
    && (forall i | 0 <= i < |entries| ::
          && entries[i].scope in scopes && entries[i].scope in specs && entries[i].key in specs[entries[i].scope]
          && IsDiff(norm, specs[entries[i].scope][entries[i].key].desired, obs(entries[i].scope, entries[i].key),
                    entries[i].delta))
    && (forall i, j | 0 <= i < j < |entries| ::
          entries[i].scope != entries[j].scope || entries[i].key != entries[j].key)
  }

  ghost predicate EntriesCover(specs: Specs, scopes: seq<string>, entries: seq<PassEntry>) {
    forall scope, key | scope in scopes && scope in specs && key in specs[scope] :: Reports(entries, scope, key)
  }

  lemma ReportsGrow(entries: seq<PassEntry>, more: seq<PassEntry>, scope: string, key: string)
    ensures Reports(entries, scope, key) || Reports(more, scope, key) <==> Reports(entries + more, scope, key)
  {
    var all := entries + more;
    if Reports(entries, scope, key) {
      var i :| 0 <= i < |entries| && entries[i].scope == scope && entries[i].key == key;
      assert all[i] == entries[i];
    }
    if Reports(more, scope, key) {
      var i :| 0 <= i < |more| && more[i].scope == scope && more[i].key == key;
      assert all[|entries| + i] == more[i];
    }
  }

  const NO_SPEC := Spec(map[], map[], Pending, "", 0, 0)

  function ScopeOf(scope: string): string {
    if scope == "" then "cluster" else scope
  }

  function KeyOf(key: string): string {
    if key == "" then "default" else key
  }

  predicate Known(specs: Specs, scope: string, key: string) {
    scope in specs && key in specs[scope]
  }

  function SpecOf(specs: Specs, scope: string, key: string): Spec {
    if Known(specs, scope, key) then specs[scope][key] else NO_SPEC
  }

  /** New desired values, waiting for a reconciliation. */
  function Upserted(specs: Specs, scope: string, key: string, desired: Params, at: int): Specs {
    var spec := SpecOf(specs, scope, key);
    specs[scope := GroupOf(specs, scope)[key :=
      spec.(desired := desired, drift := Pending, version := spec.version + 1, updatedAt := at)]]
  }

  /** A new observation of a known spec, with the status that was computed for it. */
  function Recorded(specs: Specs, scope: string, key: string, observed: Params, drift: Drift, job: string,
                    at: int): Specs
    requires Known(specs, scope, key)
  {
    specs[scope := specs[scope][key :=
      specs[scope][key].(observed := observed, drift := drift, lastJob := job, updatedAt := at)]]
  }

  function GroupOf(specs: Specs, scope: string): map<string, Spec> {
    if scope in specs then specs[scope] else map[]
  }

  class SpecStore {
    var specs: Specs

    constructor ()
      ensures specs == map scope | scope in SCOPES :: map[]
    {
      specs := map scope | scope in SCOPES :: map[];
    }

    /** Desired values replace the old ones; what was observed is kept, and the
        status is PENDING until the next reconciliation. */
    method UpsertSpec(scope: string, key: string, desired: Params, at: int) returns (spec: Spec)
      modifies this
      ensures var s := if scope == "" then "cluster" else scope;
              var k := if key == "" then "default" else key;
              && specs == Upserted(old(specs), s, k, desired, at)
              && spec == specs[s][k] && spec.desired == desired && spec.drift == Pending
              && spec.observed == SpecOf(old(specs), s, k).observed
              && spec.version == SpecOf(old(specs), s, k).version + 1
    {
      var s := if scope == "" then "cluster" else scope;
      var k := if key == "" then "default" else key;
      if s !in specs {
        specs := specs[s := map[]];
      }
      var cur := if k in specs[s] then specs[s][k] else NO_SPEC;
      spec := cur.(desired := desired, version := cur.version + 1, drift := Pending, updatedAt := at);
      specs := specs[s := specs[s][k := spec]];
    }

    method SetSpecObserved(scope: string, key: string, observed: Params, drift: Drift, job: string, at: int)
      returns (ok: bool)
      modifies this
      ensures ok <==> Known(old(specs), scope, key)
      ensures specs == if ok then Recorded(old(specs), scope, key, observed, drift, job, at) else old(specs)
    {
      if scope !in specs || key !in specs[scope] {
        return false;
      }
      var spec := specs[scope][key].(observed := observed, drift := drift, lastJob := job, updatedAt := at);
      specs := specs[scope := specs[scope][key := spec]];
      ok := true;
    }

    /** Fails for an unknown spec, otherwise records the current observation. */
    method ReconcileSpec(obs: Observation, norm: Normal, scope: string, key: string, job: string, at: int)
      returns (delta: Option<seq<Mismatch>>)
      modifies this
      ensures delta.Some? <==> Known(old(specs), scope, key)
      ensures delta.None? ==> specs == old(specs)
      ensures delta.Some? ==>
                var spec := old(specs)[scope][key];
                && specs == old(specs)[scope := old(specs)[scope][key :=
                     Reconciled(obs, norm, scope, key, spec, job, at)]]
                && IsDiff(norm, spec.desired, obs(scope, key), delta.value)
    {
      if scope !in specs || key !in specs[scope] {
        return None;
      }
      var spec := specs[scope][key];
      var observed := obs(scope, key);
      var mismatches := DiffMaps(norm, spec.desired, observed);
      var drift;
      if spec.desired == map[] {
        drift, mismatches := Pending, [];
      } else if mismatches == [] {
        drift := InSync;
      } else {
        drift := Drifted;
      }
      var _ := SetSpecObserved(scope, key, observed, drift, job, at);
      delta := Some(mismatches);
    }

    method ReconcileGroup(obs: Observation, norm: Normal, scope: string, job: string, at: Instants)
      returns (entries: seq<PassEntry>)
      requires scope in specs
      modifies this
      ensures specs == old(specs)[scope := ReconciledGroup(obs, norm, scope, old(specs)[scope], job, at)]
      ensures EntriesAreRight(obs, norm, old(specs), [scope], entries)
      ensures forall key | key in old(specs)[scope] :: Reports(entries, scope, key)
    {
      hide IsDiff, EntriesAreRight, Reports, Reconciled;
      var group := specs[scope];
      NoEntries(obs, norm, specs, [scope]);
      var rest := group.Keys;
      entries := [];
      while rest != {}
        invariant rest <= group.Keys
        invariant scope in specs && specs == old(specs)[scope := specs[scope]]
        invariant specs[scope].Keys == group.Keys
        invariant forall key | key in group ::
                    specs[scope][key] ==
                    if key in rest then group[key]
                    else Reconciled(obs, norm, scope, key, group[key], job, at(scope, key))
        invariant EntriesAreRight(obs, norm, old(specs), [scope], entries)
        invariant forall key | key in group :: Reports(entries, scope, key) <==> key !in rest
        decreases rest
      {
        var key :| key in rest;
        rest := rest - {key};
        var delta := ReconcileSpec(obs, norm, scope, key, job, at(scope, key));
        var entry := PassEntry(scope, key, delta.value);
        OneMoreEntry(obs, norm, old(specs), scope, entries, entry);
        entries := entries + [entry];
      }
      assert specs[scope] == ReconciledGroup(obs, norm, scope, group, job, at);
    }

    method ReconcileAllSpecs(obs: Observation, norm: Normal, job: string, at: Instants)
      returns (entries: seq<PassEntry>)
      modifies this
      ensures specs == ReconciledAll(obs, norm, old(specs), job, at)
      ensures EntriesAreRight(obs, norm, old(specs), SCOPES, entries)
      ensures EntriesCover(old(specs), SCOPES, entries)
    {
      hide IsDiff, EntriesAreRight, EntriesCover, Reports, ReconciledGroup;
      entries := [];
      NoEntries(obs, norm, specs, SCOPES[..0]);
      NothingToCover(specs, SCOPES[..0]);
      for i := 0 to |SCOPES|
        invariant specs.Keys == old(specs).Keys
        invariant forall scope | scope in specs ::
                    specs[scope] ==
                    if scope in SCOPES[..i] then ReconciledGroup(obs, norm, scope, old(specs)[scope], job, at)
                    else old(specs)[scope]
        invariant EntriesAreRight(obs, norm, old(specs), SCOPES[..i], entries)
        invariant EntriesCover(old(specs), SCOPES[..i], entries)
      {
        var scope := SCOPES[i];
        ScopesAreDistinct(i);
        assert forall s | s in SCOPES[..i + 1] :: s in SCOPES[..i] || s == scope;
        assert forall s | s in SCOPES[..i] :: s in SCOPES[..i + 1];
        assert SCOPES[..i + 1][i] == scope;
        if scope in specs {
          ghost var now := specs;
          var more := ReconcileGroup(obs, norm, scope, job, at);
          AppendEntries(obs, norm, old(specs), SCOPES[..i], scope, entries, more, SCOPES[..i + 1], now);
          entries := entries + more;
        } else {
          AbsentScope(obs, norm, old(specs), SCOPES[..i], scope, entries, SCOPES[..i + 1]);
        }
      }
      assert SCOPES[..|SCOPES|] == SCOPES;
    }
  }

  lemma NoEntries(obs: Observation, norm: Normal, specs: Specs, scopes: seq<string>)
    ensures EntriesAreRight(obs, norm, specs, scopes, [])
    ensures forall scope, key :: !Reports([], scope, key)
  {
  }

  lemma NothingToCover(specs: Specs, scopes: seq<string>)
    requires scopes == []
    ensures EntriesCover(specs, scopes, [])
  {
  }

  lemma AbsentScope(obs: Observation, norm: Normal, specs: Specs, scopes: seq<string>, scope: string,
                    entries: seq<PassEntry>, scopes': seq<string>)
    requires EntriesAreRight(obs, norm, specs, scopes, entries) && EntriesCover(specs, scopes, entries)
    requires scope !in specs && forall s :: s in scopes' <==> s in scopes || s == scope
    ensures EntriesAreRight(obs, norm, specs, scopes', entries) && EntriesCover(specs, scopes', entries)
  {
    hide IsDiff, Reports;
  }

  lemma OneMoreEntry(obs: Observation, norm: Normal, specs: Specs, scope: string, entries: seq<PassEntry>,
                     entry: PassEntry)
    requires EntriesAreRight(obs, norm, specs, [scope], entries) && !Reports(entries, scope, entry.key)
    requires entry.scope == scope && scope in specs && entry.key in specs[scope]
    requires IsDiff(norm, specs[scope][entry.key].desired, obs(scope, entry.key), entry.delta)
    ensures EntriesAreRight(obs, norm, specs, [scope], entries + [entry])
    ensures forall key :: Reports(entries + [entry], scope, key) <==> Reports(entries, scope, key) || key == entry.key
  {
    hide IsDiff;
    assert forall i | 0 <= i < |entries| :: entries[i].scope in [scope] && entries[i].key != entry.key by {
      assert forall i | 0 <= i < |entries| :: entries[i].scope in [scope];
    }
    forall key
      ensures Reports(entries + [entry], scope, key) <==> Reports(entries, scope, key) || key == entry.key
    {
      ReportsGrow(entries, [entry], scope, key);
      assert [entry][0] == entry;
    }
  }

  /** The entries of one more scope. */
  lemma AppendEntries(obs: Observation, norm: Normal, specs: Specs, scopes: seq<string>, scope: string,
                      entries: seq<PassEntry>, more: seq<PassEntry>, scopes': seq<string>, now: Specs)
    requires EntriesAreRight(obs, norm, specs, scopes, entries) && EntriesCover(specs, scopes, entries)
    requires scope in specs && scope !in scopes && forall s :: s in scopes' <==> s in scopes || s == scope
    requires scope in now && now[scope] == specs[scope] && EntriesAreRight(obs, norm, now, [scope], more)
    requires forall key | key in specs[scope] :: Reports(more, scope, key)
    ensures EntriesAreRight(obs, norm, specs, scopes', entries + more)
    ensures EntriesCover(specs, scopes', entries + more)
  {
    hide IsDiff;
    forall s, key | s in scopes' && s in specs && key in specs[s]
      ensures Reports(entries + more, s, key)
    {
      ReportsGrow(entries, more, s, key);
    }
  }

  /** One new task that names the spec, above the recurring ones. */
  ghost predicate Queues(st: Store, st': Store, scope: string, key: string, at: int) {
    var id := IdText("task", st.seqNo + 1);
    && id in st'.queue.tasks && id in st'.heap.payloads
    && st'.heap.payloads[id] == map["scope" := Str(scope), "key" := Str(key)]
    && var t := st'.queue.tasks[id];
       && t.kind == "spec.reconcile" && t.payload == Some(id) && t.status == Queued && t.createdAt == at
       && t.priority == 80 && t.maxAttempts == 3 && t.requestedBy == "spec-controller" && !t.deadLetter
  }

  lemma SeedQueues(st: Store, scope: string, key: string, at: int)
    ensures Queues(st, Apply(st, CreateTask(ReconcileSeed(scope, key), None, at)), scope, key, at)
  {
    hide IdText;
  }

  class Client {
    const specs: SpecStore
    const store: MemoryStore

    constructor (specs: SpecStore, store: MemoryStore)
      ensures this.specs == specs && this.store == store
    {
      this.specs, this.store := specs, store;
    }

    /** A scope is required; the new desired values are stored as PENDING and one
        reconciliation of the spec is queued above the recurring tasks. */
    method ApplySpec(scope: string, key: string, desired: Params, at: int, queuedAt: int) returns (spec: Option<Spec>)
      modifies specs, store
      ensures spec.None? <==> scope == ""
      ensures spec.None? ==> specs.specs == old(specs.specs) && store.View() == old(store.View())
      ensures spec.Some? ==>
                var k := if key == "" then "default" else key;
                && spec.value.desired == desired && spec.value.drift == Pending
                && specs.specs == old(specs.specs)[scope := GroupOf(old(specs.specs), scope)[k := spec.value]]
                && store.View() == Apply(old(store.View()), CreateTask(ReconcileSeed(scope, k), None, queuedAt))
                && Queues(old(store.View()), store.View(), scope, k, queuedAt)
    {
      hide AddTask, PutTask, Queues;
      if scope == "" {
        return None;
      }
      var k := if key == "" then "default" else key;
      var s := specs.UpsertSpec(scope, k, desired, at);
      SeedQueues(store.View(), scope, k, queuedAt);
      var _ := store.CreateAgentTask(ReconcileSeed(scope, k), None, queuedAt);
      spec := Some(s);
    }
  }

  function ReconcileSeed(scope: string, key: string): TaskSeed {
    TaskSeed("spec.reconcile", Fresh(map["scope" := Str(scope), "key" := Str(key)]), "spec-controller", 80, 3, false)
  }

  lemma ScopesAreDistinct(i: nat)
    requires i < |SCOPES|
    ensures SCOPES[i] !in SCOPES[..i]
  {
    forall j | 0 <= j < i
      ensures SCOPES[j] != SCOPES[i]
    {
      assert |"cluster"| == 7 && |"storage"| == 7 && |"network"| == 7 && |"backup"| == 6;
      assert "cluster"[0] == 'c' && "storage"[0] == 's' && "network"[0] == 'n' && "backup"[1] == 'a';
      assert "workloads"[0] == 'w' && "blueprint"[0] == 'b' && "blueprint"[1] == 'l';
    }
  }

  // ---- The fixpoint ----

  predicate Tracked(specs: Specs, scope: string, key: string) {
    scope in SCOPES && scope in specs && key in specs[scope]
  }

  lemma TheSixScopes(scope: string)
    ensures scope in SCOPES <==> scope in {"cluster", "storage", "network", "backup", "workloads", "blueprint"}
  {
  }

  /** After a pass every spec of the six scopes holds the current observation and the
      status that goes with it; desired values and versions are untouched, and so
      is every other scope. */
  lemma PassEstablishesStatus(obs: Observation, norm: Normal, specs: Specs, job: string, at: Instants,
                              scope: string, key: string)
    requires scope in specs && key in specs[scope]
    ensures var after := ReconciledAll(obs, norm, specs, job, at);
            && after.Keys == specs.Keys && after[scope].Keys == specs[scope].Keys
            && var old_, new_ := specs[scope][key], after[scope][key];
               && new_.desired == old_.desired && new_.version == old_.version
               && var passed := scope in {"cluster", "storage", "network", "backup", "workloads", "blueprint"};
               && (!passed ==> new_ == old_)
               && (passed ==>
                     && new_.observed == obs(scope, key)
                     && new_.lastJob == job && new_.updatedAt == at(scope, key)
                     && (new_.drift == Pending <==> old_.desired == map[])
                     && (new_.drift == InSync <==>
                           && old_.desired != map[]
                           && forall f | f in old_.desired :: norm(old_.desired[f]) == norm(Get(obs(scope, key), f)))
                     && (new_.drift == Drifted <==>
                           exists f :: f in old_.desired && norm(old_.desired[f]) != norm(Get(obs(scope, key), f))))
  {
    TheSixScopes(scope);
    hide SCOPES;
    var spec := specs[scope][key];
    var now := obs(scope, key);
    if spec.desired != map[] && !Matches(norm, spec.desired, now) {
      var f :| f in spec.desired && Differs(norm, spec.desired, now, f);
      assert norm(spec.desired[f]) != norm(Get(now, f));
    }
    assert forall f | f in spec.desired ::
        Differs(norm, spec.desired, now, f) <==> norm(spec.desired[f]) != norm(Get(now, f));
  }

  /** A pass is a fixpoint: a second one, by any job at any time, changes no status, no
      observation, no desired value and no version. */
  lemma SecondPassChangesNothing(obs: Observation, norm: Normal, specs: Specs, job: string, at: Instants,
                                 job': string, at': Instants)
    ensures var once := ReconciledAll(obs, norm, specs, job, at);
            var twice := ReconciledAll(obs, norm, once, job', at');
            && twice.Keys == once.Keys
            && forall scope | scope in once ::
                 && twice[scope].Keys == once[scope].Keys
                 && forall key | key in once[scope] ::
                      twice[scope][key].(lastJob := "", updatedAt := 0) ==
                      once[scope][key].(lastJob := "", updatedAt := 0)
  {
  }

  /** Declaring exactly what is observed brings a spec in sync at the next pass. */
  lemma DesiringTheObservedIsInSync(obs: Observation, norm: Normal, specs: Specs, job: string, at: Instants,
                                    scope: string, key: string)
    requires Tracked(specs, scope, key) && obs(scope, key) != map[]
    requires specs[scope][key].desired == obs(scope, key)
    ensures ReconciledAll(obs, norm, specs, job, at)[scope][key].drift == InSync
  {
    PassEstablishesStatus(obs, norm, specs, job, at, scope, key);
  }
}
