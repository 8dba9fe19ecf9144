// ExplainBackupPolicy of backend/internal/store/memory.go: a selection that
// depends on the iteration order of a map.
module BackupSelection {
  import opened Text
  import opened Ids

  datatype Policy = Policy(id: string, workloadId: string, priority: int, override_: bool)

  datatype DecisionLog = DecisionLog(id: string, workloadId: string, policyId: string, reason: string, createdAt: int)

  /** One turn of the selection loop. */
  function Pick(selected: Option<Policy>, p: Policy): Option<Policy> {
    if selected.None? || p.priority > selected.value.priority || p.override_ then Some(p) else selected
  }

  /** The loop over the policies of one workload in the order given. */
  function Select(order: seq<Policy>): Option<Policy> {
    if order == [] then None else Pick(Select(order[..|order| - 1]), order[|order| - 1])
  }

  /** The policies of a workload, by id. */
  function Of(policies: map<string, Policy>, workload: string): map<string, Policy> {
    map id | id in policies && policies[id].workloadId == workload :: policies[id]
  }

  /** An order in which a map may be iterated. */
  ghost predicate IsOrderOf(order: seq<Policy>, policies: map<string, Policy>) {
    exists ids: seq<string> :: IsEnumeration(ids, policies.Keys) && order == Values(ids, policies)
  }

  ghost predicate IsEnumeration(ids: seq<string>, keys: set<string>) {
    && (forall i, j | 0 <= i < j < |ids| :: ids[i] != ids[j])
    && (forall id | id in ids :: id in keys)
    && (forall id | id in keys :: id in ids)
  }

  function Values(ids: seq<string>, policies: map<string, Policy>): seq<Policy>
    requires forall id | id in ids :: id in policies
  {
    seq(|ids|, i requires 0 <= i < |ids| => policies[ids[i]])
  }

  class PolicyTable {
    var backupPolicies: map<string, Policy>
    var decisionLogs: seq<DecisionLog>
    var seqNo: nat

    constructor (policies: map<string, Policy>)
      ensures backupPolicies == policies && decisionLogs == [] && seqNo == 0
    {
      backupPolicies, decisionLogs, seqNo := policies, [], 0;
    }

    /** The map yields its entries in any order; the result is the selection for
        that order, and only a successful selection is logged. */
    method Explain(workload: string, at: int)
      returns (selected: Option<Policy>, logged: Option<DecisionLog>, ghost order: seq<Policy>)
      modifies this`decisionLogs, this`seqNo
      ensures IsOrderOf(order, Of(backupPolicies, workload)) && selected == Select(order)
      ensures selected.Some? ==>
                && selected.value.workloadId == workload
                && exists id :: id in backupPolicies && backupPolicies[id] == selected.value
      ensures selected.None? <==> forall id | id in backupPolicies :: backupPolicies[id].workloadId != workload
      ensures selected.None? ==> logged.None? && decisionLogs == old(decisionLogs) && seqNo == old(seqNo)
      ensures selected.Some? ==>
                && logged == Some(DecisionLog(IdText("policylog", old(seqNo) + 1), workload, selected.value.id,
                                              "selected policy " + selected.value.id + " by priority/override", at))
                && decisionLogs == old(decisionLogs) + [logged.value] && seqNo == old(seqNo) + 1
    {
      var rest := backupPolicies.Keys;
      ghost var mine := Of(backupPolicies, workload);
      ghost var ids: seq<string> := [];
      selected := None;
      order := [];
      while rest != {}
        invariant rest <= backupPolicies.Keys
        invariant forall i, j | 0 <= i < j < |ids| :: ids[i] != ids[j]
        invariant forall id | id in ids :: id in mine
        invariant forall id | id in mine :: id in ids <==> id !in rest
        invariant order == Values(ids, mine) && selected == Select(order)
        decreases rest
      {
        var id :| id in rest;
        rest := rest - {id};
        var p := backupPolicies[id];
        if p.workloadId == workload {
          ghost var before := ids;
          ids := ids + [id];
          assert forall x | x in ids :: x in before || x == id;
          assert ids[|before|] == id;
          assert forall x | x in before :: x in ids;
          ghost var next := order + [p];
          assert Values(ids, mine) == next;
          assert next[..|next| - 1] == order;
          order := next;
          selected := Pick(selected, p);
        }
      }
      assert IsEnumeration(ids, mine.Keys);
      SelectedIsOne(order, ids, mine);
      logged := None;
      if selected.Some? {
        var reason := "selected policy " + selected.value.id + " by priority/override";
        seqNo := seqNo + 1;
        var entry := DecisionLog(IdText("policylog", seqNo), workload, selected.value.id, reason, at);
        decisionLogs := decisionLogs + [entry];
        logged := Some(entry);
      }
    }
  }

  // ---- What the order decides ----

  predicate Overrides(order: seq<Policy>) {
    exists p | p in order :: p.override_
  }

  /** The position of the policy that a loop without overrides selects. */
  lemma {:induction false} PlainSelectionAt(order: seq<Policy>) returns (k: nat)
    requires order != [] && forall i | 0 <= i < |order| :: !order[i].override_
    ensures k < |order| && Select(order) == Some(order[k])
    ensures forall i | 0 <= i < |order| :: order[i].priority <= order[k].priority
  {
    var n := |order| - 1;
    if n == 0 {
      assert order[..0] == [];
      k := 0;
    } else {
      var init := order[..n];
      k := PlainSelectionAt(init);
      assert forall i | 0 <= i < n :: order[i] == init[i];
      if order[n].priority > order[k].priority {
        k := n;
      }
    }
  }

  /** Without overrides the selection is a policy of maximal priority, for every
      order. */
  lemma PlainSelectionIsMaximal(order: seq<Policy>)
    requires order != [] && !Overrides(order)
    ensures Select(order).Some? && Select(order).value in order
    ensures forall p | p in order :: p.priority <= Select(order).value.priority
  {
    assert forall i | 0 <= i < |order| :: order[i] in order;
    hide Select;
    var k := PlainSelectionAt(order);
  }

  /** The position of the last override, or -1. */
  function LastOverride(order: seq<Policy>): (i: int)
    ensures -1 <= i < |order|
    ensures i >= 0 ==> order[i].override_
    ensures forall j | i < j < |order| :: !order[j].override_
  {
    if order == [] then -1
    else if order[|order| - 1].override_ then |order| - 1
    else LastOverride(order[..|order| - 1])
  }

  /** With overrides the selection is the last override visited, unless a later
      policy has a strictly greater priority; then it is a maximal one of
      those. */
  lemma {:induction false} SelectionFollowsLastOverride(order: seq<Policy>)
    requires LastOverride(order) >= 0
    ensures var i := LastOverride(order);
            var s := Select(order);
            && s.Some?
            && (forall j | i < j < |order| :: order[j].priority <= s.value.priority)
            && (|| (s.value == order[i] && forall j | i < j < |order| :: order[j].priority <= order[i].priority)
                || (s.value in order[i + 1..] && !s.value.override_ && s.value.priority > order[i].priority))
  {
    var last := order[|order| - 1];
    if !last.override_ {
      var init := order[..|order| - 1];
      var i := LastOverride(order);
      SelectionFollowsLastOverride(init);
      assert order[i + 1..] == init[i + 1..] + [last];
      assert forall j | i < j < |init| :: init[j] == order[j];
    }
  }

  lemma {:induction false} SelectedIsVisited(order: seq<Policy>)
    ensures Select(order).Some? <==> order != []
    ensures Select(order).Some? ==> Select(order).value in order
  {
    if order != [] {
      SelectedIsVisited(order[..|order| - 1]);
    }
  }

  /** What is selected is one of the policies, and nothing only if there is none. */
  lemma SelectedIsOne(order: seq<Policy>, ids: seq<string>, policies: map<string, Policy>)
    requires IsEnumeration(ids, policies.Keys) && order == Values(ids, policies)
    ensures Select(order).None? <==> policies == map[]
    ensures Select(order).Some? ==> exists id :: id in policies && policies[id] == Select(order).value
  {
    SelectedIsVisited(order);
    assert ids == [] || ids[0] in ids;
    if policies != map[] {
      var id :| id in policies.Keys;
      assert id in ids;
    }
    if order != [] {
      var i :| 0 <= i < |order| && order[i] == Select(order).value;
      assert ids[i] in ids;
    }
  }

  lemma OrderHoldsThePolicies(order: seq<Policy>, policies: map<string, Policy>)
    requires IsOrderOf(order, policies)
    ensures forall p :: p in order <==> exists id | id in policies :: policies[id] == p
  {
    var ids: seq<string> :| IsEnumeration(ids, policies.Keys) && order == Values(ids, policies);
    forall p
      ensures p in order <==> exists id | id in policies :: policies[id] == p
    {
      if p in order {
        var i :| 0 <= i < |order| && order[i] == p;
        assert ids[i] in policies && policies[ids[i]] == p;
      }
      if id :| id in policies && policies[id] == p {
        var i :| 0 <= i < |ids| && ids[i] == id;
        assert order[i] == p;
      }
    }
  }

  /** Every finite set has an enumeration. */
  lemma {:induction false} EnumerationOf(keys: set<string>) returns (ids: seq<string>)
    ensures IsEnumeration(ids, keys)
  {
    if keys == {} {
      ids := [];
    } else {
      var id :| id in keys;
      var rest := EnumerationOf(keys - {id});
      ids := rest + [id];
      assert ids[|rest|] == id;
      assert forall x | x in rest :: x in ids;
      assert forall x | x in ids :: x in rest || x == id;
    }
  }

  /** And one that ends with two given elements. */
  lemma EnumerationEndingWith(keys: set<string>, a: string, b: string) returns (ids: seq<string>)
    requires a in keys && b in keys && a != b
    ensures IsEnumeration(ids, keys)
    ensures |ids| >= 2 && ids[|ids| - 2] == a && ids[|ids| - 1] == b
  {
    var rest := EnumerationOf(keys - {a, b});
    ids := rest + [a, b];
    assert ids[|rest|] == a && ids[|rest| + 1] == b;
    assert forall x | x in rest :: x in ids;
    assert forall x | x in ids :: x in rest || x == a || x == b;
  }

  predicate Outranked(policies: map<string, Policy>) {
    exists o, p | o in policies && p in policies ::
      policies[o].override_ && !policies[p].override_ && policies[p].priority > policies[o].priority
  }

  /** The selection is an override for every iteration order if and only if there is an
      override and no other policy outranks any override. */
  lemma OverrideWinsIff(policies: map<string, Policy>)
    requires exists o | o in policies :: policies[o].override_
    ensures (forall order | IsOrderOf(order, policies) :: Select(order).Some? && Select(order).value.override_)
       <==> !Outranked(policies)
  {
    if Outranked(policies) {
      var o, p :| o in policies && p in policies
                  && policies[o].override_ && !policies[p].override_ && policies[p].priority > policies[o].priority;
      var order := LosingOrder(policies, o, p);
      assert IsOrderOf(order, policies) && Select(order) == Some(policies[p]);
    } else {
      forall order | IsOrderOf(order, policies)
        ensures Select(order).Some? && Select(order).value.override_
      {
        UnrankedOverrideWins(policies, order);
      }
    }
  }

  /** Visiting the override second to last and the policy that outranks it last. */
  lemma LosingOrder(policies: map<string, Policy>, o: string, p: string) returns (order: seq<Policy>)
    requires o in policies && p in policies && policies[o].override_ && !policies[p].override_
    requires policies[p].priority > policies[o].priority
    ensures IsOrderOf(order, policies) && Select(order) == Some(policies[p])
  {
    var ids := EnumerationEndingWith(policies.Keys, o, p);
    order := Values(ids, policies);
    var n := |order|;
    assert order[n - 1] == policies[p] && order[..n - 1][n - 2] == policies[o];
    assert Select(order[..n - 1]) == Some(policies[o]);
  }

  lemma UnrankedOverrideWins(policies: map<string, Policy>, order: seq<Policy>)
    requires exists o | o in policies :: policies[o].override_
    requires !Outranked(policies) && IsOrderOf(order, policies)
    ensures Select(order).Some? && Select(order).value.override_
  {
    OrderHoldsThePolicies(order, policies);
    var o :| o in policies && policies[o].override_;
    assert policies[o] in order;
    var i := LastOverride(order);
    assert i >= 0;
    SelectionFollowsLastOverride(order);
    SelectedIsVisited(order);
    assert order[i] in order && Select(order).value in order;
  }

  /** The repository's own example, an override of priority 10 beside a policy of
      priority 100: one order selects the override, the other does not. */
  lemma ExampleDependsOnOrder(normal: Policy, override_: Policy)
    requires normal.priority == 100 && !normal.override_
    requires override_.priority == 10 && override_.override_
    ensures Select([normal, override_]) == Some(override_)
    ensures Select([override_, normal]) == Some(normal)
  {
    assert [normal, override_][..1] == [normal] && [normal][..0] == [];
    assert [override_, normal][..1] == [override_] && [override_][..0] == [];
  }
}
