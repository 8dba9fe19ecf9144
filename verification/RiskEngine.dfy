// backend/internal/risk/engine.go
module RiskEngine {
  import opened Text
  import opened Models
  import Ids

  const LOW_TOOLS: set<string> := {
    "cluster.get_state", "proxmox.connection.test", "connectivity.status", "gitops.status",
    "ssh.breakglass.status", "vpn.wireguard.status", "state.get.all", "workload.spec.explain",
    "backup.policy.simulate", "blueprint.list", "blueprint.plan", "blueprint.verify",
    "spec.reconcile", "spec.reconcile.all"
  }

  const MEDIUM_TOOLS: set<string> := {
    "node.set_maintenance", "vm.migrate", "vm.migration.plan", "updates.rollout_pause",
    "updates.plan", "policy.simulate", "policy.explain", "vm.create", "vm.clone_from_template",
    "lxc.create", "storage.inventory.sync", "storage.health.explain", "backup.policy.explain",
    "backup.policy.list", "backup.target.list", "gitops.sync.now", "gitops.rollback",
    "ssh.breakglass.disable", "vpn.wireguard.plan", "workload.spec.apply",
    "service.wireguard.vm.deploy"
  }

  const HIGH_TOOLS: set<string> := {
    "storage.pool.apply", "storage.plan_apply", "storage.pool.rebuild_all.plan",
    "storage.pool.rebuild_all.execute", "storage.replication.plan_apply", "network.apply",
    "network.plan_apply", "updates.rollout_start", "updates.canary_start",
    "updates.rollout_continue", "updates.rollout_abort", "node.runner.exec",
    "proxmaster.self_migrate", "backup.policy.upsert", "backup.run.now", "backup.restore.plan",
    "backup.restore.execute", "backup.verify.sample", "ssh.breakglass.enable",
    "vpn.wireguard.apply", "blueprint.deploy", "blueprint.update", "blueprint.rollback"
  }

  /** fmt.Sprint */
  function Sprint(v: Value): string {
    match v
    case Null => "<nil>"
    case Str(s) => s
    case Int(n) => if n < 0 then "-" + Ids.Decimal(-n) else Ids.Decimal(n)
    case Float(_, shown) => shown
    case Other(shown) => shown
  }

  function Classify(rawTool: string, params: Params): Risk {
    var tool := ToLower(rawTool);
    if tool in LOW_TOOLS then Low
    else if tool in MEDIUM_TOOLS then Medium
    else if tool in HIGH_TOOLS then High
    else if tool == "policy.mode.set" then
      if Contains(ToUpper(Sprint(Get(params, "mode"))), "AGGRESSIVE") then High else Medium
    else if Contains(tool, "shutdown") || Contains(tool, "quorum") then High
    else if ToLower(StringFrom(Get(params, "scope"))) in {"cluster", "all_nodes"} then High
    else
      var command := ToLower(StringFrom(Get(params, "command")));
      if Contains(command, "reboot") || Contains(command, "shutdown") then High else Medium
  }

  /** Simple case folding against an ASCII word, as strings.EqualFold does it. */
  predicate EqualFold(s: string, word: string) {
    ToLower(ToUpper(s)) == word
  }

  /** The text shown for a HIGH call; no tool goes without one. */
  function HardBlockText(tool: string, params: Params): string {
    if Contains(tool, "shutdown") then "cluster shutdown is always hard-blocked"
    else if tool in {"network.apply", "network.plan_apply"} then
      "network changes may impact quorum and are hard-blocked"
    else if tool in {"storage.pool.apply", "storage.plan_apply"} then
      if EqualFold(StringFrom(Get(params, "scope")), "cluster")
      then "cluster-wide storage change is hard-blocked"
      else "storage pool mutations require explicit approval"
    else if tool == "storage.pool.rebuild_all.plan" then
      "rebuild-all planning is guarded and requires explicit approval"
    else if tool == "storage.pool.rebuild_all.execute" then
      "rebuild-all execution always requires explicit dual approval"
    else if tool == "storage.replication.plan_apply" then
      "replication policy changes require explicit approval"
    else if tool in {"updates.rollout_start", "updates.canary_start", "updates.rollout_continue"} then
      var count := Get(params, "node_count");
      if count.Float? && count.r >= 2.0
      then "rolling update affecting " + count.shown + " nodes is hard-blocked"
      else "rolling updates require explicit approval"
    else if tool == "updates.rollout_abort" then
      "rollout abort can cause inconsistent state and is hard-blocked"
    else if tool == "proxmaster.self_migrate" then
      "control-plane migration requires explicit dual approval"
    else if tool == "ssh.breakglass.enable" then
      "break-glass ssh enable requires explicit dual approval"
    else if tool == "vpn.wireguard.apply" then
      "wireguard apply touches host network and requires explicit approval"
    else if tool == "policy.mode.set" then
      "switching to aggressive auto mode requires explicit approval"
    else if tool == "node.runner.exec" then
      "host-level runner execution requires explicit approval"
    else if HasPrefix(tool, "backup.") then
      "backup and restore mutations require explicit approval"
    else "high-risk action requires second approval"
  }

  /** None when the call is not hard-blocked, otherwise the reason. A hard block is
      exactly a HIGH classification: no HIGH tool escapes it and nothing else
      is ever hard-blocked. */
  function HardBlockReason(rawTool: string, params: Params, risk: Risk): (reason: Option<string>)
    ensures reason.Some? <==> risk == High
  {
    if risk != High then None else Some(HardBlockText(ToLower(rawTool), params))
  }

  /** The strings that proxmox.Client.SetPolicyMode takes for the aggressive mode. */
  predicate AsksForAggressive(params: Params) {
    "mode" in params && params["mode"] in {Str("AGGRESSIVE_AUTO"), Str("aggressive"), Str("aggressive_auto")}
  }

  lemma ToUpperPrefix(s: string, n: nat)
    requires n <= |s|
    ensures ToUpper(s)[..n] == ToUpper(s[..n])
  {
  }

  lemma UpperAggressive()
    ensures ToUpper("aggressive") == "AGGRESSIVE" == ToUpper("AGGRESSIVE")
  {
  }

  lemma UpperSpelling(mode: string)
    requires mode in {"AGGRESSIVE_AUTO", "aggressive", "aggressive_auto"}
    ensures Contains(ToUpper(mode), "AGGRESSIVE")
  {
    assert "AGGRESSIVE_AUTO"[..10] == "AGGRESSIVE" && "aggressive_auto"[..10] == "aggressive";
    assert "aggressive"[..10] == "aggressive";
    assert mode[..10] == "AGGRESSIVE" || mode[..10] == "aggressive";
    ToUpperPrefix(mode, 10);
    UpperAggressive();
    hide ToUpper;
    assert |ToUpper(mode)| >= 10 by { UpperLength(mode); }
    assert ToUpper(mode)[0..10] == ToUpper(mode)[..10];
    assert MatchesAt(ToUpper(mode), "AGGRESSIVE", 0);
  }

  lemma UpperLength(s: string)
    ensures |ToUpper(s)| == |s|
  {
  }

  /** Every request that would switch the mode to aggressive is classified HIGH:
      the classifier's substring test covers all three accepted spellings. */
  lemma AggressiveRequestIsHigh(params: Params)
    requires AsksForAggressive(params)
    ensures Classify("policy.mode.set", params) == High
  {
    var mode := StringFrom(Get(params, "mode"));
    UpperSpelling(mode);
    assert ToLower("policy.mode.set") == "policy.mode.set";
    hide ToLower, ToUpper, Contains;
    assert Sprint(Get(params, "mode")) == mode;
  }

  /** The recurring backup.verify.sample task is itself a HIGH tool. */
  lemma BackupSampleIsHigh(params: Params)
    ensures Classify("backup.verify.sample", params) == High
  {
    var tool := "backup.verify.sample";
    assert ToLower(tool) == tool;
    assert tool[18] == 'l' && |tool| == 20;
  }

  // ---- Which tools are guarded, by name ----

  /** Tools that touch storage, networks, backups, hosts or the control plane itself. */
  predicate Guarded(rawTool: string) {
    var tool := ToLower(rawTool);
    || tool in {"storage.pool.apply", "storage.plan_apply", "storage.pool.rebuild_all.plan",
                "storage.pool.rebuild_all.execute", "storage.replication.plan_apply"}
    || tool in {"network.apply", "network.plan_apply", "vpn.wireguard.apply", "ssh.breakglass.enable"}
    || tool in {"updates.rollout_start", "updates.canary_start", "updates.rollout_continue", "updates.rollout_abort"}
    || tool in {"node.runner.exec", "proxmaster.self_migrate"}
    || tool in {"backup.policy.upsert", "backup.run.now", "backup.restore.plan", "backup.restore.execute",
                "backup.verify.sample"}
    || tool in {"blueprint.deploy", "blueprint.update", "blueprint.rollback"}
    || Contains(tool, "shutdown")
    || Contains(tool, "quorum")
  }

  /** A part that occurs puts its letters side by side. */
  lemma PartHasLetters(s: string, part: string, k: nat) returns (i: nat)
    requires Contains(s, part) && k + 1 < |part|
    ensures i + 1 < |s| && s[i] == part[k] && s[i + 1] == part[k + 1]
  {
    var at :| 0 <= at <= |s| - |part| && MatchesAt(s, part, at);
    i := at + k;
    assert s[at..at + |part|][k] == s[i] && s[at..at + |part|][k + 1] == s[i + 1];
  }

  lemma ShortLowHasNoTd(s: string, i: nat)
    requires s in LOW_TOOLS && |s| < 18 && i + 1 < |s| && s[i] == 't'
    ensures s[i + 1] != 'd'
  {
  }

  lemma LongLowHasNoTd(s: string, i: nat)
    requires s in LOW_TOOLS && |s| >= 18 && i + 1 < |s| && s[i] == 't'
    ensures s[i + 1] != 'd'
  {
  }

  lemma ShortMediumHasNoTd(s: string, i: nat)
    requires s in MEDIUM_TOOLS && |s| < 19 && i + 1 < |s| && s[i] == 't'
    ensures s[i + 1] != 'd'
  {
  }

  lemma LongMediumHasNoTd(s: string, i: nat)
    requires s in MEDIUM_TOOLS && |s| >= 19 && i + 1 < |s| && s[i] == 't'
    ensures s[i + 1] != 'd'
  {
  }

  lemma LowHasNoQ(s: string)
    requires s in LOW_TOOLS
    ensures 'q' !in s
  {
  }

  lemma ShortMediumHasNoQ(s: string)
    requires s in MEDIUM_TOOLS && |s| < 19
    ensures 'q' !in s
  {
  }

  lemma LongMediumHasNoQ(s: string)
    requires s in MEDIUM_TOOLS && |s| >= 19
    ensures 'q' !in s
  {
  }

  lemma ModeToolIsCalm()
    ensures forall i | 0 <= i < |"policy.mode.set"| :: "policy.mode.set"[i] != 'q'
    ensures forall i | 0 <= i < |"policy.mode.set"| - 1 :: "policy.mode.set"[i] != 't'
  {
  }

  /** None of the reads and ordinary changes is named after a shutdown or the quorum. */
  lemma AlarmingIsUnlisted(tool: string)
    requires Contains(tool, "shutdown") || Contains(tool, "quorum")
    ensures tool !in LOW_TOOLS && tool !in MEDIUM_TOOLS && tool != "policy.mode.set"
  {
    assert "shutdown"[3] == 't' && "shutdown"[4] == 'd' && "quorum"[0] == 'q';
    ModeToolIsCalm();
    hide LOW_TOOLS, MEDIUM_TOOLS;
    if Contains(tool, "shutdown") {
      var i := PartHasLetters(tool, "shutdown", 3);
      if tool in LOW_TOOLS {
        if |tool| < 18 {
          ShortLowHasNoTd(tool, i);
        } else {
          LongLowHasNoTd(tool, i);
        }
      }
      if tool in MEDIUM_TOOLS {
        if |tool| < 19 {
          ShortMediumHasNoTd(tool, i);
        } else {
          LongMediumHasNoTd(tool, i);
        }
      }
    } else {
      var i := PartHasLetters(tool, "quorum", 0);
      assert 'q' in tool;
      if tool in LOW_TOOLS {
        LowHasNoQ(tool);
      }
      if tool in MEDIUM_TOOLS {
        if |tool| < 19 {
          ShortMediumHasNoQ(tool);
        } else {
          LongMediumHasNoQ(tool);
        }
      }
    }
  }

  lemma AlarmingIsHigh(tool: string, params: Params)
    requires Contains(ToLower(tool), "shutdown") || Contains(ToLower(tool), "quorum")
    ensures Classify(tool, params) == High
  {
    AlarmingIsUnlisted(ToLower(tool));
    hide ToLower, ToUpper, Contains, Sprint, LOW_TOOLS, MEDIUM_TOOLS, HIGH_TOOLS;
  }

  /** A guarded tool is HIGH whatever its parameters and however it is spelled. */
  lemma GuardedIsHigh(tool: string, params: Params)
    requires Guarded(tool)
    ensures Classify(tool, params) == High
  {
    hide ToLower, ToUpper, Contains, Sprint;
    if Contains(ToLower(tool), "shutdown") || Contains(ToLower(tool), "quorum") {
      AlarmingIsHigh(tool, params);
    }
  }

  /** The texts of the hard blocks, by family; a shutdown has its own whatever the tool. */
  lemma ShutdownText(tool: string, params: Params)
    requires Contains(tool, "shutdown")
    ensures HardBlockText(tool, params) == "cluster shutdown is always hard-blocked"
  {
    hide Contains;
  }

  /** On ASCII texts folding is lower-casing; the long s folds, too. */
  lemma FoldIsLowerCase(s: string, word: string)
    requires forall c | c in s :: c < '\U{0080}'
    ensures EqualFold(s, word) <==> ToLower(s) == word
    ensures EqualFold("\U{017F}", "s")
  {
    assert ToLower(ToUpper(s)) == ToLower(s) by {
      assert forall i | 0 <= i < |s| :: s[i] in s;
    }
    assert ToUpper("\U{017F}") == "S" && ToLower("S") == "s";
  }

  lemma StorageTexts(tool: string, params: Params)
    requires !Contains(tool, "shutdown")
    ensures var text := HardBlockText(tool, params);
            && (tool in {"network.apply", "network.plan_apply"} ==>
                  text == "network changes may impact quorum and are hard-blocked")
            && (tool in {"storage.pool.apply", "storage.plan_apply"} ==>
                  text == if EqualFold(StringFrom(Get(params, "scope")), "cluster")
                          then "cluster-wide storage change is hard-blocked"
                          else "storage pool mutations require explicit approval")
  {
    hide Contains, EqualFold;
  }

  lemma RebuildTexts(tool: string, params: Params)
    requires !Contains(tool, "shutdown")
    ensures var text := HardBlockText(tool, params);
            && (tool == "storage.pool.rebuild_all.plan" ==>
                  text == "rebuild-all planning is guarded and requires explicit approval")
            && (tool == "storage.pool.rebuild_all.execute" ==>
                  text == "rebuild-all execution always requires explicit dual approval")
  {
    hide Contains, EqualFold;
  }

  lemma ReplicationText(tool: string, params: Params)
    requires !Contains(tool, "shutdown")
    ensures var text := HardBlockText(tool, params);
            && (tool == "storage.replication.plan_apply" ==>
                  text == "replication policy changes require explicit approval")
  {
    hide Contains, EqualFold;
  }

  lemma RolloutTexts(tool: string, params: Params)
    requires tool in {"updates.rollout_start", "updates.canary_start", "updates.rollout_continue"}
    requires !Contains(tool, "shutdown")
    ensures var count := Get(params, "node_count");
            HardBlockText(tool, params) ==
            if count.Float? && count.r >= 2.0
            then "rolling update affecting " + count.shown + " nodes is hard-blocked"
            else "rolling updates require explicit approval"
  {
    hide Contains, EqualFold, HasPrefix;
    assert tool[0] == 'u';
    assert "network.apply"[0] == "network.plan_apply"[0] == 'n' && "storage.pool.apply"[0] == 's';
  }

  lemma AbortTexts(tool: string, params: Params)
    requires !Contains(tool, "shutdown")
    ensures var text := HardBlockText(tool, params);
            && (tool == "updates.rollout_abort" ==>
                  text == "rollout abort can cause inconsistent state and is hard-blocked")
            && (tool == "policy.mode.set" ==>
                  text == "switching to aggressive auto mode requires explicit approval")
  {
    hide Contains, EqualFold;
  }

  lemma HostTexts(tool: string, params: Params)
    requires !Contains(tool, "shutdown")
    ensures var text := HardBlockText(tool, params);
            && (tool == "proxmaster.self_migrate" ==> text == "control-plane migration requires explicit dual approval")
            && (tool == "node.runner.exec" ==> text == "host-level runner execution requires explicit approval")
  {
    hide Contains, EqualFold;
  }

  lemma AccessTexts(tool: string, params: Params)
    requires !Contains(tool, "shutdown")
    ensures var text := HardBlockText(tool, params);
            && (tool == "ssh.breakglass.enable" ==> text == "break-glass ssh enable requires explicit dual approval")
            && (tool == "vpn.wireguard.apply" ==>
                  text == "wireguard apply touches host network and requires explicit approval")
  {
    hide Contains, EqualFold;
  }

  lemma SampleText(params: Params)
    ensures HardBlockText("backup.verify.sample", params) == "backup and restore mutations require explicit approval"
  {
    var tool := "backup.verify.sample";
    assert "shutdown"[3] == 't' && "shutdown"[4] == 'd';
    assert !Contains(tool, "shutdown") by {
      if Contains(tool, "shutdown") {
        var i := PartHasLetters(tool, "shutdown", 3);
      }
    }
    hide Contains, EqualFold;
    assert |tool| == 20;
  }

  /** So is every tool whose hard block has a text of its own, not the general one, that of
      the policy mode or that of the backup family. */
  lemma OwnTextMeansHigh(tool: string, params: Params)
    requires HardBlockText(ToLower(tool), params) !in
             {"high-risk action requires second approval",
              "switching to aggressive auto mode requires explicit approval",
              "backup and restore mutations require explicit approval"}
    ensures Classify(tool, params) == High
  {
    assert Guarded(tool) by {
      hide ToLower, Contains, EqualFold;
    }
    GuardedIsHigh(tool, params);
  }

  /** The reads, by name: exactly these bypass the health gate. */
  lemma LowIff(tool: string, params: Params)
    ensures Classify(tool, params) == Low <==>
            ToLower(tool) in {"cluster.get_state", "proxmox.connection.test", "connectivity.status", "gitops.status",
                              "ssh.breakglass.status", "vpn.wireguard.status", "state.get.all",
                              "workload.spec.explain", "backup.policy.simulate", "blueprint.list", "blueprint.plan",
                              "blueprint.verify", "spec.reconcile", "spec.reconcile.all"}
  {
    hide ToLower, ToUpper, Contains, Sprint;
  }

  /** The ordinary changes, by name: the health gate is all they need. */
  lemma MediumByName(tool: string, params: Params)
    requires ToLower(tool) in {
               "node.set_maintenance", "vm.migrate", "vm.migration.plan", "updates.rollout_pause", "updates.plan",
               "policy.simulate", "policy.explain", "vm.create", "vm.clone_from_template", "lxc.create",
               "storage.inventory.sync", "storage.health.explain", "backup.policy.explain", "backup.policy.list",
               "backup.target.list", "gitops.sync.now", "gitops.rollback", "ssh.breakglass.disable",
               "vpn.wireguard.plan", "workload.spec.apply", "service.wireguard.vm.deploy"}
    ensures Classify(tool, params) == Medium
  {
    hide ToLower, ToUpper, Contains, Sprint;
  }

  lemma UnguardedNames(tool: string)
    requires !Guarded(tool)
    ensures ToLower(tool) !in HIGH_TOOLS && !Contains(ToLower(tool), "shutdown") && !Contains(ToLower(tool), "quorum")
  {
    hide ToLower, Contains;
  }

  /** Every other tool is judged by its parameters. */
  lemma UnnamedIsHighIff(tool: string, params: Params)
    requires ToLower(tool) !in LOW_TOOLS + MEDIUM_TOOLS && !Guarded(tool)
    ensures Classify(tool, params) == High <==>
            if ToLower(tool) == "policy.mode.set" then Contains(ToUpper(Sprint(Get(params, "mode"))), "AGGRESSIVE")
            else
              || ToLower(StringFrom(Get(params, "scope"))) in {"cluster", "all_nodes"}
              || Contains(ToLower(StringFrom(Get(params, "command"))), "reboot")
              || Contains(ToLower(StringFrom(Get(params, "command"))), "shutdown")
  {
    hide ToLower, ToUpper, Contains, Sprint, Guarded, LOW_TOOLS, MEDIUM_TOOLS, HIGH_TOOLS;
    UnguardedNames(tool);
  }

  /** The classes that the repository's own test expects. */
  lemma TestedClasses(params: Params)
    ensures forall tool | ToLower(tool) in {"cluster.get_state", "proxmox.connection.test", "gitops.status",
                                   "vpn.wireguard.status"} :: Classify(tool, params) == Low
    ensures forall tool | ToLower(tool) in {"vm.migrate", "gitops.sync.now", "gitops.rollback", "vpn.wireguard.plan",
                                   "vm.create"} :: Classify(tool, params) == Medium
    ensures forall tool | ToLower(tool) in {"network.apply", "ssh.breakglass.enable", "vpn.wireguard.apply",
                                   "proxmaster.self_migrate", "storage.pool.rebuild_all.execute"} ::
              Classify(tool, params) == High
  {
    hide ToLower, ToUpper, Contains, Sprint;
  }
}
