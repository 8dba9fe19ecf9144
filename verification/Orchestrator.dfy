// backend/internal/orchestrator/service.go: entry into a tool.
module Orchestrator {
  import opened Text
  import opened Models
  import opened StoreModel
  import opened StoreImpl

  /** What a tool returns. `live` says that the result shares slices with the cluster state;
      `driftDelta` is the result's drift_delta entry when that is a map. */
  datatype Outcome = Done(result: Params, live: bool, driftDelta: Option<Params>) | Broke(error: string)

  /** The result as a job keeps it. */
  function KeptResult(outcome: Outcome, jobId: string): Contents
    requires outcome.Done?
  {
    if outcome.live then Shared(jobId) else Own(outcome.result)
  }

  /** The cell a live result brings with it. */
  function LiveOutput(outcome: Outcome): Option<Params> {
    if outcome.Done? && outcome.live then Some(outcome.result) else None
  }

  /** What running the tool does: arbitrary, except that policy.mode.set is the
      only tool that writes the mode. */
  datatype ToolRun = ToolRun(outcome: Outcome, effect: ToolEffect)

  method Execute(store: MemoryStore, entry: Execution, params: Params, effect: ToolEffect,
                 output: Option<Params>)
    modifies store
    ensures store.View() == Apply(old(store.View()), Op.RunTool(entry, params, effect, output))
  {
    hide RanTool, AddTask;
    RunTool(store, entry, params, effect, output);
    if effect.newTask.Some? {
      var _ := store.CreateAgentTask(effect.newTask.value, None, effect.at);
    }
  }

  /** The tool apart from the task it may queue. */
  method RunTool(store: MemoryStore, entry: Execution, params: Params, effect: ToolEffect,
                 output: Option<Params>)
    modifies store
    ensures store.View() == RanTool(old(store.View()), entry, params, effect, output)
  {
    hide ModeSetByTool;
    store.executed := store.executed + [entry];
    store.seqNo := store.seqNo + effect.idsTaken;
    store.nodes := effect.nodes;
    store.TouchOutputs(entry.jobId, effect, output);
    if entry.tool == "policy.mode.set" {
      SetPolicyMode(store, params, effect.at);
    }
  }

  /** proxmox.Client.SetPolicyMode */
  method SetPolicyMode(store: MemoryStore, params: Params, at: int)
    modifies store`policyMode
    ensures store.View() == old(store.View()).(mode := ModeSetByTool(params, at))
  {
    var wanted := StringFrom(Get(params, "mode"));
    var mode := GuardedSre;
    if wanted == "AGGRESSIVE_AUTO" || wanted == "aggressive" || wanted == "aggressive_auto" {
      mode := AggressiveAuto;
    }
    var minutes := IntFrom(Get(params, "duration_minutes"), 0);
    if minutes < 0 {
      minutes := 0;
    }
    store.SetPolicyMode(mode, StringFrom(Get(params, "actor")), Wrap64(minutes * MINUTE), at);
  }
}
