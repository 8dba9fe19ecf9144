// backend/internal/health/gates.go
module HealthGates {
  import opened Models
  import Ids
  import Text

  datatype Snapshot = Snapshot(
    quorumHealthy: bool,
    runnerHealthy: bool,
    onlineNodes: nat,
    totalNodes: nat,
    lastChecked: int)

  predicate NodeRunnerHealthy(n: Node, now: int, maxAge: int) {
    n.runnerHealthy && now - n.lastHeartbeat <= maxAge
  }

  function CountOnline(nodes: seq<Node>): nat {
    if nodes == [] then 0
    else CountOnline(nodes[..|nodes| - 1]) + if nodes[|nodes| - 1].status == "online" then 1 else 0
  }

  predicate AllFresh(nodes: seq<Node>, now: int, maxAge: int) {
    nodes == [] || (AllFresh(nodes[..|nodes| - 1], now, maxAge) && NodeRunnerHealthy(nodes[|nodes| - 1], now, maxAge))
  }

  lemma {:induction false} AllFreshMeansEach(nodes: seq<Node>, now: int, maxAge: int)
    ensures AllFresh(nodes, now, maxAge) <==> forall n | n in nodes :: NodeRunnerHealthy(n, now, maxAge)
  {
    if nodes != [] {
      var init, last := nodes[..|nodes| - 1], nodes[|nodes| - 1];
      AllFreshMeansEach(init, now, maxAge);
      assert nodes == init + [last];
      assert forall n | n in nodes :: n in init || n == last;
    }
  }

  /** Strict majority online, every runner fresh. */
  function SnapshotOf(nodes: seq<Node>, now: int, maxAge: int): Snapshot {
    Snapshot(
      2 * CountOnline(nodes) > |nodes|,
      forall n | n in nodes :: NodeRunnerHealthy(n, now, maxAge),
      CountOnline(nodes),
      |nodes|,
      now)
  }

  /** None when writes may proceed, otherwise the reason they may not. */
  function ValidateForWrite(failClosed: bool, snapshot: Snapshot): Text.Option<string> {
    if !snapshot.quorumHealthy then Text.Some("quorum is not healthy")
    else if !snapshot.runnerHealthy && failClosed then
      Text.Some("runner heartbeat unhealthy (fail-closed)")
    else Text.None
  }

  function Explain(failClosed: bool, snapshot: Snapshot): HealthReport {
    var refusal := ValidateForWrite(failClosed, snapshot);
    HealthReport(
      refusal.None?, if refusal.Some? then refusal.value else "",
      snapshot.quorumHealthy, snapshot.runnerHealthy, snapshot.onlineNodes, snapshot.totalNodes, snapshot.lastChecked,
      "nodes " + Ids.Decimal(snapshot.onlineNodes) + "/" + Ids.Decimal(snapshot.totalNodes) + " online")
  }

  /** The source compares with totalNodes/2+1 and special-cases an empty
      cluster; the result is the strict-majority snapshot. */
  method SnapshotFromState(nodes: seq<Node>, now: int, maxAge: int) returns (s: Snapshot)
    ensures s == SnapshotOf(nodes, now, maxAge)
  {
    var quorum, runner, online := true, true, 0;
    for i := 0 to |nodes|
      invariant online == CountOnline(nodes[..i])
      invariant runner <==> AllFresh(nodes[..i], now, maxAge)
    {
      var n := nodes[i];
      assert nodes[..i + 1] == nodes[..i] + [n];
      if n.status == "online" {
        online := online + 1;
      }
      if !n.runnerHealthy || now - n.lastHeartbeat > maxAge {
        runner := false;
      }
    }
    assert nodes[..|nodes|] == nodes;
    AllFreshMeansEach(nodes, now, maxAge);
    if |nodes| == 0 || online < |nodes| / 2 + 1 {
      quorum := false;
    }
    s := Snapshot(quorum, runner, online, |nodes|, now);
  }

  /** The positions of the nodes that are online. */
  function OnlineOf(nodes: seq<Node>): set<int> {
    set i | 0 <= i < |nodes| && nodes[i].status == "online"
  }

  lemma OneMoreNode(nodes: seq<Node>)
    requires nodes != []
    ensures var n, before := |nodes| - 1, OnlineOf(nodes[..|nodes| - 1]);
            && n !in before
            && OnlineOf(nodes) == if nodes[n].status == "online" then before + {n} else before
  {
  }

  lemma {:induction false} OnlineAreCounted(nodes: seq<Node>)
    ensures CountOnline(nodes) == |OnlineOf(nodes)|
  {
    if nodes != [] {
      OnlineAreCounted(nodes[..|nodes| - 1]);
      OneMoreNode(nodes);
    }
  }
}
