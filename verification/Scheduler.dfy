// scheduleOnce of backend/internal/autonomy/service.go over a run of polls.
module Scheduler {
  import opened Text

  /** Whether a poll at `now` enqueues, given the last enqueue of the tool. */
  predicate Due(last: Option<int>, minInterval: int, now: int) {
    last.None? || now - last.value >= minInterval
  }

  function Last(times: seq<int>): Option<int> {
    if times == [] then None else Some(times[|times| - 1])
  }

  /** The instants at which a tool is enqueued when it is polled at `polls`. */
  function Enqueued(minInterval: int, polls: seq<int>): seq<int> {
    if polls == [] then []
    else
      var before := Enqueued(minInterval, polls[..|polls| - 1]);
      var now := polls[|polls| - 1];
      if Due(Last(before), minInterval, now) then before + [now] else before
  }

  predicate Neighbours(times: seq<int>, i: int, j: int) {
    0 <= i < j < |times| && j == i + 1
  }

  predicate Spaced(times: seq<int>, gap: int) {
    forall i, j | 0 <= i < |times| && 0 <= j < |times| && Neighbours(times, i, j) :: times[j] - times[i] >= gap
  }

  /** Enqueues are at least minInterval apart, even if the clock steps back. */
  lemma {:induction false} EnqueuesAreSpaced(minInterval: int, polls: seq<int>)
    ensures Spaced(Enqueued(minInterval, polls), minInterval)
  {
    if polls != [] {
      EnqueuesAreSpaced(minInterval, polls[..|polls| - 1]);
      var before, times := Enqueued(minInterval, polls[..|polls| - 1]), Enqueued(minInterval, polls);
      forall i, j | 0 <= i < |times| && 0 <= j < |times| && Neighbours(times, i, j)
        ensures times[j] - times[i] >= minInterval
      {
        if j < |before| {
          assert Neighbours(before, i, j);
        }
      }
    }
  }

  lemma {:induction false} SpacedDistance(times: seq<int>, gap: int, i: nat, j: nat)
    requires Spaced(times, gap)
    requires i <= j < |times|
    ensures times[j] - times[i] >= (j - i) * gap
    decreases j
  {
    if i < j {
      SpacedDistance(times, gap, i, j - 1);
      assert Neighbours(times, j - 1, j);
      assert (j - i) * gap == (j - 1 - i) * gap + gap;
    }
  }

  /** Rate bound: a window of length w holds at most w / minInterval + 1 enqueues. */
  lemma WindowBound(minInterval: int, polls: seq<int>, start: int, w: nat, i: nat, j: nat)
    requires minInterval > 0
    requires i <= j < |Enqueued(minInterval, polls)|
    requires start <= Enqueued(minInterval, polls)[i] && Enqueued(minInterval, polls)[j] <= start + w
    ensures j - i + 1 <= w / minInterval + 1
  {
    EnqueuesAreSpaced(minInterval, polls);
    SpacedDistance(Enqueued(minInterval, polls), minInterval, i, j);
    QuotientBound(j - i, minInterval, w);
  }

  lemma QuotientBound(n: nat, gap: int, w: nat)
    requires gap > 0 && n * gap <= w
    ensures n <= w / gap
  {
    var q := w / gap;
    assert w < q * gap + gap;
    assert (q + 1 - n) * gap > 0 by {
      assert (q + 1 - n) * gap == q * gap + gap - n * gap;
    }
    PositiveFactor(q + 1 - n, gap);
  }

  lemma PositiveFactor(a: int, b: int)
    requires a * b > 0 && b > 0
    ensures a > 0
  {
  }

  predicate PolledEvery(polls: seq<int>, d: int) {
    forall i, j | 0 <= i < |polls| && 0 <= j < |polls| && Neighbours(polls, i, j) ::
      0 <= polls[j] - polls[i] <= d
  }

  predicate Within(times: seq<int>, gap: int) {
    forall i, j | 0 <= i < |times| && 0 <= j < |times| && Neighbours(times, i, j) :: times[j] - times[i] < gap
  }

  /** No starvation: when polls come at most d apart, the tool is enqueued on the
      first poll, consecutive enqueues are less than minInterval + d apart, and the
      last enqueue is less than minInterval before the latest poll. */
  lemma {:induction false} EnqueuesKeepComing(minInterval: int, d: int, polls: seq<int>)
    requires minInterval > 0 && polls != [] && PolledEvery(polls, d)
    ensures var times := Enqueued(minInterval, polls);
            && times != [] && times[0] == polls[0]
            && times[|times| - 1] <= polls[|polls| - 1] < times[|times| - 1] + minInterval
            && Within(times, minInterval + d)
  {
    var before := polls[..|polls| - 1];
    if before == [] {
      assert Enqueued(minInterval, before) == [];
    } else {
      assert Neighbours(polls, |polls| - 2, |polls| - 1);
      forall i, j | 0 <= i < |before| && 0 <= j < |before| && Neighbours(before, i, j)
        ensures 0 <= before[j] - before[i] <= d
      {
        assert Neighbours(polls, i, j);
      }
      EnqueuesKeepComing(minInterval, d, before);
      var earlier, times := Enqueued(minInterval, before), Enqueued(minInterval, polls);
      forall i, j | 0 <= i < |times| && 0 <= j < |times| && Neighbours(times, i, j)
        ensures times[j] - times[i] < minInterval + d
      {
        if j < |earlier| {
          assert Neighbours(earlier, i, j);
        }
      }
    }
  }
}
