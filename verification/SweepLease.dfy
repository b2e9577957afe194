/** The lease that lets one process start the sweep, once a day. */
module SweepLease {
  import opened Basics

  const DAY_MS: nat := 86_400_000

  /** The lease is taken when its time has come; a missing one is first set to now. */
  predicate Takes(nextRunAt: Option<nat>, now: nat) {
    nextRunAt.GetOr(now) <= now
  }

  function NextRun(nextRunAt: Option<nat>, now: nat): nat {
    if Takes(nextRunAt, now) then now + DAY_MS else nextRunAt.GetOr(now)
  }

  class Lease {
    var nextRunAt: Option<nat>

    method Claim(now: nat) returns (claimed: bool)
      modifies this
      ensures claimed == Takes(old(nextRunAt), now)
      ensures nextRunAt == Some(NextRun(old(nextRunAt), now))
      ensures claimed <==> old(nextRunAt).None? || old(nextRunAt).value <= now
      ensures nextRunAt == if claimed then Some(now + 86_400_000) else old(nextRunAt)
    {
      if nextRunAt.None? {
        nextRunAt := Some(now);
      }
      claimed := nextRunAt.value <= now;
      if claimed {
        nextRunAt := Some(now + DAY_MS);
      }
    }
  }

  /** What each of a series of claims answers. */
  function Answers(nextRunAt: Option<nat>, times: seq<nat>): (answers: seq<bool>)
    ensures |answers| == |times|
    decreases |times|
  {
    if times == [] then []
    else [Takes(nextRunAt, times[0])] + Answers(Some(NextRun(nextRunAt, times[0])), times[1..])
  }

  predicate InOrder(times: seq<nat>) {
    forall i, j :: 0 <= i < j < |times| ==> times[i] <= times[j]
  }

  lemma {:induction false} NotBefore(nextRunAt: nat, times: seq<nat>, k: nat)
    requires k < |times| && Answers(Some(nextRunAt), times)[k]
    ensures times[k] >= nextRunAt
    decreases |times|
  {
    if k > 0 {
      assert NextRun(Some(nextRunAt), times[0]) >= nextRunAt;
      NotBefore(NextRun(Some(nextRunAt), times[0]), times[1..], k - 1);
    }
  }

  /** However often and by whomever it is claimed, two sweeps start at least a day apart. */
  lemma {:induction false} SweepsADayApart(nextRunAt: Option<nat>, times: seq<nat>, j: nat, k: nat)
    requires j < k < |times| && Answers(nextRunAt, times)[j] && Answers(nextRunAt, times)[k]
    ensures times[k] >= times[j] + 86_400_000
    decreases j
  {
    var next := NextRun(nextRunAt, times[0]);
    if j == 0 {
      NotBefore(next, times[1..], k - 1);
    } else {
      SweepsADayApart(Some(next), times[1..], j - 1, k - 1);
    }
  }

  /** A claim made a day after the last successful one succeeds, unless another came between. */
  lemma {:induction false} SweepComesBack(nextRunAt: Option<nat>, times: seq<nat>, k: nat, last: nat)
    requires InOrder(times) && k < |times|
    requires forall i :: 0 <= i < k && Answers(nextRunAt, times)[i] ==> times[i] <= last
    requires nextRunAt.Some? ==> nextRunAt.value <= last + 86_400_000
    requires times[k] >= last + 86_400_000
    ensures Answers(nextRunAt, times)[k]
    decreases k
  {
    if k > 0 {
      var next := NextRun(nextRunAt, times[0]);
      assert Answers(nextRunAt, times)[0] == Takes(nextRunAt, times[0]);
      forall i | 0 <= i < k - 1 && Answers(Some(next), times[1..])[i] ensures times[1..][i] <= last {
        assert Answers(nextRunAt, times)[i + 1];
      }
      SweepComesBack(Some(next), times[1..], k - 1, last);
    }
  }
}
