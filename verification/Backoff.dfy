/** How often a port that failed on a serving workload is polled again. */
module Backoff {
  import opened Meta
  import opened Resource
  import opened Readiness

  function Wait(since: int, grace: int, at: int): int {
    RetryAfter(Some(PortCheck("", true, [0], Some(since))), grace, at)
  }

  /** Poll times of one outage: the first after the grace period, and each no earlier
      than the previous one asked for. */
  ghost predicate Outage(since: int, grace: int, polls: seq<int>) {
    && (polls != [] ==> polls[0] >= since + grace)
    && (forall k :: 0 <= k < |polls| - 1 ==> polls[k + 1] >= polls[k] + Wait(since, grace, polls[k]))
  }

  function Pow2(n: nat): nat { if n == 0 then 1 else 2 * Pow2(n - 1) }

  function Min(a: int, b: int): int { if a < b then a else b }

  /** Poll k happens at least 2^(k-1) minutes, or ten, into the outage. */
  lemma {:induction false} DeadForGrows(since: int, grace: int, polls: seq<int>, k: nat)
    requires Outage(since, grace, polls) && 1 <= k < |polls|
    ensures polls[k] - since - grace >= Min(60 * Pow2(k - 1), 600)
  {
    if k > 1 {
      DeadForGrows(since, grace, polls, k - 1);
      assert polls[k] >= polls[k - 1] + Wait(since, grace, polls[k - 1]);
    } else {
      assert polls[1] >= polls[0] + Wait(since, grace, polls[0]);
    }
  }

  /** Waits never shrink, stay between one and ten minutes, and at least double until
      they reach ten. */
  lemma WaitsDouble(since: int, grace: int, polls: seq<int>, k: nat)
    requires Outage(since, grace, polls) && k < |polls|
    ensures 60 <= Wait(since, grace, polls[k]) <= 600
    ensures k + 1 < |polls| ==> Wait(since, grace, polls[k]) <= Wait(since, grace, polls[k + 1])
    ensures k >= 1 ==> Wait(since, grace, polls[k]) >= 60 * Min(Pow2(k - 1), 10)
  {
    if k >= 1 {
      DeadForGrows(since, grace, polls, k);
    }
  }

  lemma {:induction false} LatePollsAreTenMinutesApart(since: int, grace: int, polls: seq<int>, n: nat)
    requires Outage(since, grace, polls) && 5 <= n < |polls|
    ensures polls[n] - polls[5] >= 600 * (n - 5)
    decreases n
  {
    if n > 5 {
      LatePollsAreTenMinutesApart(since, grace, polls, n - 1);
      WaitsDouble(since, grace, polls, n - 1);
      PowAtLeast16(n - 2);
      assert polls[n] >= polls[n - 1] + Wait(since, grace, polls[n - 1]);
    }
  }

  lemma {:induction false} PowAtLeast16(n: nat)
    requires n >= 4
    ensures Pow2(n) >= 16
  {
    if n > 4 {
      PowAtLeast16(n - 1);
    } else {
      assert Pow2(4) == 2 * Pow2(3) == 4 * Pow2(2) == 8 * Pow2(1) == 16 * Pow2(0);
    }
  }

  /** An outage of length D is polled at most 6 + D / 10min times. */
  lemma PollsAreBounded(since: int, grace: int, polls: seq<int>)
    requires Outage(since, grace, polls) && polls != []
    ensures |polls| <= 6 + (polls[|polls| - 1] - polls[0]) / 600
    ensures polls[0] <= polls[|polls| - 1]
  {
    Ascending(since, grace, polls, |polls| - 1);
    if |polls| > 6 {
      LatePollsAreTenMinutesApart(since, grace, polls, |polls| - 1);
      Ascending(since, grace, polls, 5);
    }
  }

  lemma {:induction false} Ascending(since: int, grace: int, polls: seq<int>, n: nat)
    requires Outage(since, grace, polls) && n < |polls|
    ensures polls[0] <= polls[n]
  {
    if n > 0 {
      Ascending(since, grace, polls, n - 1);
      assert polls[n - 1 + 1] >= polls[n - 1] + Wait(since, grace, polls[n - 1]);
    }
  }

  /** Everything said above about the m-th poll of an outage. */
  ghost predicate BacksOff(since: int, grace: int, polls: seq<int>, m: nat)
    requires m < |polls|
  {
    && 60 <= Wait(since, grace, polls[m]) <= 600
    && (m >= 1 ==> Wait(since, grace, polls[m]) >= 60 * Min(Pow2(m - 1), 10))
    && (m + 1 < |polls| ==> Wait(since, grace, polls[m]) <= Wait(since, grace, polls[m + 1]))
    && |polls| <= 6 + (polls[|polls| - 1] - polls[0]) / 600
  }

  lemma OutageBacksOff(since: int, grace: int, polls: seq<int>, m: nat)
    requires Outage(since, grace, polls) && m < |polls|
    ensures BacksOff(since, grace, polls, m)
  {
    WaitsDouble(since, grace, polls, m);
    PollsAreBounded(since, grace, polls);
  }

  // ----- exactly when the waits are 1, 1, 2, 4, 8, 10, 10, ... minutes -----

  function Announced(k: nat): int { if k == 0 then 60 else 60 * Min(Pow2(k - 1), 10) }

  ghost predicate AsAnnounced(since: int, grace: int, polls: seq<int>) {
    forall k :: 0 <= k < |polls| ==> Wait(since, grace, polls[k]) == Announced(k)
  }

  /** A single poll comes within a minute of the end of the grace period. Of several, the
      first comes at the end of the grace period, and the next four when asked for. */
  predicate OnTime(since: int, grace: int, polls: seq<int>) {
    if |polls| == 1 then polls[0] <= since + grace + 60
    else
      && (polls != [] ==> polls[0] == since + grace)
      && forall k :: 0 <= k < 4 && k + 1 < |polls| ==> polls[k + 1] == polls[k] + Wait(since, grace, polls[k])
  }

  /** How long the outage has lasted at polls that come when asked for. */
  function DeadAt(k: nat): int
    requires k <= 4
  {
    if k == 0 then 0 else 60 * Pow2(k - 1)
  }

  lemma SmallPowers()
    ensures Pow2(0) == 1 && Pow2(1) == 2 && Pow2(2) == 4 && Pow2(3) == 8
  {
    assert Pow2(3) == 2 * Pow2(2) == 4 * Pow2(1) == 8 * Pow2(0);
  }

  lemma {:induction false} OnTimeDeadAt(since: int, grace: int, polls: seq<int>, k: nat)
    requires OnTime(since, grace, polls) && |polls| > 1 && k < |polls| && k <= 4
    ensures polls[k] == since + grace + DeadAt(k)
  {
    if k > 0 {
      OnTimeDeadAt(since, grace, polls, k - 1);
      SmallPowers();
      assert polls[k - 1 + 1] == polls[k - 1] + Wait(since, grace, polls[k - 1]);
    }
  }

  lemma OnTimeAsAnnounced(since: int, grace: int, polls: seq<int>, k: nat)
    requires Outage(since, grace, polls) && OnTime(since, grace, polls) && k < |polls|
    ensures Wait(since, grace, polls[k]) == Announced(k)
  {
    SmallPowers();
    if k >= 5 {
      WaitsDouble(since, grace, polls, k);
      PowAtLeast16(k - 1);
    } else if |polls| > 1 {
      OnTimeDeadAt(since, grace, polls, k);
    }
  }

  lemma {:induction false} AnnouncedDeadAt(since: int, grace: int, polls: seq<int>, k: nat)
    requires Outage(since, grace, polls) && AsAnnounced(since, grace, polls)
    requires |polls| > 1 && k < |polls| && k <= 4
    ensures polls[k] == since + grace + DeadAt(k)
  {
    SmallPowers();
    assert Wait(since, grace, polls[0]) == Announced(0) && Wait(since, grace, polls[1]) == Announced(1);
    assert polls[0 + 1] >= polls[0] + Wait(since, grace, polls[0]);
    if k > 0 {
      AnnouncedDeadAt(since, grace, polls, k - 1);
      assert Wait(since, grace, polls[k]) == Announced(k);
      assert polls[k - 1 + 1] >= polls[k - 1] + Wait(since, grace, polls[k - 1]);
    }
  }

  /** The waits of an outage are the announced 1, 1, 2, 4, 8 and then 10 minutes if and only if
      its polls are on time. From the sixth on, no lateness can change them. */
  lemma AnnouncedIffOnTime(since: int, grace: int, polls: seq<int>)
    requires Outage(since, grace, polls)
    ensures AsAnnounced(since, grace, polls) <==> OnTime(since, grace, polls)
  {
    if OnTime(since, grace, polls) {
      forall k | 0 <= k < |polls| ensures Wait(since, grace, polls[k]) == Announced(k) {
        OnTimeAsAnnounced(since, grace, polls, k);
      }
    }
    if AsAnnounced(since, grace, polls) && |polls| > 1 {
      AnnouncedDeadAt(since, grace, polls, 0);
      forall k | 0 <= k < 4 && k + 1 < |polls| ensures polls[k + 1] == polls[k] + Wait(since, grace, polls[k]) {
        AnnouncedDeadAt(since, grace, polls, k);
        AnnouncedDeadAt(since, grace, polls, k + 1);
        SmallPowers();
        assert Wait(since, grace, polls[k]) == Announced(k);
      }
    }
    if AsAnnounced(since, grace, polls) && |polls| == 1 {
      assert Wait(since, grace, polls[0]) == Announced(0);
    }
  }
}
