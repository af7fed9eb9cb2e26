/**
 The sliding-window limiter for one key under its advisory lock, against its counting
 specification: a request is limited exactly when `max` accepted requests lie in the
 closed window that ends now.
 */
module RateLimit {
  /** `Limited` carries the seconds until the oldest request in the window expires. */
  datatype Decision = Accepted | Limited(retryAfterSeconds: int)

  /** The bucket rows of one key: each holds its `expires_at`. */
  function Unexpired(buckets: seq<int>, now: int): seq<int> {
    if buckets == [] then []
    else
      var kept := Unexpired(buckets[..|buckets| - 1], now);
      if buckets[|buckets| - 1] < now then kept else kept + [buckets[|buckets| - 1]]
  }

  function Least(buckets: seq<int>): int
    requires buckets != []
  {
    if |buckets| == 1 then buckets[0]
    else
      var m := Least(buckets[..|buckets| - 1]);
      if buckets[|buckets| - 1] < m then buckets[|buckets| - 1] else m
  }

  function CeilSeconds(ms: int): int {
    -((-ms) / 1000)
  }

  function Max(a: int, b: int): int {
    if a >= b then a else b
  }

  function Decide(kept: seq<int>, now: int, max: nat): Decision {
    if |kept| < max then Accepted
    else if kept == [] then Limited(1)
    else Limited(Max(1, CeilSeconds(Least(kept) - now)))
  }

  /** Delete what expired, count, and insert unless the count is at the limit. */
  class Limiter {
    var buckets: seq<int>

    constructor ()
      ensures buckets == []
    {
      buckets := [];
    }

    method Take(now: int, max: nat, windowMs: nat) returns (decision: Decision)
      modifies this
      ensures decision == Decide(Unexpired(old(buckets), now), now, max)
      ensures buckets == RowsStep(old(buckets), now, max, windowMs)
    {
      var kept: seq<int> := [];
      for i := 0 to |buckets|
        invariant buckets == old(buckets)
        invariant kept == Unexpired(buckets[..i], now)
      {
        assert buckets[..i + 1][..i] == buckets[..i];
        if !(buckets[i] < now) { kept := kept + [buckets[i]]; }
      }
      assert buckets[..|buckets|] == buckets;
      buckets := kept;
      if |buckets| >= max {
        return if buckets == [] then Limited(1) else Limited(Max(1, CeilSeconds(Least(buckets) - now)));
      }
      buckets := buckets + [now + windowMs];
      decision := Accepted;
    }
  }

  // ----- the counting specification -----

  /** Accepted requests in the closed interval from `lo` to `hi`. */
  function InWindow(accepted: seq<int>, lo: int, hi: int): nat {
    if accepted == [] then 0
    else InWindow(accepted[..|accepted| - 1], lo, hi) + (if lo <= accepted[|accepted| - 1] <= hi then 1 else 0)
  }

  predicate SpecLimited(accepted: seq<int>, now: int, max: nat, windowMs: nat) {
    InWindow(accepted, now - windowMs, now) >= max
  }

  function SpecStep(before: seq<int>, now: int, max: nat, windowMs: nat): seq<int> {
    if SpecLimited(before, now, max, windowMs) then before else before + [now]
  }

  /** The accepted request times of a trace, by the specification alone. */
  function SpecAccepted(times: seq<int>, max: nat, windowMs: nat): seq<int> {
    if times == [] then []
    else SpecStep(SpecAccepted(times[..|times| - 1], max, windowMs), times[|times| - 1], max, windowMs)
  }

  /** What one request leaves of the rows: the limiter's own effect. */
  function RowsStep(buckets: seq<int>, now: int, max: nat, windowMs: nat): seq<int> {
    var kept := Unexpired(buckets, now);
    kept + (if |kept| < max then [now + windowMs] else [])
  }

  /** The bucket rows after a trace, by the limiter. */
  function BucketsAfter(times: seq<int>, max: nat, windowMs: nat): seq<int> {
    if times == [] then []
    else RowsStep(BucketsAfter(times[..|times| - 1], max, windowMs), times[|times| - 1], max, windowMs)
  }

  predicate NonDecreasing(times: seq<int>) {
    |times| <= 1 || (times[|times| - 2] <= times[|times| - 1] && NonDecreasing(times[..|times| - 1]))
  }

  predicate AllAtMost(times: seq<int>, t: int) {
    times == [] || (times[|times| - 1] <= t && AllAtMost(times[..|times| - 1], t))
  }

  /** The rows hold the accepted requests whose window has not closed, each at its expiry. */
  function Live(accepted: seq<int>, now: int, windowMs: nat): seq<int> {
    if accepted == [] then []
    else
      var last := accepted[|accepted| - 1];
      Live(accepted[..|accepted| - 1], now, windowMs) + (if last + windowMs < now then [] else [last + windowMs])
  }

  lemma {:induction false} LiveCounts(accepted: seq<int>, now: int, windowMs: nat)
    requires AllAtMost(accepted, now)
    ensures |Live(accepted, now, windowMs)| == InWindow(accepted, now - windowMs, now)
    decreases |accepted|
  {
    if accepted != [] {
      LiveCounts(accepted[..|accepted| - 1], now, windowMs);
    }
  }

  lemma {:induction false} UnexpiredOfLive(accepted: seq<int>, before: int, now: int, windowMs: nat)
    requires before <= now
    ensures Unexpired(Live(accepted, before, windowMs), now) == Live(accepted, now, windowMs)
    decreases |accepted|
  {
    if accepted != [] {
      var n := |accepted| - 1;
      UnexpiredOfLive(accepted[..n], before, now, windowMs);
      var e := accepted[n] + windowMs;
      var live := Live(accepted[..n], before, windowMs);
      assert (live + [e])[..|live|] == live;
      assert live + [] == live;
    }
  }

  lemma AppendWithin(times: seq<int>, last: int, t: int)
    requires AllAtMost(times, t) && last <= t
    ensures AllAtMost(times + [last], t)
  {
    assert (times + [last])[..|times|] == times;
  }

  lemma {:induction false} AcceptedWithin(times: seq<int>, max: nat, windowMs: nat, t: int)
    requires AllAtMost(times, t)
    ensures AllAtMost(SpecAccepted(times, max, windowMs), t)
    decreases |times|
  {
    if times != [] {
      var n := |times| - 1;
      AcceptedWithin(times[..n], max, windowMs, t);
      hide SpecLimited, InWindow;
      AppendWithin(SpecAccepted(times[..n], max, windowMs), times[n], t);
    }
  }

  lemma {:induction false} SortedWithin(times: seq<int>, t: int)
    requires NonDecreasing(times) && (times != [] ==> times[|times| - 1] <= t)
    ensures AllAtMost(times, t)
    decreases |times|
  {
    if |times| > 1 {
      SortedWithin(times[..|times| - 1], t);
    } else if |times| == 1 {
      assert times[..0] == [];
    }
  }

  lemma LiveAppends(accepted: seq<int>, last: int, now: int, windowMs: nat)
    ensures Live(accepted + [last], now, windowMs)
            == Live(accepted, now, windowMs) + (if last + windowMs < now then [] else [last + windowMs])
  {
    assert (accepted + [last])[..|accepted|] == accepted;
  }

  /** One request more, by the specification and by the limiter. */
  lemma OneMore(times: seq<int>, now: int, max: nat, windowMs: nat)
    ensures SpecAccepted(times + [now], max, windowMs) == SpecStep(SpecAccepted(times, max, windowMs), now, max, windowMs)
    ensures BucketsAfter(times + [now], max, windowMs) == RowsStep(BucketsAfter(times, max, windowMs), now, max, windowMs)
  {
    hide SpecStep, RowsStep;
    var all := times + [now];
    assert all[..|all| - 1] == times && all[|all| - 1] == now;
  }

  /** The same step on the rows and the accepted requests alone. */
  lemma StepKeepsLive(buckets: seq<int>, before: seq<int>, earlier: int, now: int, max: nat, windowMs: nat)
    requires AllAtMost(before, now) && earlier <= now && buckets == Live(before, earlier, windowMs)
    ensures RowsStep(buckets, now, max, windowMs) == Live(SpecStep(before, now, max, windowMs), now, windowMs)
  {
    UnexpiredOfLive(before, earlier, now, windowMs);
    LiveCounts(before, now, windowMs);
    LiveAppends(before, now, now, windowMs);
    hide Live, Unexpired, InWindow, AllAtMost;
  }

  lemma EarlierRequests(times: seq<int>)
    requires NonDecreasing(times) && times != []
    ensures var n := |times| - 1;
            && NonDecreasing(times[..n]) && AllAtMost(times[..n], times[n])
            && (n > 0 ==> times[..n][n - 1] == times[n - 1] <= times[n])
  {
    var n := |times| - 1;
    if n > 0 {
      assert times[..n][n - 1] == times[n - 1];
      SortedWithin(times[..n], times[n]);
    } else {
      assert times[..n] == [];
    }
  }

  /** The rows hold exactly the accepted requests still in their window at `now`. */
  ghost predicate RowsAreLive(times: seq<int>, now: int, max: nat, windowMs: nat) {
    BucketsAfter(times, max, windowMs) == Live(SpecAccepted(times, max, windowMs), now, windowMs)
  }

  lemma NextRequest(times: seq<int>, earlier: int, now: int, max: nat, windowMs: nat)
    requires AllAtMost(times, now) && earlier <= now && RowsAreLive(times, earlier, max, windowMs)
    ensures RowsAreLive(times + [now], now, max, windowMs)
  {
    OneMore(times, now, max, windowMs);
    AcceptedWithin(times, max, windowMs, now);
    hide BucketsAfter, SpecAccepted, AllAtMost, Live, RowsStep, SpecStep;
    StepKeepsLive(BucketsAfter(times, max, windowMs), SpecAccepted(times, max, windowMs), earlier, now, max, windowMs);
  }

  lemma NoRequests(now: int, max: nat, windowMs: nat)
    ensures RowsAreLive([], now, max, windowMs)
  {
  }

  /** After every trace the rows are those of the accepted requests still in their window. */
  lemma {:induction false} BucketsAreLive(times: seq<int>, max: nat, windowMs: nat)
    requires NonDecreasing(times) && times != []
    ensures RowsAreLive(times, times[|times| - 1], max, windowMs)
    decreases |times|
  {
    var n := |times| - 1;
    EarlierRequests(times);
    assert times == times[..n] + [times[n]];
    hide RowsAreLive, NonDecreasing, AllAtMost;
    if n == 0 {
      NoRequests(times[n], max, windowMs);
      NextRequest([], times[n], times[n], max, windowMs);
    } else {
      BucketsAreLive(times[..n], max, windowMs);
      NextRequest(times[..n], times[n - 1], times[n], max, windowMs);
    }
  }

  /**
   On every trace of non-decreasing times, the limiter limits a request exactly when
   `max` accepted requests lie in the closed window ending now.
   */
  lemma LimiterMeetsSpec(times: seq<int>, now: int, max: nat, windowMs: nat)
    requires NonDecreasing(times) && (times != [] ==> times[|times| - 1] <= now)
    ensures Decide(Unexpired(BucketsAfter(times, max, windowMs), now), now, max).Limited?
            <==> SpecLimited(SpecAccepted(times, max, windowMs), now, max, windowMs)
  {
    SortedWithin(times, now);
    hide NonDecreasing, AllAtMost;
    AcceptedWithin(times, max, windowMs, now);
    LiveCounts(SpecAccepted(times, max, windowMs), now, windowMs);
    if times != [] {
      BucketsAreLive(times, max, windowMs);
      UnexpiredOfLive(SpecAccepted(times, max, windowMs), times[|times| - 1], now, windowMs);
    }
  }

  /** Requests made by `now` that lie in a window around it lie in the window that ends at it. */
  lemma {:induction false} WindowMoves(accepted: seq<int>, lo: int, windowMs: nat, now: int)
    requires AllAtMost(accepted, now) && lo <= now <= lo + windowMs
    ensures InWindow(accepted, lo, lo + windowMs) <= InWindow(accepted, now - windowMs, now)
    decreases |accepted|
  {
    if accepted != [] {
      WindowMoves(accepted[..|accepted| - 1], lo, windowMs, now);
    }
  }

  /** So no closed interval of one window's length ever holds more than `max` accepted requests. */
  lemma {:induction false} NoWindowHoldsMore(times: seq<int>, max: nat, windowMs: nat, lo: int)
    requires NonDecreasing(times)
    ensures InWindow(SpecAccepted(times, max, windowMs), lo, lo + windowMs) <= max
    decreases |times|
  {
    if times == [] {
      assert SpecAccepted(times, max, windowMs) == [];
    } else {
      hide SpecAccepted, BucketsAfter, InWindow, SpecStep, RowsStep;
      var n := |times| - 1;
      var now := times[n];
      EarlierRequests(times);
      assert times == times[..n] + [now];
      hide NonDecreasing, AllAtMost;
      OneMore(times[..n], now, max, windowMs);
      NoWindowHoldsMore(times[..n], max, windowMs, lo);
      AcceptedWithin(times[..n], max, windowMs, now);
      StepKeepsWindow(SpecAccepted(times[..n], max, windowMs), now, max, windowMs, lo);
    }
  }

  lemma StepKeepsWindow(before: seq<int>, now: int, max: nat, windowMs: nat, lo: int)
    requires AllAtMost(before, now) && InWindow(before, lo, lo + windowMs) <= max
    ensures InWindow(SpecStep(before, now, max, windowMs), lo, lo + windowMs) <= max
  {
    if lo <= now <= lo + windowMs {
      WindowMoves(before, lo, windowMs, now);
    }
    CountAppends(before, now, lo, lo + windowMs);
    hide InWindow, AllAtMost;
  }

  lemma CountAppends(accepted: seq<int>, last: int, lo: int, hi: int)
    ensures InWindow(accepted + [last], lo, hi) == InWindow(accepted, lo, hi) + (if lo <= last <= hi then 1 else 0)
  {
    assert (accepted + [last])[..|accepted|] == accepted;
  }

  // ----- the wait it asks for -----

  /** Nothing is deleted exactly while the least expiry is not past. */
  lemma {:induction false} AllKeptWhenLeastIs(kept: seq<int>, later: int)
    requires kept != []
    ensures |Unexpired(kept, later)| <= |kept|
    ensures |Unexpired(kept, later)| == |kept| <==> Least(kept) >= later
    decreases |kept|
  {
    if |kept| > 1 {
      AllKeptWhenLeastIs(kept[..|kept| - 1], later);
    } else {
      assert kept[..0] == [];
    }
  }

  lemma CeilIsNext(ms: int)
    ensures 1000 * CeilSeconds(ms) - 1000 < ms <= 1000 * CeilSeconds(ms)
    ensures ms == 1000 * CeilSeconds(ms) <==> ms % 1000 == 0
  {
  }

  lemma {:induction false} LeastIsLeast(buckets: seq<int>)
    requires buckets != []
    ensures exists i :: 0 <= i < |buckets| && buckets[i] == Least(buckets)
    ensures forall i :: 0 <= i < |buckets| ==> Least(buckets) <= buckets[i]
    decreases |buckets|
  {
    var n := |buckets| - 1;
    if n > 0 {
      LeastIsLeast(buckets[..n]);
      var i :| 0 <= i < n && buckets[..n][i] == Least(buckets[..n]);
      assert Least(buckets) == (if buckets[n] < buckets[i] then buckets[n] else buckets[i]);
    } else {
      assert buckets[0] == Least(buckets);
    }
  }

  /** A limited client is told the fewest whole seconds, at least one, that reach the first expiry among the rows kept. */
  lemma RetryAfterIsFewest(kept: seq<int>, now: int, max: nat)
    ensures Decide(kept, now, max).Limited? <==> |kept| >= max
    ensures |kept| >= max ==>
              var r := Decide(kept, now, max).retryAfterSeconds;
              && r >= 1
              && (kept != [] ==> exists i :: 0 <= i < |kept| && kept[i] <= now + 1000 * r)
              && (r > 1 ==> forall i :: 0 <= i < |kept| ==> kept[i] > now + 1000 * (r - 1))
  {
    if |kept| >= max && kept != [] {
      LeastIsLeast(kept);
      CeilIsNext(Least(kept) - now);
      var i :| 0 <= i < |kept| && kept[i] == Least(kept);
      hide Least, CeilSeconds;
      var r := Decide(kept, now, max).retryAfterSeconds;
      assert kept[i] <= now + 1000 * r;
    }
  }

  /**
   A client that waits exactly as long as it is told and is alone on its key is limited
   again precisely when the oldest request expires a whole number of seconds away: a row
   is deleted only strictly after its expiry, and the wait rounds up to that instant.
   */
  lemma RetryAfterExactly(kept: seq<int>, now: int, max: nat)
    requires kept != [] && |kept| == max && Least(kept) >= now
    ensures var d := Decide(kept, now, max);
            && d.Limited?
            && var later := now + 1000 * d.retryAfterSeconds;
               (Decide(Unexpired(kept, later), later, max).Limited? <==> Least(kept) > now && (Least(kept) - now) % 1000 == 0)
  {
    var later := now + 1000 * Max(1, CeilSeconds(Least(kept) - now));
    AllKeptWhenLeastIs(kept, later);
    WaitReaches(Least(kept) - now);
    hide Unexpired, Least, CeilSeconds, Max;
  }

  /** The rounded wait ends at the expiry itself exactly when it needed no rounding. */
  lemma WaitReaches(wait: int)
    requires wait >= 0
    ensures wait >= 1000 * Max(1, CeilSeconds(wait)) <==> wait > 0 && wait % 1000 == 0
  {
    CeilIsNext(wait);
    hide CeilSeconds;
  }
}
