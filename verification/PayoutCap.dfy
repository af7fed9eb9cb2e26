/**
 The rolling payout cap: the spend it reads, its authorization of one payout, and the alert built from
 the same numbers.
 */
module PayoutCap {
  import opened Wrappers
  import opened StellarChain
  import opened PayoutRows

  const CAP_WINDOW_MS: nat := 86_400_000

  datatype PayoutActivity = PayoutActivity(count: nat, volumeUnits: nat)

  /** Does the spend side count this job row? Its status is not asked. */
  predicate Spends(j: Job, since: int) {
    j.txHash.Some? && j.amountUnits.Some? && j.broadcastAt.Some? && j.broadcastAt.value >= since
  }

  /** `getPayoutActivitySince` over every job row, submissions' and withdrawals' alike. */
  function ActivitySince(jobs: seq<Job>, since: int): PayoutActivity {
    if jobs == [] then PayoutActivity(0, 0)
    else
      var rest := ActivitySince(jobs[1..], since);
      if Spends(jobs[0], since) then PayoutActivity(rest.count + 1, rest.volumeUnits + jobs[0].amountUnits.value) else rest
  }

  lemma {:induction false} ActivityAdds(a: seq<Job>, b: seq<Job>, since: int)
    ensures ActivitySince(a + b, since).volumeUnits == ActivitySince(a, since).volumeUnits + ActivitySince(b, since).volumeUnits
    ensures ActivitySince(a + b, since).count == ActivitySince(a, since).count + ActivitySince(b, since).count
  {
    if a == [] {
      assert a + b == b;
    } else {
      assert (a + b)[1..] == a[1..] + b;
      ActivityAdds(a[1..], b, since);
    }
  }

  /** The rows that carry a hash, an amount and a broadcast time no earlier than `since`, by position. */
  function BroadcastSince(jobs: seq<Job>, since: int): set<nat> {
    set i: nat | i < |jobs| && jobs[i].txHash.Some? && jobs[i].amountUnits.Some?
                 && jobs[i].broadcastAt.Some? && since <= jobs[i].broadcastAt.value :: i
  }

  function UnitsAt(jobs: seq<Job>, at: set<nat>, n: nat): nat
    requires n <= |jobs| && forall i :: i in at ==> i < |jobs| && jobs[i].amountUnits.Some?
  {
    if n == 0 then 0 else UnitsAt(jobs, at, n - 1) + (if n - 1 in at then jobs[n - 1].amountUnits.value else 0)
  }

  /** The window holds exactly those rows: all of them, whatever their status, and none broadcast before it opened. */
  lemma {:induction false} ActivityExactly(jobs: seq<Job>, since: int)
    ensures var at := BroadcastSince(jobs, since);
            && ActivitySince(jobs, since).count == |at|
            && ActivitySince(jobs, since).volumeUnits == UnitsAt(jobs, at, |jobs|)
  {
    var at := BroadcastSince(jobs, since);
    if jobs != [] {
      var n := |jobs| - 1;
      var init := jobs[..n];
      var before := BroadcastSince(init, since);
      assert jobs == init + [jobs[n]] && [jobs[n]][1..] == [];
      ActivityExactly(init, since);
      ActivityAdds(init, [jobs[n]], since);
      UnitsAlike(init, before, jobs, at, n);
      assert at == if n in at then before + {n} else before;
    } else {
      assert at == {};
    }
  }

  lemma {:induction false} UnitsAlike(a: seq<Job>, p: set<nat>, b: seq<Job>, q: set<nat>, n: nat)
    requires n <= |a| && n <= |b|
    requires forall i :: i in p ==> i < |a| && a[i].amountUnits.Some?
    requires forall i :: i in q ==> i < |b| && b[i].amountUnits.Some?
    requires forall i: nat :: i < n ==> a[i] == b[i] && (i in p <==> i in q)
    ensures UnitsAt(a, p, n) == UnitsAt(b, q, n)
  {
    if n > 0 {
      UnitsAlike(a, p, b, q, n - 1);
    }
  }

  /** Spend leaves the window: rows broadcast before it opened count for nothing, whatever they paid. */
  lemma {:induction false} OldSpendIsForgotten(earlier: seq<Job>, jobs: seq<Job>, since: int)
    requires forall i :: 0 <= i < |earlier| && earlier[i].broadcastAt.Some? ==> earlier[i].broadcastAt.value < since
    ensures ActivitySince(earlier + jobs, since) == ActivitySince(jobs, since)
    decreases |earlier|
  {
    if earlier == [] {
      assert earlier + jobs == jobs;
    } else {
      assert (earlier + jobs)[1..] == earlier[1..] + jobs;
      OldSpendIsForgotten(earlier[1..], jobs, since);
    }
  }

  /** `checkPayoutCap`: authorized with what remains, or refused with what was already spent. */
  datatype CapCheck = Authorized(current: nat, cap: nat, remaining: int) | CapError(currentUnits: nat, capUnits: nat)

  function CheckPayoutCap(jobs: seq<Job>, now: Time, cap: nat, amount: nat): CapCheck {
    if cap == 0 then Authorized(0, 0, 0)
    else
      var current := ActivitySince(jobs, now - CAP_WINDOW_MS).volumeUnits;
      var remaining := cap - current;
      if remaining >= amount then Authorized(current, cap, remaining) else CapError(current, cap)
  }

  /** Authorized exactly when the cap is off, or the last 24 hours' spend leaves room for the whole payout. */
  lemma AuthorizedExactly(jobs: seq<Job>, now: Time, cap: nat, amount: nat)
    ensures var spent := UnitsAt(jobs, BroadcastSince(jobs, now - 86_400_000), |jobs|);
            var check := CheckPayoutCap(jobs, now, cap, amount);
            && (check.Authorized? <==> cap == 0 || spent + amount <= cap)
            && (cap > 0 ==> check == if spent + amount <= cap then Authorized(spent, cap, cap - spent) else CapError(spent, cap))
  {
    ActivityExactly(jobs, now - CAP_WINDOW_MS);
  }

  /** A day after the last broadcast the whole cap is free again. */
  lemma CapRefills(jobs: seq<Job>, now: Time, cap: nat, amount: nat)
    requires amount <= cap
    requires forall i :: 0 <= i < |jobs| && jobs[i].broadcastAt.Some? ==> jobs[i].broadcastAt.value + 86_400_000 < now
    ensures CheckPayoutCap(jobs, now, cap, amount).Authorized?
  {
    OldSpendIsForgotten(jobs, [], now - CAP_WINDOW_MS);
    assert jobs + [] == jobs;
  }

  // ----- the cap over a whole history -----

  /** One payout: when the cap was checked for it, when it was broadcast, and how much it paid. */
  datatype Payout = Payout(checkedAt: Time, broadcastAt: Time, amount: nat)

  function JobOf(p: Payout): Job {
    Job(Done, 0, Some(0), Some(p.amount), Some(p.broadcastAt), Some(p.broadcastAt))
  }

  function JobsOf(ps: seq<Payout>): (jobs: seq<Job>)
    ensures |jobs| == |ps|
  {
    if ps == [] then [] else JobsOf(ps[..|ps| - 1]) + [JobOf(ps[|ps| - 1])]
  }

  /** Payouts one after another: each checked once every earlier one was recorded, and authorized, before its own broadcast. */
  ghost predicate OneAtATime(ps: seq<Payout>, cap: nat) {
    ps == [] || (
      var n := |ps| - 1;
      && OneAtATime(ps[..n], cap)
      && ps[n].checkedAt <= ps[n].broadcastAt
      && CheckPayoutCap(JobsOf(ps[..n]), ps[n].checkedAt, cap, ps[n].amount).Authorized?)
  }

  /** Units broadcast in the closed window of 24 hours that starts at `from`. */
  function SpentWithin(ps: seq<Payout>, from: int): nat {
    if ps == [] then 0
    else
      var n := |ps| - 1;
      SpentWithin(ps[..n], from) + (if from <= ps[n].broadcastAt <= from + CAP_WINDOW_MS then ps[n].amount else 0)
  }

  /** What any window holds of earlier payouts, a check made inside or after the window's start reads. */
  lemma {:induction false} CheckReadsWindow(ps: seq<Payout>, from: int, since: int)
    requires since <= from
    ensures SpentWithin(ps, from) <= ActivitySince(JobsOf(ps), since).volumeUnits
    decreases |ps|
  {
    if ps != [] {
      var n := |ps| - 1;
      CheckReadsWindow(ps[..n], from, since);
      ActivityAdds(JobsOf(ps[..n]), [JobOf(ps[n])], since);
      assert [JobOf(ps[n])][1..] == [];
    }
  }

  /** The cap's purpose: paid one at a time, no 24 hours ever hold more than the cap. */
  lemma {:induction false} CapHoldsOneAtATime(ps: seq<Payout>, cap: nat, from: int)
    requires cap > 0 && OneAtATime(ps, cap)
    ensures SpentWithin(ps, from) <= cap
    decreases |ps|
  {
    if ps != [] {
      var n := |ps| - 1;
      CapHoldsOneAtATime(ps[..n], cap, from);
      if from <= ps[n].broadcastAt <= from + CAP_WINDOW_MS {
        CheckReadsWindow(ps[..n], from, ps[n].checkedAt - CAP_WINDOW_MS);
      }
    }
  }

  /**
   It is a check, not a reservation: two payouts that both check before either is
   recorded are each authorized exactly when each fits alone, and overspend by
   whatever they exceed the cap together.
   */
  lemma ConcurrentChecksOverspend(jobs: seq<Job>, now: Time, cap: nat, a: nat, b: nat)
    requires cap > 0
    requires CheckPayoutCap(jobs, now, cap, a).Authorized? && CheckPayoutCap(jobs, now, cap, b).Authorized?
    ensures var current := ActivitySince(jobs, now - CAP_WINDOW_MS).volumeUnits;
            var both := ActivitySince(jobs + JobsOf([Payout(now, now, a), Payout(now, now, b)]), now - CAP_WINDOW_MS).volumeUnits;
            && both == current + a + b
            && (both > cap <==> a + b > cap - current)
            && (both > cap <==> !CheckPayoutCap(jobs + JobsOf([Payout(now, now, a)]), now, cap, b).Authorized?)
  {
    var since := now - CAP_WINDOW_MS;
    var one, two := Payout(now, now, a), Payout(now, now, b);
    assert JobsOf([]) == [];
    assert [one][..0] == [] && [one, two][..1] == [one];
    assert JobsOf([one]) == [JobOf(one)] && JobsOf([one, two]) == [JobOf(one)] + [JobOf(two)];
    ActivityAdds(jobs, [JobOf(one)], since);
    ActivityAdds(jobs, [JobOf(one)] + [JobOf(two)], since);
    ActivityAdds([JobOf(one)], [JobOf(two)], since);
    assert [JobOf(one)][1..] == [] && [JobOf(two)][1..] == [];
  }

  // ----- the alert -----

  datatype Severity = WARN | PAGE

  /** The alert's numbers; its wording is left out. */
  datatype CapAlert = CapAlert(severity: Severity, pct: real, spent: nat, cap: nat, remain: nat, blocked: Option<nat>)

  /** Hundredths of a percent, rounded down, as a percentage. */
  function CapPercentConsumed(spent: nat, cap: nat): real
    requires cap > 0
  {
    (spent * 10_000 / cap) as real / 100.0
  }

  function BuildPayoutCapAlert(spent: nat, cap: int, threshold: real, blocked: nat): Option<CapAlert> {
    if cap <= 0 then None
    else
      var decision := CapPercentConsumed(spent + blocked, cap);
      if decision < threshold then None
      else Some(CapAlert(if decision >= 100.0 then PAGE else WARN, CapPercentConsumed(spent, cap), spent, cap,
                         if cap > spent then cap - spent else 0, if blocked > 0 then Some(blocked) else None))
  }

  lemma ProductsOrdered(a: nat, b: nat, c: nat)
    ensures a <= b ==> a * c <= b * c
  {
  }

  /** Rounding down never reports a cap as exhausted early or late. */
  lemma ExhaustedExactly(spent: nat, cap: nat)
    requires cap > 0
    ensures CapPercentConsumed(spent, cap) >= 100.0 <==> spent >= cap
  {
    var q := spent * 10_000 / cap;
    assert q * cap <= spent * 10_000 < (q + 1) * cap;
    ProductsOrdered(q + 1, 10_000, cap);
    ProductsOrdered(10_000, q, cap);
  }

  /** More spend never reads as less. */
  lemma ConsumedGrows(a: nat, b: nat, cap: nat)
    requires cap > 0 && a <= b
    ensures CapPercentConsumed(a, cap) <= CapPercentConsumed(b, cap)
  {
    var p, q := a * 10_000 / cap, b * 10_000 / cap;
    assert p * cap <= a * 10_000 && b * 10_000 < (q + 1) * cap;
    ProductsOrdered(q + 1, p, cap);
  }

  /** The percentage is the spend's, in whole hundredths and never more than it. */
  lemma PercentExactly(spent: nat, cap: nat, hundredths: nat)
    requires cap > 0
    ensures CapPercentConsumed(spent, cap) * 100.0 >= hundredths as real <==> hundredths * cap <= 10_000 * spent
  {
    var q := spent * 10_000 / cap;
    assert q * cap <= spent * 10_000 < (q + 1) * cap;
    assert CapPercentConsumed(spent, cap) * 100.0 == q as real;
    if hundredths <= q {
      ProductsOrdered(hundredths, q, cap);
    } else {
      ProductsOrdered(q + 1, hundredths, cap);
    }
  }

  /**
   The alert goes out exactly when the spend, with a payout just refused counted in, has
   reached the threshold; it pages exactly from 100 percent on; and what it reports is the
   ledger's spend alone.
   */
  lemma AlertExactly(spent: nat, cap: int, threshold: real, blocked: nat)
    ensures var alert := BuildPayoutCapAlert(spent, cap, threshold, blocked);
            && (alert.Some? <==> cap > 0 && CapPercentConsumed(spent + blocked, cap) >= threshold)
            && (alert.Some? ==>
                  && (alert.value.severity == PAGE <==> spent + blocked >= cap)
                  && alert.value.pct == CapPercentConsumed(spent, cap) && alert.value.spent == spent && alert.value.cap == cap
                  && alert.value.remain == (if spent < cap then cap - spent else 0)
                  && alert.value.blocked == (if blocked == 0 then None else Some(blocked)))
  {
    if cap > 0 {
      ExhaustedExactly(spent + blocked, cap);
    }
  }

  /** A payout the cap refuses always pages, under any threshold, and is never reported as spent. */
  lemma RefusalPages(jobs: seq<Job>, now: Time, cap: nat, amount: nat, threshold: real)
    requires 0.0 < threshold <= 100.0
    requires CheckPayoutCap(jobs, now, cap, amount).CapError?
    ensures var current := ActivitySince(jobs, now - CAP_WINDOW_MS).volumeUnits;
            var alert := BuildPayoutCapAlert(current, cap, threshold, amount);
            && alert.Some? && alert.value.severity == PAGE
            && alert.value.spent == current && alert.value.pct == CapPercentConsumed(current, cap)
            && alert.value.blocked == (if amount > 0 then Some(amount) else None)
  {
    ExhaustedExactly(ActivitySince(jobs, now - CAP_WINDOW_MS).volumeUnits + amount, cap);
  }

  /** With nothing blocked, the alert pages exactly when the cap is spent, and a rise in spend never silences it. */
  lemma AlertFollowsSpend(spent: nat, more: nat, cap: nat, threshold: real)
    requires cap > 0 && 0.0 < threshold <= 100.0 && spent <= more
    ensures var alert := BuildPayoutCapAlert(spent, cap, threshold, 0);
            && (alert.Some? && alert.value.severity == PAGE <==> spent >= cap)
            && (alert.Some? ==> BuildPayoutCapAlert(more, cap, threshold, 0).Some?)
            && (alert.Some? ==> alert.value.remain + (if spent < cap then spent else cap) == cap)
  {
    ExhaustedExactly(spent, cap);
    ConsumedGrows(spent, more, cap);
  }
}
