/**
 One pass of the retry path over one submission, in place and in the source's order, and
 the retry cron's around it: its note of an error no retry can mend, and its sweep.
 */
module PayoutRetry {
  import opened Wrappers
  import opened StellarChain
  import opened PayoutRows
  import opened PayoutStore
  import opened PayoutSettlement
  import opened PayoutWorker

  /** A status the retry path leaves alone: paid, held for a human, or nothing owed. */
  predicate Ended(status: PayoutStatus) {
    status == Sent || status == PayoutConfirmed || status == NeedsReconciliation || status == PayoutStatus.Skipped
  }

  /**
   The early stops. A row with no payable wallet fails at no cost of a retry; a wait throws
   and leaves the claim to lapse. Anything else happens on a claim that was taken.
   */
  predicate RetryStopsAs(r: Rows, t: Rows, outcome: Outcome, payable: bool, now: Time) {
    match outcome
    case NothingDue => Ended(r.status) && t == r
    case NoWallet => !Ended(r.status) && !payable && t == r.(status := PayoutFailed, lastRetriedAt := Some(now))
    case StoodDown => !Ended(r.status) && payable && !Claimable(r, now) && t == r
    case Waited => payable && Claimable(r, now) && t == r.(lastRetriedAt := Some(now))
    case _ => payable && Claimable(r, now)
  }

  /**
   What each failure leaves of the row and whether it ends the payout: a cap defers it, an
   unreachable co-signer leaves it as it is, and neither spends a retry; any other error spends
   one, or all of them when no retry can mend it.
   */
  predicate RetryFailsAs(r: Rows, t: Rows, e: PayError, ends: bool, claimed: Time, now: Time) {
    match e
    case CapReached => !ends && t.status == Pending && t.retryCount == r.retryCount && t.lastRetriedAt == Some(claimed)
    case CoSignerUnavailable => !ends && t.status == r.status && t.retryCount == r.retryCount && t.lastRetriedAt == Some(claimed)
    case NonRetryable => ends && t.status == PayoutFailed && t.retryCount == 5 && t.lastRetriedAt == Some(now)
    case AmbiguousSubmit => !ends && t.status == PayoutFailed && t.retryCount == 5 && t.lastRetriedAt == Some(now)
    case ExpiredUnincluded => !ends && t.status == PayoutFailed && t.retryCount == r.retryCount + 1 && t.lastRetriedAt == Some(now)
    case Retryable =>
      && (ends <==> r.retryCount + 1 >= 5)
      && t.status == PayoutFailed && t.retryCount == r.retryCount + 1 && t.lastRetriedAt == Some(now)
  }

  /** How a pass starts: it stops at once, or holds its claim with the open envelope settled. */
  method BeginRetry(store: SubmissionStore, payable: bool, hz: Horizon, now: Time, later: Time) returns (begun: Begun)
    modifies store
    ensures if begun.Stops? then RetryStopsAs(old(store.View()), store.View(), begun.outcome, payable, now)
            else payable && Claimable(old(store.View()), now)
    ensures begun.Begins? || begun == Stops(Waited) ==>
              && (!HasOpen(old(store.attempts)) ==> begun == Begins(IsClear) && store.attempts == old(store.attempts))
              && (HasOpen(old(store.attempts)) ==> exists h :: SettledBy(old(store.attempts), store.attempts, begun, hz, later, h))
    ensures begun.Begins? ==>
              && store.hash == None && !store.refunded && !begun.settled.IsWait? && SameButJournal(old(store.View()), store.View())
              && store.lastRetriedAt == Some(now)
    ensures begun.Stops? ==> begun.outcome == NothingDue || begun.outcome == NoWallet || begun.outcome == StoodDown || begun.outcome == Waited
    ensures forall g :: OpenIn(store.attempts, g) ==> OpenIn(old(store.attempts), g)
  {
    if Terminal(store.status) { return Stops(NothingDue); }
    if !payable {
      store.status, store.lastRetriedAt := PayoutFailed, Some(now);
      return Stops(NoWallet);
    }
    var claimed := store.Claim(now);
    if !claimed { return Stops(StoodDown); }
    ghost var attempts := store.attempts;
    var settled := SettleOpenAttempt(store, hz, later);
    hide Answer, HasOpen;
    ghost var result := if settled.IsWait? then Stops(Waited) else Begins(settled);
    if HasOpen(attempts) {
      ghost var h :| OpenIn(attempts, h) && settled == Answer(hz, attempts[h], h, later)
                     && store.attempts == if settled == IsClear then SetAttempt(attempts, h, Void) else attempts;
      assert SettledBy(attempts, store.attempts, result, hz, later, h);
    }
    begun := if settled.IsWait? then Stops(Waited) else Begins(settled);
  }

  /** A pass that broadcast nothing: the failure's write, then the refund of a payout that ended. */
  method EndRetry(store: SubmissionStore, base: nat, e: PayError, funded: bool, now: Time) returns (ends: bool)
    requires store.retryCount == base
    modifies store
    ensures store.hash == old(store.hash) && store.attempts == old(store.attempts) && store.job == old(store.job)
    ensures store.error == old(store.error)
    ensures old(store.lastRetriedAt).Some? ==>
              RetryFailsAs(old(store.View()), store.View(), e, ends, old(store.lastRetriedAt).value, now)
    ensures store.refunded == (old(store.refunded) || (ends && funded))
  {
    ends := store.RetryFails(base, e, now);
    if ends && funded {
      store.refunded := true;
    }
  }

  /** The pass once its claim is held and nothing waits. */
  method RetryHeld(store: SubmissionStore, user: UserTotals, settled: Settlement, funded: bool, p: Payment, again: Payment,
                   claimed: Time, now: Time, records: seq<WriteOutcome>, quarantines: seq<WriteOutcome>)
    returns (outcome: Outcome)
    requires |records| == |quarantines| == PERSISTENCE_ATTEMPTS && Truthful(p) && Truthful(again)
    requires store.hash == None && !store.refunded && !settled.IsWait? && store.lastRetriedAt == Some(claimed)
    modifies store, user
    ensures Follows(old(store.View()), p, again, Begins(settled), outcome)
    ensures BuiltAlone(old(store.attempts), store.attempts)
    ensures outcome.Recorded? ==> Heard(records) && PaidByRetry(old(store.View()), store.View(), outcome.h, now)
    ensures outcome.Unrecorded? ==> !Heard(records) && (Commits(quarantines) ==> store.hash == Some(outcome.h) && store.status == NeedsReconciliation)
    ensures outcome.Failed? ==>
              && RetryFailsAs(old(store.View()), store.View(), outcome.e, outcome.refundDue, claimed, now)
              && store.hash == None && store.job == old(store.job) && store.error == old(store.error)
              && store.refunded == (outcome.refundDue && funded)
              && (outcome.e == AmbiguousSubmit ==> HasOpen(store.attempts))
    ensures outcome.Recorded? || outcome.Unrecorded? || outcome.Failed?
    ensures user.submissionCount - old(user.submissionCount) == (if !outcome.Failed? && Commits(records) then 1 else 0)
    ensures user.earnedUnits - old(user.earnedUnits) == (user.submissionCount - old(user.submissionCount)) * store.amount
  {
    hide RecordPayment, EndsPayout, GiveUp, Quarantine, HasOpen, ThrowsAs, PaysAs;
    ghost var r := store.View();
    var paid := Hash(0);
    if settled.IsPaid? {
      paid := Hash(settled.hash);
    } else {
      paid := PayReward(store, p, again, now);
    }
    ghost var built := store.View();
    if paid.Threw? {
      var ends := EndRetry(store, store.retryCount, paid.e, funded, now);
      return Outcome.Failed(paid.e, ends);
    }
    outcome := RecordRetry(store, user, paid.h, now, records, quarantines);
  }

  /** A payment the retry path recorded: the row, its job and its attempt say so together. */
  predicate PaidByRetry(r: Rows, t: Rows, h: Hash, at: Time) {
    && t.status == Sent && t.hash == Some(h) && t.lastRetriedAt == Some(at) && t.amount == r.amount
    && t.job == Some(Job(Done, Retries(r.job), Some(h), Some(r.amount), Some(at), Some(at)))
    && !OpenIn(t.attempts, h)
  }

  /** The end of a pass that has a hash. */
  method RecordRetry(store: SubmissionStore, user: UserTotals, h: Hash, now: Time, records: seq<WriteOutcome>, quarantines: seq<WriteOutcome>)
    returns (outcome: Outcome)
    requires store.hash == None && |records| == |quarantines| == PERSISTENCE_ATTEMPTS
    modifies store, user
    ensures outcome == if Heard(records) then Recorded(h) else Unrecorded(h)
    ensures outcome.Recorded? ==> PaidByRetry(old(store.View()), store.View(), h, now)
    ensures outcome.Unrecorded? && Commits(quarantines) ==> store.hash == Some(h) && store.status == NeedsReconciliation
    ensures forall g :: OpenIn(store.attempts, g) ==> OpenIn(old(store.attempts), g)
    ensures user.submissionCount == old(user.submissionCount) + (if Commits(records) then 1 else 0)
    ensures user.earnedUnits == old(user.earnedUnits) + (user.submissionCount - old(user.submissionCount)) * store.amount
  {
    var persisted, retriesBlocked := PersistAcceptedPayment(RetryPath, store, h, now, now, user, records, quarantines);
    assert persisted ==> exists i :: 0 <= i < |records| && records[i] == Replied;
    assert persisted ==> Commits(records);
    outcome := if persisted then Recorded(h) else Unrecorded(h);
  }

  /**
   `reprocessPayoutWithNonceSafety`. It builds only on a claim it took and with nothing else
   open, credits at most once, and refunds a funded payout exactly when it ends, which an
   outcome that may have settled never does.
   */
  method Reprocess(store: SubmissionStore, user: UserTotals, payable: bool, funded: bool, hz: Horizon, p: Payment, again: Payment,
                   now: Time, later: Time, records: seq<WriteOutcome>, quarantines: seq<WriteOutcome>)
    returns (outcome: Outcome)
    requires |records| == |quarantines| == PERSISTENCE_ATTEMPTS && Truthful(p) && Truthful(again)
    modifies store, user
    ensures RetryStopsAs(old(store.View()), store.View(), outcome, payable, now)
    ensures BuiltAlone(old(store.attempts), store.attempts)
    ensures payable && Claimable(old(store.View()), now) ==>
              if HasOpen(old(store.attempts)) then exists h :: ContinuesAs(old(store.View()), p, again, hz, later, outcome, h)
              else PaysOrThrows(old(store.View()), p, again, outcome)
    ensures outcome.Recorded? ==> Heard(records) && PaidByRetry(old(store.View()), store.View(), outcome.h, later)
    ensures outcome.Unrecorded? ==> !Heard(records) && (Commits(quarantines) ==> store.hash == Some(outcome.h) && store.status == NeedsReconciliation)
    ensures outcome.Failed? ==>
              && RetryFailsAs(old(store.View()), store.View(), outcome.e, outcome.refundDue, now, later)
              && store.hash == None && store.job == old(store.job) && store.error == old(store.error)
              && store.refunded == (outcome.refundDue && funded)
              && (outcome.e == AmbiguousSubmit ==> HasOpen(store.attempts))
    ensures user.submissionCount - old(user.submissionCount) ==
              (if (outcome.Recorded? || outcome.Unrecorded?) && Commits(records) then 1 else 0)
    ensures user.earnedUnits - old(user.earnedUnits) == (user.submissionCount - old(user.submissionCount)) * store.amount
  {
    ghost var r := store.View();
    var begun := BeginRetry(store, payable, hz, now, later);
    ghost var t := store.View();
    hide Claimable, Answer, HasOpen, ThrowsAs, PaysAs, Commits, Heard, ContinuesAs;
    if begun.Stops? {
      if begun == Stops(Waited) {
        BeganAs(r, t, p, again, begun, hz, later, begun.outcome);
      }
      return begun.outcome;
    }
    outcome := RetryHeld(store, user, begun.settled, funded, p, again, now, later, records, quarantines);
    BeganAs(r, t, p, again, begun, hz, later, outcome);
  }

  /**
   The cron's whole pass over a row it offers: the retry, its note of an error no retry can
   mend (`noted`: whether that best-effort write lands), and its sweep. Whatever happened, a
   row left unpaid is accounted for: it is offered again, or it is abandoned and refunded, or
   it is abandoned with an envelope open that the revival will come back to. The one exception
   is an envelope proven dead on the last try.
   */
  method CronPass(store: SubmissionStore, user: UserTotals, payable: bool, funded: bool, hz: Horizon, p: Payment, again: Payment,
                  now: Time, later: Time, records: seq<WriteOutcome>, quarantines: seq<WriteOutcome>, noted: bool)
    returns (outcome: Outcome)
    requires |records| == |quarantines| == PERSISTENCE_ATTEMPTS && Truthful(p) && Truthful(again)
    requires OfferedByCron(store.View())
    modifies store, user
    ensures outcome.Recorded? ==> store.status == Sent && store.hash == Some(outcome.h)
    ensures outcome.Failed? && outcome.refundDue ==> store.status == Abandoned && store.refunded == funded
    ensures outcome.Failed? && outcome.e == AmbiguousSubmit ==>
              && store.status == Abandoned && !store.refunded && HasOpen(store.attempts)
              && forall at :: OpenPastBound(store.attempts, at) ==> Stranded(store.View(), at)
    ensures outcome.Failed? && !outcome.refundDue && outcome.e != AmbiguousSubmit ==>
              && store.hash == None && !store.refunded
              && (OfferedByCron(store.View()) <==> !(outcome.e == ExpiredUnincluded && old(store.retryCount) + 1 >= 5))
              && (!OfferedByCron(store.View()) ==> store.status == Abandoned)
    ensures outcome == NoWallet || outcome == Waited ==> OfferedByCron(store.View()) && store.retryCount == old(store.retryCount)
    ensures outcome == NothingDue || outcome == StoodDown ==> store.View() == old(store.View())
  {
    ghost var r := store.View();
    outcome := Reprocess(store, user, payable, funded, hz, p, again, now, later, records, quarantines);
    hide ContinuesAs, PaysOrThrows, HasOpen, OpenPastBound;
    ghost var t := store.View();
    if outcome.Failed? && (outcome.e == NonRetryable || outcome.e == AmbiguousSubmit) && noted {
      store.retryCount, store.error := 5, OtherError;
      assert store.View() == CronNote(t);
    }
    Sweep(store);
  }

  /** The cron's last statement, for this row. */
  method Sweep(store: SubmissionStore)
    modifies store`status
    ensures store.View() == AbandonSweep(old(store.View()))
    ensures store.status == if (old(store.status) == PayoutFailed || old(store.status) == Pending) && store.retryCount >= 5 then Abandoned
                            else old(store.status)
  {
    if (store.status == PayoutFailed || store.status == Pending) && store.retryCount >= 5 {
      store.status := Abandoned;
    }
  }
}
