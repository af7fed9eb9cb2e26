/**
 The step system and the procedures agree on how an attempt ends: taken one transaction at
 a time, with anything in between, the writes are those of the pass.
 */
module PayoutRefinement {
  import opened Wrappers
  import opened StellarChain
  import opened PayoutRows
  import opened PayoutProtocol
  import opened PayoutStore
  import opened PayoutRetry

  /** The payer is still there, about to refund what it ended. */
  predicate Refunds(s: Sub, p: PayerId) {
    p in s.payers && s.payers[p].phase.Refunding?
  }

  predicate Notes(s: Sub, p: PayerId) {
    p in s.payers && s.payers[p].phase == Noting
  }

  // ----- each step, alone -----

  lemma ReleaseDoes(s: Sub, w: World, p: PayerId, e: PayError)
    requires p in s.payers && s.payers[p].role == Pays(Worker) && s.payers[p].phase == Failing(e) && s.rows.hash == None
    ensures EndEffect(s, w, p, Release) ==
              s.(rows := s.rows.(lastRetriedAt := None), payers := s.payers[p := s.payers[p].(phase := Phase.Released(e))])
  {
  }

  lemma EndDoes(s: Sub, w: World, p: PayerId, kind: PayerKind, e: PayError)
    requires p in s.payers && s.payers[p].role == Pays(kind)
    requires s.payers[p].phase == if kind == Worker then Phase.Released(e) else Failing(e)
    ensures var base := s.payers[p].base;
            var ended := s.(rows := GiveUp(kind, s.rows, base, e, w.now));
            EndEffect(s, w, p, EndPayout) ==
              if EndsPayout(kind, s.rows, base, e) then Move(ended, p, Refunding(e))
              else if kind == RetryPath && e == AmbiguousSubmit then Move(ended, p, Noting)
              else Leave(ended, p)
  {
    hide GiveUp, EndsPayout;
  }

  lemma RefundDoes(s: Sub, w: World, p: PayerId, e: PayError)
    requires p in s.payers && s.payers[p].phase == Refunding(e)
    ensures var paid := s.(rows := s.rows.(refunded := s.rows.refunded || s.funded));
            EndEffect(s, w, p, RefundDebit) ==
              if s.payers[p].role == Pays(RetryPath) && e == NonRetryable then Move(paid, p, Noting) else Leave(paid, p)
  {
  }

  lemma WorkerGivesUp(r: Rows, base: nat, e: PayError, now: Time)
    ensures var t := GiveUp(Worker, r, base, e, now);
            && FailsAs(r, t, e, EndsPayout(Worker, r, base, e), now)
            && t.hash == r.hash && t.lastRetriedAt == r.lastRetriedAt && t.attempts == r.attempts && t.refunded == r.refunded
  {
  }

  lemma RetryGivesUp(r: Rows, e: PayError, claimed: Time, now: Time)
    requires r.lastRetriedAt == Some(claimed)
    ensures var t := GiveUp(RetryPath, r, r.retryCount, e, now);
            && RetryFailsAs(r, t, e, EndsPayout(RetryPath, r, r.retryCount, e), claimed, now)
            && t.hash == r.hash && t.attempts == r.attempts && t.job == r.job && t.refunded == r.refunded
            && (e == NonRetryable ==> EndsPayout(RetryPath, r, r.retryCount, e))
            && (e == AmbiguousSubmit ==> !EndsPayout(RetryPath, r, r.retryCount, e))
  {
  }

  // ----- the whole ending -----

  /** The worker's last steps when it broadcast nothing: the claim, the failure's write and, if the payout is over, the refund. */
  lemma WorkerFailureRefines(m: Mode, s: Sub, w: World, p: PayerId, e: PayError) returns (released: Sub, ended: Sub, t: Sub)
    requires p in s.payers && s.payers[p].role == Pays(Worker) && s.payers[p].phase == Failing(e) && s.rows.hash == None
    ensures CanEnd(m, s, w, p, Release) && released == EndEffect(s, w, p, Release)
    ensures CanEnd(m, released, w, p, EndPayout) && ended == EndEffect(released, w, p, EndPayout)
    ensures Refunds(ended, p) ==> CanEnd(m, ended, w, p, RefundDebit)
    ensures t == if Refunds(ended, p) then EndEffect(ended, w, p, RefundDebit) else ended
    ensures FailsAs(s.rows, t.rows, e, Refunds(ended, p), w.now) && p !in t.payers
    ensures t.rows.hash == None && t.rows.lastRetriedAt == None && t.rows.attempts == s.rows.attempts
    ensures t.rows.refunded == (s.rows.refunded || (Refunds(ended, p) && s.funded))
  {
    ReleaseDoes(s, w, p, e);
    released := EndEffect(s, w, p, Release);
    EndDoes(released, w, p, Worker, e);
    WorkerGivesUp(released.rows, s.payers[p].base, e, w.now);
    hide EndEffect, GiveUp, EndsPayout;
    ended := EndEffect(released, w, p, EndPayout);
    if Refunds(ended, p) {
      RefundDoes(ended, w, p, e);
      t := EndEffect(ended, w, p, RefundDebit);
    } else {
      t := ended;
    }
  }

  /** The retry path's: the failure's write, the refund if the payout is over, and the cron's note of what no retry can mend. */
  lemma RetryFailureRefines(m: Mode, s: Sub, w: World, p: PayerId, e: PayError, claimed: Time) returns (ended: Sub, t: Sub)
    requires p in s.payers && s.payers[p].role == Pays(RetryPath) && s.payers[p].phase == Failing(e)
    requires s.payers[p].base == s.rows.retryCount && s.rows.lastRetriedAt == Some(claimed)
    ensures CanEnd(m, s, w, p, EndPayout) && ended == EndEffect(s, w, p, EndPayout)
    ensures Refunds(ended, p) ==> CanEnd(m, ended, w, p, RefundDebit)
    ensures t == if Refunds(ended, p) then EndEffect(ended, w, p, RefundDebit) else ended
    ensures RetryFailsAs(s.rows, t.rows, e, Refunds(ended, p), claimed, w.now)
    ensures t.rows.hash == s.rows.hash && t.rows.attempts == s.rows.attempts && t.rows.job == s.rows.job
    ensures t.rows.refunded == (s.rows.refunded || (Refunds(ended, p) && s.funded))
    ensures Notes(t, p) <==> e == NonRetryable || e == AmbiguousSubmit
    ensures Notes(t, p) ==> CanEnd(m, t, w, p, NoteError) && EndEffect(t, w, p, NoteError).rows == CronNote(t.rows)
    ensures !Notes(t, p) ==> p !in t.payers
  {
    EndDoes(s, w, p, RetryPath, e);
    RetryGivesUp(s.rows, e, claimed, w.now);
    hide GiveUp, EndsPayout;
    ended := EndEffect(s, w, p, EndPayout);
    if Refunds(ended, p) {
      RefundDoes(ended, w, p, e);
      t := EndEffect(ended, w, p, RefundDebit);
    } else {
      t := ended;
    }
    NoteDoes(t, w, p);
    hide EndEffect;
  }

  lemma NoteDoes(s: Sub, w: World, p: PayerId)
    ensures Notes(s, p) ==> EndEffect(s, w, p, NoteError).rows == CronNote(s.rows)
  {
  }

  /** A payer that must wait: the worker's job goes back to the queue for free, and only the retry path keeps the claim to lapse. */
  lemma WaitRefines(s: Sub, w: World, p: PayerId)
    requires w.seen <= |w.chain| && p in s.payers && s.payers[p].phase == Unsettled && s.rows.hash == None
    ensures var t := SettleEffect(s, w, p, StandDown);
            && p !in t.payers
            && match s.payers[p].role
               case Pays(RetryPath) => t.rows == s.rows
               case Revives => t.rows == s.rows.(lastRetriedAt := None)
               case Pays(Worker) =>
                 && t.rows == s.rows.(lastRetriedAt := None, job := t.rows.job)
                 && JobMoves(s.rows.job, t.rows.job, Queued, Retries(s.rows.job), CompletedAt(s.rows.job))
  {
    hide Lookup, ClosedPast, VoidAttempt;
  }

  /** An operator's reset and its restore, with nothing in between, leave an unpaid submission as it was. */
  lemma ResetThenRestored(s: Sub, w: World)
    requires AdminReset(s.rows, w.now).Some? && s.rows.hash == None
    ensures var reset := OutsideEffect(s, w, ResetByAdmin);
            && reset.rows == s.rows.(status := Pending, retryCount := 0, lastRetriedAt := None)
            && OriginalsOf(s.rows) in reset.resets
            && OutsideEffect(reset, w, RestoreByAdmin(OriginalsOf(s.rows))) == s
  {
    assert s.resets + multiset{OriginalsOf(s.rows)} - multiset{OriginalsOf(s.rows)} == s.resets;
  }

  /** A hand-back owes a refund exactly when it happened and spent the last retry, and the refund then lands on a funded one. */
  lemma HandBackOwesExactly(s: Sub, w: World, h: Hash)
    requires !s.refundOwed
    ensures var t := OutsideEffect(s, w, SettleFailed(h));
            && (t.refundOwed <==>
                  && s.rows.hash == Some(h) && s.rows.retryCount + 1 >= 5
                  && !(s.rows.status == NeedsReconciliation && s.rows.refunded))
            && (t.refundOwed ==>
                  && t.rows.status == PayoutFailed && t.rows.retryCount >= 5 && t.rows.hash == None
                  && OutsideEffect(t, w, RefundHandBack) == t.(refundOwed := false, rows := t.rows.(refunded := t.rows.refunded || t.funded)))
  {
  }
}
