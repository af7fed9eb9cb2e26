/**
 The payout transactions as they run, in place: one submission's rows are the fields
 of a `SubmissionStore`, its owner's lifetime totals those of a `UserTotals`. Each
 method is proved to do exactly what its specification in `PayoutRows` says, so what
 the step system proves of those functions holds of these writes.
 */
module PayoutStore {
  import opened Wrappers
  import opened StellarChain
  import opened PayoutRows

  /** Of all attempts, only `h` moves, and only from one of these statuses. */
  predicate SettlesOnly(before: map<Hash, Attempt>, after: map<Hash, Attempt>, h: Hash, from: set<AttemptStatus>, to: AttemptStatus) {
    && after.Keys == before.Keys
    && forall g :: g in before ==> after[g] == if g == h && before[g].status in from then before[g].(status := to) else before[g]
  }

  /** The job as it was, apart from its status, its retries and when it completed. */
  predicate JobMoves(before: Option<Job>, after: Option<Job>, status: JobStatus, retryCount: nat, completedAt: Option<Time>) {
    match before
    case None => after == None
    case Some(job) => after == Some(job.(status := status, retryCount := retryCount, completedAt := completedAt))
  }

  function Retries(job: Option<Job>): nat {
    match job case None => 0 case Some(j) => j.retryCount
  }

  function CompletedAt(job: Option<Job>): Option<Time> {
    match job case None => None case Some(j) => j.completedAt
  }

  /** Three tries of a job, five of a submission. */
  predicate TriesLeft(r: Rows) {
    Retries(r.job) + 1 < 3
  }

  /**
   What each failure leaves of the worker's row and job, and whether it ends the payout: an
   unreachable co-signer and an error with tries left go back to the queue, a cap defers to
   the retry path, and only the rest fails the row.
   */
  predicate FailsAs(r: Rows, t: Rows, e: PayError, ends: bool, now: Time) {
    match e
    case CoSignerUnavailable =>
      && !ends && t.status == r.status && t.retryCount == r.retryCount && t.error == r.error
      && JobMoves(r.job, t.job, Queued, Retries(r.job), CompletedAt(r.job))
    case CapReached =>
      && !ends && t.status == Pending && t.retryCount == r.retryCount && t.error == r.error
      && JobMoves(r.job, t.job, JobFailed, Retries(r.job), Some(now))
    case NonRetryable => ends && Fails(t) && JobMoves(r.job, t.job, JobFailed, 3, Some(now))
    case AmbiguousSubmit => !ends && Fails(t) && JobMoves(r.job, t.job, JobFailed, 3, Some(now))
    case _ =>
      if TriesLeft(r)
      then !ends && t.status == r.status && t.retryCount == r.retryCount && t.error == r.error
           && JobMoves(r.job, t.job, Queued, Retries(r.job) + 1, CompletedAt(r.job))
      else ends && Fails(t) && JobMoves(r.job, t.job, JobFailed, Retries(r.job) + 1, Some(now))
  }

  predicate Fails(t: Rows) {
    t.status == PayoutFailed && t.retryCount == 5 && t.error == OtherError
  }

  class UserTotals {
    var earnedUnits: int
    var submissionCount: int

    constructor (earned: int, count: int)
      ensures earnedUnits == earned && submissionCount == count
    {
      earnedUnits, submissionCount := earned, count;
    }

    /** Undo one credit, when the totals can bear it. */
    method TakeBack(units: nat)
      modifies this
      ensures var undo := old(earnedUnits) >= units && old(submissionCount) > 0;
              && earnedUnits == old(earnedUnits) - (if undo then units else 0)
              && submissionCount == old(submissionCount) - (if undo then 1 else 0)
    {
      if earnedUnits >= units && submissionCount > 0 {
        earnedUnits, submissionCount := earnedUnits - units, submissionCount - 1;
      }
    }
  }

  class SubmissionStore {
    const amount: nat
    var status: PayoutStatus
    var hash: Option<Hash>
    var retryCount: nat
    var lastRetriedAt: Option<Time>
    var error: PayoutError
    var attempts: map<Hash, Attempt>
    var job: Option<Job>
    var refunded: bool

    function View(): Rows
      reads this
    {
      Rows(amount, status, hash, retryCount, lastRetriedAt, error, attempts, job, refunded)
    }

    constructor (r: Rows)
      ensures View() == r
    {
      amount, status, hash, retryCount, lastRetriedAt := r.amount, r.status, r.hash, r.retryCount, r.lastRetriedAt;
      error, attempts, job, refunded := r.error, r.attempts, r.job, r.refunded;
    }

    // ----- the journal -----

    /** `journal.open`: false is the thrown refusal, or the unique index's. */
    method Open(h: Hash, expiresAt: Time, now: Time) returns (ok: bool)
      modifies this`attempts
      ensures ok <==> OpenAttempt(old(View()), h, expiresAt, now).Some?
      ensures View() == if ok then OpenAttempt(old(View()), h, expiresAt, now).value else old(View())
      ensures ok <==> old(hash) == None && (old(status) == Pending || old(status) == PayoutFailed) && h !in old(attempts)
                      && (forall g :: g in old(attempts) ==> old(attempts)[g].status != AttemptStatus.Open)
      ensures attempts == if ok then old(attempts)[h := Attempt(AttemptStatus.Open, expiresAt, now)] else old(attempts)
    {
      if hash != None || !(status.Pending? || status.PayoutFailed?) { return false; }
      assert HasOpen(attempts) <==> exists g :: g in attempts && attempts[g].status == AttemptStatus.Open;
      if HasOpen(attempts) || h in attempts { return false; }
      attempts := attempts[h := Attempt(AttemptStatus.Open, expiresAt, now)];
      ok := true;
    }

    method Confirm(h: Hash)
      modifies this`attempts
      ensures View() == ConfirmAttempt(old(View()), h)
      ensures SettlesOnly(old(attempts), attempts, h, {AttemptStatus.Open}, Landed)
    {
      if h in attempts && attempts[h].status.Open? {
        attempts := attempts[h := attempts[h].(status := Landed)];
      }
    }

    method VoidOpen(h: Hash)
      modifies this`attempts
      ensures View() == VoidAttempt(old(View()), h)
      ensures SettlesOnly(old(attempts), attempts, h, {AttemptStatus.Open}, Void)
    {
      if h in attempts && attempts[h].status.Open? {
        attempts := attempts[h := attempts[h].(status := Void)];
      }
    }

    /** Void an attempt that is open or confirmed. */
    method VoidSettled(h: Hash)
      modifies this`attempts
      ensures attempts == if h in old(attempts) && old(attempts)[h].status != Void then SetAttempt(old(attempts), h, Void) else old(attempts)
      ensures SettlesOnly(old(attempts), attempts, h, {AttemptStatus.Open, Landed}, Void)
    {
      if h in attempts && attempts[h].status != Void {
        attempts := attempts[h := attempts[h].(status := Void)];
      }
    }

    // ----- the claim -----

    method Claim(now: Time) returns (claimed: bool)
      modifies this`lastRetriedAt
      ensures claimed <==> ClaimForRetry(old(View()), now).Some?
      ensures View() == if claimed then ClaimForRetry(old(View()), now).value else old(View())
      ensures claimed <==> (status == Pending || status == PayoutFailed || status == Abandoned) && hash == None && !refunded
                           && (old(lastRetriedAt) == None || now - old(lastRetriedAt).value >= 60_000)
      ensures lastRetriedAt == if claimed then Some(now) else old(lastRetriedAt)
    {
      if Terminal(status) { return false; }
      if hash.Some? { return false; }
      if RetryClaimIsLive(lastRetriedAt, now) { return false; }
      if refunded { return false; }
      lastRetriedAt := Some(now);
      claimed := true;
    }

    method Beat(now: Time)
      modifies this`lastRetriedAt
      ensures View() == Heartbeat(old(View()), now)
      ensures lastRetriedAt == if hash == None then Some(now) else old(lastRetriedAt)
    {
      if hash == None {
        lastRetriedAt := Some(now);
      }
    }

    method Release()
      modifies this`lastRetriedAt
      ensures View() == ReleaseClaim(old(View()))
      ensures lastRetriedAt == if hash == None then None else old(lastRetriedAt)
    {
      if hash == None {
        lastRetriedAt := None;
      }
    }

    // ----- recording -----

    /**
     The worker's record callback. False is a rollback: no job row, or a hash that is
     not this one. The owner is credited only by the run that moves the row to `sent`.
     */
    method RecordAsWorker(h: Hash, at: Time, user: UserTotals) returns (committed: bool)
      modifies this`job, this`status, this`hash, this`attempts, user
      ensures var recorded := RecordPayment(Worker, old(View()), h, at);
              && (committed <==> recorded != Refused)
              && View() == (if committed then recorded.rows else old(View()))
              && user.earnedUnits == old(user.earnedUnits) + (if recorded.Fresh? then amount else 0)
              && user.submissionCount == old(user.submissionCount) + (if recorded.Fresh? then 1 else 0)
              && (recorded.Fresh? <==> committed && old(hash) == None)
      ensures committed <==> old(job).Some? && (old(hash) == None || old(hash) == Some(h))
      ensures committed ==> hash == Some(h) && status == (if old(hash) == None then Sent else old(status))
      ensures committed ==> job == Some(old(job).value.(txHash := Some(h), amountUnits := Some(amount), broadcastAt := Some(at)))
      ensures if committed && old(hash) == None then SettlesOnly(old(attempts), attempts, h, {AttemptStatus.Open}, Landed)
              else attempts == old(attempts)
    {
      if job == None { return false; }
      if hash.Some? && hash.value != h { return false; }
      job := Some(job.value.(txHash := Some(h), amountUnits := Some(amount), broadcastAt := Some(at)));
      if hash == None {
        status, hash := Sent, Some(h);
        Confirm(h);
        user.earnedUnits, user.submissionCount := user.earnedUnits + amount, user.submissionCount + 1;
      }
      committed := true;
    }

    /** The retry path's record callback: the job row is written only by the run that wins the hash. */
    method RecordAsRetry(h: Hash, at: Time, user: UserTotals) returns (committed: bool)
      modifies this`job, this`status, this`hash, this`attempts, this`lastRetriedAt, user
      ensures var recorded := RecordPayment(RetryPath, old(View()), h, at);
              && (committed <==> recorded != Refused)
              && View() == (if committed then recorded.rows else old(View()))
              && user.earnedUnits == old(user.earnedUnits) + (if recorded.Fresh? then amount else 0)
              && user.submissionCount == old(user.submissionCount) + (if recorded.Fresh? then 1 else 0)
              && (recorded.Fresh? <==> old(hash) == None)
      ensures committed <==> old(hash) == None || old(hash) == Some(h)
      ensures old(hash) == None ==>
                && status == Sent && hash == Some(h) && lastRetriedAt == Some(at)
                && job == Some(Job(Done, Retries(old(job)), Some(h), Some(amount), Some(at), Some(at)))
                && SettlesOnly(old(attempts), attempts, h, {AttemptStatus.Open}, Landed)
      ensures old(hash).Some? ==> unchanged(this)
    {
      if hash.Some? { return hash.value == h; }
      status, hash, lastRetriedAt := Sent, Some(h), Some(at);
      Confirm(h);
      user.earnedUnits, user.submissionCount := user.earnedUnits + amount, user.submissionCount + 1;
      var count := if job.Some? then job.value.retryCount else 0;
      job := Some(Job(Done, count, Some(h), Some(amount), Some(at), Some(at)));
      committed := true;
    }

    method QuarantineRow(kind: PayerKind, h: Hash, now: Time)
      modifies this`status, this`hash, this`job, this`lastRetriedAt
      ensures View() == Quarantine(kind, old(View()), h, now)
      ensures status == NeedsReconciliation && hash == Some(h)
      ensures kind == Worker ==> lastRetriedAt == old(lastRetriedAt) && JobMoves(old(job), job, JobFailed, 3, Some(now))
      ensures kind == RetryPath ==> lastRetriedAt == Some(now) && job == old(job)
    {
      status, hash := NeedsReconciliation, Some(h);
      if kind == RetryPath {
        lastRetriedAt := Some(now);
      } else if job.Some? {
        job := Some(job.value.(status := JobFailed, retryCount := WORKER_MAX_RETRIES, completedAt := Some(now)));
      }
    }

    // ----- settling on Horizon's word -----

    method RepairJobTuple(h: Hash, now: Time)
      modifies this`job
      ensures View() == RepairTuple(old(View()), h, now)
      ensures old(job).Some? && old(job).value.txHash == Some(h) && old(job).value.amountUnits.Some? && old(job).value.broadcastAt.Some? ==>
                job == old(job)
      ensures job == old(job) || (
                var dated := if h in attempts then attempts[h].createdAt
                             else if CompletedAt(old(job)).Some? then CompletedAt(old(job)).value else now;
                job == Some(Job(Done, Retries(old(job)), Some(h), Some(amount), Some(dated), Some(now))))
      ensures job.Some? && job.value.txHash == Some(h) && job.value.amountUnits.Some? && job.value.broadcastAt.Some?
    {
      if job.Some? && job.value.txHash == Some(h) && job.value.amountUnits.Some? && job.value.broadcastAt.Some? {
        return;
      }
      var broadcastAt := now;
      if h in attempts {
        broadcastAt := attempts[h].createdAt;
      } else if job.Some? && job.value.completedAt.Some? {
        broadcastAt := job.value.completedAt.value;
      }
      var count := if job.Some? then job.value.retryCount else 0;
      job := Some(Job(Done, count, Some(h), Some(amount), Some(broadcastAt), Some(now)));
    }

    /** `settleConfirmedPayment`: a held row is confirmed, credited and repaired in one write; a sent one was credited already. */
    method SettleConfirmed(h: Hash, from: PayoutStatus, matches: bool, now: Time, user: UserTotals)
      requires (from.Sent? || from.NeedsReconciliation?)
      modifies this`status, this`error, this`lastRetriedAt, this`attempts, this`job, user
      ensures View() == if matches then ConfirmPayment(old(View()), h, from, now) else HoldMismatch(old(View()), h, from)
      ensures var credit := matches && from == NeedsReconciliation && Unchanged(old(View()), from, h);
              && user.earnedUnits == old(user.earnedUnits) + (if credit then amount else 0)
              && user.submissionCount == old(user.submissionCount) + (if credit then 1 else 0)
              && (credit <==> matches && from == NeedsReconciliation && old(status) == from && old(hash) == Some(h))
      ensures hash == old(hash)
      ensures old(status) != from || old(hash) != Some(h) ==> unchanged(this)
      ensures old(status) == from && old(hash) == Some(h) && matches ==>
                && status == PayoutConfirmed && error == NoError && lastRetriedAt == Some(now)
                && (from == Sent ==> attempts == old(attempts) && job == old(job))
                && (from == NeedsReconciliation ==>
                      && SettlesOnly(old(attempts), attempts, h, {AttemptStatus.Open}, Landed)
                      && job.Some? && job.value.txHash == Some(h) && job.value.amountUnits.Some? && job.value.broadcastAt.Some?)
      ensures old(status) == from && old(hash) == Some(h) && !matches ==>
                status == NeedsReconciliation && error == MismatchMark
                && lastRetriedAt == old(lastRetriedAt) && attempts == old(attempts) && job == old(job)
    {
      if status != from || hash != Some(h) { return; }
      if !matches {
        if from == Sent || error != MismatchMark {
          status, error := NeedsReconciliation, MismatchMark;
        }
        return;
      }
      status, error, lastRetriedAt := PayoutConfirmed, NoError, Some(now);
      if from == NeedsReconciliation {
        Confirm(h);
        user.earnedUnits, user.submissionCount := user.earnedUnits + amount, user.submissionCount + 1;
        RepairJobTuple(h, now);
      }
    }

    /** `handBackFailedPayment`: undo the record, and the credit of a `sent` row when the totals can bear it. */
    method HandBackFailed(h: Hash, from: PayoutStatus, user: UserTotals) returns (handedBack: bool)
      requires (from.Sent? || from.NeedsReconciliation?)
      modifies this`status, this`hash, this`retryCount, this`lastRetriedAt, this`error, this`attempts, this`job, user
      ensures handedBack <==> HandsBack(old(View()), h, from)
      ensures View() == HandBack(old(View()), h, from)
      ensures handedBack <==> old(status) == from && old(hash) == Some(h) && !(from == NeedsReconciliation && refunded)
      ensures handedBack ==>
                && status == PayoutFailed && hash == None && retryCount == old(retryCount) + 1 && lastRetriedAt == None
                && error == OtherError && SettlesOnly(old(attempts), attempts, h, {AttemptStatus.Open, Landed}, Void)
                && (if old(job).Some? && old(job).value.txHash == Some(h)
                    then JobMoves(old(job), job, JobFailed, Retries(old(job)), CompletedAt(old(job))) else job == old(job))
      ensures !handedBack ==> unchanged(this)
      ensures var undo := handedBack && from == Sent && old(user.earnedUnits) >= amount && old(user.submissionCount) > 0;
              && user.earnedUnits == old(user.earnedUnits) - (if undo then amount else 0)
              && user.submissionCount == old(user.submissionCount) - (if undo then 1 else 0)
    {
      if status != from || hash != Some(h) || (from == NeedsReconciliation && refunded) { return false; }
      status, hash, retryCount, lastRetriedAt, error := PayoutFailed, None, retryCount + 1, None, OtherError;
      VoidSettled(h);
      if from == Sent {
        user.TakeBack(amount);
      }
      FailJobOf(h);
      handedBack := true;
    }

    method FailJobOf(h: Hash)
      modifies this`job
      ensures job == if old(job).Some? && old(job).value.txHash == Some(h) then Some(old(job).value.(status := JobFailed)) else old(job)
    {
      if job.Some? && job.value.txHash == Some(h) {
        job := Some(job.value.(status := JobFailed));
      }
    }

    // ----- revival and operators -----

    method ReviveRow()
      modifies this`status, this`retryCount, this`lastRetriedAt, this`error
      ensures View() == Revive(old(View()))
      ensures hash == None ==> status == PayoutFailed && retryCount == 0 && lastRetriedAt == None && error == OtherError
      ensures hash.Some? ==> unchanged(this)
    {
      if hash == None {
        status, retryCount, lastRetriedAt, error := PayoutFailed, 0, None, OtherError;
      }
    }

    /** Phase 1 of the admin retry route; false is its refusal. */
    method ResetForRetry(now: Time) returns (reset: bool)
      modifies this`retryCount, this`lastRetriedAt, this`status
      ensures reset <==> AdminReset(old(View()), now).Some?
      ensures View() == if reset then AdminReset(old(View()), now).value else old(View())
      ensures reset <==> (old(status) == PayoutFailed || old(status) == Abandoned) && !refunded
                         && (old(lastRetriedAt) == None || now - old(lastRetriedAt).value >= 60_000)
      ensures reset ==> status == Pending && retryCount == 0 && lastRetriedAt == None
      ensures !reset ==> unchanged(this)
    {
      if !(status.PayoutFailed? || status.Abandoned?) { return false; }
      if RetryClaimIsLive(lastRetriedAt, now) || refunded { return false; }
      retryCount, lastRetriedAt, status := 0, None, Pending;
      reset := true;
    }

    // ----- giving up -----

    /** The worker's failure branches, in the source's order. */
    method WorkerFails(e: PayError, now: Time) returns (ends: bool)
      modifies this`status, this`retryCount, this`error, this`job
      ensures View() == GiveUp(Worker, old(View()), 0, e, now)
      ensures ends <==> EndsPayout(Worker, old(View()), 0, e)
      ensures FailsAs(old(View()), View(), e, ends, now)
    {
      if e == CoSignerUnavailable {
        SetJob(Queued, 0, false, now);
        return false;
      }
      if e == CapReached {
        status := Pending;
        SetJob(JobFailed, 0, true, now);
        return false;
      }
      if e == NonRetryable || e == AmbiguousSubmit {
        status, retryCount, error := PayoutFailed, SUBMISSION_RETRY_BUDGET, OtherError;
        if job.Some? {
          job := Some(job.value.(status := JobFailed, retryCount := WORKER_MAX_RETRIES, completedAt := Some(now)));
        }
        return e == NonRetryable;
      }
      var newRetryCount := (if job.Some? then job.value.retryCount else 0) + 1;
      if newRetryCount >= WORKER_MAX_RETRIES {
        status, retryCount, error := PayoutFailed, SUBMISSION_RETRY_BUDGET, OtherError;
        SetJob(JobFailed, 1, true, now);
        return true;
      }
      SetJob(Queued, 1, false, now);
      ends := false;
    }

    method SetJob(s: JobStatus, spent: nat, finished: bool, now: Time)
      modifies this`job
      ensures job == if old(job) == None then None
                     else Some(old(job).value.(status := s, retryCount := old(job).value.retryCount + spent,
                                               completedAt := if finished then Some(now) else old(job).value.completedAt))
    {
      if job.Some? {
        job := Some(job.value.(status := s, retryCount := job.value.retryCount + spent,
                               completedAt := if finished then Some(now) else job.value.completedAt));
      }
    }

    /** The retry path's failure branches. */
    method RetryFails(base: nat, e: PayError, now: Time) returns (ends: bool)
      modifies this`status, this`retryCount, this`lastRetriedAt
      ensures View() == GiveUp(RetryPath, old(View()), base, e, now)
      ensures ends <==> EndsPayout(RetryPath, old(View()), base, e)
      ensures ends <==> e == NonRetryable || (e == Retryable && base + 1 >= 5)
      ensures e == CapReached ==> status == Pending && retryCount == old(retryCount) && lastRetriedAt == old(lastRetriedAt)
      ensures e == CoSignerUnavailable ==> unchanged(this)
      ensures e != CapReached && e != CoSignerUnavailable ==>
                && status == PayoutFailed && lastRetriedAt == Some(now)
                && retryCount == (if e == NonRetryable || e == AmbiguousSubmit then 5 else base + 1)
    {
      if e == CapReached {
        status := Pending;
        return false;
      }
      if e == CoSignerUnavailable {
        return false;
      }
      var ambiguous := e == AmbiguousSubmit || e == ExpiredUnincluded;
      var nonRetryable := e == NonRetryable || e == AmbiguousSubmit;
      var newRetryCount := if nonRetryable then SUBMISSION_RETRY_BUDGET else base + 1;
      status, retryCount, lastRetriedAt := PayoutFailed, newRetryCount, Some(now);
      ends := newRetryCount >= SUBMISSION_RETRY_BUDGET && !ambiguous;
    }
  }
}
