/**
 One submission's payout rows: the submission row, its journalled envelopes, its
 payout job, and whether the campaign ledger names it in a refund. Every database
 transaction of the payout rail is one function here; `PayoutStore` carries the
 same transactions out in place.
 */
module PayoutRows {
  import opened Wrappers
  import opened StellarChain

  /** `payoutStatus`. `Abandoned` is written only by the retry cron's sweep. */
  datatype PayoutStatus = Pending | PayoutFailed | Abandoned | Sent | PayoutConfirmed | Skipped | NeedsReconciliation

  /** `payoutError`, as far as any rule reads it: only the mismatch mark matters. */
  datatype PayoutError = NoError | MismatchMark | OtherError

  datatype AttemptStatus = Open | Landed | Void

  /** One row of `payout_attempts`. `Landed` is the source's `confirmed`. */
  datatype Attempt = Attempt(status: AttemptStatus, expiresAt: Time, createdAt: Time)

  datatype JobStatus = Queued | Processing | Done | JobFailed

  datatype Job = Job(status: JobStatus, retryCount: nat, txHash: Option<Hash>, amountUnits: Option<nat>,
                     broadcastAt: Option<Time>, completedAt: Option<Time>)

  datatype Rows = Rows(amount: nat, status: PayoutStatus, hash: Option<Hash>, retryCount: nat,
                       lastRetriedAt: Option<Time>, error: PayoutError, attempts: map<Hash, Attempt>,
                       job: Option<Job>, refunded: bool)

  const RETRY_CLAIM_LEASE_MS: nat := 60_000
  const SUBMISSION_RETRY_BUDGET: nat := 5
  const WORKER_MAX_RETRIES: nat := 3

  /**
   Why a payout attempt ended without a broadcast hash. `ExpiredUnincluded` is the
   retryable form of `ambiguous_submit`: the worker reads its `retryable` flag, the
   retry path its code.
   */
  datatype PayError = CapReached | CoSignerUnavailable | NonRetryable | AmbiguousSubmit | ExpiredUnincluded | Retryable

  /** The two broadcasting payers. */
  datatype PayerKind = Worker | RetryPath

  // ----- the journal -----

  predicate Payable(r: Rows) {
    r.hash == None && (r.status.Pending? || r.status.PayoutFailed?)
  }

  predicate OpenIn(attempts: map<Hash, Attempt>, h: Hash) {
    h in attempts && attempts[h].status == Open
  }

  predicate HasOpen(attempts: map<Hash, Attempt>) {
    exists h :: h in attempts && OpenIn(attempts, h)
  }

  /** `journal.open`: refused unless payable, under the one-open and unique-hash indexes. */
  function OpenAttempt(r: Rows, h: Hash, expiresAt: Time, now: Time): Option<Rows> {
    if !Payable(r) || HasOpen(r.attempts) || h in r.attempts then None
    else Some(r.(attempts := r.attempts[h := Attempt(Open, expiresAt, now)]))
  }

  function SetAttempt(attempts: map<Hash, Attempt>, h: Hash, status: AttemptStatus): map<Hash, Attempt>
    requires h in attempts
  {
    attempts[h := attempts[h].(status := status)]
  }

  /** `confirmAttempt`: only an open attempt becomes confirmed. */
  function ConfirmAttempt(r: Rows, h: Hash): Rows {
    if OpenIn(r.attempts, h) then r.(attempts := SetAttempt(r.attempts, h, Landed)) else r
  }

  /** `voidAttempt`: only an open attempt becomes void. */
  function VoidAttempt(r: Rows, h: Hash): Rows {
    if OpenIn(r.attempts, h) then r.(attempts := SetAttempt(r.attempts, h, Void)) else r
  }

  // ----- the claim -----

  predicate RetryClaimIsLive(lastRetriedAt: Option<Time>, now: Time) {
    lastRetriedAt.Some? && now - lastRetriedAt.value < RETRY_CLAIM_LEASE_MS
  }

  predicate Terminal(status: PayoutStatus) {
    (status.PayoutConfirmed? || status.Sent? || status.Skipped? || status.NeedsReconciliation?)
  }

  predicate Claimable(r: Rows, now: Time) {
    && !Terminal(r.status)
    && r.hash == None
    && !RetryClaimIsLive(r.lastRetriedAt, now)
    && !r.refunded
  }

  /** `claimForRetry`, under the per-wallet advisory lock. */
  function ClaimForRetry(r: Rows, now: Time): Option<Rows> {
    if Claimable(r, now) then Some(r.(lastRetriedAt := Some(now))) else None
  }

  /** One heartbeat: a no-op once a hash is recorded. */
  function Heartbeat(r: Rows, now: Time): Rows {
    if r.hash == None then r.(lastRetriedAt := Some(now)) else r
  }

  /** `releaseClaim`: a no-op once a hash is recorded. */
  function ReleaseClaim(r: Rows): Rows {
    if r.hash == None then r.(lastRetriedAt := None) else r
  }

  // ----- recording an accepted payment -----

  /** What one run of the record callback did: rolled back, found its own earlier commit, or recorded. */
  datatype Recorded = Refused | Replay(rows: Rows) | Fresh(rows: Rows)

  function RecordPayment(kind: PayerKind, r: Rows, h: Hash, at: Time): Recorded {
    match kind
    case Worker =>
      if r.job == None then Refused
      else
        var job := r.job.value.(txHash := Some(h), amountUnits := Some(r.amount), broadcastAt := Some(at));
        var tuple := r.(job := Some(job));
        if r.hash == None then Fresh(ConfirmAttempt(tuple.(status := Sent, hash := Some(h)), h))
        else if r.hash == Some(h) then Replay(tuple)
        else Refused
    case RetryPath =>
      if r.hash == None then
        var count := if r.job.Some? then r.job.value.retryCount else 0;
        var job := Job(Done, count, Some(h), Some(r.amount), Some(at), Some(at));
        Fresh(ConfirmAttempt(r.(status := Sent, hash := Some(h), lastRetriedAt := Some(at)), h).(job := Some(job)))
      else if r.hash == Some(h) then Replay(r)
      else Refused
  }

  /** Take a paid-but-unrecorded payment out of every automatic path. Unconditional in the source. */
  function Quarantine(kind: PayerKind, r: Rows, h: Hash, now: Time): Rows {
    match kind
    case Worker =>
      r.(status := NeedsReconciliation, hash := Some(h),
         job := Finished(JobWith(r.job, JobFailed, WORKER_MAX_RETRIES), now))
    case RetryPath =>
      r.(status := NeedsReconciliation, hash := Some(h), lastRetriedAt := Some(now))
  }

  // ----- giving up -----

  /** The retry count the retry path writes for a failed attempt claimed at count `base`. */
  function RetryCountAfter(base: nat, e: PayError): nat {
    if (e.NonRetryable? || e.AmbiguousSubmit?) then SUBMISSION_RETRY_BUDGET else base + 1
  }

  /** The worker's next job retry count, zero retries being counted for a missing job. */
  function NextJobRetry(r: Rows): nat {
    (if r.job.Some? then r.job.value.retryCount else 0) + 1
  }

  predicate WorkerExhausted(r: Rows) {
    NextJobRetry(r) >= WORKER_MAX_RETRIES
  }

  /** Does this failure end the payout, so that its campaign debit is returned? */
  predicate EndsPayout(kind: PayerKind, r: Rows, base: nat, e: PayError) {
    match kind
    case Worker => e == NonRetryable || ((e.Retryable? || e.ExpiredUnincluded?) && WorkerExhausted(r))
    case RetryPath => (e.NonRetryable? || e.Retryable?) && RetryCountAfter(base, e) >= SUBMISSION_RETRY_BUDGET
  }

  /** The write each payer makes for a payout that ended without a hash. Unconditional in the source. */
  function GiveUp(kind: PayerKind, r: Rows, base: nat, e: PayError, now: Time): Rows {
    match kind
    case Worker =>
      if e == CoSignerUnavailable then r.(job := JobWith(r.job, Queued, NextJobRetry(r) - 1))
      else if e == CapReached then r.(status := Pending, job := Finished(JobWith(r.job, JobFailed, NextJobRetry(r) - 1), now))
      else if (e.Retryable? || e.ExpiredUnincluded?) && !WorkerExhausted(r) then r.(job := JobWith(r.job, Queued, NextJobRetry(r)))
      else
        var retries := if (e.Retryable? || e.ExpiredUnincluded?) then NextJobRetry(r) else WORKER_MAX_RETRIES;
        r.(status := PayoutFailed, retryCount := SUBMISSION_RETRY_BUDGET, error := OtherError,
           job := Finished(JobWith(r.job, JobFailed, retries), now))
    case RetryPath =>
      if e == CapReached then r.(status := Pending)
      else if e == CoSignerUnavailable then r
      else r.(status := PayoutFailed, retryCount := RetryCountAfter(base, e), lastRetriedAt := Some(now))
  }

  function JobWith(job: Option<Job>, status: JobStatus, retryCount: nat): Option<Job> {
    if job == None then None else Some(job.value.(status := status, retryCount := retryCount))
  }

  function Finished(job: Option<Job>, now: Time): Option<Job> {
    if job == None then None else Some(job.value.(completedAt := Some(now)))
  }

  // ----- settling on Horizon's word -----

  /** A write conditional on the row still being where it was read, under this hash. */
  predicate Unchanged(r: Rows, from: PayoutStatus, h: Hash) {
    r.status == from && r.hash == Some(h)
  }

  /** `repairPayoutJobTuple`: the tuple a quarantine never wrote, dated by the journal when it can be. */
  function RepairTuple(r: Rows, h: Hash, now: Time): Rows {
    if r.job.Some? && r.job.value.txHash == Some(h) && r.job.value.amountUnits.Some? && r.job.value.broadcastAt.Some?
    then r
    else
      var at := if h in r.attempts then r.attempts[h].createdAt
                else if r.job.Some? && r.job.value.completedAt.Some? then r.job.value.completedAt.value
                else now;
      var count := if r.job.Some? then r.job.value.retryCount else 0;
      r.(job := Some(Job(Done, count, Some(h), Some(r.amount), Some(at), Some(now))))
  }

  /** `settleConfirmedPayment` with a matching envelope. A held row is confirmed, credited and repaired in one write. */
  function ConfirmPayment(r: Rows, h: Hash, from: PayoutStatus, now: Time): Rows {
    if !Unchanged(r, from, h) then r
    else
      var confirmed := r.(status := PayoutConfirmed, error := NoError, lastRetriedAt := Some(now));
      if from == Sent then confirmed else RepairTuple(ConfirmAttempt(confirmed, h), h, now)
  }

  /** `settleConfirmedPayment` with an envelope that paid something else: held for a human. */
  function HoldMismatch(r: Rows, h: Hash, from: PayoutStatus): Rows {
    if Unchanged(r, from, h) && (from == NeedsReconciliation ==> r.error != MismatchMark)
    then r.(status := NeedsReconciliation, error := MismatchMark)
    else r
  }

  predicate HandsBack(r: Rows, h: Hash, from: PayoutStatus) {
    Unchanged(r, from, h) && (from == NeedsReconciliation ==> !r.refunded)
  }

  /** `handBackFailedPayment`: undo the record of an envelope that was included and failed. */
  function HandBack(r: Rows, h: Hash, from: PayoutStatus): Rows {
    if !HandsBack(r, h, from) then r
    else
      var attempts := if h in r.attempts && r.attempts[h].status != Void then SetAttempt(r.attempts, h, Void) else r.attempts;
      var job := if r.job.Some? && r.job.value.txHash == Some(h) then Some(r.job.value.(status := JobFailed)) else r.job;
      r.(status := PayoutFailed, hash := None, retryCount := r.retryCount + 1, lastRetriedAt := None,
         error := OtherError, attempts := attempts, job := job)
  }

  // ----- revival and operators -----

  /** `revive`'s last write: a proven row goes back to the retry path. */
  function Revive(r: Rows): Rows {
    if r.hash == None then r.(status := PayoutFailed, retryCount := 0, lastRetriedAt := None, error := OtherError) else r
  }

  /** Phase 1 of the admin retry route. */
  function AdminReset(r: Rows, now: Time): Option<Rows> {
    if (r.status.PayoutFailed? || r.status.Abandoned?) && !RetryClaimIsLive(r.lastRetriedAt, now) && !r.refunded
    then Some(r.(retryCount := 0, lastRetriedAt := None, status := Pending))
    else None
  }

  /** Does the admin route's restore write anything to this row? */
  predicate Restores(r: Rows) {
    r.hash == None && r.status == Pending && r.retryCount < SUBMISSION_RETRY_BUDGET && !r.refunded
  }

  /** The admin route's restore after a failed retry, to the row as phase 1 read it. */
  function AdminRestore(r: Rows, status: PayoutStatus, count: nat, lease: Option<Time>): Rows {
    if Restores(r)
    then r.(status := status, retryCount := count, lastRetriedAt := lease)
    else r
  }

  /** The retry cron's abandon sweep. */
  function AbandonSweep(r: Rows): Rows {
    if (r.status.PayoutFailed? || r.status.Pending?) && r.retryCount >= SUBMISSION_RETRY_BUDGET then r.(status := Abandoned) else r
  }

  /** The retry cron's note for a non-retryable error it caught. Unconditional in the source. */
  function CronNote(r: Rows): Rows {
    r.(retryCount := SUBMISSION_RETRY_BUDGET, error := OtherError)
  }

  // ----- replays change nothing -----

  /** Running the record callback again after it committed changes no row and is never fresh. */
  lemma RecordIsReplaySafe(kind: PayerKind, r: Rows, h: Hash, at: Time)
    requires RecordPayment(kind, r, h, at) != Refused
    ensures RecordPayment(kind, RecordPayment(kind, r, h, at).rows, h, at) == Replay(RecordPayment(kind, r, h, at).rows)
  {
  }

  /** A second reader of the same Horizon answer changes nothing. */
  lemma ReconcileIsReplaySafe(r: Rows, h: Hash, from: PayoutStatus, now: Time, later: Time)
    requires (from.Sent? || from.NeedsReconciliation?)
    ensures ConfirmPayment(ConfirmPayment(r, h, from, now), h, from, later) == ConfirmPayment(r, h, from, now)
    ensures HoldMismatch(HoldMismatch(r, h, from), h, from) == HoldMismatch(r, h, from)
    ensures HandBack(HandBack(r, h, from), h, from) == HandBack(r, h, from)
  {
  }

  /** Recording settles at most the recorded attempt, and leaves exactly that hash on the row. */
  lemma RecordSettlesOnly(kind: PayerKind, r: Rows, h: Hash, at: Time)
    requires RecordPayment(kind, r, h, at) != Refused
    ensures var t := RecordPayment(kind, r, h, at).rows;
            && t.hash == Some(h) && (r.hash == None || r.hash == Some(h)) && t.amount == r.amount && t.refunded == r.refunded
            && t.attempts == if r.hash == None then ConfirmAttempt(r, h).attempts else r.attempts
  {
  }

  /** So does confirming a payment, and it never changes the row's hash. */
  lemma ConfirmSettlesOnly(r: Rows, h: Hash, from: PayoutStatus, now: Time)
    ensures var t := ConfirmPayment(r, h, from, now);
            && t.hash == r.hash && t.amount == r.amount && t.refunded == r.refunded
            && (t.attempts == r.attempts || (r.hash == Some(h) && t.attempts == ConfirmAttempt(r, h).attempts))
  {
  }

  /** A payer's failure writes touch neither the hash, the journal nor the amount. */
  lemma GiveUpLeavesJournal(kind: PayerKind, r: Rows, base: nat, e: PayError, now: Time)
    ensures var t := GiveUp(kind, r, base, e, now);
            t.hash == r.hash && t.attempts == r.attempts && t.amount == r.amount && t.refunded == r.refunded
  {
  }

  // ----- the cron and the operators -----

  /** The sweep leaves no row offered with its budget spent, and touches none that has some left. */
  lemma SweepEndsTheSpent(r: Rows)
    ensures var t := AbandonSweep(r);
            && !((t.status == Pending || t.status == PayoutFailed) && t.retryCount >= 5)
            && t == r.(status := t.status)
            && (t.status != r.status <==> (r.status == Pending || r.status == PayoutFailed) && r.retryCount >= 5)
            && (t.status != r.status ==> t.status == Abandoned)
  {
  }

  /** A note takes the row off the cron's list, whatever its status, and changes nothing a payer reads. */
  lemma NoteEndsTheRow(r: Rows)
    ensures CronNote(r).retryCount == 5 && CronNote(r) == r.(retryCount := 5, error := CronNote(r).error)
    ensures AbandonSweep(CronNote(r)).status == (if r.status == Pending || r.status == PayoutFailed then Abandoned else r.status)
  {
  }

  /** The restore writes exactly what it was given, and only to a row that still waits as the reset left it, with retries left. */
  lemma RestoreExactly(r: Rows, status: PayoutStatus, count: nat, lease: Option<Time>)
    ensures AdminRestore(r, status, count, lease) ==
              if r.hash == None && r.status == Pending && r.retryCount < 5 && !r.refunded
              then r.(status := status, retryCount := count, lastRetriedAt := lease) else r
  {
  }

  /** An admin retry that comes to nothing is undone exactly when the row carries no hash: it is then as it was read. */
  lemma RestoreUndoesReset(r: Rows, now: Time)
    requires AdminReset(r, now).Some?
    ensures var reset := AdminReset(r, now).value;
            && Restores(reset) == (r.hash == None)
            && (AdminRestore(reset, r.status, r.retryCount, r.lastRetriedAt) == r <==> r.hash == None)
            && (r.hash.Some? ==> AdminRestore(reset, r.status, r.retryCount, r.lastRetriedAt) == reset)
  {
  }

  // ----- what a failure spends, and what a hand-back undoes -----

  /** A payout that ends leaves every automatic path: failed, its budget spent, and swept as abandoned. */
  lemma EndedLeavesRetryPath(kind: PayerKind, r: Rows, base: nat, e: PayError, now: Time)
    requires EndsPayout(kind, r, base, e)
    ensures var t := GiveUp(kind, r, base, e, now);
            && t.status == PayoutFailed && t.retryCount >= SUBMISSION_RETRY_BUDGET && AbandonSweep(t).status == Abandoned
            && (kind == Worker && t.job.Some? ==> t.job.value.status == JobFailed && t.job.value.completedAt == Some(now))
  {
  }

  /** A cap or an unreachable co-signer defers: no retry of the row or of its job is spent, and nothing ends. */
  lemma DeferralSpendsNothing(kind: PayerKind, r: Rows, base: nat, e: PayError, now: Time)
    requires (e.CapReached? || e.CoSignerUnavailable?) && Payable(r)
    ensures var t := GiveUp(kind, r, base, e, now);
            && !EndsPayout(kind, r, base, e) && Payable(t)
            && t.retryCount == r.retryCount && t.lastRetriedAt == r.lastRetriedAt
            && (r.job.Some? ==> t.job.Some? && t.job.value.retryCount == r.job.value.retryCount)
  {
  }

  /**
   When the retry path spends the budget without ending the payout, so that nobody retries
   it and nobody refunds it: an outcome that may have settled, which the revival can still
   prove, or an envelope proven never to apply on the last retry, which nothing revisits.
   */
  lemma SpentWithoutRefundExactly(r: Rows, base: nat, e: PayError, now: Time)
    requires base < SUBMISSION_RETRY_BUDGET && !e.CapReached? && !e.CoSignerUnavailable?
    ensures GiveUp(RetryPath, r, base, e, now).retryCount >= SUBMISSION_RETRY_BUDGET && !EndsPayout(RetryPath, r, base, e)
            <==> e == AmbiguousSubmit || (e == ExpiredUnincluded && base + 1 == SUBMISSION_RETRY_BUDGET)
  {
  }

  /** Handing back a payment undoes its record: the row is payable as before it, one retry poorer, its envelope void. */
  lemma HandBackUndoesRecord(kind: PayerKind, r: Rows, h: Hash, at: Time, now: Time)
    requires RecordPayment(kind, r, h, at).Fresh? && OpenIn(r.attempts, h) && !r.refunded
    ensures var t := HandBack(RecordPayment(kind, r, h, at).rows, h, Sent);
            && t.hash == r.hash == None && t.amount == r.amount && t.attempts == SetAttempt(r.attempts, h, Void)
            && t.retryCount == r.retryCount + 1 && ClaimForRetry(t, now).Some?
            && t.job.Some? && t.job.value.status == JobFailed && t.job.value.txHash == Some(h)
  {
    assert SetAttempt(SetAttempt(r.attempts, h, Landed), h, Void) == SetAttempt(r.attempts, h, Void);
  }
}
