# Payout rail, sponsored reserves and their small cores

A Dafny model of the money-moving parts of the repository, with proofs of the
properties its comments, tests and documentation promise. `dafny verify
dfyconfig.toml` checks the whole project.

**The submission-payout protocol.** `StellarChain` is the ledger and Horizon's view of
it: a growing sequence of ledgers with increasing close times, and lookups that answer
for some prefix. `PayoutRows` has every database transaction of the rail as a function
on one submission's rows. `PayoutProtocol` is the step system: any number of workers,
retry passes and revivals act on a submission one transaction or one Horizon answer at
a time, interleaved with the reconciler, the retry cron, operators, process death, the
clock and the chain. `PayoutSafety`, `PayoutLease` and `PayoutRuns` prove at-most-once
payment, no lost payment and mutual exclusion over every run; `PayoutEarnings` exact
lifetime totals; `PayoutRefunds` refund exclusion; `PayoutTuples` and `PayoutCap` the
rolling cap. `PayoutCounterexamples` has concrete runs that make the conditions of
five of these theorems exact. `PayoutStore` carries the same transactions out in place
on an object's fields, each proved to do what its function in `PayoutRows` says, and
`PayoutSettlement`, `PayoutWorker` and `PayoutRetry` run the procedures over them: settling an open
envelope, the revival loop, the bounded record-or-quarantine loop, and one whole pass of
the worker and of the retry cron; `PayoutRefinement` ties the step system's endings to
those passes. `PayoutProgress` proves that no reachable submission is
stuck.

**Sponsored reserves.** `SponsorshipRows` is the intent decision and its bounded retry
loop, `SponsorshipReclaim` the ordered disposition rules, revocation and report,
`SponsorshipProtocol` the step system over rows, chain, owner and any number of open
requests, `SponsorshipSafety` what every run of it keeps, `SponsorshipLiability` the
reported total, `SponsorshipCounterexamples` the exact condition for it, and
`SponsorshipHandOuts` why no check of the row makes handing out signed envelopes safe.

**Smaller cores.** `CampaignBalance` (prepaid balance, keyed refund), `UserBalance`
(withdrawals and their reversal by several reconcilers), `ReconcileReport`
(classification of every broadcast payout), `RateLimit` (sliding window against its
counting specification), `CsvLine` and `CsvFile` (parser against a quoting writer),
`HealthAlert` (PAGE de-duplication) and `UploadWorker` (restartable chunked upserts).

## What is assumed

The submitter, the co-signer, Horizon and the database are the model's environment.

- An envelope is submitted only after `journal.open`; it is included only in a ledger
  that closes no later than its time bound; the submitter's own voids and every error
  other than `ambiguous_submit` mean nothing of that call can apply. `ExpiredUnincluded`
  is the retryable form of that code, given only for an envelope absent past its bound.
- A hash returned by `payReward` is read two ways (`Contract`): it has applied, or it
  was accepted and may still be included and fail.
- `Mode` names what else a run may rely on: one payer at a time; every lease kept, which
  for the revival, with no heartbeat of its own, means that it ends within one lease; no
  reply to a record lost; no originals put back over a live claim; no journal read that
  throws at a worker over an open attempt. A restore while nobody holds, and any other
  throw, may always happen. Each main theorem says which of these it needs, and
  `RestoreSafeExactly` and `UnreadRefundExactly` what the code would have to check.
- An envelope whose `journal.open` is not acknowledged is thrown away unsubmitted.
- When three bounded writes all report failure, none committed: a payer whose record
  committed may record again but never quarantines.
- A transaction, a row lock, an advisory lock and a partial unique index are one atomic
  step with the guarantee each states. All hosts and the database share one clock.
- `verifySettledPayout` is an uninterpreted verdict carried by each envelope.
- The sponsor's GET hands out envelopes it has signed, which whoever holds them can
  broadcast until they expire; offers are signed inside the request that broadcasts them
  and never leave the server signed. The two never share a hash. The sponsor's sequence
  numbers are left out, so an envelope another one overtakes is one that fails.
- For sponsorships a request's decision, the answer to its broadcast with the write that
  follows, and each row's disposition are one step each, in any order. An absence past
  expiry is final, and one before it says nothing; a definite refusal may be of the fee
  bump and says nothing of the envelope inside it; an envelope refused for a spent
  sequence number has landed or never will; a sponsored trustline entry implies the
  trustline exists.

## Where the code falls short of what it says

These are results of the model, each with a proof of the condition under which the
promise does hold.

- At-most-once payment fails when a returned hash may yet fail on chain and two payers
  overlap: the quarantine writes its hash and status whatever the row carries, so it can
  replace a recorded payment, and the hand-back of the failed hash then leaves the row
  payable (`PaidAtMostOnceExactly`).
- The lease does not exclude when a committed record is reported lost and its envelope
  is handed back, or when an admin retry undoes its own reset: after another payer has
  claimed the row it reset, its own retry throws for some other reason, and it writes the
  old status and the old, lapsed timestamp back over that claim. Its guard asks whether
  the row changed, not whether somebody holds it (`LeaseExcludesExactly`,
  `RestoredLeaseCrosses`, `RestoreSafeExactly`).
- Under the same conditions as the first point, an applied envelope can be forgotten:
  neither recorded nor open for the next payer (`NoPaymentLostExactly`).
- Lifetime totals are exact only with one payer at a time. The worker hands its claim
  back before it writes its failure, and that write does not look at the row: if another
  worker takes over the stale job in between and pays, the paid row is marked failed and
  its credit stays (`EarningsExactExactly`).
- A submission can be refunded and paid when a give-up's writes are interleaved with an
  operator's reset, and when reading the journal throws at the worker over an open
  attempt, since it counts that as an ordinary retryable failure without asking whether
  one is open (`RefundExclusionExactly`, `UnreadRefundExactly`).
- An admin retry's restore puts the row back as it was only while it carries no hash
  (`RestoreUndoesReset`).
- An envelope proven never to apply on the retry path's last retry carries the
  `ambiguous_submit` code, so the payout is neither retried nor refunded, and with its
  attempt void the revival's query does not offer it either (`SpentWithoutRefundExactly`,
  `SpentIsRevisitedExactly`).
- Liability can be understated with no request at all. GET hands the contributor an
  envelope the sponsor has signed, and no row records it until POST: co-signed and sent
  straight to the network it locks reserves nothing counts, and no check of the address's
  row would prevent it. Envelopes offered at sign-in have no such gap
  (`HandOutNeverSafe`, `UnrecordedUnderstates`, `NeverUnderstatedExactly`).
- The sponsorship row's `failed` is documented as "can never apply". A refusal of a
  re-submission releases the row of an envelope that an earlier request put in flight
  and that has landed or still can; when two requests overlap, so does a refusal of
  the first; and so does any refusal of an envelope handed out signed, which its holder
  can still send. The source releases on every such refusal, and nothing keeps requests
  of an address apart (`ReleaseKeepsExactly`, `RefusedThenSent`, `NeverUnderstatedExactly`).
- The limiter's retry-after is documented as the time until the oldest request expires;
  a row is deleted only strictly after its expiry, so a wait of a whole number of
  seconds ends one instant too early (`RetryAfterExactly`).
- The legacy refund note names one submission only while ids hold no spaces
  (`NoteNamesOne`, `SpacesNameTwo`).
- A hash on a row in any status but the five the report knows is in none of its lists
  when it has no finding (`ExactlyOnePlace`).
- The CSV header is split on bare commas, so its names must be unquoted, and a quoted
  field cannot hold a line break; the rest of section 2 of RFC 4180 is read as written.

## Model

| member | source | states |
|---|---|---|
| StellarChain.AbsentPastBound | lib/payout-attempts.ts:82-89 | An envelope absent from a view that ends strictly past its time bound is absent from every future of the ledger |
| StellarChain.LookupReads | lib/payout-attempts.ts:107-120 | A lookup answers for the first ledger that includes the envelope, and not found exactly when none does |
| PayoutSettlement.SettlementIsSound | lib/payout-attempts.ts:90-146 | `paid` is answered only for an envelope that has applied, `clear` only for one that never applies in any extension of the chain; and it is decided whenever it can be: with every read answered and the ledger read past the bound it is paid or cleared, by whether the envelope ever applies |
| PayoutSettlement.AnswerExactly | lib/payout-attempts.ts:99-146 | Read by read, exactly when it waits, clears and pays: an included envelope by the first lookup alone; an absent one waits until a ledger past its bound is seen and a second lookup is answered; and a wait ends 15 seconds after the later of now and the bound |
| PayoutSettlement.FirstAbsenceProvesNothing | lib/payout-attempts.ts:82-89 | A chain on which the first lookup is absent, a ledger has passed the bound, and the envelope has applied: the second lookup is needed |
| PayoutSettlement.SettleOpenAttempt | lib/payout-attempts.ts:90-146 | In place: with nothing open it is clear and writes nothing; otherwise it answers for an open envelope, voiding it exactly when it answers clear and leaving a paid one open |
| PayoutSettlement.SettlementRefinesSteps | lib/payout-attempts.ts:90-146 | The procedure and the step system's three Horizon reads, taken one at a time by any payer or a revival, end in the same phase and the same journal |
| PayoutRuns.AtMostOnePayment | lib/payout-attempts.ts:20-57 | In every run of any number of workers, retry passes, revivals and reconcilers, two applied envelopes of a submission are the same envelope: with no lease trust when a returned hash has applied, and otherwise with one payer at a time, assumed or given by the lease |
| PayoutCounterexamples.PaidAtMostOnceExactly | lib/payout-service.ts:298-312 | The exact condition: no run of a mode pays twice if and only if a returned hash has applied, or one payer is at work at a time, or every lease is kept, no originals are put back over a live claim and every record acknowledged; a concrete run pays twice in every other mode |
| PayoutCounterexamples.NoPaymentLostExactly | lib/payout-attempts.ts:105-120 | Exactly when no payment is lost: under the same condition; in every other mode some run leaves an applied envelope neither recorded nor open |
| PayoutCounterexamples.RestoredLeaseCrosses | app/api/admin/submissions/[id]/retry/route.ts:137-167 | The run behind an undone reset: a retry fails, an admin resets the row a minute later, another payer claims it, the admin's own retry throws, and the originals it put back let a second payer claim over the first |
| PayoutCounterexamples.CrossingPaysTwice | lib/payout-worker.ts:495-511 | A stale payer whose hash was only accepted overwrites a recorded payment by its unconditional quarantine, the hand-back clears the row, and a second envelope applies |
| PayoutRuns.OneAttemptNotVoid | lib/payout-attempts.ts:10-13 | In every reachable state at most one attempt is not void, and a confirmed one is the recorded hash (so a null hash has none) |
| PayoutRuns.NoPaymentLost | lib/payout-attempts.ts:105-120 | In every reachable state, a process dying between any two writes, an applied envelope is the recorded hash or is still open |
| PayoutProgress.NeverStuck | lib/payout-attempts.ts:82-146 | From every reachable state of a sound mode, payers dying anywhere, a submission with no hash and no refund can still be paid: some steps lead to its row sent under an applied envelope |
| PayoutProgress.CanBePaid | lib/payout-service.ts:171-260 | The same from any single state that keeps the journal: once its payers are gone, its lease has lapsed and a ledger has passed its bounds, an operator's reset if it was abandoned and one retry pay it |
| PayoutSafety.NextPayerSettlesAsPaid | lib/payout-attempts.ts:105-120 | An applied envelope that no row names is open, no settlement step of the next payer voids it or clears the way to build, and its deciding lookups end in recording that hash |
| PayoutSafety.JournalKeeps | lib/payout-attempts.ts:27-39 | `journal.open` on a payable row leaves the new envelope as the only one that can apply, and when its reply is lost as one that never will |
| PayoutSafety.SettleKeeps | lib/payout-attempts.ts:90-146 | Every settlement step keeps the journal invariant: an attempt is voided only on proof |
| PayoutSafety.PayKeeps | lib/stellar/payout-submitter.ts:165-240 | So does every step of paying, a definite refusal of an envelope never included or included and failed among them: the submitter's own voids are of envelopes that can never apply |
| PayoutSafety.EndKeeps | lib/payout-worker.ts:495-547 | So does every step of recording, quarantining, giving up and refunding |
| PayoutSafety.OutsideKeeps | lib/payout-reconcile.ts:260-314 | So does every step of the reconciler, the retry cron and the operators |
| PayoutSafety.DeadStaysDead | lib/payout-attempts.ts:82-89 | No later ledger can apply an envelope that was rejected, failed, or absent past its bound |
| PayoutRuns.AtMostOneHolder | lib/payout-service.ts:66-108 | In every run whose refreshes land within the lease, where no admin retry puts its originals back over a live claim, and where a returned hash has applied or no reply to a record is lost, at most one payer is between its claim and its record or release, across worker, retry and revival and across hand-backs that clear the timestamp |
| PayoutRuns.HolderKeepsOthersOut | lib/payout-retry-claim.ts:58-60 | In the same runs, while a payer holds, no claim and no operator's reset succeeds and no settlement matches the row |
| PayoutCounterexamples.LeaseExcludesExactly | lib/payout-retry-claim.ts:31-57 | The exact condition for mutual exclusion: the lease kept, no originals put back over a live claim, and a returned hash applied or no reply lost, unless one payer at a time is assumed; concrete runs hold twice otherwise |
| PayoutLease.RestoreSafeExactly | app/api/admin/submissions/[id]/retry/route.ts:145-167 | From the row alone, exactly when an admin retry may put its originals back whoever is at work: when the row's claim is not live, or the route's own guard finds the row changed; the route checks the second only |
| PayoutLease.RestoreKeepsExactly | app/api/admin/submissions/[id]/retry/route.ts:145-167 | In one state: the restore keeps the lease exactly when nobody holds the row, or the guard finds it changed |
| PayoutLease.OutsideLease | app/api/admin/submissions/[id]/retry/route.ts:40-56 | A hand-back, a settlement or a reset never touches a row someone holds |
| PayoutLease.LeaseBuildsAlone | lib/payout-worker.ts:434-455 | Whoever may build holds the lease, so no other payer names an envelope |
| PayoutRefunds.NeverRefundedAndPaid | lib/payout-service.ts:267-286 | With one payer at a time, and where reading the journal never throws at a worker while an attempt is open, a refunded submission has no applied envelope and none that could still apply; refunds a dead process never wrote included |
| PayoutRefunds.NoClaimAfterRefund | lib/payout-service.ts:79-91 | In any mode, over the rest of any run after a refund names a submission, the refund stands and no payer's claim of it succeeds |
| PayoutRefunds.RefundStands | lib/payout-attempt-revival.ts:66-73 | Each single step of any payer, the reconciler or an operator keeps the refund, and a claim is not among the enabled ones |
| PayoutCounterexamples.RefundExclusionExactly | lib/payout-worker.ts:679-730 | The exact condition: refunds exclude payments if and only if one payer acts at a time and the journal never throws at a worker over an open attempt |
| PayoutRefunds.UnreadRefundExactly | lib/payout-worker.ts:707-730 | From the row alone, exactly when a worker that could not read its journal may be refunded, whatever became of the envelopes: when no attempt is open |
| PayoutCounterexamples.ResetBeforeRefund | app/api/admin/submissions/[id]/retry/route.ts:66-82 | A run in which a row given up for good is reset by an operator before its refund is written, paid, and then refunded |
| PayoutCounterexamples.UnreadableJournalRefunds | lib/payout-worker.ts:698-725 | A run in which three unreadable journals exhaust the worker, which refunds while the envelope it submitted can still land |
| PayoutEarnings.EarningsAreExact | lib/payout-worker.ts:516-565 | In every run with one payer per submission, hand-back refunds that are never written included, a user's totals are the start value plus exactly the sent, confirmed and mismatch-held submissions that had reached sent |
| PayoutCounterexamples.EarningsExactExactly | lib/payout-worker.ts:698-745 | Exactly when every user's totals are exact over every run: with one payer at a time, whatever the lease does |
| PayoutCounterexamples.LateFailureMiscounts | lib/payout-worker.ts:622-745 | The run behind it: a worker that has handed its claim back writes its failure over a row the next worker has paid since, and no credit is taken back |
| PayoutEarnings.HeldAfterSentIsMismatch | lib/payout-reconcile.ts:82-87 | A held row that counts is one whose envelope applied and paid something else |
| PayoutEarnings.ActMoney | lib/payout-reconcile.ts:126-155 | Every step moves the credit exactly as it moves the row in or out of the paid states |
| PayoutEarnings.CreditKeepsExact | lib/payout-reconcile.ts:293-301 | The floor under a hand-back never blocks its decrement: the owner's count moves by exactly the credit |
| PayoutEarnings.AmountIsFixed | lib/payout-reconcile.ts:266-272 | No step changes what a submission is owed |
| PayoutRows.RecordIsReplaySafe | lib/payout-service.ts:307-331 | Running the record callback again after it committed changes no row and is not the crediting run |
| PayoutRows.ReconcileIsReplaySafe | lib/payout-reconcile.ts:123-125 | A second reader of the same Horizon answer changes nothing, whichever way it settled |
| PayoutRows.HandBackUndoesRecord | lib/payout-reconcile.ts:241-258 | Handing back a payment undoes its record: no hash, the envelope void, one retry spent, the row claimable again; only its job tuple stays |
| PayoutRows.EndedLeavesRetryPath | lib/payout-worker.ts:687-713 | A payout that ends is failed with its budget spent, so the sweep abandons it and nothing retries it |
| PayoutRows.SweepEndsTheSpent | app/api/cron/payout-retry/route.ts:123-130 | The sweep leaves no pending or failed row with its budget spent, abandons exactly those, and touches nothing else |
| PayoutRows.RestoreUndoesReset | app/api/admin/submissions/[id]/retry/route.ts:38-167 | An admin reset followed by its restore leaves the row exactly as it was read, if and only if the row carries no hash |
| PayoutRows.RestoreExactly | app/api/admin/submissions/[id]/retry/route.ts:145-167 | The restore writes back exactly what was read, and only to a row still pending with no hash, no refund and retries left |
| PayoutRefinement.ResetThenRestored | app/api/admin/submissions/[id]/retry/route.ts:38-167 | The step system's reset and restore, with nothing in between, leave an unpaid submission as it was |
| PayoutRows.DeferralSpendsNothing | lib/payout-worker.ts:639-676 | A cap or an unreachable co-signer spends no retry and ends nothing |
| PayoutRows.SpentWithoutRefundExactly | lib/payout-service.ts:267-286 | Exactly when the retry path spends the budget with neither payment nor refund: an outcome that may have settled, or an envelope proven never to apply on the last retry |
| PayoutTuples.CapNeverUnderCounts | lib/payout-cap.ts:50-64 | In every reachable state the spend summed over a window, which `ActivityExactly` pins from both sides, is at least the amounts of sent and confirmed submissions whose envelope was signed, or whose broadcast was recorded, in it, plus the withdrawals' |
| PayoutCap.ActivityExactly | lib/payout-cap.ts:50-64 | The count and the volume are those of exactly the job rows with a hash, an amount and a broadcast time at or after the window's start, whatever their status |
| PayoutCap.AuthorizedExactly | lib/payout-cap.ts:80-104 | A payout is authorized if and only if the cap is off, or it fits beside what those rows of the last 24 hours spent; and what is reported is that spend |
| PayoutCap.CapRefills | lib/payout-cap.ts:66-70 | A day after the last broadcast the whole cap is free again, whatever was ever paid |
| PayoutTuples.PaidHasTuple | lib/payout-reconcile.ts:196-237 | Every sent or confirmed submission has a job row with its hash, its amount and a broadcast time between its journal entry and now, held payments confirmed later included |
| PayoutTuples.RecordWritesTuple | lib/payout-worker.ts:519-527 | Recording writes that tuple in the same transaction as the hash |
| PayoutTuples.ConfirmTuple | lib/payout-reconcile.ts:146-155 | Confirming a held payment repairs it, dated by the journal |
| PayoutCap.CapHoldsOneAtATime | lib/payout-cap.ts:73-104 | Payouts checked one after another never put more than the cap in any closed window of 24 hours |
| PayoutCap.ConcurrentChecksOverspend | lib/payout-cap.ts:76-79 | Two checks before either is recorded overspend exactly when the second would have been refused after the first |
| PayoutCap.RefusalPages | lib/payout-cap.ts:131-170 | A payout the cap refuses always pages, under any threshold, and is never reported as spent |
| PayoutCap.AlertExactly | lib/payout-cap.ts:142-178 | The alert goes out exactly when the spend with the refused payout counted in has reached the threshold, pages exactly from 100% on, and reports the ledger's spend alone |
| PayoutCap.ExhaustedExactly | lib/payout-cap.ts:123-126 | Rounding down reports 100% exactly when the cap is spent |
| PayoutCap.PercentExactly | lib/payout-cap.ts:123-126 | The percentage is the spend's in whole hundredths, rounded down |
| PayoutCap.AlertFollowsSpend | lib/payout-cap.ts:142-178 | With nothing blocked the alert pages exactly at the cap, more spend never silences it, and what it says remains completes the cap |
| PayoutStore.SubmissionStore.Open | lib/payout-attempts.ts:27-39 | Opens exactly when the row is payable, nothing is open and the hash is new; otherwise writes nothing |
| PayoutStore.SubmissionStore.Claim | lib/payout-service.ts:66-108 | Claims exactly when the row is not terminal, has no hash, no live lease and no refund |
| PayoutStore.SubmissionStore.RecordAsWorker | lib/payout-worker.ts:516-565 | The tuple, the hash, the attempt and the credit land together; the credit only in the run that moves the row to sent |
| PayoutStore.SubmissionStore.RecordAsRetry | lib/payout-service.ts:313-365 | The same for the retry path, which writes the job only when it wins the hash |
| PayoutStore.SubmissionStore.SettleConfirmed | lib/payout-reconcile.ts:121-172 | A matching sent row is confirmed, a matching held one confirmed, credited and repaired in one write, a mismatch held; a changed row is left alone |
| PayoutStore.SubmissionStore.HandBackFailed | lib/payout-reconcile.ts:260-305 | Undoes exactly the record, its attempt and its credit, spends one retry, and leaves a refunded held row alone |
| PayoutStore.SubmissionStore.RepairJobTuple | lib/payout-reconcile.ts:196-237 | Leaves a complete tuple alone and otherwise dates it by the journal, the quarantine or now, in that order |
| PayoutStore.SubmissionStore.WorkerFails | lib/payout-worker.ts:629-745 | Each failure's row and job, field by field, and exactly which end the payout: with tries left it is queued again one try poorer, an unreachable co-signer queues it for free, a cap defers it to the retry path, and only the rest fails the row |
| PayoutStore.SubmissionStore.RetryFails | lib/payout-service.ts:231-286 | The same for the retry path: a cap and an unreachable co-signer spend nothing, an error that no retry can mend spends everything, any other one retry |
| PayoutStore.SubmissionStore.ResetForRetry | app/api/admin/submissions/[id]/retry/route.ts:38-82 | Resets exactly a failed or abandoned row with no live claim and no refund |
| PayoutStore.SubmissionStore.ReviveRow | lib/payout-attempt-revival.ts:88-99 | A row with no hash goes back to the retry path with its budget restored |
| PayoutWorker.ProcessSubmissionPayout | lib/payout-worker.ts:380-745 | One pass in the source's order, every outcome decided by what it read and met: the early stops and what each writes; with an envelope open it waits, takes the payment that landed or builds once that one is void; otherwise it is paid under the accepted hash or fails with the first definite error, and is recorded exactly when a write is acknowledged; each failure leaves the row and the job that error calls for, refunds a funded payout exactly when it ends it, and credits nothing; an ambiguous outcome leaves its envelope open |
| PayoutRetry.Reprocess | lib/payout-service.ts:174-376 | One pass of the retry path, in place and in the source's order: which rows it leaves alone, and otherwise the same choice between waiting, taking and building; what each failure spends and leaves, and that a funded payout is refunded exactly when it ends |
| PayoutRetry.CronPass | app/api/cron/payout-retry/route.ts:80-130 | The cron's pass over an offered row, its note and its sweep: a row left unpaid is offered again, or abandoned and refunded, or abandoned with an envelope open that the revival comes back to; the one exception is an envelope proven dead on the last try |
| PayoutRefinement.WorkerFailureRefines | lib/payout-worker.ts:622-745 | The step system's ending of a worker that broadcast nothing, one write at a time, leaves the row, the job and the refund that the pass leaves |
| PayoutRefinement.RetryFailureRefines | lib/payout-service.ts:226-290 | And so does the retry path's, with the cron noting exactly what no retry can mend |
| PayoutRefinement.WaitRefines | lib/payout-worker.ts:456-478 | A payer that must wait gives up nothing: the worker's job is queued again at no cost, and only the retry path keeps its claim, to lapse |
| PayoutRefinement.HandBackOwesExactly | lib/payout-reconcile.ts:260-314 | A hand-back owes a refund exactly when it happened and spent the last retry, and the refund then lands on a funded submission and changes nothing else |
| PayoutWorker.BeginAttempt | lib/payout-worker.ts:399-478 | Exactly which rows stop the attempt before it pays, what each stop writes, and that otherwise the claim is held and the open envelope decided it |
| PayoutWorker.FinishJob | lib/payout-worker.ts:594-622 | After the record the job is done, or failed with its retries spent when a later write threw and the hold landed; the row is not touched |
| PayoutWorker.PayReward | lib/stellar/payout-submitter.ts:354-384 | Exactly which hash or error comes back and what is left in the journal, the one rebuild after a stale sequence included: a journal that refuses is an ordinary error, a returned hash is newly open, an ambiguous outcome leaves an envelope open, and a new open envelope stands alone |
| PayoutSettlement.ReviveStrandedAttempts | lib/payout-attempt-revival.ts:27-59 | Over the query's answer, at most 20 stranded rows with a wallet, the oldest bounds first: each is left as one revival leaves it and reported under its id, and every other row is left alone |
| PayoutSettlement.StrandedIsRevivedOrWaits | lib/payout-attempt-revival.ts:30-52 | A stranded row nobody holds is never skipped; revived it leaves the query's answer, and only one that must wait stays in it |
| PayoutSettlement.SpentIsRevisitedExactly | lib/payout-attempt-revival.ts:35-52 | A row whose budget went with no refund is offered by neither of the cron's queries and swept to abandoned, and the revival comes back to it exactly when an envelope of it is open past its bound, so never to one whose last envelope is void |
| PayoutSettlement.RevivalOnlyOnProof | lib/payout-attempt-revival.ts:61-100 | Only an unpaid, unrefunded, unclaimed row is handed back, and its envelope is then either open and applied or void and never to apply; a waiting row loses only its claim |
| PayoutSettlement.RevivalExactly | lib/payout-attempt-revival.ts:61-100 | Exactly when a revival skips a row, lets it wait or hands it back: it skips only what no payer may claim, waits only for an open envelope that settlement waits for, and writes nothing else |
| PayoutSettlement.RevivalRefinesSteps | lib/payout-attempt-revival.ts:61-100 | The step system's revival, from its claim to its last write, does to the row what the procedure does |
| PayoutSettlement.AttemptRecord | lib/payout-broadcast.ts:17-27 | Three tries of the record under any answers: the row is recorded if and only if some try committed, and credited at most once |
| PayoutSettlement.PersistAcceptedPayment | lib/payout-broadcast.ts:79-101 | Recorded, or quarantined and paged with whether retries are really blocked |
| PayoutSettlement.BlockedMeansHeld | lib/payout-broadcast.ts:29-37 | A page that says retries are blocked means the row is held under its hash and can be claimed by nobody |
| SponsorshipSafety.ReserveNeverUnderstated | lib/sponsored-trustline.ts:200-274 | Where rows are released on safe evidence only, and envelopes leave the server as offers or are sent by nobody before a request records them: in every reachable state an address's sponsored units are at most those of its one outstanding row, and a sponsored account has a row of that kind |
| SponsorshipCounterexamples.NeverUnderstatedExactly | lib/sponsored-trustline.ts:301-317 | The exact condition over runs: the reserve is never understated if and only if that holds; every unsafe evidence, for offers and for envelopes handed out signed, has a run that understates |
| SponsorshipCounterexamples.ReleaseKeepsExactly | app/api/me/wallet/sponsor/route.ts:252-291 | For one request, exactly when its refused broadcast may release its row whatever became of the envelope: no other request was open beside it and the row did not carry the envelope, an offer, before; or the row goes back to confirmed after a spent sequence number or a ledger past the bound, which is all that is left for an envelope handed out signed |
| SponsorshipHandOuts.HandOutNeverSafe | app/api/me/wallet/sponsor/route.ts:62-80 | From every state in which GET hands out a signed envelope, whatever the address's row and with any revocation in flight expiring before that envelope, steps of its holder, the owner and the reclaim job alone lead to a sponsored reserve no row stands for: no check of the row makes handing out safe |
| SponsorshipCounterexamples.UnrecordedUnderstates | lib/stellar/client.ts:295-301 | The shortest such run: handed out, co-signed and sent with no request at all |
| SponsorshipCounterexamples.RefusedThenSent | app/api/me/wallet/sponsor/route.ts:257-269 | A first request's fee bump is definitely refused, its row is released, and the contributor sends the envelope it was handed |
| SponsorshipCounterexamples.OneLiveExactly | lib/stellar/client.ts:318-322 | Where rows are released with care, two envelopes of an address are never both live if and only if none is handed out for a contributor to send unrecorded |
| SponsorshipCounterexamples.ResubmissionUnderstates | app/api/me/wallet/sponsor/route.ts:257-287 | For each kind of refusal, inside the bound and past it, the run that understates it: a re-submission's refusal releases the row of an envelope an earlier request put in flight and that has landed |
| SponsorshipCounterexamples.OverlapUnderstates | app/api/me/wallet/sponsor/route.ts:160-205 | The run when two requests overlap: the first request's own refusal does so too, its retry having sent the envelope meanwhile |
| SponsorshipCounterexamples.ReopeningUnderstates | lib/sponsorship-reclaim.ts:326-341 | And the runs on a reopened row: it goes back to confirmed, is reclaimed once the owner has merged the account away, and the envelope it no longer carries lands on the account funded again |
| SponsorshipSafety.AtMostOneLiveEnvelope | lib/sponsored-trustline.ts:165-181 | Under that condition two different sponsorship envelopes of one address are never both still able to land, by the server's hand or their holder's |
| SponsorshipSafety.AtMostOneLiveRevocation | lib/sponsorship-reclaim.ts:444-456 | Under that condition at most one revocation is ever live, it is on the address's row, and no sponsorship envelope is live beside it |
| SponsorshipSafety.PassKeeps | lib/sponsored-trustline.ts:200-229 | One pass replaces, reopens or keeps a row only so that everything sponsored or able to land stays recorded |
| SponsorshipSafety.OpenKeeps | lib/sponsored-trustline.ts:182-194 | So does the whole bounded retry loop, and what it submits is the outstanding row's own envelope |
| SponsorshipSafety.DecideKeeps | app/api/me/wallet/sponsor/route.ts:160-187 | So does a request's decision, beside any requests still open |
| SponsorshipSafety.AnswerKeeps | app/api/me/wallet/sponsor/route.ts:189-205 | So does the answer to its broadcast, whatever ran since it decided, if it releases its row only on safe evidence |
| SponsorshipSafety.AnswerKeepsOther | app/api/me/wallet/sponsor/route.ts:189-205 | And it leaves every other open request of the address what that one relies on |
| SponsorshipSafety.AnswerWrites | app/api/me/wallet/sponsor/route.ts:189-291 | What each answer does to its address: a landing sponsors the account and confirms the row, a definite refusal releases the row as it was before, and anything unknown leaves it pending |
| SponsorshipSafety.HandOutKeeps | app/api/me/wallet/sponsor/route.ts:62-80 | Handing an envelope out leaves everything recorded that a request has submitted |
| SponsorshipSafety.SendKeeps | lib/stellar/client.ts:279-294 | So does its holder sending it, once a request has recorded it: it is then the pending row's own |
| SponsorshipSafety.ReclaimKeeps | lib/sponsorship-reclaim.ts:292-370 | So does every disposition, in either mode |
| SponsorshipSafety.RevokeKeeps | lib/sponsorship-reclaim.ts:434-500 | A revocation is sent from a row with no live intent and is on that row before it is sent |
| SponsorshipLiability.LiabilityCoversChain | lib/sponsored-trustline.ts:334-365 | Under that condition the reported reserve units are at least the chain's total over every address, in every reachable state |
| SponsorshipLiability.GroupsTotalTheRows | lib/sponsored-trustline.ts:335-339 | Summed by group or row by row, the units are the same |
| SponsorshipLiability.ReportLiability | lib/sponsored-trustline.ts:334-365 | Totals every group, and refuses to report when and only when some kind is unknown |
| SponsorshipLiability.CountsAreRows | lib/sponsored-trustline.ts:334-365 | Each of its four counts is the number of outstanding rows of that kind that are pending, or confirmed |
| SponsorshipLiability.TotalsOfCounts | lib/sponsored-trustline.ts:334-365 | Its totals are those of the four counts, at one unit a trustline and three an account |
| SponsorshipRows.OpenKeepsOne | lib/sponsored-trustline.ts:19-23 | The decision keeps one outstanding row per address |
| SponsorshipRows.DecisionExactly | lib/sponsored-trustline.ts:200-274 | Against the address's outstanding row, exactly when an intent is refused as another user's, as unreadable or as pending, found confirmed already, or to be decided again |
| SponsorshipRows.WritesExactly | lib/sponsored-trustline.ts:200-317 | And which row it submits and what it writes: its own again, a confirmed one reopened, or a new one beside the released or failed one |
| SponsorshipRows.TwoPassesDecide | lib/sponsored-trustline.ts:182-194 | Without a racing writer two passes decide, unless a revocation intent holds the row |
| SponsorshipRows.RefusalWritesNothing | lib/sponsored-trustline.ts:177-181 | A failed lookup, another user's row and a pending envelope leave every row as it was |
| SponsorshipRows.SponsorshipTable.OpenSponsorshipIntent | lib/sponsored-trustline.ts:182-194 | The loop decides and writes as its specification does, through every race it meets |
| SponsorshipRows.SponsorshipTable.Decide | lib/sponsored-trustline.ts:200-229 | One pass in place: its writes and its answer |
| SponsorshipRows.SponsorshipTable.Reset | lib/sponsored-trustline.ts:250-274 | A confirmed row whose trustline is gone is released to its owner or reopened, and left alone under a revocation intent |
| SponsorshipRows.SponsorshipTable.Fail | lib/sponsored-trustline.ts:308-317 | The two conditional updates amount to one: back to confirmed if confirmed before, else failed |
| SponsorshipReclaim.RevokedExactlyWhenSafe | lib/sponsorship-reclaim.ts:292-370 | A revocation is submitted exactly for a row that passed every protection and solvency rule, and `eligible` means exactly that |
| SponsorshipReclaim.PendingExactly | lib/sponsorship-reclaim.ts:372-401 | A pending row in either mode: exactly when it is reported landed, pending, never landed or failed, with the units of its kind unless it never landed, and what an execute run writes |
| SponsorshipReclaim.EstablishedExactly | lib/sponsorship-reclaim.ts:301-370 | A confirmed row that is not revoked now: exactly when it waits on an earlier revocation, is at odds with the chain, was released by its owner or revoked by an earlier run, or fails, with its units and stroops |
| SponsorshipReclaim.EstablishedRowExactly | lib/sponsorship-reclaim.ts:306-345 | And what an execute run writes to it: its release when the chain shows it gone, and otherwise only that a revocation that can never land is forgotten |
| SponsorshipReclaim.RevokeExactly | lib/sponsorship-reclaim.ts:434-500 | A revocation sent, answer by answer: its disposition, units, stroops and row; its intent stays exactly while its fate is unknown |
| SponsorshipReclaim.FirstReasonWins | lib/sponsorship-reclaim.ts:404-431 | A row still held, an earlier revocation that failed included, is protected by the first matching reason in the fixed order, each exactly when the ones before it do not apply; it is eligible exactly when none does; all of them report the units the chain still shows |
| SponsorshipReclaim.DryRunPredicts | lib/sponsorship-reclaim.ts:206-215 | A dry run predicts an execute run line by line: same disposition, units and stroops, except that eligible rows get an outcome of a revocation; totals differ only by those |
| SponsorshipReclaim.ExecuteAsPredicted | lib/sponsorship-reclaim.ts:292-370 | The same for one row |
| SponsorshipReclaim.DryRunWritesNothing | lib/sponsorship-reclaim.ts:46-47 | A dry run changes no row and sends nothing |
| SponsorshipReclaim.ReleasedOnlyOnProof | lib/sponsorship-reclaim.ts:326-341 | A reserve is recorded released only when the chain shows nothing sponsored or the revocation applied |
| SponsorshipReclaim.BuildReport | lib/sponsorship-reclaim.ts:537-573 | Counts every disposition, and totals stroops reclaimed, stroops the owners released and units still locked |
| SponsorshipReclaim.ReserveAccountedFor | lib/sponsorship-reclaim.ts:537-573 | Every unit a run reports is in exactly one place, locked, released by its owner or revoked, and the stroops reclaimed are the base reserve times the revoked units |
| SponsorshipReclaim.RunReclaim | lib/sponsorship-reclaim.ts:206-210 | The run gives each row its own disposition, in order |
| CampaignBalance.MoneyConserved | lib/campaign-balance.ts:37-149 | After any interleaving the balance is deposits plus refunds minus reward and fee debits, and never negative |
| CampaignBalance.RefundedOnceInFull | lib/campaign-balance.ts:102-149 | Under any interleaving and a constant fee, for each campaign and submission: what went back to the campaign is nothing or exactly what was taken from it, by at most one refund, never before the debit and never to a campaign that gave nothing |
| CampaignBalance.RefundGivesBack | lib/payout-refund.ts:15-31 | And it does go back: once a refund has run, whatever ran before, the campaign has all that it gave for the submission, under exactly one refund |
| CampaignBalance.NoteNamesOne | lib/campaign-balance.ts:82-100 | For ids without spaces the legacy note names exactly one submission |
| CampaignBalance.SpacesNameTwo | lib/campaign-balance.ts:95-96 | With spaces it can name two |
| CampaignBalance.CampaignBooks.CheckAndDebit | lib/campaign-balance.ts:37-77 | Debits the whole amount with both ledger rows, or nothing |
| CampaignBalance.DebitIsWhole | lib/campaign-balance.ts:48-73 | A debit takes reward and fee together, records each under its own kind, and happens exactly when a balance row covers both |
| CampaignBalance.CampaignBooks.HasRefundedSubmission | lib/campaign-balance.ts:88-100 | Finds a refund of either era exactly when there is one |
| CampaignBalance.CampaignBooks.CreditBalance | lib/campaign-balance.ts:110-149 | Credits and records, except a keyed refund that was already made |
| CampaignBalance.CampaignBooks.RefundCampaignBalance | lib/payout-refund.ts:15-31 | After it some refund names the submission; if none did before, reward and fee are back and the ledger has exactly that entry, and otherwise nothing changes; gold and campaign-less tasks get nothing |
| UserBalance.BalanceConserved | lib/user-balance.ts:99-149 | Over any interleaving of enqueues, debits, reversals and replays the balance and the unreversed withdrawals add up to the opening balance, the balance is never negative, and each job is reversed at most once and only when failed |
| UserBalance.ReversalGivesBack | lib/user-balance.ts:79-149 | After any reversal or replay in a run the job is reversed exactly once; the first raises the balance by the whole debit and takes it out of what is owed, any other changes nothing |
| UserBalance.FailedIsHandled | lib/reconciler.ts:112-141 | In every run in which no winner dies first, each failed withdrawal has been given back or is in the hands of the reconciler that will |
| UserBalance.OneReconcilerReverses | lib/reconciler.ts:117-131 | Of all reconcilers on one job at most one wins the move to failed |
| UserBalance.Account.EnqueueWithdrawal | lib/user-balance.ts:173-233 | Takes the whole balance into one queued job, or nothing when it is empty or one is in flight |
| UserBalance.Account.DebitForWithdrawal | lib/user-balance.ts:34-77 | Debits what the balance covers, or nothing |
| UserBalance.Account.RefundReversal | lib/user-balance.ts:99-149 | After it the ledger holds this job's reversal; if it held none before, the balance rises by exactly the amount and the ledger by exactly that entry, and otherwise nothing changes |
| UserBalance.Account.CountRetry | lib/reconciler.ts:112-141 | Counts the retry, or fails the job and reports the win only if it was still processing |
| ReconcileReport.ExactlyOnePlace | lib/payout-reconcile-report.ts:221-262 | Each hashed row Horizon can answer for is in at most one of reconciled, pending and unreconciled, and in exactly one if and only if its status is one of the five or it has a finding |
| ReconcileReport.ZeroMeansAccounted | lib/payout-reconcile-report.ts:267 | Zero findings means every broadcast payout in those statuses is reconciled, or sent no longer ago than the grace period by its broadcast or creation time, and listed so |
| ReconcileReport.HashFindingsExactly | lib/payout-reconcile-report.ts:221-260 | Each of the database's findings of a hash exactly when its own facts hold, a sent payout's past its grace period included |
| ReconcileReport.HorizonFindingsExactly | lib/payout-reconcile-report.ts:326-352 | Each of Horizon's findings of a confirmed payout exactly by what it answers |
| ReconcileReport.JournalFindingsExactly | lib/payout-reconcile-report.ts:205-214 | And the journal's two: an envelope open past its bound, and two that landed |
| ReconcileReport.ListedOnlyIfPlaced | lib/payout-reconcile-report.ts:198-267 | Nothing is listed that no row accounts for, and every finding is one of its own row's |
| ReconcileReport.ExcludedExactly | lib/payout-reconcile-report.ts:215-224 | Exactly the rows under a fixture's hash, and otherwise a legacy chain's, are listed as excluded so, and none of them as reconciled or pending |
| ReconcileReport.ReconciledMeans | lib/payout-reconcile-report.ts:239-260 | Reconciled means confirmed, applied as owed on Horizon, under an unshared hash, with one landed attempt at most and no tuple missing |
| ReconcileReport.SettledIsReconciled | lib/payout-reconcile-report.ts:239-260 | And everything settled so is reported reconciled |
| ReconcileReport.StatusesSumToRows | lib/payout-reconcile-report.ts:155-160 | The status counts sum to the rows, and their units to the rows' amounts |
| ReconcileReport.BuildReconcileReport | lib/payout-reconcile-report.ts:198-267 | The lists, the findings and the wallet counts the loop pushes are those of the rows, and per-wallet payouts sum to the reconciled |
| ReconcileReport.ClassifyHash | lib/payout-reconcile-report.ts:228-262 | Pushes a hashed row's findings in the source's order |
| ReconcileReport.SummarizeVolume | lib/payout-reconcile-report.ts:277-308 | The targets are met exactly when settlements and wallets reach them and no row is duplicate or unreconciled |
| ReconcileReport.MetMeansZero | lib/payout-reconcile-report.ts:283-284 | No submission with a finding means no finding, and duplicates are among them |
| RateLimit.LimiterMeetsSpec | lib/rate-limit.ts:55-82 | On every trace of non-decreasing times a request is limited exactly when `max` accepted requests lie in the closed window ending now |
| RateLimit.NoWindowHoldsMore | lib/rate-limit.ts:34-38 | No closed interval of the window's length ever holds more than `max` accepted requests |
| RateLimit.RetryAfterExactly | lib/rate-limit.ts:49-73 | A client that waits exactly as told is limited again precisely when the oldest request expires a whole number of seconds away |
| RateLimit.RetryAfterIsFewest | lib/rate-limit.ts:66-75 | A limited client is told the fewest whole seconds, at least one, that reach the first expiry |
| RateLimit.Limiter.Take | lib/rate-limit.ts:55-82 | Deletes what expired strictly before now, counts, and inserts unless at the limit |
| CsvLine.ParseUndoesEncode | lib/csv-parser.ts:13-37 | Parsing the quoted, comma-joined line of any non-empty list of fields gives exactly those fields (section 2 of RFC 4180) |
| CsvLine.ParseUndoesMixed | lib/csv-parser.ts:13-37 | The same for any mixture of quoted fields and bare ones without comma or quote |
| CsvLine.FieldsKeepTheLine | lib/csv-parser.ts:13-37 | Of any line whatever: one field more than it has commas outside quotes, and every other character but the quotes, in order |
| CsvLine.BareField | lib/csv-parser.ts:13-37 | An unquoted field survives exactly when it holds no comma and no quote |
| CsvLine.ParseCSVLine | lib/csv-parser.ts:13-37 | The index loop reads the line as its specification does |
| CsvFile.FileReadsBack | lib/csv-parser.ts:122-224 | A written file of one or more valid rows parses back to those rows with no errors, up to 10000 of them; past that, to the first 10000 and the one limit error |
| CsvFile.RowReadsBack | lib/csv-parser.ts:163-220 | Each written row's fields parse back to the row, optional columns included |
| CsvFile.RowExactly | lib/csv-parser.ts:163-220 | Each way a row is refused, in terms of its trimmed cells, and what a row that is not refused says |
| CsvFile.EveryLineRead | lib/csv-parser.ts:150-224 | No line is lost: each that is not blank becomes a row or an error that names its line and the reason, unless the row limit ends the file |
| CsvFile.SchemaExactly | lib/csv-parser.ts:62-120 | Which files are refused, and as what |
| CsvFile.TargetReads | lib/csv-parser.ts:163-220 | A target is read from the digits after an optional sign, whatever follows them; zero and a minus are none |
| CsvFile.SchemaAccepts | lib/csv-parser.ts:62-120 | The schema check accepts such a file |
| CsvFile.ParseCSV | lib/csv-parser.ts:122-224 | The loop over lines returns the rows and errors of its specification |
| HealthAlert.OneDeliveryInFlight | lib/health-alert.ts:122-128 | Over every interleaving of Redis-up and degraded calls an identity never has two deliveries in flight |
| HealthAlert.DeliveriesCoolDown | lib/health-alert.ts:136-147 | The calls of two successful deliveries of an identity read the clock, when they claimed, at least the first one's cooldown apart |
| HealthAlert.OwnershipEnds | lib/health-alert.ts:130-133 | No finished call leaves ownership behind |
| HealthAlert.AlertGoesOutExactly | lib/health-alert.ts:149-170 | An alert goes out exactly when Redis did not refuse it, nothing is in flight for its identity and every earlier delivery of it has cooled down |
| HealthAlert.PageDesk.ClaimLocalPage | lib/health-alert.ts:116-128 | Prunes, and claims exactly an identity with neither a cooldown nor an owner |
| HealthAlert.PageDesk.CompleteLocalPage | lib/health-alert.ts:136-147 | Turns its own ownership into a cooldown, and nobody else's |
| HealthAlert.PageDesk.Prune | lib/health-alert.ts:116-120 | Deletes exactly the expired cooldowns while walking the map |
| UploadWorker.RestartIsOneRun | lib/upload-worker.ts:161-218 | Any number of interrupted runs followed by a complete one leaves the tasks of a single complete run, with existing ids unchanged |
| UploadWorker.LastRowWins | lib/upload-worker.ts:130-163 | An upsert run decides each prompt by its last row, keeps the id it found and leaves other tasks alone |
| UploadWorker.TaskTable.ProcessJob | lib/upload-worker.ts:161-218 | The chunk loop commits whole chunks, reports exactly what it committed, and is done only when every row is |

## Left out

- The co-signer, XDR, signatures, sequence numbers, Horizon's HTTP layer and the signed envelope's contents: outside the database and the ledger order.
- The worker's polling loop, its job claim and job heartbeat and its branch for a missing submission; and in the step system its `pending` status check and its branch for a missing wallet: a worker there may claim any claimable row, which covers them for every all-runs statement.
- Task resolution, experience points, eligibility, bans and messages: they move no payout money.
- PayoutWorker.ProcessSubmissionPayout: the heartbeats and alerts around it are left out, and its refund is a write that lands; `CampaignBalance` has the refund itself.
- PayoutWorker.PayReward: the account load, the signatures and the result codes are the given outcome of each build.
- PayoutRetry.Reprocess: heartbeats and alerts are left out, the submission exists, and its refund is a write that lands.
- PayoutRetry.CronPass: one row of those the cron's queries return; their age and backoff conditions, the 100-row limit and the grouping by wallet are left out.
- PayoutProgress.NeverStuck: the other submissions stand still, and the new envelope's hash is one its own submission and the chain do not know.
- The choice among several open attempts: `SettleOpenAttempt` may settle any, and the journal allows one.
- PayoutSettlement.ReviveStrandedAttempts: the query's answer is given, as any list the query may return, and nothing else writes the rows during the pass.
- PayoutCounterexamples.RefundExclusionExactly: a refund's best-effort write is modelled as landing; one that is lost is a process death before it.
- PayoutTuples.CapNeverUnderCounts: the broadcast time is any time between the envelope's journal entry and the record, which covers the moment the code takes it.
- PayoutCap.RefusalPages: the cap's and the threshold's environment settings are parameters, and the alert's wording and delivery are left out.
- PayoutEarnings.EarningsAreExact: stated with one payer per submission, which `PayoutCounterexamples.EarningsExactExactly` shows it needs.
- Single payment of withdrawals on chain: withdrawals have no journal, so only their ledger is claimed.
- UserBalance.BalanceConserved: an unkeyed reversal, which no caller makes, is not among the operations; a debit made directly names no job; Horizon does not answer both confirmed and failed for one hash, so a finished withdrawal is not reversed.
- The worker's own withdrawal failures: callers of the same reversal after they fail the job (`ReplayOp`).
- CampaignBalance.RefundedOnceInFull: submission ids are non-empty, hold no spaces and are debited once, and a refund names the campaign and the amount of an earlier debit, as the submit route and the payers do, and the fee is constant; the balance summary is left out.
- SponsorshipRows.SponsorshipTable.OpenSponsorshipIntent: a racing writer's rows between two passes are not modelled, only the passes' own writes and refusals.
- SponsorshipSafety.AnswerKeeps: the write of a result follows its answer at once; what makes a release safe stays true, so one that comes later is as safe.
- SponsorshipHandOuts.HandOutNeverSafe: it needs any revocation still in flight to expire before the envelope handed out, as one built in an earlier second does, both living 180 seconds; with equal bounds the two compete for the sponsor's next sequence number, which is not modelled.
- SponsorshipSafety.ReserveNeverUnderstated: user deletion, which cascades to sponsorship rows, and rows written before `confirmedAt` existed are not modelled.
- SponsorshipReclaim.RunReclaim: what each row reads is fixed for the run; an earlier revocation cannot change it, since outstanding rows have distinct addresses and `SponsorshipProtocol` keeps each address apart.
- The per-user sponsorship cap, the stored report's redaction of addresses and the reclaim run's own record: courtesy checks and bookkeeping.
- ReconcileReport.BuildReconcileReport: finding details, shortened wallets, sorted output and the Markdown rendering are left out.
- RateLimit.Limiter.Take: one key, one limit and millisecond times; creating the table is left out.
- CsvFile.FileReadsBack: case folding is of ASCII letters only, a response target is an exact integer where JavaScript rounds past 2^53, and error wording is left out.
- HealthAlert.DeliveriesCoolDown: the spacing is between the times the calls read when they claimed, from which the source counts the cooldown, and not between completions.
- HealthAlert.OneDeliveryInFlight: within one process; the Redis lease and its promotion decide only whether a call may deliver, so nothing is claimed across processes. WARN alerts touch no local state.
- UploadWorker.TaskTable.ProcessJob: the upserts of a chunk are taken in row order; heartbeats, audit rows and the parse of the stored text are left out.
- React pages, styling, analytics, authentication, email, DNS and operator scripts: no property of this kind.
