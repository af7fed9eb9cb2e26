/**
 One pass of the payout worker over one submission, in place and in the source's order:
 claim, settle what is open, pay, record or quarantine, or release and give up.
 */
module PayoutWorker {
  import opened Wrappers
  import opened StellarChain
  import opened PayoutRows
  import opened PayoutStore
  import opened PayoutSettlement

  /** What the submitter did with the envelope it built: `voided` is whether its quiet void landed. */
  datatype Ending = Accepted | StaleSequence(voided: bool) | Ended(e: PayError, voided: bool)

  /** What one build did: refused before building, or journalled an envelope and submitted it. */
  datatype Payment = Refuses(e: PayError) | Builds(h: Hash, expiresAt: Time, ending: Ending)

  datatype Paid = Hash(h: Hash) | Threw(e: PayError) | Stale

  /** Only a submit can be ambiguous, and it alone leaves its envelope open: every other ending means it can never apply. */
  predicate Truthful(p: Payment) {
    match p
    case Refuses(e) => e != AmbiguousSubmit
    case Builds(_, _, Ended(e, voided)) => e == AmbiguousSubmit ==> !voided
    case _ => true
  }

  /** The row with its claim taken, and its claim handed back. */
  predicate SameButLease(r: Rows, t: Rows) {
    t.(lastRetriedAt := r.lastRetriedAt) == r
  }

  /** Some attempt was voided or opened, and nothing else changed. */
  predicate SameButJournal(r: Rows, t: Rows) {
    t.(attempts := r.attempts, lastRetriedAt := r.lastRetriedAt) == r
  }

  /** A new open attempt stands alone: nothing else is open beside it. */
  ghost predicate BuiltAlone(before: map<Hash, Attempt>, after: map<Hash, Attempt>) {
    forall g, h :: OpenIn(after, g) && !OpenIn(before, g) && OpenIn(after, h) ==> g == h
  }

  /** Would the journal take this envelope? Only on a payable row, with nothing open, under a hash it does not know. */
  ghost predicate Admits(r: Rows, p: Payment) {
    && p.Builds? && r.hash == None && (r.status == Pending || r.status == PayoutFailed)
    && p.h !in r.attempts && forall g :: g in r.attempts ==> r.attempts[g].status != Open
  }

  /** Would the second build be paid, after a first that the sequence number refused? */
  ghost predicate RebuildPays(r: Rows, p: Payment, again: Payment) {
    && Admits(r, p) && p.ending == StaleSequence(true)
    && again.Builds? && again.h != p.h && again.h !in r.attempts && again.ending == Accepted
  }

  /** Accepted under `h`: by the first build, or by the second. */
  ghost predicate PaysAs(r: Rows, p: Payment, again: Payment, h: Hash) {
    (Admits(r, p) && p.ending == Accepted && h == p.h) || (RebuildPays(r, p, again) && h == again.h)
  }

  /** Otherwise thrown as the first definite ending, or as an ordinary retryable error. */
  ghost predicate ThrowsAs(r: Rows, p: Payment, again: Payment, e: PayError) {
    if p.Refuses? then e == p.e
    else if !Admits(r, p) then e == Retryable
    else
      match p.ending
      case Accepted => false
      case Ended(f, _) => e == f
      case StaleSequence(voided) =>
        if again.Refuses? then e == again.e
        else if !voided || again.h == p.h || again.h in r.attempts || again.ending.StaleSequence? then e == Retryable
        else again.ending.Ended? && e == again.ending.e
  }

  /** One build and submit, as far as the database sees it. A journal that refuses ends it as an ordinary error. */
  method BuildAndSubmit(store: SubmissionStore, p: Payment, now: Time) returns (paid: Paid)
    requires Truthful(p)
    modifies store`attempts
    ensures SameButJournal(old(store.View()), store.View())
    ensures BuiltAlone(old(store.attempts), store.attempts)
    ensures paid.Hash? ==> OpenIn(store.attempts, paid.h) && !OpenIn(old(store.attempts), paid.h)
    ensures paid == Threw(AmbiguousSubmit) ==> HasOpen(store.attempts)
    ensures forall g :: OpenIn(old(store.attempts), g) ==> OpenIn(store.attempts, g)
    ensures p.Refuses? ==> paid == Threw(p.e)
    ensures p.Builds? && !Admits(old(store.View()), p) ==> paid == Threw(Retryable)
    ensures Admits(old(store.View()), p) ==>
              paid == (match p.ending case Accepted => Hash(p.h) case StaleSequence(_) => Stale case Ended(e, _) => Threw(e))
    ensures store.attempts == if !Admits(old(store.View()), p) then old(store.attempts)
                              else old(store.attempts)[p.h := Attempt(if p.ending != Accepted && p.ending.voided then Void else Open, p.expiresAt, now)]
  {
    if p.Refuses? { return Threw(p.e); }
    var ok := store.Open(p.h, p.expiresAt, now);
    if !ok { return Threw(Retryable); }
    if p.ending == Accepted { return Hash(p.h); }
    if p.ending.voided {
      store.VoidOpen(p.h);
    }
    assert !p.ending.voided ==> OpenIn(store.attempts, p.h);
    paid := if p.ending.StaleSequence? then Stale else Threw(p.ending.e);
  }

  /**
   `payReward` and the submitter: a stale sequence is rebuilt and submitted once more, and
   one that is stale again is an ordinary retryable error. A first envelope whose quiet
   void did not land is still open, so the journal refuses the second.
   */
  method PayReward(store: SubmissionStore, p: Payment, again: Payment, now: Time) returns (paid: Paid)
    requires Truthful(p) && Truthful(again)
    modifies store`attempts
    ensures SameButJournal(old(store.View()), store.View())
    ensures BuiltAlone(old(store.attempts), store.attempts)
    ensures !paid.Stale?
    ensures paid.Hash? ==> OpenIn(store.attempts, paid.h) && !OpenIn(old(store.attempts), paid.h)
    ensures paid == Threw(AmbiguousSubmit) ==> HasOpen(store.attempts)
    ensures forall g :: OpenIn(old(store.attempts), g) ==> OpenIn(store.attempts, g)
    ensures paid.Hash? ==> PaysAs(old(store.View()), p, again, paid.h)
    ensures paid.Threw? ==> ThrowsAs(old(store.View()), p, again, paid.e)
  {
    paid := BuildAndSubmit(store, p, now);
    if paid.Stale? {
      assert !p.ending.voided ==> store.attempts[p.h].status == Open;
      assert Admits(store.View(), again) <==>
               again.Builds? && p.ending.voided && again.h != p.h && again.h !in old(store.attempts);
      paid := BuildAndSubmit(store, again, now);
      if paid.Stale? { return Threw(Retryable); }
    }
  }

  /** The end of an attempt that broadcast nothing: the claim goes back first, then the failure's writes, then the refund. */
  method EndFailed(store: SubmissionStore, e: PayError, funded: bool, now: Time) returns (ends: bool)
    requires store.hash == None
    modifies store
    ensures store.hash == None && store.lastRetriedAt == None && store.attempts == old(store.attempts)
    ensures ends <==> EndsPayout(Worker, ReleaseClaim(old(store.View())), 0, e)
    ensures ends ==> store.status == PayoutFailed && store.retryCount == SUBMISSION_RETRY_BUDGET
    ensures e == AmbiguousSubmit ==> !ends && store.status == PayoutFailed
    ensures store.refunded == (old(store.refunded) || (ends && funded))
    ensures FailsAs(old(store.View()), store.View(), e, ends, now)
  {
    store.Release();
    ends := store.WorkerFails(e, now);
    if ends && funded {
      store.refunded := true;
    }
  }

  /** The end of an attempt that has a hash. */
  method EndPaid(store: SubmissionStore, user: UserTotals, h: Hash, now: Time, records: seq<WriteOutcome>, quarantines: seq<WriteOutcome>)
    returns (persisted: bool)
    requires store.hash == None && |records| == |quarantines| == PERSISTENCE_ATTEMPTS
    modifies store, user
    ensures persisted <==> old(store.job).Some? && Heard(records)
    ensures persisted ==> store.hash == Some(h) && store.status == Sent
    ensures persisted ==>
              && store.job == Some(old(store.job).value.(txHash := Some(h), amountUnits := Some(store.amount), broadcastAt := Some(now)))
              && SettlesOnly(old(store.attempts), store.attempts, h, {Open}, Landed)
    ensures !persisted && Commits(quarantines) ==> store.hash == Some(h) && store.status == NeedsReconciliation
    ensures user.submissionCount == old(user.submissionCount) + (if old(store.job).Some? && Commits(records) then 1 else 0)
    ensures user.earnedUnits == old(user.earnedUnits) + (user.submissionCount - old(user.submissionCount)) * store.amount
    ensures forall g :: OpenIn(store.attempts, g) ==> OpenIn(old(store.attempts), g)
  {
    ghost var r := store.View();
    var retriesBlocked: bool;
    persisted, retriesBlocked := PersistAcceptedPayment(Worker, store, h, now, now, user, records, quarantines);
    assert persisted ==> exists i :: 0 <= i < |records| && records[i] == Replied;
    assert persisted ==> Commits(records);
  }

  /** `abandonAcceptedPayment` around the job's own quarantine: the bounded retry of one idempotent write. */
  method AttemptJobQuarantine(store: SubmissionStore, now: Time, answers: seq<WriteOutcome>) returns (landed: bool)
    requires |answers| == PERSISTENCE_ATTEMPTS
    modifies store`job
    ensures landed <==> Heard(answers)
    ensures store.job == if Commits(answers) then Finished(JobWith(old(store.job), JobFailed, WORKER_MAX_RETRIES), now) else old(store.job)
  {
    ghost var job := store.job;
    ghost var commits := false;
    for attempt := 0 to PERSISTENCE_ATTEMPTS
      invariant commits <==> Commits(answers[..attempt])
      invariant !Heard(answers[..attempt])
      invariant store.job == if commits then Finished(JobWith(job, JobFailed, WORKER_MAX_RETRIES), now) else job
    {
      assert answers[..attempt + 1] == answers[..attempt] + [answers[attempt]];
      if answers[attempt] == RolledBack { continue; }
      if store.job.Some? {
        store.job := Some(store.job.value.(status := JobFailed, retryCount := WORKER_MAX_RETRIES, completedAt := Some(now)));
      }
      commits := true;
      assert Commits(answers) by { assert answers[attempt] != RolledBack; }
      if answers[attempt] == Replied {
        return true;
      }
    }
    assert answers[..PERSISTENCE_ATTEMPTS] == answers;
    landed := false;
  }

  /** How a recorded payment leaves its job: done, or held and out of every automatic path when a later write threw. */
  predicate JobEnds(before: Option<Job>, after: Option<Job>, bookkeeping: WriteOutcome, now: Time, held: bool) {
    if bookkeeping != Replied && held then JobMoves(before, after, JobFailed, 3, Some(now))
    else if bookkeeping != RolledBack then JobMoves(before, after, Done, Retries(before), Some(now))
    else after == before
  }

  /** The job once the record has committed. */
  function PaidJob(job: Option<Job>, h: Hash, amount: nat, at: Time): Option<Job> {
    match job
    case None => None
    case Some(j) => Some(j.(txHash := Some(h), amountUnits := Some(amount), broadcastAt := Some(at)))
  }

  /** What follows the record: the job is done, or held when a later write of the attempt threw. The row is never touched again. */
  method FinishJob(store: SubmissionStore, bookkeeping: WriteOutcome, now: Time, holds: seq<WriteOutcome>)
    requires |holds| == PERSISTENCE_ATTEMPTS
    modifies store`job
    ensures JobEnds(old(store.job), store.job, bookkeeping, now, Commits(holds))
  {
    if bookkeeping != RolledBack {
      store.SetJob(Done, 0, true, now);
    }
    if bookkeeping != Replied {
      var _ := AttemptJobQuarantine(store, now, holds);
    }
  }

  /** A submission with no wallet to pay fails without a claim. */
  method FailWalletless(store: SubmissionStore, now: Time)
    modifies store
    ensures store.View() == old(store.View()).(status := PayoutFailed, retryCount := WORKER_MAX_RETRIES, error := OtherError,
                                               job := Finished(JobWith(old(store.job), JobFailed, WORKER_MAX_RETRIES), now))
  {
    store.status, store.retryCount, store.error := PayoutFailed, WORKER_MAX_RETRIES, OtherError;
    if store.job.Some? {
      store.job := Some(store.job.value.(status := JobFailed, retryCount := WORKER_MAX_RETRIES, completedAt := Some(now)));
    }
  }

  datatype Outcome =
    | NothingDue | NoWallet | StoodDown | Waited
    | Recorded(h: Hash) | Unrecorded(h: Hash) | Failed(e: PayError, refundDue: bool)

  /** What a failure leaves does not depend on the journal or the claim. */
  lemma FailsAlike(r: Rows, built: Rows, t: Rows, e: PayError, ends: bool, now: Time)
    requires SameButJournal(r, built)
    ensures FailsAs(r, t, e, ends, now) <==> FailsAs(built, t, e, ends, now)
  {
  }

  /** The attempt once its claim is held and nothing waits: pay or take what had landed, then record it or give up. */
  method PayHeld(store: SubmissionStore, user: UserTotals, settled: Settlement, funded: bool, p: Payment, again: Payment, now: Time,
                 records: seq<WriteOutcome>, quarantines: seq<WriteOutcome>, bookkeeping: WriteOutcome, holds: seq<WriteOutcome>)
    returns (outcome: Outcome)
    requires |records| == |quarantines| == |holds| == PERSISTENCE_ATTEMPTS && Truthful(p) && Truthful(again)
    requires store.hash == None && !store.refunded && !settled.IsWait?
    modifies store, user
    ensures outcome.Recorded? || outcome.Unrecorded? || outcome.Failed?
    ensures settled.IsPaid? ==> !outcome.Failed? && outcome.h == settled.hash
    ensures settled.IsClear? ==> if outcome.Failed? then ThrowsAs(old(store.View()), p, again, outcome.e)
                                 else PaysAs(old(store.View()), p, again, outcome.h)
    ensures !outcome.Failed? ==> (outcome.Recorded? <==> old(store.job).Some? && Heard(records))
    ensures outcome.Failed? ==> FailsAs(old(store.View()), store.View(), outcome.e, outcome.refundDue, now)
    ensures BuiltAlone(old(store.attempts), store.attempts)
    ensures settled.IsPaid? ==> forall g :: OpenIn(store.attempts, g) ==> OpenIn(old(store.attempts), g)
    ensures user.submissionCount - old(user.submissionCount) ==
              (if !outcome.Failed? && old(store.job).Some? && Commits(records) then 1 else 0)
    ensures user.earnedUnits - old(user.earnedUnits) == (user.submissionCount - old(user.submissionCount)) * store.amount
    ensures outcome.Recorded? ==> store.hash == Some(outcome.h) && store.status == Sent
    ensures outcome.Recorded? ==>
              JobEnds(PaidJob(old(store.job), outcome.h, store.amount, now), store.job, bookkeeping, now, Commits(holds))
    ensures outcome.Unrecorded? && Commits(quarantines) ==> store.hash == Some(outcome.h) && store.status == NeedsReconciliation
    ensures outcome.Failed? ==> store.hash == None && store.lastRetriedAt == None && store.refunded == (outcome.refundDue && funded)
    ensures outcome.Failed? && outcome.refundDue ==> store.status == PayoutFailed && store.retryCount == SUBMISSION_RETRY_BUDGET
    ensures outcome.Failed? && outcome.e == AmbiguousSubmit ==>
              !outcome.refundDue && store.status == PayoutFailed && HasOpen(store.attempts)
  {
    hide RecordPayment, EndsPayout, GiveUp, Quarantine, HasOpen, Commits, Heard, FailsAs, ThrowsAs, PaysAs, JobEnds;
    ghost var r := store.View();
    var paid := Hash(0);
    if settled.IsPaid? {
      paid := Hash(settled.hash);
    } else {
      paid := PayReward(store, p, again, now);
    }
    if paid.Threw? {
      ghost var built := store.View();
      var ends := EndFailed(store, paid.e, funded, now);
      FailsAlike(r, built, store.View(), paid.e, ends, now);
      return Outcome.Failed(paid.e, ends);
    }
    var persisted := EndPaid(store, user, paid.h, now, records, quarantines);
    if persisted {
      FinishJob(store, bookkeeping, now, holds);
    }
    outcome := if persisted then Recorded(paid.h) else Unrecorded(paid.h);
  }

  /** How an attempt starts: it stops at once, or holds its claim with the open envelope settled. */
  datatype Begun = Stops(outcome: Outcome) | Begins(settled: Settlement)

  /**
   The early stops: which of them, in the source's order, and what each leaves. Only past
   them all, on a pending row with a wallet and a claim to take, does anything else happen.
   */
  predicate StopsAs(r: Rows, t: Rows, outcome: Outcome, linked: bool, now: Time, later: Time) {
    match outcome
    case NothingDue =>
      r.status != Pending && t == r.(job := t.job) && JobMoves(r.job, t.job, Done, Retries(r.job), Some(later))
    case NoWallet =>
      && r.status == Pending && !linked
      && t == r.(status := PayoutFailed, retryCount := 3, error := OtherError, job := t.job)
      && JobMoves(r.job, t.job, JobFailed, 3, Some(later))
    case StoodDown =>
      && r.status == Pending && linked && !Claimable(r, now)
      && t == r.(job := t.job) && JobMoves(r.job, t.job, JobFailed, Retries(r.job), Some(later))
    case Waited =>
      && r.status == Pending && linked && Claimable(r, now)
      && t == r.(lastRetriedAt := None, job := t.job) && JobMoves(r.job, t.job, Queued, Retries(r.job), CompletedAt(r.job))
    case _ => r.status == Pending && linked && Claimable(r, now)
  }

  /** The open envelope `h` decided it: it waits, or begins with that one paid, or void and cleared. */
  ghost predicate SettledBy(before: map<Hash, Attempt>, after: map<Hash, Attempt>, begun: Begun, hz: Horizon, now: Time, h: Hash) {
    && OpenIn(before, h)
    && var s := Answer(hz, before[h], h, now);
       && (if s.IsWait? then begun == Stops(Waited) else begun == Begins(s))
       && (if s.IsClear? then SettlesOnly(before, after, h, {Open}, Void) else after == before)
  }

  method BeginAttempt(store: SubmissionStore, linked: bool, hz: Horizon, now: Time, later: Time) returns (begun: Begun)
    modifies store
    ensures if begun.Stops? then StopsAs(old(store.View()), store.View(), begun.outcome, linked, now, later)
            else old(store.status) == Pending && linked && Claimable(old(store.View()), now)
    ensures begun.Stops? ==> begun.outcome in [NothingDue, NoWallet, StoodDown, Waited]
    ensures begun.Begins? || begun == Stops(Waited) ==>
              && (!HasOpen(old(store.attempts)) ==> begun == Begins(IsClear) && store.attempts == old(store.attempts))
              && (HasOpen(old(store.attempts)) ==> exists h :: SettledBy(old(store.attempts), store.attempts, begun, hz, later, h))
    ensures begun.Begins? ==>
              store.hash == None && !store.refunded && !begun.settled.IsWait? && SameButJournal(old(store.View()), store.View())
    ensures forall g :: OpenIn(store.attempts, g) ==> OpenIn(old(store.attempts), g)
  {
    if store.status != Pending {
      store.SetJob(Done, 0, true, later);
      return Stops(NothingDue);
    }
    if !linked {
      FailWalletless(store, later);
      return Stops(NoWallet);
    }
    var claimed := store.Claim(now);
    if !claimed {
      store.SetJob(JobFailed, 0, true, later);
      return Stops(StoodDown);
    }
    ghost var attempts := store.attempts;
    var settled := SettleOpenAttempt(store, hz, later);
    hide Answer, HasOpen;
    ghost var result := if settled.IsWait? then Stops(Waited) else Begins(settled);
    if HasOpen(attempts) {
      ghost var h :| OpenIn(attempts, h) && settled == Answer(hz, attempts[h], h, later)
                     && store.attempts == if settled == IsClear then SetAttempt(attempts, h, Void) else attempts;
      assert SettledBy(attempts, store.attempts, result, hz, later, h);
    }
    if settled.IsWait? {
      store.Release();
      store.SetJob(Queued, 0, false, later);
      return Stops(Waited);
    }
    begun := Begins(settled);
  }

  /** Once nothing is open: paid under a hash, or thrown. */
  ghost predicate PaysOrThrows(r: Rows, p: Payment, again: Payment, outcome: Outcome) {
    match outcome
    case Recorded(h) => PaysAs(r, p, again, h)
    case Unrecorded(h) => PaysAs(r, p, again, h)
    case Failed(e, _) => ThrowsAs(r, p, again, e)
    case _ => false
  }

  /** With an envelope open: it waits, takes the payment that had landed, or builds once that one is void. */
  ghost predicate ContinuesAs(r: Rows, p: Payment, again: Payment, hz: Horizon, now: Time, outcome: Outcome, h: Hash) {
    && OpenIn(r.attempts, h)
    && match Answer(hz, r.attempts[h], h, now)
       case IsWait(_) => outcome == Waited
       case IsPaid(g) => outcome == Recorded(g) || outcome == Unrecorded(g)
       case IsClear => PaysOrThrows(r.(attempts := r.attempts[h := r.attempts[h].(status := Void)]), p, again, outcome)
  }

  /** Where an attempt begun on `t` ends is where one on `r` continues. */
  lemma BeganAs(r: Rows, t: Rows, p: Payment, again: Payment, begun: Begun, hz: Horizon, now: Time, outcome: Outcome)
    requires begun == Stops(Waited) || (begun.Begins? && !begun.settled.IsWait? && SameButJournal(r, t))
    requires !HasOpen(r.attempts) ==> begun == Begins(IsClear) && t.attempts == r.attempts
    requires HasOpen(r.attempts) ==> exists h :: SettledBy(r.attempts, t.attempts, begun, hz, now, h)
    requires Follows(t, p, again, begun, outcome)
    ensures if HasOpen(r.attempts) then exists h :: ContinuesAs(r, p, again, hz, now, outcome, h) else PaysOrThrows(r, p, again, outcome)
  {
    if HasOpen(r.attempts) {
      var h :| SettledBy(r.attempts, t.attempts, begun, hz, now, h);
      var voided := r.attempts[h := r.attempts[h].(status := Void)];
      hide Answer;
      assert begun == Begins(IsClear) ==> t.attempts == voided;
      assert ContinuesAs(r, p, again, hz, now, outcome, h);
    }
  }

  /** How the rest of the attempt ends, from where it began. */
  ghost predicate Follows(t: Rows, p: Payment, again: Payment, begun: Begun, outcome: Outcome) {
    if begun.Stops? then outcome == begun.outcome
    else if begun.settled.IsPaid? then outcome == Recorded(begun.settled.hash) || outcome == Unrecorded(begun.settled.hash)
    else PaysOrThrows(t, p, again, outcome)
  }

  /**
   `processSubmissionPayout`. The clock reads `now` at the claim and `later` afterwards.
   Whatever happens: it builds only on a claim it took and with nothing else open; the
   owner is credited at most once, and only when the row ends under the paid hash; a wait
   spends no retry; a recorded payment stays recorded whatever becomes of its job; a
   failure leaves no hash and no claim, and refunds a funded payout exactly when it ends,
   which an outcome that may have settled never does: its envelope stays open instead.
   */
  method ProcessSubmissionPayout(store: SubmissionStore, user: UserTotals, linked: bool, funded: bool, hz: Horizon,
                                 p: Payment, again: Payment, now: Time, later: Time, records: seq<WriteOutcome>,
                                 quarantines: seq<WriteOutcome>, bookkeeping: WriteOutcome, holds: seq<WriteOutcome>)
    returns (outcome: Outcome)
    requires |records| == |quarantines| == |holds| == PERSISTENCE_ATTEMPTS && Truthful(p) && Truthful(again)
    modifies store, user
    ensures StopsAs(old(store.View()), store.View(), outcome, linked, now, later)
    ensures BuiltAlone(old(store.attempts), store.attempts)
    ensures old(store.status) == Pending && linked && Claimable(old(store.View()), now) ==>
              if HasOpen(old(store.attempts)) then exists h :: ContinuesAs(old(store.View()), p, again, hz, later, outcome, h)
              else PaysOrThrows(old(store.View()), p, again, outcome)
    ensures outcome.Recorded? || outcome.Unrecorded? ==> (outcome.Recorded? <==> old(store.job).Some? && Heard(records))
    ensures user.submissionCount - old(user.submissionCount) ==
              (if (outcome.Recorded? || outcome.Unrecorded?) && old(store.job).Some? && Commits(records) then 1 else 0)
    ensures user.earnedUnits - old(user.earnedUnits) == (user.submissionCount - old(user.submissionCount)) * store.amount
    ensures outcome.Recorded? ==> store.hash == Some(outcome.h) && store.status == Sent
    ensures outcome.Recorded? ==>
              JobEnds(PaidJob(old(store.job), outcome.h, store.amount, later), store.job, bookkeeping, later, Commits(holds))
    ensures outcome.Unrecorded? && Commits(quarantines) ==> store.hash == Some(outcome.h) && store.status == NeedsReconciliation
    ensures outcome.Failed? ==> store.hash == None && store.lastRetriedAt == None && store.refunded == (outcome.refundDue && funded)
    ensures outcome.Failed? ==> FailsAs(old(store.View()), store.View(), outcome.e, outcome.refundDue, later)
    ensures outcome.Failed? && outcome.e == AmbiguousSubmit ==> HasOpen(store.attempts)
  {
    ghost var r := store.View();
    var begun := BeginAttempt(store, linked, hz, now, later);
    ghost var t := store.View();
    hide Claimable, Answer, HasOpen, ThrowsAs, PaysAs, Commits, Heard, FailsAs, JobEnds, ContinuesAs;
    if begun.Stops? {
      if begun == Stops(Waited) {
        BeganAs(r, t, p, again, begun, hz, later, begun.outcome);
      }
      return begun.outcome;
    }
    outcome := PayHeld(store, user, begun.settled, funded, p, again, later, records, quarantines, bookkeeping, holds);
    BeganAs(r, t, p, again, begun, hz, later, outcome);
    if outcome.Failed? {
      FailsAlike(r, t, store.View(), outcome.e, outcome.refundDue, later);
    }
  }
}
