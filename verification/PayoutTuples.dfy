/**
 The rolling cap never under-counts: in every run, in any mode, a submission that is
 `sent` or `confirmed` has a job row with its hash, its amount and a broadcast time no
 earlier than its envelope's journal entry, so the spend summed over a window covers
 every such payment signed in it, held payments confirmed later included.
 */
module PayoutTuples {
  import opened Wrappers
  import opened StellarChain
  import opened PayoutRows
  import opened PayoutProtocol
  import opened PayoutSafety
  import opened PayoutEarnings
  import opened PayoutCap

  predicate Paid(status: PayoutStatus) {
    status.Sent? || status.PayoutConfirmed?
  }

  predicate InJournal(attempts: map<Hash, Attempt>, h: Option<Hash>) {
    h.Some? ==> h.value in attempts
  }

  /** A job row that carries a hash carries the whole tuple, dated between the envelope's journal entry and now. */
  predicate FullTuple(r: Rows, now: Time) {
    r.job.Some? && r.job.value.txHash.Some? ==>
      && r.job.value.txHash.value in r.attempts
      && r.job.value.amountUnits == Some(r.amount)
      && r.job.value.broadcastAt.Some?
      && r.attempts[r.job.value.txHash.value].createdAt <= r.job.value.broadcastAt.value <= now
  }

  ghost predicate TupleInv(s: Sub, now: Time) {
    && FullTuple(s.rows, now)
    && InJournal(s.rows.attempts, s.rows.hash)
    && (forall h :: h in s.rows.attempts ==> s.rows.attempts[h].createdAt <= now)
    && (forall p :: p in s.payers && Names(s.payers[p].phase) ==> s.payers[p].phase.h in s.rows.attempts)
    && (Paid(s.rows.status) ==> s.rows.hash.Some? && s.rows.job.Some? && s.rows.job.value.txHash == s.rows.hash)
  }

  /** The journal may gain an attempt; the ones it has keep their dates. */
  ghost predicate SameDates(before: map<Hash, Attempt>, after: map<Hash, Attempt>) {
    forall h :: h in before ==> h in after && after[h].createdAt == before[h].createdAt
  }

  predicate SameTuple(a: Option<Job>, b: Option<Job>) {
    && (a.Some? <==> b.Some?)
    && (a.Some? ==> a.value.txHash == b.value.txHash && a.value.amountUnits == b.value.amountUnits
                    && a.value.broadcastAt == b.value.broadcastAt)
  }

  /** A write that pays nothing: the tuple stays, and the row may only lose its hash. */
  ghost predicate PaysNothing(s: Rows, t: Rows) {
    && SameTuple(s.job, t.job) && t.amount == s.amount
    && t.attempts.Keys == s.attempts.Keys && SameDates(s.attempts, t.attempts)
    && (t.hash == s.hash || t.hash == None)
    && (Paid(t.status) ==> Paid(s.status) && t.hash == s.hash)
  }

  lemma NothingPaidKeeps(s: Sub, t: Sub, now: Time)
    requires TupleInv(s, now) && PaysNothing(s.rows, t.rows)
    requires t.payers.Keys <= s.payers.Keys
    requires forall p :: p in t.payers && Names(t.payers[p].phase) ==> t.payers[p].phase.h in s.rows.attempts
    ensures TupleInv(t, now)
  {
  }

  lemma NamedIn(s: Sub, now: Time, p: PayerId)
    requires TupleInv(s, now) && p in s.payers
    ensures Names(s.payers[p].phase) ==> s.payers[p].phase.h in s.rows.attempts
  {
  }

  lemma MoveTuple(s: Sub, now: Time, p: PayerId, h: Hash, voided: bool, phase: Phase)
    requires TupleInv(s, now) && p in s.payers
    requires Names(phase) ==> phase.h in s.rows.attempts
    ensures TupleInv(Move(Voided(s, h, voided), p, phase), now)
  {
    NothingPaidKeeps(s, Move(Voided(s, h, voided), p, phase), now);
  }

  lemma LeaveTuple(s: Sub, now: Time, p: PayerId, rows: Rows)
    requires TupleInv(s, now) && PaysNothing(s.rows, rows)
    ensures TupleInv(Leave(s.(rows := rows), p), now)
  {
    NothingPaidKeeps(s, Leave(s.(rows := rows), p), now);
  }

  lemma SettleTuple(m: Mode, s: Sub, w: World, p: PayerId, step: SettleStep)
    requires w.seen <= |w.chain| && TupleInv(s, w.now) && CanSettle(m, s, p, step)
    ensures TupleInv(SettleEffect(s, w, p, step), w.now)
  {
    var role, phase := s.payers[p].role, s.payers[p].phase;
    NamedIn(s, w.now, p);
    hide TupleInv, Lookup, VoidAttempt, HasOpen, ClosedPast, JobWith, NextJobRetry;
    match step
    case FindOpen(found) =>
      MoveTuple(s, w.now, p, 0, false,
                if found.Some? then Looking(found.value, s.rows.attempts[found.value].expiresAt) else Known(role, Clear));
    case FirstLook(readable) =>
      MoveTuple(s, w.now, p, 0, false, Unsettled);
      MoveTuple(s, w.now, p, 0, false, Known(role, Accepted(phase.h, false)));
      MoveTuple(s, w.now, p, phase.h, true, Known(role, Clear));
      MoveTuple(s, w.now, p, 0, false, AwaitLedger(phase.h, phase.expiresAt));
    case SeeLedger(readable) =>
      MoveTuple(s, w.now, p, 0, false, LookAgain(phase.h, phase.expiresAt));
      MoveTuple(s, w.now, p, 0, false, Unsettled);
    case SecondLook(readable) =>
      MoveTuple(s, w.now, p, 0, false, Unsettled);
      MoveTuple(s, w.now, p, 0, false, Known(role, Accepted(phase.h, false)));
      MoveTuple(s, w.now, p, phase.h, true, Known(role, Clear));
    case Throws =>
      MoveTuple(s, w.now, p, 0, false, Failing(Retryable));
      LeaveTuple(s, w.now, p, s.rows);
      assert s.(rows := s.rows) == s;
    case StandDown => StandDownTuple(s, w.now, p);
  }

  lemma StandDownTuple(s: Sub, now: Time, p: PayerId)
    requires TupleInv(s, now) && p in s.payers
    ensures TupleInv(AfterStandDown(s, p), now)
  {
    hide TupleInv;
    var released := ReleaseClaim(s.rows);
    LeaveTuple(s, now, p, s.rows);
    LeaveTuple(s, now, p, released);
    LeaveTuple(s, now, p, released.(job := JobWith(released.job, Queued, NextJobRetry(released) - 1)));
    assert s.(rows := s.rows) == s;
  }

  lemma FateTuple(s: Sub, now: Time, h: Hash, fate: Fate)
    requires TupleInv(s, now)
    ensures TupleInv(WithFate(s, h, fate), now)
  {
  }

  lemma JournalTuple(m: Mode, s: Sub, w: World, p: PayerId, h: Hash, maxTime: Time, pays: bool, heard: bool)
    requires w.seen <= |w.chain| && TupleInv(s, w.now) && CanPay(m, s, w, p, Journal(h, maxTime, pays, heard))
    ensures TupleInv(PayEffect(s, w, p, Journal(h, maxTime, pays, heard)), w.now)
  {
    hide Lookup, HasOpen;
  }

  lemma PayTuple(m: Mode, s: Sub, w: World, p: PayerId, step: PayStep)
    requires w.seen <= |w.chain| && TupleInv(s, w.now) && CanPay(m, s, w, p, step)
    ensures TupleInv(PayEffect(s, w, p, step), w.now)
  {
    if step.Journal? {
      hide PayEffect, CanPay, TupleInv;
      JournalTuple(m, s, w, p, step.h, step.maxTime, step.pays, step.heard);
      return;
    }
    NamedIn(s, w.now, p);
    hide TupleInv, Lookup, VoidAttempt, HasOpen, ClosedPast;
    var phase := s.payers[p].phase;
    match step
    case Refuse(e) => MoveTuple(s, w.now, p, 0, false, Failing(e));
    case Submit =>
      FateTuple(s, w.now, phase.h, InFlight);
      MoveTuple(WithFate(s, phase.h, InFlight), w.now, p, 0, false, Submitted(phase.h));
    case Return => MoveTuple(s, w.now, p, 0, false, Accepted(phase.h, false));
    case Reject(voided, rebuild, e) =>
      FateTuple(s, w.now, phase.h, Rejected);
      MoveTuple(WithFate(s, phase.h, Rejected), w.now, p, phase.h, voided, if rebuild then Clear else Failing(e));
    case ResolveFailed(voided) => MoveTuple(s, w.now, p, phase.h, voided, Failing(NonRetryable));
    case SeeBoundPass => MoveTuple(s, w.now, p, 0, false, PastBound(phase.h));
    case ResolveExpired(voided) => MoveTuple(s, w.now, p, phase.h, voided, Failing(ExpiredUnincluded));
    case StopResolving => MoveTuple(s, w.now, p, 0, false, Failing(AmbiguousSubmit));
  }

  /** Recording writes the row's hash, amount and broadcast time into the job in the same transaction. */
  lemma RecordWritesTuple(kind: PayerKind, r: Rows, h: Hash, at: Time, now: Time)
    requires RecordPayment(kind, r, h, at) != Refused && h in r.attempts && BroadcastWithin(r, h, at, now)
    requires Paid(r.status) ==> r.hash.Some? && r.job.Some? && r.job.value.txHash == r.hash
    requires FullTuple(r, now)
    ensures var t := RecordPayment(kind, r, h, at).rows;
            && FullTuple(t, now) && t.amount == r.amount
            && t.attempts.Keys == r.attempts.Keys && SameDates(r.attempts, t.attempts)
            && (Paid(t.status) ==> t.hash == Some(h) && t.job.Some? && t.job.value.txHash == Some(h))
  {
  }

  lemma RecordTuple(m: Mode, s: Sub, w: World, p: PayerId, lost: bool, at: Time)
    requires TupleInv(s, w.now) && CanEnd(m, s, w, p, Record(lost, at))
    ensures TupleInv(AfterRecord(s, p, lost, at), w.now)
  {
    var kind, h := s.payers[p].role.kind, s.payers[p].phase.h;
    RecordWritesTuple(kind, s.rows, h, at, w.now);
    RecordSettlesOnly(kind, s.rows, h, at);
    hide RecordPayment, FullTuple, BroadcastWithin, ConfirmAttempt;
  }

  lemma GiveUpPaysNothing(kind: PayerKind, r: Rows, base: nat, e: PayError, now: Time)
    ensures PaysNothing(r, GiveUp(kind, r, base, e, now))
  {
    hide NextJobRetry;
  }

  lemma QuarantineTuple(s: Sub, now: Time, p: PayerId, kind: PayerKind, h: Hash)
    requires TupleInv(s, now) && h in s.rows.attempts
    ensures TupleInv(Leave(s.(rows := Quarantine(kind, s.rows, h, now)), p), now)
  {
  }

  lemma EndTuple(m: Mode, s: Sub, w: World, p: PayerId, step: EndStep)
    requires TupleInv(s, w.now) && CanEnd(m, s, w, p, step)
    ensures TupleInv(EndEffect(s, w, p, step), w.now)
  {
    NamedIn(s, w.now, p);
    hide TupleInv, GiveUp, EndsPayout, AfterRecord, Quarantine, PaysNothing;
    var payer := s.payers[p];
    if step.Record? {
      RecordTuple(m, s, w, p, step.lost, step.at);
    } else if step.QuarantinePayment? {
      QuarantineTuple(s, w.now, p, payer.role.kind, payer.phase.h);
    } else if step.EndPayout? {
      var rows := GiveUp(payer.role.kind, s.rows, payer.base, payer.phase.e, w.now);
      GiveUpPaysNothing(payer.role.kind, s.rows, payer.base, payer.phase.e, w.now);
      GoOnTuple(s, w.now, p, rows, Refunding(payer.phase.e));
      GoOnTuple(s, w.now, p, rows, Noting);
    } else {
      var rows := EndEffect(s, w, p, step).rows;
      SmallEndPaysNothing(s, w, p, step);
      GoOnTuple(s, w.now, p, rows, if step.Release? then Released(payer.phase.e) else Noting);
    }
  }

  lemma GoOnTuple(s: Sub, now: Time, p: PayerId, rows: Rows, phase: Phase)
    requires TupleInv(s, now) && p in s.payers && PaysNothing(s.rows, rows) && !Names(phase)
    ensures TupleInv(Leave(s.(rows := rows), p), now) && TupleInv(Move(s.(rows := rows), p, phase), now)
  {
    NothingPaidKeeps(s, Leave(s.(rows := rows), p), now);
    NothingPaidKeeps(s, Move(s.(rows := rows), p, phase), now);
  }

  lemma SmallEndPaysNothing(s: Sub, w: World, p: PayerId, step: EndStep)
    requires p in s.payers && EndsFrom(s.payers[p], step)
    requires step.Release? || step.RefundDebit? || step.NoteError? || step.HandOver?
    ensures PaysNothing(s.rows, EndEffect(s, w, p, step).rows)
  {
    hide RecordPayment, GiveUp, EndsPayout;
  }

  /** A held payment confirmed later gets the tuple its quarantine never wrote, dated by the journal. */
  lemma ConfirmTuple(s: Sub, h: Hash, from: PayoutStatus, now: Time)
    requires TupleInv(s, now) && (from.Sent? || from.NeedsReconciliation?)
    ensures TupleInv(s.(rows := ConfirmPayment(s.rows, h, from, now)), now)
  {
    var t := s.(rows := ConfirmPayment(s.rows, h, from, now));
    assert SameDates(s.rows.attempts, t.rows.attempts);
  }

  /** Of what runs outside the payers, only the confirmation of a matching payment pays. */
  lemma OutsidePaysNothing(m: Mode, s: Sub, w: World, step: OutsideStep)
    requires w.seen <= |w.chain| && CanOutside(m, s, w, step)
    requires !step.SettleConfirmed? || !(step.h in s.envs && s.envs[step.h].pays)
    ensures PaysNothing(s.rows, OutsideEffect(s, w, step).rows) && OutsideEffect(s, w, step).payers == s.payers
  {
    hide Lookup, ConfirmPayment;
    if step.SettleFailed? {
      HandBackPaysNothing(s.rows, step.h);
      hide HandBack, PaysNothing;
    } else if step.SettleConfirmed? {
    } else {
      OperatorsPayNothing(m, s, w, step);
      hide PaysNothing, OutsideEffect;
    }
  }

  lemma HandBackPaysNothing(r: Rows, h: Hash)
    ensures PaysNothing(r, HandBack(r, h, r.status))
  {
  }

  lemma OperatorsPayNothing(m: Mode, s: Sub, w: World, step: OutsideStep)
    requires w.seen <= |w.chain| && CanOutside(m, s, w, step) && !step.SettleConfirmed? && !step.SettleFailed?
    ensures PaysNothing(s.rows, OutsideEffect(s, w, step).rows) && OutsideEffect(s, w, step).payers == s.payers
  {
    hide Lookup, PaysNothing;
    match step
    case Recheck => SameJournalPaysNothing(s.rows, OutsideEffect(s, w, step).rows);
    case ReadFails => SameJournalPaysNothing(s.rows, OutsideEffect(s, w, step).rows);
    case DropRefund => SameJournalPaysNothing(s.rows, OutsideEffect(s, w, step).rows);
    case RefundHandBack => SameJournalPaysNothing(s.rows, OutsideEffect(s, w, step).rows);
    case ResetByAdmin => SameJournalPaysNothing(s.rows, OutsideEffect(s, w, step).rows);
    case RestoreByAdmin(_) => SameJournalPaysNothing(s.rows, OutsideEffect(s, w, step).rows);
    case Sweep => SameJournalPaysNothing(s.rows, OutsideEffect(s, w, step).rows);
  }

  lemma SameJournalPaysNothing(r: Rows, t: Rows)
    requires t.job == r.job && t.amount == r.amount && t.attempts == r.attempts && t.hash == r.hash && (Paid(t.status) ==> t.status == r.status)
    ensures PaysNothing(r, t)
  {
  }

  lemma OutsideTuple(m: Mode, s: Sub, w: World, step: OutsideStep)
    requires w.seen <= |w.chain| && TupleInv(s, w.now) && CanOutside(m, s, w, step)
    ensures TupleInv(OutsideEffect(s, w, step), w.now)
  {
    hide ConfirmPayment, Lookup;
    if step.SettleConfirmed? {
      ConfirmTuple(s, step.h, s.rows.status, w.now);
    }
    hide TupleInv;
    if !step.SettleConfirmed? || !(step.h in s.envs && s.envs[step.h].pays) {
      NamedAll(s, w.now);
      OutsidePaysNothing(m, s, w, step);
      hide PaysNothing, OutsideEffect, CanOutside;
      NothingPaidKeeps(s, OutsideEffect(s, w, step), w.now);
    }
  }

  lemma NamedAll(s: Sub, now: Time)
    requires TupleInv(s, now)
    ensures forall p :: p in s.payers && Names(s.payers[p].phase) ==> s.payers[p].phase.h in s.rows.attempts
  {
  }

  lemma ActTuple(m: Mode, s: Sub, w: World, a: Action)
    requires w.seen <= |w.chain| && TupleInv(s, w.now) && Enabled(m, s, w, a)
    ensures TupleInv(Effect(m, s, w, a), w.now)
  {
    hide SettleEffect, PayEffect, EndEffect, OutsideEffect, CanSettle, CanPay, CanEnd, CanOutside;
    match a
    case Claim(_, _) =>
    case Beat(_) =>
    case Die(_) =>
    case Settling(p, step) => hide TupleInv; SettleTuple(m, s, w, p, step);
    case Paying(p, step) => hide TupleInv; PayTuple(m, s, w, p, step);
    case Ending(p, step) => hide TupleInv; EndTuple(m, s, w, p, step);
    case Outside(step) => hide TupleInv; OutsideTuple(m, s, w, step);
  }

  // ----- whole runs -----

  ghost predicate AllTuples(s: System) {
    forall i :: 0 <= i < |s.subs| ==> TupleInv(s.subs[i], s.world.now)
  }

  lemma TickTuple(s: Sub, before: Time, now: Time)
    requires TupleInv(s, before) && before <= now
    ensures TupleInv(s, now)
  {
  }

  lemma FreshTuple(s: Sub, now: Time)
    requires FreshSubmission(s)
    ensures TupleInv(s, now)
  {
  }

  lemma {:induction false} RunTuples(m: Mode, states: seq<System>, labels: seq<Label>, k: nat)
    requires Run(m, states, labels) && k < |states|
    ensures AllTuples(states[k])
    decreases k
  {
    if k > 0 {
      RunTuples(m, states, labels, k - 1);
      var s, l, t := states[k - 1], labels[k - 1], states[k];
      assert Next(m, s, l, t);
      hide TupleInv, Effect, Enabled;
      forall i | 0 <= i < |t.subs| && (i == |s.subs| || TupleInv(s.subs[i], s.world.now)) ensures TupleInv(t.subs[i], t.world.now) {
        match l
        case Tick(now) => TickTuple(s.subs[i], s.world.now, now);
        case Act(j, a) => if i == j { ActTuple(m, s.subs[i], s.world, a); }
        case Accept(sub, _) => if i == |s.subs| { FreshTuple(sub, s.world.now); }
        case _ =>
      }
    }
  }

  /** Every paid submission carries the whole tuple, in every reachable state. */
  lemma PaidHasTuple(m: Mode, states: seq<System>, labels: seq<Label>, k: nat, i: nat)
    requires Run(m, states, labels) && k < |states| && i < |states[k].subs|
    requires Paid(states[k].subs[i].rows.status)
    ensures var r := states[k].subs[i].rows;
            && r.hash.Some? && r.hash.value in r.attempts && r.job.Some?
            && r.job.value.txHash == r.hash && r.job.value.amountUnits == Some(r.amount) && r.job.value.broadcastAt.Some?
            && r.attempts[r.hash.value].createdAt <= r.job.value.broadcastAt.value <= states[k].world.now
  {
    RunTuples(m, states, labels, k);
    assert TupleInv(states[k].subs[i], states[k].world.now);
  }

  /** The job rows of these submissions. */
  function SubmissionJobs(subs: seq<Sub>): seq<Job> {
    if subs == [] then []
    else SubmissionJobs(subs[..|subs| - 1]) + (if subs[|subs| - 1].rows.job.Some? then [subs[|subs| - 1].rows.job.value] else [])
  }

  /** A payment that stands, whose envelope was signed in the window or whose broadcast was recorded in it. */
  predicate PaidSince(s: Sub, since: int) {
    && Paid(s.rows.status) && s.rows.hash.Some? && s.rows.hash.value in s.rows.attempts
    && (s.rows.attempts[s.rows.hash.value].createdAt >= since
        || (s.rows.job.Some? && s.rows.job.value.broadcastAt.Some? && s.rows.job.value.broadcastAt.value >= since))
  }

  function PaidUnitsSince(subs: seq<Sub>, since: int): nat {
    if subs == [] then 0
    else
      var n := |subs| - 1;
      PaidUnitsSince(subs[..n], since) + (if PaidSince(subs[n], since) then subs[n].rows.amount else 0)
  }

  lemma {:induction false} SpendCovers(subs: seq<Sub>, since: int, now: Time)
    requires forall i :: 0 <= i < |subs| ==> TupleInv(subs[i], now)
    ensures ActivitySince(SubmissionJobs(subs), since).volumeUnits >= PaidUnitsSince(subs, since)
    decreases |subs|
  {
    if subs != [] {
      var n := |subs| - 1;
      SpendCovers(subs[..n], since, now);
      var s := subs[n];
      var last := if s.rows.job.Some? then [s.rows.job.value] else [];
      ActivityAdds(SubmissionJobs(subs[..n]), last, since);
      assert TupleInv(s, now);
      assert last != [] ==> last[1..] == [];
    }
  }

  /** The cap's spend side, over submissions' and withdrawals' job rows, never under-counts a window. */
  lemma CapNeverUnderCounts(m: Mode, states: seq<System>, labels: seq<Label>, k: nat, withdrawals: seq<Job>, since: int)
    requires Run(m, states, labels) && k < |states|
    ensures ActivitySince(SubmissionJobs(states[k].subs) + withdrawals, since).volumeUnits
            >= PaidUnitsSince(states[k].subs, since) + ActivitySince(withdrawals, since).volumeUnits
  {
    RunTuples(m, states, labels, k);
    SpendCovers(states[k].subs, since, states[k].world.now);
    ActivityAdds(SubmissionJobs(states[k].subs), withdrawals, since);
  }
}
