/**
 Lifetime earnings with one payer per submission: a user's totals are their start
 value plus exactly the submissions that stand as paid, through replays,
 reconciliation and hand-backs.
 */
module PayoutEarnings {
  import opened Wrappers
  import opened StellarChain
  import opened PayoutRows
  import opened PayoutProtocol
  import opened PayoutSafety

  /** A submission whose payment stands: sent, confirmed, or held after having been sent. */
  predicate Counted(s: Sub) {
    || s.rows.status == Sent
    || s.rows.status == PayoutConfirmed
    || (s.rows.status == NeedsReconciliation && s.rows.hash.Some? && s.rows.hash.value in s.sentUnder)
  }

  predicate Unpaid(status: PayoutStatus) {
    status.Pending? || status.PayoutFailed? || status.Abandoned?
  }

  /** A payer that has not committed yet works on a row with no hash, and the envelope it names is open. */
  ghost predicate Uncommitted(s: Sub, phase: Phase) {
    !Committed(phase) ==> s.rows.hash == None && (Names(phase) ==> OpenIn(s.rows.attempts, phase.h))
  }

  /** A row has no hash exactly while it is unpaid; its hash is the one live attempt, and never reopens. */
  ghost predicate RowMoney(s: Sub, c: Chain) {
    && (s.rows.hash == None <==> Unpaid(s.rows.status))
    && (s.rows.status == Sent && s.rows.hash.Some? ==> s.rows.hash.value in s.sentUnder)
    && (forall h :: h in s.sentUnder ==> h in s.rows.attempts && !OpenIn(s.rows.attempts, h))
    && (s.rows.hash.Some? ==> s.rows.hash.value in s.envs && OnlyLive(s.rows.attempts, s.rows.hash.value))
    && (s.rows.status == NeedsReconciliation && s.rows.hash.Some? && s.rows.hash.value in s.sentUnder ==>
          s.rows.hash.value in s.envs && !s.envs[s.rows.hash.value].pays && Applied(s.rows.hash.value, c))
  }

  /** What one payer at a time adds to the journal invariant. */
  ghost predicate MoneyInv(s: Sub, c: Chain) {
    RowMoney(s, c) && forall p :: p in s.payers ==> Uncommitted(s, s.payers[p].phase)
  }

  function Count(s: Sub): int { if Counted(s) then 1 else 0 }

  ghost predicate OnePayerInv(m: Mode, s: Sub, w: World)
    requires w.seen <= |w.chain|
  {
    m.onePayer && Single(s) && SubInv(m, s, w) && MoneyInv(s, w.chain)
  }

  ghost predicate AloneIn(s: Sub, p: PayerId) {
    forall q :: q in s.payers ==> q == p
  }

  lemma ActsAlone(m: Mode, s: Sub, w: World, p: PayerId)
    requires w.seen <= |w.chain| && OnePayerInv(m, s, w) && p in s.payers
    ensures AloneIn(s, p) && Uncommitted(s, s.payers[p].phase)
    ensures Names(s.payers[p].phase) ==> s.payers[p].phase.h in s.envs && OnlyLive(s.rows.attempts, s.payers[p].phase.h)
  {
    assert PayerKnows(m, s, w, s.payers[p].phase);
  }

  /** With one payer at work, only its own phase needs checking. */
  lemma AloneMoney(t: Sub, c: Chain, p: PayerId)
    requires RowMoney(t, c) && AloneIn(t, p)
    requires p in t.payers ==> Uncommitted(t, t.payers[p].phase)
    ensures MoneyInv(t, c)
  {
  }

  lemma MoveMoney(s: Sub, c: Chain, p: PayerId, h: Hash, voided: bool, phase: Phase)
    requires MoneyInv(s, c) && p in s.payers && AloneIn(s, p) && !Committed(s.payers[p].phase)
    requires !Names(phase) || (Names(phase) && !voided && !Committed(phase) && OpenIn(s.rows.attempts, phase.h))
    ensures MoneyInv(Move(Voided(s, h, voided), p, phase), c) && Count(Move(Voided(s, h, voided), p, phase)) == Count(s)
  {
    var t := Voided(s, h, voided);
    assert forall g :: Live(t.rows.attempts, g) ==> Live(s.rows.attempts, g);
    assert RowMoney(t, c);
    AloneMoney(Move(t, p, phase), c, p);
  }

  /** A write to the other columns of an unpaid row, after which the payer moves on or leaves. */
  lemma UnpaidMoney(s: Sub, c: Chain, p: PayerId, rows: Rows, phase: Phase)
    requires MoneyInv(s, c) && AloneIn(s, p) && p in s.payers && s.rows.hash == None && !Names(phase)
    requires rows.attempts == s.rows.attempts && rows.hash == s.rows.hash && Unpaid(rows.status)
    ensures MoneyInv(Leave(s.(rows := rows), p), c) && Count(Leave(s.(rows := rows), p)) == Count(s)
    ensures MoneyInv(Move(s.(rows := rows), p, phase), c) && Count(Move(s.(rows := rows), p, phase)) == Count(s)
  {
    assert RowMoney(s.(rows := rows), c);
    AloneMoney(Leave(s.(rows := rows), p), c, p);
    AloneMoney(Move(s.(rows := rows), p, phase), c, p);
  }

  lemma SettleMoney(m: Mode, s: Sub, w: World, p: PayerId, step: SettleStep)
    requires w.Valid() && OnePayerInv(m, s, w) && CanSettle(m, s, p, step)
    ensures MoneyInv(SettleEffect(s, w, p, step), w.chain)
    ensures Count(SettleEffect(s, w, p, step)) == Count(s)
  {
    ActsAlone(m, s, w, p);
    hide SubInv, MoneyInv, RowMoney, Lookup, Counted, VoidAttempt, HasOpen, ClosedPast;
    var role, phase := s.payers[p].role, s.payers[p].phase;
    match step
    case FindOpen(found) =>
      MoveMoney(s, w.chain, p, 0, false,
                if found.Some? then Looking(found.value, s.rows.attempts[found.value].expiresAt) else Known(role, Clear));
    case FirstLook(_) => hide SettleEffect, CanSettle, OnePayerInv; LookMoney(m, s, w, p, step);
    case SeeLedger(readable) =>
      MoveMoney(s, w.chain, p, 0, false, LookAgain(phase.h, phase.expiresAt));
      MoveMoney(s, w.chain, p, 0, false, Unsettled);
    case SecondLook(_) => hide SettleEffect, CanSettle, OnePayerInv; LookMoney(m, s, w, p, step);
    case Throws => hide SettleEffect, CanSettle, OnePayerInv; PassiveSettleMoney(m, s, w, p, step);
    case StandDown => hide SettleEffect, CanSettle, OnePayerInv; PassiveSettleMoney(m, s, w, p, step);
  }

  lemma LookMoney(m: Mode, s: Sub, w: World, p: PayerId, step: SettleStep)
    requires w.Valid() && OnePayerInv(m, s, w) && CanSettle(m, s, p, step) && (step.FirstLook? || step.SecondLook?)
    ensures MoneyInv(SettleEffect(s, w, p, step), w.chain)
    ensures Count(SettleEffect(s, w, p, step)) == Count(s)
  {
    ActsAlone(m, s, w, p);
    hide SubInv, MoneyInv, RowMoney, Lookup, Counted, VoidAttempt, HasOpen, ClosedPast;
    var role, phase := s.payers[p].role, s.payers[p].phase;
    MoveMoney(s, w.chain, p, 0, false, Unsettled);
    MoveMoney(s, w.chain, p, 0, false, Known(role, Accepted(phase.h, false)));
    MoveMoney(s, w.chain, p, phase.h, true, Known(role, Clear));
    if step.FirstLook? {
      MoveMoney(s, w.chain, p, 0, false, AwaitLedger(phase.h, phase.expiresAt));
    }
  }

  lemma PassiveSettleMoney(m: Mode, s: Sub, w: World, p: PayerId, step: SettleStep)
    requires w.Valid() && OnePayerInv(m, s, w) && CanSettle(m, s, p, step) && (step.Throws? || step.StandDown?)
    ensures MoneyInv(SettleEffect(s, w, p, step), w.chain)
    ensures Count(SettleEffect(s, w, p, step)) == Count(s)
  {
    ActsAlone(m, s, w, p);
    UnpaidRow(s, w.chain, p);
    hide SubInv, MoneyInv, RowMoney, Counted, JobWith, NextJobRetry, Lookup;
    var released := ReleaseClaim(s.rows);
    UnpaidMoney(s, w.chain, p, s.rows, Failing(Retryable));
    UnpaidMoney(s, w.chain, p, released, Unsettled);
    UnpaidMoney(s, w.chain, p, released.(job := JobWith(released.job, Queued, NextJobRetry(released) - 1)), Unsettled);
    assert s.(rows := s.rows) == s;
  }

  lemma UnpaidRow(s: Sub, c: Chain, p: PayerId)
    requires MoneyInv(s, c) && p in s.payers && !Committed(s.payers[p].phase)
    ensures s.rows.hash == None && Unpaid(s.rows.status)
  {
  }

  lemma FateMoney(s: Sub, c: Chain, h: Hash, fate: Fate)
    requires MoneyInv(s, c)
    ensures MoneyInv(WithFate(s, h, fate), c) && Count(WithFate(s, h, fate)) == Count(s)
  {
  }

  lemma JournalMoney(m: Mode, s: Sub, w: World, p: PayerId, h: Hash, maxTime: Time, pays: bool, heard: bool)
    requires w.Valid() && OnePayerInv(m, s, w) && CanPay(m, s, w, p, Journal(h, maxTime, pays, heard))
    ensures MoneyInv(PayEffect(s, w, p, Journal(h, maxTime, pays, heard)), w.chain)
    ensures Count(PayEffect(s, w, p, Journal(h, maxTime, pays, heard))) == Count(s)
  {
    ActsAlone(m, s, w, p);
    RowIsRecorded(m, s, w);
    hide SubInv;
    AloneMoney(PayEffect(s, w, p, Journal(h, maxTime, pays, heard)), w.chain, p);
  }

  lemma PayMoney(m: Mode, s: Sub, w: World, p: PayerId, step: PayStep)
    requires w.Valid() && OnePayerInv(m, s, w) && CanPay(m, s, w, p, step)
    ensures MoneyInv(PayEffect(s, w, p, step), w.chain)
    ensures Count(PayEffect(s, w, p, step)) == Count(s)
  {
    ActsAlone(m, s, w, p);
    hide SubInv, Lookup, MoneyInv, RowMoney, Counted, VoidAttempt, OpenAttempt, ClosedPast;
    var phase := s.payers[p].phase;
    match step
    case Refuse(e) => MoveMoney(s, w.chain, p, 0, false, Failing(e));
    case Journal(h, maxTime, pays, heard) => JournalMoney(m, s, w, p, h, maxTime, pays, heard);
    case Submit =>
      FateMoney(s, w.chain, phase.h, InFlight);
      MoveMoney(WithFate(s, phase.h, InFlight), w.chain, p, 0, false, Submitted(phase.h));
    case Return => MoveMoney(s, w.chain, p, 0, false, Accepted(phase.h, false));
    case SeeBoundPass => MoveMoney(s, w.chain, p, 0, false, PastBound(phase.h));
    case StopResolving => MoveMoney(s, w.chain, p, 0, false, Failing(AmbiguousSubmit));
    case _ => hide PayEffect, CanPay, OnePayerInv; RefusedMoney(m, s, w, p, step);
  }

  lemma RefusedMoney(m: Mode, s: Sub, w: World, p: PayerId, step: PayStep)
    requires w.Valid() && OnePayerInv(m, s, w) && CanPay(m, s, w, p, step)
    requires step.Reject? || step.ResolveFailed? || step.ResolveExpired?
    ensures MoneyInv(PayEffect(s, w, p, step), w.chain)
    ensures Count(PayEffect(s, w, p, step)) == Count(s)
  {
    ActsAlone(m, s, w, p);
    hide SubInv, Lookup, MoneyInv, RowMoney, Counted, VoidAttempt, ClosedPast;
    var phase := s.payers[p].phase;
    match step
    case Reject(voided, rebuild, e) =>
      FateMoney(s, w.chain, phase.h, Rejected);
      MoveMoney(WithFate(s, phase.h, Rejected), w.chain, p, phase.h, voided, if rebuild then Clear else Failing(e));
    case ResolveFailed(voided) => MoveMoney(s, w.chain, p, phase.h, voided, Failing(NonRetryable));
    case ResolveExpired(voided) => MoveMoney(s, w.chain, p, phase.h, voided, Failing(ExpiredUnincluded));
  }

  /** The record callback credits exactly when the row becomes paid; a replay credits nothing. */
  lemma RecordMoney(m: Mode, s: Sub, w: World, p: PayerId, lost: bool, at: Time)
    requires w.Valid() && OnePayerInv(m, s, w) && CanEnd(m, s, w, p, Record(lost, at))
    ensures MoneyInv(AfterRecord(s, p, lost, at), w.chain)
    ensures Count(AfterRecord(s, p, lost, at)) == Count(s) + Credit(m, s, w, Ending(p, Record(lost, at)))
  {
    ActsAlone(m, s, w, p);
    RowIsRecorded(m, s, w);
    hide SubInv, ConfirmAttempt, RecordPayment, AfterRecord;
    var h := s.payers[p].phase.h;
    var t := AfterRecord(s, p, lost, at);
    AfterRecordShape(s, p, lost, at);
    ConfirmSettles(s.rows, h, s.envs, w.chain);
    ConfirmedIsNotOpen(s.rows, h);
    assert OnlyLive(t.rows.attempts, h);
    AloneMoney(t, w.chain, p);
  }

  lemma AfterRecordShape(s: Sub, p: PayerId, lost: bool, at: Time)
    requires p in s.payers && s.payers[p].phase.Accepted? && s.payers[p].role.Pays?
    requires RecordPayment(s.payers[p].role.kind, s.rows, s.payers[p].phase.h, at) != Refused
    ensures var t, h := AfterRecord(s, p, lost, at), s.payers[p].phase.h;
            && t.rows.hash == Some(h) && (s.rows.hash == None || s.rows.hash == Some(h)) && t.envs == s.envs
            && (RecordPayment(s.payers[p].role.kind, s.rows, h, at).Fresh? <==> s.rows.hash == None)
            && t.rows.status == (if s.rows.hash == None then Sent else s.rows.status)
            && t.rows.attempts == (if s.rows.hash == None then ConfirmAttempt(s.rows, h).attempts else s.rows.attempts)
            && t.sentUnder == (if s.rows.hash == None then s.sentUnder + {h} else s.sentUnder)
            && t.payers.Keys <= s.payers.Keys && (p in t.payers ==> t.payers[p].phase == Accepted(h, true))
  {
    RecordSettlesOnly(s.payers[p].role.kind, s.rows, s.payers[p].phase.h, at);
    RecordMarksSent(s.payers[p].role.kind, s.rows, s.payers[p].phase.h, at);
  }

  lemma ConfirmedIsNotOpen(r: Rows, h: Hash)
    ensures forall g :: OpenIn(ConfirmAttempt(r, h).attempts, g) <==> OpenIn(r.attempts, g) && g != h
  {
  }

  lemma RecordMarksSent(kind: PayerKind, r: Rows, h: Hash, at: Time)
    requires RecordPayment(kind, r, h, at) != Refused
    ensures RecordPayment(kind, r, h, at).Fresh? <==> r.hash == None
    ensures RecordPayment(kind, r, h, at).rows.status == if r.hash == None then Sent else r.status
  {
  }

  lemma QuarantineMoney(m: Mode, s: Sub, w: World, p: PayerId)
    requires w.Valid() && OnePayerInv(m, s, w) && CanEnd(m, s, w, p, QuarantinePayment)
    ensures MoneyInv(EndEffect(s, w, p, QuarantinePayment), w.chain)
    ensures Count(EndEffect(s, w, p, QuarantinePayment)) == Count(s)
  {
    ActsAlone(m, s, w, p);
    hide SubInv;
    UnpaidRow(s, w.chain, p);
    AloneMoney(EndEffect(s, w, p, QuarantinePayment), w.chain, p);
  }

  lemma EndPayoutMoney(m: Mode, s: Sub, w: World, p: PayerId)
    requires w.Valid() && OnePayerInv(m, s, w) && CanEnd(m, s, w, p, EndPayout)
    ensures MoneyInv(EndEffect(s, w, p, EndPayout), w.chain)
    ensures Count(EndEffect(s, w, p, EndPayout)) == Count(s)
  {
    ActsAlone(m, s, w, p);
    UnpaidRow(s, w.chain, p);
    hide SubInv, GiveUp, MoneyInv, RowMoney, Counted, EndsPayout;
    GiveUpLeavesJournal(s.payers[p].role.kind, s.rows, s.payers[p].base, s.payers[p].phase.e, w.now);
    GiveUpLeavesUnpaid(s.payers[p].role.kind, s.rows, s.payers[p].base, s.payers[p].phase.e, w.now);
    var payer := s.payers[p];
    var rows := GiveUp(payer.role.kind, s.rows, payer.base, payer.phase.e, w.now);
    UnpaidMoney(s, w.chain, p, rows, Refunding(payer.phase.e));
    UnpaidMoney(s, w.chain, p, rows, Noting);
  }

  lemma EndMoney(m: Mode, s: Sub, w: World, p: PayerId, step: EndStep)
    requires w.Valid() && OnePayerInv(m, s, w) && CanEnd(m, s, w, p, step) && !step.Record?
    ensures MoneyInv(EndEffect(s, w, p, step), w.chain)
    ensures Count(EndEffect(s, w, p, step)) == Count(s)
  {
    ActsAlone(m, s, w, p);
    UnpaidRow(s, w.chain, p);
    hide SubInv, MoneyInv, RowMoney, Counted, RecordPayment;
    match step
    case Record(_, _) =>
    case QuarantinePayment => QuarantineMoney(m, s, w, p);
    case Release => UnpaidMoney(s, w.chain, p, ReleaseClaim(s.rows), Released(s.payers[p].phase.e));
    case EndPayout => EndPayoutMoney(m, s, w, p);
    case RefundDebit => UnpaidMoney(s, w.chain, p, Refund(s).rows, Noting);
    case NoteError => UnpaidMoney(s, w.chain, p, CronNote(s.rows), Noting);
    case HandOver => UnpaidMoney(s, w.chain, p, Revive(s.rows), Noting);
  }

  lemma GiveUpLeavesUnpaid(kind: PayerKind, r: Rows, base: nat, e: PayError, now: Time)
    requires Unpaid(r.status)
    ensures Unpaid(GiveUp(kind, r, base, e, now).status)
  {
  }

  /** Horizon's word moves the credit with the row: confirming a held payment adds it, handing a sent one back removes it. */
  lemma OutsideMoney(m: Mode, s: Sub, w: World, step: OutsideStep)
    requires w.Valid() && OnePayerInv(m, s, w) && CanOutside(m, s, w, step)
    ensures MoneyInv(OutsideEffect(s, w, step), w.chain)
    ensures Count(OutsideEffect(s, w, step)) == Count(s) + Credit(m, s, w, Outside(step))
  {
    hide SubInv, Lookup;
    if step.SettleConfirmed? {
      hide OnePayerInv, MoneyInv, Counted, OutsideEffect;
      if s.envs[step.h].pays {
        ConfirmMoney(m, s, w, step.h);
      } else {
        MismatchMoney(m, s, w, step.h);
      }
    } else if step.SettleFailed? {
      hide OnePayerInv, MoneyInv, Counted, OutsideEffect;
      HandBackMoney(m, s, w, step.h);
    } else {
      OperatorsArePassive(m, s, w, step);
      OperatorsLeaveMoney(m, s, w, step);
      hide OutsideEffect, CanOutside;
      SameMoney(s, OutsideEffect(s, w, step), w.chain);
    }
  }

  lemma OperatorsLeaveMoney(m: Mode, s: Sub, w: World, step: OutsideStep)
    requires w.seen <= |w.chain| && CanOutside(m, s, w, step) && !step.SettleConfirmed? && !step.SettleFailed?
    ensures var t := OutsideEffect(s, w, step);
            && t.payers == s.payers && t.sentUnder == s.sentUnder
            && (t.rows.status == s.rows.status || (Unpaid(t.rows.status) && Unpaid(s.rows.status)))
  {
    hide Lookup;
    match step
    case Recheck =>
    case ReadFails =>
    case RefundHandBack =>
    case DropRefund =>
    case ResetByAdmin => ResetLeavesUnpaid(s.rows, w.now); hide AdminReset;
    case RestoreByAdmin(o) => RestoreLeavesUnpaid(s.rows, o); hide AdminRestore;
    case Sweep =>
  }

  lemma ResetLeavesUnpaid(r: Rows, now: Time)
    ensures AdminReset(r, now).Some? ==> Unpaid(r.status) && Unpaid(AdminReset(r, now).value.status)
  {
  }

  lemma RestoreLeavesUnpaid(r: Rows, o: Originals)
    ensures var t := AdminRestore(r, o.Status(), o.retryCount, o.lastRetriedAt);
            t.status == r.status || (Unpaid(r.status) && Unpaid(t.status))
  {
  }

  lemma SameMoney(s: Sub, t: Sub, c: Chain)
    requires MoneyInv(s, c) && Passive(s, t) && t.payers == s.payers && t.sentUnder == s.sentUnder
    requires t.rows.status == s.rows.status || (Unpaid(t.rows.status) && Unpaid(s.rows.status))
    ensures MoneyInv(t, c) && Count(t) == Count(s)
  {
  }

  lemma ConfirmMoney(m: Mode, s: Sub, w: World, h: Hash)
    requires w.Valid() && OnePayerInv(m, s, w) && CanOutside(m, s, w, SettleConfirmed(h)) && s.envs[h].pays
    ensures MoneyInv(OutsideEffect(s, w, SettleConfirmed(h)), w.chain)
    ensures Count(OutsideEffect(s, w, SettleConfirmed(h))) == Count(s) + Credit(m, s, w, Outside(SettleConfirmed(h)))
  {
    hide SubInv, ConfirmPayment, ConfirmAttempt;
    var t := OutsideEffect(s, w, SettleConfirmed(h));
    ConfirmSettlesOnly(s.rows, h, s.rows.status, w.now);
    ConfirmSettles(s.rows, h, s.envs, w.chain);
    ConfirmedIsNotOpen(s.rows, h);
    RepairLeavesStatus(s.rows, h, w.now);
    assert forall g :: Live(t.rows.attempts, g) ==> Live(s.rows.attempts, g);
  }

  lemma MismatchMoney(m: Mode, s: Sub, w: World, h: Hash)
    requires w.Valid() && OnePayerInv(m, s, w) && CanOutside(m, s, w, SettleConfirmed(h)) && !s.envs[h].pays
    ensures MoneyInv(OutsideEffect(s, w, SettleConfirmed(h)), w.chain)
    ensures Count(OutsideEffect(s, w, SettleConfirmed(h))) == Count(s)
  {
    hide SubInv;
    ViewSpeaksForChain(w, h);
  }

  lemma RepairLeavesStatus(r: Rows, h: Hash, now: Time)
    ensures ConfirmPayment(r, h, r.status, now).status == if Unchanged(r, r.status, h) then PayoutConfirmed else r.status
  {
  }

  lemma HandBackMoney(m: Mode, s: Sub, w: World, h: Hash)
    requires w.Valid() && OnePayerInv(m, s, w) && CanOutside(m, s, w, SettleFailed(h))
    ensures MoneyInv(OutsideEffect(s, w, SettleFailed(h)), w.chain)
    ensures Count(OutsideEffect(s, w, SettleFailed(h))) == Count(s) + Credit(m, s, w, Outside(SettleFailed(h)))
  {
    hide SubInv;
    var t := OutsideEffect(s, w, SettleFailed(h));
    ViewSpeaksForChain(w, h);
    assert forall g :: Live(t.rows.attempts, g) ==> Live(s.rows.attempts, g);
  }

  lemma ClaimMoney(m: Mode, s: Sub, w: World, p: PayerId, role: Role)
    requires w.Valid() && OnePayerInv(m, s, w) && Enabled(m, s, w, Claim(p, role))
    ensures MoneyInv(Effect(m, s, w, Claim(p, role)), w.chain)
    ensures Count(Effect(m, s, w, Claim(p, role))) == Count(s)
  {
    hide SubInv;
  }

  /** Every step moves the credit exactly as it moves the row in or out of the paid states. */
  lemma ActMoney(m: Mode, s: Sub, w: World, a: Action)
    requires w.Valid() && OnePayerInv(m, s, w) && Enabled(m, s, w, a)
    ensures OnePayerInv(m, Effect(m, s, w, a), w)
    ensures Count(Effect(m, s, w, a)) == Count(s) + Credit(m, s, w, a)
  {
    SingleKeeps(m, s, w, a);
    ActKeeps(m, s, w, a);
    hide SubInv;
    match a
    case Claim(p, role) => ClaimMoney(m, s, w, p, role);
    case Beat(p) =>
    case Die(p) =>
    case Settling(p, step) => hide MoneyInv, Counted; SettleMoney(m, s, w, p, step);
    case Paying(p, step) => hide MoneyInv, Counted; PayMoney(m, s, w, p, step);
    case Ending(p, step) =>
      hide MoneyInv, Counted;
      if step.Record? { RecordMoney(m, s, w, p, step.lost, step.at); } else { EndMoney(m, s, w, p, step); }
    case Outside(step) => hide MoneyInv, Counted; OutsideMoney(m, s, w, step);
  }

  // ----- whole runs -----

  /** Payments standing for `u`, in units and in number. */
  function EarnedBy(subs: seq<Sub>, owners: seq<UserId>, u: UserId): Totals
    requires |subs| == |owners|
  {
    if subs == [] then Totals(0, 0)
    else
      var n := |subs| - 1;
      var before := EarnedBy(subs[..n], owners[..n], u);
      if owners[n] == u && Counted(subs[n])
      then Totals(before.earnedUnits + subs[n].rows.amount, before.submissionCount + 1)
      else before
  }

  function Share(s: Sub, owner: UserId, u: UserId): Totals {
    if owner == u && Counted(s) then Totals(s.rows.amount, 1) else Totals(0, 0)
  }

  lemma {:induction false} EarnedByUpdate(subs: seq<Sub>, owners: seq<UserId>, u: UserId, i: nat, t: Sub)
    requires |subs| == |owners| && i < |subs|
    ensures EarnedBy(subs[i := t], owners, u).earnedUnits
         == EarnedBy(subs, owners, u).earnedUnits - Share(subs[i], owners[i], u).earnedUnits + Share(t, owners[i], u).earnedUnits
    ensures EarnedBy(subs[i := t], owners, u).submissionCount
         == EarnedBy(subs, owners, u).submissionCount - Share(subs[i], owners[i], u).submissionCount + Share(t, owners[i], u).submissionCount
    decreases |subs|
  {
    var n := |subs| - 1;
    if i < n {
      EarnedByUpdate(subs[..n], owners[..n], u, i, t);
      assert subs[i := t][..n] == subs[..n][i := t];
    } else {
      assert subs[i := t][..n] == subs[..n];
    }
  }

  lemma {:induction false} EarnedByCovers(subs: seq<Sub>, owners: seq<UserId>, u: UserId, i: nat)
    requires |subs| == |owners| && i < |subs| && owners[i] == u
    ensures EarnedBy(subs, owners, u).earnedUnits >= 0 && EarnedBy(subs, owners, u).submissionCount >= 0
    ensures Counted(subs[i]) ==> EarnedBy(subs, owners, u).earnedUnits >= subs[i].rows.amount
    ensures Counted(subs[i]) ==> EarnedBy(subs, owners, u).submissionCount > 0
    decreases |subs|
  {
    var n := |subs| - 1;
    EarnedByNonNegative(subs[..n], owners[..n], u);
    if i < n {
      EarnedByCovers(subs[..n], owners[..n], u, i);
    }
  }

  lemma {:induction false} EarnedByNonNegative(subs: seq<Sub>, owners: seq<UserId>, u: UserId)
    requires |subs| == |owners|
    ensures EarnedBy(subs, owners, u).earnedUnits >= 0 && EarnedBy(subs, owners, u).submissionCount >= 0
    decreases |subs|
  {
    if subs != [] {
      EarnedByNonNegative(subs[..|subs| - 1], owners[..|subs| - 1], u);
    }
  }

  /** Each user's totals are the start value plus what stands as paid. */
  ghost predicate Exact(start: map<UserId, Totals>, s: System) {
    && |s.subs| == |s.owners| && s.users.Keys == start.Keys
    && (forall i :: 0 <= i < |s.owners| ==> s.owners[i] in s.users)
    && forall u :: u in s.users ==> Owes(start, s.users, s.subs, s.owners, u)
  }

  ghost predicate EarningsInv(m: Mode, start: map<UserId, Totals>, s: System) {
    && s.world.Valid() && Exact(start, s)
    && forall i :: 0 <= i < |s.subs| ==> OnePayerInv(m, s.subs[i], s.world)
  }

  lemma SettleAmount(m: Mode, s: Sub, w: World, p: PayerId, step: SettleStep)
    requires w.seen <= |w.chain| && CanSettle(m, s, p, step)
    ensures SettleEffect(s, w, p, step).rows.amount == s.rows.amount
  {
    hide Lookup, HasOpen, ClosedPast, VoidAttempt, AfterStandDown;
    if step.StandDown? {
      StandDownAmount(s, p);
    } else if !step.FindOpen? && !step.Throws? {
      VoidAmount(s.rows, s.payers[p].phase.h);
    }
  }

  lemma VoidAmount(r: Rows, h: Hash)
    ensures VoidAttempt(r, h).amount == r.amount && VoidAttempt(r, h).refunded == r.refunded
  {
  }

  lemma StandDownAmount(s: Sub, p: PayerId)
    requires p in s.payers
    ensures AfterStandDown(s, p).rows.amount == s.rows.amount && AfterStandDown(s, p).rows.refunded == s.rows.refunded
  {
    hide JobWith;
  }

  lemma PayAmount(m: Mode, s: Sub, w: World, p: PayerId, step: PayStep)
    requires w.seen <= |w.chain| && CanPay(m, s, w, p, step)
    ensures PayEffect(s, w, p, step).rows.amount == s.rows.amount
  {
    hide Lookup, HasOpen, ClosedPast;
  }

  lemma EndAmount(m: Mode, s: Sub, w: World, p: PayerId, step: EndStep)
    requires CanEnd(m, s, w, p, step)
    ensures EndEffect(s, w, p, step).rows.amount == s.rows.amount
  {
    hide GiveUp, RecordPayment, EndsPayout;
    if step.EndPayout? {
      GiveUpLeavesJournal(s.payers[p].role.kind, s.rows, s.payers[p].base, s.payers[p].phase.e, w.now);
    } else if step.Record? {
      RecordSettlesOnly(s.payers[p].role.kind, s.rows, s.payers[p].phase.h, step.at);
    }
  }

  lemma OutsideAmount(m: Mode, s: Sub, w: World, step: OutsideStep)
    requires w.seen <= |w.chain| && CanOutside(m, s, w, step)
    ensures OutsideEffect(s, w, step).rows.amount == s.rows.amount
  {
    if step.SettleConfirmed? {
      hide ConfirmPayment, Lookup;
      ConfirmSettlesOnly(s.rows, step.h, s.rows.status, w.now);
    } else if !step.SettleFailed? {
      OperatorsArePassive(m, s, w, step);
    }
  }

  /** An action never changes what the submission is owed. */
  lemma AmountIsFixed(m: Mode, s: Sub, w: World, a: Action)
    requires w.seen <= |w.chain| && Enabled(m, s, w, a)
    ensures Effect(m, s, w, a).rows.amount == s.rows.amount
  {
    hide SettleEffect, PayEffect, EndEffect, OutsideEffect, CanSettle, CanPay, CanEnd, CanOutside;
    match a
    case Claim(_, _) =>
    case Beat(_) =>
    case Die(_) =>
    case Settling(p, step) => SettleAmount(m, s, w, p, step);
    case Paying(p, step) => PayAmount(m, s, w, p, step);
    case Ending(p, step) => EndAmount(m, s, w, p, step);
    case Outside(step) => OutsideAmount(m, s, w, step);
  }

  /** Crediting the owner as the row moves keeps every user's totals exact; the floor never blocks a decrement. */
  lemma CreditKeepsExact(start: map<UserId, Totals>, s: System, i: nat, t: Sub, credit: int)
    requires Exact(start, s) && i < |s.subs|
    requires t.rows.amount == s.subs[i].rows.amount && Count(t) == Count(s.subs[i]) + credit
    ensures var users := s.users[s.owners[i] := Credited(s.users[s.owners[i]], t.rows.amount, credit)];
            && Exact(start, s.(subs := s.subs[i := t], users := users))
            && users[s.owners[i]].submissionCount == s.users[s.owners[i]].submissionCount + credit
  {
    var owner := s.owners[i];
    var users := s.users[owner := Credited(s.users[owner], t.rows.amount, credit)];
    assert Owes(start, s.users, s.subs, s.owners, owner);
    CreditMovesOwner(start, s.users, s.subs, s.owners, i, t, credit, owner);
    forall u | u in users ensures Owes(start, users, s.subs[i := t], s.owners, u) {
      assert Owes(start, s.users, s.subs, s.owners, u);
      CreditMovesOwner(start, s.users, s.subs, s.owners, i, t, credit, u);
      hide Owes;
    }
    hide Owes, Credited;
  }

  lemma CreditMovesOwner(start: map<UserId, Totals>, users: map<UserId, Totals>, subs: seq<Sub>, owners: seq<UserId>,
                         i: nat, t: Sub, credit: int, u: UserId)
    requires |subs| == |owners| && i < |subs| && owners[i] in users && u in start && u in users
    requires Owes(start, users, subs, owners, u)
    requires t.rows.amount == subs[i].rows.amount && Count(t) == Count(subs[i]) + credit
    ensures var after := users[owners[i] := Credited(users[owners[i]], t.rows.amount, credit)];
            && Owes(start, after, subs[i := t], owners, u)
            && (u == owners[i] ==> after[u].submissionCount == users[u].submissionCount + credit)
  {
    EarnedByUpdate(subs, owners, u, i, t);
    if u == owners[i] {
      EarnedByCovers(subs, owners, u, i);
    }
    hide EarnedBy;
  }

  /** One user's totals are the start value plus what stands as paid. */
  ghost predicate Owes(start: map<UserId, Totals>, users: map<UserId, Totals>, subs: seq<Sub>, owners: seq<UserId>, u: UserId)
    requires |subs| == |owners| && u in start && u in users
  {
    && start[u].earnedUnits >= 0 && start[u].submissionCount >= 0
    && users[u].earnedUnits == start[u].earnedUnits + EarnedBy(subs, owners, u).earnedUnits
    && users[u].submissionCount == start[u].submissionCount + EarnedBy(subs, owners, u).submissionCount
  }

  lemma ChainMoney(m: Mode, s: Sub, w: World, v: World)
    requires w.Valid() && v.Valid() && OnePayerInv(m, s, w) && SubInv(m, s, v) && w.chain <= v.chain
    ensures OnePayerInv(m, s, v)
  {
    hide SubInv;
    if s.rows.hash.Some? && Applied(s.rows.hash.value, w.chain) {
      LookupGrows(w.chain, v.chain, s.rows.hash.value);
    }
  }

  lemma NextExact(m: Mode, start: map<UserId, Totals>, s: System, l: Label, t: System)
    requires m.onePayer && EarningsInv(m, start, s) && Next(m, s, l, t)
    ensures EarningsInv(m, start, t)
  {
    match l
    case Act(i, a) => ActExact(m, start, s, i, a);
    case Accept(sub, owner) => AcceptExact(m, start, s, sub, owner);
    case _ => WorldExact(m, start, s, l, t);
  }

  lemma ActExact(m: Mode, start: map<UserId, Totals>, s: System, i: nat, a: Action)
    requires m.onePayer && EarningsInv(m, start, s) && Allowed(m, s, Act(i, a))
    ensures EarningsInv(m, start, Successor(m, s, Act(i, a)))
  {
    hide SubInv, MoneyInv, Single, Counted, Effect, Credit, Enabled, Exact;
    ActMoney(m, s.subs[i], s.world, a);
    AmountIsFixed(m, s.subs[i], s.world, a);
    CreditKeepsExact(start, s, i, Effect(m, s.subs[i], s.world, a), Credit(m, s.subs[i], s.world, a));
  }

  /** The clock, a wider view and a new ledger move no money. */
  lemma WorldExact(m: Mode, start: map<UserId, Totals>, s: System, l: Label, t: System)
    requires m.onePayer && EarningsInv(m, start, s) && Next(m, s, l, t) && !l.Act? && !l.Accept?
    ensures EarningsInv(m, start, t)
  {
    hide SubInv, MoneyInv, Single, Exact, Ordered;
    assert SystemInv(m, s);
    NextKeeps(m, s, l, t);
    forall i | 0 <= i < |t.subs| ensures OnePayerInv(m, t.subs[i], t.world) {
      ChainMoney(m, t.subs[i], s.world, t.world);
    }
    ExactIgnoresWorld(start, s, t.world);
  }

  lemma ExactIgnoresWorld(start: map<UserId, Totals>, s: System, world: World)
    requires Exact(start, s)
    ensures Exact(start, s.(world := world))
  {
  }

  lemma AcceptExact(m: Mode, start: map<UserId, Totals>, s: System, sub: Sub, owner: UserId)
    requires m.onePayer && EarningsInv(m, start, s) && Allowed(m, s, Accept(sub, owner))
    ensures EarningsInv(m, start, Successor(m, s, Accept(sub, owner)))
  {
    var t := Successor(m, s, Accept(sub, owner));
    assert t.subs[..|s.subs|] == s.subs && t.owners[..|s.subs|] == s.owners;
    FreshSubInv(m, sub, s.world);
    assert OnePayerInv(m, sub, s.world);
  }

  lemma {:induction false} RunExact(m: Mode, states: seq<System>, labels: seq<Label>, k: nat)
    requires m.onePayer && Run(m, states, labels) && k < |states|
    ensures EarningsInv(m, states[0].users, states[k])
    decreases k
  {
    if k > 0 {
      RunExact(m, states, labels, k - 1);
      assert Next(m, states[k - 1], labels[k - 1], states[k]);
      NextExact(m, states[0].users, states[k - 1], labels[k - 1], states[k]);
    }
  }

  /** Lifetime earnings are exact in every reachable state of every run with one payer per submission. */
  lemma EarningsAreExact(m: Mode, states: seq<System>, labels: seq<Label>, k: nat, u: UserId)
    requires m.onePayer && Run(m, states, labels) && k < |states| && u in states[k].users
    ensures u in states[0].users && |states[k].subs| == |states[k].owners|
    ensures states[k].users[u].earnedUnits
         == states[0].users[u].earnedUnits + EarnedBy(states[k].subs, states[k].owners, u).earnedUnits
    ensures states[k].users[u].submissionCount
         == states[0].users[u].submissionCount + EarnedBy(states[k].subs, states[k].owners, u).submissionCount
  {
    RunExact(m, states, labels, k);
    assert Owes(states[0].users, states[k].users, states[k].subs, states[k].owners, u);
  }

  /** A held row that was `sent` under its hash is held for a mismatch: that envelope applied and paid something else. */
  lemma HeldAfterSentIsMismatch(m: Mode, states: seq<System>, labels: seq<Label>, k: nat, i: nat)
    requires m.onePayer && Run(m, states, labels) && k < |states| && i < |states[k].subs|
    requires states[k].subs[i].rows.status == NeedsReconciliation && Counted(states[k].subs[i])
    ensures var s := states[k].subs[i];
            var h := s.rows.hash.value;
            h in s.envs && !s.envs[h].pays && Applied(h, states[k].world.chain)
  {
    RunExact(m, states, labels, k);
    assert OnePayerInv(m, states[k].subs[i], states[k].world);
  }
}
