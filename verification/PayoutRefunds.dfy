/**
 Refund exclusion: once a refund names a submission no payer claims it again, and
 with one payer at a time no submission is both refunded and paid.
 */
module PayoutRefunds {
  import opened Wrappers
  import opened StellarChain
  import opened PayoutRows
  import opened PayoutProtocol
  import opened PayoutSafety
  import opened PayoutEarnings

  ghost predicate AllDead(s: Sub, c: Chain) {
    forall h :: h in s.envs ==> Dead(s.envs[h], h, c)
  }

  /** Phases a payer only reaches when nothing it or an earlier payer built can apply. */
  predicate NothingAlive(phase: Phase) {
    || phase == Clear
    || phase.Refunding?
    || ((phase.Failing? || phase.Released?) && phase.e != AmbiguousSubmit)
  }

  /** Phases from which a payer can no longer build. */
  predicate PastBuilding(phase: Phase) {
    phase.Refunding? || phase == Noting || Committed(phase)
  }

  ghost predicate RefundInv(s: Sub, c: Chain) {
    && (forall p :: p in s.payers && NothingAlive(s.payers[p].phase) ==> AllDead(s, c))
    && (s.rows.refunded || s.refundOwed ==> AllDead(s, c))
    && (s.rows.refunded || s.refundOwed ==> forall p :: p in s.payers ==> PastBuilding(s.payers[p].phase))
  }

  ghost predicate Guarded(m: Mode, s: Sub, w: World)
    requires w.seen <= |w.chain|
  {
    OnePayerInv(m, s, w) && RefundInv(s, w.chain)
  }

  /** When `h` is dead and the only envelope that could be live, all are dead. */
  lemma OnlyLiveDead(m: Mode, s: Sub, w: World, h: Hash)
    requires w.Valid() && SubInv(m, s, w)
    requires OnlyLive(s.rows.attempts, h) && (h in s.envs ==> Dead(s.envs[h], h, w.chain))
    ensures AllDead(s, w.chain)
  {
    forall g | g in s.envs ensures Dead(s.envs[g], g, w.chain) {
      assert g != h ==> !Live(s.rows.attempts, g);
    }
  }

  /** A payable row with nothing open has only dead envelopes. */
  lemma NothingOpenAllDead(m: Mode, s: Sub, w: World)
    requires w.Valid() && SubInv(m, s, w) && s.rows.hash == None && !HasOpen(s.rows.attempts)
    ensures AllDead(s, w.chain)
  {
    forall g | g in s.envs ensures Dead(s.envs[g], g, w.chain) {
      assert !OpenIn(s.rows.attempts, g);
    }
  }

  lemma AloneRefund(t: Sub, c: Chain, p: PayerId)
    requires AloneIn(t, p)
    requires p in t.payers && NothingAlive(t.payers[p].phase) ==> AllDead(t, c)
    requires t.rows.refunded || t.refundOwed ==> AllDead(t, c) && (p in t.payers ==> PastBuilding(t.payers[p].phase))
    ensures RefundInv(t, c)
  {
  }

  /** A settlement ends `clear` only when nothing an earlier payer built can apply. */
  lemma SettleClearsDead(m: Mode, s: Sub, w: World, p: PayerId, step: SettleStep)
    requires w.Valid() && Guarded(m, s, w) && CanSettle(m, s, p, step) && !step.Throws? && !step.StandDown?
    ensures p in SettleEffect(s, w, p, step).payers
    ensures SettleEffect(s, w, p, step).payers[p].phase == Clear ==> AllDead(s, w.chain)
  {
    ActsAlone(m, s, w, p);
    var phase := s.payers[p].phase;
    if step.FindOpen? {
      UnpaidRow(s, w.chain, p);
      if step.found == None {
        NothingOpenAllDead(m, s, w);
      }
    } else {
      NamesKnown(m, s, w, p);
      hide SubInv, MoneyInv, RefundInv, VoidAttempt;
      if Lookup(w.View(), phase.h) != NotFound {
        ViewSpeaksForChain(w, phase.h);
      } else if step.SecondLook? {
        AbsentIsDead(w, phase.h, phase.expiresAt);
      }
      if Dead(s.envs[phase.h], phase.h, w.chain) {
        OnlyLiveDead(m, s, w, phase.h);
      }
    }
  }

  /** A payer that could still build moves on, voiding at most an attempt. */
  lemma MoveRefund(s: Sub, c: Chain, p: PayerId, h: Hash, voided: bool, phase: Phase)
    requires RefundInv(s, c) && p in s.payers && AloneIn(s, p) && !PastBuilding(s.payers[p].phase)
    requires NothingAlive(phase) ==> AllDead(s, c)
    ensures RefundInv(Move(Voided(s, h, voided), p, phase), c)
  {
    var t := Move(Voided(s, h, voided), p, phase);
    assert !t.rows.refunded && !t.refundOwed && t.envs == s.envs;
    AloneRefund(t, c, p);
  }

  lemma LedgerSeenRefund(m: Mode, s: Sub, w: World, p: PayerId, step: SettleStep)
    requires w.Valid() && Guarded(m, s, w) && CanSettle(m, s, p, step) && (step.SeeLedger? || step.SecondLook?)
    ensures RefundInv(SettleEffect(s, w, p, step), w.chain)
  {
    ActsAlone(m, s, w, p);
    var role, phase := s.payers[p].role, s.payers[p].phase;
    SettleClearsDead(m, s, w, p, step);
    hide SubInv, MoneyInv, RefundInv, AllDead, AloneIn, Lookup, VoidAttempt, ClosedPast;
    match step
    case SeeLedger(readable) =>
      MoveRefund(s, w.chain, p, 0, false, LookAgain(phase.h, phase.expiresAt));
      MoveRefund(s, w.chain, p, 0, false, Unsettled);
    case SecondLook(readable) =>
      MoveRefund(s, w.chain, p, 0, false, Unsettled);
      MoveRefund(s, w.chain, p, 0, false, Known(role, Accepted(phase.h, false)));
      if readable && Lookup(w.View(), phase.h) != StellarChain.Confirmed {
        MoveRefund(s, w.chain, p, phase.h, true, Known(role, Clear));
      }
  }

  lemma SettleRefund(m: Mode, s: Sub, w: World, p: PayerId, step: SettleStep)
    requires w.Valid() && !m.journalThrows && Guarded(m, s, w) && CanSettle(m, s, p, step)
    ensures RefundInv(SettleEffect(s, w, p, step), w.chain)
  {
    ActsAlone(m, s, w, p);
    var role, phase := s.payers[p].role, s.payers[p].phase;
    if step.SeeLedger? || step.SecondLook? {
      hide Guarded, SettleEffect, CanSettle;
      LedgerSeenRefund(m, s, w, p, step);
      return;
    }
    if step.StandDown? {
      hide SubInv, MoneyInv, JobWith, NextJobRetry;
      AloneRefund(AfterStandDown(s, p), w.chain, p);
      return;
    }
    if step.FirstLook? {
      hide Guarded, SettleEffect, CanSettle;
      FirstLookRefund(m, s, w, p, step.readable);
      return;
    }
    if step.Throws? {
      hide SettleEffect, Guarded;
      ThrowRefund(m, s, w, p);
      return;
    }
    SettleClearsDead(m, s, w, p, step);
    hide SubInv, MoneyInv, RefundInv, AllDead, AloneIn, Lookup, VoidAttempt, HasOpen, ClosedPast;
    MoveRefund(s, w.chain, p, 0, false,
               if step.found.Some? then Looking(step.found.value, s.rows.attempts[step.found.value].expiresAt) else Known(role, Clear));
  }

  /** A throw is counted as an ordinary failure: harmless when nothing is open, or when the payer just goes away. */
  lemma ThrowRefund(m: Mode, s: Sub, w: World, p: PayerId)
    requires w.Valid() && !m.journalThrows && Guarded(m, s, w) && CanSettle(m, s, p, Throws)
    ensures RefundInv(SettleEffect(s, w, p, Throws), w.chain)
  {
    ActsAlone(m, s, w, p);
    UnpaidRow(s, w.chain, p);
    if s.payers[p].role == Pays(Worker) {
      NothingOpenAllDead(m, s, w);
    }
    hide SubInv, MoneyInv, HasOpen;
    AloneRefund(SettleEffect(s, w, p, Throws), w.chain, p);
  }

  /** Whatever became of the envelopes of a row that reads like this, none can apply any more. */
  ghost predicate RefundIsSafe(m: Mode, rows: Rows, p: PayerId) {
    forall s: Sub, w: World ::
      s.rows == rows && w.Valid() && Guarded(m, s, w) && p in s.payers && s.payers[p].phase == Claimed ==> AllDead(s, w.chain)
  }

  /** The same row, with its open envelope in flight and every other one refused. */
  function StillInFlight(s: Sub): Sub {
    s.(envs := map h | h in s.rows.attempts ::
         Envelope(s.rows.attempts[h].expiresAt, if OpenIn(s.rows.attempts, h) then InFlight else Rejected, true))
  }

  lemma StillInFlightGuarded(m: Mode, s: Sub, w: World, p: PayerId, now: Time)
    requires w.Valid() && Guarded(m, s, w) && p in s.payers && s.payers[p].phase == Claimed
    ensures Guarded(m, StillInFlight(s), World([], 0, now))
  {
    ActsAlone(m, s, w, p);
    UnpaidRow(s, w.chain, p);
    var t, v := StillInFlight(s), World([], 0, now);
    assert !s.rows.refunded && !s.refundOwed;
    assert forall h: Hash :: Lookup([], h) == NotFound;
    assert t.envs.Keys == t.rows.attempts.Keys;
    assert forall q :: q in t.payers ==> q == p;
    assert SubInv(m, t, v);
    AloneMoney(t, [], p);
  }

  /**
   From the row alone, exactly when the refund of a worker that could not read its journal is
   safe: when no attempt is open. The worker counts the throw as retryable without asking.
   */
  lemma UnreadRefundExactly(m: Mode, s: Sub, w: World, p: PayerId)
    requires w.Valid() && Guarded(m, s, w) && p in s.payers && s.payers[p].phase == Claimed
    ensures RefundIsSafe(m, s.rows, p) <==> !HasOpen(s.rows.attempts)
  {
    if HasOpen(s.rows.attempts) {
      StillInFlightGuarded(m, s, w, p, w.now);
      var t := StillInFlight(s);
      var h :| h in s.rows.attempts && OpenIn(s.rows.attempts, h);
      assert h in t.envs && !Dead(t.envs[h], h, []);
      assert World([], 0, w.now).Valid() && !AllDead(t, []);
    } else {
      forall t: Sub, v: World
        | t.rows == s.rows && v.Valid() && Guarded(m, t, v) && p in t.payers && t.payers[p].phase == Claimed
        ensures AllDead(t, v.chain)
      {
        ActsAlone(m, t, v, p);
        UnpaidRow(t, v.chain, p);
        NothingOpenAllDead(m, t, v);
      }
    }
  }

  lemma FirstLookRefund(m: Mode, s: Sub, w: World, p: PayerId, readable: bool)
    requires w.Valid() && Guarded(m, s, w) && CanSettle(m, s, p, FirstLook(readable))
    ensures RefundInv(SettleEffect(s, w, p, FirstLook(readable)), w.chain)
  {
    ActsAlone(m, s, w, p);
    var role, phase := s.payers[p].role, s.payers[p].phase;
    SettleClearsDead(m, s, w, p, FirstLook(readable));
    hide SubInv, MoneyInv, RefundInv, AllDead, AloneIn, Lookup, VoidAttempt, HasOpen, ClosedPast;
    MoveRefund(s, w.chain, p, 0, false, Unsettled);
    MoveRefund(s, w.chain, p, 0, false, Known(role, Accepted(phase.h, false)));
    MoveRefund(s, w.chain, p, 0, false, AwaitLedger(phase.h, phase.expiresAt));
    if readable && Lookup(w.View(), phase.h) == StellarChain.Failed {
      MoveRefund(s, w.chain, p, phase.h, true, Known(role, Clear));
    }
  }

  /** Once broadcast, only a proof that the envelope is dead leads back to building or refunding. */
  lemma PayRefund(m: Mode, s: Sub, w: World, p: PayerId, step: PayStep)
    requires w.Valid() && Guarded(m, s, w) && CanPay(m, s, w, p, step)
    ensures RefundInv(PayEffect(s, w, p, step), w.chain)
  {
    if step.Reject? || step.ResolveFailed? || step.ResolveExpired? {
      hide PayEffect, CanPay, Guarded;
      RefusedRefund(m, s, w, p, step);
      return;
    }
    if step.Journal? || step.Submit? {
      hide PayEffect, CanPay, Guarded;
      BuildRefund(m, s, w, p, step);
      return;
    }
    ActsAlone(m, s, w, p);
    hide SubInv, MoneyInv, VoidAttempt, Lookup, ClosedPast;
    var phase := s.payers[p].phase;
    match step
    case Refuse(e) => hide AllDead; MoveRefund(s, w.chain, p, 0, false, Failing(e));
    case Return => MoveRefund(s, w.chain, p, 0, false, Accepted(phase.h, false));
    case SeeBoundPass => MoveRefund(s, w.chain, p, 0, false, PastBound(phase.h));
    case StopResolving => MoveRefund(s, w.chain, p, 0, false, Failing(AmbiguousSubmit));
  }

  /** An envelope is built, or thrown away unsubmitted, only where everything before it is dead. */
  lemma BuildRefund(m: Mode, s: Sub, w: World, p: PayerId, step: PayStep)
    requires w.Valid() && Guarded(m, s, w) && CanPay(m, s, w, p, step) && (step.Journal? || step.Submit?)
    ensures RefundInv(PayEffect(s, w, p, step), w.chain)
  {
    ActsAlone(m, s, w, p);
    hide SubInv, MoneyInv, VoidAttempt, Lookup, ClosedPast, HasOpen;
    AloneRefund(PayEffect(s, w, p, step), w.chain, p);
  }

  lemma RefusedRefund(m: Mode, s: Sub, w: World, p: PayerId, step: PayStep)
    requires w.Valid() && Guarded(m, s, w) && CanPay(m, s, w, p, step)
    requires step.Reject? || step.ResolveFailed? || step.ResolveExpired?
    ensures RefundInv(PayEffect(s, w, p, step), w.chain)
  {
    ActsAlone(m, s, w, p);
    NamesKnown(m, s, w, p);
    hide SubInv, MoneyInv, VoidAttempt, Lookup, ClosedPast;
    var phase := s.payers[p].phase;
    match step
    case Reject(voided, rebuild, e) =>
      var t := WithFate(s, phase.h, Rejected);
      FateKeeps(m, s, w, phase.h, Rejected);
      OnlyLiveDead(m, t, w, phase.h);
      assert RefundInv(t, w.chain);
      hide AllDead, RefundInv;
      MoveRefund(t, w.chain, p, phase.h, voided, if rebuild then Clear else Failing(e));
    case ResolveFailed(voided) =>
      ViewSpeaksForChain(w, phase.h);
      OnlyLiveDead(m, s, w, phase.h);
      hide AllDead, RefundInv;
      MoveRefund(s, w.chain, p, phase.h, voided, Failing(NonRetryable));
    case ResolveExpired(voided) =>
      AbsentIsDead(w, phase.h, s.envs[phase.h].maxTime);
      OnlyLiveDead(m, s, w, phase.h);
      hide AllDead, RefundInv;
      MoveRefund(s, w.chain, p, phase.h, voided, Failing(ExpiredUnincluded));
  }

  lemma EndPayoutRefund(m: Mode, s: Sub, w: World, p: PayerId)
    requires w.Valid() && Guarded(m, s, w) && CanEnd(m, s, w, p, EndPayout)
    ensures RefundInv(AfterEnd(s, w, p), w.chain)
  {
    ActsAlone(m, s, w, p);
    var payer := s.payers[p];
    hide SubInv, MoneyInv, GiveUp, EndsPayout;
    GiveUpLeavesJournal(payer.role.kind, s.rows, payer.base, payer.phase.e, w.now);
    AmbiguousNeverEnds(payer.role.kind, s.rows, payer.base);
    AloneRefund(AfterEnd(s, w, p), w.chain, p);
  }

  /** An outcome that may have settled is never refunded by the payer that met it. */
  lemma AmbiguousNeverEnds(kind: PayerKind, r: Rows, base: nat)
    ensures !EndsPayout(kind, r, base, AmbiguousSubmit)
  {
  }

  lemma RecordRefund(m: Mode, s: Sub, w: World, p: PayerId, lost: bool, at: Time)
    requires w.Valid() && Guarded(m, s, w) && CanEnd(m, s, w, p, Record(lost, at))
    ensures RefundInv(AfterRecord(s, p, lost, at), w.chain)
  {
    ActsAlone(m, s, w, p);
    hide SubInv, MoneyInv, RecordPayment;
    RecordSettlesOnly(s.payers[p].role.kind, s.rows, s.payers[p].phase.h, at);
    AloneRefund(AfterRecord(s, p, lost, at), w.chain, p);
  }

  lemma EndRefund(m: Mode, s: Sub, w: World, p: PayerId, step: EndStep)
    requires w.Valid() && Guarded(m, s, w) && CanEnd(m, s, w, p, step)
    ensures RefundInv(EndEffect(s, w, p, step), w.chain)
  {
    if step.EndPayout? {
      hide Guarded, AfterEnd, CanEnd;
      EndPayoutRefund(m, s, w, p);
    } else if step.Record? {
      hide Guarded, AfterRecord, CanEnd;
      RecordRefund(m, s, w, p, step.lost, step.at);
    } else {
      hide CanEnd, EndEffect;
      SmallEndRefund(m, s, w, p, step);
    }
  }

  lemma SmallEndRefund(m: Mode, s: Sub, w: World, p: PayerId, step: EndStep)
    requires w.Valid() && Guarded(m, s, w) && CanEnd(m, s, w, p, step) && !step.EndPayout? && !step.Record?
    ensures RefundInv(EndEffect(s, w, p, step), w.chain)
  {
    hide OnePayerInv, RefundInv, AllDead, AfterEnd, AfterRecord, RecordPayment, GiveUp, EndsPayout, CronNote, Revive;
    ActsAlone(m, s, w, p);
    PhaseKnows(s, w.chain, p);
    var t := EndEffect(s, w, p, step);
    match step
    case Release => SmallStepRefund(s, t, w.chain, p);
    case RefundDebit => SmallStepRefund(s, t, w.chain, p);
    case NoteError => NoteLeavesRefund(s.rows); LeaveRefund(s, t, w.chain, p);
    case HandOver => NoteLeavesRefund(s.rows); LeaveRefund(s, t, w.chain, p);
    case QuarantinePayment => LeaveRefund(s, t, w.chain, p);
  }

  lemma PhaseKnows(s: Sub, c: Chain, p: PayerId)
    requires RefundInv(s, c) && p in s.payers
    ensures NothingAlive(s.payers[p].phase) ==> AllDead(s, c)
    ensures !PastBuilding(s.payers[p].phase) ==> !s.rows.refunded && !s.refundOwed
  {
  }

  lemma NoteLeavesRefund(r: Rows)
    ensures CronNote(r).refunded == Revive(r).refunded == r.refunded
  {
  }

  lemma SmallStepRefund(s: Sub, t: Sub, c: Chain, p: PayerId)
    requires AloneIn(s, p) && t.payers.Keys <= s.payers.Keys && t.envs == s.envs
    requires p in t.payers && NothingAlive(t.payers[p].phase) ==> AllDead(s, c)
    requires t.rows.refunded || t.refundOwed ==> AllDead(s, c) && (p in t.payers ==> PastBuilding(t.payers[p].phase))
    ensures RefundInv(t, c)
  {
  }

  /** A payer that leaves without owing or refunding anything. */
  lemma LeaveRefund(s: Sub, t: Sub, c: Chain, p: PayerId)
    requires RefundInv(s, c) && AloneIn(s, p) && t.payers == s.payers - {p} && t.envs == s.envs
    requires t.rows.refunded == s.rows.refunded && t.refundOwed == s.refundOwed
    ensures RefundInv(t, c)
  {
  }

  /** A hand-back owes a refund only for a row whose one live envelope was included and failed. */
  lemma OutsideRefund(m: Mode, s: Sub, w: World, step: OutsideStep)
    requires w.Valid() && Guarded(m, s, w) && CanOutside(m, s, w, step)
    ensures RefundInv(OutsideEffect(s, w, step), w.chain)
  {
    hide SubInv, ConfirmPayment;
    if step.SettleConfirmed? {
      ConfirmSettlesOnly(s.rows, step.h, s.rows.status, w.now);
    } else if step.SettleFailed? && Unchanged(s.rows, s.rows.status, step.h) {
      ViewSpeaksForChain(w, step.h);
      OnlyLiveDead(m, s, w, step.h);
    }
  }

  lemma ActRefund(m: Mode, s: Sub, w: World, a: Action)
    requires w.Valid() && !m.journalThrows && Guarded(m, s, w) && Enabled(m, s, w, a)
    ensures Guarded(m, Effect(m, s, w, a), w)
  {
    ActMoney(m, s, w, a);
    hide OnePayerInv;
    match a
    case Claim(p, role) =>
    case Beat(p) =>
    case Die(p) =>
    case Settling(p, step) => hide RefundInv; SettleRefund(m, s, w, p, step);
    case Paying(p, step) => hide RefundInv; PayRefund(m, s, w, p, step);
    case Ending(p, step) => hide RefundInv; EndRefund(m, s, w, p, step);
    case Outside(step) => hide RefundInv; OutsideRefund(m, s, w, step);
  }

  // ----- whole runs -----

  lemma ChainRefund(s: Sub, c: Chain, l: Ledger)
    requires RefundInv(s, c) && Includes(s, l) && (c != [] ==> c[|c| - 1].closeTime < l.closeTime)
    ensures RefundInv(s, c + [l])
  {
    if AllDead(s, c) {
      forall h | h in s.envs ensures Dead(s.envs[h], h, c + [l]) {
        DeadStaysDead(s.envs[h], h, c, l);
      }
    }
  }

  lemma {:induction false} RunRefunds(m: Mode, states: seq<System>, labels: seq<Label>, k: nat)
    requires m.onePayer && !m.journalThrows && Run(m, states, labels) && k < |states|
    ensures states[k].world.Valid() && forall i :: 0 <= i < |states[k].subs| ==> Guarded(m, states[k].subs[i], states[k].world)
    decreases k
  {
    RunExact(m, states, labels, k);
    if k > 0 {
      RunRefunds(m, states, labels, k - 1);
      assert Next(m, states[k - 1], labels[k - 1], states[k]);
      hide Run, Next, OnePayerInv, RefundInv;
      NextRefund(m, states[k - 1], labels[k - 1], states[k]);
    }
  }

  lemma NextRefund(m: Mode, s: System, l: Label, t: System)
    requires s.world.Valid() && m.onePayer && !m.journalThrows && Next(m, s, l, t)
    requires forall i :: 0 <= i < |s.subs| ==> Guarded(m, s.subs[i], s.world)
    ensures forall i :: 0 <= i < |t.subs| ==> RefundInv(t.subs[i], t.world.chain)
  {
    hide OnePayerInv;
    match l
    case Act(j, a) =>
      hide RefundInv, Effect, Enabled, Credit;
      ActRefund(m, s.subs[j], s.world, a);
    case Close(ledger) =>
      hide RefundInv, Includes;
      forall i | 0 <= i < |t.subs| ensures RefundInv(t.subs[i], t.world.chain) {
        ChainRefund(s.subs[i], s.world.chain, ledger);
      }
    case Accept(sub, _) =>
      assert RefundInv(sub, s.world.chain);
      hide RefundInv;
    case _ => hide RefundInv;
  }

  /**
   No submission is both refunded and paid, and none that is refunded can be paid in any
   future of the chain: with one payer at a time, and a journal that can be read.
   */
  lemma NeverRefundedAndPaid(m: Mode, states: seq<System>, labels: seq<Label>, k: nat, i: nat, h: Hash)
    requires m.onePayer && !m.journalThrows && Run(m, states, labels) && k < |states| && i < |states[k].subs|
    requires states[k].subs[i].rows.refunded && h in states[k].subs[i].envs
    ensures !Applied(h, states[k].world.chain)
    ensures Dead(states[k].subs[i].envs[h], h, states[k].world.chain)
  {
    RunRefunds(m, states, labels, k);
    assert Guarded(m, states[k].subs[i], states[k].world);
  }

  /** A refund is never forgotten, and whoever claims while it stands is refused. */
  lemma RefundStands(m: Mode, s: Sub, w: World, a: Action)
    requires w.seen <= |w.chain| && s.rows.refunded && Enabled(m, s, w, a)
    ensures !a.Claim? && Effect(m, s, w, a).rows.refunded
  {
    hide SettleEffect, PayEffect, EndEffect, OutsideEffect, CanSettle, CanPay, CanEnd, CanOutside;
    match a
    case Claim(_, _) =>
    case Beat(_) =>
    case Die(_) =>
    case Settling(p, step) => RefundedThroughSettle(m, s, w, p, step);
    case Paying(p, step) => RefundedThroughPay(m, s, w, p, step);
    case Ending(p, step) => RefundedThroughEnd(m, s, w, p, step);
    case Outside(step) => RefundedThroughOutside(m, s, w, step);
  }

  lemma RefundedThroughSettle(m: Mode, s: Sub, w: World, p: PayerId, step: SettleStep)
    requires w.seen <= |w.chain| && s.rows.refunded && CanSettle(m, s, p, step)
    ensures SettleEffect(s, w, p, step).rows.refunded
  {
    hide Lookup, HasOpen, ClosedPast, VoidAttempt, AfterStandDown;
    if step.StandDown? {
      StandDownAmount(s, p);
    } else if !step.FindOpen? && !step.Throws? {
      VoidAmount(s.rows, s.payers[p].phase.h);
    }
  }

  lemma RefundedThroughPay(m: Mode, s: Sub, w: World, p: PayerId, step: PayStep)
    requires w.seen <= |w.chain| && s.rows.refunded && CanPay(m, s, w, p, step)
    ensures PayEffect(s, w, p, step).rows.refunded
  {
  }

  lemma RefundedThroughEnd(m: Mode, s: Sub, w: World, p: PayerId, step: EndStep)
    requires s.rows.refunded && CanEnd(m, s, w, p, step)
    ensures EndEffect(s, w, p, step).rows.refunded
  {
    hide GiveUp, RecordPayment, EndsPayout;
    if step.EndPayout? {
      GiveUpLeavesJournal(s.payers[p].role.kind, s.rows, s.payers[p].base, s.payers[p].phase.e, w.now);
    } else if step.Record? {
      RecordSettlesOnly(s.payers[p].role.kind, s.rows, s.payers[p].phase.h, step.at);
    }
  }

  lemma RefundedThroughOutside(m: Mode, s: Sub, w: World, step: OutsideStep)
    requires w.seen <= |w.chain| && s.rows.refunded && CanOutside(m, s, w, step)
    ensures OutsideEffect(s, w, step).rows.refunded
  {
  }

  /** Over a whole run, in any mode: no payer claims a submission after a refund has named it. */
  lemma {:induction false} NoClaimAfterRefund(m: Mode, states: seq<System>, labels: seq<Label>, j: nat, k: nat, i: nat)
    requires Run(m, states, labels) && j <= k < |labels| && i < |states[j].subs| && states[j].subs[i].rows.refunded
    ensures i < |states[k].subs| && states[k].subs[i].rows.refunded
    ensures !(labels[k].Act? && labels[k].i == i && labels[k].a.Claim?)
    decreases k
  {
    hide Next;
    if j < k {
      NoClaimAfterRefund(m, states, labels, j, k - 1, i);
      assert Next(m, states[k - 1], labels[k - 1], states[k]);
      NextRefundStands(m, states[k - 1], labels[k - 1], states[k], i);
    }
    assert Next(m, states[k], labels[k], states[k + 1]);
    NextRefundStands(m, states[k], labels[k], states[k + 1], i);
  }

  lemma NextRefundStands(m: Mode, s: System, l: Label, t: System, i: nat)
    requires Next(m, s, l, t) && i < |s.subs| && s.subs[i].rows.refunded
    ensures i < |t.subs| && t.subs[i].rows.refunded
    ensures !(l.Act? && l.i == i && l.a.Claim?)
  {
    hide Effect, Enabled, Credit;
    if l.Act? && l.i == i {
      RefundStands(m, s.subs[i], s.world, l.a);
    }
  }
}
