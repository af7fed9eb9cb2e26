/**
 Mutual exclusion by lease: when every holder's refreshes land within the lease,
 at most one payer is between its claim and its record or release, across the
 worker, the retry path and the revival, and across hand-backs that clear the
 timestamp. It holds when no operator restores an old lease and either a returned
 hash has applied or no committed record is reported as lost;
 `PayoutCounterexamples` shows it fails otherwise.
 */
module PayoutLease {
  import opened Wrappers
  import opened StellarChain
  import opened PayoutRows
  import opened PayoutProtocol
  import opened PayoutSafety
  import opened PayoutEarnings

  predicate Holds(s: Sub, p: PayerId) {
    p in s.payers && Holding(s.payers[p].phase)
  }

  /** The row's timestamp is no older than this holder's last refresh, and that refresh is within the lease. */
  predicate UnderLease(r: Rows, refreshedAt: Time, now: Time) {
    && r.hash == None && r.lastRetriedAt.Some?
    && refreshedAt <= r.lastRetriedAt.value <= now < refreshedAt + RETRY_CLAIM_LEASE_MS
  }

  predicate LeaseMode(m: Mode) {
    m.leaseHeld && !m.restores && (m.contract == ReturnedApplied || !m.lostReplies)
  }

  ghost predicate LeaseInv(m: Mode, s: Sub, now: Time) {
    && (forall p, q :: Holds(s, p) && Holds(s, q) ==> p == q)
    && (forall p :: Holds(s, p) ==> UnderLease(s.rows, s.payers[p].refreshedAt, now))
    && (forall p :: p in s.payers && Committed(s.payers[p].phase) ==>
          m.contract == ReturnedApplied && s.rows.hash == Some(s.payers[p].phase.h))
  }

  /** A step of the holder itself, which may end its hold: the others neither hold nor have committed. */
  lemma HolderSteps(m: Mode, s: Sub, t: Sub, now: Time, p: PayerId)
    requires LeaseInv(m, s, now) && Holds(s, p)
    requires t.payers.Keys <= s.payers.Keys && forall q :: q in t.payers && q != p ==> t.payers[q] == s.payers[q]
    requires Holds(t, p) ==> UnderLease(t.rows, t.payers[p].refreshedAt, now)
    requires p in t.payers && Committed(t.payers[p].phase) ==>
               m.contract == ReturnedApplied && t.rows.hash == Some(t.payers[p].phase.h)
    ensures LeaseInv(m, t, now)
  {
    assert forall q :: Holds(t, q) && q != p ==> Holds(s, q);
    assert s.rows.hash == None;
  }

  /** A step that neither takes a hold nor touches the hash or the lease. */
  lemma OthersStep(m: Mode, s: Sub, t: Sub, now: Time)
    requires LeaseInv(m, s, now)
    requires t.rows.hash == s.rows.hash && t.rows.lastRetriedAt == s.rows.lastRetriedAt
    requires forall q :: q in t.payers && (Holds(t, q) || Committed(t.payers[q].phase)) ==>
               q in s.payers && t.payers[q] == s.payers[q]
    ensures LeaseInv(m, t, now)
  {
    assert forall q :: Holds(t, q) ==> Holds(s, q);
  }

  lemma HolderIsUnderLease(m: Mode, s: Sub, now: Time, p: PayerId)
    requires LeaseInv(m, s, now) && Holds(s, p)
    ensures UnderLease(s.rows, s.payers[p].refreshedAt, now)
  {
  }

  /** A holder that moves on, voiding at most an attempt, leaves the lease as it was. */
  lemma MoveLease(m: Mode, s: Sub, now: Time, p: PayerId, h: Hash, voided: bool, phase: Phase)
    requires LeaseInv(m, s, now) && Holds(s, p) && !Committed(phase)
    ensures LeaseInv(m, Move(Voided(s, h, voided), p, phase), now)
  {
    HolderSteps(m, s, Move(Voided(s, h, voided), p, phase), now, p);
  }

  lemma SettleLease(m: Mode, s: Sub, w: World, p: PayerId, step: SettleStep)
    requires w.seen <= |w.chain| && LeaseInv(m, s, w.now) && CanSettle(m, s, p, step)
    ensures LeaseInv(m, SettleEffect(s, w, p, step), w.now)
  {
    var role, phase := s.payers[p].role, s.payers[p].phase;
    if step.Throws? || step.StandDown? {
      LeavingLease(m, s, w, p, step);
      return;
    }
    hide LeaseInv, Lookup, VoidAttempt, HasOpen, ClosedPast;
    match step
    case FindOpen(found) =>
      MoveLease(m, s, w.now, p, 0, false,
                if found.Some? then Looking(found.value, s.rows.attempts[found.value].expiresAt) else Known(role, Clear));
    case FirstLook(readable) =>
      MoveLease(m, s, w.now, p, 0, false, Unsettled);
      MoveLease(m, s, w.now, p, 0, false, Known(role, Accepted(phase.h, false)));
      MoveLease(m, s, w.now, p, phase.h, true, Known(role, Clear));
      MoveLease(m, s, w.now, p, 0, false, AwaitLedger(phase.h, phase.expiresAt));
    case SeeLedger(readable) =>
      MoveLease(m, s, w.now, p, 0, false, LookAgain(phase.h, phase.expiresAt));
      MoveLease(m, s, w.now, p, 0, false, Unsettled);
    case SecondLook(readable) =>
      MoveLease(m, s, w.now, p, 0, false, Unsettled);
      MoveLease(m, s, w.now, p, 0, false, Known(role, Accepted(phase.h, false)));
      MoveLease(m, s, w.now, p, phase.h, true, Known(role, Clear));
  }

  lemma LeavingLease(m: Mode, s: Sub, w: World, p: PayerId, step: SettleStep)
    requires w.seen <= |w.chain| && LeaseInv(m, s, w.now) && CanSettle(m, s, p, step) && (step.Throws? || step.StandDown?)
    ensures LeaseInv(m, SettleEffect(s, w, p, step), w.now)
  {
    HolderIsUnderLease(m, s, w.now, p);
    hide LeaseInv, Lookup, HasOpen, JobWith, NextJobRetry;
    HolderSteps(m, s, SettleEffect(s, w, p, step), w.now, p);
  }

  lemma PayLease(m: Mode, s: Sub, w: World, p: PayerId, step: PayStep)
    requires w.seen <= |w.chain| && LeaseInv(m, s, w.now) && CanPay(m, s, w, p, step)
    ensures LeaseInv(m, PayEffect(s, w, p, step), w.now)
  {
    hide LeaseInv, Lookup, HasOpen, VoidAttempt, ClosedPast;
    var phase := s.payers[p].phase;
    match step
    case Refuse(e) => MoveLease(m, s, w.now, p, 0, false, Failing(e));
    case Journal(h, maxTime, pays, heard) =>
      HolderIsUnderLease(m, s, w.now, p);
      HolderSteps(m, s, PayEffect(s, w, p, step), w.now, p);
    case Submit =>
      FateLease(m, s, w.now, phase.h, InFlight);
      MoveLease(m, WithFate(s, phase.h, InFlight), w.now, p, 0, false, Submitted(phase.h));
    case Return => MoveLease(m, s, w.now, p, 0, false, Accepted(phase.h, false));
    case Reject(voided, rebuild, e) =>
      FateLease(m, s, w.now, phase.h, Rejected);
      MoveLease(m, WithFate(s, phase.h, Rejected), w.now, p, phase.h, voided, if rebuild then Clear else Failing(e));
    case ResolveFailed(voided) => MoveLease(m, s, w.now, p, phase.h, voided, Failing(NonRetryable));
    case SeeBoundPass => MoveLease(m, s, w.now, p, 0, false, PastBound(phase.h));
    case ResolveExpired(voided) => MoveLease(m, s, w.now, p, phase.h, voided, Failing(ExpiredUnincluded));
    case StopResolving => MoveLease(m, s, w.now, p, 0, false, Failing(AmbiguousSubmit));
  }

  lemma FateLease(m: Mode, s: Sub, now: Time, h: Hash, fate: Fate)
    requires LeaseInv(m, s, now)
    ensures LeaseInv(m, WithFate(s, h, fate), now) && forall p :: Holds(WithFate(s, h, fate), p) <==> Holds(s, p)
  {
    OthersStep(m, s, WithFate(s, h, fate), now);
  }

  /** A lost reply leaves a payer that may record again only when its envelope has applied. */
  lemma RecordLease(m: Mode, s: Sub, w: World, p: PayerId, lost: bool, at: Time)
    requires w.Valid() && LeaseMode(m) && LeaseInv(m, s, w.now) && CanEnd(m, s, w, p, Record(lost, at))
    ensures LeaseInv(m, AfterRecord(s, p, lost, at), w.now)
  {
    var h := s.payers[p].phase.h;
    var t := AfterRecord(s, p, lost, at);
    RecordSettlesOnly(s.payers[p].role.kind, s.rows, h, at);
    hide RecordPayment;
    if Holds(s, p) {
      HolderIsUnderLease(m, s, w.now, p);
      hide LeaseInv;
      HolderSteps(m, s, t, w.now, p);
    } else {
      assert Committed(s.payers[p].phase) && s.rows.hash == Some(h);
      assert forall q :: Holds(t, q) ==> Holds(s, q);
    }
  }

  lemma EndLease(m: Mode, s: Sub, w: World, p: PayerId, step: EndStep)
    requires w.Valid() && LeaseMode(m) && LeaseInv(m, s, w.now) && CanEnd(m, s, w, p, step)
    ensures LeaseInv(m, EndEffect(s, w, p, step), w.now)
  {
    if step.Record? {
      hide LeaseInv, AfterRecord, RecordPayment;
      RecordLease(m, s, w, p, step.lost, step.at);
    } else if Holds(s, p) {
      HolderIsUnderLease(m, s, w.now, p);
      hide LeaseInv, GiveUp, EndsPayout, Quarantine, RecordPayment, Revive;
      HolderSteps(m, s, EndEffect(s, w, p, step), w.now, p);
    } else {
      hide LeaseInv, EndEffect;
      AfterHoldLease(m, s, w, p, step);
      OthersStep(m, s, EndEffect(s, w, p, step), w.now);
    }
  }

  /** After its hold a payer writes neither the hash nor the lease. */
  lemma AfterHoldLease(m: Mode, s: Sub, w: World, p: PayerId, step: EndStep)
    requires CanEnd(m, s, w, p, step) && !step.Record? && !Holds(s, p)
    ensures var t := EndEffect(s, w, p, step);
            && t.rows.hash == s.rows.hash && t.rows.lastRetriedAt == s.rows.lastRetriedAt
            && forall q :: q in t.payers && (Holds(t, q) || Committed(t.payers[q].phase)) ==> q in s.payers && t.payers[q] == s.payers[q]
  {
    if step.EndPayout? {
      GiveUpLeavesJournal(Worker, s.rows, s.payers[p].base, s.payers[p].phase.e, w.now);
      WorkerLeavesLease(s.rows, s.payers[p].base, s.payers[p].phase.e, w.now);
    }
    hide RecordPayment, EndsPayout, GiveUp, Revive;
    var t := EndEffect(s, w, p, step);
    assert t.payers.Keys <= s.payers.Keys && forall q :: q in t.payers && q != p ==> t.payers[q] == s.payers[q];
  }

  lemma WorkerLeavesLease(r: Rows, base: nat, e: PayError, now: Time)
    ensures GiveUp(Worker, r, base, e, now).lastRetriedAt == r.lastRetriedAt
  {
  }

  /** Only a row with no hash and a live timestamp is held, so neither a settlement nor a reset can touch it. */
  lemma OutsideLease(m: Mode, s: Sub, w: World, step: OutsideStep)
    requires w.Valid() && LeaseMode(m) && LeaseInv(m, s, w.now) && CanOutside(m, s, w, step)
    requires m.contract == ReturnedApplied ==> SubInv(m, s, w)
    ensures LeaseInv(m, OutsideEffect(s, w, step), w.now)
  {
    hide SubInv;
    if step.SettleConfirmed? {
      ConfirmationLease(m, s, w, step.h);
    } else if step.SettleFailed? {
      HandBackLease(m, s, w, step.h);
    } else {
      hide LeaseInv;
      OperatorsLease(m, s, w, step);
    }
  }

  /** With nobody holding, any write that leaves the hash alone keeps the lease. */
  lemma UnheldStep(m: Mode, s: Sub, t: Sub, now: Time)
    requires LeaseInv(m, s, now) && Unheld(s) && t.payers == s.payers && t.rows.hash == s.rows.hash
    ensures LeaseInv(m, t, now)
  {
    assert forall q :: !Holds(t, q);
  }

  /** A hold shows on the row: its timestamp is live and it has no hash. */
  lemma HoldIsLive(m: Mode, s: Sub, now: Time)
    requires LeaseInv(m, s, now)
    ensures !RetryClaimIsLive(s.rows.lastRetriedAt, now) || s.rows.hash.Some? ==> Unheld(s)
  {
    if exists p :: Holds(s, p) {
      var p :| Holds(s, p);
      assert UnderLease(s.rows, s.payers[p].refreshedAt, now);
    } else {
      assert forall p :: p in s.payers ==> !Holds(s, p);
    }
  }

  lemma OperatorsLease(m: Mode, s: Sub, w: World, step: OutsideStep)
    requires w.seen <= |w.chain| && LeaseMode(m) && LeaseInv(m, s, w.now) && CanOutside(m, s, w, step)
    requires !step.SettleConfirmed? && !step.SettleFailed?
    ensures LeaseInv(m, OutsideEffect(s, w, step), w.now)
  {
    HoldIsLive(m, s, w.now);
    hide LeaseInv, Lookup, Unheld;
    var t := OutsideEffect(s, w, step);
    match step
    case Recheck => UnheldStep(m, s, t, w.now);
    case ResetByAdmin => UnheldStep(m, s, t, w.now);
    case RestoreByAdmin(o) => if Unheld(s) { UnheldStep(m, s, t, w.now); } else { OthersStep(m, s, t, w.now); }
    case _ => OthersStep(m, s, t, w.now);
  }

  // ----- when an admin retry may put its originals back -----

  function Restored(s: Sub, o: Originals): Sub {
    s.(rows := AdminRestore(s.rows, o.Status(), o.retryCount, o.lastRetriedAt))
  }

  /** What a reset read had lapsed by then, and so at any later time. */
  lemma ResetOriginalsLapsed(r: Rows, now: Time, later: Time)
    requires AdminReset(r, now).Some? && now <= later
    ensures !RetryClaimIsLive(OriginalsOf(r).lastRetriedAt, later)
  {
  }

  /** In one state: exactly when nobody holds, or the write finds the row changed. */
  lemma RestoreKeepsExactly(m: Mode, s: Sub, now: Time, o: Originals)
    requires LeaseInv(m, s, now) && !RetryClaimIsLive(o.lastRetriedAt, now)
    ensures LeaseInv(m, Restored(s, o), now) <==> Unheld(s) || !Restores(s.rows)
  {
    var t := Restored(s, o);
    if Unheld(s) {
      UnheldStep(m, s, t, now);
    } else if Restores(s.rows) {
      var p :| p in s.payers && Holding(s.payers[p].phase);
      assert Holds(s, p) && Holds(t, p);
      assert UnderLease(s.rows, s.payers[p].refreshedAt, now);
      assert !UnderLease(t.rows, t.payers[p].refreshedAt, now);
    } else {
      assert t == s;
    }
  }

  /** Whoever is at work on a row that reads like this, putting the originals back keeps the lease. */
  ghost predicate RestoreIsSafe(m: Mode, rows: Rows, now: Time, o: Originals) {
    forall s: Sub :: s.rows == rows && LeaseInv(m, s, now) ==> LeaseInv(m, Restored(s, o), now)
  }

  /** Somebody who claimed the row when its timestamp says. */
  function Holder(rows: Rows): Sub
    requires rows.lastRetriedAt.Some?
  {
    Sub(rows, true, map[], map[0 := Payer(Pays(Worker), 0, Claimed, rows.lastRetriedAt.value)], false, multiset{}, {})
  }

  /**
   From the row alone: exactly when its claim is not live, or the write would find it
   changed. The route checks the second only.
   */
  lemma RestoreSafeExactly(m: Mode, rows: Rows, now: Time, o: Originals)
    requires !RetryClaimIsLive(o.lastRetriedAt, now) && (rows.lastRetriedAt.Some? ==> rows.lastRetriedAt.value <= now)
    ensures RestoreIsSafe(m, rows, now, o) <==> !RetryClaimIsLive(rows.lastRetriedAt, now) || !Restores(rows)
  {
    if RetryClaimIsLive(rows.lastRetriedAt, now) && Restores(rows) {
      var s := Holder(rows);
      assert Holds(s, 0) && forall p :: Holds(s, p) ==> p == 0;
      assert LeaseInv(m, s, now);
      assert !Unheld(s) by { assert Holding(s.payers[0].phase); }
      RestoreKeepsExactly(m, s, now, o);
    } else {
      forall s: Sub | s.rows == rows && LeaseInv(m, s, now) ensures LeaseInv(m, Restored(s, o), now) {
        HoldIsLive(m, s, now);
        RestoreKeepsExactly(m, s, now, o);
      }
    }
  }

  lemma ConfirmationLease(m: Mode, s: Sub, w: World, h: Hash)
    requires w.Valid() && LeaseInv(m, s, w.now) && CanOutside(m, s, w, SettleConfirmed(h))
    ensures LeaseInv(m, OutsideEffect(s, w, SettleConfirmed(h)), w.now)
  {
    ConfirmSettlesOnly(s.rows, h, s.rows.status, w.now);
    assert s.rows.hash == None ==> OutsideEffect(s, w, SettleConfirmed(h)).rows == s.rows;
    hide Lookup, ConfirmPayment, HoldMismatch;
    var t := OutsideEffect(s, w, SettleConfirmed(h));
    assert forall q :: Holds(t, q) ==> Holds(s, q);
  }

  lemma HandBackLease(m: Mode, s: Sub, w: World, h: Hash)
    requires w.Valid() && LeaseMode(m) && LeaseInv(m, s, w.now) && CanOutside(m, s, w, SettleFailed(h))
    requires m.contract == ReturnedApplied ==> SubInv(m, s, w)
    ensures LeaseInv(m, OutsideEffect(s, w, SettleFailed(h)), w.now)
  {
    hide SubInv;
    forall p | p in s.payers && Committed(s.payers[p].phase) ensures s.payers[p].phase.h != h {
      NamesKnown(m, s, w, p);
      ViewSpeaksForChain(w, h);
    }
    hide Lookup;
    var t := OutsideEffect(s, w, SettleFailed(h));
    assert forall q :: Holds(t, q) ==> Holds(s, q);
  }

  lemma ClaimLease(m: Mode, s: Sub, w: World, a: Action)
    requires w.seen <= |w.chain| && LeaseInv(m, s, w.now) && Enabled(m, s, w, a) && (a.Claim? || a.Beat? || a.Die?)
    ensures LeaseInv(m, Effect(m, s, w, a), w.now)
  {
    hide SettleEffect, PayEffect, EndEffect, OutsideEffect, CanSettle, CanPay, CanEnd, CanOutside;
    match a
    case Claim(p, role) =>
      assert forall q :: Holds(s, q) ==> RetryClaimIsLive(s.rows.lastRetriedAt, w.now);
    case Beat(p) =>
      if Holds(s, p) {
        HolderIsUnderLease(m, s, w.now, p);
        hide LeaseInv;
        HolderSteps(m, s, Effect(m, s, w, a), w.now, p);
      } else {
        assert forall q :: Holds(Effect(m, s, w, a), q) ==> Holds(s, q);
      }
    case Die(p) => hide LeaseInv; OthersStep(m, s, Leave(s, p), w.now);
  }

  lemma ActLease(m: Mode, s: Sub, w: World, a: Action)
    requires w.Valid() && LeaseMode(m) && LeaseInv(m, s, w.now) && Enabled(m, s, w, a)
    requires m.contract == ReturnedApplied ==> SubInv(m, s, w)
    ensures LeaseInv(m, Effect(m, s, w, a), w.now)
  {
    hide SubInv, SettleEffect, PayEffect, EndEffect, OutsideEffect, CanSettle, CanPay, CanEnd, CanOutside;
    if a.Claim? || a.Beat? || a.Die? {
      ClaimLease(m, s, w, a);
      return;
    }
    match a
    case Settling(p, step) => hide LeaseInv; SettleLease(m, s, w, p, step);
    case Paying(p, step) => hide LeaseInv; PayLease(m, s, w, p, step);
    case Ending(p, step) => hide LeaseInv; EndLease(m, s, w, p, step);
    case Outside(step) => hide LeaseInv; OutsideLease(m, s, w, step);
  }

  /** Whoever may build holds the lease, so no other payer names an envelope. */
  lemma LeaseBuildsAlone(m: Mode, s: Sub, w: World, a: Action)
    requires w.seen <= |w.chain| && LeaseInv(m, s, w.now) && Enabled(m, s, w, a)
    ensures BuildsAlone(m, s, a)
  {
    if a.Paying? && a.pay.Journal? {
      assert Holds(s, a.p) && s.rows.hash == None;
      forall q | q in s.payers && Names(s.payers[q].phase) ensures q == a.p {
        assert Holds(s, q);
      }
    }
  }

  // ----- one step of the system -----

  ghost predicate AllUnderLease(m: Mode, s: System) {
    forall i :: 0 <= i < |s.subs| ==> LeaseInv(m, s.subs[i], s.world.now)
  }

  lemma NextLease(m: Mode, s: System, l: Label, t: System)
    requires LeaseMode(m) && s.world.Valid() && AllUnderLease(m, s) && Next(m, s, l, t)
    requires m.contract == ReturnedApplied ==> SystemInv(m, s)
    ensures AllUnderLease(m, t)
  {
    hide SubInv, Effect, Enabled, LeaseInv;
    forall i | 0 <= i < |t.subs| && (i == |s.subs| || LeaseInv(m, s.subs[i], s.world.now))
      ensures LeaseInv(m, t.subs[i], t.world.now)
    {
      match l
      case Tick(now) => TickLease(m, s.subs[i], s.world.now, now);
      case Act(j, a) => if i == j { ActLease(m, s.subs[i], s.world, a); }
      case Accept(sub, _) => if i == |s.subs| { FreshLease(m, sub, s.world.now); }
      case _ =>
    }
  }

  lemma FreshLease(m: Mode, s: Sub, now: Time)
    requires FreshSubmission(s)
    ensures LeaseInv(m, s, now)
  {
  }

  lemma TickLease(m: Mode, s: Sub, before: Time, now: Time)
    requires LeaseInv(m, s, before) && before <= now && RefreshedInTime(s, now)
    ensures LeaseInv(m, s, now)
  {
  }
}
