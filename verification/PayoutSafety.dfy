/**
 Safety of the payout journal over every run: at most one envelope per submission
 ever applies, and no applied envelope is forgotten.
 */
module PayoutSafety {
  import opened Wrappers
  import opened StellarChain
  import opened PayoutRows
  import opened PayoutProtocol

  /** No future of the chain can apply this envelope. */
  predicate Dead(e: Envelope, h: Hash, c: Chain) {
    || Lookup(c, h) == StellarChain.Failed
    || (Lookup(c, h) == NotFound && (e.fate == Rejected || ClosedPast(c, e.maxTime)))
  }

  predicate Applied(h: Hash, c: Chain) {
    Lookup(c, h) == StellarChain.Confirmed
  }

  predicate Live(attempts: map<Hash, Attempt>, h: Hash) {
    h in attempts && attempts[h].status != Void
  }

  /** The only attempt that may be open or confirmed is `h`. */
  ghost predicate OnlyLive(attempts: map<Hash, Attempt>, h: Hash) {
    forall g :: Live(attempts, g) ==> g == h
  }

  predicate Names(phase: Phase) {
    || phase.Looking? || phase.AwaitLedger? || phase.LookAgain?
    || phase.Journalled? || phase.Submitted? || phase.PastBound? || phase.Accepted?
  }

  /** The journal and the envelopes agree, and every ledger keeps each envelope's bound. */
  ghost predicate Journalled(s: Sub, c: Chain) {
    && s.envs.Keys == s.rows.attempts.Keys
    && (forall h :: h in s.envs ==>
          && s.rows.attempts[h].expiresAt == s.envs[h].maxTime
          && WithinBound(c, h, s.envs[h].maxTime))
  }

  /** The core: void means dead, one attempt is not void, and only the recorded hash is confirmed. */
  ghost predicate OneLive(s: Sub, c: Chain) {
    && (forall h :: h in s.rows.attempts && h in s.envs && s.rows.attempts[h].status == Void ==> Dead(s.envs[h], h, c))
    && (forall g, h :: Live(s.rows.attempts, g) && Live(s.rows.attempts, h) ==> g == h)
    && (forall h :: h in s.rows.attempts && s.rows.attempts[h].status == Landed ==> s.rows.hash == Some(h))
  }

  /** What each payer knows of the envelope it names. */
  ghost predicate PayerKnows(m: Mode, s: Sub, w: World, phase: Phase)
    requires w.seen <= |w.chain|
  {
    && (Names(phase) ==> phase.h in s.rows.attempts && (Exclusive(m) ==> OnlyLive(s.rows.attempts, phase.h)))
    && (phase.Accepted? ==>
          && OnlyLive(s.rows.attempts, phase.h)
          && (m.contract == ReturnedApplied ==> Applied(phase.h, w.chain)))
    && (phase.Looking? || phase.AwaitLedger? || phase.LookAgain? ==>
          phase.h in s.rows.attempts && phase.expiresAt == s.rows.attempts[phase.h].expiresAt)
    && (phase.LookAgain? ==> ClosedPast(w.View(), phase.expiresAt))
    && (phase.PastBound? ==> phase.h in s.rows.attempts && ClosedPast(w.View(), s.rows.attempts[phase.h].expiresAt))
  }

  /** One payer at a time: by assumption, or because every lease is kept, none is restored and every record is acknowledged. */
  predicate Exclusive(m: Mode) {
    m.onePayer || (m.leaseHeld && !m.restores && !m.lostReplies)
  }

  /** What a payer that builds an envelope needs of the lease: no other payer names one. */
  ghost predicate BuildsAlone(m: Mode, s: Sub, a: Action) {
    a.Paying? && a.pay.Journal? && Exclusive(m) ==> forall q :: q in s.payers && Names(s.payers[q].phase) ==> q == a.p
  }

  ghost predicate SubInv(m: Mode, s: Sub, w: World)
    requires w.seen <= |w.chain|
  {
    && Journalled(s, w.chain)
    && OneLive(s, w.chain)
    && forall p :: p in s.payers ==> PayerKnows(m, s, w, s.payers[p].phase)
  }

  /** At-most-once needs no lease under the first contract, and one payer at a time under the second. */
  predicate Sound(m: Mode) {
    m.contract == ReturnedApplied || Exclusive(m)
  }

  // ----- one step -----

  /** What Horizon shows is true of the whole chain. */
  lemma ViewSpeaksForChain(w: World, h: Hash)
    requires w.Valid() && Lookup(w.View(), h) != NotFound
    ensures Lookup(w.chain, h) == Lookup(w.View(), h)
  {
    LookupGrows(w.View(), w.chain, h);
  }

  /** The settlement's proof: absent from a view that ends past the bound is absent from the whole chain. */
  lemma AbsentIsDead(w: World, h: Hash, maxTime: Time)
    requires w.Valid() && WithinBound(w.chain, h, maxTime)
    requires Lookup(w.View(), h) == NotFound && ClosedPast(w.View(), maxTime)
    ensures Lookup(w.chain, h) == NotFound && ClosedPast(w.chain, maxTime)
  {
    AbsentPastBound(w.View(), w.chain, h, maxTime);
    ClosedPastGrows(w.View(), w.chain, maxTime);
  }

  /** Voiding a dead envelope keeps the core. */
  lemma VoidKeeps(m: Mode, s: Sub, w: World, h: Hash, voided: bool)
    requires w.Valid() && SubInv(m, s, w)
    requires h in s.envs && Dead(s.envs[h], h, w.chain)
    ensures SubInv(m, Voided(s, h, voided), w)
    ensures Voided(s, h, voided).payers == s.payers && Voided(s, h, voided).rows.hash == s.rows.hash
    ensures Voided(s, h, voided).envs == s.envs
  {
    var t := Voided(s, h, voided);
    assert forall g :: Live(t.rows.attempts, g) ==> Live(s.rows.attempts, g);
  }

  lemma MoveKeeps(m: Mode, s: Sub, w: World, p: PayerId, phase: Phase)
    requires w.Valid() && SubInv(m, s, w) && p in s.payers && PayerKnows(m, s, w, phase)
    ensures SubInv(m, Move(s, p, phase), w)
  {
  }

  lemma MoveVoidedKeeps(m: Mode, s: Sub, w: World, p: PayerId, h: Hash, voided: bool, phase: Phase)
    requires w.Valid() && SubInv(m, s, w) && p in s.payers && !Names(phase)
    requires h in s.envs && Dead(s.envs[h], h, w.chain)
    ensures SubInv(m, Move(Voided(s, h, voided), p, phase), w)
  {
    hide SubInv;
    VoidKeeps(m, s, w, h, voided);
    MoveKeeps(m, Voided(s, h, voided), w, p, phase);
  }

  /** An applied envelope cannot be void, so it is the one live attempt. */
  lemma AppliedIsOnlyLive(m: Mode, s: Sub, w: World, h: Hash)
    requires w.Valid() && SubInv(m, s, w) && h in s.envs && Applied(h, w.chain)
    ensures Live(s.rows.attempts, h) && OnlyLive(s.rows.attempts, h)
  {
    assert Live(s.rows.attempts, h);
  }

  lemma AcceptKeeps(m: Mode, s: Sub, w: World, p: PayerId, h: Hash)
    requires w.Valid() && SubInv(m, s, w) && p in s.payers && h in s.envs && Applied(h, w.chain)
    ensures SubInv(m, Move(s, p, Known(s.payers[p].role, Accepted(h, false))), w)
  {
    AppliedIsOnlyLive(m, s, w, h);
    MoveKeeps(m, s, w, p, Known(s.payers[p].role, Accepted(h, false)));
  }

  /** What a payer in a naming phase knows, out of the invariant. */
  lemma NamesKnown(m: Mode, s: Sub, w: World, p: PayerId)
    requires w.Valid() && SubInv(m, s, w) && p in s.payers && Names(s.payers[p].phase)
    ensures s.payers[p].phase.h in s.envs && PayerKnows(m, s, w, s.payers[p].phase)
    ensures WithinBound(w.chain, s.payers[p].phase.h, s.envs[s.payers[p].phase.h].maxTime)
    ensures s.rows.attempts[s.payers[p].phase.h].expiresAt == s.envs[s.payers[p].phase.h].maxTime
  {
    assert PayerKnows(m, s, w, s.payers[p].phase);
  }

  lemma FirstLookKeeps(m: Mode, s: Sub, w: World, p: PayerId)
    requires w.Valid() && SubInv(m, s, w) && CanSettle(m, s, p, FirstLook(true))
    ensures SubInv(m, SettleEffect(s, w, p, FirstLook(true)), w)
  {
    var role, phase := s.payers[p].role, s.payers[p].phase;
    NamesKnown(m, s, w, p);
    hide SubInv;
    match Lookup(w.View(), phase.h)
    case NotFound => MoveKeeps(m, s, w, p, AwaitLedger(phase.h, phase.expiresAt));
    case Confirmed =>
      ViewSpeaksForChain(w, phase.h);
      AcceptKeeps(m, s, w, p, phase.h);
    case Failed =>
      ViewSpeaksForChain(w, phase.h);
      MoveVoidedKeeps(m, s, w, p, phase.h, true, Known(role, Clear));
  }

  lemma SecondLookKeeps(m: Mode, s: Sub, w: World, p: PayerId)
    requires w.Valid() && SubInv(m, s, w) && CanSettle(m, s, p, SecondLook(true))
    ensures SubInv(m, SettleEffect(s, w, p, SecondLook(true)), w)
  {
    var role, phase := s.payers[p].role, s.payers[p].phase;
    NamesKnown(m, s, w, p);
    hide SubInv;
    if Lookup(w.View(), phase.h) == NotFound {
      AbsentIsDead(w, phase.h, phase.expiresAt);
    } else {
      ViewSpeaksForChain(w, phase.h);
    }
    if Lookup(w.View(), phase.h) == StellarChain.Confirmed {
      AcceptKeeps(m, s, w, p, phase.h);
    } else {
      MoveVoidedKeeps(m, s, w, p, phase.h, true, Known(role, Clear));
    }
  }

  /** Every step of `settleOpenAttempt` keeps the invariant: it voids only on proof. */
  lemma SettleKeeps(m: Mode, s: Sub, w: World, p: PayerId, step: SettleStep)
    requires w.Valid() && SubInv(m, s, w) && CanSettle(m, s, p, step)
    ensures SubInv(m, SettleEffect(s, w, p, step), w)
  {
    hide SubInv, Lookup;
    var phase := s.payers[p].phase;
    if step.FindOpen? {
      hide SettleEffect;
      FindOpenKeeps(m, s, w, p, step.found);
    } else if step == FirstLook(true) {
      hide SettleEffect;
      FirstLookKeeps(m, s, w, p);
    } else if step == SecondLook(true) {
      hide SettleEffect;
      SecondLookKeeps(m, s, w, p);
    } else if step == SeeLedger(true) && ClosedPast(w.View(), phase.expiresAt) {
      hide AfterStandDown;
      NamesKnown(m, s, w, p);
      MoveKeeps(m, s, w, p, LookAgain(phase.h, phase.expiresAt));
    } else {
      UnsettledIsPassive(m, s, w, p, step);
      hide SettleEffect, CanSettle, Passive;
      PassiveKeeps(m, s, SettleEffect(s, w, p, step), w);
    }
  }

  /** A read that failed, a ledger not yet past the bound, a throw and standing down touch no attempt. */
  lemma UnsettledIsPassive(m: Mode, s: Sub, w: World, p: PayerId, step: SettleStep)
    requires w.seen <= |w.chain| && CanSettle(m, s, p, step) && !step.FindOpen? && step != FirstLook(true) && step != SecondLook(true)
    requires step == SeeLedger(true) ==> !ClosedPast(w.View(), s.payers[p].phase.expiresAt)
    ensures Passive(s, SettleEffect(s, w, p, step))
  {
    hide Passive, Lookup, HasOpen, JobWith;
    var released := ReleaseClaim(s.rows);
    UnnamingIsPassive(s, s.rows, p, Unsettled);
    UnnamingIsPassive(s, s.rows, p, Failing(Retryable));
    UnnamingIsPassive(s, released, p, Unsettled);
    UnnamingIsPassive(s, released.(job := JobWith(released.job, Queued, NextJobRetry(released) - 1)), p, Unsettled);
    assert s.(rows := s.rows) == s;
  }

  lemma FindOpenKeeps(m: Mode, s: Sub, w: World, p: PayerId, found: Option<Hash>)
    requires w.Valid() && SubInv(m, s, w) && CanSettle(m, s, p, FindOpen(found))
    ensures SubInv(m, SettleEffect(s, w, p, FindOpen(found)), w)
  {
    if found.Some? {
      assert Live(s.rows.attempts, found.value);
      MoveKeeps(m, s, w, p, Looking(found.value, s.rows.attempts[found.value].expiresAt));
    } else {
      MoveKeeps(m, s, w, p, Known(s.payers[p].role, Clear));
    }
  }

  // ----- paying -----

  /** `journal.open` on a payable row: every earlier attempt is void, so the new one is alone. */
  lemma JournalKeeps(m: Mode, s: Sub, w: World, p: PayerId, h: Hash, maxTime: Time, pays: bool, heard: bool)
    requires w.Valid() && Sound(m) && SubInv(m, s, w) && CanPay(m, s, w, p, Journal(h, maxTime, pays, heard))
    requires BuildsAlone(m, s, Paying(p, Journal(h, maxTime, pays, heard)))
    ensures SubInv(m, PayEffect(s, w, p, Journal(h, maxTime, pays, heard)), w)
  {
    var t := PayEffect(s, w, p, Journal(h, maxTime, pays, heard));
    JournalShape(m, s, w, p, h, maxTime, pays, heard);
    OldAttemptsVoid(m, s, w);
    AbsentWithinBound(w.chain, h, maxTime);
    hide PayEffect, CanPay, HasOpen, Lookup;
    OpenedAlone(m, s, w, t, h, maxTime);
    forall q | q in t.payers ensures PayerKnows(m, t, w, t.payers[q].phase) {
      if q != p {
        OtherPayerKnows(m, s, w, t, h, q);
      }
    }
  }

  /** A row with no hash and nothing open has only void attempts. */
  lemma OldAttemptsVoid(m: Mode, s: Sub, w: World)
    requires w.seen <= |w.chain| && SubInv(m, s, w) && s.rows.hash == None && !HasOpen(s.rows.attempts)
    ensures forall g :: !Live(s.rows.attempts, g)
  {
    assert forall g: Hash :: Live(s.rows.attempts, g) ==> OpenIn(s.rows.attempts, g) || s.rows.hash == Some(g);
    assert forall g: Hash :: !OpenIn(s.rows.attempts, g);
  }

  /** `t` is `s` with one open attempt for a new envelope. */
  ghost predicate Opened(s: Sub, t: Sub, c: Chain, h: Hash, maxTime: Time) {
    && h !in s.rows.attempts && h !in s.envs && Lookup(c, h) == NotFound
    && h in t.rows.attempts && t.rows.attempts == s.rows.attempts[h := t.rows.attempts[h]]
    && t.rows.attempts[h].status == Open && t.rows.attempts[h].expiresAt == maxTime
    && h in t.envs && t.envs == s.envs[h := t.envs[h]] && t.envs[h].maxTime == maxTime && t.rows.hash == s.rows.hash
  }

  lemma OpenedAlone(m: Mode, s: Sub, w: World, t: Sub, h: Hash, maxTime: Time)
    requires w.Valid() && SubInv(m, s, w) && Opened(s, t, w.chain, h, maxTime) && WithinBound(w.chain, h, maxTime)
    requires forall g :: !Live(s.rows.attempts, g)
    ensures Journalled(t, w.chain) && OneLive(t, w.chain) && OnlyLive(t.rows.attempts, h)
  {
    forall g | Live(t.rows.attempts, g) ensures g == h {
      if g != h {
        assert t.rows.attempts[g] == s.rows.attempts[g];
        assert Live(s.rows.attempts, g);
      }
    }
  }

  lemma OtherPayerKnows(m: Mode, s: Sub, w: World, t: Sub, h: Hash, q: PayerId)
    requires w.Valid() && Sound(m) && SubInv(m, s, w) && q in s.payers && q in t.payers && t.payers[q] == s.payers[q]
    requires forall g :: !Live(s.rows.attempts, g)
    requires h !in s.rows.attempts && h in t.rows.attempts && t.rows.attempts == s.rows.attempts[h := t.rows.attempts[h]]
    requires Exclusive(m) ==> !Names(s.payers[q].phase)
    ensures PayerKnows(m, t, w, t.payers[q].phase)
  {
    assert PayerKnows(m, s, w, s.payers[q].phase);
    if s.payers[q].phase.Accepted? && !Exclusive(m) {
      NoneAcceptedWhilePayable(m, s, w, q);
    }
  }

  /** `journal.open` adds one open attempt to a payable row with nothing open. */
  lemma JournalShape(m: Mode, s: Sub, w: World, p: PayerId, h: Hash, maxTime: Time, pays: bool, heard: bool)
    requires w.seen <= |w.chain| && CanPay(m, s, w, p, Journal(h, maxTime, pays, heard))
    ensures var t := PayEffect(s, w, p, Journal(h, maxTime, pays, heard));
            && s.rows.hash == None && !HasOpen(s.rows.attempts) && h !in s.rows.attempts && h !in s.envs && Lookup(w.chain, h) == NotFound
            && t.rows == s.rows.(attempts := s.rows.attempts[h := Attempt(Open, maxTime, w.now)])
            && t.envs == s.envs[h := Envelope(maxTime, if heard then Signed else Rejected, pays)]
            && t.payers == s.payers[p := s.payers[p].(phase := if heard then Phase.Journalled(h) else Failing(Retryable))]
  {
    hide HasOpen, Lookup;
  }

  /** While a row may take a new envelope, no payer holds an applied one. */
  lemma NoneAcceptedWhilePayable(m: Mode, s: Sub, w: World, q: PayerId)
    requires w.Valid() && m.contract == ReturnedApplied && SubInv(m, s, w)
    requires q in s.payers && s.payers[q].phase.Accepted?
    ensures Live(s.rows.attempts, s.payers[q].phase.h)
  {
    NamesKnown(m, s, w, q);
    AppliedIsOnlyLive(m, s, w, s.payers[q].phase.h);
  }

  /** An envelope on no ledger keeps any bound. */
  lemma {:induction false} AbsentWithinBound(c: Chain, h: Hash, maxTime: Time)
    requires Lookup(c, h) == NotFound
    ensures WithinBound(c, h, maxTime)
  {
    if c != [] {
      AbsentWithinBound(c[..|c| - 1], h, maxTime);
      assert forall i :: 0 <= i < |c| - 1 ==> c[i] == c[..|c| - 1][i];
    }
  }

  /** An envelope's fate may advance, but never back to life. */
  lemma FateKeeps(m: Mode, s: Sub, w: World, h: Hash, fate: Fate)
    requires w.Valid() && SubInv(m, s, w) && h in s.envs
    requires fate == Rejected || (fate == InFlight && s.envs[h].fate != Rejected)
    ensures SubInv(m, WithFate(s, h, fate), w)
  {
    var t := WithFate(s, h, fate);
    assert forall g :: g in s.envs && Dead(s.envs[g], g, w.chain) ==> Dead(t.envs[g], g, w.chain);
    assert forall p :: p in t.payers ==> PayerKnows(m, s, w, s.payers[p].phase);
  }

  lemma PayKeeps(m: Mode, s: Sub, w: World, p: PayerId, step: PayStep)
    requires w.Valid() && Sound(m) && SubInv(m, s, w) && CanPay(m, s, w, p, step)
    requires BuildsAlone(m, s, Paying(p, step))
    ensures SubInv(m, PayEffect(s, w, p, step), w)
  {
    if step.Journal? {
      JournalKeeps(m, s, w, p, step.h, step.maxTime, step.pays, step.heard);
      return;
    }
    if step.Refuse? {
      hide SubInv;
      MoveKeeps(m, s, w, p, Failing(step.e));
      return;
    }
    if step.Reject? || step.ResolveFailed? || step.ResolveExpired? {
      hide SubInv, PayEffect, CanPay;
      RefusedKeeps(m, s, w, p, step);
      return;
    }
    NamesKnown(m, s, w, p);
    hide SubInv, Lookup, VoidAttempt, OpenAttempt;
    var h := s.payers[p].phase.h;
    match step
    case Submit =>
      FateKeeps(m, s, w, h, InFlight);
      MoveKeeps(m, WithFate(s, h, InFlight), w, p, Submitted(h));
    case Return =>
      if m.contract == ReturnedApplied {
        AppliedIsOnlyLive(m, s, w, h);
      }
      MoveKeeps(m, s, w, p, Accepted(h, false));
    case SeeBoundPass => MoveKeeps(m, s, w, p, PastBound(h));
    case StopResolving => MoveKeeps(m, s, w, p, Failing(AmbiguousSubmit));
  }

  /** The submitter voids only an envelope that can never apply: rejected, failed, or absent past its bound. */
  lemma RefusedKeeps(m: Mode, s: Sub, w: World, p: PayerId, step: PayStep)
    requires w.Valid() && SubInv(m, s, w) && CanPay(m, s, w, p, step)
    requires step.Reject? || step.ResolveFailed? || step.ResolveExpired?
    ensures SubInv(m, PayEffect(s, w, p, step), w)
  {
    NamesKnown(m, s, w, p);
    hide SubInv, Lookup, VoidAttempt;
    var h := s.payers[p].phase.h;
    match step
    case Reject(voided, rebuild, e) =>
      FateKeeps(m, s, w, h, Rejected);
      MoveVoidedKeeps(m, WithFate(s, h, Rejected), w, p, h, voided, if rebuild then Clear else Failing(e));
    case ResolveFailed(voided) =>
      ViewSpeaksForChain(w, h);
      MoveVoidedKeeps(m, s, w, p, h, voided, Failing(NonRetryable));
    case ResolveExpired(voided) =>
      AbsentIsDead(w, h, s.envs[h].maxTime);
      MoveVoidedKeeps(m, s, w, p, h, voided, Failing(ExpiredUnincluded));
  }

  // ----- ending -----

  /** `after` only settles attempts of `before`: none opens, and each one newly void is dead. */
  ghost predicate Settles(before: map<Hash, Attempt>, after: map<Hash, Attempt>, envs: map<Hash, Envelope>, c: Chain) {
    && after.Keys == before.Keys
    && (forall h :: h in after ==> after[h].expiresAt == before[h].expiresAt)
    && (forall h :: Live(after, h) ==> Live(before, h))
    && (forall h :: Live(before, h) && !Live(after, h) ==> h in envs && Dead(envs[h], h, c))
  }

  ghost predicate LandedIsRecorded(attempts: map<Hash, Attempt>, hash: Option<Hash>) {
    forall h :: h in attempts && attempts[h].status == Landed ==> hash == Some(h)
  }

  /** No payer of `t` names an envelope it did not name in `s`. */
  ghost predicate NamesFrom(s: map<PayerId, Payer>, t: map<PayerId, Payer>) {
    forall p :: p in t && Names(t[p].phase) ==>
      && p in s
      && (s[p].phase == t[p].phase || (s[p].phase.Accepted? && t[p].phase == Accepted(s[p].phase.h, true)))
  }

  lemma ConfirmSettles(r: Rows, h: Hash, envs: map<Hash, Envelope>, c: Chain)
    ensures Settles(r.attempts, ConfirmAttempt(r, h).attempts, envs, c)
    ensures r.hash == Some(h) && LandedIsRecorded(r.attempts, r.hash) ==> LandedIsRecorded(ConfirmAttempt(r, h).attempts, r.hash)
  {
  }

  lemma SettlingKeeps(m: Mode, s: Sub, t: Sub, w: World)
    requires w.Valid() && SubInv(m, s, w) && t.envs == s.envs
    requires Settles(s.rows.attempts, t.rows.attempts, s.envs, w.chain)
    requires LandedIsRecorded(t.rows.attempts, t.rows.hash)
    requires t.payers.Keys <= s.payers.Keys && NamesFrom(s.payers, t.payers)
    ensures SubInv(m, t, w)
  {
    forall p | p in t.payers ensures PayerKnows(m, t, w, t.payers[p].phase) {
      if Names(t.payers[p].phase) {
        assert PayerKnows(m, s, w, s.payers[p].phase);
      }
    }
  }

  /** A row that names the one live attempt may have that attempt confirmed. */
  lemma RecordedIsOnlyLive(r: Rows, t: Rows, h: Hash)
    requires LandedIsRecorded(r.attempts, r.hash) && OnlyLive(r.attempts, h) && t.hash == Some(h)
    requires t.attempts == r.attempts || t.attempts == ConfirmAttempt(r, h).attempts
    ensures LandedIsRecorded(t.attempts, t.hash)
  {
    assert forall g: Hash :: g in t.attempts && t.attempts[g].status == Landed ==> Live(r.attempts, g);
  }

  lemma AcceptedOnlyLive(m: Mode, s: Sub, w: World, p: PayerId)
    requires w.seen <= |w.chain| && SubInv(m, s, w) && p in s.payers && s.payers[p].phase.Accepted?
    ensures OnlyLive(s.rows.attempts, s.payers[p].phase.h) && s.payers[p].phase.h in s.envs
    ensures LandedIsRecorded(s.rows.attempts, s.rows.hash)
  {
    assert PayerKnows(m, s, w, s.payers[p].phase);
  }

  /** A write that leaves the journal, the hash and the envelopes alone, and whose payers name nothing new. */
  ghost predicate Passive(s: Sub, t: Sub) {
    && t.rows.attempts == s.rows.attempts && t.rows.hash == s.rows.hash && t.envs == s.envs
    && t.payers.Keys <= s.payers.Keys && NamesFrom(s.payers, t.payers)
  }

  lemma PassiveKeeps(m: Mode, s: Sub, t: Sub, w: World)
    requires w.Valid() && SubInv(m, s, w) && Passive(s, t)
    ensures SubInv(m, t, w)
  {
    SettlingKeeps(m, s, t, w);
  }

  /** Recording names a hash that is the only live attempt, so no other is confirmed. */
  lemma RecordKeeps(m: Mode, s: Sub, w: World, p: PayerId, lost: bool, at: Time)
    requires w.Valid() && SubInv(m, s, w) && CanEnd(m, s, w, p, Record(lost, at))
    ensures SubInv(m, AfterRecord(s, p, lost, at), w)
  {
    hide SubInv;
    var payer := s.payers[p];
    var t := AfterRecord(s, p, lost, at);
    AcceptedOnlyLive(m, s, w, p);
    RecordSettlesOnly(payer.role.kind, s.rows, payer.phase.h, at);
    ConfirmSettles(s.rows, payer.phase.h, s.envs, w.chain);
    RecordedIsOnlyLive(s.rows, t.rows, payer.phase.h);
    SettlingKeeps(m, s, t, w);
  }

  /** So does quarantining, which overwrites whatever hash the row carried. */
  lemma QuarantineKeeps(m: Mode, s: Sub, w: World, p: PayerId)
    requires w.Valid() && SubInv(m, s, w) && CanEnd(m, s, w, p, QuarantinePayment)
    ensures SubInv(m, EndEffect(s, w, p, QuarantinePayment), w)
  {
    hide SubInv;
    var t := EndEffect(s, w, p, QuarantinePayment);
    AcceptedOnlyLive(m, s, w, p);
    RecordedIsOnlyLive(s.rows, t.rows, s.payers[p].phase.h);
    SettlingKeeps(m, s, t, w);
  }

  lemma EndKeeps(m: Mode, s: Sub, w: World, p: PayerId, step: EndStep)
    requires w.Valid() && SubInv(m, s, w) && CanEnd(m, s, w, p, step)
    ensures SubInv(m, EndEffect(s, w, p, step), w)
  {
    hide SubInv;
    if step.Record? {
      hide AfterRecord, RecordPayment;
      RecordKeeps(m, s, w, p, step.lost, step.at);
    } else if step.QuarantinePayment? {
      hide EndEffect, CanEnd;
      QuarantineKeeps(m, s, w, p);
    } else {
      EndingIsPassive(m, s, w, p, step);
      hide EndEffect, CanEnd, Passive;
      PassiveKeeps(m, s, EndEffect(s, w, p, step), w);
    }
  }

  /** Giving up, releasing, refunding, noting and handing over write no hash and no attempt. */
  lemma EndingIsPassive(m: Mode, s: Sub, w: World, p: PayerId, step: EndStep)
    requires CanEnd(m, s, w, p, step) && !step.Record? && !step.QuarantinePayment?
    ensures Passive(s, EndEffect(s, w, p, step))
  {
    hide Passive, GiveUp, RecordPayment, EndsPayout, Revive, CronNote;
    var payer := s.payers[p];
    match step
    case Release => UnnamingIsPassive(s, ReleaseClaim(s.rows), p, Released(payer.phase.e));
    case EndPayout =>
      var rows := GiveUp(payer.role.kind, s.rows, payer.base, payer.phase.e, w.now);
      GiveUpLeavesJournal(payer.role.kind, s.rows, payer.base, payer.phase.e, w.now);
      UnnamingIsPassive(s, rows, p, Refunding(payer.phase.e));
      UnnamingIsPassive(s, rows, p, Noting);
    case RefundDebit => UnnamingIsPassive(s, Refund(s).rows, p, Noting);
    case NoteError => NoteLeavesJournal(s.rows); UnnamingIsPassive(s, CronNote(s.rows), p, Noting);
    case HandOver => NoteLeavesJournal(s.rows); UnnamingIsPassive(s, Revive(s.rows), p, Noting);
  }

  lemma NoteLeavesJournal(r: Rows)
    ensures CronNote(r).attempts == Revive(r).attempts == r.attempts && CronNote(r).hash == Revive(r).hash == r.hash
  {
  }

  /** A write outside the journal, after which the payer leaves or names no envelope. */
  lemma UnnamingIsPassive(s: Sub, rows: Rows, p: PayerId, phase: Phase)
    requires p in s.payers && rows.attempts == s.rows.attempts && rows.hash == s.rows.hash && !Names(phase)
    ensures Passive(s, Move(s.(rows := rows), p, phase)) && Passive(s, Leave(s.(rows := rows), p))
  {
  }

  // ----- outside -----

  lemma RowIsRecorded(m: Mode, s: Sub, w: World)
    requires w.seen <= |w.chain| && SubInv(m, s, w)
    ensures LandedIsRecorded(s.rows.attempts, s.rows.hash) && s.envs.Keys == s.rows.attempts.Keys
  {
  }

  /** The reconciler confirms only the recorded hash, and voids only what Horizon shows failed. */
  lemma OutsideKeeps(m: Mode, s: Sub, w: World, step: OutsideStep)
    requires w.Valid() && SubInv(m, s, w) && CanOutside(m, s, w, step)
    ensures SubInv(m, OutsideEffect(s, w, step), w)
  {
    hide SubInv;
    if step.SettleConfirmed? {
      hide CanOutside, OutsideEffect;
      ConfirmationKeeps(m, s, w, step.h);
    } else if step.SettleFailed? {
      hide CanOutside, OutsideEffect;
      HandBackKeeps(m, s, w, step.h);
    } else {
      OperatorsArePassive(m, s, w, step);
      hide CanOutside, OutsideEffect, Passive;
      PassiveKeeps(m, s, OutsideEffect(s, w, step), w);
    }
  }

  /** Nothing the operators, the cron or an unreadable answer write touches the journal or the hash. */
  lemma OperatorsArePassive(m: Mode, s: Sub, w: World, step: OutsideStep)
    requires w.seen <= |w.chain| && CanOutside(m, s, w, step) && !step.SettleConfirmed? && !step.SettleFailed?
    ensures Passive(s, OutsideEffect(s, w, step)) && OutsideEffect(s, w, step).rows.amount == s.rows.amount
  {
    hide Lookup;
    match step
    case ResetByAdmin =>
    case RestoreByAdmin(_) =>
    case _ =>
  }

  lemma ConfirmationKeeps(m: Mode, s: Sub, w: World, h: Hash)
    requires w.Valid() && SubInv(m, s, w) && CanOutside(m, s, w, SettleConfirmed(h))
    ensures SubInv(m, OutsideEffect(s, w, SettleConfirmed(h)), w)
  {
    RowIsRecorded(m, s, w);
    hide SubInv, ConfirmPayment, ConfirmAttempt, Lookup, CanOutside;
    var t := OutsideEffect(s, w, SettleConfirmed(h));
    if h in s.envs && s.envs[h].pays {
      ConfirmSettles(s.rows, h, s.envs, w.chain);
      ConfirmSettlesOnly(s.rows, h, s.rows.status, w.now);
      SettlingKeeps(m, s, t, w);
    } else {
      PassiveKeeps(m, s, t, w);
    }
  }

  lemma HandBackKeeps(m: Mode, s: Sub, w: World, h: Hash)
    requires w.Valid() && SubInv(m, s, w) && CanOutside(m, s, w, SettleFailed(h))
    ensures SubInv(m, OutsideEffect(s, w, SettleFailed(h)), w)
  {
    hide SubInv;
    RowIsRecorded(m, s, w);
    ViewSpeaksForChain(w, h);
    SettlingKeeps(m, s, OutsideEffect(s, w, SettleFailed(h)), w);
  }

  /** Every step of every payer, the reconciler and the operators keeps the journal invariant. */
  lemma ActKeeps(m: Mode, s: Sub, w: World, a: Action)
    requires w.Valid() && Sound(m) && SubInv(m, s, w) && Enabled(m, s, w, a) && BuildsAlone(m, s, a)
    ensures SubInv(m, Effect(m, s, w, a), w)
  {
    match a
    case Claim(p, role) => ClaimKeeps(m, s, w, p, role);
    case Beat(p) => hide SubInv; PassiveKeeps(m, s, Effect(m, s, w, a), w);
    case Die(p) => hide SubInv; PassiveKeeps(m, s, Effect(m, s, w, a), w);
    case Settling(p, step) => hide SubInv; SettleKeeps(m, s, w, p, step);
    case Paying(p, step) => hide SubInv; PayKeeps(m, s, w, p, step);
    case Ending(p, step) => hide SubInv; EndKeeps(m, s, w, p, step);
    case Outside(step) => hide SubInv; OutsideKeeps(m, s, w, step);
  }

  lemma ClaimKeeps(m: Mode, s: Sub, w: World, p: PayerId, role: Role)
    requires w.Valid() && SubInv(m, s, w) && Enabled(m, s, w, Claim(p, role))
    ensures SubInv(m, Effect(m, s, w, Claim(p, role)), w)
  {
    var t := Effect(m, s, w, Claim(p, role));
    forall q | q in t.payers ensures PayerKnows(m, t, w, t.payers[q].phase) {
      if q != p {
        assert PayerKnows(m, s, w, s.payers[q].phase);
      }
    }
  }

  // ----- the chain and the clock -----

  lemma SeeKeeps(m: Mode, s: Sub, w: World, seen: nat)
    requires w.Valid() && SubInv(m, s, w) && w.seen <= seen <= |w.chain|
    ensures SubInv(m, s, w.(seen := seen))
  {
    var v := w.(seen := seen);
    forall p | p in s.payers ensures PayerKnows(m, s, v, s.payers[p].phase) {
      var phase := s.payers[p].phase;
      assert PayerKnows(m, s, w, phase);
      if phase.LookAgain? {
        ClosedPastGrows(w.View(), v.View(), phase.expiresAt);
      } else if phase.PastBound? {
        ClosedPastGrows(w.View(), v.View(), s.rows.attempts[phase.h].expiresAt);
      }
    }
  }

  lemma TickKeeps(m: Mode, s: Sub, w: World, now: Time)
    requires w.Valid() && SubInv(m, s, w)
    ensures SubInv(m, s, w.(now := now))
  {
    var v := w.(now := now);
    assert v.View() == w.View();
    assert forall p :: p in s.payers ==> PayerKnows(m, s, w, s.payers[p].phase);
  }

  /** A new ledger may land an envelope in flight; it can never land a dead one. */
  lemma DeadStaysDead(e: Envelope, h: Hash, c: Chain, l: Ledger)
    requires Dead(e, h, c) && (c != [] ==> c[|c| - 1].closeTime < l.closeTime)
    requires h in l.txs ==> e.fate == InFlight && l.closeTime <= e.maxTime
    ensures Dead(e, h, c + [l])
  {
    assert (c + [l])[..|c|] == c;
  }

  lemma CloseKeeps(m: Mode, s: Sub, w: World, l: Ledger)
    requires w.Valid() && SubInv(m, s, w) && Includes(s, l)
    requires w.chain != [] ==> w.chain[|w.chain| - 1].closeTime < l.closeTime
    ensures w.(chain := w.chain + [l]).Valid() && SubInv(m, s, w.(chain := w.chain + [l]))
  {
    var v := w.(chain := w.chain + [l]);
    forall h | h in s.envs && Dead(s.envs[h], h, w.chain) ensures Dead(s.envs[h], h, v.chain) {
      DeadStaysDead(s.envs[h], h, w.chain, l);
    }
    assert v.View() == w.View();
    forall p | p in s.payers ensures PayerKnows(m, s, v, s.payers[p].phase) {
      assert PayerKnows(m, s, w, s.payers[p].phase);
      if s.payers[p].phase.Accepted? && Applied(s.payers[p].phase.h, w.chain) {
        LookupGrows(w.chain, v.chain, s.payers[p].phase.h);
      }
    }
  }

  /** No more than one payer is at work. */
  ghost predicate Single(s: Sub) {
    forall p, q :: p in s.payers && q in s.payers ==> p == q
  }

  /** No step of a payer at work adds another. */
  lemma PayersStay(m: Mode, s: Sub, w: World, a: Action)
    requires w.seen <= |w.chain| && Enabled(m, s, w, a) && (a.Settling? || a.Paying? || a.Ending?)
    ensures Effect(m, s, w, a).payers.Keys <= s.payers.Keys
  {
    hide Lookup, RecordPayment, GiveUp, OpenAttempt, HasOpen, ClosedPast, EndsPayout, VoidAttempt, JobWith, NextJobRetry,
         CronNote, Revive, Quarantine;
    if a.Settling? {
      hide PayEffect, EndEffect, CanPay, CanEnd;
    } else if a.Paying? {
      hide SettleEffect, EndEffect, CanSettle, CanEnd;
    } else {
      hide SettleEffect, PayEffect, CanSettle, CanPay;
    }
  }

  /** Only a claim adds a payer, and under that assumption it waits until there is none. */
  lemma SingleKeeps(m: Mode, s: Sub, w: World, a: Action)
    requires w.seen <= |w.chain| && m.onePayer && Single(s) && Enabled(m, s, w, a)
    ensures Single(Effect(m, s, w, a)) && BuildsAlone(m, s, a)
  {
    if a.Settling? || a.Paying? || a.Ending? {
      PayersStay(m, s, w, a);
      hide Effect, Enabled;
    } else if a.Outside? {
      hide Enabled, CanOutside, ConfirmPayment, HoldMismatch, HandBack, AdminReset;
    }
  }

  // ----- one step of the system -----

  ghost predicate SystemInv(m: Mode, s: System) {
    && s.world.Valid()
    && forall i :: 0 <= i < |s.subs| ==> SubInv(m, s.subs[i], s.world)
  }

  lemma FreshSubInv(m: Mode, s: Sub, w: World)
    requires w.Valid() && FreshSubmission(s)
    ensures SubInv(m, s, w)
  {
  }

  lemma NextKeeps(m: Mode, s: System, l: Label, t: System)
    requires Sound(m) && SystemInv(m, s) && Next(m, s, l, t)
    requires l.Act? ==> BuildsAlone(m, s.subs[l.i], l.a)
    ensures SystemInv(m, t)
  {
    hide SubInv;
    forall i | 0 <= i < |t.subs| && (i == |s.subs| || SubInv(m, s.subs[i], s.world)) ensures SubInv(m, t.subs[i], t.world) {
      match l
      case Tick(now) => TickKeeps(m, s.subs[i], s.world, now);
      case See(seen) => SeeKeeps(m, s.subs[i], s.world, seen);
      case Close(ledger) => CloseKeeps(m, s.subs[i], s.world, ledger);
      case Accept(sub, _) => if i == |s.subs| { FreshSubInv(m, sub, s.world); }
      case Act(j, a) => if i == j { ActKeeps(m, s.subs[i], s.world, a); }
    }
  }

  /** What a settlement step leaves of an applied envelope that no row names. */
  predicate SettledAsPaid(t: Sub, w: World, p: PayerId, h: Hash, step: SettleStep)
    requires w.seen <= |w.chain|
  {
    && OpenIn(t.rows.attempts, h)
    && (p in t.payers ==> t.payers[p].phase != Clear)
    && (p in t.payers && Names(t.payers[p].phase) ==> t.payers[p].phase.h == h)
    && (step == FirstLook(true) && Lookup(w.View(), h) != NotFound ==> p in t.payers && t.payers[p].phase == Accepted(h, false))
    && (step == SecondLook(true) ==> p in t.payers && t.payers[p].phase == Accepted(h, false))
  }

  /** Such an envelope is open, and the next payer can only settle it as `paid`. */
  lemma NextPayerSettlesAsPaid(m: Mode, s: Sub, w: World, p: PayerId, h: Hash, step: SettleStep)
    requires w.Valid() && SubInv(m, s, w) && h in s.envs && Applied(h, w.chain) && s.rows.hash == None
    requires CanSettle(m, s, p, step) && s.payers[p].role.Pays? && s.payers[p].phase != Unsettled
    requires Names(s.payers[p].phase) ==> s.payers[p].phase.h == h
    ensures SettledAsPaid(SettleEffect(s, w, p, step), w, p, h, step)
  {
    AppliedIsOnlyLive(m, s, w, h);
    assert OpenIn(s.rows.attempts, h);
    if step.FindOpen? {
      assert step.found.Some? ==> Live(s.rows.attempts, step.found.value);
      hide SubInv, Lookup;
    } else if Names(s.payers[p].phase) {
      LooksShowApplied(m, s, w, p);
      hide SubInv, SettleEffect, Lookup, OnlyLive;
      LookLeavesOpen(m, s, w, p, h, step);
    } else {
      assert step.Throws?;
      hide SubInv, Lookup;
    }
  }

  lemma LookLeavesOpen(m: Mode, s: Sub, w: World, p: PayerId, h: Hash, step: SettleStep)
    requires w.seen <= |w.chain| && CanSettle(m, s, p, step) && s.payers[p].role.Pays? && OpenIn(s.rows.attempts, h)
    requires Names(s.payers[p].phase) && s.payers[p].phase.h == h && Lookup(w.View(), h) != StellarChain.Failed
    requires s.payers[p].phase.LookAgain? ==> Lookup(w.View(), h) == StellarChain.Confirmed
    ensures SettledAsPaid(SettleEffect(s, w, p, step), w, p, h, step)
  {
    hide Lookup, VoidAttempt, ClosedPast, HasOpen, AfterStandDown;
  }

  /** A lookup of an applied envelope shows it applied, or nothing: and not even nothing once its bound has passed. */
  lemma LooksShowApplied(m: Mode, s: Sub, w: World, p: PayerId)
    requires w.Valid() && SubInv(m, s, w) && p in s.payers && Names(s.payers[p].phase) && Applied(s.payers[p].phase.h, w.chain)
    ensures Lookup(w.View(), s.payers[p].phase.h) != StellarChain.Failed
    ensures s.payers[p].phase.LookAgain? ==> Lookup(w.View(), s.payers[p].phase.h) == StellarChain.Confirmed
  {
    NamesKnown(m, s, w, p);
    hide SubInv;
    var g := s.payers[p].phase.h;
    if Lookup(w.View(), g) != NotFound {
      ViewSpeaksForChain(w, g);
    } else if s.payers[p].phase.LookAgain? {
      AbsentIsDead(w, g, s.payers[p].phase.expiresAt);
    }
  }
}
