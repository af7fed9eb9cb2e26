/**
 The payout rail's procedures over its stores: settling an open envelope by three
 Horizon reads, reviving stranded rows in a loop, and the bounded retry of an
 idempotent record followed by quarantine.
 */
module PayoutSettlement {
  import opened Wrappers
  import opened StellarChain
  import opened PayoutRows
  import opened PayoutProtocol
  import opened PayoutStore

  // ----- settling an open envelope -----

  const RECHECK_AFTER_MS: nat := 15_000

  datatype Settlement = IsClear | IsPaid(hash: Hash) | IsWait(until: Time)

  /** What Horizon shows at each of the three reads; `None` is a read that failed. */
  datatype Horizon = Horizon(first: Option<Chain>, ledger: Option<Chain>, second: Option<Chain>)

  /** The reads happen in this order, and everything they show is part of `chain`. */
  ghost predicate Successive(hz: Horizon, chain: Chain) {
    && Ordered(chain)
    && (hz.first.Some? ==> hz.first.value <= chain)
    && (hz.ledger.Some? ==> hz.ledger.value <= chain)
    && (hz.second.Some? ==> hz.second.value <= chain)
    && (hz.first.Some? && hz.ledger.Some? ==> hz.first.value <= hz.ledger.value)
    && (hz.ledger.Some? && hz.second.Some? ==> hz.ledger.value <= hz.second.value)
  }

  function Recheck(a: Attempt, now: Time): Settlement {
    IsWait(if now > a.expiresAt then now + RECHECK_AFTER_MS else a.expiresAt + RECHECK_AFTER_MS)
  }

  /** What the three reads decide about envelope `h`. */
  function Answer(hz: Horizon, a: Attempt, h: Hash, now: Time): Settlement {
    if hz.first == None then Recheck(a, now)
    else if Lookup(hz.first.value, h) == StellarChain.Confirmed then IsPaid(h)
    else if Lookup(hz.first.value, h) == StellarChain.Failed then IsClear
    else if hz.ledger == None || !ClosedPast(hz.ledger.value, a.expiresAt) || hz.second == None then Recheck(a, now)
    else if Lookup(hz.second.value, h) == StellarChain.Confirmed then IsPaid(h)
    else IsClear
  }

  /** `settleOpenAttempt`: a paid envelope is left open for the caller's record; a dead one is voided here. */
  method SettleOpenAttempt(store: SubmissionStore, hz: Horizon, now: Time) returns (s: Settlement)
    modifies store`attempts
    ensures !HasOpen(old(store.attempts)) ==> s == IsClear && store.View() == old(store.View())
    ensures HasOpen(old(store.attempts)) ==>
              exists h :: OpenIn(old(store.attempts), h) && s == Answer(hz, old(store.attempts)[h], h, now)
                          && store.View() == if s == IsClear then VoidAttempt(old(store.View()), h) else old(store.View())
  {
    if !HasOpen(store.attempts) { return IsClear; }
    var h :| h in store.attempts && OpenIn(store.attempts, h);
    var a := store.attempts[h];
    if hz.first == None { return Recheck(a, now); }
    var first := Lookup(hz.first.value, h);
    if first == StellarChain.Confirmed { return IsPaid(h); }
    if first == StellarChain.Failed {
      store.VoidOpen(h);
      return IsClear;
    }
    if hz.ledger == None || LatestClose(hz.ledger.value) == None || LatestClose(hz.ledger.value).value <= a.expiresAt {
      return Recheck(a, now);
    }
    if hz.second == None { return Recheck(a, now); }
    var second := Lookup(hz.second.value, h);
    if second == StellarChain.Confirmed { return IsPaid(h); }
    store.VoidOpen(h);
    s := IsClear;
  }

  /**
   Sound against every future of the ledger: `paid` only if the envelope has applied, and
   `clear` only if it can never apply. And it decides whenever it can: once every read is
   answered and the ledger read has passed the bound, the envelope is paid or cleared,
   according to whether it ever applies.
   */
  lemma SettlementIsSound(hz: Horizon, a: Attempt, h: Hash, now: Time, chain: Chain)
    requires Successive(hz, chain) && WithinBound(chain, h, a.expiresAt)
    ensures Answer(hz, a, h, now).IsPaid? ==> Answer(hz, a, h, now).hash == h && Lookup(chain, h) == StellarChain.Confirmed
    ensures Answer(hz, a, h, now).IsClear? ==> Lookup(chain, h) != StellarChain.Confirmed
    ensures hz.first.Some? && hz.ledger.Some? && hz.second.Some? && PastBound(hz.ledger.value, a.expiresAt) ==>
              Answer(hz, a, h, now) == if Lookup(chain, h) == StellarChain.Confirmed then IsPaid(h) else IsClear
  {
    if hz.first.Some? && Lookup(hz.first.value, h) != NotFound {
      LookupGrows(hz.first.value, chain, h);
    } else if hz.second.Some? && Lookup(hz.second.value, h) != NotFound {
      LookupGrows(hz.second.value, chain, h);
    } else if hz.ledger.Some? && hz.second.Some? && ClosedPast(hz.ledger.value, a.expiresAt) {
      PrefixOrdered(hz.second.value, chain);
      ClosedPastGrows(hz.ledger.value, hz.second.value, a.expiresAt);
      AbsentPastBound(hz.second.value, chain, h, a.expiresAt);
    }
  }

  /** The latest ledger read closed after the bound. */
  predicate PastBound(c: Chain, bound: Time) {
    |c| > 0 && c[|c| - 1].closeTime > bound
  }

  /**
   Exactly when it waits, clears and pays, and until when it waits: an included envelope is
   decided by the first lookup alone; an absent one waits for a ledger past its bound and a
   second lookup; a read that failed is never evidence.
   */
  lemma AnswerExactly(hz: Horizon, a: Attempt, h: Hash, now: Time)
    ensures var s := Answer(hz, a, h, now);
            var absent := hz.first.Some? && Lookup(hz.first.value, h) == NotFound;
            var past := hz.ledger.Some? && PastBound(hz.ledger.value, a.expiresAt);
            && (s.IsWait? <==> hz.first == None || (absent && (!past || hz.second == None)))
            && (s.IsClear? <==> (hz.first.Some? && Lookup(hz.first.value, h) == StellarChain.Failed)
                                || (absent && past && hz.second.Some? && Lookup(hz.second.value, h) != StellarChain.Confirmed))
            && (s.IsPaid? <==> (hz.first.Some? && Lookup(hz.first.value, h) == StellarChain.Confirmed)
                               || (absent && past && hz.second.Some? && Lookup(hz.second.value, h) == StellarChain.Confirmed))
            && (s.IsPaid? ==> s.hash == h)
            && (s.IsWait? ==> s.until == (if now > a.expiresAt then now else a.expiresAt) + 15_000)
  {
  }

  lemma PrefixOrdered(c: Chain, later: Chain)
    requires c <= later && Ordered(later)
    ensures Ordered(c)
  {
  }

  /** Why it looks twice: an absence seen before the ledger that passed the bound proves nothing. */
  lemma FirstAbsenceProvesNothing(h: Hash)
    ensures var chain := [Ledger(5, map[h := true]), Ledger(20, map[])];
            var hz := Horizon(Some([]), Some(chain), Some(chain));
            && Successive(hz, chain) && WithinBound(chain, h, 10)
            && Lookup(hz.first.value, h) == NotFound && ClosedPast(hz.ledger.value, 10)
            && Lookup(chain, h) == StellarChain.Confirmed && Answer(hz, Attempt(Open, 10, 0), h, 0) == IsPaid(h)
  {
    var chain := [Ledger(5, map[h := true]), Ledger(20, map[])];
    assert chain[..1] == [Ledger(5, map[h := true])] && chain[..1][..0] == [];
    assert Lookup(chain[..1], h) == StellarChain.Confirmed;
  }

  /** The same settlement as the step system takes it, one answer at a time. */
  function SettleInSteps(s: Sub, p: PayerId, h: Hash, hz: Horizon, w1: World, w2: World, w3: World): Sub
    requires p in s.payers && s.payers[p].phase == Claimed && OpenIn(s.rows.attempts, h)
    requires w1.seen <= |w1.chain| && w2.seen <= |w2.chain| && w3.seen <= |w3.chain|
  {
    var found := SettleEffect(s, w1, p, FindOpen(Some(h)));
    var looked := SettleEffect(found, w1, p, FirstLook(hz.first.Some?));
    if !looked.payers[p].phase.AwaitLedger? then looked
    else
      var past := SettleEffect(looked, w2, p, SeeLedger(hz.ledger.Some?));
      if !past.payers[p].phase.LookAgain? then past else SettleEffect(past, w3, p, SecondLook(hz.second.Some?))
  }

  /** The method and the steps decide alike, whoever settles, and leave the same journal. */
  lemma SettlementRefinesSteps(s: Sub, p: PayerId, h: Hash, hz: Horizon, w1: World, w2: World, w3: World, now: Time)
    requires p in s.payers && s.payers[p].phase == Claimed && OpenIn(s.rows.attempts, h)
    requires w1.seen <= |w1.chain| && w2.seen <= |w2.chain| && w3.seen <= |w3.chain|
    requires hz.first.Some? ==> hz.first.value == w1.View()
    requires hz.ledger.Some? ==> hz.ledger.value == w2.View()
    requires hz.second.Some? ==> hz.second.value == w3.View()
    ensures var t := SettleInSteps(s, p, h, hz, w1, w2, w3);
            var a := Answer(hz, s.rows.attempts[h], h, now);
            && p in t.payers
            && t.payers[p].phase == PhaseOf(s.payers[p].role, a)
            && t.rows == if a == IsClear then VoidAttempt(s.rows, h) else s.rows
  {
    hide Lookup, VoidAttempt, ClosedPast, AfterStandDown;
    var a := s.rows.attempts[h];
    var found := Move(s, p, Looking(h, a.expiresAt));
    assert SettleEffect(s, w1, p, FindOpen(Some(h))) == found;
    if hz.first.Some? && Lookup(w1.View(), h) == NotFound {
      var looked := Move(found, p, AwaitLedger(h, a.expiresAt));
      assert SettleEffect(found, w1, p, FirstLook(true)) == looked;
      LedgerStepsAgree(looked, p, h, hz, w2, w3, a, now);
      hide SettleEffect, Answer;
    } else {
      assert !SettleEffect(found, w1, p, FirstLook(hz.first.Some?)).payers[p].phase.AwaitLedger?;
    }
  }

  /** The ledger read and the second lookup. */
  lemma LedgerStepsAgree(s: Sub, p: PayerId, h: Hash, hz: Horizon, w2: World, w3: World, a: Attempt, now: Time)
    requires p in s.payers && s.payers[p].phase == AwaitLedger(h, a.expiresAt)
    requires w2.seen <= |w2.chain| && w3.seen <= |w3.chain|
    requires hz.first.Some? && Lookup(hz.first.value, h) == NotFound
    requires hz.ledger.Some? ==> hz.ledger.value == w2.View()
    requires hz.second.Some? ==> hz.second.value == w3.View()
    ensures var past := SettleEffect(s, w2, p, SeeLedger(hz.ledger.Some?));
            && p in past.payers
            && var t := if past.payers[p].phase.LookAgain? then SettleEffect(past, w3, p, SecondLook(hz.second.Some?)) else past;
               && p in t.payers
               && t.payers[p].phase == PhaseOf(s.payers[p].role, Answer(hz, a, h, now))
               && t.rows == if Answer(hz, a, h, now) == IsClear then VoidAttempt(s.rows, h) else s.rows
  {
    hide Lookup, VoidAttempt, ClosedPast, AfterStandDown;
  }

  /** Where a settlement's answer leaves a payer: free to build or with a hash to record; a revival knows the fate. */
  function PhaseOf(role: Role, a: Settlement): Phase {
    match a
    case IsWait(_) => Unsettled
    case IsClear => if role == Role.Revives then Phase.Proven else Clear
    case IsPaid(g) => if role == Role.Revives then Phase.Proven else Accepted(g, false)
  }

  // ----- reviving stranded rows -----

  datatype Revival = Revived | Waiting | Skipped

  function Held(r: Rows, now: Time): Rows {
    r.(lastRetriedAt := Some(now))
  }

  /** What one revival does to a row, and what it reports. */
  ghost predicate Revives(r: Rows, t: Rows, o: Revival, hz: Horizon, now: Time) {
    if !Claimable(r, now) then o == Revival.Skipped && t == r
    else if !HasOpen(r.attempts) then o == Revived && t == Revive(Held(r, now))
    else exists h :: RevivesOn(r, t, o, hz, now, h)
  }

  ghost predicate RevivesOn(r: Rows, t: Rows, o: Revival, hz: Horizon, now: Time, h: Hash) {
    && OpenIn(r.attempts, h)
    && var a := Answer(hz, r.attempts[h], h, now);
       if a.IsWait? then o == Waiting && t == ReleaseClaim(r)
       else o == Revived && t == Revive(if a.IsClear? then VoidAttempt(r, h) else r)
  }

  method ReviveOne(store: SubmissionStore, hz: Horizon, now: Time) returns (o: Revival)
    modifies store
    ensures Revives(old(store.View()), store.View(), o, hz, now)
  {
    ghost var r := store.View();
    if store.refunded { return Revival.Skipped; }
    var claimed := store.Claim(now);
    if !claimed { return Revival.Skipped; }
    var s := SettleOpenAttempt(store, hz, now);
    ghost var settled := store.View();
    if s.IsWait? {
      store.Release();
      o := Waiting;
    } else {
      store.ReviveRow();
      o := Revived;
    }
    if HasOpen(r.attempts) {
      ghost var h :| OpenIn(r.attempts, h) && s == Answer(hz, r.attempts[h], h, now)
                     && settled == if s == IsClear then VoidAttempt(Held(r, now), h) else Held(r, now);
      assert r.hash == None && VoidAttempt(Held(r, now), h).attempts == VoidAttempt(r, h).attempts;
      assert s.IsWait? ==> store.View() == ReleaseClaim(r);
      assert s.IsPaid? ==> store.View() == Revive(r);
      assert s.IsClear? ==> store.View() == Revive(VoidAttempt(r, h));
      assert RevivesOn(r, store.View(), o, hz, now, h);
    }
  }

  /**
   Exactly when a revival skips a row, lets it wait or hands it back, and what it then writes:
   it skips only what no payer may claim, and waits only for an envelope whose fate is open.
   */
  lemma RevivalExactly(r: Rows, t: Rows, o: Revival, hz: Horizon, now: Time)
    requires Revives(r, t, o, hz, now)
    ensures o != Revival.Skipped <==>
              && (r.status == Pending || r.status == PayoutFailed || r.status == Abandoned) && r.hash == None && !r.refunded
              && (r.lastRetriedAt == None || now - r.lastRetriedAt.value >= 60_000)
    ensures o == Waiting ==> exists h :: OpenIn(r.attempts, h) && Answer(hz, r.attempts[h], h, now).IsWait?
    ensures o == Revived ==> !HasOpen(r.attempts) || exists h :: OpenIn(r.attempts, h) && !Answer(hz, r.attempts[h], h, now).IsWait?
    ensures o == Revival.Skipped ==> t == r
    ensures o == Waiting ==> t == r.(lastRetriedAt := None)
    ensures o == Revived ==>
              t == r.(status := PayoutFailed, retryCount := 0, lastRetriedAt := None, error := OtherError, attempts := t.attempts)
  {
    if o != Revival.Skipped && HasOpen(r.attempts) {
      var h :| RevivesOn(r, t, o, hz, now, h);
      assert o == Waiting <==> Answer(hz, r.attempts[h], h, now).IsWait?;
    }
  }

  /** A settled revival's last step, by where the settlement left it. */
  function LastStep(s: Sub, w: World, p: PayerId): Sub
    requires w.seen <= |w.chain| && p in s.payers && s.payers[p].role == Role.Revives
    requires s.payers[p].phase == Unsettled || s.payers[p].phase == Phase.Proven
  {
    if s.payers[p].phase == Unsettled then SettleEffect(s, w, p, StandDown) else EndEffect(s, w, p, HandOver)
  }

  /** The step system's revival, from its claim to its last write, does to the row what the procedure does. */
  lemma RevivalRefinesSteps(s: Sub, p: PayerId, h: Hash, hz: Horizon, w1: World, w2: World, w3: World, w4: World, now: Time)
    requires p in s.payers && s.payers[p].phase == Claimed && s.payers[p].role == Role.Revives && OpenIn(s.rows.attempts, h)
    requires s.rows.lastRetriedAt == Some(now)
    requires w1.seen <= |w1.chain| && w2.seen <= |w2.chain| && w3.seen <= |w3.chain| && w4.seen <= |w4.chain|
    requires hz.first.Some? ==> hz.first.value == w1.View()
    requires hz.ledger.Some? ==> hz.ledger.value == w2.View()
    requires hz.second.Some? ==> hz.second.value == w3.View()
    ensures var settled := SettleInSteps(s, p, h, hz, w1, w2, w3);
            && p in settled.payers && settled.payers[p].role == Role.Revives
            && (settled.payers[p].phase == Unsettled || settled.payers[p].phase == Phase.Proven)
            && forall r: Rows :: Claimable(r, now) && s.rows == Held(r, now) ==>
                 RevivesOn(r, LastStep(settled, w4, p).rows,
                           if settled.payers[p].phase == Unsettled then Waiting else Revived, hz, now, h)
  {
    SettlementRefinesSteps(s, p, h, hz, w1, w2, w3, now);
    RoleStays(s, p, h, hz, w1, w2, w3);
    hide SettleInSteps, Answer;
  }

  lemma RoleStays(s: Sub, p: PayerId, h: Hash, hz: Horizon, w1: World, w2: World, w3: World)
    requires p in s.payers && s.payers[p].phase == Claimed && OpenIn(s.rows.attempts, h)
    requires w1.seen <= |w1.chain| && w2.seen <= |w2.chain| && w3.seen <= |w3.chain|
    ensures var t := SettleInSteps(s, p, h, hz, w1, w2, w3);
            p in t.payers && t.payers[p].role == s.payers[p].role
  {
    var found := SettleEffect(s, w1, p, FindOpen(Some(h)));
    StepKeepsRole(s, w1, p, FindOpen(Some(h)));
    FoundIsLooking(s, w1, p, h);
    var looked := SettleEffect(found, w1, p, FirstLook(hz.first.Some?));
    StepKeepsRole(found, w1, p, FirstLook(hz.first.Some?));
    hide SettleEffect, OpenIn;
    if looked.payers[p].phase.AwaitLedger? {
      var past := SettleEffect(looked, w2, p, SeeLedger(hz.ledger.Some?));
      StepKeepsRole(looked, w2, p, SeeLedger(hz.ledger.Some?));
      if past.payers[p].phase.LookAgain? {
        StepKeepsRole(past, w3, p, SecondLook(hz.second.Some?));
      }
    }
  }

  lemma FoundIsLooking(s: Sub, w: World, p: PayerId, h: Hash)
    requires w.seen <= |w.chain| && p in s.payers && s.payers[p].phase == Claimed && OpenIn(s.rows.attempts, h)
    ensures SettleEffect(s, w, p, FindOpen(Some(h))).payers[p].phase.Looking?
  {
  }

  lemma StepKeepsRole(s: Sub, w: World, p: PayerId, step: SettleStep)
    requires w.seen <= |w.chain| && p in s.payers && SettlesFrom(s.payers[p].phase, step) && !step.StandDown? && !step.Throws?
    ensures var t := SettleEffect(s, w, p, step);
            p in t.payers && t.payers[p].role == s.payers[p].role
  {
    hide Lookup, VoidAttempt, ClosedPast, AfterStandDown, OpenIn;
  }

  const BATCH: nat := 20

  predicate OpenPastBound(attempts: map<Hash, Attempt>, now: Time) {
    exists h :: h in attempts && OpenIn(attempts, h) && attempts[h].expiresAt < now
  }

  /** What the revival's query asks of a row: every payer has given it up, and an envelope of it is open past its bound. */
  predicate Stranded(r: Rows, now: Time) {
    && OpenPastBound(r.attempts, now)
    && (r.status.PayoutFailed? || r.status.Abandoned?) && r.hash == None
    && r.retryCount >= SUBMISSION_RETRY_BUDGET && !r.refunded
  }

  /** The open envelopes of `r` expire no later than those of `t`. */
  ghost predicate NoLater(r: Rows, t: Rows) {
    forall g, h :: OpenIn(r.attempts, g) && OpenIn(t.attempts, h) ==> r.attempts[g].expiresAt <= t.attempts[h].expiresAt
  }

  /** A stranded row with a wallet to pay. */
  predicate Revivable(rows: seq<Rows>, linked: seq<bool>, i: nat, now: Time)
    requires |linked| == |rows|
  {
    i < |rows| && linked[i] && Stranded(rows[i], now)
  }

  /** The query's answer, as ids: such rows, oldest bound first, and the oldest of them when there are more than a batch. */
  ghost predicate QueryAnswers(rows: seq<Rows>, linked: seq<bool>, picked: seq<nat>, now: Time)
    requires |linked| == |rows|
  {
    && |picked| <= BATCH
    && (forall k :: 0 <= k < |picked| ==> Revivable(rows, linked, picked[k], now))
    && (forall j, k :: 0 <= j < k < |picked| ==> picked[j] != picked[k] && NoLater(rows[picked[j]], rows[picked[k]]))
    && (forall i: nat, k :: Revivable(rows, linked, i, now) && i !in picked && 0 <= k < |picked| ==> NoLater(rows[picked[k]], rows[i]))
    && (|picked| < BATCH ==> forall i: nat :: Revivable(rows, linked, i, now) ==> i in picked)
  }

  /** `reviveStrandedAttempts`: one revival a row its query returned, each reported under the row's id. */
  method ReviveStrandedAttempts(table: seq<SubmissionStore>, ghost rows: seq<Rows>, ghost linked: seq<bool>, picked: seq<nat>,
                                hz: seq<Horizon>, now: Time)
    returns (outcome: map<nat, Revival>)
    requires |rows| == |linked| == |table| && |hz| == |picked| && QueryAnswers(rows, linked, picked, now)
    requires forall i :: 0 <= i < |table| ==> table[i].View() == rows[i]
    requires forall i, j :: 0 <= i < j < |table| ==> table[i] != table[j]
    modifies set i | 0 <= i < |table| :: table[i]
    ensures forall id: nat :: id in outcome <==> id in picked
    ensures forall k :: 0 <= k < |picked| ==>
              Revives(rows[picked[k]], table[picked[k]].View(), outcome[picked[k]], hz[k], now)
    ensures forall i: nat :: i < |table| && i !in picked ==> table[i].View() == rows[i]
  {
    outcome := map[];
    assert forall j, k :: 0 <= j < k < |picked| ==> picked[j] < |table| && picked[j] != picked[k];
    assert forall k :: 0 <= k < |picked| ==> picked[k] < |table|;
    hide Revives, QueryAnswers, HasOpen;
    for k := 0 to |picked|
      invariant forall id: nat :: id in outcome <==> id in picked[..k]
      invariant forall j :: 0 <= j < k ==> Revives(rows[picked[j]], table[picked[j]].View(), outcome[picked[j]], hz[j], now)
      invariant forall i: nat :: i < |table| && i !in picked[..k] ==> table[i].View() == rows[i]
    {
      var id := picked[k];
      assert id !in picked[..k] && picked[..k + 1] == picked[..k] + [id];
      label before:
      var o := ReviveOne(table[id], hz[k], now);
      assert forall i :: 0 <= i < |table| && i != id ==> table[i].View() == old@before(table[i].View());
      outcome := outcome[id := o];
    }
    assert picked[..|picked|] == picked;
  }

  /**
   No row starves those behind it: a stranded row that no payer holds is never skipped, a
   revived one leaves the query's answer, and only one that must wait stays in it.
   */
  lemma StrandedIsRevivedOrWaits(r: Rows, t: Rows, o: Revival, hz: Horizon, now: Time, later: Time)
    requires Stranded(r, now) && !RetryClaimIsLive(r.lastRetriedAt, now) && Revives(r, t, o, hz, now) && now <= later
    ensures o != Revival.Skipped && (o == Revived ==> !Stranded(t, later)) && (o == Waiting ==> Stranded(t, later))
  {
    var h :| h in r.attempts && OpenIn(r.attempts, h) && r.attempts[h].expiresAt < now;
    assert HasOpen(r.attempts);
    assert o == Waiting ==> OpenIn(t.attempts, h) && t.attempts[h].expiresAt < later;
  }

  /** What both of the retry cron's queries ask of a row. */
  predicate OfferedByCron(r: Rows) {
    (r.status.Pending? || r.status.PayoutFailed?) && r.retryCount < SUBMISSION_RETRY_BUDGET
  }

  /**
   Of the rows whose budget went with no refund, the cron offers none and its sweep abandons
   them all; the revival comes back exactly to those with an envelope open past its bound. One
   whose last envelope was proven never to apply, and is void, is therefore over.
   */
  lemma SpentIsRevisitedExactly(r: Rows, base: nat, e: PayError, now: Time, later: Time)
    requires Payable(r) && !r.refunded && !e.CapReached? && !e.CoSignerUnavailable?
    requires GiveUp(RetryPath, r, base, e, now).retryCount >= SUBMISSION_RETRY_BUDGET && !EndsPayout(RetryPath, r, base, e)
    ensures var t := GiveUp(RetryPath, r, base, e, now);
            && !OfferedByCron(t) && AbandonSweep(t).status == Abandoned
            && (Stranded(t, later) <==> OpenPastBound(r.attempts, later))
            && (Stranded(AbandonSweep(t), later) <==> OpenPastBound(r.attempts, later))
            && (!HasOpen(r.attempts) ==> !Stranded(AbandonSweep(t), later))
  {
  }

  /** The fate of an envelope the row had open: still open exactly if it applied. */
  ghost predicate Proven(r: Rows, t: Rows, chain: Chain, h: Hash) {
    OpenIn(r.attempts, h) && (OpenIn(t.attempts, h) <==> Lookup(chain, h) == StellarChain.Confirmed)
  }

  /**
   What a revival may do, against every future of the ledger: it hands back only rows
   that are still unpaid and unrefunded, with their budget restored, and the envelope
   such a row had open is either still open and applied, or void and never to apply.
   A row that must wait loses nothing but its claim; any other row is left alone.
   */
  lemma RevivalOnlyOnProof(r: Rows, t: Rows, o: Revival, hz: Horizon, now: Time, later: Time, chain: Chain)
    requires Revives(r, t, o, hz, now) && Successive(hz, chain)
    requires forall h :: OpenIn(r.attempts, h) ==> WithinBound(chain, h, r.attempts[h].expiresAt)
    ensures o == Revival.Skipped ==> t == r
    ensures o == Waiting ==> t == r.(lastRetriedAt := None) && HasOpen(r.attempts)
    ensures o == Revived ==>
              && Claimable(r, now) && Claimable(t, later) && t.retryCount == 0 && t.status == PayoutFailed && !t.refunded
              && t.attempts.Keys == r.attempts.Keys
              && (forall h :: h in r.attempts && t.attempts[h] != r.attempts[h] ==>
                    OpenIn(r.attempts, h) && t.attempts[h].status == Void && Lookup(chain, h) != StellarChain.Confirmed)
              && (HasOpen(r.attempts) ==> exists h :: Proven(r, t, chain, h))
  {
    if Claimable(r, now) && HasOpen(r.attempts) {
      var h :| RevivesOn(r, t, o, hz, now, h);
      SettlementIsSound(hz, r.attempts[h], h, now, chain);
      assert o == Revived ==> Proven(r, t, chain, h);
    }
  }

  // ----- recording an accepted payment -----

  const PERSISTENCE_ATTEMPTS: nat := 3

  /** How the database answered one write: it landed, it landed and the reply was lost, or it rolled back. */
  datatype WriteOutcome = Replied | LostReply | RolledBack

  function Commits(answers: seq<WriteOutcome>): bool {
    exists i :: 0 <= i < |answers| && answers[i] != RolledBack
  }

  /** The first answer the writer hears of, if any: writes after it are never tried. */
  function Heard(answers: seq<WriteOutcome>): bool {
    exists i :: 0 <= i < |answers| && answers[i] == Replied
  }

  /** The record callback, for the payer that runs it. */
  method Record(kind: PayerKind, store: SubmissionStore, h: Hash, at: Time, user: UserTotals) returns (committed: bool)
    modifies store, user
    ensures var recorded := RecordPayment(kind, old(store.View()), h, at);
            && (committed <==> recorded != Refused)
            && store.View() == (if committed then recorded.rows else old(store.View()))
            && user.earnedUnits == old(user.earnedUnits) + (if recorded.Fresh? then store.amount else 0)
            && user.submissionCount == old(user.submissionCount) + (if recorded.Fresh? then 1 else 0)
  {
    if kind == Worker {
      committed := store.RecordAsWorker(h, at, user);
    } else {
      committed := store.RecordAsRetry(h, at, user);
    }
  }

  /** `attemptWrite` around the record callback. `answers` is what the database does with each attempt. */
  method AttemptRecord(kind: PayerKind, store: SubmissionStore, h: Hash, at: Time, user: UserTotals, answers: seq<WriteOutcome>)
    returns (landed: bool)
    requires |answers| == PERSISTENCE_ATTEMPTS
    modifies store, user
    ensures var recorded := RecordPayment(kind, old(store.View()), h, at);
            && (landed <==> recorded != Refused && Heard(answers))
            && store.View() == (if recorded != Refused && Commits(answers) then recorded.rows else old(store.View()))
            && var credits := if recorded.Fresh? && Commits(answers) then 1 else 0;
               && user.earnedUnits == old(user.earnedUnits) + credits * store.amount
               && user.submissionCount == old(user.submissionCount) + credits
  {
    ghost var r := store.View();
    ghost var recorded := RecordPayment(kind, r, h, at);
    if recorded != Refused {
      RecordIsReplaySafe(kind, r, h, at);
    }
    ghost var commits := false;
    for attempt := 0 to PERSISTENCE_ATTEMPTS
      invariant commits <==> Commits(answers[..attempt])
      invariant !(recorded != Refused && Heard(answers[..attempt]))
      invariant store.View() == if recorded != Refused && commits then recorded.rows else r
      invariant user.earnedUnits == old(user.earnedUnits) + (if recorded.Fresh? && commits then store.amount else 0)
      invariant user.submissionCount == old(user.submissionCount) + (if recorded.Fresh? && commits then 1 else 0)
    {
      assert answers[..attempt + 1] == answers[..attempt] + [answers[attempt]];
      if answers[attempt] == RolledBack { continue; }
      var committed := Record(kind, store, h, at, user);
      commits := true;
      assert Commits(answers) by { assert answers[attempt] != RolledBack; }
      if committed && answers[attempt] == Replied {
        return true;
      }
    }
    assert answers[..PERSISTENCE_ATTEMPTS] == answers;
    landed := false;
  }

  /** `attemptWrite` around the quarantine, which no state of the row refuses. */
  method AttemptQuarantine(kind: PayerKind, store: SubmissionStore, h: Hash, now: Time, answers: seq<WriteOutcome>)
    returns (landed: bool)
    requires |answers| == PERSISTENCE_ATTEMPTS
    modifies store
    ensures landed <==> Heard(answers)
    ensures store.View() == if Commits(answers) then Quarantine(kind, old(store.View()), h, now) else old(store.View())
  {
    ghost var r := store.View();
    ghost var commits := false;
    for attempt := 0 to PERSISTENCE_ATTEMPTS
      invariant commits <==> Commits(answers[..attempt])
      invariant !Heard(answers[..attempt])
      invariant store.View() == if commits then Quarantine(kind, r, h, now) else r
    {
      assert answers[..attempt + 1] == answers[..attempt] + [answers[attempt]];
      if answers[attempt] == RolledBack { continue; }
      store.QuarantineRow(kind, h, now);
      commits := true;
      assert Commits(answers) by { assert answers[attempt] != RolledBack; }
      if answers[attempt] == Replied {
        return true;
      }
    }
    assert answers[..PERSISTENCE_ATTEMPTS] == answers;
    landed := false;
  }

  /** `persistAcceptedPayment`: record, or quarantine and page with whether retries are blocked. */
  method PersistAcceptedPayment(kind: PayerKind, store: SubmissionStore, h: Hash, at: Time, now: Time, user: UserTotals,
                                records: seq<WriteOutcome>, quarantines: seq<WriteOutcome>)
    returns (persisted: bool, retriesBlocked: bool)
    requires |records| == |quarantines| == PERSISTENCE_ATTEMPTS
    modifies store, user
    ensures var recorded := RecordPayment(kind, old(store.View()), h, at);
            var after := if recorded != Refused && Commits(records) then recorded.rows else old(store.View());
            && (persisted <==> recorded != Refused && Heard(records))
            && (persisted ==> store.View() == after)
            && (!persisted ==> retriesBlocked == Heard(quarantines))
            && (!persisted ==> store.View() == if Commits(quarantines) then Quarantine(kind, after, h, now) else after)
            && user.submissionCount == old(user.submissionCount) + (if recorded.Fresh? && Commits(records) then 1 else 0)
            && user.earnedUnits == old(user.earnedUnits) + (if recorded.Fresh? && Commits(records) then store.amount else 0)
  {
    retriesBlocked := true;
    persisted := AttemptRecord(kind, store, h, at, user, records);
    if !persisted {
      retriesBlocked := AttemptQuarantine(kind, store, h, now, quarantines);
    }
  }

  /**
   A payment that is not recorded but whose page says retries are blocked can be claimed by
   nobody: it is held under its hash. When no failed write had in fact landed, the row was
   also never recorded or credited, which is what a later hand-back relies on.
   */
  lemma BlockedMeansHeld(kind: PayerKind, r: Rows, h: Hash, at: Time, now: Time, later: Time,
                         records: seq<WriteOutcome>, quarantines: seq<WriteOutcome>)
    requires !(RecordPayment(kind, r, h, at) != Refused && Heard(records)) && Heard(quarantines)
    ensures var recorded := RecordPayment(kind, r, h, at);
            var after := if recorded != Refused && Commits(records) then recorded.rows else r;
            var held := if Commits(quarantines) then Quarantine(kind, after, h, now) else after;
            && held.hash == Some(h) && held.status == NeedsReconciliation && ClaimForRetry(held, later) == None
            && ((forall i :: 0 <= i < |records| ==> records[i] != LostReply) ==> after == r)
  {
    var i :| 0 <= i < |quarantines| && quarantines[i] == Replied;
    assert Commits(quarantines);
  }
}
