/**
 No submission is ever stuck: whatever state its payers left it in, dying anywhere, one that
 carries no hash and was not refunded can still be paid by one retry.
 */
module PayoutProgress {
  import opened Wrappers
  import opened StellarChain
  import opened PayoutRows
  import opened PayoutProtocol
  import opened PayoutSafety
  import opened PayoutTuples
  import opened PayoutRuns

  // ----- from one state to another -----

  /** A system of this one submission. */
  ghost predicate Just(s: System, w: World, sub: Sub) {
    s.world == w && s.subs == [sub] && |s.owners| == 1 && s.owners[0] in s.users
  }

  ghost predicate PathTo(m: Mode, start: System, states: seq<System>, labels: seq<Label>, w: World, sub: Sub) {
    && |states| == |labels| + 1 && states[0] == start
    && (forall i :: 0 <= i < |labels| ==> Next(m, states[i], labels[i], states[i + 1]))
    && Just(states[|states| - 1], w, sub)
  }

  /** Some steps lead from the start to this submission in this world. */
  ghost predicate Leads(m: Mode, start: System, w: World, sub: Sub) {
    exists states: seq<System>, labels: seq<Label> :: PathTo(m, start, states, labels, w, sub)
  }

  lemma LeadsNowhere(m: Mode, start: System, w: World, sub: Sub)
    requires Just(start, w, sub)
    ensures Leads(m, start, w, sub)
  {
    assert PathTo(m, start, [start], [], w, sub);
  }

  lemma LeadsOn(m: Mode, start: System, w: World, sub: Sub, l: Label, v: World, t: Sub)
    requires Leads(m, start, w, sub)
    requires forall s: System :: Just(s, w, sub) ==> exists u :: Next(m, s, l, u) && Just(u, v, t)
    ensures Leads(m, start, v, t)
  {
    var states: seq<System>, labels: seq<Label> :| PathTo(m, start, states, labels, w, sub);
    var last := states[|states| - 1];
    var u :| Next(m, last, l, u) && Just(u, v, t);
    var more, all := states + [u], labels + [l];
    hide Next, Just;
    forall i | 0 <= i < |all| ensures Next(m, more[i], all[i], more[i + 1]) {
      if i < |labels| {
        assert Next(m, states[i], labels[i], states[i + 1]);
      }
    }
    assert PathTo(m, start, more, all, v, t);
  }

  lemma Then(m: Mode, start: System, w: World, s: Sub, a: Action)
    requires w.seen <= |w.chain| && Leads(m, start, w, s) && Enabled(m, s, w, a)
    ensures Leads(m, start, w, Effect(m, s, w, a))
  {
    var t := Effect(m, s, w, a);
    FreshIsNew(m, s, w, a);
    hide Leads, Enabled, Effect, Credit, Credited;
    forall x: System | Just(x, w, s) ensures exists u :: Next(m, x, Act(0, a), u) && Just(u, w, t) {
      var u := Successor(m, x, Act(0, a));
      assert Next(m, x, Act(0, a), u) && Just(u, w, t);
    }
    LeadsOn(m, start, w, s, Act(0, a), w, t);
  }

  lemma FreshIsNew(m: Mode, s: Sub, w: World, a: Action)
    requires w.seen <= |w.chain| && Enabled(m, s, w, a)
    ensures a.Paying? && a.pay.Journal? ==> a.pay.h !in s.envs
  {
  }

  lemma ThenTick(m: Mode, start: System, w: World, s: Sub, now: Time)
    requires w.seen <= |w.chain| && Leads(m, start, w, s) && w.now <= now && s.payers == map[]
    ensures Leads(m, start, w.(now := now), s)
  {
    var v := w.(now := now);
    hide Leads;
    forall x: System | Just(x, w, s) ensures exists u :: Next(m, x, Tick(now), u) && Just(u, v, s) {
      var u := x.(world := v);
      assert Next(m, x, Tick(now), u) && Just(u, v, s);
    }
    LeadsOn(m, start, w, s, Tick(now), v, s);
  }

  /** A ledger closes, and Horizon shows it. */
  lemma ThenClose(m: Mode, start: System, w: World, s: Sub, l: Ledger)
    requires w.Valid() && Leads(m, start, w, s) && Includes(s, l)
    requires w.chain != [] ==> w.chain[|w.chain| - 1].closeTime < l.closeTime
    ensures var v := World(w.chain + [l], |w.chain| + 1, w.now);
            v.Valid() && v.View() == v.chain && Leads(m, start, v, s)
  {
    var closed := w.(chain := w.chain + [l]);
    var seen := World(w.chain + [l], |w.chain| + 1, w.now);
    hide Leads;
    forall x: System | Just(x, w, s) ensures exists u :: Next(m, x, Close(l), u) && Just(u, closed, s) {
      var u := x.(world := closed);
      assert Next(m, x, Close(l), u) && Just(u, closed, s);
    }
    LeadsOn(m, start, w, s, Close(l), closed, s);
    forall x: System | Just(x, closed, s) ensures exists u :: Next(m, x, See(|w.chain| + 1), u) && Just(u, seen, s) {
      var u := x.(world := seen);
      assert Next(m, x, See(|w.chain| + 1), u) && Just(u, seen, s);
    }
    LeadsOn(m, start, closed, s, See(|w.chain| + 1), seen, s);
  }

  // ----- clearing the way -----

  /** Every payer dies, and a refund still owed by a hand-back is never written. */
  lemma {:induction false} AllDie(m: Mode, start: System, w: World, s: Sub)
    requires w.seen <= |w.chain| && Leads(m, start, w, s)
    ensures Leads(m, start, w, s.(payers := map[], refundOwed := false))
    decreases |s.payers|
  {
    if s.payers != map[] {
      var p :| p in s.payers;
      Then(m, start, w, s, Die(p));
      hide Leads;
      AllDie(m, start, w, Leave(s, p));
    } else if s.refundOwed {
      Then(m, start, w, s, Outside(DropRefund));
    } else {
      assert s.(payers := map[], refundOwed := false) == s;
    }
  }

  function Latest(c: Chain): Time {
    if c == [] then 0 else c[|c| - 1].closeTime
  }

  /** Later than a lease taken on the row, than the last ledger and than every envelope's bound. */
  ghost predicate LongAfter(w: World, r: Rows, t: Time) {
    && t > w.now && t > Latest(w.chain)
    && (r.lastRetriedAt.Some? ==> t > r.lastRetriedAt.value + RETRY_CLAIM_LEASE_MS)
    && forall h :: h in r.attempts ==> t > r.attempts[h].expiresAt
  }

  lemma {:induction false} BoundsEnd(attempts: map<Hash, Attempt>) returns (t: Time)
    ensures forall h :: h in attempts ==> t > attempts[h].expiresAt
    decreases |attempts|
  {
    if attempts == map[] {
      t := 0;
    } else {
      var g :| g in attempts;
      var u := BoundsEnd(attempts - {g});
      t := if u > attempts[g].expiresAt then u else attempts[g].expiresAt + 1;
      forall h | h in attempts ensures t > attempts[h].expiresAt {
        assert h != g ==> h in attempts - {g};
      }
    }
  }

  lemma SomeTime(w: World, r: Rows) returns (t: Time)
    ensures LongAfter(w, r, t)
  {
    var u := BoundsEnd(r.attempts);
    var lease := if r.lastRetriedAt.Some? then r.lastRetriedAt.value + RETRY_CLAIM_LEASE_MS else 0;
    t := u + lease + w.now + Latest(w.chain) + 1;
  }

  // ----- a hash nobody knows -----

  ghost predicate Above(h: Hash, hs: set<Hash>) {
    forall g :: g in hs ==> g < h
  }

  lemma {:induction false} SomeHash(hs: set<Hash>) returns (h: Hash)
    ensures Above(h, hs)
    decreases |hs|
  {
    if hs == {} {
      h := 0;
    } else {
      var g :| g in hs;
      var k := SomeHash(hs - {g});
      h := if k > g then k else g + 1;
      assert forall x :: x in hs ==> x == g || x in hs - {g};
    }
  }

  function Included(c: Chain): set<Hash> {
    if c == [] then {} else Included(c[..|c| - 1]) + c[|c| - 1].txs.Keys
  }

  lemma {:induction false} OutsideIsNotFound(c: Chain, h: Hash)
    requires h !in Included(c)
    ensures Lookup(c, h) == NotFound
  {
    if c != [] {
      OutsideIsNotFound(c[..|c| - 1], h);
    }
  }

  // ----- one retry -----

  /** Unpaid, not refunded, and in a status a payer or an operator can start from. */
  predicate Payably(r: Rows) {
    r.hash == None && !r.refunded && (r.status == Pending || r.status == PayoutFailed || r.status == Abandoned)
  }

  /** The journal's state that every reachable submission keeps, with no payer at work. */
  ghost predicate Idle(s: Sub, w: World) {
    && w.Valid() && w.seen == |w.chain| && s.payers == map[] && !s.refundOwed
    && s.envs.Keys == s.rows.attempts.Keys
    && (forall g, h :: OpenIn(s.rows.attempts, g) && OpenIn(s.rows.attempts, h) ==> g == h)
    && (forall h :: h in s.rows.attempts ==> s.rows.attempts[h].createdAt <= w.now && ClosedPast(w.chain, s.rows.attempts[h].expiresAt))
    && (s.rows.lastRetriedAt.Some? ==> w.now > s.rows.lastRetriedAt.value + RETRY_CLAIM_LEASE_MS)
  }

  /** The row is paid: sent under the hash of an envelope that applied. */
  ghost predicate IsPaid(s: Sub, w: World) {
    s.rows.status == Sent && s.rows.hash.Some? && Applied(s.rows.hash.value, w.chain)
  }

  ghost predicate LeadsToPaid(m: Mode, start: System) {
    exists w: World, s: Sub :: Leads(m, start, w, s) && IsPaid(s, w)
  }

  const P: PayerId := 0

  function At(s: Sub, now: Time, base: nat, phase: Phase): Sub {
    s.(rows := s.rows.(lastRetriedAt := Some(now)), payers := map[P := Payer(Pays(RetryPath), base, phase, now)])
  }

  lemma Claims(m: Mode, start: System, w: World, s: Sub)
    requires Leads(m, start, w, s) && Idle(s, w) && Payably(s.rows)
    ensures Leads(m, start, w, At(s, w.now, s.rows.retryCount, Claimed))
  {
    hide Leads;
    Then(m, start, w, s, Claim(P, Pays(RetryPath)));
    assert Effect(m, s, w, Claim(P, Pays(RetryPath))) == At(s, w.now, s.rows.retryCount, Claimed);
  }

  /** The settling step may be taken, and this is what it does. */
  ghost predicate SettleTakes(m: Mode, s: Sub, w: World, base: nat, from: Phase, step: SettleStep, rows: Rows, to: Phase) {
    && w.seen <= |w.chain| && CanSettle(m, At(s, w.now, base, from), P, step)
    && SettleEffect(At(s, w.now, base, from), w, P, step) == At(s.(rows := rows), w.now, base, to)
  }

  lemma SettlesOn(m: Mode, start: System, w: World, s: Sub, base: nat, from: Phase, step: SettleStep, rows: Rows, to: Phase)
    requires Leads(m, start, w, At(s, w.now, base, from)) && SettleTakes(m, s, w, base, from, step, rows, to)
    ensures Leads(m, start, w, At(s.(rows := rows), w.now, base, to))
  {
    hide Leads, SettleEffect, CanSettle;
    Then(m, start, w, At(s, w.now, base, from), Settling(P, step));
  }

  lemma Finds(m: Mode, s: Sub, w: World, base: nat, h: Hash)
    requires w.seen <= |w.chain| && OpenIn(s.rows.attempts, h)
    ensures SettleTakes(m, s, w, base, Claimed, FindOpen(Some(h)), s.rows, Looking(h, s.rows.attempts[h].expiresAt))
  {
  }

  lemma FindsNone(m: Mode, s: Sub, w: World, base: nat)
    requires w.seen <= |w.chain| && !HasOpen(s.rows.attempts)
    ensures SettleTakes(m, s, w, base, Claimed, FindOpen(None), s.rows, Clear)
  {
    assert !HasOpen(At(s, w.now, base, Claimed).rows.attempts);
  }

  lemma Looks(m: Mode, s: Sub, w: World, base: nat, h: Hash, t: Time)
    requires w.seen == |w.chain|
    ensures match Lookup(w.chain, h)
            case Confirmed => SettleTakes(m, s, w, base, Looking(h, t), FirstLook(true), s.rows, Accepted(h, false))
            case Failed => SettleTakes(m, s, w, base, Looking(h, t), FirstLook(true), VoidAttempt(s.rows, h), Clear)
            case NotFound => SettleTakes(m, s, w, base, Looking(h, t), FirstLook(true), s.rows, AwaitLedger(h, t))
  {
    FirstLooks(s, w, base, h, t);
    hide Lookup, VoidAttempt, SettleEffect, HasOpen;
  }

  lemma FirstLooks(s: Sub, w: World, base: nat, h: Hash, t: Time)
    requires w.seen == |w.chain|
    ensures SettleEffect(At(s, w.now, base, Looking(h, t)), w, P, FirstLook(true)) ==
              match Lookup(w.chain, h)
              case Confirmed => At(s, w.now, base, Accepted(h, false))
              case Failed => At(s.(rows := VoidAttempt(s.rows, h)), w.now, base, Clear)
              case NotFound => At(s, w.now, base, AwaitLedger(h, t))
  {
    assert w.View() == w.chain;
    hide Lookup, ClosedPast, AfterStandDown;
  }

  lemma SeesPast(m: Mode, s: Sub, w: World, base: nat, h: Hash, t: Time)
    requires w.seen == |w.chain| && ClosedPast(w.chain, t)
    ensures SettleTakes(m, s, w, base, AwaitLedger(h, t), SeeLedger(true), s.rows, LookAgain(h, t))
  {
    assert w.View() == w.chain;
    hide Lookup;
  }

  lemma LooksAgain(m: Mode, s: Sub, w: World, base: nat, h: Hash, t: Time)
    requires w.seen == |w.chain| && Lookup(w.chain, h) == NotFound
    ensures SettleTakes(m, s, w, base, LookAgain(h, t), SecondLook(true), VoidAttempt(s.rows, h), Clear)
  {
    assert w.View() == w.chain;
    hide Lookup;
  }

  /** An envelope left open is decided, its bound being past: it applied and is taken, or it is void. */
  lemma SettlesOpen(m: Mode, start: System, w: World, s: Sub, base: nat, h: Hash) returns (rows: Rows, phase: Phase)
    requires w.Valid() && w.seen == |w.chain| && Leads(m, start, w, At(s, w.now, base, Claimed))
    requires OpenIn(s.rows.attempts, h) && ClosedPast(w.chain, s.rows.attempts[h].expiresAt)
    ensures Leads(m, start, w, At(s.(rows := rows), w.now, base, phase))
    ensures (phase == Accepted(h, false) && rows == s.rows && Applied(h, w.chain)) || (phase == Clear && rows == VoidAttempt(s.rows, h))
  {
    var expires := s.rows.attempts[h].expiresAt;
    Finds(m, s, w, base, h);
    Looks(m, s, w, base, h, expires);
    SeesPast(m, s, w, base, h, expires);
    hide Leads, Lookup, ClosedPast, SettleTakes, VoidAttempt, OpenIn, At;
    assert s.(rows := s.rows) == s;
    SettlesOn(m, start, w, s, base, Claimed, FindOpen(Some(h)), s.rows, Looking(h, expires));
    rows, phase := VoidAttempt(s.rows, h), Clear;
    if Lookup(w.chain, h) == NotFound {
      SettlesOn(m, start, w, s, base, Looking(h, expires), FirstLook(true), s.rows, AwaitLedger(h, expires));
      SettlesOn(m, start, w, s, base, AwaitLedger(h, expires), SeeLedger(true), s.rows, LookAgain(h, expires));
      LooksAgain(m, s, w, base, h, expires);
      SettlesOn(m, start, w, s, base, LookAgain(h, expires), SecondLook(true), rows, phase);
    } else {
      if Lookup(w.chain, h) == StellarChain.Confirmed {
        rows, phase := s.rows, Accepted(h, false);
      }
      SettlesOn(m, start, w, s, base, Looking(h, expires), FirstLook(true), rows, phase);
    }
  }

  /** A payer with the hash of an applied envelope records it. */
  lemma Records(m: Mode, start: System, w: World, s: Sub, base: nat, h: Hash)
    requires w.seen <= |w.chain| && Leads(m, start, w, At(s, w.now, base, Accepted(h, false)))
    requires s.rows.hash == None && Applied(h, w.chain) && (h in s.rows.attempts ==> s.rows.attempts[h].createdAt <= w.now)
    ensures LeadsToPaid(m, start)
  {
    var t := At(s, w.now, base, Accepted(h, false));
    var a := Ending(P, Record(false, w.now));
    RecordsNow(m, w, s, base, h);
    hide Leads, Enabled, Effect;
    Then(m, start, w, t, a);
    assert IsPaid(Effect(m, t, w, a), w);
  }

  lemma RecordsNow(m: Mode, w: World, s: Sub, base: nat, h: Hash)
    requires w.seen <= |w.chain| && s.rows.hash == None && (h in s.rows.attempts ==> s.rows.attempts[h].createdAt <= w.now)
    ensures var t, a := At(s, w.now, base, Accepted(h, false)), Ending(P, Record(false, w.now));
            && Enabled(m, t, w, a) && Effect(m, t, w, a).rows.status == Sent && Effect(m, t, w, a).rows.hash == Some(h)
  {
  }

  /** The row and the envelope once the journal has it. */
  function Signs(s: Sub, h: Hash, maxTime: Time, now: Time, fate: Fate): Sub {
    s.(rows := s.rows.(attempts := s.rows.attempts[h := Attempt(Open, maxTime, now)]), envs := s.envs[h := Envelope(maxTime, fate, true)])
  }

  /** The paying step may be taken, and this is what it does. */
  ghost predicate PayTakes(m: Mode, s: Sub, w: World, base: nat, from: Phase, step: PayStep, t: Sub, to: Phase) {
    && w.seen <= |w.chain| && CanPay(m, At(s, w.now, base, from), w, P, step)
    && PayEffect(At(s, w.now, base, from), w, P, step) == At(t, w.now, base, to)
  }

  lemma PaysOn(m: Mode, start: System, w: World, s: Sub, base: nat, from: Phase, step: PayStep, t: Sub, to: Phase)
    requires Leads(m, start, w, At(s, w.now, base, from)) && PayTakes(m, s, w, base, from, step, t, to)
    ensures Leads(m, start, w, At(t, w.now, base, to))
  {
    hide Leads, PayEffect, CanPay;
    Then(m, start, w, At(s, w.now, base, from), Paying(P, step));
  }

  lemma Journals(m: Mode, s: Sub, w: World, base: nat, h: Hash, maxTime: Time)
    requires w.seen <= |w.chain| && Payable(s.rows) && !HasOpen(s.rows.attempts)
    requires h !in s.envs && h !in s.rows.attempts && Lookup(w.chain, h) == NotFound
    ensures PayTakes(m, s, w, base, Clear, Journal(h, maxTime, true, true), Signs(s, h, maxTime, w.now, Signed), Phase.Journalled(h))
  {
    var t := At(s, w.now, base, Clear);
    OpensOn(t.rows, h, maxTime, w.now);
    JournalDoes(t, w, h, maxTime);
    hide Lookup, PayEffect, OpenAttempt, HasOpen;
  }

  lemma OpensOn(r: Rows, h: Hash, maxTime: Time, now: Time)
    requires Payable(r) && !HasOpen(r.attempts) && h !in r.attempts
    ensures OpenAttempt(r, h, maxTime, now) == Some(r.(attempts := r.attempts[h := Attempt(Open, maxTime, now)]))
  {
  }

  lemma JournalDoes(t: Sub, w: World, h: Hash, maxTime: Time)
    requires P in t.payers && t.payers[P].phase == Clear && OpenAttempt(t.rows, h, maxTime, w.now).Some?
    ensures PayEffect(t, w, P, Journal(h, maxTime, true, true)) ==
              t.(rows := OpenAttempt(t.rows, h, maxTime, w.now).value, envs := t.envs[h := Envelope(maxTime, Signed, true)],
                 payers := t.payers[P := t.payers[P].(phase := Phase.Journalled(h))])
  {
    hide OpenAttempt, VoidAttempt, WithFate;
  }

  lemma Submits(m: Mode, s: Sub, w: World, base: nat, h: Hash, maxTime: Time)
    requires w.seen <= |w.chain|
    ensures PayTakes(m, Signs(s, h, maxTime, w.now, Signed), w, base, Phase.Journalled(h), Submit,
                     Signs(s, h, maxTime, w.now, InFlight), Submitted(h))
  {
    var signed, sent := Signs(s, h, maxTime, w.now, Signed), Signs(s, h, maxTime, w.now, InFlight);
    assert signed.envs[h := signed.envs[h].(fate := InFlight)] == sent.envs;
    hide Lookup;
  }

  lemma Returns(m: Mode, s: Sub, w: World, base: nat, h: Hash)
    requires w.seen <= |w.chain| && h in s.envs && Lookup(w.chain, h) == StellarChain.Confirmed
    ensures PayTakes(m, s, w, base, Submitted(h), Return, s, Accepted(h, false))
  {
    hide Lookup, OpenAttempt, VoidAttempt, ClosedPast, WithFate;
  }

  /** With nothing open, one envelope more is built, submitted and included. */
  lemma BuildsAndLands(m: Mode, start: System, w: World, s: Sub, base: nat)
    requires w.Valid() && w.seen == |w.chain| && Leads(m, start, w, At(s, w.now, base, Clear))
    requires Payable(s.rows) && !HasOpen(s.rows.attempts) && s.envs.Keys == s.rows.attempts.Keys
    ensures LeadsToPaid(m, start)
  {
    var h := SomeHash(s.envs.Keys + Included(w.chain));
    assert h !in s.envs && h !in Included(w.chain);
    OutsideIsNotFound(w.chain, h);
    var maxTime := Latest(w.chain) + 1;
    var signed, sent := Signs(s, h, maxTime, w.now, Signed), Signs(s, h, maxTime, w.now, InFlight);
    var l := Ledger(maxTime, map[h := true]);
    assert Includes(At(sent, w.now, base, Submitted(h)), l) && sent.rows.attempts[h].createdAt == w.now && h in sent.envs;
    assert sent.rows.hash == None;
    Journals(m, s, w, base, h, maxTime);
    Submits(m, s, w, base, h, maxTime);
    hide Leads, Lookup, PayTakes, Signs, At, Includes, HasOpen, LeadsToPaid;
    PaysOn(m, start, w, s, base, Clear, Journal(h, maxTime, true, true), signed, Phase.Journalled(h));
    PaysOn(m, start, w, signed, base, Phase.Journalled(h), Submit, sent, Submitted(h));
    ThenClose(m, start, w, At(sent, w.now, base, Submitted(h)), l);
    var v := World(w.chain + [l], |w.chain| + 1, w.now);
    LandsNow(w.chain, l, h);
    Returns(m, sent, v, base, h);
    PaysOn(m, start, v, sent, base, Submitted(h), Return, sent, Accepted(h, false));
    Records(m, start, v, sent, base, h);
  }

  lemma LandsNow(c: Chain, l: Ledger, h: Hash)
    requires Lookup(c, h) == NotFound && h in l.txs && l.txs[h]
    ensures Lookup(c + [l], h) == StellarChain.Confirmed
  {
    assert (c + [l])[..|c|] == c;
  }

  lemma NoneOpen(r: Rows, h: Hash)
    requires OpenIn(r.attempts, h) && forall g :: OpenIn(r.attempts, g) ==> g == h
    ensures !HasOpen(VoidAttempt(r, h).attempts) && VoidAttempt(r, h).attempts.Keys == r.attempts.Keys
  {
    assert forall g :: OpenIn(VoidAttempt(r, h).attempts, g) ==> OpenIn(r.attempts, g);
  }

  /** From an idle, payable row: one retry settles what is open and pays it. */
  lemma OneRetryPays(m: Mode, start: System, w: World, s: Sub)
    requires Leads(m, start, w, s) && Idle(s, w) && s.rows.hash == None && !s.rows.refunded
    requires (s.rows.status == Pending || s.rows.status == PayoutFailed)
    ensures LeadsToPaid(m, start)
  {
    var base := s.rows.retryCount;
    Claims(m, start, w, s);
    hide Leads;
    if h :| h in s.rows.attempts && OpenIn(s.rows.attempts, h) {
      var rows, phase := SettlesOpen(m, start, w, s, base, h);
      var t := s.(rows := rows);
      if phase == Clear {
        NoneOpen(s.rows, h);
        BuildsAndLands(m, start, w, t, base);
      } else {
        Records(m, start, w, t, base, h);
      }
    } else {
      FindsNone(m, s, w, base);
      SettlesOn(m, start, w, s, base, Claimed, FindOpen(None), s.rows, Clear);
      assert s.(rows := s.rows) == s;
      BuildsAndLands(m, start, w, s, base);
    }
  }

  /**
   From any state a submission's payers can leave it in: once they are gone and time has
   passed, an operator resets it if it was abandoned, and one retry pays it.
   */
  lemma CanBePaid(m: Mode, start: System, w: World, s: Sub)
    requires Just(start, w, s) && w.Valid() && SubInv(m, s, w) && TupleInv(s, w.now) && Payably(s.rows)
    ensures LeadsToPaid(m, start)
  {
    LeadsNowhere(m, start, w, s);
    AllDie(m, start, w, s);
    var alone := s.(payers := map[], refundOwed := false);
    var t := SomeTime(w, s.rows);
    hide Leads;
    ThenTick(m, start, w, alone, t);
    var late := w.(now := t);
    ThenClose(m, start, late, alone, Ledger(t, map[]));
    var v := World(w.chain + [Ledger(t, map[])], |w.chain| + 1, t);
    assert Idle(alone, v) by {
      assert forall h :: OpenIn(s.rows.attempts, h) ==> Live(s.rows.attempts, h);
    }
    if s.rows.status == Abandoned {
      Then(m, start, v, alone, Outside(ResetByAdmin));
      OneRetryPays(m, start, v, Effect(m, alone, v, Outside(ResetByAdmin)));
    } else {
      OneRetryPays(m, start, v, alone);
    }
  }

  /** So no reachable submission is stuck, the others standing still: unpaid and unrefunded, it can still be paid. */
  lemma NeverStuck(m: Mode, states: seq<System>, labels: seq<Label>, k: nat, i: nat)
    requires Sound(m) && Run(m, states, labels) && k < |states| && i < |states[k].subs| == |states[k].owners|
    requires states[k].owners[i] in states[k].users && Payably(states[k].subs[i].rows)
    ensures LeadsToPaid(m, states[k].(subs := [states[k].subs[i]], owners := [states[k].owners[i]]))
  {
    RunKeeps(m, states, labels, k);
    RunTuples(m, states, labels, k);
    assert SubInv(m, states[k].subs[i], states[k].world);
    hide LeadsToPaid;
    CanBePaid(m, states[k].(subs := [states[k].subs[i]], owners := [states[k].owners[i]]), states[k].world, states[k].subs[i]);
  }
}
