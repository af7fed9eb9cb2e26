/**
 What the protocol does not give, by concrete runs. Together with `PayoutRuns` they make
 the condition for at-most-once payment and for losing none exact; refund exclusion fails
 when a give-up is interleaved with an operator, and when the journal cannot be read; the
 lease does not exclude once a lost reply meets a hand-back or a reset is undone; and
 totals drift when a failure is written after the claim is handed back.
 */
module PayoutCounterexamples {
  import opened Wrappers
  import opened StellarChain
  import opened PayoutRows
  import opened PayoutProtocol
  import opened PayoutSafety
  import opened PayoutLease
  import opened PayoutRuns
  import opened PayoutEarnings
  import opened PayoutRefunds

  // ----- building a run one label at a time -----

  ghost predicate ReachedBy(m: Mode, states: seq<System>, labels: seq<Label>, s: Sub, w: World) {
    && Run(m, states, labels)
    && var t := states[|states| - 1];
       t.world == w && t.subs == [s] && t.owners == [0] && 0 in t.users
  }

  /** Some run of one submission ends here. */
  ghost predicate Reached(m: Mode, s: Sub, w: World) {
    exists states: seq<System>, labels: seq<Label> :: ReachedBy(m, states, labels, s, w)
  }

  ghost predicate EndsWith(m: Mode, states: seq<System>, labels: seq<Label>, i: nat, s: Sub, w: World) {
    && Run(m, states, labels)
    && var t := states[|states| - 1];
       t.world == w && i < |t.subs| && t.subs[i] == s
  }

  /** Some run, of any number of submissions, reaches this submission in this world. */
  ghost predicate Reachable(m: Mode, s: Sub, w: World) {
    exists states: seq<System>, labels: seq<Label>, i: nat :: EndsWith(m, states, labels, i, s, w)
  }

  lemma SomeRun(m: Mode, s: Sub, w: World) returns (states: seq<System>, labels: seq<Label>, i: nat)
    requires Reachable(m, s, w)
    ensures EndsWith(m, states, labels, i, s, w)
  {
    states, labels, i :| EndsWith(m, states, labels, i, s, w);
  }

  lemma ReachedIsReachable(m: Mode, s: Sub, w: World)
    requires Reached(m, s, w)
    ensures Reachable(m, s, w)
  {
    var states: seq<System>, labels: seq<Label> :| ReachedBy(m, states, labels, s, w);
    assert EndsWith(m, states, labels, 0, s, w);
  }

  lemma Extend(m: Mode, states: seq<System>, labels: seq<Label>, l: Label, t: System)
    requires Run(m, states, labels) && Next(m, states[|states| - 1], l, t)
    ensures Run(m, states + [t], labels + [l])
  {
    var more, all := states + [t], labels + [l];
    forall i | 0 <= i < |all| ensures Next(m, more[i], all[i], more[i + 1]) {
      if i < |labels| {
        assert Next(m, states[i], labels[i], states[i + 1]);
      }
    }
  }

  lemma ReachNext(m: Mode, s: Sub, w: World, l: Label, t: Sub, v: World)
    requires Reached(m, s, w) && w.seen <= |w.chain|
    requires forall users: map<UserId, Totals> :: 0 in users ==>
               var from := System(w, [s], [0], users);
               Allowed(m, from, l) && Successor(m, from, l).world == v && Successor(m, from, l).subs == [t]
               && Successor(m, from, l).owners == [0] && 0 in Successor(m, from, l).users
    ensures Reached(m, t, v)
  {
    var states: seq<System>, labels: seq<Label> :| ReachedBy(m, states, labels, s, w);
    var from := states[|states| - 1];
    assert from == System(w, [s], [0], from.users);
    var to := Successor(m, from, l);
    Extend(m, states, labels, l, to);
    assert ReachedBy(m, states + [to], labels + [l], t, v);
  }

  lemma DoAct(m: Mode, s: Sub, w: World, a: Action)
    requires Reached(m, s, w) && w.seen <= |w.chain| && Enabled(m, s, w, a)
    ensures Reached(m, Effect(m, s, w, a), w)
  {
    assert a.Paying? && a.pay.Journal? ==> a.pay.h !in s.envs;
    hide Enabled, Effect, Credit;
    assert [s][0 := Effect(m, s, w, a)] == [Effect(m, s, w, a)];
    ReachNext(m, s, w, Act(0, a), Effect(m, s, w, a), w);
  }

  lemma LandLooks(c: Chain, h: Hash, ok: bool, at: Time)
    requires Lookup(c, h) == NotFound
    ensures Lookup(c + [Ledger(at, map[h := ok])], h) == if ok then StellarChain.Confirmed else StellarChain.Failed
    ensures forall g :: g != h ==> Lookup(c + [Ledger(at, map[h := ok])], g) == Lookup(c, g)
  {
    assert (c + [Ledger(at, map[h := ok])])[..|c|] == c;
  }

  lemma DoClose(m: Mode, s: Sub, w: World, l: Ledger)
    requires Reached(m, s, w) && w.Valid() && Includes(s, l)
    requires w.chain != [] ==> w.chain[|w.chain| - 1].closeTime < l.closeTime
    ensures w.(chain := w.chain + [l]).Valid() && Reached(m, s, w.(chain := w.chain + [l]))
  {
    hide Includes;
    ReachNext(m, s, w, Close(l), s, w.(chain := w.chain + [l]));
  }

  lemma DoSee(m: Mode, s: Sub, w: World)
    requires Reached(m, s, w) && w.Valid()
    ensures Reached(m, s, w.(seen := |w.chain|))
  {
    ReachNext(m, s, w, See(|w.chain|), s, w.(seen := |w.chain|));
  }

  lemma DoSeeAll(m: Mode, s: Sub, w: World) returns (v: World)
    requires Reached(m, s, w) && w.Valid()
    ensures v == World(w.chain, |w.chain|, w.now) && v.Valid() && v.View() == v.chain && Reached(m, s, v)
  {
    DoSee(m, s, w);
    hide Reached, Ordered;
    v := w.(seen := |w.chain|);
  }

  lemma IncludesOne(s: Sub, h: Hash, ok: bool, at: Time)
    requires h in s.envs && s.envs[h].fate == InFlight && at <= s.envs[h].maxTime
    ensures Includes(s, Ledger(at, map[h := ok]))
  {
  }

  lemma NothingClosed(h: Hash)
    ensures World([], 0, 0).Valid() && Lookup([], h) == NotFound
  {
  }

  /** A ledger closes with one envelope in it, and Horizon shows it at once. */
  lemma DoLand(m: Mode, s: Sub, w: World, h: Hash, ok: bool, at: Time) returns (v: World)
    requires Reached(m, s, w) && w.Valid() && h in s.envs && s.envs[h].fate == InFlight && at <= s.envs[h].maxTime
    requires w.chain != [] ==> w.chain[|w.chain| - 1].closeTime < at
    requires Lookup(w.chain, h) == NotFound
    ensures v == World(w.chain + [Ledger(at, map[h := ok])], |w.chain| + 1, w.now)
    ensures v.Valid() && v.View() == v.chain && Reached(m, s, v)
    ensures Lookup(v.chain, h) == if ok then StellarChain.Confirmed else StellarChain.Failed
    ensures forall g :: g != h ==> Lookup(v.chain, g) == Lookup(w.chain, g)
  {
    var ledger := Ledger(at, map[h := ok]);
    LandLooks(w.chain, h, ok, at);
    IncludesOne(s, h, ok, at);
    hide Lookup, Reached, Includes, Ordered;
    DoClose(m, s, w, ledger);
    v := DoSeeAll(m, s, w.(chain := w.chain + [ledger]));
  }

  function Fresh(): Sub {
    Sub(Rows(1, Pending, None, 0, None, NoError, map[], Some(Job(Queued, 0, None, None, None, None)), false),
        true, map[], map[], false, multiset{}, {})
  }

  lemma Begin(m: Mode) returns (w: World)
    ensures w == World([], 0, 0) && w.Valid() && Reached(m, Fresh(), w)
  {
    w := World([], 0, 0);
    var start := System(w, [], [], map[0 := Totals(0, 0)]);
    assert Run(m, [start], []);
    var to := Successor(m, start, Accept(Fresh(), 0));
    Extend(m, [start], [], Accept(Fresh(), 0), to);
    assert ReachedBy(m, [start] + [to], [] + [Accept(Fresh(), 0)], Fresh(), w);
  }

  // ----- stretches of a payer's work -----

  const RETRY := Pays(RetryPath)

  predicate Idle(s: Sub, w: World) {
    Payable(s.rows) && !s.rows.refunded && !RetryClaimIsLive(s.rows.lastRetriedAt, w.now)
  }

  function Claiming(s: Sub, w: World, p: PayerId, role: Role): Sub {
    s.(rows := s.rows.(lastRetriedAt := Some(w.now)), payers := s.payers[p := Payer(role, s.rows.retryCount, Claimed, w.now)])
  }

  lemma DoClaim(m: Mode, s: Sub, w: World, p: PayerId, role: Role)
    requires Reached(m, s, w) && w.seen <= |w.chain| && Idle(s, w) && p !in s.payers
    requires m.onePayer ==> s.payers == map[] && !s.refundOwed
    ensures Reached(m, Claiming(s, w, p, role), w)
  {
    DoAct(m, s, w, Claim(p, role));
  }

  lemma DoSettle(m: Mode, s: Sub, w: World, p: PayerId, step: SettleStep)
    requires Reached(m, s, w) && w.seen <= |w.chain| && CanSettle(m, s, p, step)
    ensures Reached(m, SettleEffect(s, w, p, step), w)
  {
    hide SettleEffect, CanSettle;
    DoAct(m, s, w, Settling(p, step));
  }

  lemma DoPay(m: Mode, s: Sub, w: World, p: PayerId, step: PayStep)
    requires Reached(m, s, w) && w.seen <= |w.chain| && CanPay(m, s, w, p, step)
    ensures Reached(m, PayEffect(s, w, p, step), w)
  {
    hide PayEffect, CanPay;
    DoAct(m, s, w, Paying(p, step));
  }

  lemma DoEnd(m: Mode, s: Sub, w: World, p: PayerId, step: EndStep)
    requires Reached(m, s, w) && w.seen <= |w.chain| && CanEnd(m, s, w, p, step)
    ensures Reached(m, EndEffect(s, w, p, step), w)
  {
    hide EndEffect, CanEnd;
    DoAct(m, s, w, Ending(p, step));
  }

  lemma DoOutside(m: Mode, s: Sub, w: World, step: OutsideStep)
    requires Reached(m, s, w) && w.seen <= |w.chain| && CanOutside(m, s, w, step)
    ensures Reached(m, OutsideEffect(s, w, step), w)
  {
    hide OutsideEffect, CanOutside;
    DoAct(m, s, w, Outside(step));
  }

  /** Journalled and submitted, its fate still open. */
  function Built(s: Sub, w: World, p: PayerId, h: Hash, maxTime: Time): Sub
    requires p in s.payers
  {
    Move(s.(rows := s.rows.(attempts := s.rows.attempts[h := Attempt(Open, maxTime, w.now)]),
            envs := s.envs[h := Envelope(maxTime, InFlight, true)]), p, Submitted(h))
  }

  lemma DoBuild(m: Mode, s: Sub, w: World, p: PayerId, h: Hash, maxTime: Time)
    requires Reached(m, s, w) && w.seen <= |w.chain| && p in s.payers && s.payers[p].phase == Clear
    requires Payable(s.rows) && !HasOpen(s.rows.attempts) && h !in s.rows.attempts && h !in s.envs
    requires Lookup(w.chain, h) == NotFound
    ensures Reached(m, Built(s, w, p, h, maxTime), w)
  {
    hide Reached, Lookup, HasOpen, ClosedPast;
    DoPay(m, s, w, p, Journal(h, maxTime, true, true));
    var journalled := PayEffect(s, w, p, Journal(h, maxTime, true, true));
    DoPay(m, journalled, w, p, Submit);
    assert PayEffect(journalled, w, p, Submit) == Built(s, w, p, h, maxTime);
  }

  lemma DoFindNothing(m: Mode, s: Sub, w: World, p: PayerId)
    requires Reached(m, s, w) && w.seen <= |w.chain| && p in s.payers && s.payers[p].phase == Claimed && s.payers[p].role.Pays?
    requires !HasOpen(s.rows.attempts)
    ensures Reached(m, Move(s, p, Clear), w)
  {
    DoSettle(m, s, w, p, FindOpen(None));
  }

  /** A fresh claim on a row with nothing open builds at once. */
  lemma DoClaimAndBuild(m: Mode, s: Sub, w: World, p: PayerId, role: Role, h: Hash, maxTime: Time) returns (t: Sub)
    requires Reached(m, s, w) && w.seen <= |w.chain| && Idle(s, w) && p !in s.payers && role.Pays?
    requires m.onePayer ==> s.payers == map[] && !s.refundOwed
    requires !HasOpen(s.rows.attempts) && h !in s.rows.attempts && h !in s.envs && Lookup(w.chain, h) == NotFound
    ensures t == Built(Claiming(s, w, p, role), w, p, h, maxTime) && Reached(m, t, w)
  {
    hide Reached, HasOpen, Lookup, Run;
    var claimed := Claiming(s, w, p, role);
    DoClaim(m, s, w, p, role);
    var clear := Move(claimed, p, Clear);
    DoFindNothing(m, claimed, w, p);
    hide RetryClaimIsLive, Idle;
    DoBuild(m, clear, w, p, h, maxTime);
    t := Built(claimed, w, p, h, maxTime);
    assert t == Built(clear, w, p, h, maxTime);
  }

  /** A worker's attempt ended before it built, and it has handed its claim back; its write to the row is still to come. */
  lemma WorkerReleases(m: Mode, e: PayError) returns (s: Sub, w: World)
    requires !e.AmbiguousSubmit? && !e.ExpiredUnincluded?
    ensures Reached(m, s, w) && w == World([], 0, 0)
    ensures s == Fresh().(payers := map[0 := Payer(Pays(Worker), 0, Released(e), 0)])
  {
    w := Begin(m);
    hide Reached;
    var claimed := Claiming(Fresh(), w, 0, Pays(Worker));
    DoClaim(m, Fresh(), w, 0, Pays(Worker));
    assert forall g: Hash :: !OpenIn(claimed.rows.attempts, g);
    DoSettle(m, claimed, w, 0, FindOpen(None));
    var clear := SettleEffect(claimed, w, 0, FindOpen(None));
    DoPay(m, clear, w, 0, Refuse(e));
    var failing := PayEffect(clear, w, 0, Refuse(e));
    DoEnd(m, failing, w, 0, Release);
    s := EndEffect(failing, w, 0, Release);
  }

  /** A row the daily cap deferred: still pending, its job failed, so that it is the retry path's to offer. */
  function Deferred(): Sub {
    Fresh().(rows := Fresh().rows.(job := Some(Job(JobFailed, 0, None, None, None, Some(0)))))
  }

  lemma DeferredRow()
    ensures Payable(Deferred().rows) && !Deferred().rows.refunded && Deferred().rows.retryCount == 0
  {
  }

  lemma CapDefers(m: Mode) returns (w: World)
    ensures w == World([], 0, 0) && w.Valid() && Reached(m, Deferred(), w)
  {
    var released, v := WorkerReleases(m, CapReached);
    w := v;
    hide Reached;
    DoEnd(m, released, w, 0, EndPayout);
    assert EndEffect(released, w, 0, EndPayout).payers == map[];
    assert EndEffect(released, w, 0, EndPayout) == Deferred();
  }

  // ----- two payments -----

  /** A payer that was told its envelope 2 was accepted, and another that claimed while 2 is still open. */
  predicate Crossing(s: Sub, w: World) {
    && Payable(s.rows) && !s.rows.refunded && s.rows.lastRetriedAt.Some?
    && 1 in s.payers && s.payers[1].role == RETRY && s.payers[1].phase == Accepted(2, false)
    && 2 in s.payers && s.payers[2].role == RETRY && s.payers[2].phase == Claimed
    && 3 !in s.payers
    && 2 in s.envs && s.envs[2] == Envelope(1000, InFlight, true) && OpenIn(s.rows.attempts, 2)
    && s.rows.attempts[2].createdAt <= w.now
    && 3 !in s.envs && 4 !in s.envs && 3 !in s.rows.attempts && 4 !in s.rows.attempts
    && (w.chain != [] ==> w.chain[|w.chain| - 1].closeTime < 100)
    && Lookup(w.chain, 2) == NotFound && Lookup(w.chain, 3) == NotFound && Lookup(w.chain, 4) == NotFound
  }

  ghost predicate OnlyOpen(attempts: map<Hash, Attempt>, h: Hash) {
    forall g :: OpenIn(attempts, g) ==> g == h
  }

  /** Envelope 2 fails, the second payer proves it, and is about to build. */
  lemma ProvesFailed(m: Mode, s: Sub, w: World) returns (t: Sub, v: World)
    requires Reached(m, s, w) && w.Valid() && Crossing(s, w) && OnlyOpen(s.rows.attempts, 2)
    ensures Reached(m, t, v) && v.Valid() && v.View() == v.chain && v.now == w.now
    ensures t == Move(s.(rows := VoidAttempt(s.rows, 2)), 2, Clear)
    ensures v.chain != [] && v.chain[|v.chain| - 1].closeTime == 100
    ensures Lookup(v.chain, 2) == StellarChain.Failed && Lookup(v.chain, 3) == NotFound && Lookup(v.chain, 4) == NotFound
  {
    hide Reached, Lookup, Ordered;
    v := DoLand(m, s, w, 2, false, 100);
    var looking := Move(s, 2, Looking(2, s.rows.attempts[2].expiresAt));
    DoSettle(m, s, v, 2, FindOpen(Some(2)));
    assert SettleEffect(s, v, 2, FindOpen(Some(2))) == looking;
    DoSettle(m, looking, v, 2, FirstLook(true));
    t := Move(s.(rows := VoidAttempt(s.rows, 2)), 2, Clear);
    assert SettleEffect(looking, v, 2, FirstLook(true)) == t;
  }

  /** It builds envelope 3, which applies, and records it. */
  lemma PaysFirst(m: Mode, s: Sub, w: World) returns (t: Sub, v: World)
    requires Reached(m, s, w) && w.Valid() && w.chain != [] && w.chain[|w.chain| - 1].closeTime == 100
    requires 2 in s.payers && s.payers[2].role == RETRY && s.payers[2].phase == Clear
    requires Payable(s.rows) && !HasOpen(s.rows.attempts) && 3 !in s.rows.attempts && 3 !in s.envs
    requires Lookup(w.chain, 2) == StellarChain.Failed && Lookup(w.chain, 3) == NotFound && Lookup(w.chain, 4) == NotFound
    ensures Reached(m, t, v) && v.Valid() && v.View() == v.chain && v.now == w.now
    ensures v.chain != [] && v.chain[|v.chain| - 1].closeTime == 200
    ensures Lookup(v.chain, 2) == StellarChain.Failed && Applied(3, v.chain) && Lookup(v.chain, 4) == NotFound
    ensures t.rows.attempts == s.rows.attempts[3 := Attempt(Landed, 1000, w.now)] && t.rows.refunded == s.rows.refunded
    ensures t.envs == s.envs[3 := Envelope(1000, InFlight, true)] && t.payers == s.payers - {2}
  {
    hide Reached, HasOpen, Ordered;
    DoBuild(m, s, w, 2, 3, 1000);
    var built := Built(s, w, 2, 3, 1000);
    v := DoLand(m, built, w, 3, true, 200);
    hide Lookup, ClosedPast;
    DoPay(m, built, v, 2, Return);
    var accepted := PayEffect(built, v, 2, Return);
    assert accepted == Move(built, 2, Accepted(3, false));
    DoEnd(m, accepted, v, 2, Record(false, w.now));
    t := EndEffect(accepted, v, 2, Record(false, w.now));
  }

  /**
   The first payer's record is refused, so it quarantines under hash 2 and the row
   forgets hash 3; the reconciler sees 2 failed and hands the row back unpaid.
   */
  lemma ForgetsFirst(m: Mode, s: Sub, w: World) returns (t: Sub)
    requires Reached(m, s, w) && w.Valid() && w.View() == w.chain && !s.rows.refunded
    requires 1 in s.payers && s.payers[1].role == RETRY && s.payers[1].phase == Accepted(2, false)
    requires Lookup(w.chain, 2) == StellarChain.Failed && 2 in s.envs && 2 in s.rows.attempts && s.rows.attempts[2].status == Void
    ensures Reached(m, t, w) && Idle(t, w) && t.rows.attempts == s.rows.attempts && t.envs == s.envs
    ensures t.payers == s.payers - {1}
  {
    hide Reached, Lookup;
    DoEnd(m, s, w, 1, QuarantinePayment);
    var held := EndEffect(s, w, 1, QuarantinePayment);
    DoOutside(m, held, w, SettleFailed(2));
    t := OutsideEffect(held, w, SettleFailed(2));
  }

  ghost predicate PaysTwice(s: Sub, w: World) {
    exists g, h :: g in s.envs && h in s.envs && Applied(g, w.chain) && Applied(h, w.chain) && g != h
  }

  lemma VoidsTheOnlyOpen(r: Rows, h: Hash)
    requires OnlyOpen(r.attempts, h)
    ensures forall g: Hash :: !OpenIn(VoidAttempt(r, h).attempts, g)
  {
    assert forall g: Hash :: OpenIn(VoidAttempt(r, h).attempts, g) ==> OpenIn(r.attempts, g);
  }

  /** Envelope 3 has applied, and the row no longer knows of it: it is payable, with nothing open. */
  predicate Forgotten(s: Sub, w: World) {
    && Idle(s, w) && 3 in s.envs && Applied(3, w.chain)
    && 4 !in s.envs && 4 !in s.rows.attempts && Lookup(w.chain, 4) == NotFound && 3 !in s.payers
    && w.chain != [] && w.chain[|w.chain| - 1].closeTime == 200
  }

  lemma CrossingForgets(m: Mode, s: Sub, w: World) returns (t: Sub, v: World)
    requires !m.onePayer && Reached(m, s, w) && w.Valid() && Crossing(s, w) && OnlyOpen(s.rows.attempts, 2)
    ensures Reached(m, t, v) && v.Valid() && Forgotten(t, v) && forall g: Hash :: !OpenIn(t.rows.attempts, g)
  {
    var s1, w1 := ProvesFailed(m, s, w);
    VoidsTheOnlyOpen(s.rows, 2);
    hide Reached, Lookup;
    var s2, w2 := PaysFirst(m, s1, w1);
    v := w2;
    t := ForgetsFirst(m, s2, v);
    assert forall g: Hash :: OpenIn(t.rows.attempts, g) ==> OpenIn(s1.rows.attempts, g);
  }

  /** The next payer finds nothing open on such a row, and pays it again. */
  lemma CrossingPaysTwice(m: Mode, s: Sub, w: World) returns (t: Sub, v: World)
    requires !m.onePayer && Reached(m, s, w) && w.Valid() && Crossing(s, w) && OnlyOpen(s.rows.attempts, 2)
    ensures Reached(m, t, v) && PaysTwice(t, v)
  {
    var s1, w1 := CrossingForgets(m, s, w);
    hide Reached, Lookup;
    t := DoClaimAndBuild(m, s1, w1, 3, RETRY, 4, 1000);
    v := DoLand(m, t, w1, 4, true, 300);
    assert Applied(3, v.chain) && Applied(4, v.chain);
  }

  /** The row as a retry left it when it failed a minute ago: failed, one retry spent, its timestamp lapsed. */
  predicate FailedEarlier(s: Sub, w: World) {
    && s.rows == Deferred().rows.(status := PayoutFailed, retryCount := 1, lastRetriedAt := Some(0))
    && s.payers == map[] && s.envs == map[] && !s.refundOwed && s.funded && s.resets == multiset{}
    && w == World([], 0, RETRY_CLAIM_LEASE_MS)
  }

  /** A retry is refused before it builds, and its lease lapses. */
  lemma RetryFailsAndLapses(m: Mode) returns (s: Sub, w: World)
    ensures Reached(m, s, w) && FailedEarlier(s, w)
  {
    var failing, start := RetryRefused(m);
    hide Reached;
    DoEnd(m, failing, start, 0, EndPayout);
    s := EndEffect(failing, start, 0, EndPayout);
    assert s.payers == map[];
    w := DoTick(m, s, start, RETRY_CLAIM_LEASE_MS);
  }

  lemma DeferredIsIdle(w: World)
    ensures Idle(Deferred(), w)
  {
  }

  lemma RetryRefused(m: Mode) returns (s: Sub, w: World)
    ensures Reached(m, s, w) && w == World([], 0, 0)
    ensures s == Move(Claiming(Deferred(), w, 0, RETRY), 0, Failing(Retryable))
  {
    hide Reached;
    w := CapDefers(m);
    var claimed := Claiming(Deferred(), w, 0, RETRY);
    assert forall g: Hash :: !OpenIn(claimed.rows.attempts, g);
    hide RetryClaimIsLive;
    assert Idle(Deferred(), w) by { DeferredIsIdle(w); }
    DoClaim(m, Deferred(), w, 0, RETRY);
    DoFindNothing(m, claimed, w, 0);
    var clear := Move(claimed, 0, Clear);
    DoPay(m, clear, w, 0, Refuse(Retryable));
    s := Move(clear, 0, Failing(Retryable));
    assert PayEffect(clear, w, 0, Refuse(Retryable)) == s;
  }

  const ORIGINALS := Originals(false, 1, Some(0))

  /** An admin retry resets the row; before its own retry has claimed it, another payer does. */
  lemma ResetThenClaimed(m: Mode) returns (s: Sub, w: World)
    requires !m.onePayer
    ensures Reached(m, s, w) && w == World([], 0, RETRY_CLAIM_LEASE_MS) && s.envs == map[] && s.resets == multiset{ORIGINALS}
    ensures s.rows == Deferred().rows.(lastRetriedAt := Some(w.now))
    ensures s.payers == map[1 := Payer(RETRY, 0, Claimed, w.now)]
  {
    var failed, v := RetryFailsAndLapses(m);
    w := v;
    hide Reached;
    DoOutside(m, failed, w, ResetByAdmin);
    var reset := OutsideEffect(failed, w, ResetByAdmin);
    assert reset.resets == multiset{ORIGINALS};
    DoClaim(m, reset, w, 1, RETRY);
    s := Claiming(reset, w, 1, RETRY);
  }

  /** The admin's own retry throws, and its originals go back over the live claim: a second payer claims. */
  lemma DoRestoreAndClaim(m: Mode, s: Sub, w: World) returns (t: Sub)
    requires m.restores && !m.onePayer && Reached(m, s, w) && w.seen <= |w.chain|
    requires s.rows.hash == None && s.rows.status == Pending && s.rows.retryCount < SUBMISSION_RETRY_BUDGET && !s.rows.refunded
    requires ORIGINALS in s.resets && w.now == RETRY_CLAIM_LEASE_MS && 2 !in s.payers
    ensures Reached(m, t, w) && t.payers == s.payers[2 := Payer(RETRY, 1, Claimed, w.now)] && t.envs == s.envs
    ensures t.rows == s.rows.(status := PayoutFailed, retryCount := 1, lastRetriedAt := Some(w.now))
  {
    hide Reached;
    DoOutside(m, s, w, RestoreByAdmin(ORIGINALS));
    var restored := OutsideEffect(s, w, RestoreByAdmin(ORIGINALS));
    DoClaim(m, restored, w, 2, RETRY);
    t := Claiming(restored, w, 2, RETRY);
  }

  /** A restored lease lets a second payer in while the first still waits on its envelope. */
  lemma RestoredLeaseCrosses(m: Mode) returns (s: Sub, w: World)
    requires m.contract == ReturnedAccepted && !m.onePayer && m.restores
    ensures Reached(m, s, w) && w.Valid() && Crossing(s, w) && OnlyOpen(s.rows.attempts, 2)
    ensures Holds(s, 1) && Holds(s, 2)
  {
    NothingClosed(2);
    NothingClosed(3);
    NothingClosed(4);
    hide Reached, Lookup, Ordered, Deferred;
    var accepted, v := ResetThenAccepted(m);
    DeferredRow();
    w := v;
    s := DoRestoreAndClaim(m, accepted, w);
  }

  /** The payer that claimed after the reset builds envelope 2 and is told it was accepted. */
  lemma ResetThenAccepted(m: Mode) returns (s: Sub, w: World)
    requires m.contract == ReturnedAccepted && !m.onePayer
    ensures Reached(m, s, w) && w == World([], 0, RETRY_CLAIM_LEASE_MS) && s.resets == multiset{ORIGINALS}
    ensures s.rows == Deferred().rows.(lastRetriedAt := Some(w.now), attempts := map[2 := Attempt(Open, 1000, w.now)])
    ensures s.envs == map[2 := Envelope(1000, InFlight, true)]
    ensures s.payers == map[1 := Payer(RETRY, 0, Accepted(2, false), w.now)]
  {
    NothingClosed(2);
    hide Reached, Lookup;
    var first, v := ResetThenClaimed(m);
    w := v;
    assert forall g: Hash :: !OpenIn(first.rows.attempts, g);
    assert Payable(first.rows);
    hide Deferred, ClosedPast;
    DoFindNothing(m, first, w, 1);
    var clear := Move(first, 1, Clear);
    DoBuild(m, clear, w, 1, 2, 1000);
    var built := Built(clear, w, 1, 2, 1000);
    DoPay(m, built, w, 1, Return);
    s := Move(built, 1, Accepted(2, false));
    assert PayEffect(built, w, 1, Return) == s;
  }

  /** Without the lease: a stale payer outlives its claim, and a second one takes over. */
  lemma LapsedLeaseCrosses(m: Mode) returns (s: Sub, w: World)
    requires m.contract == ReturnedAccepted && !m.onePayer && !m.leaseHeld
    ensures Reached(m, s, w) && w.Valid() && Crossing(s, w) && OnlyOpen(s.rows.attempts, 2)
  {
    var start := CapDefers(m);
    hide Reached;
    var built := DoClaimAndBuild(m, Deferred(), start, 1, RETRY, 2, 1000);
    DoPay(m, built, start, 1, Return);
    var accepted := Move(built, 1, Accepted(2, false));
    assert PayEffect(built, start, 1, Return) == accepted;
    w := DoTick(m, accepted, start, RETRY_CLAIM_LEASE_MS);
    DoClaim(m, accepted, w, 2, RETRY);
    s := Claiming(accepted, w, 2, RETRY);
  }

  lemma DoTick(m: Mode, s: Sub, w: World, now: Time) returns (v: World)
    requires Reached(m, s, w) && w.Valid() && w.now <= now && (m.leaseHeld ==> RefreshedInTime(s, now))
    ensures v == w.(now := now) && v.Valid() && Reached(m, s, v)
  {
    v := w.(now := now);
    ReachNext(m, s, w, Tick(now), s, v);
  }

  /** The retry path's record commits and its reply is lost: the payer still holds the hash it recorded. */
  lemma DoLoseReply(m: Mode, s: Sub, w: World, p: PayerId, h: Hash) returns (t: Sub)
    requires Reached(m, s, w) && w.seen <= |w.chain| && m.lostReplies && s.rows.hash == None
    requires p in s.payers && s.payers[p].role == RETRY && s.payers[p].phase.Accepted? && s.payers[p].phase.h == h
    requires h in s.rows.attempts && s.rows.attempts[h].createdAt <= w.now
    ensures Reached(m, t, w) && t.rows.status == Sent && t.rows.hash == Some(h) && t.rows.refunded == s.rows.refunded
    ensures t.rows.attempts == ConfirmAttempt(s.rows, h).attempts && t.envs == s.envs
    ensures t.payers == Move(s, p, Accepted(h, true)).payers
  {
    hide Reached;
    DoEnd(m, s, w, p, Record(true, w.now));
    t := EndEffect(s, w, p, Record(true, w.now));
    RecordSettlesOnly(RetryPath, s.rows, h, w.now);
  }

  lemma DoHandBack(m: Mode, s: Sub, w: World, h: Hash) returns (t: Sub)
    requires Reached(m, s, w) && w.seen <= |w.chain| && s.rows.status == Sent && s.rows.hash == Some(h) && !s.rows.refunded
    requires h in s.envs && h in s.rows.attempts && Lookup(w.View(), h) == StellarChain.Failed
    ensures Reached(m, t, w) && Idle(t, w) && t.rows.lastRetriedAt == None && !t.rows.refunded
    ensures t.rows.attempts == SetAttempt(s.rows.attempts, h, Void) && t.envs == s.envs && t.payers == s.payers
  {
    hide Reached, Lookup;
    DoOutside(m, s, w, SettleFailed(h));
    t := OutsideEffect(s, w, SettleFailed(h));
    assert s.rows.attempts[h].status == Void ==> SetAttempt(s.rows.attempts, h, Void) == s.rows.attempts;
  }

  /** A record that committed but was told otherwise; the envelope it recorded failed and was handed back. */
  ghost predicate RecordLost(s: Sub, w: World) {
    && Idle(s, w) && s.envs == map[1 := Envelope(1000, InFlight, true)]
    && s.rows.attempts == map[1 := Attempt(Void, 1000, 0)]
    && s.payers.Keys == {0} && s.payers[0].role == RETRY && s.payers[0].phase == Accepted(1, true)
    && OnlyFirstFailed(w)
  }

  /** The first payer's envelope 1 was accepted; nothing has closed yet. */
  lemma FirstAccepted(m: Mode) returns (s: Sub, w: World)
    requires m.contract == ReturnedAccepted
    ensures Reached(m, s, w) && w == World([], 0, 0) && s == Move(Built(Claiming(Deferred(), w, 0, RETRY), w, 0, 1, 1000), 0, Accepted(1, false))
  {
    w := CapDefers(m);
    hide Reached;
    var built := DoClaimAndBuild(m, Deferred(), w, 0, RETRY, 1, 1000);
    DoPay(m, built, w, 0, Return);
    s := PayEffect(built, w, 0, Return);
  }

  /** Its record commits and the reply is lost. */
  lemma FirstRecordLost(m: Mode) returns (s: Sub, w: World)
    requires m.contract == ReturnedAccepted && m.lostReplies
    ensures Reached(m, s, w) && w == World([], 0, 0)
    ensures s.rows.status == Sent && s.rows.hash == Some(1) && !s.rows.refunded
    ensures s.rows.attempts == map[1 := Attempt(Landed, 1000, 0)] && s.envs == map[1 := Envelope(1000, InFlight, true)]
    ensures s.payers.Keys == {0} && s.payers[0].role == RETRY && s.payers[0].phase == Accepted(1, true)
  {
    var accepted, start := FirstAccepted(m);
    hide Reached, Lookup;
    w := start;
    s := DoLoseReply(m, accepted, w, 0, 1);
  }

  /** Envelope 1 is included and fails; the chain says nothing of any other. */
  ghost predicate OnlyFirstFailed(w: World) {
    && w.Valid() && w.now == 0 && w.chain != [] && w.chain[|w.chain| - 1].closeTime == 50 && w.View() == w.chain
    && Lookup(w.chain, 1) == StellarChain.Failed && forall g :: g != 1 ==> Lookup(w.chain, g) == NotFound
  }

  lemma FirstFails(m: Mode, s: Sub, start: World) returns (w: World)
    requires Reached(m, s, start) && start == World([], 0, 0) && s.envs == map[1 := Envelope(1000, InFlight, true)]
    ensures Reached(m, s, w) && OnlyFirstFailed(w)
  {
    assert forall g :: Lookup([], g) == NotFound;
    assert start.Valid();
    hide Reached, Lookup, Ordered;
    w := DoLand(m, s, start, 1, false, 50);
  }

  lemma LosesReply(m: Mode) returns (s: Sub, w: World)
    requires m.contract == ReturnedAccepted && m.lostReplies
    ensures Reached(m, s, w) && RecordLost(s, w)
  {
    var sent, start := FirstRecordLost(m);
    hide Reached, Lookup, Ordered;
    w := FirstFails(m, sent, start);
    s := DoHandBack(m, sent, w, 1);
    assert s.rows.attempts == map[1 := Attempt(Void, 1000, 0)];
  }

  /** A second payer claims the row, and broadcasts again. */
  predicate SecondAtWork(s: Sub, w: World, phase: Phase) {
    && Payable(s.rows) && !s.rows.refunded && s.rows.lastRetriedAt == Some(0)
    && s.envs == map[1 := Envelope(1000, InFlight, true), 2 := Envelope(1000, InFlight, true)]
    && s.rows.attempts == map[1 := Attempt(Void, 1000, 0), 2 := Attempt(Open, 1000, 0)]
    && s.payers.Keys == {0, 1} && s.payers[0].role == RETRY && s.payers[0].phase == Accepted(1, true)
    && s.payers[1].role == RETRY && s.payers[1].phase == phase
  }

  lemma SecondClaims(m: Mode, s: Sub, w: World) returns (t: Sub)
    requires m.contract == ReturnedAccepted && !m.onePayer && Reached(m, s, w) && RecordLost(s, w)
    ensures Reached(m, t, w) && SecondAtWork(t, w, Accepted(2, false))
  {
    hide Reached, Lookup;
    assert forall g: Hash :: !OpenIn(s.rows.attempts, g);
    var built := DoClaimAndBuild(m, s, w, 1, RETRY, 2, 1000);
    DoPay(m, built, w, 1, Return);
    t := PayEffect(built, w, 1, Return);
  }

  /** The first payer records again over the hand-back, is handed back again, and the lease is gone under a live holder. */
  lemma FirstRecordsAgain(m: Mode, s: Sub, w: World) returns (t: Sub)
    requires m.lostReplies && !m.onePayer && Reached(m, s, w) && SecondAtWork(s, w, Accepted(2, false))
    requires w.Valid() && w.now == 0 && Lookup(w.View(), 1) == StellarChain.Failed
    ensures Reached(m, t, w) && t == Claiming(t, w, 2, RETRY)
    ensures Payable(t.rows) && !t.rows.refunded && t.envs == s.envs && t.rows.attempts == s.rows.attempts
    ensures t.payers.Keys == {0, 1, 2} && t.payers[0] == s.payers[0] && t.payers[1] == s.payers[1]
  {
    hide Reached, Lookup;
    var again := DoLoseReply(m, s, w, 0, 1);
    var back := DoHandBack(m, again, w, 1);
    assert back.rows.attempts == s.rows.attempts;
    DoClaim(m, back, w, 2, RETRY);
    t := Claiming(back, w, 2, RETRY);
  }

  /** With the lease kept but replies lost: the same crossing. */
  lemma LostReplyCrosses(m: Mode) returns (s: Sub, w: World)
    requires m.contract == ReturnedAccepted && !m.onePayer && m.lostReplies
    ensures Reached(m, s, w) && w.Valid() && Crossing(s, w) && OnlyOpen(s.rows.attempts, 2)
    ensures Holds(s, 1) && Holds(s, 2)
  {
    var lost, v := LosesReply(m);
    w := v;
    hide Reached, Lookup;
    var second := SecondClaims(m, lost, w);
    s := FirstRecordsAgain(m, second, w);
    assert s.payers[2].phase == Claimed;
  }

  /** No submission is ever paid twice in any run of this mode. */
  ghost predicate PaidAtMostOnce(m: Mode) {
    forall s, w :: Reachable(m, s, w) ==> !PaysTwice(s, w)
  }

  /**
   Exactly when at-most-once payment holds: a returned hash has applied, or one payer
   is at work at a time, or every lease is kept, none is restored and every record is
   acknowledged.
   */
  lemma PaidAtMostOnceExactly(m: Mode)
    ensures PaidAtMostOnce(m) <==> Sound(m)
  {
    if Sound(m) {
      forall s, w | Reachable(m, s, w) ensures !PaysTwice(s, w) {
        var states, labels, i := SomeRun(m, s, w);
        if PaysTwice(s, w) {
          var g, h :| g in s.envs && h in s.envs && Applied(g, w.chain) && Applied(h, w.chain) && g != h;
          AtMostOnePayment(m, states, labels, |states| - 1, i, g, h);
        }
      }
    } else {
      var s, w := UnsoundCrosses(m);
      var t, v := CrossingPaysTwice(m, s, w);
      ReachedIsReachable(m, t, v);
    }
  }

  /** Each way of being unsound lets a second payer in while the first still waits on envelope 2. */
  lemma UnsoundCrosses(m: Mode) returns (s: Sub, w: World)
    requires !Sound(m)
    ensures !m.onePayer && Reached(m, s, w) && w.Valid() && Crossing(s, w) && OnlyOpen(s.rows.attempts, 2)
  {
    if !m.leaseHeld {
      s, w := LapsedLeaseCrosses(m);
    } else if m.restores {
      s, w := RestoredLeaseCrosses(m);
    } else {
      s, w := LostReplyCrosses(m);
    }
  }

  /** An envelope has applied that is neither the recorded hash nor open for the next payer. */
  ghost predicate LosesPayment(s: Sub, w: World) {
    exists h :: h in s.envs && Applied(h, w.chain) && s.rows.hash != Some(h) && !OpenIn(s.rows.attempts, h)
  }

  /** No applied envelope is ever forgotten in any run of this mode. */
  ghost predicate LosesNothing(m: Mode) {
    forall s, w :: Reachable(m, s, w) ==> !LosesPayment(s, w)
  }

  /** Exactly when no payment is lost: under the very condition that no submission is paid twice. */
  lemma NoPaymentLostExactly(m: Mode)
    ensures LosesNothing(m) <==> Sound(m)
  {
    if Sound(m) {
      forall s, w | Reachable(m, s, w) ensures !LosesPayment(s, w) {
        var states, labels, i := SomeRun(m, s, w);
        if LosesPayment(s, w) {
          var h :| h in s.envs && Applied(h, w.chain) && s.rows.hash != Some(h) && !OpenIn(s.rows.attempts, h);
          NoPaymentLost(m, states, labels, |states| - 1, i, h);
        }
      }
    } else {
      var s, w := UnsoundCrosses(m);
      var t, v := CrossingForgets(m, s, w);
      assert !OpenIn(t.rows.attempts, 3);
      ReachedIsReachable(m, t, v);
    }
  }

  // ----- two holders -----

  /** No two payers ever hold the same submission in any run of this mode. */
  ghost predicate Excludes(m: Mode) {
    forall s, w :: Reachable(m, s, w) ==> !HeldTwice(s)
  }

  ghost predicate HeldTwice(s: Sub) {
    exists p, q :: Holds(s, p) && Holds(s, q) && p != q
  }

  /** A claim outlives its lease, and a second payer claims. */
  lemma LapsedLeaseHoldsTwice(m: Mode) returns (s: Sub, w: World)
    requires !m.onePayer && !m.leaseHeld
    ensures Reached(m, s, w) && Holds(s, 1) && Holds(s, 2)
  {
    var start := CapDefers(m);
    hide Reached;
    var first := Claiming(Deferred(), start, 1, RETRY);
    DoClaim(m, Deferred(), start, 1, RETRY);
    w := DoTick(m, first, start, RETRY_CLAIM_LEASE_MS);
    DoClaim(m, first, w, 2, RETRY);
    s := Claiming(first, w, 2, RETRY);
  }

  lemma RestoredLeaseHoldsTwice(m: Mode) returns (s: Sub, w: World)
    requires !m.onePayer && m.restores
    ensures Reached(m, s, w) && Holds(s, 1) && Holds(s, 2)
  {
    var first, v := ResetThenClaimed(m);
    w := v;
    hide Reached;
    s := DoRestoreAndClaim(m, first, w);
  }

  /** Exactly when the lease excludes, whatever the payers do. */
  lemma LeaseExcludesExactly(m: Mode)
    ensures Excludes(m) <==> LeaseMode(m) || m.onePayer
  {
    if LeaseMode(m) || m.onePayer {
      forall s, w | Reachable(m, s, w) ensures !HeldTwice(s) {
        var states, labels, i := SomeRun(m, s, w);
        RunKeeps(m, states, labels, |states| - 1);
        assert m.onePayer ==> Single(states[|states| - 1].subs[i]);
        assert LeaseMode(m) ==> LeaseInv(m, states[|states| - 1].subs[i], w.now);
      }
    } else {
      var s, w;
      if !m.leaseHeld {
        s, w := LapsedLeaseHoldsTwice(m);
      } else if m.restores {
        s, w := RestoredLeaseHoldsTwice(m);
      } else {
        s, w := LostReplyCrosses(m);
      }
      ReachedIsReachable(m, s, w);
    }
  }

  // ----- refunded and paid -----

  ghost predicate RefundedAndPaid(s: Sub, w: World) {
    s.rows.refunded && exists h :: h in s.envs && Applied(h, w.chain)
  }

  /** No submission is ever both refunded and paid in any run of this mode. */
  ghost predicate RefundExcludesPayment(m: Mode) {
    forall s, w :: Reachable(m, s, w) ==> !RefundedAndPaid(s, w)
  }

  /** A worker marks the payout failed for good and releases its claim; its refund is still to come. */
  lemma WorkerGivesUp(m: Mode) returns (s: Sub, w: World)
    ensures Reached(m, s, w) && w == World([], 0, 0)
    ensures s.rows == Fresh().rows.(status := PayoutFailed, retryCount := 5, error := OtherError, job := s.rows.job)
    ensures s.envs == map[] && s.payers.Keys == {0} && s.funded && !s.refundOwed
    ensures s.payers[0].role == Pays(Worker) && s.payers[0].phase == Refunding(NonRetryable)
  {
    var released, v := WorkerReleases(m, NonRetryable);
    w := v;
    hide Reached;
    DoEnd(m, released, w, 0, EndPayout);
    s := EndEffect(released, w, 0, EndPayout);
  }

  /** Before it does, an operator resets the row and the retry path pays it. */
  lemma ResetBeforeRefund(m: Mode) returns (t: Sub, v: World)
    requires !m.onePayer
    ensures Reached(m, t, v) && RefundedAndPaid(t, v)
  {
    var s, w := WorkerGivesUp(m);
    assert w.Valid();
    hide Reached, Ordered;
    DoOutside(m, s, w, ResetByAdmin);
    var again := OutsideEffect(s, w, ResetByAdmin);
    assert forall g: Hash :: !OpenIn(again.rows.attempts, g);
    assert Lookup([], 1) == NotFound;
    var built := DoClaimAndBuild(m, again, w, 1, RETRY, 1, 1000);
    hide Lookup, HasOpen;
    v := DoLand(m, built, w, 1, true, 50);
    t := RefundsLate(m, built, v, 0);
    assert 1 in t.envs && Applied(1, v.chain);
  }

  lemma RefundsLate(m: Mode, s: Sub, w: World, p: PayerId) returns (t: Sub)
    requires Reached(m, s, w) && w.seen <= |w.chain| && s.funded
    requires p in s.payers && s.payers[p].role == Pays(Worker) && s.payers[p].phase.Refunding?
    ensures Reached(m, t, w) && t.rows.refunded && t.envs == s.envs
  {
    hide Reached;
    DoEnd(m, s, w, p, RefundDebit);
    t := EndEffect(s, w, p, RefundDebit);
  }

  /** Envelope 1 is in flight, and the worker that submitted it is dead. */
  predicate Orphaned(s: Sub, w: World, strikes: nat) {
    && Idle(s, w) && s.payers == map[] && s.funded && !s.refundOwed
    && s.rows.job.Some? && s.rows.job.value.retryCount == strikes
    && s.envs == map[1 := Envelope(1000, InFlight, true)]
    && w.chain == [] && w.seen == 0
  }

  lemma WorkerDies(m: Mode) returns (s: Sub, w: World)
    ensures Reached(m, s, w) && Orphaned(s, w, 0)
  {
    var start := Begin(m);
    hide Reached;
    var built := DoClaimAndBuild(m, Fresh(), start, 0, Pays(Worker), 1, 1000);
    DoAct(m, built, start, Die(0));
    s := Effect(m, built, start, Die(0));
    assert s.payers == map[];
    w := DoTick(m, s, start, RETRY_CLAIM_LEASE_MS);
  }

  /** The next worker cannot read the journal, which ends its attempt as an ordinary retryable failure. */
  lemma JournalUnreadable(m: Mode, s: Sub, w: World, strikes: nat) returns (t: Sub)
    requires m.journalThrows && Reached(m, s, w) && Orphaned(s, w, strikes)
    ensures Reached(m, t, w) && t.payers.Keys == {0} && t.payers[0].role == Pays(Worker) && t.payers[0].phase == Released(Retryable)
    ensures t == s.(rows := s.rows.(lastRetriedAt := None), payers := t.payers)
  {
    hide Reached;
    var claimed := Claiming(s, w, 0, Pays(Worker));
    DoClaim(m, s, w, 0, Pays(Worker));
    DoSettle(m, claimed, w, 0, Throws);
    var failing := SettleEffect(claimed, w, 0, Throws);
    DoEnd(m, failing, w, 0, Release);
    t := EndEffect(failing, w, 0, Release);
  }

  lemma Strikes(m: Mode, s: Sub, w: World, strikes: nat) returns (t: Sub)
    requires m.journalThrows && Reached(m, s, w) && Orphaned(s, w, strikes) && strikes + 1 < WORKER_MAX_RETRIES
    ensures Reached(m, t, w) && Orphaned(t, w, strikes + 1)
  {
    var released := JournalUnreadable(m, s, w, strikes);
    hide Reached;
    DoEnd(m, released, w, 0, EndPayout);
    t := EndEffect(released, w, 0, EndPayout);
    assert t.payers == map[];
  }

  lemma StrikesOut(m: Mode, s: Sub, w: World) returns (t: Sub)
    requires m.journalThrows && Reached(m, s, w) && Orphaned(s, w, 2)
    ensures Reached(m, t, w) && t.rows.refunded && t.envs == s.envs
  {
    var released := JournalUnreadable(m, s, w, 2);
    hide Reached;
    DoEnd(m, released, w, 0, EndPayout);
    var refunding := EndEffect(released, w, 0, EndPayout);
    DoEnd(m, refunding, w, 0, RefundDebit);
    t := EndEffect(refunding, w, 0, RefundDebit);
  }

  /** Three unreadable journals end the payout and refund it, while its envelope can still land. */
  lemma UnreadableJournalRefunds(m: Mode) returns (t: Sub, v: World)
    requires m.journalThrows
    ensures Reached(m, t, v) && RefundedAndPaid(t, v)
  {
    var s, w := WorkerDies(m);
    hide Reached;
    var s1 := Strikes(m, s, w, 0);
    var s2 := Strikes(m, s1, w, 1);
    t := StrikesOut(m, s2, w);
    v := DoLand(m, t, w, 1, true, 50);
    assert 1 in t.envs && Applied(1, v.chain);
  }

  /** Exactly when refunds exclude payments. */
  lemma RefundExclusionExactly(m: Mode)
    ensures RefundExcludesPayment(m) <==> m.onePayer && !m.journalThrows
  {
    if m.onePayer && !m.journalThrows {
      forall s, w | Reachable(m, s, w) ensures !RefundedAndPaid(s, w) {
        var states, labels, i := SomeRun(m, s, w);
        if RefundedAndPaid(s, w) {
          var h :| h in s.envs && Applied(h, w.chain);
          NeverRefundedAndPaid(m, states, labels, |states| - 1, i, h);
        }
      }
    } else {
      var s, w;
      if m.onePayer {
        s, w := UnreadableJournalRefunds(m);
      } else {
        s, w := ResetBeforeRefund(m);
      }
      ReachedIsReachable(m, s, w);
    }
  }

  // ----- earnings -----

  /** Users' totals are exact at the end of every run of this mode. */
  ghost predicate EarnsExactly(m: Mode) {
    forall states: seq<System>, labels: seq<Label> :: Run(m, states, labels) ==> Exact(states[0].users, states[|states| - 1])
  }

  /** A worker stalls between handing its claim back and writing its failure; the next one takes over its stale job, and builds. */
  lemma NextWorkerBuilds(m: Mode) returns (s: Sub, w: World)
    requires !m.onePayer
    ensures Reached(m, s, w) && w == World([], 0, 0)
    ensures s.rows.hash == None && s.rows.job.Some? && 1 in s.rows.attempts && s.rows.attempts[1].createdAt == 0
    ensures 1 in s.envs && s.envs[1] == Envelope(1000, InFlight, true)
    ensures 0 in s.payers && s.payers[0].role == Pays(Worker) && s.payers[0].phase == Released(NonRetryable)
    ensures 1 in s.payers && s.payers[1].role == Pays(Worker) && s.payers[1].phase == Submitted(1)
  {
    var released, start := WorkerReleases(m, NonRetryable);
    assert forall g: Hash :: !OpenIn(released.rows.attempts, g);
    assert Lookup([], 1) == NotFound;
    w := start;
    hide Reached, Lookup;
    s := DoClaimAndBuild(m, released, w, 1, Pays(Worker), 1, 1000);
  }

  /** Its envelope applies, and it records it. */
  lemma PaidBeforeFailed(m: Mode) returns (s: Sub, w: World)
    requires !m.onePayer
    ensures Reached(m, s, w) && w.seen <= |w.chain| && Counted(s)
    ensures 0 in s.payers && s.payers[0].role == Pays(Worker) && s.payers[0].phase == Released(NonRetryable)
  {
    NothingClosed(1);
    hide Reached, Ordered, Lookup, Counted, RecordPayment, Claiming, Built, Fresh;
    var built, start := NextWorkerBuilds(m);
    w := DoLand(m, built, start, 1, true, 50);
    s := ReturnsAndRecords(m, built, w);
  }

  /** The submitter returns envelope 1, which has applied, and the worker records it. */
  lemma ReturnsAndRecords(m: Mode, s: Sub, w: World) returns (t: Sub)
    requires Reached(m, s, w) && w.seen <= |w.chain| && Applied(1, w.chain)
    requires 1 in s.payers && s.payers[1].role == Pays(Worker) && s.rows.job.Some? && s.payers[1].phase == Submitted(1) && 1 in s.envs
    requires s.rows.hash == None && 1 in s.rows.attempts && s.rows.attempts[1].createdAt <= w.now
    ensures Reached(m, t, w) && Counted(t) && t.payers == s.payers - {1}
  {
    hide Reached, Lookup;
    DoPay(m, s, w, 1, Return);
    var accepted := Move(s, 1, Accepted(1, false));
    assert PayEffect(s, w, 1, Return) == accepted;
    DoEnd(m, accepted, w, 1, Record(false, w.now));
    t := EndEffect(accepted, w, 1, Record(false, w.now));
  }

  /** The worker's late write marks the paid row failed and takes no credit back. */
  lemma LateFailureUncounts(m: Mode, start: map<UserId, Totals>, from: System)
    requires from.world.seen <= |from.world.chain| && |from.subs| == 1 && from.owners == [0] && 0 in from.users
    requires Counted(from.subs[0]) && 0 in from.subs[0].payers && from.subs[0].payers[0].role == Pays(Worker)
    requires from.subs[0].payers[0].phase == Released(NonRetryable)
    ensures Allowed(m, from, Act(0, Ending(0, EndPayout)))
    ensures Exact(start, from) ==> !Exact(start, Successor(m, from, Act(0, Ending(0, EndPayout))))
  {
    var to := Successor(m, from, Act(0, Ending(0, EndPayout)));
    assert from.subs[..0] == to.subs[..0] && !Counted(to.subs[0]);
    hide Effect, Credit, Successor, Counted;
    assert EarnedBy(from.subs, from.owners, 0).submissionCount == 1 + EarnedBy(to.subs, to.owners, 0).submissionCount;
    assert to.users[0] == from.users[0];
  }

  /** So the totals do not match the rows after it, if they did before. */
  lemma LateFailureMiscounts(m: Mode, s: Sub, w: World)
    requires Reached(m, s, w) && w.seen <= |w.chain| && Counted(s)
    requires 0 in s.payers && s.payers[0].role == Pays(Worker) && s.payers[0].phase == Released(NonRetryable)
    ensures !EarnsExactly(m)
  {
    var states: seq<System>, labels: seq<Label> :| ReachedBy(m, states, labels, s, w);
    var start, from, l := states[0].users, states[|states| - 1], Act(0, Ending(0, EndPayout));
    LateFailureUncounts(m, start, from);
    hide Allowed, Successor, Exact, Counted;
    var to := Successor(m, from, l);
    Extend(m, states, labels, l, to);
    assert Run(m, states, labels) && Run(m, states + [to], labels + [l]);
    hide Run;
    assert (states + [to])[0].users == start && (states + [to])[|states|] == to;
  }

  /** Exactly when lifetime earnings are exact over every run: with one payer at a time, whatever the lease does. */
  lemma EarningsExactExactly(m: Mode)
    ensures EarnsExactly(m) <==> m.onePayer
  {
    if m.onePayer {
      forall states: seq<System>, labels: seq<Label> | Run(m, states, labels)
        ensures Exact(states[0].users, states[|states| - 1])
      {
        RunExact(m, states, labels, |states| - 1);
      }
    } else {
      var s, w := PaidBeforeFailed(m);
      LateFailureMiscounts(m, s, w);
    }
  }
}
