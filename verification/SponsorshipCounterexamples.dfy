/**
 When a refused broadcast may speak for its envelope: exactly, for one request and over
 whole runs, with a concrete run for every evidence that is not enough.
 */
module SponsorshipCounterexamples {
  import opened Wrappers
  import opened StellarChain
  import opened SponsorshipRows
  import opened SponsorshipReclaim
  import opened SponsorshipProtocol
  import opened SponsorshipSafety

  // ----- one request -----

  function Outcome(badSequence: bool): Broadcast {
    if badSequence then BadSequence(true) else Refused(true)
  }

  /** Whatever became of the envelopes of an address with these rows, this release keeps everything live recorded. */
  ghost predicate ReleaseKeeps(m: Mode, rows: seq<Row>, c: Clock, o: Opened, badSequence: bool) {
    forall p: Place :: p.rows == rows && o in p.requests && PlaceInv(m, p, c) ==>
      o.hash in p.envs && PlaceInv(m, AfterAnswer(p, o, Outcome(badSequence)), c)
  }

  /** The same rows and the request alone, its envelope where nobody has looked: landed, or on its way. */
  function Unseen(p: Place, o: Opened): Place
    requires o.hash in p.envs
  {
    var env := p.envs[o.hash];
    if o.reopened then p.(envs := p.envs[o.hash := env.(fate := InFlight)], requests := multiset{o})
    else p.(account := Account(true, true, Entries(true, env.kind == AccountAndTrustline)),
            envs := p.envs[o.hash := env.(fate := Landed)], requests := multiset{o})
  }

  /** The row still waits for the request's envelope, as the request saw it. */
  predicate AsSeen(rows: seq<Row>, o: Opened) {
    OnRow(rows, o) && rows[o.id].confirmedBefore == o.reopened
  }

  lemma UnseenInv(m: Mode, p: Place, c: Clock, o: Opened)
    requires PlaceInv(m, p, c) && o in p.requests && AsSeen(p.rows, o) && (m.overlaps || o.resubmits || !o.offered)
    requires o.hash in p.envs && (o.reopened ==> c.ledger <= p.envs[o.hash].maxTime)
    ensures PlaceInv(m, Unseen(p, o), c)
  {
    OnRowIsCur(m, p, c, o);
    assert OpenAgrees(m, p.rows, p, c, o);
    var q := Unseen(p, o);
    assert q.requests == multiset{o};
    hide Cur, OneOutstanding;
    assert Good(Cur(q.rows), q, c);
    assert OpenAgrees(m, q.rows, q, c, o);
    hide Good, OpenAgrees;
    assert forall r :: r in q.requests ==> r == o;
  }

  lemma UnsafeRelease(m: Mode, p: Place, c: Clock, o: Opened, badSequence: bool)
    requires PlaceInv(m, p, c) && o in p.requests && AsSeen(p.rows, o)
    requires !SafeToRelease(m.overlaps, EvidenceOf(p, c, o, badSequence))
    ensures !ReleaseKeeps(m, p.rows, c, o, badSequence)
  {
    assert OpenAgrees(m, p.rows, p, c, o);
    UnseenInv(m, p, c, o);
    var q, b := Unseen(p, o), Outcome(badSequence);
    OnRowIsCur(m, q, c, o);
    assert OpenAgrees(m, q.rows, q, c, o);
    AnswerShape(m, q, c, o, b);
    ConfirmedCur(q.rows, o.id, o.hash);
    var t := AfterAnswer(q, o, b);
    assert t.account == q.account && t.rows == FailRow(q.rows, o.id, o.hash);
    hide AfterAnswer, Cur, OneOutstanding, FailRow, Openings, OpenAgrees;
    if o.reopened {
      assert CouldLand(t.envs[o.hash].fate, t.envs[o.hash].maxTime, c) && !Carries(Cur(t.rows), o.hash);
    } else {
      assert UnitsOf(t.account.sponsored) > 0 && Cur(t.rows) == None;
    }
    assert !Good(Cur(t.rows), t, c);
  }

  /** Rows carry the bounds of their envelopes, so places with the same rows agree on the evidence. */
  lemma SameEvidence(m: Mode, p: Place, q: Place, c: Clock, o: Opened, badSequence: bool)
    requires PlaceInv(m, p, c) && PlaceInv(m, q, c) && p.rows == q.rows && OnRow(p.rows, o)
    ensures EvidenceOf(p, c, o, badSequence) == EvidenceOf(q, c, o, badSequence) && o.hash in q.envs
  {
    OnRowIsCur(m, p, c, o);
    OnRowIsCur(m, q, c, o);
    hide Cur, OneOutstanding, Openings;
  }

  /**
   Exactly when a request may release its row: on evidence a caller holds before it writes,
   and whatever the envelope's fate turns out to be, for offers and for envelopes handed
   out signed alike.
   */
  lemma ReleaseKeepsExactly(m: Mode, p: Place, c: Clock, o: Opened, badSequence: bool)
    requires PlaceInv(m, p, c) && o in p.requests && AsSeen(p.rows, o)
    ensures ReleaseKeeps(m, p.rows, c, o, badSequence) <==> SafeToRelease(m.overlaps, EvidenceOf(p, c, o, badSequence))
  {
    if SafeToRelease(m.overlaps, EvidenceOf(p, c, o, badSequence)) {
      var only := Mode({EvidenceOf(p, c, o, badSequence)}, m.handsOut, m.overlaps, m.loose);
      forall q: Place | q.rows == p.rows && o in q.requests && PlaceInv(m, q, c)
        ensures o.hash in q.envs && PlaceInv(m, AfterAnswer(q, o, Outcome(badSequence)), c)
      {
        SameEvidence(m, p, q, c, o, badSequence);
        hide PlaceInv, AfterAnswer;
        ModeApart(m, only, q, c);
        AnswerKeeps(only, q, c, o, Outcome(badSequence));
        ModeApart(only, m, AfterAnswer(q, o, Outcome(badSequence)), c);
      }
    } else {
      UnsafeRelease(m, p, c, o, badSequence);
    }
  }

  /** The invariant does not depend on what the code releases on. */
  lemma ModeApart(m: Mode, n: Mode, p: Place, c: Clock)
    requires m.overlaps == n.overlaps && m.handsOut == n.handsOut && PlaceInv(m, p, c)
    ensures PlaceInv(n, p, c)
  {
    hide Cur, OneOutstanding, Good;
    forall o | o in p.requests ensures OpenAgrees(n, p.rows, p, c, o) {
      assert OpenAgrees(m, p.rows, p, c, o);
    }
  }

  // ----- building a run of one address -----

  /** Does this run end with an address whose row stands for less than the chain shows? */
  ghost predicate CanUnderstate(m: Mode, states: seq<System>, labels: seq<Label>) {
    Run(m, states, labels) && exists p :: p in states[|states| - 1].places && Understated(p)
  }

  /** No run of this mode ever understates. */
  ghost predicate NeverUnderstates(m: Mode) {
    forall states: seq<System>, labels: seq<Label> :: !CanUnderstate(m, states, labels)
  }

  ghost predicate EndsAt(m: Mode, states: seq<System>, labels: seq<Label>, c: Clock, p: Place) {
    Run(m, states, labels) && states[|states| - 1] == System(c, [p])
  }

  /** Some run of one address ends here. */
  ghost predicate Reached(m: Mode, c: Clock, p: Place) {
    exists states: seq<System>, labels: seq<Label> :: EndsAt(m, states, labels, c, p)
  }

  lemma Begin(m: Mode, c: Clock, a: Account)
    requires Coherent(a) && UnitsOf(a.sponsored) == 0
    ensures Reached(m, c, Empty(a))
  {
    assert EndsAt(m, [System(c, [Empty(a)])], [], c, Empty(a));
  }

  function Empty(a: Account): Place { Place([], a, map[], map[], multiset{}) }

  lemma Take(m: Mode, c: Clock, p: Place, step: Step)
    requires Reached(m, c, p) && Enabled(m, p, c, step)
    ensures Reached(m, c, Effect(m, p, c, step))
  {
    var states: seq<System>, labels: seq<Label> :| EndsAt(m, states, labels, c, p);
    var t := Effect(m, p, c, step);
    hide Enabled, Effect;
    assert Next(m, System(c, [p]), At(0, step), System(c, [t]));
    Append(m, states, labels, At(0, step), System(c, [t]));
    assert EndsAt(m, states + [System(c, [t])], labels + [At(0, step)], c, t);
  }

  lemma Pass(m: Mode, c: Clock, d: Clock, p: Place)
    requires Reached(m, c, p) && c.now <= d.now && c.ledger <= d.ledger
    ensures Reached(m, d, p)
  {
    var states: seq<System>, labels: seq<Label> :| EndsAt(m, states, labels, c, p);
    Append(m, states, labels, Tick(d), System(d, [p]));
    assert EndsAt(m, states + [System(d, [p])], labels + [Tick(d)], d, p);
  }

  lemma Append(m: Mode, states: seq<System>, labels: seq<Label>, l: Label, t: System)
    requires Run(m, states, labels) && Next(m, states[|states| - 1], l, t)
    ensures Run(m, states + [t], labels + [l])
  {
    var more, all := states + [t], labels + [l];
    hide Next;
    forall i | 0 <= i < |all| ensures Next(m, more[i], all[i], more[i + 1]) {
      if i < |labels| {
        assert Next(m, states[i], labels[i], states[i + 1]);
      }
    }
  }

  lemma ReachedUnderstates(m: Mode, c: Clock, p: Place)
    requires Reached(m, c, p) && Understated(p)
    ensures !NeverUnderstates(m)
  {
    var states: seq<System>, labels: seq<Label> :| EndsAt(m, states, labels, c, p);
    assert p in states[|states| - 1].places;
    assert CanUnderstate(m, states, labels);
  }

  // ----- a row never confirmed before -----

  const START := Clock(0, 0)
  const PLAIN := Intent(0, Trustline, 1, 100)
  const WAITING := PendingRow(PLAIN)
  const BARE := Account(true, false, Entries(false, false))
  const LINED := Account(true, true, Entries(true, false))

  function First(offered: bool): Opened { Opened(0, 1, offered, false, false) }

  function Again(offered: bool): Opened { Opened(0, 1, offered, true, false) }

  function Unread(): (net: seq<IntentReads>)
    ensures |net| == INTENT_ATTEMPTS && forall k :: 0 <= k < |net| ==> net[k] == IntentReads(None, None)
  {
    [IntentReads(None, None), IntentReads(None, None), IntentReads(None, None)]
  }

  /** The address with its one pending row, its envelope's fate, how that came about, and its open requests. */
  function Pending(fate: Fate, offered: bool, requests: multiset<Opened>): Place {
    Place([WAITING], if fate == Landed then LINED else BARE, map[1 := Envelope(Trustline, 100, fate, !offered, true)], map[], requests)
  }

  function Handed(fate: Fate): Place {
    Place([], if fate == Landed then LINED else BARE, map[1 := Envelope(Trustline, 100, fate, true, false)], map[], multiset{})
  }

  /** A first request and its retry both decide to submit the same row. */
  lemma SubmitsTwice()
    ensures OpenIntent([], PLAIN, Unread(), 0) == Decided([WAITING], Submit(0))
    ensures OpenIntent([WAITING], PLAIN, Unread(), 0) == Decided([WAITING], Submit(0))
    ensures Cur([]) == None && Cur([WAITING]) == Some(WAITING)
  {
    assert Current([]) == None && Current([WAITING]) == Some(0);
  }

  lemma HandsOut(m: Mode)
    requires m.handsOut
    ensures Reached(m, START, Handed(Idle))
  {
    Begin(m, START, BARE);
    assert Current([]) == None;
    hide Reached;
    Take(m, START, Empty(BARE), HandOut(PLAIN));
    assert AfterHandOut(Empty(BARE), PLAIN) == Handed(Idle);
  }

  /** A request decides to submit the envelope it offered, or the one it was handed. */
  lemma FirstDecides(m: Mode, offered: bool)
    requires offered || m.handsOut
    ensures Reached(m, START, Pending(Idle, offered, multiset{First(offered)}))
  {
    hide Pending, Handed, Reached;
    if offered {
      Begin(m, START, BARE);
      Decides(m, Empty(BARE), true);
    } else {
      HandsOut(m);
      Decides(m, Handed(Idle), false);
    }
  }

  lemma Decides(m: Mode, p: Place, offered: bool)
    requires Reached(m, START, p) && p == if offered then Empty(BARE) else Handed(Idle)
    ensures Reached(m, START, Pending(Idle, offered, multiset{First(offered)}))
  {
    SubmitsTwice();
    hide OpenIntent, DecideIntent, Unread, Cur, Reached;
    Take(m, START, p, Decide(PLAIN, Unread()));
    assert AfterDecide(p, START, PLAIN, Unread()) == Pending(Idle, offered, multiset{First(offered)});
  }

  /** A retry of the client's, which submits the row again. */
  lemma Retries(m: Mode, fate: Fate, offered: bool, requests: multiset<Opened>)
    requires Reached(m, START, Pending(fate, offered, requests)) && (!m.overlaps ==> requests == multiset{})
    ensures Reached(m, START, Pending(fate, offered, requests + multiset{Again(offered)}))
  {
    var p := Pending(fate, offered, requests);
    RetryDecides(m, p, p.envs[1]);
    hide Enabled, Effect, AfterDecide, Unread, Reached;
    Take(m, START, p, Decide(PLAIN, Unread()));
  }

  lemma RetryDecides(m: Mode, p: Place, env: Envelope)
    requires p.rows == [WAITING] && 1 in p.envs && p.envs[1] == env && env.submitted && env.kind == Trustline && env.maxTime == 100
    requires !m.overlaps ==> p.requests == multiset{}
    ensures Enabled(m, p, START, Decide(PLAIN, Unread()))
    ensures Effect(m, p, START, Decide(PLAIN, Unread())) == p.(requests := p.requests + multiset{Again(!env.handed)})
  {
    SubmitsTwice();
    hide OpenIntent, DecideIntent, Unread, Cur;
    assert Known(p, PLAIN) == env && p.envs[1 := env] == p.envs;
  }

  lemma Lands(m: Mode, offered: bool, rest: multiset<Opened>)
    requires Reached(m, START, Pending(InFlight, offered, rest))
    ensures Reached(m, START, Pending(Landed, offered, rest))
  {
    hide Reached;
    Take(m, START, Pending(InFlight, offered, rest), EnvelopeLands(1));
    assert Effect(m, Pending(InFlight, offered, rest), START, EnvelopeLands(1)) == Pending(Landed, offered, rest);
  }

  /** A broadcast goes out, is not answered, and the envelope lands. */
  lemma SentAndLands(m: Mode, o: Opened, offered: bool, rest: multiset<Opened>)
    requires Reached(m, START, Pending(Idle, offered, multiset{o} + rest)) && o.hash == 1
    ensures Reached(m, START, Pending(Landed, offered, rest))
  {
    hide Reached;
    var idle := Pending(Idle, offered, multiset{o} + rest);
    assert idle.requests - multiset{o} == rest;
    Take(m, START, idle, Answered(o, NoAnswer));
    assert AfterAnswer(idle, o, NoAnswer) == Pending(InFlight, offered, rest);
    Lands(m, offered, rest);
  }

  /** The contributor sends it itself, and it lands while the request is still open. */
  lemma SendsAndLands(m: Mode, requests: multiset<Opened>)
    requires Reached(m, START, Pending(Idle, false, requests))
    ensures Reached(m, START, Pending(Landed, false, requests))
  {
    hide Reached;
    Take(m, START, Pending(Idle, false, requests), ContributorSends(1));
    assert Effect(m, Pending(Idle, false, requests), START, ContributorSends(1)) == Pending(InFlight, false, requests);
    Lands(m, false, requests);
  }

  /** A refusal on evidence `e` then releases the row of the landed envelope. */
  lemma RefusalReleases(m: Mode, e: Evidence, o: Opened)
    requires Reached(m, START, Pending(Landed, e.offered, multiset{o})) && e in m.releasesOn
    requires o == Opened(0, 1, e.offered, e.resubmits, e.reopened)
    ensures !NeverUnderstates(m)
  {
    var d := Clock(0, if e.pastBound then 101 else 0);
    Pass(m, START, d, Pending(Landed, e.offered, multiset{o}));
    RefusedLanded(m, e, d, o);
  }

  lemma RefusedLanded(m: Mode, e: Evidence, d: Clock, o: Opened)
    requires Reached(m, d, Pending(Landed, e.offered, multiset{o})) && e in m.releasesOn && (d.ledger > 100 <==> e.pastBound)
    requires o == Opened(0, 1, e.offered, e.resubmits, e.reopened)
    ensures !NeverUnderstates(m)
  {
    hide Reached, NeverUnderstates;
    var p := Pending(Landed, e.offered, multiset{o});
    assert EvidenceOf(p, d, o, e.badSequence) == e;
    Take(m, d, p, Answered(o, Outcome(e.badSequence)));
    var t := AfterAnswer(p, o, Outcome(e.badSequence));
    assert t.rows == [WAITING.(status := NeverLanded)] && t.account == LINED;
    assert Current([WAITING.(status := NeverLanded)]) == None;
    ReachedUnderstates(m, d, t);
  }

  /**
   A refusal of a re-submission releases the row of an envelope that an earlier request
   put in flight and that has landed since: the liability misses it.
   */
  lemma ResubmissionUnderstates(m: Mode, e: Evidence)
    requires e in m.releasesOn && (e.offered || m.handsOut) && e.resubmits && !e.reopened
    ensures !NeverUnderstates(m)
  {
    hide Reached, Pending, NeverUnderstates;
    FirstDecides(m, e.offered);
    assert multiset{First(e.offered)} == multiset{First(e.offered)} + multiset{};
    SentAndLands(m, First(e.offered), e.offered, multiset{});
    Retries(m, Landed, e.offered, multiset{});
    assert multiset{} + multiset{Again(e.offered)} == multiset{Again(e.offered)};
    RefusalReleases(m, e, Again(e.offered));
  }

  /** And when requests overlap, so does the first request's own refusal: a retry has sent the envelope meanwhile. */
  lemma OverlapUnderstates(m: Mode, e: Evidence)
    requires m.overlaps && e in m.releasesOn && e.offered && !e.resubmits && !e.reopened
    ensures !NeverUnderstates(m)
  {
    hide Reached, Pending, NeverUnderstates;
    FirstDecides(m, true);
    Retries(m, Idle, true, multiset{First(true)});
    assert multiset{First(true)} + multiset{Again(true)} == multiset{Again(true)} + multiset{First(true)};
    SentAndLands(m, Again(true), true, multiset{First(true)});
    RefusalReleases(m, e, First(true));
  }

  // ----- envelopes handed out signed -----

  /** Handed out, co-signed and sent with no request at all: the account is sponsored and no row says so. */
  lemma UnrecordedUnderstates(m: Mode)
    requires m.handsOut && m.loose
    ensures !NeverUnderstates(m)
  {
    HandsOut(m);
    hide Reached, NeverUnderstates;
    Take(m, START, Handed(Idle), ContributorSends(1));
    assert Effect(m, Handed(Idle), START, ContributorSends(1)) == Handed(InFlight);
    Take(m, START, Handed(InFlight), EnvelopeLands(1));
    assert Effect(m, Handed(InFlight), START, EnvelopeLands(1)) == Handed(Landed);
    assert Current([]) == None;
    ReachedUnderstates(m, START, Handed(Landed));
  }

  /** A first and only request is refused while the contributor's own copy has landed. */
  lemma HandedUnderstates(m: Mode, e: Evidence)
    requires m.handsOut && e in m.releasesOn && !e.offered && !e.resubmits && !e.reopened
    ensures !NeverUnderstates(m)
  {
    hide Reached, Pending, NeverUnderstates;
    FirstDecides(m, false);
    SendsAndLands(m, multiset{First(false)});
    RefusalReleases(m, e, First(false));
  }

  /** Nor need it have been sent by then: a first request's fee bump is refused, and the contributor sends the envelope after. */
  lemma RefusedThenSent(m: Mode)
    requires m.handsOut && Evidence(false, false, false, false, false) in m.releasesOn
    ensures !NeverUnderstates(m)
  {
    FirstDecides(m, false);
    hide Reached, NeverUnderstates;
    var p := Pending(Idle, false, multiset{First(false)});
    assert EvidenceOf(p, START, First(false), false) == Evidence(false, false, false, false, false);
    Take(m, START, p, Answered(First(false), Refused(true)));
    var failed := [WAITING.(status := NeverLanded)];
    var q := AfterAnswer(p, First(false), Refused(true));
    assert q == p.(rows := failed, requests := multiset{});
    Take(m, START, q, ContributorSends(1));
    var sent := Effect(m, q, START, ContributorSends(1));
    Take(m, START, sent, EnvelopeLands(1));
    var t := Effect(m, sent, START, EnvelopeLands(1));
    assert t.rows == failed && t.account == LINED && Current(failed) == None;
    ReachedUnderstates(m, START, t);
  }

  ghost predicate TwoLive(m: Mode, states: seq<System>, labels: seq<Label>) {
    && Run(m, states, labels)
    && exists p, g, h :: p in states[|states| - 1].places && g in p.envs && h in p.envs && g != h
         && StillLive(m, p.envs[g], states[|states| - 1].clock) && StillLive(m, p.envs[h], states[|states| - 1].clock)
  }

  /** Two hand-outs with no request between them: either envelope could land. */
  lemma TwiceHandedOut(m: Mode) returns (states: seq<System>, labels: seq<Label>)
    requires m.handsOut && m.loose
    ensures TwoLive(m, states, labels)
  {
    HandsOut(m);
    var second := Intent(0, Trustline, 2, 100);
    assert Current([]) == None;
    hide Reached;
    Take(m, START, Handed(Idle), HandOut(second));
    var p := AfterHandOut(Handed(Idle), second);
    assert 1 in p.envs && 2 in p.envs && StillLive(m, p.envs[1], START) && StillLive(m, p.envs[2], START);
    states, labels := SomeRun(m, START, p);
    assert p in states[|states| - 1].places;
  }

  lemma SomeRun(m: Mode, c: Clock, p: Place) returns (states: seq<System>, labels: seq<Label>)
    requires Reached(m, c, p)
    ensures EndsAt(m, states, labels, c, p)
  {
    states, labels :| EndsAt(m, states, labels, c, p);
  }

  /** Where rows are released with care: one envelope of an address at a time is live exactly when none is handed out loose. */
  lemma OneLiveExactly(m: Mode)
    requires forall e :: e in m.releasesOn && (e.offered || m.handsOut) ==> SafeToRelease(m.overlaps, e)
    ensures (forall states: seq<System>, labels: seq<Label> :: !TwoLive(m, states, labels)) <==> !(m.handsOut && m.loose)
  {
    if m.handsOut && m.loose {
      var states, labels := TwiceHandedOut(m);
    } else {
      forall states: seq<System>, labels: seq<Label> ensures !TwoLive(m, states, labels) {
        if TwoLive(m, states, labels) {
          var k := |states| - 1;
          var p, g, h :| p in states[k].places && g in p.envs && h in p.envs && g != h
                         && StillLive(m, p.envs[g], states[k].clock) && StillLive(m, p.envs[h], states[k].clock);
          var i :| 0 <= i < |states[k].places| && states[k].places[i] == p;
          AtMostOneLiveEnvelope(m, states, labels, k, i, g, h);
        }
      }
    }
  }

  // ----- an account the sponsor created, whose owner then removed its trustline -----

  const SETUP := Intent(0, AccountAndTrustline, 1, 100)
  const ANEW := Intent(0, Trustline, 2, 100)
  const SET_UP := PendingRow(SETUP).(status := Established, confirmedBefore := true)
  const REOPENED := SET_UP.(status := Awaiting, txHash := 2, expiresAt := Some(100))
  const PUT_BACK := REOPENED.(status := Established)
  const RELEASED := MarkReleased(PUT_BACK, Owner, None)
  const UNLINED := Account(true, false, Entries(false, true))
  const MERGED := Account(false, false, Entries(false, false))

  function Reopening(offered: bool): Opened { Opened(0, 2, offered, false, true) }

  function Resubmitting(offered: bool): Opened { Opened(0, 2, offered, true, true) }

  function Created(row: Row, a: Account, second: Option<Envelope>, requests: multiset<Opened>): Place {
    var envs := map[1 := Envelope(AccountAndTrustline, 100, Landed, false, true)];
    Place([row], a, if second.Some? then envs[2 := second.value] else envs, map[], requests)
  }

  function Second(fate: Fate, offered: bool): Option<Envelope> {
    Some(Envelope(Trustline, 100, fate, !offered, true))
  }

  function Seen(): (net: seq<IntentReads>)
    ensures |net| == INTENT_ATTEMPTS
    ensures forall k :: 0 <= k < |net| ==> net[k] == IntentReads(None, Some(OnChain(false, Entries(false, true))))
  {
    var read := IntentReads(None, Some(OnChain(false, Entries(false, true))));
    [read, read, read]
  }

  const GONE_READS := ReclaimReads(None, None, Some(ChainRead(false, Entries(false, false), 0, 0, 0, 0)), None,
                                   Owed(false, false, false, false, 0))

  /** The sponsor's envelope lands, and the owner removes the trustline. */
  lemma SetsUp(m: Mode)
    ensures Reached(m, START, Created(SET_UP, UNLINED, None, multiset{}))
  {
    var first := Opened(0, 1, true, false, false);
    Begin(m, START, MERGED);
    assert Current([]) == None && Current([PendingRow(SETUP)]) == Some(0);
    assert OpenIntent([], SETUP, Unread(), 0) == Decided([PendingRow(SETUP)], Submit(0));
    hide OpenIntent, DecideIntent, Unread, Reached;
    Take(m, START, Empty(MERGED), Decide(SETUP, Unread()));
    var p1 := Place([PendingRow(SETUP)], MERGED, map[1 := Envelope(AccountAndTrustline, 100, Idle, false, true)], map[], multiset{first});
    assert AfterDecide(Empty(MERGED), START, SETUP, Unread()) == p1;
    Take(m, START, p1, Answered(first, Landing(true)));
    var p2 := Created(SET_UP, Account(true, true, Entries(true, true)), None, multiset{});
    assert AfterAnswer(p1, first, Landing(true)) == p2;
    Take(m, START, p2, OwnerRemovesTrustline);
  }

  /** A new envelope is handed out for the address, or will come as an offer. */
  lemma Prepares(m: Mode, offered: bool) returns (p: Place)
    requires offered || m.handsOut
    ensures Reached(m, START, p)
    ensures p == Created(SET_UP, UNLINED, if offered then None else Some(Envelope(Trustline, 100, Idle, true, false)), multiset{})
  {
    SetsUp(m);
    p := Created(SET_UP, UNLINED, None, multiset{});
    if !offered {
      assert Current([SET_UP]) == Some(0);
      hide Reached;
      Take(m, START, p, HandOut(ANEW));
      p := AfterHandOut(p, ANEW);
    }
  }

  /** The row is reopened for envelope 2. */
  lemma Reopens(m: Mode, offered: bool)
    requires offered || m.handsOut
    ensures Reached(m, START, Created(REOPENED, UNLINED, Second(Idle, offered), multiset{Reopening(offered)}))
  {
    var p := Prepares(m, offered);
    assert Current([SET_UP]) == Some(0) && Current([REOPENED]) == Some(0);
    assert OpenIntent([SET_UP], ANEW, Seen(), 0) == Decided([REOPENED], Submit(0));
    hide OpenIntent, DecideIntent, Seen, Reached;
    Take(m, START, p, Decide(ANEW, Seen()));
    assert AfterDecide(p, START, ANEW, Seen()) == Created(REOPENED, UNLINED, Second(Idle, offered), multiset{Reopening(offered)});
  }

  lemma SubmitsReopened()
    ensures OpenIntent([REOPENED], ANEW, Unread(), 0) == Decided([REOPENED], Submit(0)) && Cur([REOPENED]) == Some(REOPENED)
  {
    assert Current([REOPENED]) == Some(0);
  }

  /** A retry while the reopened row waits. */
  lemma RetriesReopened(m: Mode, fate: Fate, offered: bool, requests: multiset<Opened>)
    requires Reached(m, START, Created(REOPENED, UNLINED, Second(fate, offered), requests)) && (!m.overlaps ==> requests == multiset{})
    ensures Reached(m, START, Created(REOPENED, UNLINED, Second(fate, offered), requests + multiset{Resubmitting(offered)}))
  {
    var p := Created(REOPENED, UNLINED, Second(fate, offered), requests);
    assert 2 in p.envs && p.envs[2] == Second(fate, offered).value;
    ReopenedDecides(m, p, p.envs[2]);
    hide Enabled, Effect, AfterDecide, Unread, Reached, REOPENED;
    Take(m, START, p, Decide(ANEW, Unread()));
  }

  lemma ReopenedDecides(m: Mode, p: Place, env: Envelope)
    requires p.rows == [REOPENED] && 2 in p.envs && p.envs[2] == env && env.submitted && env.kind == Trustline && env.maxTime == 100
    requires !m.overlaps ==> p.requests == multiset{}
    ensures Enabled(m, p, START, Decide(ANEW, Unread()))
    ensures Effect(m, p, START, Decide(ANEW, Unread())) == p.(requests := p.requests + multiset{Resubmitting(!env.handed)})
  {
    SubmitsReopened();
    hide OpenIntent, DecideIntent, Unread, Cur;
    assert Known(p, ANEW) == env && p.envs[2 := env] == p.envs;
  }

  lemma SentReopened(m: Mode, o: Opened, offered: bool, rest: multiset<Opened>)
    requires Reached(m, START, Created(REOPENED, UNLINED, Second(Idle, offered), multiset{o} + rest)) && o.hash == 2
    ensures Reached(m, START, Created(REOPENED, UNLINED, Second(InFlight, offered), rest))
  {
    hide Reached;
    var p := Created(REOPENED, UNLINED, Second(Idle, offered), multiset{o} + rest);
    assert p.requests - multiset{o} == rest;
    Take(m, START, p, Answered(o, NoAnswer));
    assert AfterAnswer(p, o, NoAnswer) == Created(REOPENED, UNLINED, Second(InFlight, offered), rest);
  }

  /** A refusal inside the bound puts the row back to confirmed, with the envelope in flight. */
  lemma PutsBack(m: Mode, o: Opened)
    requires Reached(m, START, Created(REOPENED, UNLINED, Second(InFlight, o.offered), multiset{o}))
    requires Evidence(false, o.offered, o.resubmits, true, false) in m.releasesOn && o == Opened(0, 2, o.offered, o.resubmits, true)
    ensures Reached(m, START, Created(PUT_BACK, UNLINED, Second(InFlight, o.offered), multiset{}))
  {
    hide Reached;
    var p := Created(REOPENED, UNLINED, Second(InFlight, o.offered), multiset{o});
    assert EvidenceOf(p, START, o, false) == Evidence(false, o.offered, o.resubmits, true, false);
    Take(m, START, p, Answered(o, Refused(true)));
    assert AfterAnswer(p, o, Refused(true)) == Created(PUT_BACK, UNLINED, Second(InFlight, o.offered), multiset{});
  }

  /** The owner merges the account away, so the row is reclaimed as released; the account is funded again, and the envelope lands. */
  lemma ReclaimsThenLands(m: Mode, offered: bool)
    requires Reached(m, START, Created(PUT_BACK, UNLINED, Second(InFlight, offered), multiset{}))
    ensures !NeverUnderstates(m)
  {
    hide Reached, NeverUnderstates;
    var second := Second(InFlight, offered);
    Take(m, START, Created(PUT_BACK, UNLINED, second, multiset{}), OwnerMerges);
    var p := Created(PUT_BACK, MERGED, second, multiset{});
    Take(m, START, p, Reclaim(0, GONE_READS, true, Revocation(None, None), 0));
    assert AfterReclaim(p, START, 0, GONE_READS, true, Revocation(None, None), 0) == Created(RELEASED, MERGED, second, multiset{});
    Take(m, START, Created(RELEASED, MERGED, second, multiset{}), OwnerFunds);
    var q := Created(RELEASED, BARE, second, multiset{});
    Take(m, START, q, EnvelopeLands(2));
    var t := Effect(m, q, START, EnvelopeLands(2));
    assert t.rows == [RELEASED] && t.account == LINED && Current([RELEASED]) == None;
    ReachedUnderstates(m, START, t);
  }

  /**
   So a reopened row may not be released on a refusal inside the bound: its envelope was
   sent by an earlier request, by a retry meanwhile, or by the contributor.
   */
  lemma ReopeningUnderstates(m: Mode, e: Evidence)
    requires e in m.releasesOn && e.reopened && !e.badSequence && !e.pastBound
    requires (e.offered || m.handsOut) && (m.overlaps || e.resubmits || !e.offered)
    ensures !NeverUnderstates(m)
  {
    hide Reached, Created, NeverUnderstates;
    var first, again := Reopening(e.offered), Resubmitting(e.offered);
    assert e == Evidence(false, e.offered, e.resubmits, true, false);
    Reopens(m, e.offered);
    if e.resubmits {
      assert multiset{first} == multiset{first} + multiset{};
      SentReopened(m, first, e.offered, multiset{});
      RetriesReopened(m, InFlight, e.offered, multiset{});
      assert multiset{} + multiset{again} == multiset{again};
      PutsBack(m, again);
    } else if e.offered {
      RetriesReopened(m, Idle, true, multiset{first});
      assert multiset{first} + multiset{again} == multiset{again} + multiset{first};
      SentReopened(m, again, true, multiset{first});
      PutsBack(m, first);
    } else {
      SendsReopened(m, multiset{first});
      PutsBack(m, first);
    }
    ReclaimsThenLands(m, e.offered);
  }

  lemma SendsReopened(m: Mode, requests: multiset<Opened>)
    requires Reached(m, START, Created(REOPENED, UNLINED, Second(Idle, false), requests))
    ensures Reached(m, START, Created(REOPENED, UNLINED, Second(InFlight, false), requests))
  {
    hide Reached;
    var p := Created(REOPENED, UNLINED, Second(Idle, false), requests);
    Take(m, START, p, ContributorSends(2));
    assert Effect(m, p, START, ContributorSends(2)) == Created(REOPENED, UNLINED, Second(InFlight, false), requests);
  }

  // ----- every run -----

  /**
   Exactly when the liability can be trusted: when every release is on evidence that makes
   it safe, and only offers leave the server, or envelopes nobody sends unrecorded.
   */
  lemma NeverUnderstatedExactly(m: Mode)
    ensures NeverUnderstates(m) <==> Careful(m)
  {
    if Careful(m) {
      forall states: seq<System>, labels: seq<Label> | Run(m, states, labels) ensures !CanUnderstate(m, states, labels) {
        forall p | p in states[|states| - 1].places ensures !Understated(p) {
          var i :| 0 <= i < |states[|states| - 1].places| && states[|states| - 1].places[i] == p;
          ReserveNeverUnderstated(m, states, labels, |states| - 1, i);
        }
      }
    } else if m.loose && m.handsOut {
      UnrecordedUnderstates(m);
    } else {
      var e :| e in m.releasesOn && (e.offered || m.handsOut) && !SafeToRelease(m.overlaps, e);
      if e.reopened {
        ReopeningUnderstates(m, e);
      } else if e.resubmits {
        ResubmissionUnderstates(m, e);
      } else if e.offered {
        OverlapUnderstates(m, e);
      } else {
        HandedUnderstates(m, e);
      }
    }
  }
}
