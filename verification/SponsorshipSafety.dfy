/**
 When rows are released on safe evidence only, over every run: the sponsor's recorded
 liability is never less than what the chain shows, no two sponsorship envelopes of an
 address could both still land, and neither could two revocations of a row.
 */
module SponsorshipSafety {
  import opened Wrappers
  import opened StellarChain
  import opened SponsorshipRows
  import opened SponsorshipReclaim
  import opened SponsorshipProtocol

  // ----- the invariant, in terms of the outstanding row -----

  predicate Reclaims(cur: Option<Row>, g: Hash) {
    cur.Some? && cur.value.status == Established && cur.value.reclaimTx == Some(g)
  }

  /** An envelope in flight, or one a request has submitted and that the contributor holds too. */
  predicate MayLand(env: Envelope, c: Clock) {
    c.ledger <= env.maxTime && (env.fate == InFlight || (env.fate == Idle && env.handed && env.submitted))
  }

  /** Every envelope that could land is the pending row's, and every such revocation the confirmed row's. */
  ghost predicate LiveAreRecorded(cur: Option<Row>, p: Place, c: Clock) {
    && (forall h :: h in p.envs && MayLand(p.envs[h], c) ==> Carries(cur, h))
    && (forall g :: g in p.revs && CouldLand(p.revs[g].fate, p.revs[g].maxTime, c) ==> Reclaims(cur, g))
  }

  /** What the row stands for covers what is sponsored. */
  predicate ReserveCovered(cur: Option<Row>, a: Account) {
    && (UnitsOf(a.sponsored) > 0 ==> cur.Some?)
    && (a.sponsored.account ==> cur.Some? && cur.value.kind == AccountAndTrustline)
  }

  /**
   The pending row's envelope is of a kind its reserve covers, and until it lands a row
   never confirmed before has nothing sponsored behind it.
   */
  predicate RowAgrees(row: Row, p: Place) {
    && (row.status == Established ==> row.confirmedBefore)
    && (row.status == Awaiting ==>
          && row.txHash in p.envs && row.reclaimTx == None
          && row.expiresAt == Some(p.envs[row.txHash].maxTime)
          && (row.kind == AccountAndTrustline || p.envs[row.txHash].kind == Trustline)
          && (!row.confirmedBefore && p.envs[row.txHash].fate != Landed ==> UnitsOf(p.account.sponsored) == 0))
    && (row.reclaimTx.Some? ==>
          && row.reclaimTx.value in p.revs && row.reclaimExpiresAt == Some(p.revs[row.reclaimTx.value].maxTime)
          && p.revs[row.reclaimTx.value].fate != Idle)
  }

  ghost predicate Good(cur: Option<Row>, p: Place, c: Clock) {
    && Coherent(p.account) && ReserveCovered(cur, p.account) && LiveAreRecorded(cur, p, c)
    && (cur.Some? ==> Outstanding(cur.value) && RowAgrees(cur.value, p))
  }

  /** The envelope has not landed and never will. */
  predicate Gone(env: Envelope, c: Clock) {
    env.fate == Dead || (env.fate != Landed && c.ledger > env.maxTime)
  }

  /** Signed, not on its way yet, and still in time. */
  predicate CouldBeSent(p: Place, c: Clock, h: Hash) {
    h in p.envs && p.envs[h].fate == Idle && c.ledger <= p.envs[h].maxTime
  }

  /** Releasing this row would lose nothing: its envelope cannot land, and nothing sponsored depends on it. */
  predicate Harmless(row: Row, p: Place, c: Clock, h: Hash, badSequence: bool) {
    && h in p.envs
    && (badSequence || !MayLand(p.envs[h], c))
    && (row.confirmedBefore || UnitsOf(p.account.sponsored) == 0)
  }

  /**
   What an open request may rely on. An envelope it could still send is the pending row's;
   a row that failed under its envelope is right about it; a row it saw confirmed before
   stays so; and alone, with an offer its row did not carry before, it may release it.
   */
  predicate OpenAgrees(m: Mode, rows: seq<Row>, p: Place, c: Clock, o: Opened) {
    && o.id < |rows| && o.hash in p.envs && (o.offered <==> !p.envs[o.hash].handed)
    && (CouldBeSent(p, c, o.hash) ==> Carries(Cur(rows), o.hash))
    && (rows[o.id].status == Awaiting ==> !rows[o.id].revoked)
    && (rows[o.id].txHash == o.hash && rows[o.id].status == NeverLanded ==> Gone(p.envs[o.hash], c))
    && (rows[o.id].txHash == o.hash && rows[o.id].status == Awaiting && o.reopened ==> rows[o.id].confirmedBefore)
    && (rows[o.id].txHash == o.hash && rows[o.id].status == Awaiting && !m.overlaps && o.offered && !o.resubmits ==>
          Harmless(rows[o.id], p, c, o.hash, false))
  }

  ghost predicate Openings(m: Mode, rows: seq<Row>, p: Place, c: Clock) {
    && (forall o :: o in p.requests ==> OpenAgrees(m, rows, p, c, o))
    && (!m.overlaps ==> |p.requests| <= 1)
  }

  ghost predicate OffersOnly(m: Mode, p: Place) {
    !m.handsOut ==> forall h :: h in p.envs ==> !p.envs[h].handed
  }

  ghost predicate PlaceInv(m: Mode, p: Place, c: Clock) {
    OneOutstanding(p.rows) && Good(Cur(p.rows), p, c) && Openings(m, p.rows, p, c) && OffersOnly(m, p)
  }

  // ----- requests keep it -----

  lemma CurIs(rows: seq<Row>, i: nat)
    requires OneOutstanding(rows) && i < |rows| && Outstanding(rows[i])
    ensures Cur(rows) == Some(rows[i]) && Current(rows) == Some(i)
  {
  }

  lemma CurGone(rows: seq<Row>, i: nat, row: Row)
    requires OneOutstanding(rows) && i < |rows| && Outstanding(rows[i])
    ensures OneOutstanding(rows[i := row])
    ensures Cur(rows[i := row]) == if Outstanding(row) then Some(row) else None
  {
    var t := rows[i := row];
    assert forall k :: 0 <= k < |t| && k != i ==> t[k] == rows[k] && !Outstanding(t[k]);
    if Outstanding(row) {
      CurIs(t, i);
    }
  }

  lemma CurAppended(rows: seq<Row>, row: Row)
    requires Cur(rows) == None && Outstanding(row)
    ensures OneOutstanding(rows + [row]) && Cur(rows + [row]) == Some(row) && Current(rows + [row]) == Some(|rows|)
  {
    CurIs(rows + [row], |rows|);
  }

  /** One pass, in terms of the outstanding row alone. */
  lemma PassOnCur(rows: seq<Row>, intent: Intent, net: IntentReads, now: Time)
    requires OneOutstanding(rows)
    ensures var d := DecideIntent(rows, intent, net, now);
            && OneOutstanding(d.rows)
            && (d.decision.Submit? ==> Current(d.rows) == Some(d.decision.id))
            && (d.decision.Submit? <==> PassSubmits(Cur(rows), intent, net, now))
            && (d.decision == Raced ==> Cur(d.rows) == Cur(rows) || (Cur(d.rows).Some? && Cur(d.rows).value.status == Established))
            && Cur(d.rows) == CurAfterPass(Cur(rows), intent, net, now)
  {
    var i := Current(rows);
    if i == None {
      CurAppended(rows, PendingRow(intent));
    } else {
      var row := rows[i.value];
      var released := row.(revoked := true, releasedBy := Some(Owner));
      CurIs(rows, i.value);
      CurGone(rows, i.value, FailOne(row));
      CurGone(rows, i.value, ConfirmOne(row));
      CurGone(rows, i.value, released);
      var reopened := row.(status := Awaiting, txHash := intent.txHash, expiresAt := Some(intent.expiresAt));
      CurGone(rows, i.value, reopened);
      CurIs(rows[i.value := reopened], i.value);
      CurAppended(rows[i.value := released], PendingRow(intent));
      if !Outstanding(FailOne(row)) {
        CurAppended(rows[i.value := FailOne(row)], PendingRow(intent));
      }
    }
  }

  function CurAfterPass(cur: Option<Row>, intent: Intent, net: IntentReads, now: Time): Option<Row> {
    if cur == None then Some(PendingRow(intent))
    else
      var row := cur.value;
      if row.user != intent.user then cur
      else if row.status == Established then
        if net.chain == None || net.chain.value.usdcTrustline || row.reclaimTx.Some? then cur
        else if UnitsOf(OfKind(net.chain.value.sponsored, row.kind)) == 0 then Some(PendingRow(intent))
        else Some(row.(status := Awaiting, txHash := intent.txHash, expiresAt := Some(intent.expiresAt)))
      else if row.txHash == intent.txHash || net.prior == None then cur
      else if net.prior.value == TxStatus.Confirmed then Some(ConfirmOne(row))
      else if net.prior.value == NotFound && !Expired(row.expiresAt, now) then cur
      else if row.confirmedBefore then Some(FailOne(row))
      else Some(PendingRow(intent))
  }

  predicate PassSubmits(cur: Option<Row>, intent: Intent, net: IntentReads, now: Time) {
    cur == None ||
    (var row := cur.value;
     row.user == intent.user &&
     (if row.status == Established then net.chain.Some? && !net.chain.value.usdcTrustline && row.reclaimTx == None
      else row.txHash == intent.txHash ||
           (net.prior.Some? && net.prior.value != TxStatus.Confirmed
            && (net.prior.value == NotFound ==> Expired(row.expiresAt, now)) && !row.confirmedBefore)))
  }

  /**
   A new row replaces an old one only when nothing the old one stood for is sponsored or
   could land; and a row that did not carry an offer before may be released again.
   */
  lemma PassKeeps(p: Place, c: Clock, rows: seq<Row>, intent: Intent, net: IntentReads)
    requires Good(Cur(rows), p, c) && SameEnvelope(p, intent) && PassTruthful(p, rows, c, net)
    ensures var cur := CurAfterPass(Cur(rows), intent, net, c.now);
            if PassSubmits(Cur(rows), intent, net, c.now)
            then Carries(cur, intent.txHash) && Good(cur, OnBooks(p, intent), c)
                 && (!Resubmits(Cur(rows), intent) && !Known(p, intent).handed ==> Harmless(cur.value, OnBooks(p, intent), c, intent.txHash, false))
                 && (Resubmits(Cur(rows), intent) ==> cur == Cur(rows))
            else Good(cur, p, c)
  {
  }

  lemma {:induction false} OpenKeeps(p: Place, c: Clock, rows: seq<Row>, intent: Intent, net: seq<IntentReads>)
    requires OneOutstanding(rows) && Good(Cur(rows), p, c) && SameEnvelope(p, intent)
    requires forall k :: 0 <= k < |net| ==> PassTruthful(p, rows, c, net[k])
    ensures var d := OpenIntent(rows, intent, net, c.now);
            && OneOutstanding(d.rows)
            && if d.decision.Submit?
               then Current(d.rows) == Some(d.decision.id) && Carries(Cur(d.rows), intent.txHash) && Good(Cur(d.rows), OnBooks(p, intent), c)
                    && (!Resubmits(Cur(rows), intent) && !Known(p, intent).handed ==> Harmless(Cur(d.rows).value, OnBooks(p, intent), c, intent.txHash, false))
                    && (Resubmits(Cur(rows), intent) ==> Cur(d.rows) == Cur(rows))
               else Good(Cur(d.rows), p, c)
    decreases |net|
  {
    if net != [] {
      PassOnCur(rows, intent, net[0], c.now);
      PassKeeps(p, c, rows, intent, net[0]);
      var d := DecideIntent(rows, intent, net[0], c.now);
      if d.decision == Raced {
        forall k | 0 <= k < |net[1..]| ensures PassTruthful(p, d.rows, c, net[1..][k]) {
          assert PassTruthful(p, rows, c, net[k + 1]);
        }
        OpenKeeps(p, c, d.rows, intent, net[1..]);
      }
    }
  }

  // An open request is kept by every pass of a decision.

  lemma PassOpenings(m: Mode, p: Place, c: Clock, rows: seq<Row>, intent: Intent, net: IntentReads, o: Opened)
    requires OneOutstanding(rows) && Good(Cur(rows), p, c) && SameEnvelope(p, intent) && PassTruthful(p, rows, c, net)
    requires m.overlaps && OpenAgrees(m, rows, p, c, o)
    ensures OpenAgrees(m, DecideIntent(rows, intent, net, c.now).rows, p, c, o)
  {
    PassOnCur(rows, intent, net, c.now);
    var i := Current(rows);
    if i.Some? {
      CurIs(rows, i.value);
    }
    hide OneOutstanding, Cur, Harmless, ReserveCovered, LiveAreRecorded;
  }

  lemma {:induction false} OpenOpenings(m: Mode, p: Place, c: Clock, rows: seq<Row>, intent: Intent, net: seq<IntentReads>, o: Opened)
    requires OneOutstanding(rows) && Good(Cur(rows), p, c) && SameEnvelope(p, intent)
    requires forall k :: 0 <= k < |net| ==> PassTruthful(p, rows, c, net[k])
    requires m.overlaps && OpenAgrees(m, rows, p, c, o)
    ensures OpenAgrees(m, OpenIntent(rows, intent, net, c.now).rows, p, c, o)
    decreases |net|
  {
    if net != [] {
      PassOnCur(rows, intent, net[0], c.now);
      PassKeeps(p, c, rows, intent, net[0]);
      PassOpenings(m, p, c, rows, intent, net[0], o);
      var d := DecideIntent(rows, intent, net[0], c.now);
      if d.decision == Raced {
        forall k | 0 <= k < |net[1..]| ensures PassTruthful(p, d.rows, c, net[1..][k]) {
          assert PassTruthful(p, rows, c, net[k + 1]);
        }
        OpenOpenings(m, p, c, d.rows, intent, net[1..], o);
      }
    }
  }

  lemma PlaceApart(cur: Option<Row>, p: Place, c: Clock, rows: seq<Row>, requests: multiset<Opened>)
    requires Good(cur, p, c)
    ensures Good(cur, p.(rows := rows, requests := requests), c)
  {
  }

  /** Putting an envelope on the books changes nothing for the requests already open. */
  lemma OnBooksOpenings(m: Mode, p: Place, c: Clock, rows: seq<Row>, intent: Intent, requests: multiset<Opened>, o: Opened)
    requires SameEnvelope(p, intent) && OpenAgrees(m, rows, p, c, o)
    ensures OpenAgrees(m, rows, OnBooks(p, intent).(rows := rows, requests := requests), c, o)
  {
  }

  /** A decision keeps everything live recorded, its own envelope included, and leaves its request what it relies on. */
  lemma DecideKeeps(m: Mode, p: Place, c: Clock, intent: Intent, net: seq<IntentReads>)
    requires PlaceInv(m, p, c) && CanDecide(m, p, c, intent, net)
    ensures PlaceInv(m, AfterDecide(p, c, intent, net), c)
  {
    OpenKeeps(p, c, p.rows, intent, net);
    var d := OpenIntent(p.rows, intent, net, c.now);
    var t := AfterDecide(p, c, intent, net);
    hide OpenIntent, OneOutstanding, PassTruthful, Good, Openings, OpenAgrees;
    PlaceApart(Cur(d.rows), if d.decision.Submit? then OnBooks(p, intent) else p, c, d.rows, t.requests);
    DecideOpenings(m, p, c, intent, net);
  }

  lemma DecideOpenings(m: Mode, p: Place, c: Clock, intent: Intent, net: seq<IntentReads>)
    requires PlaceInv(m, p, c) && CanDecide(m, p, c, intent, net)
    ensures var t := AfterDecide(p, c, intent, net);
            Openings(m, t.rows, t, c)
  {
    var d := OpenIntent(p.rows, intent, net, c.now);
    var t := AfterDecide(p, c, intent, net);
    OpenKeeps(p, c, p.rows, intent, net);
    hide OpenIntent, OneOutstanding, PassTruthful, Good;
    forall o | o in t.requests ensures OpenAgrees(m, t.rows, t, c, o) {
      if o in p.requests {
        assert OpenAgrees(m, p.rows, p, c, o);
        hide OpenAgrees;
        OpenOpenings(m, p, c, p.rows, intent, net, o);
        OnBooksOpenings(m, p, c, d.rows, intent, t.requests, o);
      } else {
        OpenedAgrees(m, p, c, intent, net);
      }
    }
  }

  /** The request that deciding opens has what it relies on. */
  lemma OpenedAgrees(m: Mode, p: Place, c: Clock, intent: Intent, net: seq<IntentReads>)
    requires PlaceInv(m, p, c) && CanDecide(m, p, c, intent, net) && OpenIntent(p.rows, intent, net, c.now).decision.Submit?
    ensures var t := AfterDecide(p, c, intent, net);
            OpenAgrees(m, t.rows, t, c, OpenedBy(p, OpenIntent(p.rows, intent, net, c.now), intent))
  {
    OpenKeeps(p, c, p.rows, intent, net);
    hide OpenIntent, OneOutstanding, PassTruthful, Good, Openings;
  }

  lemma ConfirmedCur(rows: seq<Row>, i: nat, h: Hash)
    requires OneOutstanding(rows) && Current(rows) == Some(i) && Carries(Cur(rows), h)
    ensures OneOutstanding(ConfirmIndexed(rows, i, h)) && Cur(ConfirmIndexed(rows, i, h)) == Some(ConfirmOne(Cur(rows).value))
    ensures OneOutstanding(FailRow(rows, i, h))
    ensures Cur(FailRow(rows, i, h)) == if Cur(rows).value.confirmedBefore then Some(FailOne(Cur(rows).value)) else None
  {
    CurGone(rows, i, ConfirmOne(rows[i]));
    CurGone(rows, i, FailOne(rows[i]));
  }

  /** The broadcast of the pending row's envelope, however it ends. */
  lemma BroadcastKeeps(p: Place, c: Clock, i: nat, h: Hash, b: Broadcast)
    requires OneOutstanding(p.rows) && Good(Cur(p.rows), p, c) && Current(p.rows) == Some(i) && Carries(Cur(p.rows), h)
    requires h in p.envs && CanBroadcast(p, c, p.envs[h], b)
    requires GivesUp(b) ==> Harmless(Cur(p.rows).value, p, c, h, b.BadSequence?)
    ensures var t := AfterBroadcast(p, i, h, p.envs[h], b);
            OneOutstanding(t.rows) && Good(Cur(t.rows), t, c)
  {
    ConfirmedCur(p.rows, i, h);
    hide ConfirmRow, ConfirmIndexed, FailRow, Cur, OneOutstanding;
    if b.Landing? || b.SeenLanded? {
      hide Good;
      LandingKeeps(p, c, i, h, b);
    }
  }

  lemma LandingKeeps(p: Place, c: Clock, i: nat, h: Hash, b: Broadcast)
    requires OneOutstanding(p.rows) && Good(Cur(p.rows), p, c) && Current(p.rows) == Some(i) && Carries(Cur(p.rows), h)
    requires h in p.envs && CanBroadcast(p, c, p.envs[h], b) && (b.Landing? || b.SeenLanded?)
    ensures var t := AfterBroadcast(p, i, h, p.envs[h], b);
            OneOutstanding(t.rows) && Good(Cur(t.rows), t, c)
  {
    ConfirmedCur(p.rows, i, h);
    hide ConfirmRow, ConfirmIndexed, FailRow, Cur, OneOutstanding;
  }

  /** A broadcast of an envelope that no row waits for and that cannot land. */
  lemma StrayKeeps(cur: Option<Row>, p: Place, c: Clock, h: Hash, fate: Fate)
    requires Good(cur, p, c) && h in p.envs && !Carries(cur, h) && !MayLand(p.envs[h].(fate := fate), c)
    ensures Good(cur, p.(envs := p.envs[h := p.envs[h].(fate := fate)]), c)
  {
  }

  /**
   When a request may release its row knowing no more than this. With one request at a
   time, when the envelope is an offer the row did not carry before; and in any case when
   the row goes back to confirmed and the envelope can land no more.
   */
  predicate SafeToRelease(overlaps: bool, e: Evidence) {
    (!overlaps && e.offered && !e.resubmits) || (e.reopened && (e.badSequence || e.pastBound))
  }

  /** Rows are released on safe evidence only, and nothing is handed out that could be sent unrecorded. */
  ghost predicate Careful(m: Mode) {
    && (m.loose ==> !m.handsOut)
    && forall e :: e in m.releasesOn && (e.offered || m.handsOut) ==> SafeToRelease(m.overlaps, e)
  }

  /** The row still waits for the request's envelope, so the write of its result takes effect. */
  predicate OnRow(rows: seq<Row>, o: Opened) {
    o.id < |rows| && rows[o.id].txHash == o.hash && rows[o.id].status == Awaiting && !rows[o.id].revoked
  }

  /** Is the request told that its envelope landed, or that it did not, and does the write of it land? */
  predicate Confirms(b: Broadcast) {
    (b.Landing? || b.SeenLanded?) && b.settled
  }

  predicate Releases(b: Broadcast) {
    (b.SeenFailed? || b.Refused? || b.BadSequence?) && b.settled
  }

  /**
   What an answer does to the address when its row still waits for it: a landing sponsors the
   account and confirms the row, a definite refusal releases it as it was before, and anything
   unknown leaves it pending.
   */
  lemma AnswerWrites(p: Place, o: Opened, b: Broadcast)
    requires OnRow(p.rows, o) && OneOutstanding(p.rows) && o.hash in p.envs
    ensures var t, row, env := AfterAnswer(p, o, b), p.rows[o.id], p.envs[o.hash];
            && t.rows == (if Confirms(b) then p.rows[o.id := row.(status := Established, confirmedBefore := true)]
                          else if Releases(b) then p.rows[o.id := row.(status := if row.confirmedBefore then Established else NeverLanded)]
                          else p.rows)
            && t.account == (if b.Landing? then Account(true, true, Entries(true, p.account.sponsored.account || env.kind == AccountAndTrustline))
                             else p.account)
            && t.requests == p.requests - multiset{o} && t.revs == p.revs
            && t.envs == p.envs[o.hash := env.(fate := if b.Landing? then Landed
                                                       else if b.BadSequence? && env.fate != Landed then Dead
                                                       else if b.NoAnswer? && env.fate == Idle then InFlight
                                                       else env.fate)]
  {
    CurIs(p.rows, o.id);
  }

  lemma OnRowIsCur(m: Mode, p: Place, c: Clock, o: Opened)
    requires PlaceInv(m, p, c) && OnRow(p.rows, o)
    ensures Current(p.rows) == Some(o.id) && Cur(p.rows) == Some(p.rows[o.id]) && Carries(Cur(p.rows), o.hash)
  {
    CurIs(p.rows, o.id);
  }

  /** The same outcome, with its write lost. */
  function Unsettled(b: Broadcast): Broadcast {
    match b
    case Landing(_) => Landing(false)
    case SeenLanded(_) => SeenLanded(false)
    case SeenFailed(_) => SeenFailed(false)
    case Refused(_) => Refused(false)
    case BadSequence(_) => BadSequence(false)
    case NoAnswer => NoAnswer
  }

  /** Off its row a request's write changes no row. */
  lemma OffRowWritesNothing(m: Mode, p: Place, c: Clock, o: Opened, b: Broadcast)
    requires OpenAgrees(m, p.rows, p, c, o) && !OnRow(p.rows, o) && CanBroadcast(p, c, p.envs[o.hash], b)
    ensures AfterAnswer(p, o, b) == AfterBroadcast(Closed(p, o), 0, o.hash, p.envs[o.hash], Unsettled(b))
  {
  }

  lemma AnswerKeepsGood(m: Mode, p: Place, c: Clock, o: Opened, b: Broadcast)
    requires PlaceInv(m, p, c) && o in p.requests && o.hash in p.envs && CanBroadcast(p, c, p.envs[o.hash], b)
    requires GivesUp(b) ==> SafeToRelease(m.overlaps, EvidenceOf(p, c, o, b.BadSequence?))
    ensures var t := AfterAnswer(p, o, b);
            OneOutstanding(t.rows) && Good(Cur(t.rows), t, c)
  {
    var h, q := o.hash, Closed(p, o);
    assert OpenAgrees(m, p.rows, p, c, o);
    PlaceApart(Cur(p.rows), p, c, p.rows, q.requests);
    if OnRow(p.rows, o) {
      OnRowIsCur(m, p, c, o);
      hide Good, OneOutstanding, Cur, AfterBroadcast;
      BroadcastKeeps(q, c, o.id, h, b);
    } else {
      OffRowWritesNothing(m, p, c, o, b);
      if Carries(Cur(p.rows), h) {
        hide Good, OneOutstanding, ConfirmIndexed, FailRow;
        BroadcastKeeps(q, c, Current(p.rows).value, h, Unsettled(b));
      } else {
        LiveIsCarried(m, p, c, o);
        hide Good, OneOutstanding, Cur, ConfirmIndexed, FailRow;
        var t := AfterBroadcast(q, 0, h, p.envs[h], Unsettled(b));
        StrayKeeps(Cur(p.rows), q, c, h, t.envs[h].fate);
        assert t == q.(envs := q.envs[h := q.envs[h].(fate := t.envs[h].fate)]);
      }
    }
  }

  lemma LiveIsCarried(m: Mode, p: Place, c: Clock, o: Opened)
    requires PlaceInv(m, p, c) && o in p.requests
    ensures o.hash in p.envs
    ensures (p.envs[o.hash].fate == Idle || p.envs[o.hash].fate == InFlight) && c.ledger <= p.envs[o.hash].maxTime ==>
              Carries(Cur(p.rows), o.hash)
  {
    assert OpenAgrees(m, p.rows, p, c, o);
  }

  /** With one request at a time, the one that is answered was the only one. */
  lemma LastOpened(requests: multiset<Opened>, o: Opened)
    requires |requests| <= 1 && o in requests
    ensures requests - multiset{o} == multiset{}
  {
    assert requests == multiset{o} + (requests - multiset{o});
    assert |requests| == 1 + |requests - multiset{o}|;
  }

  /** What an outcome makes of its envelope, and of the row that waits for it. */
  function FateAfter(b: Broadcast, fate: Fate): Fate {
    match b
    case Landing(_) => Landed
    case BadSequence(_) => Spent(fate)
    case NoAnswer => if fate == Idle then InFlight else fate
    case _ => fate
  }

  function RowAfter(b: Broadcast, row: Row): Row {
    match b
    case Landing(settled) => if settled then ConfirmOne(row) else row
    case SeenLanded(settled) => if settled then ConfirmOne(row) else row
    case NoAnswer => row
    case _ => if b.settled then FailOne(row) else row
  }

  lemma AnswerShape(m: Mode, p: Place, c: Clock, o: Opened, b: Broadcast)
    requires OneOutstanding(p.rows) && OpenAgrees(m, p.rows, p, c, o) && CanBroadcast(p, c, p.envs[o.hash], b)
    ensures var t := AfterAnswer(p, o, b);
            && t.envs == p.envs[o.hash := p.envs[o.hash].(fate := FateAfter(b, p.envs[o.hash].fate))]
            && t.rows == (if OnRow(p.rows, o) then p.rows[o.id := RowAfter(b, p.rows[o.id])] else p.rows)
            && t.requests == p.requests - multiset{o}
  {
    if OnRow(p.rows, o) {
      CurIs(p.rows, o.id);
      assert p.rows[o.id := p.rows[o.id]] == p.rows;
    } else {
      OffRowWritesNothing(m, p, c, o, b);
    }
    assert p.envs[o.hash].(fate := p.envs[o.hash].fate) == p.envs[o.hash];
    hide OneOutstanding, Cur, Harmless;
  }

  /** What the answer to one request leaves another that is open beside it. */
  lemma AnswerKeepsOther(m: Mode, p: Place, c: Clock, o: Opened, b: Broadcast, other: Opened)
    requires PlaceInv(m, p, c) && m.overlaps && o in p.requests && other in p.requests && CanAnswer(m, p, c, o, b)
    requires GivesUp(b) ==> SafeToRelease(m.overlaps, EvidenceOf(p, c, o, b.BadSequence?))
    ensures OpenAgrees(m, AfterAnswer(p, o, b).rows, AfterAnswer(p, o, b), c, other)
  {
    assert OpenAgrees(m, p.rows, p, c, o) && OpenAgrees(m, p.rows, p, c, other);
    LiveIsCarried(m, p, c, o);
    AnswerShape(m, p, c, o, b);
    if OnRow(p.rows, o) {
      OnRowIsCur(m, p, c, o);
      CurGone(p.rows, o.id, RowAfter(b, p.rows[o.id]));
    }
    hide Good, OneOutstanding, Cur, Harmless, Openings, AfterAnswer;
  }

  lemma AnswerOpenings(m: Mode, p: Place, c: Clock, o: Opened, b: Broadcast)
    requires PlaceInv(m, p, c) && CanAnswer(m, p, c, o, b)
    requires GivesUp(b) ==> SafeToRelease(m.overlaps, EvidenceOf(p, c, o, b.BadSequence?))
    ensures var t := AfterAnswer(p, o, b); Openings(m, t.rows, t, c)
  {
    var t := AfterAnswer(p, o, b);
    AnswerShape(m, p, c, o, b);
    if !m.overlaps {
      LastOpened(p.requests, o);
    }
    hide AfterAnswer, OpenAgrees, PlaceInv;
    forall other | other in t.requests ensures OpenAgrees(m, t.rows, t, c, other) {
      AnswerKeepsOther(m, p, c, o, b, other);
    }
  }

  /** The answer to a broadcast, whatever ran since its request decided. */
  lemma AnswerKeeps(m: Mode, p: Place, c: Clock, o: Opened, b: Broadcast)
    requires PlaceInv(m, p, c) && CanAnswer(m, p, c, o, b)
    requires GivesUp(b) ==> SafeToRelease(m.overlaps, EvidenceOf(p, c, o, b.BadSequence?))
    ensures PlaceInv(m, AfterAnswer(p, o, b), c)
  {
    AnswerKeepsGood(m, p, c, o, b);
    AnswerOpenings(m, p, c, o, b);
    AnswerShape(m, p, c, o, b);
    hide AfterAnswer, Good, OneOutstanding, Openings, CanAnswer, SafeToRelease;
  }

  // ----- dispositions keep it -----

  function Kept(row: Row): Option<Row> {
    if Outstanding(row) then Some(row) else None
  }

  lemma ReconcileKeeps(p: Place, c: Clock, row: Row, look: ReclaimReads, execute: bool)
    requires Good(Some(row), p, c) && row.status == Awaiting && LookTruthful(p, c, row, look)
    ensures Good(Kept(ReconcilePending(row, look, execute, c.now).row), p, c)
  {
  }

  /** A revocation is sent from a row with no live intent, and is on that row before it is sent. */
  lemma RevokeKeeps(p: Place, c: Clock, row: Row, units: nat, revocation: Revocation, base: nat)
    requires Good(Some(row), p, c) && row.status == Established && units == UnitsOf(OfKind(p.account.sponsored, row.kind)) > 0
    requires revocation.prepared.Some? ==> revocation.prepared.value.hash !in p.revs
    requires OutcomeTruthful(p, revocation)
    ensures var d := Revoke(row, units, revocation, base);
            Good(Kept(d.row), Swept(p, row, d, revocation), c)
  {
    if revocation.prepared.Some? && row.reclaimTx == None {
      SentKeeps(p, c, row, revocation.prepared.value, FateOf(revocation.outcome));
    }
    hide Good, UnitsOf, ReserveUnits;
  }

  /** A revocation of the row's own entries, once it is out: what each fate of it lets the row become. */
  lemma SentKeeps(p: Place, c: Clock, row: Row, prepared: Prepared, fate: Fate)
    requires Good(Some(row), p, c) && row.status == Established && row.reclaimTx == None && prepared.hash !in p.revs && fate != Idle
    ensures var entries := OfKind(p.account.sponsored, row.kind);
            var claimed := row.(reclaimTx := Some(prepared.hash), reclaimExpiresAt := Some(prepared.expiresAt));
            var q := p.(revs := p.revs[prepared.hash := Sent(entries, prepared.expiresAt, fate)],
                        account := if fate == Landed then p.account.(sponsored := Without(p.account.sponsored, entries)) else p.account);
            && !row.revoked
            && Good(Some(claimed), q, c)
            && (fate == Dead ==> Good(Some(ClearIntent(claimed, prepared.hash)), q, c))
            && (fate == Landed || (fate == Dead && UnitsOf(entries) == 0) ==> Good(None, q, c))
  {
  }

  /** A dead revocation's intent may be dropped. */
  lemma ClearKeeps(p: Place, c: Clock, row: Row, g: Hash)
    requires Good(Some(row), p, c) && row.status == Established && g in p.revs
    requires !CouldLand(p.revs[g].fate, p.revs[g].maxTime, c)
    ensures Good(Some(ClearIntent(row, g)), p, c)
  {
  }

  /** A row whose revocation can no longer land is released only when nothing it paid for is sponsored. */
  lemma DisposeRowKeeps(p: Place, c: Clock, row: Row, landed: Option<Hash>, look: ReclaimReads, execute: bool,
                        revocation: Revocation, base: nat)
    requires Good(Some(row), p, c) && row.status == Established && OutcomeTruthful(p, revocation)
    requires revocation.prepared.Some? ==> revocation.prepared.value.hash !in p.revs
    requires look.chain.Some? ==> look.chain.value.live == p.account.live && look.chain.value.sponsored == p.account.sponsored
    requires forall g :: g in p.revs ==> !CouldLand(p.revs[g].fate, p.revs[g].maxTime, c)
    ensures var d := DisposeRow(row, landed, look, execute, revocation, base);
            Good(Kept(d.row), Swept(p, row, d, revocation), c)
  {
    if look.chain.Some? && UnitsOf(Still(look.chain.value, row.kind)) > 0 {
      RevokeKeeps(p, c, row, UnitsOf(Still(look.chain.value, row.kind)), revocation, base);
      hide Good, Revoke, Refusal;
    } else {
      hide Revoke, Refusal;
    }
  }

  lemma OnlyRecordedIsLive(p: Place, c: Clock, row: Row)
    requires Good(Some(row), p, c)
    ensures forall g :: g in p.revs && row.reclaimTx != Some(g) ==> !CouldLand(p.revs[g].fate, p.revs[g].maxTime, c)
  {
  }

  lemma DisposeKeeps(p: Place, c: Clock, row: Row, look: ReclaimReads, execute: bool, revocation: Revocation, base: nat)
    requires Good(Some(row), p, c) && row.status == Established && LookTruthful(p, c, row, look)
    requires revocation.prepared.Some? ==> revocation.prepared.value.hash !in p.revs
    requires OutcomeTruthful(p, revocation)
    ensures var d := Dispose(row, look, execute, revocation, base, c.now);
            Good(Kept(d.row), Swept(p, row, d, revocation), c)
  {
    KeptItself(p, c, row);
    OnlyRecordedIsLive(p, c, row);
    hide Good, DisposeRow, ClearIntent, Swept, CouldLand, OutcomeTruthful;
    if row.reclaimTx == None {
      DisposeRowKeeps(p, c, row, None, look, execute, revocation, base);
    } else if look.reclaimTx.Some? && !RevocationWaits(row, look, c.now) {
      DeadRevocation(p, c, row, look);
      hide LookTruthful, RevocationWaits;
      DisposeRowKeeps(p, c, row, row.reclaimTx, look, execute, revocation, base);
      DisposeClearedKeeps(p, c, row, look, execute, revocation, base);
    }
  }

  /** A row whose revocation is dead is disposed of with its intent dropped, or in a dry run as if it were. */
  lemma DisposeClearedKeeps(p: Place, c: Clock, row: Row, look: ReclaimReads, execute: bool, revocation: Revocation, base: nat)
    requires Good(Some(row), p, c) && row.status == Established && row.reclaimTx.Some? && row.reclaimTx.value in p.revs
    requires forall g :: g in p.revs ==> !CouldLand(p.revs[g].fate, p.revs[g].maxTime, c)
    requires revocation.prepared.Some? ==> revocation.prepared.value.hash !in p.revs
    requires look.chain.Some? ==> look.chain.value.live == p.account.live && look.chain.value.sponsored == p.account.sponsored
    requires OutcomeTruthful(p, revocation)
    ensures var d := DisposeRow(if execute then ClearIntent(row, row.reclaimTx.value) else row, None, look, execute, revocation, base);
            Good(Kept(d.row), Swept(p, row, d, revocation), c)
  {
    var cleared := ClearIntent(row, row.reclaimTx.value);
    ClearKeeps(p, c, row, row.reclaimTx.value);
    assert cleared.status == row.status && cleared.kind == row.kind;
    hide Good, DisposeRow, ClearIntent, CouldLand, OutcomeTruthful;
    if execute {
      DisposeRowKeeps(p, c, cleared, None, look, execute, revocation, base);
    } else {
      DisposeRowKeeps(p, c, row, None, look, execute, revocation, base);
    }
  }

  /** A recorded revocation that is not waited on can no longer land, and no other could. */
  lemma DeadRevocation(p: Place, c: Clock, row: Row, look: ReclaimReads)
    requires Good(Some(row), p, c) && row.status == Established && LookTruthful(p, c, row, look)
    requires row.reclaimTx.Some? && look.reclaimTx.Some? && !RevocationWaits(row, look, c.now)
    ensures row.reclaimTx.value in p.revs
    ensures forall g :: g in p.revs ==> !CouldLand(p.revs[g].fate, p.revs[g].maxTime, c)
  {
    RecordedExpiry(p, c, row);
    OnlyRecordedIsLive(p, c, row);
    hide Good;
  }

  lemma RecordedExpiry(p: Place, c: Clock, row: Row)
    requires Good(Some(row), p, c) && row.reclaimTx.Some?
    ensures row.reclaimTx.value in p.revs && row.reclaimExpiresAt == Some(p.revs[row.reclaimTx.value].maxTime)
  {
  }

  lemma KeptItself(p: Place, c: Clock, row: Row)
    requires Good(Some(row), p, c)
    ensures Kept(row) == Some(row)
  {
  }

  lemma ReclaimKeepsGood(m: Mode, p: Place, c: Clock, i: nat, look: ReclaimReads, execute: bool, revocation: Revocation, base: nat)
    requires PlaceInv(m, p, c) && CanReclaim(p, c, i, look, revocation)
    ensures var t := AfterReclaim(p, c, i, look, execute, revocation, base);
            OneOutstanding(t.rows) && Good(Cur(t.rows), t, c)
  {
    var row := p.rows[i];
    var d := Dispose(row, look, execute, revocation, base, c.now);
    CurIs(p.rows, i);
    CurGone(p.rows, i, d.row);
    if row.status == Awaiting {
      ReconcileKeeps(p, c, row, look, execute);
    } else {
      AwaitingOrEstablished(p, c, row);
      DisposeKeeps(p, c, row, look, execute, revocation, base);
    }
    assert row.status == Awaiting ==> d.sent == None;
    hide Good, Dispose, OneOutstanding, Cur, LookTruthful, Openings;
    PlaceApart(Kept(d.row), Swept(p, row, d, revocation), c, p.rows[i := d.row], p.requests);
  }

  /** A disposition settles a pending row only on proof, and never makes a row pending. */
  lemma DisposedRow(p: Place, c: Clock, row: Row, look: ReclaimReads, execute: bool, revocation: Revocation, base: nat)
    requires Good(Some(row), p, c) && LookTruthful(p, c, row, look)
    ensures var d := Dispose(row, look, execute, revocation, base, c.now);
            && d.row.txHash == row.txHash && (row.confirmedBefore ==> d.row.confirmedBefore)
            && (row.status == Established ==> d.row.status == Established)
            && (row.status == Awaiting ==> row.txHash in p.envs && d.sent == None && d.row.revoked == row.revoked)
            && (d.row.status == NeverLanded ==> Gone(p.envs[row.txHash], c))
            && (row.status == Awaiting && d.row != row ==> !CouldBeSent(p, c, row.txHash))
  {
    hide Revoke, Refusal;
    if row.status == Established {
      DisposedStays(row, look, execute, revocation, base);
      if row.reclaimTx.Some? {
        DisposedStays(ClearIntent(row, row.reclaimTx.value), look, execute, revocation, base);
      }
    }
  }

  lemma DisposedStays(row: Row, look: ReclaimReads, execute: bool, revocation: Revocation, base: nat)
    requires row.status == Established
    ensures forall landed: Option<Hash> ::
              var t := DisposeRow(row, landed, look, execute, revocation, base).row;
              t.status == Established && t.txHash == row.txHash && t.confirmedBefore == row.confirmedBefore
  {
    hide Refusal, UnitsOf, Still;
  }

  lemma ReclaimOpenings(m: Mode, p: Place, c: Clock, i: nat, look: ReclaimReads, execute: bool, revocation: Revocation, base: nat, o: Opened)
    requires PlaceInv(m, p, c) && CanReclaim(p, c, i, look, revocation) && o in p.requests
    ensures var t := AfterReclaim(p, c, i, look, execute, revocation, base);
            OpenAgrees(m, t.rows, t, c, o)
  {
    var row := p.rows[i];
    var d := Dispose(row, look, execute, revocation, base, c.now);
    assert OpenAgrees(m, p.rows, p, c, o);
    CurIs(p.rows, i);
    CurGone(p.rows, i, d.row);
    AwaitingOrEstablished(p, c, row);
    DisposedRow(p, c, row, look, execute, revocation, base);
    if OnRow(p.rows, o) {
      OnRowIsCur(m, p, c, o);
    }
    hide Good, Dispose, OneOutstanding, Cur, LookTruthful, Openings;
  }

  lemma ReclaimKeeps(m: Mode, p: Place, c: Clock, i: nat, look: ReclaimReads, execute: bool, revocation: Revocation, base: nat)
    requires PlaceInv(m, p, c) && CanReclaim(p, c, i, look, revocation)
    ensures PlaceInv(m, AfterReclaim(p, c, i, look, execute, revocation, base), c)
  {
    ReclaimKeepsGood(m, p, c, i, look, execute, revocation, base);
    var t := AfterReclaim(p, c, i, look, execute, revocation, base);
    assert t.requests == p.requests;
    hide AfterReclaim, Good, OneOutstanding, OpenAgrees, CanReclaim;
    forall o | o in t.requests ensures OpenAgrees(m, t.rows, t, c, o) {
      ReclaimOpenings(m, p, c, i, look, execute, revocation, base, o);
    }
  }

  lemma AwaitingOrEstablished(p: Place, c: Clock, row: Row)
    requires Good(Some(row), p, c)
    ensures row.status == Awaiting || row.status == Established
  {
  }

  // ----- every step keeps it -----

  /** An envelope in flight lands or fails: it was the pending row's. */
  lemma LedgerKeeps(m: Mode, p: Place, c: Clock, h: Hash)
    requires PlaceInv(m, p, c) && h in p.envs && CouldLand(p.envs[h].fate, p.envs[h].maxTime, c)
    ensures PlaceInv(m, p.(envs := p.envs[h := p.envs[h].(fate := Dead)]), c)
    ensures Applies(p.account, p.envs[h].kind) ==>
              PlaceInv(m, p.(account := Apply(p.account, p.envs[h].kind), envs := p.envs[h := p.envs[h].(fate := Landed)]), c)
  {
    LedgerKeepsGood(Cur(p.rows), p, c, h);
    var failed := p.(envs := p.envs[h := p.envs[h].(fate := Dead)]);
    var landed := p.(account := Apply(p.account, p.envs[h].kind), envs := p.envs[h := p.envs[h].(fate := Landed)]);
    forall o | o in p.requests ensures OpenAgrees(m, p.rows, failed, c, o) && OpenAgrees(m, p.rows, landed, c, o) {
      LedgerKeepsOpen(m, p, c, h, o);
    }
    hide Cur, OneOutstanding, Good, OpenAgrees;
  }

  lemma LedgerKeepsGood(cur: Option<Row>, p: Place, c: Clock, h: Hash)
    requires Good(cur, p, c) && h in p.envs && CouldLand(p.envs[h].fate, p.envs[h].maxTime, c)
    ensures Good(cur, p.(envs := p.envs[h := p.envs[h].(fate := Dead)]), c)
    ensures Applies(p.account, p.envs[h].kind) ==>
              Good(cur, p.(account := Apply(p.account, p.envs[h].kind), envs := p.envs[h := p.envs[h].(fate := Landed)]), c)
  {
    assert Carries(cur, h);
  }

  lemma LedgerKeepsOpen(m: Mode, p: Place, c: Clock, h: Hash, o: Opened)
    requires PlaceInv(m, p, c) && h in p.envs && CouldLand(p.envs[h].fate, p.envs[h].maxTime, c) && o in p.requests
    ensures OpenAgrees(m, p.rows, p.(envs := p.envs[h := p.envs[h].(fate := Dead)]), c, o)
    ensures OpenAgrees(m, p.rows, p.(account := Apply(p.account, p.envs[h].kind), envs := p.envs[h := p.envs[h].(fate := Landed)]), c, o)
  {
    assert Carries(Cur(p.rows), h) && OpenAgrees(m, p.rows, p, c, o);
    if OnRow(p.rows, o) {
      OnRowIsCur(m, p, c, o);
    }
    hide Cur, OneOutstanding, Good, Openings, Apply;
  }

  predicate NoRequest(step: Step) {
    step.RevocationLands? || step.RevocationFails? || step.OwnerFunds? || step.OwnerAddsTrustline?
    || step.OwnerRemovesTrustline? || step.OwnerMerges?
  }

  /** What is not a request, a disposition or an envelope's fate only takes sponsorship away. */
  lemma OwnerKeepsGood(m: Mode, p: Place, c: Clock, step: Step)
    requires Good(Cur(p.rows), p, c) && Enabled(m, p, c, step) && NoRequest(step)
    ensures var t := Effect(m, p, c, step);
            && t.rows == p.rows && t.envs == p.envs && t.requests == p.requests && Good(Cur(t.rows), t, c)
            && UnitsOf(t.account.sponsored) <= UnitsOf(p.account.sponsored)
  {
    hide Cur, AfterDecide, AfterAnswer, AfterReclaim, CanDecide, CanAnswer, CanReclaim;
  }

  lemma OwnerKeeps(m: Mode, p: Place, c: Clock, step: Step)
    requires PlaceInv(m, p, c) && Enabled(m, p, c, step) && NoRequest(step)
    ensures PlaceInv(m, Effect(m, p, c, step), c)
  {
    OwnerKeepsGood(m, p, c, step);
    var t := Effect(m, p, c, step);
    hide Cur, OneOutstanding, Good, Enabled, Effect, UnitsOf;
    forall o | o in t.requests ensures OpenAgrees(m, t.rows, t, c, o) {
      assert OpenAgrees(m, p.rows, p, c, o);
    }
  }

  /** An envelope just handed out is nobody's to send until a request has recorded it. */
  lemma HandOutKeeps(m: Mode, p: Place, c: Clock, intent: Intent)
    requires PlaceInv(m, p, c) && CanHandOut(m, p, c, intent)
    ensures PlaceInv(m, AfterHandOut(p, intent), c)
  {
    var t := AfterHandOut(p, intent);
    hide Cur, OneOutstanding;
    assert Good(Cur(t.rows), t, c);
    hide Good;
    forall o | o in t.requests ensures OpenAgrees(m, t.rows, t, c, o) {
      assert OpenAgrees(m, p.rows, p, c, o);
    }
  }

  /** And once one has, the contributor sends only what the pending row carries. */
  lemma SendKeeps(m: Mode, p: Place, c: Clock, h: Hash)
    requires PlaceInv(m, p, c) && CanSend(m, p, c, h) && (m.loose ==> !m.handsOut)
    ensures PlaceInv(m, p.(envs := p.envs[h := p.envs[h].(fate := InFlight)]), c)
  {
    var t := p.(envs := p.envs[h := p.envs[h].(fate := InFlight)]);
    assert Carries(Cur(p.rows), h);
    hide Cur, OneOutstanding;
    assert Good(Cur(t.rows), t, c);
    forall o | o in t.requests ensures OpenAgrees(m, t.rows, t, c, o) {
      assert OpenAgrees(m, p.rows, p, c, o);
    }
  }

  lemma DiesKeeps(m: Mode, p: Place, c: Clock, o: Opened)
    requires PlaceInv(m, p, c) && o in p.requests
    ensures PlaceInv(m, Closed(p, o), c)
  {
    PlaceApart(Cur(p.rows), p, c, p.rows, p.requests - multiset{o});
    ClosedOpenings(m, p, c, o);
    hide Good, Cur, OneOutstanding, Openings;
  }

  lemma ClosedOpenings(m: Mode, p: Place, c: Clock, o: Opened)
    requires Openings(m, p.rows, p, c) && o in p.requests
    ensures Openings(m, p.rows, Closed(p, o), c)
  {
    if !m.overlaps {
      LastOpened(p.requests, o);
    }
    hide OpenAgrees;
    forall q | q in Closed(p, o).requests ensures OpenAgrees(m, p.rows, Closed(p, o), c, q) {
      RequestsApart(m, p, c, p.requests - multiset{o}, q);
    }
  }

  lemma RequestsApart(m: Mode, p: Place, c: Clock, requests: multiset<Opened>, o: Opened)
    requires OpenAgrees(m, p.rows, p, c, o)
    ensures OpenAgrees(m, p.rows, p.(requests := requests), c, o)
  {
  }

  lemma OffersAreOffered(m: Mode, p: Place, c: Clock, o: Opened)
    requires PlaceInv(m, p, c) && o in p.requests
    ensures o.offered || m.handsOut
  {
    assert OpenAgrees(m, p.rows, p, c, o);
  }

  lemma StepKeeps(m: Mode, p: Place, c: Clock, step: Step)
    requires Careful(m) && PlaceInv(m, p, c) && Enabled(m, p, c, step)
    ensures PlaceInv(m, Effect(m, p, c, step), c)
  {
    hide PlaceInv, AfterDecide, AfterAnswer, AfterReclaim, AfterHandOut, CanDecide, CanReclaim, CanHandOut, CanSend, CouldLand, Applies, SafeToRelease;
    match step
    case HandOut(intent) => HandOutKeeps(m, p, c, intent);
    case ContributorSends(h) => SendKeeps(m, p, c, h);
    case Decide(intent, net) => DecideKeeps(m, p, c, intent, net);
    case Answered(o, b) =>
      OffersAreOffered(m, p, c, o);
      AnswerKeeps(m, p, c, o, b);
    case Dies(o) => DiesKeeps(m, p, c, o);
    case Reclaim(i, look, execute, revocation, base) => ReclaimKeeps(m, p, c, i, look, execute, revocation, base);
    case EnvelopeLands(h) => LedgerKeeps(m, p, c, h);
    case EnvelopeFails(h) => LedgerKeeps(m, p, c, h);
    case _ => OwnerKeeps(m, p, c, step);
  }

  /** Time only takes envelopes past their bounds. */
  lemma TickKeeps(m: Mode, p: Place, c: Clock, d: Clock)
    requires PlaceInv(m, p, c) && c.ledger <= d.ledger
    ensures PlaceInv(m, p, d)
  {
    hide Cur, OneOutstanding;
    forall o | o in p.requests ensures OpenAgrees(m, p.rows, p, d, o) {
      assert OpenAgrees(m, p.rows, p, c, o);
    }
  }

  // ----- whole runs -----

  ghost predicate SystemInv(m: Mode, s: System) {
    forall i :: 0 <= i < |s.places| ==> PlaceInv(m, s.places[i], s.clock)
  }

  lemma {:induction false} RunKeeps(m: Mode, states: seq<System>, labels: seq<Label>, k: nat)
    requires Careful(m) && Run(m, states, labels) && k < |states|
    ensures SystemInv(m, states[k])
    decreases k
  {
    if k > 0 {
      RunKeeps(m, states, labels, k - 1);
      var s, l := states[k - 1], labels[k - 1];
      assert Next(m, s, l, states[k]);
      hide PlaceInv, Enabled, Effect;
      if l.At? {
        StepKeeps(m, s.places[l.i], s.clock, l.step);
      } else {
        forall i | 0 <= i < |s.places| ensures PlaceInv(m, s.places[i], l.clock) {
          TickKeeps(m, s.places[i], s.clock, l.clock);
        }
      }
    }
  }

  /** The reserve the address's outstanding row stands for. */
  function RowUnits(rows: seq<Row>): nat {
    if Cur(rows) == None then 0 else ReserveUnits(Cur(rows).value.kind)
  }

  predicate Understated(p: Place) {
    UnitsOf(p.account.sponsored) > RowUnits(p.rows)
  }

  /** In every reachable state the address's row covers all that is sponsored there, and a sponsored account has its own kind of row. */
  lemma ReserveNeverUnderstated(m: Mode, states: seq<System>, labels: seq<Label>, k: nat, i: nat)
    requires Careful(m) && Run(m, states, labels) && k < |states| && i < |states[k].places|
    ensures var p := states[k].places[i];
            && !Understated(p) && OneOutstanding(p.rows)
            && (p.account.sponsored.account ==> Cur(p.rows).Some? && Cur(p.rows).value.kind == AccountAndTrustline)
  {
    RunKeeps(m, states, labels, k);
    assert PlaceInv(m, states[k].places[i], states[k].clock);
  }

  /** Could this envelope still reach the ledger, by the server's hand or by its holder's? */
  predicate StillLive(m: Mode, env: Envelope, c: Clock) {
    c.ledger <= env.maxTime && (env.fate == InFlight || (env.fate == Idle && env.handed && (env.submitted || m.loose)))
  }

  /** In a careful mode that is an envelope the pending row carries. */
  lemma StillLiveIsCarried(m: Mode, p: Place, c: Clock, h: Hash)
    requires (m.loose ==> !m.handsOut) && PlaceInv(m, p, c) && h in p.envs && StillLive(m, p.envs[h], c)
    ensures Carries(Cur(p.rows), h)
  {
  }

  /** Two different sponsorship envelopes of an address are never both still able to land. */
  lemma AtMostOneLiveEnvelope(m: Mode, states: seq<System>, labels: seq<Label>, k: nat, i: nat, g: Hash, h: Hash)
    requires Careful(m) && Run(m, states, labels) && k < |states| && i < |states[k].places|
    requires var p, c := states[k].places[i], states[k].clock;
             && g in p.envs && StillLive(m, p.envs[g], c) && h in p.envs && StillLive(m, p.envs[h], c)
    ensures g == h
  {
    RunKeeps(m, states, labels, k);
    var p, c := states[k].places[i], states[k].clock;
    assert PlaceInv(m, p, c);
    StillLiveIsCarried(m, p, c, g);
    StillLiveIsCarried(m, p, c, h);
  }

  /** At most one revocation is ever live, and it is recorded on the address's confirmed row. */
  lemma AtMostOneLiveRevocation(m: Mode, states: seq<System>, labels: seq<Label>, k: nat, i: nat, g: Hash)
    requires Careful(m) && Run(m, states, labels) && k < |states| && i < |states[k].places|
    requires var p, c := states[k].places[i], states[k].clock;
             g in p.revs && CouldLand(p.revs[g].fate, p.revs[g].maxTime, c)
    ensures var p, c := states[k].places[i], states[k].clock;
            && Cur(p.rows).Some? && Cur(p.rows).value.reclaimTx == Some(g)
            && (forall f :: f in p.revs && CouldLand(p.revs[f].fate, p.revs[f].maxTime, c) ==> f == g)
            && (forall h :: h in p.envs ==> !StillLive(m, p.envs[h], c))
  {
    RunKeeps(m, states, labels, k);
    var p, c := states[k].places[i], states[k].clock;
    assert PlaceInv(m, p, c);
    assert Reclaims(Cur(p.rows), g);
    forall h | h in p.envs ensures !StillLive(m, p.envs[h], c) {
      if StillLive(m, p.envs[h], c) {
        StillLiveIsCarried(m, p, c, h);
      }
    }
  }
}
