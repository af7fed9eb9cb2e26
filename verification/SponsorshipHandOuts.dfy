/**
 Why no check of the address's row makes handing out a signed envelope safe: from any
 state in which the route would hand one out, its holder can leave the sponsor paying a
 reserve no row stands for, with no request, no broadcast of the server's and no other
 transaction of the sponsor's in between.
 */
module SponsorshipHandOuts {
  import opened Wrappers
  import opened StellarChain
  import opened SponsorshipRows
  import opened SponsorshipReclaim
  import opened SponsorshipProtocol
  import opened SponsorshipSafety

  // ----- from one state to another -----

  ghost predicate Path(m: Mode, states: seq<System>, labels: seq<Label>) {
    && |states| == |labels| + 1
    && forall i :: 0 <= i < |labels| ==> Next(m, states[i], labels[i], states[i + 1])
  }

  ghost predicate PathBetween(m: Mode, states: seq<System>, labels: seq<Label>, c: Clock, p: Place, d: Clock, q: Place) {
    Path(m, states, labels) && states[0] == System(c, [p]) && states[|states| - 1] == System(d, [q])
  }

  /** Some steps of this one address, and some time, lead from the first state to the second. */
  ghost predicate Leads(m: Mode, c: Clock, p: Place, d: Clock, q: Place) {
    exists states: seq<System>, labels: seq<Label> :: PathBetween(m, states, labels, c, p, d, q)
  }

  lemma LeadsNowhere(m: Mode, c: Clock, p: Place)
    ensures Leads(m, c, p, c, p)
  {
    assert PathBetween(m, [System(c, [p])], [], c, p, c, p);
  }

  lemma LeadsOn(m: Mode, c: Clock, p: Place, d: Clock, q: Place, l: Label, e: Clock, r: Place)
    requires Leads(m, c, p, d, q) && Next(m, System(d, [q]), l, System(e, [r]))
    ensures Leads(m, c, p, e, r)
  {
    var states: seq<System>, labels: seq<Label> :| PathBetween(m, states, labels, c, p, d, q);
    var more, all := states + [System(e, [r])], labels + [l];
    hide Next;
    forall i | 0 <= i < |all| ensures Next(m, more[i], all[i], more[i + 1]) {
      if i < |labels| {
        assert Next(m, states[i], labels[i], states[i + 1]);
      }
    }
    assert PathBetween(m, more, all, c, p, e, r);
  }

  lemma Then(m: Mode, c: Clock, p: Place, d: Clock, q: Place, step: Step)
    requires Leads(m, c, p, d, q) && Enabled(m, q, d, step)
    ensures Leads(m, c, p, d, Effect(m, q, d, step))
  {
    var t := Effect(m, q, d, step);
    hide Enabled, Effect, Leads;
    assert Next(m, System(d, [q]), At(0, step), System(d, [t]));
    LeadsOn(m, c, p, d, q, At(0, step), d, t);
  }

  lemma ThenWait(m: Mode, c: Clock, p: Place, d: Clock, q: Place, e: Clock)
    requires Leads(m, c, p, d, q) && d.now <= e.now && d.ledger <= e.ledger
    ensures Leads(m, c, p, e, q)
  {
    hide Leads;
    LeadsOn(m, c, p, d, q, Tick(e), e, q);
  }

  // ----- an envelope waiting in its holder's hands -----

  predicate NoLiveRevocation(p: Place, c: Clock) {
    forall g :: g in p.revs ==> !CouldLand(p.revs[g].fate, p.revs[g].maxTime, c)
  }

  /** The envelope is unrecorded, in time and would apply, and nothing else is going on. */
  ghost predicate Waiting(m: Mode, p: Place, c: Clock, h: Hash) {
    && PlaceInv(m, p, c) && NoLiveRevocation(p, c)
    && h in p.envs && p.envs[h].fate == Idle && p.envs[h].handed && !p.envs[h].submitted
    && c.ledger <= p.envs[h].maxTime && Applies(p.account, p.envs[h].kind)
  }

  lemma HandOutWaits(m: Mode, p: Place, c: Clock, intent: Intent)
    requires PlaceInv(m, p, c) && NoLiveRevocation(p, c) && CanHandOut(m, p, c, intent) && c.ledger <= intent.expiresAt
    ensures Waiting(m, AfterHandOut(p, intent), c, intent.txHash)
  {
    HandOutKeeps(m, p, c, intent);
    hide PlaceInv;
  }

  /** The owner can rid the account of whatever the sponsor still pays for, leaving it as it was otherwise. */
  lemma Unsponsors(m: Mode, c0: Clock, p0: Place, c: Clock, p: Place, h: Hash) returns (q: Place)
    requires Leads(m, c0, p0, c, p) && Waiting(m, p, c, h)
    ensures Leads(m, c0, p0, c, q) && Waiting(m, q, c, h) && UnitsOf(q.account.sponsored) == 0
    ensures q.rows == p.rows && q.envs == p.envs && q.revs == p.revs
  {
    if UnitsOf(p.account.sponsored) == 0 {
      q := p;
    } else {
      assert Coherent(p.account) && p.account.live && !p.account.trustline;
      hide Leads, PlaceInv;
      var merged := Account(false, false, Entries(false, false));
      OwnerKeeps(m, p, c, OwnerMerges);
      Then(m, c0, p0, c, p, OwnerMerges);
      var r := p.(account := merged);
      OwnerKeeps(m, r, c, OwnerFunds);
      Then(m, c0, p0, c, r, OwnerFunds);
      q := r.(account := merged.(live := true));
    }
  }

  /** What reclaim reads of such an address. */
  function Reads(own: Option<TxStatus>, revoked: Option<TxStatus>, a: Account): ReclaimReads {
    ReclaimReads(own, revoked, Some(ChainRead(a.live, a.sponsored, 0, 0, 0, 0)), Some(Entries(false, false)),
                 Owed(false, false, false, false, 0))
  }

  /** One execute disposition of the outstanding row. */
  lemma ReclaimsOnce(m: Mode, c0: Clock, p0: Place, c: Clock, p: Place, h: Hash, look: ReclaimReads) returns (q: Place)
    requires Leads(m, c0, p0, c, p) && Waiting(m, p, c, h) && UnitsOf(p.account.sponsored) == 0 && Current(p.rows).Some?
    requires look.chain == Some(ChainRead(p.account.live, p.account.sponsored, 0, 0, 0, 0))
    requires LookTruthful(p, c, Cur(p.rows).value, look)
    ensures var row := Cur(p.rows).value;
            var d := Dispose(row, look, true, Revocation(None, None), 0, c.now);
            && Leads(m, c0, p0, c, q) && Waiting(m, q, c, h)
            && q == p.(rows := p.rows[Current(p.rows).value := d.row]) && Cur(q.rows) == Kept(d.row)
  {
    var i := Current(p.rows).value;
    var step := Reclaim(i, look, true, Revocation(None, None), 0);
    var d := Dispose(p.rows[i], look, true, Revocation(None, None), 0, c.now);
    NothingSent(p.rows[i], look, c.now);
    CurGone(p.rows, i, d.row);
    q := p.(rows := p.rows[i := d.row]);
    hide Leads, Dispose, OneOutstanding, Good, Openings, LookTruthful;
    assert CanReclaim(p, c, i, look, Revocation(None, None));
    assert AfterReclaim(p, c, i, look, true, Revocation(None, None), 0) == q;
    ReclaimKeeps(m, p, c, i, look, true, Revocation(None, None), 0);
    Then(m, c0, p0, c, p, step);
  }

  lemma NothingSent(row: Row, look: ReclaimReads, now: Time)
    ensures Dispose(row, look, true, Revocation(None, None), 0, now).sent == None
  {
  }

  /** A confirmed row with nothing sponsored behind it is released, whatever became of an earlier revocation. */
  lemma ReleasesConfirmed(m: Mode, c0: Clock, p0: Place, c: Clock, p: Place, h: Hash) returns (d: Clock, q: Place)
    requires Leads(m, c0, p0, c, p) && Waiting(m, p, c, h) && UnitsOf(p.account.sponsored) == 0
    requires Cur(p.rows).Some? && Cur(p.rows).value.status == Established
    ensures Leads(m, c0, p0, d, q) && Waiting(m, q, d, h) && Cur(q.rows) == None
  {
    var row := Cur(p.rows).value;
    d := c;
    var status: Option<TxStatus> := None;
    if row.reclaimTx.Some? {
      var sent := RecordedRevocation(m, p, c, row);
      if sent.fate == Landed {
        status := Some(TxStatus.Confirmed);
      } else if sent.fate == Dead {
        status := Some(TxStatus.Failed);
      } else {
        status := Some(NotFound);
        d := Clock(if c.now > sent.maxTime then c.now else sent.maxTime + 1, c.ledger);
        WaitKeepsWaiting(m, p, c, d, h);
        hide Leads;
        ThenWait(m, c0, p0, c, p, d);
      }
    }
    var look := Reads(None, status, p.account);
    ConfirmedIsReleased(row, look, d.now);
    hide Leads, Waiting, Dispose, PlaceInv, Good;
    q := ReclaimsOnce(m, c0, p0, d, p, h, look);
  }

  lemma RecordedRevocation(m: Mode, p: Place, c: Clock, row: Row) returns (sent: Sent)
    requires PlaceInv(m, p, c) && NoLiveRevocation(p, c) && Cur(p.rows) == Some(row) && row.reclaimTx.Some?
    ensures row.reclaimTx.value in p.revs && sent == p.revs[row.reclaimTx.value] && row.reclaimExpiresAt == Some(sent.maxTime)
    ensures sent.fate != Idle && (sent.fate == InFlight ==> c.ledger > sent.maxTime)
  {
    sent := p.revs[row.reclaimTx.value];
  }

  lemma WaitKeepsWaiting(m: Mode, p: Place, c: Clock, d: Clock, h: Hash)
    requires Waiting(m, p, c, h) && c.ledger <= d.ledger <= p.envs[h].maxTime
    ensures Waiting(m, p, d, h)
  {
    TickKeeps(m, p, c, d);
    hide PlaceInv;
  }

  lemma ConfirmedIsReleased(row: Row, look: ReclaimReads, now: Time)
    requires Outstanding(row) && row.status == Established
    requires look.chain.Some? && look.chain.value.stray == 0 && UnitsOf(look.chain.value.sponsored) == 0 && look.carried.Some?
    requires row.reclaimTx.Some? ==>
               look.reclaimTx.Some? && (look.reclaimTx.value == NotFound ==> Expired(row.reclaimExpiresAt, now))
    ensures !Outstanding(Dispose(row, look, true, Revocation(None, None), 0, now).row)
  {
  }

  /** A pending row is settled: confirmed if its envelope landed, and otherwise failed, if need be once that one's bound has passed. */
  lemma SettlesPending(m: Mode, c0: Clock, p0: Place, c: Clock, p: Place, h: Hash) returns (d: Clock, q: Place)
    requires Leads(m, c0, p0, c, p) && Waiting(m, p, c, h) && UnitsOf(p.account.sponsored) == 0
    requires Cur(p.rows).Some? && Cur(p.rows).value.status == Awaiting
    requires Cur(p.rows).value.expiresAt.Some? ==> Cur(p.rows).value.expiresAt.value < p.envs[h].maxTime
    ensures Leads(m, c0, p0, d, q) && Waiting(m, q, d, h) && UnitsOf(q.account.sponsored) == 0
    ensures Cur(q.rows) == None || Cur(q.rows).value.status == Established
  {
    var row := Cur(p.rows).value;
    var env := PendingEnvelope(m, p, c, row);
    d := c;
    var status := TxStatus.Confirmed;
    if env.fate == Dead {
      status := TxStatus.Failed;
    } else if env.fate != Landed {
      status := NotFound;
      d := Clock(if c.now > env.maxTime then c.now else env.maxTime + 1, if c.ledger > env.maxTime then c.ledger else env.maxTime + 1);
      WaitKeepsWaiting(m, p, c, d, h);
      hide Leads;
      ThenWait(m, c0, p0, c, p, d);
    }
    var look := Reads(Some(status), None, p.account);
    PendingIsSettled(row, look, d.now);
    hide Leads, Waiting, Dispose, PlaceInv, Good;
    q := ReclaimsOnce(m, c0, p0, d, p, h, look);
  }

  lemma PendingEnvelope(m: Mode, p: Place, c: Clock, row: Row) returns (env: Envelope)
    requires PlaceInv(m, p, c) && Cur(p.rows) == Some(row) && row.status == Awaiting
    ensures row.txHash in p.envs && env == p.envs[row.txHash] && row.expiresAt == Some(env.maxTime) && row.reclaimTx == None
  {
    env := p.envs[row.txHash];
  }

  lemma PendingIsSettled(row: Row, look: ReclaimReads, now: Time)
    requires Outstanding(row) && row.status == Awaiting
    requires look.chain.Some? && UnitsOf(look.chain.value.sponsored) == 0
    requires look.ownTx.Some? && (look.ownTx.value == NotFound ==> Expired(row.expiresAt, now))
    ensures var t := Dispose(row, look, true, Revocation(None, None), 0, now).row;
            Kept(t) == None || t.status == Established
  {
  }

  /** With no row left the holder sends the envelope, and it lands. */
  lemma SendsUnrecorded(m: Mode, c0: Clock, p0: Place, c: Clock, p: Place, h: Hash) returns (q: Place)
    requires m.loose && Leads(m, c0, p0, c, p) && Waiting(m, p, c, h) && Cur(p.rows) == None
    ensures Leads(m, c0, p0, c, q) && Understated(q)
  {
    hide Leads, PlaceInv, Cur;
    Then(m, c0, p0, c, p, ContributorSends(h));
    var r := p.(envs := p.envs[h := p.envs[h].(fate := InFlight)]);
    Then(m, c0, p0, c, r, EnvelopeLands(h));
    q := Effect(m, r, c, EnvelopeLands(h));
  }

  /** Revocations in flight run out before the envelope does: both live as long from when they were built. */
  predicate RevokesEarlier(p: Place, c: Clock, maxTime: Time) {
    forall g :: g in p.revs && CouldLand(p.revs[g].fate, p.revs[g].maxTime, c) ==> p.revs[g].maxTime < maxTime
  }

  /** A clock at which no revocation is live any more, and the envelope is still in time. */
  lemma Outwaits(m: Mode, p: Place, c: Clock, maxTime: Time) returns (d: Clock)
    requires PlaceInv(m, p, c) && RevokesEarlier(p, c, maxTime) && c.ledger <= maxTime
    ensures d.now == c.now && c.ledger <= d.ledger <= maxTime && NoLiveRevocation(p, d) && PlaceInv(m, p, d)
  {
    d := c;
    if !NoLiveRevocation(p, c) {
      var g :| g in p.revs && CouldLand(p.revs[g].fate, p.revs[g].maxTime, c);
      assert Reclaims(Cur(p.rows), g);
      assert forall f :: f in p.revs && CouldLand(p.revs[f].fate, p.revs[f].maxTime, c) ==> f == g;
      d := Clock(c.now, p.revs[g].maxTime + 1);
    }
    TickKeeps(m, p, c, d);
  }

  /**
   Whatever the address's row, where the route would hand an envelope out: from there the
   sponsor can be left paying a reserve that no row stands for.
   */
  lemma HandOutNeverSafe(m: Mode, p: Place, c: Clock, intent: Intent) returns (d: Clock, q: Place)
    requires m.loose && PlaceInv(m, p, c) && CanHandOut(m, p, c, intent)
    requires c.ledger <= intent.expiresAt && RevokesEarlier(p, c, intent.expiresAt)
    ensures Leads(m, c, AfterHandOut(p, intent), d, q) && Understated(q)
  {
    var h, start := intent.txHash, AfterHandOut(p, intent);
    d := Outwaits(m, p, c, intent.expiresAt);
    assert CanHandOut(m, p, d, intent);
    HandOutWaits(m, p, d, intent);
    LeadsNowhere(m, c, start);
    PendingHasExpired(m, p, c, intent);
    hide Leads, Waiting, PlaceInv, CanHandOut, Cur;
    ThenWait(m, c, start, c, start, d);
    q := Unsponsors(m, c, start, d, start, h);
    if Cur(q.rows).Some? && Cur(q.rows).value.status == Awaiting {
      d, q := SettlesPending(m, c, start, d, q, h);
    }
    if Cur(q.rows).Some? {
      EstablishedOrAwaiting(m, q, d, h);
      d, q := ReleasesConfirmed(m, c, start, d, q, h);
    }
    q := SendsUnrecorded(m, c, start, d, q, h);
  }

  lemma PendingHasExpired(m: Mode, p: Place, c: Clock, intent: Intent)
    requires CanHandOut(m, p, c, intent)
    ensures Cur(p.rows).Some? && Cur(p.rows).value.status == Awaiting && Cur(p.rows).value.expiresAt.Some? ==>
              Cur(p.rows).value.expiresAt.value < intent.expiresAt
  {
  }

  lemma EstablishedOrAwaiting(m: Mode, p: Place, c: Clock, h: Hash)
    requires Waiting(m, p, c, h) && Cur(p.rows).Some?
    ensures Cur(p.rows).value.status == Established || Cur(p.rows).value.status == Awaiting
  {
  }
}
