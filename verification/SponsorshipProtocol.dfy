/**
 Sponsored reserves as a step system: requests, reclaim dispositions, the address's
 owner and the ledger, in any order. A request is two steps, its decision and the
 answer to its broadcast, with anything in between, other requests included. An envelope
 is either an offer, which the sponsor signs inside the request that broadcasts it, or
 handed out with the sponsor's signature, so that whoever holds it can broadcast it too.
 */
module SponsorshipProtocol {
  import opened Wrappers
  import opened StellarChain
  import opened SponsorshipRows
  import opened SponsorshipReclaim

  /** `Idle` is signed but not on its way: never sent, or refused before it reached a ledger. */
  datatype Fate = Idle | InFlight | Landed | Dead
  /** `handed`: handed out signed by the sponsor. `submitted`: some request has decided to submit it. */
  datatype Envelope = Envelope(kind: Kind, maxTime: Time, fate: Fate, handed: bool, submitted: bool)
  datatype Sent = Sent(entries: Entries, maxTime: Time, fate: Fate)

  /** The address on the chain: its USDC trustline, and which entries the sponsor pays for. */
  datatype Account = Account(live: bool, trustline: bool, sponsored: Entries)

  /**
   A request that has decided to submit and whose broadcast is not answered yet: its row,
   its envelope, whether it came as an offer, whether that row carried it already, and
   whether it had been confirmed before.
   */
  datatype Opened = Opened(id: nat, hash: Hash, offered: bool, resubmits: bool, reopened: bool)

  /** One address: its rows, its account, every envelope and revocation ever built for it, and its open requests. */
  datatype Place = Place(rows: seq<Row>, account: Account, envs: map<Hash, Envelope>, revs: map<Hash, Sent>,
                         requests: multiset<Opened>)

  /** The host's clock, and the close time of the latest ledger. */
  datatype Clock = Clock(now: Time, ledger: Time)

  /**
   What a request can tell when its broadcast did not land and it is about to release its
   row. `badSequence`: the refusal was a spent sequence number, not of the fee bump.
   `offered`, `resubmits` and `reopened`: what it saw when it decided. `pastBound`: a ledger
   has closed past the envelope's bound.
   */
  datatype Evidence = Evidence(badSequence: bool, offered: bool, resubmits: bool, reopened: bool, pastBound: bool)

  /**
   What the code does. `releasesOn`: on which evidence a request may release its row; the
   source releases it on all of them. `handsOut`: whether envelopes are handed out signed,
   as the source's GET does, or as offers only.

   And where it runs. `overlaps`: whether a request may decide while another of its address
   is open. `loose`: whether a contributor may broadcast an envelope it was handed before
   any request has recorded it.
   */
  datatype Mode = Mode(releasesOn: set<Evidence>, handsOut: bool, overlaps: bool, loose: bool)

  /**
   How a broadcast ended within its request. `Refused` is a definite refusal, which may be
   of the fee bump and then says nothing of the envelope inside it; `BadSequence` one
   after which Horizon did not show the envelope applied. `settled`: whether the
   best-effort write of the result landed.
   */
  datatype Broadcast =
    | Landing(settled: bool)
    | SeenLanded(settled: bool)
    | SeenFailed(settled: bool)
    | Refused(settled: bool)
    | BadSequence(settled: bool)
    | NoAnswer

  datatype Step =
    | HandOut(intent: Intent)
    | ContributorSends(h: Hash)
    | Decide(intent: Intent, net: seq<IntentReads>)
    | Answered(o: Opened, broadcast: Broadcast)
    | Dies(o: Opened)
    | Reclaim(i: nat, look: ReclaimReads, execute: bool, revocation: Revocation, base: nat)
    | EnvelopeLands(h: Hash)
    | EnvelopeFails(h: Hash)
    | RevocationLands(g: Hash)
    | RevocationFails(g: Hash)
    | OwnerFunds
    | OwnerAddsTrustline
    | OwnerRemovesTrustline
    | OwnerMerges

  predicate Coherent(a: Account) {
    (a.sponsored.trustline ==> a.trustline) && (a.sponsored.account ==> a.live) && (a.trustline ==> a.live)
  }

  predicate CouldLand(fate: Fate, maxTime: Time, c: Clock) {
    fate == InFlight && c.ledger <= maxTime
  }

  /** Would this sponsorship apply to the account as it is? */
  predicate Applies(a: Account, kind: Kind) {
    if kind == Trustline then a.live && !a.trustline else !a.live
  }

  function Apply(a: Account, kind: Kind): Account {
    Account(true, true, Entries(true, a.sponsored.account || kind == AccountAndTrustline))
  }

  function Without(e: Entries, gone: Entries): Entries {
    Entries(e.trustline && !gone.trustline, e.account && !gone.account)
  }

  /** Horizon's answer is true, and an absence past the row's expiry is final. */
  predicate TellsTruth(status: TxStatus, fate: Fate, maxTime: Time, expired: bool, c: Clock) {
    match status
    case Confirmed => fate == Landed
    case Failed => fate == Dead
    case NotFound => expired ==> fate != Landed && c.ledger > maxTime
  }

  // ----- a request -----

  /** The address's outstanding row, if any. */
  function Cur(rows: seq<Row>): Option<Row> {
    var i := Current(rows);
    if i == None then None else Some(rows[i.value])
  }

  predicate PassTruthful(p: Place, rows: seq<Row>, c: Clock, net: IntentReads) {
    && (net.chain.Some? ==> net.chain.value == OnChain(p.account.trustline, p.account.sponsored))
    && var cur := Cur(rows);
       cur.Some? && cur.value.status == Awaiting && net.prior.Some? ==>
         cur.value.txHash in p.envs
         && TellsTruth(net.prior.value, p.envs[cur.value.txHash].fate, p.envs[cur.value.txHash].maxTime,
                       Expired(cur.value.expiresAt, c.now), c)
  }

  /** An envelope seen before is the same envelope. */
  predicate SameEnvelope(p: Place, intent: Intent) {
    intent.txHash in p.envs ==> p.envs[intent.txHash].kind == intent.kind && p.envs[intent.txHash].maxTime == intent.expiresAt
  }

  function Known(p: Place, intent: Intent): Envelope {
    if intent.txHash in p.envs then p.envs[intent.txHash].(submitted := true)
    else Envelope(intent.kind, intent.expiresAt, Idle, false, true)
  }

  predicate CanBroadcast(p: Place, c: Clock, env: Envelope, b: Broadcast) {
    match b
    case Landing(_) =>
      (env.fate == Idle || env.fate == InFlight) && c.ledger <= env.maxTime && Applies(p.account, env.kind)
    case SeenLanded(_) => env.fate == Landed
    case SeenFailed(_) => env.fate == Dead
    case _ => true
  }

  /** Does this outcome release the row without the envelope's own fate being known? */
  predicate GivesUp(b: Broadcast) {
    (b.Refused? || b.BadSequence?) && b.settled
  }

  predicate Carries(cur: Option<Row>, h: Hash) {
    cur.Some? && cur.value.status == Awaiting && cur.value.txHash == h
  }

  /** The row already stands for this envelope, so the decision writes nothing and submits it again. */
  predicate Resubmits(cur: Option<Row>, intent: Intent) {
    Carries(cur, intent.txHash) && cur.value.user == intent.user
  }

  function EvidenceOf(p: Place, c: Clock, o: Opened, badSequence: bool): Evidence {
    Evidence(badSequence, o.offered, o.resubmits, o.reopened, o.hash in p.envs && c.ledger > p.envs[o.hash].maxTime)
  }

  /** A spent sequence number can land no more. */
  function Spent(fate: Fate): Fate {
    if fate == Landed then Landed else Dead
  }

  /** `confirmSponsorship`, which the unique index refuses when the row would be a second outstanding one. */
  function ConfirmIndexed(rows: seq<Row>, i: nat, h: Hash): seq<Row> {
    if i < |rows| && !Outstanding(rows[i]) && !rows[i].revoked && Current(rows).Some? then rows else ConfirmRow(rows, i, h)
  }

  function AfterBroadcast(p: Place, i: nat, h: Hash, env: Envelope, b: Broadcast): Place {
    match b
    case Landing(settled) =>
      p.(account := Apply(p.account, env.kind), envs := p.envs[h := env.(fate := Landed)],
         rows := if settled then ConfirmIndexed(p.rows, i, h) else p.rows)
    case SeenLanded(settled) => p.(envs := p.envs[h := env], rows := if settled then ConfirmIndexed(p.rows, i, h) else p.rows)
    case SeenFailed(settled) => p.(envs := p.envs[h := env], rows := if settled then FailRow(p.rows, i, h) else p.rows)
    case Refused(settled) => p.(envs := p.envs[h := env], rows := if settled then FailRow(p.rows, i, h) else p.rows)
    case BadSequence(settled) =>
      p.(envs := p.envs[h := env.(fate := Spent(env.fate))], rows := if settled then FailRow(p.rows, i, h) else p.rows)
    case NoAnswer => p.(envs := p.envs[h := env.(fate := if env.fate == Idle then InFlight else env.fate)])
  }

  /** `livePendingSponsorship`: an earlier envelope is pending and could still land. */
  predicate LivePending(row: Row, now: Time) {
    row.status == Awaiting && row.expiresAt.Some? && row.expiresAt.value > now
  }

  /** GET: for an address with no trustline, held by nobody else and with nothing pending, the envelope it needs. */
  predicate CanHandOut(m: Mode, p: Place, c: Clock, intent: Intent) {
    && m.handsOut && intent.txHash !in p.envs && c.now < intent.expiresAt
    && !p.account.trustline && intent.kind == (if p.account.live then Trustline else AccountAndTrustline)
    && var cur := Cur(p.rows);
       cur.Some? ==> cur.value.user == intent.user && !LivePending(cur.value, c.now)
  }

  function AfterHandOut(p: Place, intent: Intent): Place {
    p.(envs := p.envs[intent.txHash := Envelope(intent.kind, intent.expiresAt, Idle, true, false)])
  }

  /** Whoever holds a signed envelope can send it straight to the network. */
  predicate CanSend(m: Mode, p: Place, c: Clock, h: Hash) {
    && h in p.envs && p.envs[h].handed && (p.envs[h].submitted || m.loose)
    && p.envs[h].fate == Idle && c.ledger <= p.envs[h].maxTime
  }

  predicate CanDecide(m: Mode, p: Place, c: Clock, intent: Intent, net: seq<IntentReads>) {
    && |net| == INTENT_ATTEMPTS && SameEnvelope(p, intent) && (!m.overlaps ==> p.requests == multiset{})
    && forall k :: 0 <= k < |net| ==> PassTruthful(p, p.rows, c, net[k])
  }

  /** The request that deciding opens. */
  function OpenedBy(p: Place, d: Decided, intent: Intent): Opened
    requires d.decision.Submit?
  {
    Opened(d.decision.id, intent.txHash, !Known(p, intent).handed, Resubmits(Cur(p.rows), intent),
           Cur(d.rows).Some? && Cur(d.rows).value.confirmedBefore)
  }

  /** The envelope is on the books before it is broadcast. */
  function OnBooks(p: Place, intent: Intent): Place {
    p.(envs := p.envs[intent.txHash := Known(p, intent)])
  }

  function AfterDecide(p: Place, c: Clock, intent: Intent, net: seq<IntentReads>): Place {
    var d := OpenIntent(p.rows, intent, net, c.now);
    if d.decision.Submit? then OnBooks(p, intent).(rows := d.rows, requests := p.requests + multiset{OpenedBy(p, d, intent)})
    else p.(rows := d.rows)
  }

  predicate CanAnswer(m: Mode, p: Place, c: Clock, o: Opened, b: Broadcast) {
    && o in p.requests && o.hash in p.envs && CanBroadcast(p, c, p.envs[o.hash], b)
    && (GivesUp(b) ==> EvidenceOf(p, c, o, b.BadSequence?) in m.releasesOn)
  }

  function Closed(p: Place, o: Opened): Place {
    p.(requests := p.requests - multiset{o})
  }

  function AfterAnswer(p: Place, o: Opened, b: Broadcast): Place
    requires o.hash in p.envs
  {
    AfterBroadcast(Closed(p, o), o.id, o.hash, p.envs[o.hash], b)
  }

  // ----- a disposition -----

  predicate LookTruthful(p: Place, c: Clock, row: Row, look: ReclaimReads) {
    && (look.chain.Some? ==> look.chain.value.live == p.account.live && look.chain.value.sponsored == p.account.sponsored)
    && (look.ownTx.Some? && row.status == Awaiting ==>
          row.txHash in p.envs
          && TellsTruth(look.ownTx.value, p.envs[row.txHash].fate, p.envs[row.txHash].maxTime, Expired(row.expiresAt, c.now), c))
    && (look.reclaimTx.Some? && row.reclaimTx.Some? ==>
          row.reclaimTx.value in p.revs
          && TellsTruth(look.reclaimTx.value, p.revs[row.reclaimTx.value].fate, p.revs[row.reclaimTx.value].maxTime,
                        Expired(row.reclaimExpiresAt, c.now), c))
  }

  /** What became of a submitted revocation within its disposition. */
  function FateOf(o: Option<RevokeOutcome>): Fate {
    if o == None then InFlight
    else
      match o.value
      case Applied => Landed
      case StaleSequence(None) => InFlight
      case StaleSequence(Some(status)) => if status == TxStatus.Confirmed then Landed else Dead
      case Unknown => InFlight
      case _ => Dead
  }

  /** A chain read after a refusal is of the chain as it is. */
  predicate OutcomeTruthful(p: Place, revocation: Revocation) {
    revocation.outcome.Some? && revocation.outcome.value.NotSponsored? && revocation.outcome.value.left.Some? ==>
      revocation.outcome.value.left.value.live == p.account.live
      && revocation.outcome.value.left.value.sponsored == p.account.sponsored
  }

  predicate CanReclaim(p: Place, c: Clock, i: nat, look: ReclaimReads, revocation: Revocation) {
    && i < |p.rows| && Outstanding(p.rows[i]) && LookTruthful(p, c, p.rows[i], look)
    && (revocation.prepared.Some? ==> revocation.prepared.value.hash !in p.revs)
    && OutcomeTruthful(p, revocation)
  }

  /** What a disposition does to the chain and the revocations. */
  function Swept(p: Place, row: Row, d: Disposed, revocation: Revocation): Place {
    if d.sent == None then p
    else
      var entries := OfKind(p.account.sponsored, row.kind);
      var fate := FateOf(revocation.outcome);
      p.(revs := p.revs[d.sent.value.hash := Sent(entries, d.sent.value.expiresAt, fate)],
         account := if fate == Landed then p.account.(sponsored := Without(p.account.sponsored, entries)) else p.account)
  }

  function AfterReclaim(p: Place, c: Clock, i: nat, look: ReclaimReads, execute: bool, revocation: Revocation, base: nat): Place
    requires i < |p.rows|
  {
    var d := Dispose(p.rows[i], look, execute, revocation, base, c.now);
    Swept(p, p.rows[i], d, revocation).(rows := p.rows[i := d.row])
  }

  // ----- one step -----

  predicate Enabled(m: Mode, p: Place, c: Clock, step: Step) {
    match step
    case HandOut(intent) => CanHandOut(m, p, c, intent)
    case ContributorSends(h) => CanSend(m, p, c, h)
    case Decide(intent, net) => CanDecide(m, p, c, intent, net)
    case Answered(o, b) => CanAnswer(m, p, c, o, b)
    case Dies(o) => o in p.requests
    case Reclaim(i, look, _, revocation, _) => CanReclaim(p, c, i, look, revocation)
    case EnvelopeLands(h) =>
      h in p.envs && CouldLand(p.envs[h].fate, p.envs[h].maxTime, c) && Applies(p.account, p.envs[h].kind)
    case EnvelopeFails(h) => h in p.envs && CouldLand(p.envs[h].fate, p.envs[h].maxTime, c)
    case RevocationLands(g) => g in p.revs && CouldLand(p.revs[g].fate, p.revs[g].maxTime, c)
    case RevocationFails(g) => g in p.revs && CouldLand(p.revs[g].fate, p.revs[g].maxTime, c)
    case OwnerFunds => !p.account.live
    case OwnerAddsTrustline => p.account.live && !p.account.trustline
    case OwnerRemovesTrustline => p.account.trustline
    case OwnerMerges => p.account.live && !p.account.trustline
  }

  function Effect(m: Mode, p: Place, c: Clock, step: Step): Place
    requires Enabled(m, p, c, step)
  {
    match step
    case HandOut(intent) => AfterHandOut(p, intent)
    case ContributorSends(h) => p.(envs := p.envs[h := p.envs[h].(fate := InFlight)])
    case Decide(intent, net) => AfterDecide(p, c, intent, net)
    case Answered(o, b) => AfterAnswer(p, o, b)
    case Dies(o) => Closed(p, o)
    case Reclaim(i, look, execute, revocation, base) => AfterReclaim(p, c, i, look, execute, revocation, base)
    case EnvelopeLands(h) => p.(account := Apply(p.account, p.envs[h].kind), envs := p.envs[h := p.envs[h].(fate := Landed)])
    case EnvelopeFails(h) => p.(envs := p.envs[h := p.envs[h].(fate := Dead)])
    case RevocationLands(g) =>
      p.(account := p.account.(sponsored := Without(p.account.sponsored, p.revs[g].entries)),
         revs := p.revs[g := p.revs[g].(fate := Landed)])
    case RevocationFails(g) => p.(revs := p.revs[g := p.revs[g].(fate := Dead)])
    case OwnerFunds => p.(account := p.account.(live := true))
    case OwnerAddsTrustline => p.(account := p.account.(trustline := true))
    case OwnerRemovesTrustline =>
      p.(account := p.account.(trustline := false, sponsored := p.account.sponsored.(trustline := false)))
    case OwnerMerges => p.(account := Account(false, false, Entries(false, false)))
  }

  // ----- whole runs -----

  datatype System = System(clock: Clock, places: seq<Place>)

  datatype Label = Tick(clock: Clock) | At(i: nat, step: Step)

  ghost predicate Start(s: System) {
    forall i :: 0 <= i < |s.places| ==>
      s.places[i] == Place([], s.places[i].account, map[], map[], multiset{})
      && Coherent(s.places[i].account) && UnitsOf(s.places[i].account.sponsored) == 0
  }

  ghost predicate Next(m: Mode, s: System, l: Label, t: System) {
    match l
    case Tick(clock) => s.clock.now <= clock.now && s.clock.ledger <= clock.ledger && t == s.(clock := clock)
    case At(i, step) =>
      && i < |s.places| && Enabled(m, s.places[i], s.clock, step)
      && t == s.(places := s.places[i := Effect(m, s.places[i], s.clock, step)])
  }

  ghost predicate Run(m: Mode, states: seq<System>, labels: seq<Label>) {
    && |states| == |labels| + 1 && Start(states[0])
    && forall i :: 0 <= i < |labels| ==> Next(m, states[i], labels[i], states[i + 1])
  }
}
