/**
 The submission-payout protocol as a step system. Any number of payers (the
 worker, the retry path, the revival pass) act on one submission, each one
 database transaction or one Horizon answer at a time, interleaved with the
 reconciler, the operators, process death and the chain itself.
 */
module PayoutProtocol {
  import opened Wrappers
  import opened StellarChain
  import opened PayoutRows

  type PayerId = nat

  /** What every step may read: the chain, how much of it Horizon shows, and the clock. */
  datatype World = World(chain: Chain, seen: nat, now: Time) {
    ghost predicate Valid() { seen <= |chain| && Ordered(chain) }

    function View(): Chain
      requires seen <= |chain|
    {
      chain[..seen]
    }
  }

  /** What is known of a signed envelope outside the database: `Rejected` ones were refused, or thrown away unsubmitted. `pays` is `verifySettledPayout`'s verdict on it. */
  datatype Fate = Signed | InFlight | Rejected
  datatype Envelope = Envelope(maxTime: Time, fate: Fate, pays: bool)

  datatype Role = Pays(kind: PayerKind) | Revives

  /** Where one payer stands between its claim and its last write. */
  datatype Phase =
    | Claimed
    | Looking(h: Hash, expiresAt: Time)      // an open envelope was read; its first lookup is next
    | AwaitLedger(h: Hash, expiresAt: Time)  // absent; a ledger past its bound is needed
    | LookAgain(h: Hash, expiresAt: Time)    // such a ledger was seen; the second lookup is next
    | Unsettled                              // the envelope may still apply: build nothing
    | Clear                                  // nothing open: `payReward` may build
    | Journalled(h: Hash)                    // `journal.open` committed, nothing submitted yet
    | Submitted(h: Hash)
    | PastBound(h: Hash)                     // the submitter has seen a ledger past the bound
    | Accepted(h: Hash, recorded: bool)      // a hash to record; `recorded`: committed, reply lost
    | Failing(e: PayError)
    | Released(e: PayError)                  // the worker has handed its claim back
    | Refunding(e: PayError)
    | Noting                                 // the retry cron is about to note a non-retryable error
    | Proven                                 // revival: the envelope's fate is known

  /** `base` is the retry count read at the claim; `refreshedAt` is the claim's last refresh. */
  datatype Payer = Payer(role: Role, base: nat, phase: Phase, refreshedAt: Time)

  /** What an admin retry read of the failed or abandoned row it reset, and may write back if its retry throws. */
  datatype Originals = Originals(abandoned: bool, retryCount: nat, lastRetriedAt: Option<Time>) {
    function Status(): PayoutStatus {
      if abandoned then Abandoned else PayoutFailed
    }
  }

  /**
   One submission: its rows, its envelopes, and the payers at work on it.
   `refundOwed` is a hand-back that spent the last retry and has not refunded yet;
   `resets` holds the originals of the admin retries that have not ended; `sentUnder`
   remembers each hash the row was ever `sent` under.
   */
  datatype Sub = Sub(rows: Rows, funded: bool, envs: map<Hash, Envelope>, payers: map<PayerId, Payer>,
                     refundOwed: bool, resets: multiset<Originals>, sentUnder: set<Hash>)

  /** What `payReward` returning a hash is taken to mean. */
  datatype Contract = ReturnedApplied | ReturnedAccepted

  /**
   What a run may assume. `onePayer`: no claim while another payer, or a hand-back's
   refund, is outstanding. `leaseHeld`: every holder's last refresh, or its claim if it
   never refreshes, is within the lease. `lostReplies`: a committed record may be reported
   as failed, and so be replayed. `journalThrows`: reading the journal may throw at a
   worker while an attempt is open. `restores`: an admin retry that threw may write the
   originals of its own reset back over a live claim.
   */
  datatype Mode = Mode(contract: Contract, onePayer: bool, leaseHeld: bool, lostReplies: bool, journalThrows: bool,
                       restores: bool)

  /** A payer's steps while it settles what an earlier payer left open. */
  datatype SettleStep =
    | FindOpen(found: Option<Hash>)
    | FirstLook(readable: bool)
    | SeeLedger(readable: bool)
    | SecondLook(readable: bool)
    | Throws
    | StandDown

  /**
   Its steps inside `payReward` and the submitter. `voided`: whether the quiet void landed.
   `heard`: whether the reply to `journal.open` came back; without it the payer throws the
   envelope away unsubmitted.
   */
  datatype PayStep =
    | Refuse(e: PayError)
    | Journal(h: Hash, maxTime: Time, pays: bool, heard: bool)
    | Submit
    | Return
    | Reject(voided: bool, rebuild: bool, e: PayError)
    | ResolveFailed(voided: bool)
    | SeeBoundPass
    | ResolveExpired(voided: bool)
    | StopResolving

  /**
   Its steps after that. `lost`: the record committed but its reply did not come back.
   `at`: when the payer learned the hash, the broadcast time it records.
   */
  datatype EndStep =
    | Record(lost: bool, at: Time)
    | QuarantinePayment
    | Release
    | EndPayout
    | RefundDebit
    | NoteError
    | HandOver

  /** Steps of the reconciler, the retry cron and the operators. */
  datatype OutsideStep =
    | SettleConfirmed(h: Hash)
    | SettleFailed(h: Hash)
    | Recheck
    | ReadFails
    | RefundHandBack
    | DropRefund
    | ResetByAdmin
    | RestoreByAdmin(originals: Originals)
    | Sweep

  datatype Action =
    | Claim(p: PayerId, role: Role)
    | Beat(p: PayerId)
    | Die(p: PayerId)
    | Settling(p: PayerId, settle: SettleStep)
    | Paying(p: PayerId, pay: PayStep)
    | Ending(p: PayerId, end: EndStep)
    | Outside(outside: OutsideStep)

  function Move(s: Sub, p: PayerId, phase: Phase): Sub
    requires p in s.payers
  {
    s.(payers := s.payers[p := s.payers[p].(phase := phase)])
  }

  function Leave(s: Sub, p: PayerId): Sub {
    s.(payers := s.payers - {p})
  }

  function Voided(s: Sub, h: Hash, voided: bool): Sub {
    if voided then s.(rows := VoidAttempt(s.rows, h)) else s
  }

  // ----- settling: `settleOpenAttempt`, one answer at a time -----

  predicate SettlesFrom(phase: Phase, step: SettleStep) {
    match step
    case FindOpen(_) => phase == Claimed
    case FirstLook(_) => phase.Looking?
    case SeeLedger(_) => phase.AwaitLedger?
    case SecondLook(_) => phase.LookAgain?
    case Throws => phase == Claimed || phase.Looking? || phase.LookAgain?
    case StandDown => phase == Unsettled
  }

  predicate CanSettle(m: Mode, s: Sub, p: PayerId, step: SettleStep) {
    && p in s.payers && SettlesFrom(s.payers[p].phase, step)
    && match step
       case FindOpen(found) => if found.Some? then OpenIn(s.rows.attempts, found.value) else !HasOpen(s.rows.attempts)
       case Throws => m.journalThrows || s.payers[p].role != Pays(Worker) || !HasOpen(s.rows.attempts)
       case _ => true
  }

  /** A payer may build or must record; a revival only learns the fate. */
  function Known(role: Role, phase: Phase): Phase {
    if role == Revives then Proven else phase
  }

  function SettleEffect(s: Sub, w: World, p: PayerId, step: SettleStep): Sub
    requires w.seen <= |w.chain| && p in s.payers && SettlesFrom(s.payers[p].phase, step)
  {
    var role := s.payers[p].role;
    var phase := s.payers[p].phase;
    match step
    case FindOpen(found) =>
      if found.Some? && found.value in s.rows.attempts
      then Move(s, p, Looking(found.value, s.rows.attempts[found.value].expiresAt))
      else Move(s, p, Known(role, Clear))
    case FirstLook(readable) =>
      if !readable then Move(s, p, Unsettled)
      else (
        match Lookup(w.View(), phase.h)
        case Confirmed => Move(s, p, Known(role, Accepted(phase.h, false)))
        case Failed => Move(Voided(s, phase.h, true), p, Known(role, Clear))
        case NotFound => Move(s, p, AwaitLedger(phase.h, phase.expiresAt)))
    case SeeLedger(readable) =>
      if readable && ClosedPast(w.View(), phase.expiresAt) then Move(s, p, LookAgain(phase.h, phase.expiresAt))
      else Move(s, p, Unsettled)
    case SecondLook(readable) =>
      if !readable then Move(s, p, Unsettled)
      else if Lookup(w.View(), phase.h) == StellarChain.Confirmed then Move(s, p, Known(role, Accepted(phase.h, false)))
      else Move(Voided(s, phase.h, true), p, Known(role, Clear))
    case Throws => if role == Pays(Worker) then Move(s, p, Failing(Retryable)) else Leave(s, p)
    case StandDown => AfterStandDown(s, p)
  }

  /** `wait`: the worker and the revival hand their claim back, the retry path lets its lease lapse. */
  function AfterStandDown(s: Sub, p: PayerId): Sub
    requires p in s.payers
  {
    match s.payers[p].role
    case Revives => Leave(s.(rows := ReleaseClaim(s.rows)), p)
    case Pays(RetryPath) => Leave(s, p)
    case Pays(Worker) =>
      var released := ReleaseClaim(s.rows);
      Leave(s.(rows := released.(job := JobWith(released.job, Queued, NextJobRetry(released) - 1))), p)
  }

  // ----- paying: `payReward` and the submitter -----

  predicate Broadcast(phase: Phase) {
    phase.Submitted? || phase.PastBound?
  }

  predicate PaysFrom(phase: Phase, step: PayStep) {
    match step
    case Refuse(_) => phase == Clear
    case Journal(_, _, _, _) => phase == Clear
    case Submit => phase.Journalled?
    case Reject(_, _, _) => phase.Submitted?
    case SeeBoundPass => phase.Submitted?
    case ResolveExpired(_) => phase.PastBound?
    case _ => Broadcast(phase)
  }

  predicate CanPay(m: Mode, s: Sub, w: World, p: PayerId, step: PayStep)
    requires w.seen <= |w.chain|
  {
    && p in s.payers && PaysFrom(s.payers[p].phase, step)
    && (step.Refuse? || step.Journal? || s.payers[p].phase.h in s.envs)
    && match step
       case Refuse(e) => !e.AmbiguousSubmit? && !e.ExpiredUnincluded?
       case Journal(h, maxTime, _, _) =>
         h !in s.envs && OpenAttempt(s.rows, h, maxTime, w.now).Some? && Lookup(w.chain, h) == NotFound
       case Submit => s.envs[s.payers[p].phase.h].fate == Signed
       case Return => m.contract == ReturnedApplied ==> Lookup(w.chain, s.payers[p].phase.h) == StellarChain.Confirmed
       case Reject(_, _, e) => (e.NonRetryable? || e.Retryable?) && Lookup(w.chain, s.payers[p].phase.h) != StellarChain.Confirmed
       case ResolveFailed(_) => Lookup(w.View(), s.payers[p].phase.h) == StellarChain.Failed
       case SeeBoundPass => ClosedPast(w.View(), s.envs[s.payers[p].phase.h].maxTime)
       case ResolveExpired(_) => Lookup(w.View(), s.payers[p].phase.h) == NotFound
       case StopResolving => true
  }

  function WithFate(s: Sub, h: Hash, fate: Fate): Sub {
    if h in s.envs then s.(envs := s.envs[h := s.envs[h].(fate := fate)]) else s
  }

  function PayEffect(s: Sub, w: World, p: PayerId, step: PayStep): Sub
    requires p in s.payers && PaysFrom(s.payers[p].phase, step)
  {
    var phase := s.payers[p].phase;
    match step
    case Refuse(e) => Move(s, p, Failing(e))
    case Journal(h, maxTime, pays, heard) =>
      (match OpenAttempt(s.rows, h, maxTime, w.now)
       case None => s
       case Some(rows) =>
         Move(s.(rows := rows, envs := s.envs[h := Envelope(maxTime, if heard then Signed else Rejected, pays)]), p,
              if heard then Journalled(h) else Failing(Retryable)))
    case Submit => Move(WithFate(s, phase.h, InFlight), p, Submitted(phase.h))
    case Return => Move(s, p, Accepted(phase.h, false))
    case Reject(voided, rebuild, e) =>
      Move(Voided(WithFate(s, phase.h, Rejected), phase.h, voided), p, if rebuild then Clear else Failing(e))
    case ResolveFailed(voided) => Move(Voided(s, phase.h, voided), p, Failing(NonRetryable))
    case SeeBoundPass => Move(s, p, PastBound(phase.h))
    case ResolveExpired(voided) => Move(Voided(s, phase.h, voided), p, Failing(ExpiredUnincluded))
    case StopResolving => Move(s, p, Failing(AmbiguousSubmit))
  }

  // ----- ending: recording the payment, or giving up -----

  predicate EndsFrom(payer: Payer, step: EndStep) {
    match step
    case Record(_, _) => payer.phase.Accepted? && payer.role.Pays?
    case QuarantinePayment => payer.phase.Accepted? && !payer.phase.recorded && payer.role.Pays?
    case Release => payer.phase.Failing? && payer.role == Pays(Worker)
    case EndPayout =>
      (payer.phase.Released? && payer.role == Pays(Worker)) || (payer.phase.Failing? && payer.role == Pays(RetryPath))
    case RefundDebit => payer.phase.Refunding?
    case NoteError => payer.phase == Noting
    case HandOver => payer.phase == Proven
  }

  /** The hash was learned after its envelope was journalled, and not in the future. */
  predicate BroadcastWithin(r: Rows, h: Hash, at: Time, now: Time) {
    at <= now && (h in r.attempts ==> r.attempts[h].createdAt <= at)
  }

  predicate CanEnd(m: Mode, s: Sub, w: World, p: PayerId, step: EndStep) {
    && p in s.payers && EndsFrom(s.payers[p], step)
    && (step.Record? ==>
          && RecordPayment(s.payers[p].role.kind, s.rows, s.payers[p].phase.h, step.at) != Refused
          && BroadcastWithin(s.rows, s.payers[p].phase.h, step.at, w.now)
          && (step.lost ==> m.lostReplies))
  }

  function Refund(s: Sub): Sub {
    s.(rows := s.rows.(refunded := s.rows.refunded || s.funded))
  }

  function EndEffect(s: Sub, w: World, p: PayerId, step: EndStep): Sub
    requires p in s.payers && EndsFrom(s.payers[p], step)
  {
    var payer := s.payers[p];
    match step
    case Record(lost, at) => AfterRecord(s, p, lost, at)
    case QuarantinePayment => Leave(s.(rows := Quarantine(payer.role.kind, s.rows, payer.phase.h, w.now)), p)
    case Release => Move(s.(rows := ReleaseClaim(s.rows)), p, Released(payer.phase.e))
    case EndPayout => AfterEnd(s, w, p)
    case RefundDebit =>
      if payer.role == Pays(RetryPath) && payer.phase.e == NonRetryable then Move(Refund(s), p, Noting)
      else Leave(Refund(s), p)
    case NoteError => Leave(s.(rows := CronNote(s.rows)), p)
    case HandOver => Leave(s.(rows := Revive(s.rows)), p)
  }

  function AfterRecord(s: Sub, p: PayerId, lost: bool, at: Time): Sub
    requires p in s.payers && s.payers[p].phase.Accepted? && s.payers[p].role.Pays?
  {
    var h := s.payers[p].phase.h;
    match RecordPayment(s.payers[p].role.kind, s.rows, h, at)
    case Refused => s
    case Replay(rows) => Replied(s.(rows := rows), p, h, lost)
    case Fresh(rows) => Replied(s.(rows := rows, sentUnder := s.sentUnder + {h}), p, h, lost)
  }

  function Replied(s: Sub, p: PayerId, h: Hash, lost: bool): Sub
    requires p in s.payers
  {
    if lost then Move(s, p, Accepted(h, true)) else Leave(s, p)
  }

  function AfterEnd(s: Sub, w: World, p: PayerId): Sub
    requires p in s.payers && s.payers[p].role.Pays? && (s.payers[p].phase.Failing? || s.payers[p].phase.Released?)
  {
    var payer := s.payers[p];
    var ended := s.(rows := GiveUp(payer.role.kind, s.rows, payer.base, payer.phase.e, w.now));
    if EndsPayout(payer.role.kind, s.rows, payer.base, payer.phase.e) then Move(ended, p, Refunding(payer.phase.e))
    else if payer.role == Pays(RetryPath) && payer.phase.e == AmbiguousSubmit then Move(ended, p, Noting)
    else Leave(ended, p)
  }

  // ----- outside the payers -----

  predicate Settleable(r: Rows) {
    r.status.Sent? || r.status.NeedsReconciliation?
  }

  predicate CanOutside(m: Mode, s: Sub, w: World, step: OutsideStep)
    requires w.seen <= |w.chain|
  {
    match step
    case SettleConfirmed(h) => h in s.envs && Settleable(s.rows) && Lookup(w.View(), h) == StellarChain.Confirmed
    case SettleFailed(h) => h in s.envs && Settleable(s.rows) && Lookup(w.View(), h) == StellarChain.Failed
    case Recheck => Settleable(s.rows) && s.rows.hash.Some?
    case ReadFails => true
    case RefundHandBack => s.refundOwed
    case DropRefund => s.refundOwed
    case ResetByAdmin => AdminReset(s.rows, w.now).Some?
    case RestoreByAdmin(o) => o in s.resets && (m.restores || Unheld(s) || !Restores(s.rows))
    case Sweep => true
  }

  /** Nobody is between its claim and its record or release. */
  predicate Unheld(s: Sub) {
    forall p :: p in s.payers ==> !Holding(s.payers[p].phase)
  }

  function OriginalsOf(r: Rows): Originals {
    Originals(r.status.Abandoned?, r.retryCount, r.lastRetriedAt)
  }

  function OutsideEffect(s: Sub, w: World, step: OutsideStep): Sub {
    match step
    case SettleConfirmed(h) =>
      if h in s.envs && s.envs[h].pays then s.(rows := ConfirmPayment(s.rows, h, s.rows.status, w.now))
      else s.(rows := HoldMismatch(s.rows, h, s.rows.status))
    case SettleFailed(h) =>
      var owed := HandsBack(s.rows, h, s.rows.status) && s.rows.retryCount + 1 >= SUBMISSION_RETRY_BUDGET;
      s.(rows := HandBack(s.rows, h, s.rows.status), refundOwed := s.refundOwed || owed)
    case Recheck => s.(rows := s.rows.(lastRetriedAt := Some(w.now)))
    case ReadFails => s.(rows := s.rows.(error := OtherError))
    case RefundHandBack => Refund(s).(refundOwed := false)
    case DropRefund => s.(refundOwed := false)
    case ResetByAdmin =>
      if AdminReset(s.rows, w.now).Some?
      then s.(rows := AdminReset(s.rows, w.now).value, resets := s.resets + multiset{OriginalsOf(s.rows)}) else s
    case RestoreByAdmin(o) =>
      s.(rows := AdminRestore(s.rows, o.Status(), o.retryCount, o.lastRetriedAt), resets := s.resets - multiset{o})
    case Sweep => s.(rows := AbandonSweep(s.rows))
  }

  // ----- one action -----

  /** A broadcasting payer refreshes its claim until it ends; the worker stops when it releases it. */
  predicate Beats(payer: Payer) {
    && payer.role.Pays? && payer.phase != Noting
    && (payer.role == Pays(Worker) ==> !payer.phase.Released? && !payer.phase.Refunding?)
  }

  predicate Enabled(m: Mode, s: Sub, w: World, a: Action)
    requires w.seen <= |w.chain|
  {
    match a
    case Claim(p, _) => p !in s.payers && Claimable(s.rows, w.now) && (m.onePayer ==> s.payers == map[] && !s.refundOwed)
    case Beat(p) => p in s.payers && Beats(s.payers[p])
    case Die(p) => p in s.payers
    case Settling(p, step) => CanSettle(m, s, p, step)
    case Paying(p, step) => CanPay(m, s, w, p, step)
    case Ending(p, step) => CanEnd(m, s, w, p, step)
    case Outside(step) => CanOutside(m, s, w, step)
  }

  /** The state after an enabled action. */
  function Effect(m: Mode, s: Sub, w: World, a: Action): Sub
    requires w.seen <= |w.chain| && Enabled(m, s, w, a)
  {
    match a
    case Claim(p, role) =>
      s.(rows := s.rows.(lastRetriedAt := Some(w.now)), payers := s.payers[p := Payer(role, s.rows.retryCount, Claimed, w.now)])
    case Beat(p) =>
      s.(rows := Heartbeat(s.rows, w.now), payers := s.payers[p := s.payers[p].(refreshedAt := w.now)])
    case Die(p) => Leave(s, p)
    case Settling(p, step) => SettleEffect(s, w, p, step)
    case Paying(p, step) => PayEffect(s, w, p, step)
    case Ending(p, step) => EndEffect(s, w, p, step)
    case Outside(step) => OutsideEffect(s, w, step)
  }

  /** How the action moves the owner's lifetime totals: +1 a payment credited, -1 one undone. */
  function Credit(m: Mode, s: Sub, w: World, a: Action): int
    requires w.seen <= |w.chain| && Enabled(m, s, w, a)
  {
    match a
    case Ending(p, Record(_, at)) =>
      if RecordPayment(s.payers[p].role.kind, s.rows, s.payers[p].phase.h, at).Fresh? then 1 else 0
    case Outside(SettleConfirmed(h)) =>
      if s.envs[h].pays && Unchanged(s.rows, NeedsReconciliation, h) then 1 else 0
    case Outside(SettleFailed(h)) => if Unchanged(s.rows, Sent, h) then -1 else 0
    case _ => 0
  }

  // ----- the whole system -----

  type UserId = nat

  /** A user's lifetime totals, as the rail writes them. */
  datatype Totals = Totals(earnedUnits: int, submissionCount: int)

  datatype System = System(world: World, subs: seq<Sub>, owners: seq<UserId>, users: map<UserId, Totals>)

  datatype Label =
    | Tick(now: Time)
    | See(seen: nat)
    | Close(ledger: Ledger)
    | Accept(sub: Sub, owner: UserId)
    | Act(i: nat, a: Action)

  /** A submission as the submit route commits it: pending, unpaid, with its queued job. */
  predicate FreshSubmission(s: Sub) {
    && s.rows == Rows(s.rows.amount, Pending, None, 0, None, NoError, map[], s.rows.job, false)
    && s.rows.job.Some? && s.rows.job.value == Job(Queued, 0, None, None, None, None)
    && s.envs == map[] && s.payers == map[] && !s.refundOwed && s.resets == multiset{} && s.sentUnder == {}
  }

  /** The floor under a hand-back: totals are only lowered when they can be. */
  function Credited(t: Totals, amount: nat, credit: int): Totals {
    if credit >= 0 then Totals(t.earnedUnits + credit * amount, t.submissionCount + credit)
    else if t.earnedUnits >= amount && t.submissionCount > 0 then Totals(t.earnedUnits - amount, t.submissionCount - 1)
    else t
  }

  /** A new ledger includes only envelopes in flight, inside their bounds. */
  ghost predicate Includes(s: Sub, l: Ledger) {
    forall h :: h in l.txs && h in s.envs ==> s.envs[h].fate == InFlight && l.closeTime <= s.envs[h].maxTime
  }

  /** While a holder refreshes within its lease, the clock never outruns its last refresh by a lease. */
  ghost predicate RefreshedInTime(s: Sub, now: Time) {
    forall p :: p in s.payers && Holding(s.payers[p].phase) ==> now - s.payers[p].refreshedAt < RETRY_CLAIM_LEASE_MS
  }

  /** Its record committed, but it was told otherwise and may run it again. */
  predicate Committed(phase: Phase) {
    phase.Accepted? && phase.recorded
  }

  /** Between its claim and its record or release. */
  predicate Holding(phase: Phase) {
    !(phase.Released? || phase.Refunding? || phase == Noting || Committed(phase))
  }

  ghost predicate Allowed(m: Mode, s: System, l: Label)
    requires s.world.seen <= |s.world.chain|
  {
    match l
    case Tick(now) => s.world.now <= now && (m.leaseHeld ==> forall i :: 0 <= i < |s.subs| ==> RefreshedInTime(s.subs[i], now))
    case See(seen) => s.world.seen <= seen <= |s.world.chain|
    case Close(ledger) =>
      && (s.world.chain != [] ==> s.world.chain[|s.world.chain| - 1].closeTime < ledger.closeTime)
      && (forall i :: 0 <= i < |s.subs| ==> Includes(s.subs[i], ledger))
    case Accept(sub, owner) => FreshSubmission(sub) && owner in s.users
    case Act(i, a) =>
      && i < |s.subs| == |s.owners| && s.owners[i] in s.users && Enabled(m, s.subs[i], s.world, a)
      && (a.Paying? && a.pay.Journal? ==> forall j :: 0 <= j < |s.subs| ==> a.pay.h !in s.subs[j].envs)
  }

  ghost function Successor(m: Mode, s: System, l: Label): System
    requires s.world.seen <= |s.world.chain| && Allowed(m, s, l)
  {
    match l
    case Tick(now) => s.(world := s.world.(now := now))
    case See(seen) => s.(world := s.world.(seen := seen))
    case Close(ledger) => s.(world := s.world.(chain := s.world.chain + [ledger]))
    case Accept(sub, owner) => s.(subs := s.subs + [sub], owners := s.owners + [owner])
    case Act(i, a) =>
      var u := s.owners[i];
      s.(subs := s.subs[i := Effect(m, s.subs[i], s.world, a)],
         users := s.users[u := Credited(s.users[u], s.subs[i].rows.amount, Credit(m, s.subs[i], s.world, a))])
  }

  /** No submissions yet, an empty chain, and users with totals that are not negative. */
  ghost predicate Start(s: System) {
    && s.subs == [] && s.owners == [] && s.world.chain == [] && s.world.seen == 0
    && forall u :: u in s.users ==> s.users[u].earnedUnits >= 0 && s.users[u].submissionCount >= 0
  }

  /** A run: from a start state, one allowed label at a time. */
  ghost predicate Run(m: Mode, states: seq<System>, labels: seq<Label>) {
    && |states| == |labels| + 1
    && Start(states[0])
    && forall i :: 0 <= i < |labels| ==> Next(m, states[i], labels[i], states[i + 1])
  }

  ghost predicate Next(m: Mode, s: System, l: Label, t: System) {
    && s.world.seen <= |s.world.chain|
    && Allowed(m, s, l)
    && t == Successor(m, s, l)
  }
}
