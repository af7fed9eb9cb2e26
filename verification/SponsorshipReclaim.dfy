/**
 Reserve reclaim: one disposition per outstanding row by rules in a fixed order, the
 revocation of the eligible ones, and the run's report.
 */
module SponsorshipReclaim {
  import opened Wrappers
  import opened StellarChain
  import opened SponsorshipRows

  datatype Disposition =
    | SponsorshipPending | SponsorshipLanded | SponsorshipNeverLanded
    | ReclaimPending | Revoked | ReleasedByOwner | UnexpectedChainState
    | ProtectedLinkedWallet | ProtectedPayoutInFlight | ProtectedUnsettledSubmission
    | ProtectedOwedBalance | ProtectedHoldsUsdc | OwnerCannotCoverReserve
    | Eligible | Failure

  /** What the chain shows of an address. An account that does not exist sponsors nothing. */
  datatype ChainRead = ChainRead(live: bool, sponsored: Entries, stray: nat, usdcBalance: nat, usdcLiabilities: nat,
                                 spendableStroops: nat)

  /** The ledger facts rule 5 reads of an address and its owner. */
  datatype Owed = Owed(linked: bool, jobInFlight: bool, flagged: bool, unsettled: bool, balance: nat)

  /**
   Everything one disposition reads: `None` is a lookup that threw. `ownTx` answers for
   the row's own envelope, `reclaimTx` for its recorded revocation, `carried` for what a
   landed revocation revoked.
   */
  datatype ReclaimReads = ReclaimReads(ownTx: Option<TxStatus>, reclaimTx: Option<TxStatus>, chain: Option<ChainRead>,
                                       carried: Option<Entries>, owed: Owed)

  datatype Prepared = Prepared(hash: Hash, expiresAt: Time)

  /** Horizon's answer to a submitted revocation. `left` is the chain read after a refusal. */
  datatype RevokeOutcome =
    | Applied
    | NotSponsored(left: Option<ChainRead>)
    | OwnerLowReserve
    | StaleSequence(status: Option<TxStatus>)
    | Rejected
    | Unknown

  /** A revocation attempt: building it may throw, and so may its submit. */
  datatype Revocation = Revocation(prepared: Option<Prepared>, outcome: Option<RevokeOutcome>)

  /** The row as it is left, what is reported of it, and the revocation that was sent, if any. */
  datatype Disposed = Disposed(row: Row, disposition: Disposition, units: nat, reclaimedStroops: nat, sent: Option<Prepared>)

  function Report(row: Row, disposition: Disposition, units: nat): Disposed {
    Disposed(row, disposition, units, 0, None)
  }

  function Still(chain: ChainRead, kind: Kind): Entries {
    if chain.live then OfKind(chain.sponsored, kind) else Entries(false, false)
  }

  /** Rule 5, from the ledger. The first matching reason wins. */
  function Protection(owed: Owed): Option<Disposition> {
    if owed.linked then Some(ProtectedLinkedWallet)
    else if owed.jobInFlight || owed.flagged then Some(ProtectedPayoutInFlight)
    else if owed.unsettled then Some(ProtectedUnsettledSubmission)
    else if owed.balance > 0 then Some(ProtectedOwedBalance)
    else None
  }

  function ConfirmOne(row: Row): Row {
    if row.status != Established then row.(status := Established, confirmedBefore := true) else row
  }

  function FailOne(row: Row): Row {
    if row.status == Awaiting then row.(status := if row.confirmedBefore then Established else NeverLanded) else row
  }

  /** Rule 1: a pending sponsorship is reconciled, never revoked. */
  function ReconcilePending(row: Row, net: ReclaimReads, execute: bool, now: Time): Disposed {
    var units := ReserveUnits(row.kind);
    if net.ownTx == None then Report(row, Failure, units)
    else if net.ownTx.value == TxStatus.Confirmed then Report(if execute then ConfirmOne(row) else row, SponsorshipLanded, units)
    else if net.ownTx.value == NotFound && !Expired(row.expiresAt, now) then Report(row, SponsorshipPending, units)
    else if net.chain == None then Report(row, Failure, units)
    else if UnitsOf(Still(net.chain.value, row.kind)) > 0 then
      Report(if execute then ConfirmOne(row) else row, SponsorshipLanded, units)
    else Report(if execute then FailOne(row) else row, SponsorshipNeverLanded, 0)
  }

  /** Rule 2: an earlier revocation that might still land is waited on. */
  predicate RevocationWaits(row: Row, net: ReclaimReads, now: Time) {
    row.reclaimTx.Some? && net.reclaimTx == Some(NotFound) && !Expired(row.reclaimExpiresAt, now)
  }

  predicate RevocationLanded(row: Row, net: ReclaimReads) {
    row.reclaimTx.Some? && net.reclaimTx == Some(TxStatus.Confirmed)
  }

  /** Rules 3 to 6: what keeps a row whose entries are still sponsored from being revoked. */
  function Refusal(row: Row, net: ReclaimReads, chain: ChainRead, base: nat): Option<Disposition> {
    var units := UnitsOf(Still(chain, row.kind));
    if Protection(net.owed).Some? then Protection(net.owed)
    else if chain.live && (chain.usdcBalance > 0 || chain.usdcLiabilities > 0) then Some(ProtectedHoldsUsdc)
    else if chain.live && chain.spendableStroops < units * base then Some(OwnerCannotCoverReserve)
    else None
  }

  /** Rule 7 in an execute run: record the intent, broadcast, and settle from Horizon's answer. */
  function Revoke(row: Row, units: nat, revocation: Revocation, base: nat): Disposed {
    if revocation.prepared == None then Report(row, Failure, ReserveUnits(row.kind))
    else if row.revoked || row.status != Established || row.reclaimTx.Some? then Report(row, ReclaimPending, units)
    else
      var prepared := revocation.prepared.value;
      var claimed := row.(reclaimTx := Some(prepared.hash), reclaimExpiresAt := Some(prepared.expiresAt));
      var cleared := ClearIntent(claimed, prepared.hash);
      var released := MarkReleased(claimed, SponsorRevoke, Some(prepared.hash));
      var sent := Some(prepared);
      if revocation.outcome == None then Disposed(claimed, Failure, ReserveUnits(row.kind), 0, sent)
      else
        match revocation.outcome.value
        case Applied => Disposed(released, Revoked, units, units * base, sent)
        case NotSponsored(None) => Disposed(cleared, Failure, ReserveUnits(row.kind), 0, sent)
        case NotSponsored(Some(left)) =>
          if UnitsOf(Still(left, row.kind)) == 0
          then Disposed(MarkReleased(cleared, Owner, None), ReleasedByOwner, ReserveUnits(row.kind), 0, sent)
          else Disposed(cleared, Failure, units, 0, sent)
        case OwnerLowReserve => Disposed(cleared, OwnerCannotCoverReserve, units, 0, sent)
        case StaleSequence(None) => Disposed(claimed, ReclaimPending, units, 0, sent)
        case StaleSequence(Some(status)) =>
          if status == TxStatus.Confirmed then Disposed(released, Revoked, units, units * base, sent)
          else Disposed(cleared, Failure, units, 0, sent)
        case Rejected => Disposed(cleared, Failure, units, 0, sent)
        case Unknown => Disposed(claimed, ReclaimPending, units, 0, sent)
  }

  /** Rules 3 to 7, once no earlier revocation is in the way. `row` may have had a dead intent cleared. */
  function DisposeRow(row: Row, landed: Option<Hash>, net: ReclaimReads, execute: bool, revocation: Revocation, base: nat): Disposed {
    var whole := ReserveUnits(row.kind);
    if net.chain == None then Report(row, Failure, whole)
    else
      var chain := net.chain.value;
      var units := UnitsOf(Still(chain, row.kind));
      if chain.live && chain.stray > 0 then Report(row, UnexpectedChainState, whole)
      else if units == 0 then
        if landed.Some? then
          if net.carried == None then Report(row, Failure, whole)
          else
            var carried := UnitsOf(net.carried.value);
            Disposed(if execute then MarkReleased(row, SponsorRevoke, landed) else row, Revoked, carried, carried * base, None)
        else Report(if execute then MarkReleased(row, Owner, None) else row, ReleasedByOwner, whole)
      else if landed.Some? then Report(row, UnexpectedChainState, whole)
      else
        var refusal := Refusal(row, net, chain, base);
        if refusal.Some? then Report(row, refusal.value, units)
        else if !execute then Report(row, Eligible, units)
        else Revoke(row, units, revocation, base)
  }

  /** `decide`: the ordered rules, for one outstanding row. */
  function Dispose(row: Row, net: ReclaimReads, execute: bool, revocation: Revocation, base: nat, now: Time): Disposed {
    if row.status == Awaiting then ReconcilePending(row, net, execute, now)
    else if row.reclaimTx == None then DisposeRow(row, None, net, execute, revocation, base)
    else if net.reclaimTx == None then Report(row, Failure, ReserveUnits(row.kind))
    else if RevocationWaits(row, net, now) then Report(row, ReclaimPending, ReserveUnits(row.kind))
    else if RevocationLanded(row, net) then DisposeRow(row, row.reclaimTx, net, execute, revocation, base)
    else DisposeRow(if execute then ClearIntent(row, row.reclaimTx.value) else row, None, net, execute, revocation, base)
  }

  // ----- one row -----

  /** A dry run writes nothing and sends nothing. */
  lemma DryRunWritesNothing(row: Row, net: ReclaimReads, revocation: Revocation, base: nat, now: Time)
    ensures var d := Dispose(row, net, false, revocation, base, now);
            d.row == row && d.sent == None && (d.disposition != Revoked ==> d.reclaimedStroops == 0)
  {
  }

  /** What `eligible` may become once a revocation is tried. */
  predicate RevokeResult(d: Disposition) {
    || d == Revoked || d == ReleasedByOwner || d == OwnerCannotCoverReserve || d == ReclaimPending || d == Failure
  }

  /** An execute run gives the row the same disposition, units and stroops, except that `eligible` is acted on. */
  lemma ExecuteAsPredicted(row: Row, net: ReclaimReads, revocation: Revocation, base: nat, now: Time)
    requires Outstanding(row)
    ensures var dry := Dispose(row, net, false, revocation, base, now);
            var run := Dispose(row, net, true, revocation, base, now);
            && (dry.disposition != Eligible ==>
                  run.disposition == dry.disposition && run.units == dry.units && run.reclaimedStroops == dry.reclaimedStroops)
            && (dry.disposition == Eligible ==> RevokeResult(run.disposition))
            && (run.sent.Some? ==> dry.disposition == Eligible)
  {
    hide Revoke;
    if row.status != Awaiting {
      EligibleRevokes(row, net, revocation, base);
      if row.reclaimTx.Some? {
        EligibleRevokes(ClearIntent(row, row.reclaimTx.value), net, revocation, base);
      }
    }
  }

  lemma EligibleRevokes(row: Row, net: ReclaimReads, revocation: Revocation, base: nat)
    ensures net.chain.Some? ==>
              var units := UnitsOf(Still(net.chain.value, row.kind));
              RevokeResult(Revoke(row, units, revocation, base).disposition)
    ensures row.reclaimTx.Some? ==>
              net.chain.Some? ==> Refusal(ClearIntent(row, row.reclaimTx.value), net, net.chain.value, base) == Refusal(row, net, net.chain.value, base)
  {
  }

  /** The rules a revocation must pass, in terms of what was read. */
  predicate PassesEveryRule(row: Row, net: ReclaimReads, base: nat, now: Time) {
    && Outstanding(row) && row.status == Established
    && (row.reclaimTx.Some? ==> net.reclaimTx.Some? && net.reclaimTx.value != TxStatus.Confirmed && !RevocationWaits(row, net, now))
    && net.chain.Some? && net.chain.value.live && net.chain.value.stray == 0
    && UnitsOf(OfKind(net.chain.value.sponsored, row.kind)) > 0
    && !net.owed.linked && !net.owed.jobInFlight && !net.owed.flagged && !net.owed.unsettled && net.owed.balance == 0
    && net.chain.value.usdcBalance == 0 && net.chain.value.usdcLiabilities == 0
    && net.chain.value.spendableStroops >= UnitsOf(OfKind(net.chain.value.sponsored, row.kind)) * base
  }

  /** A revocation goes out exactly from an outstanding confirmed row with no live intent, once it is built. */
  lemma RevokeSends(row: Row, units: nat, revocation: Revocation, base: nat)
    ensures var d := Revoke(row, units, revocation, base);
            && (d.sent.Some? <==> revocation.prepared.Some? && !row.revoked && row.status == Established && row.reclaimTx == None)
            && (d.sent.Some? ==> d.sent == revocation.prepared)
            && d.disposition != Eligible
  {
    hide Still, OfKind, UnitsOf, ReserveUnits;
  }

  /** A revocation is submitted exactly for a row that passed every rule, and only once its hash is on the row. */
  lemma RevokedExactlyWhenSafe(row: Row, net: ReclaimReads, revocation: Revocation, base: nat, now: Time)
    requires Outstanding(row)
    ensures Dispose(row, net, true, revocation, base, now).sent.Some? <==>
              PassesEveryRule(row, net, base, now) && revocation.prepared.Some?
    ensures Dispose(row, net, false, revocation, base, now).disposition == Eligible <==> PassesEveryRule(row, net, base, now)
    ensures Dispose(row, net, true, revocation, base, now).sent.Some? ==>
              Dispose(row, net, true, revocation, base, now).sent == revocation.prepared
  {
    var cleared := if row.reclaimTx.Some? then ClearIntent(row, row.reclaimTx.value) else row;
    if net.chain.Some? {
      RevokeSends(cleared, UnitsOf(Still(net.chain.value, row.kind)), revocation, base);
    }
    hide Revoke, UnitsOf, OfKind, ReserveUnits;
    if net.chain.Some? && !net.chain.value.live {
      NoAccountNoUnits(net.chain.value, row.kind);
    }
  }

  lemma NoAccountNoUnits(chain: ChainRead, kind: Kind)
    requires !chain.live
    ensures UnitsOf(Still(chain, kind)) == 0
  {
  }

  // ----- each disposition, exactly -----

  /** Does the chain show an entry of the row's own kind sponsored? */
  predicate Shows(chain: ChainRead, kind: Kind) {
    chain.live && (chain.sponsored.trustline || (kind == AccountAndTrustline && chain.sponsored.account))
  }

  /** Not found, and its time bound is not past: it may still land. */
  predicate MayStillLand(status: Option<TxStatus>, expiresAt: Option<Time>, now: Time) {
    status == Some(NotFound) && expiresAt.Some? && expiresAt.value >= now
  }

  /**
   A pending row, in either mode: what is reported of it and of its reserve, and that only
   an execute run writes it, as confirmed when its envelope landed, and else as before or failed.
   */
  lemma PendingExactly(row: Row, net: ReclaimReads, execute: bool, revocation: Revocation, base: nat, now: Time)
    requires row.status == Awaiting
    ensures var d := Dispose(row, net, execute, revocation, base, now);
            var waits := MayStillLand(net.ownTx, row.expiresAt, now);
            var read := net.ownTx.Some? && net.ownTx.value != TxStatus.Confirmed && !waits;
            && (d.disposition == SponsorshipLanded <==>
                  net.ownTx == Some(TxStatus.Confirmed) || (read && net.chain.Some? && Shows(net.chain.value, row.kind)))
            && (d.disposition == SponsorshipPending <==> waits)
            && (d.disposition == SponsorshipNeverLanded <==> read && net.chain.Some? && !Shows(net.chain.value, row.kind))
            && (d.disposition == Failure <==> net.ownTx == None || (read && net.chain == None))
            && d.units == (if d.disposition == SponsorshipNeverLanded then 0 else if row.kind == Trustline then 1 else 3)
            && d.reclaimedStroops == 0 && d.sent == None
            && d.row == (if execute && d.disposition == SponsorshipLanded then row.(status := Established, confirmedBefore := true)
                         else if execute && d.disposition == SponsorshipNeverLanded
                         then row.(status := if row.confirmedBefore then Established else NeverLanded) else row)
  {
  }

  /** A confirmed row's revocation is over: there is none, or Horizon answered and it cannot land later. */
  predicate NoneInTheWay(row: Row, net: ReclaimReads, now: Time) {
    row.reclaimTx.Some? ==> net.reclaimTx.Some? && !MayStillLand(net.reclaimTx, row.reclaimExpiresAt, now)
  }

  predicate EarlierLanded(row: Row, net: ReclaimReads) {
    row.reclaimTx.Some? && net.reclaimTx == Some(TxStatus.Confirmed)
  }

  /** A confirmed row whose chain state could be read, and that no earlier revocation holds up. */
  predicate Readable(row: Row, net: ReclaimReads, now: Time) {
    NoneInTheWay(row, net, now) && net.chain.Some?
  }

  predicate Strayed(net: ReclaimReads) {
    net.chain.Some? && net.chain.value.live && net.chain.value.stray > 0
  }

  predicate ReportsWhole(d: Disposition) {
    d == ReclaimPending || d == UnexpectedChainState || d == ReleasedByOwner || d == Failure
  }

  /**
   A confirmed row, in either mode: waited on, at odds with the chain, released by its owner,
   or revoked by an earlier run, each exactly when; with the whole reserve of its kind
   reported, or what that earlier revocation carried, which alone is money reclaimed.
   */
  lemma EstablishedExactly(row: Row, net: ReclaimReads, execute: bool, revocation: Revocation, base: nat, now: Time)
    requires Outstanding(row) && row.status == Established
    requires !PassesEveryRule(row, net, base, now)
    ensures var d := Dispose(row, net, execute, revocation, base, now);
            var free := Readable(row, net, now) && !Strayed(net);
            var gone := free && !Shows(net.chain.value, row.kind);
            && (d.disposition == ReclaimPending <==> row.reclaimTx.Some? && MayStillLand(net.reclaimTx, row.reclaimExpiresAt, now))
            && (d.disposition == UnexpectedChainState <==>
                  Readable(row, net, now) && (Strayed(net) || (Shows(net.chain.value, row.kind) && EarlierLanded(row, net))))
            && (d.disposition == ReleasedByOwner <==> gone && !EarlierLanded(row, net))
            && (d.disposition == Revoked <==> gone && EarlierLanded(row, net) && net.carried.Some?)
            && (d.disposition == Failure <==>
                  || (row.reclaimTx.Some? && net.reclaimTx == None) || (NoneInTheWay(row, net, now) && net.chain == None)
                  || (gone && EarlierLanded(row, net) && net.carried == None))
            && (d.disposition == Revoked ==> d.units == UnitsOf(net.carried.value) && d.reclaimedStroops == d.units * base)
            && (d.disposition != Revoked ==> d.reclaimedStroops == 0)
            && (ReportsWhole(d.disposition) ==> d.units == if row.kind == Trustline then 1 else 3)
            && d.sent == None
  {
    ShowsUnits(row, net);
    hide UnitsOf, OfKind, Revoke;
  }

  lemma ShowsUnits(row: Row, net: ReclaimReads)
    ensures net.chain.Some? ==> (UnitsOf(Still(net.chain.value, row.kind)) > 0 <==> Shows(net.chain.value, row.kind))
  {
  }

  /**
   What an execute run writes to such a row: its release when the chain shows it gone, and
   otherwise only that a revocation that can never land is forgotten.
   */
  lemma EstablishedRowExactly(row: Row, net: ReclaimReads, revocation: Revocation, base: nat, now: Time)
    requires Outstanding(row) && row.status == Established
    requires !PassesEveryRule(row, net, base, now)
    ensures var d := Dispose(row, net, true, revocation, base, now);
            && (d.disposition == ReleasedByOwner ==>
                  d.row == row.(revoked := true, releasedBy := Some(Owner), reclaimTx := None, reclaimExpiresAt := None))
            && (d.disposition == Revoked ==> d.row == row.(revoked := true, releasedBy := Some(SponsorRevoke)))
            && (d.disposition != ReleasedByOwner && d.disposition != Revoked ==>
                  d.row == if row.reclaimTx.Some? && NoneInTheWay(row, net, now) && !EarlierLanded(row, net)
                           then row.(reclaimTx := None, reclaimExpiresAt := None) else row)
  {
    ShowsUnits(row, net);
    hide UnitsOf, OfKind, Revoke;
  }

  /** A row whose entries are still sponsored, with no line to another asset and no revocation in the way. */
  predicate StillHeld(row: Row, net: ReclaimReads, now: Time) {
    && Outstanding(row) && row.status == Established
    && Readable(row, net, now) && !EarlierLanded(row, net) && !Strayed(net) && Shows(net.chain.value, row.kind)
  }

  /** The reserve units an address still costs its sponsor, of a row's kind: one for the trustline, two for the account. */
  function UnitsShown(chain: ChainRead, kind: Kind): nat {
    (if chain.sponsored.trustline then 1 else 0) + (if kind == AccountAndTrustline && chain.sponsored.account then 2 else 0)
  }

  /**
   Such a row is protected by the first reason that matches, in the fixed order, and each
   reason keeps exactly the rows the ones before it let through; all of them report what the
   chain still shows.
   */
  lemma FirstReasonWins(row: Row, net: ReclaimReads, revocation: Revocation, base: nat, now: Time)
    requires StillHeld(row, net, now)
    ensures var line := Dispose(row, net, false, revocation, base, now);
            var d := line.disposition;
            var o, chain := net.owed, net.chain.value;
            var paying := o.linked || o.jobInFlight || o.flagged || o.unsettled || o.balance > 0;
            var holds := chain.usdcBalance > 0 || chain.usdcLiabilities > 0;
            && (d == ProtectedLinkedWallet <==> o.linked)
            && (d == ProtectedPayoutInFlight <==> !o.linked && (o.jobInFlight || o.flagged))
            && (d == ProtectedUnsettledSubmission <==> !o.linked && !o.jobInFlight && !o.flagged && o.unsettled)
            && (d == ProtectedOwedBalance <==> !o.linked && !o.jobInFlight && !o.flagged && !o.unsettled && o.balance > 0)
            && (d == ProtectedHoldsUsdc <==> !paying && holds)
            && (d == OwnerCannotCoverReserve <==> !paying && !holds && chain.spendableStroops < UnitsShown(chain, row.kind) * base)
            && (d == Eligible <==> !paying && !holds && chain.spendableStroops >= UnitsShown(chain, row.kind) * base)
            && line.units == UnitsShown(chain, row.kind) && line.reclaimedStroops == 0
  {
    assert UnitsOf(Still(net.chain.value, row.kind)) == UnitsShown(net.chain.value, row.kind);
  }

  /** What became of a submitted revocation: it took effect; nothing was left for it to take; or nobody knows yet. */
  predicate TookEffect(o: Option<RevokeOutcome>) {
    o == Some(Applied) || o == Some(StaleSequence(Some(TxStatus.Confirmed)))
  }

  predicate NothingLeft(o: Option<RevokeOutcome>, kind: Kind) {
    o.Some? && o.value.NotSponsored? && o.value.left.Some? && !Shows(o.value.left.value, kind)
  }

  predicate FateUnknown(o: Option<RevokeOutcome>) {
    o == None || o == Some(StaleSequence(None)) || o == Some(Unknown)
  }

  /**
   A revocation that was sent, answer by answer: stroops are reclaimed exactly when it took
   effect, its intent stays on the row exactly while its fate is unknown, and a refusal
   leaves the row as if it had never been tried.
   */
  lemma RevokeExactly(row: Row, units: nat, revocation: Revocation, base: nat)
    requires row.status == Established && !row.revoked && row.reclaimTx == None && revocation.prepared.Some?
    ensures var d := Revoke(row, units, revocation, base);
            var p, o := revocation.prepared.value, revocation.outcome;
            && d.sent == Some(p)
            && (d.disposition == Revoked <==> TookEffect(o))
            && (d.disposition == ReleasedByOwner <==> NothingLeft(o, row.kind))
            && (d.disposition == OwnerCannotCoverReserve <==> o == Some(OwnerLowReserve))
            && (d.disposition == ReclaimPending <==> FateUnknown(o) && o != None)
            && (d.disposition == Failure <==> o == None || o == Some(Rejected) || (o.value.NotSponsored? && !NothingLeft(o, row.kind))
                                              || (o.value.StaleSequence? && o.value.status.Some? && !TookEffect(o)))
            && d.reclaimedStroops == (if TookEffect(o) then units * base else 0)
            && d.units == (if o == None || o == Some(NotSponsored(None)) || NothingLeft(o, row.kind)
                           then (if row.kind == Trustline then 1 else 3) else units)
            && d.row == (if TookEffect(o) then row.(revoked := true, releasedBy := Some(SponsorRevoke),
                                                    reclaimTx := Some(p.hash), reclaimExpiresAt := Some(p.expiresAt))
                         else if NothingLeft(o, row.kind) then row.(revoked := true, releasedBy := Some(Owner), reclaimExpiresAt := None)
                         else if FateUnknown(o) then row.(reclaimTx := Some(p.hash), reclaimExpiresAt := Some(p.expiresAt))
                         else row.(reclaimExpiresAt := None))
  {
    if revocation.outcome.Some? && revocation.outcome.value.NotSponsored? && revocation.outcome.value.left.Some? {
      var left := revocation.outcome.value.left.value;
      assert UnitsOf(Still(left, row.kind)) > 0 <==> Shows(left, row.kind);
    }
    hide UnitsOf, OfKind, Still, Shows;
  }

  /** Horizon's word that a revocation took effect, or that nothing was left for it to take. */
  predicate Releases(row: Row, outcome: RevokeOutcome) {
    match outcome
    case Applied => true
    case StaleSequence(status) => status == Some(TxStatus.Confirmed)
    case NotSponsored(left) => left.Some? && UnitsOf(Still(left.value, row.kind)) == 0
    case _ => false
  }

  /** A revocation tried on an outstanding row releases it exactly on that word. */
  lemma RevokeReleases(row: Row, units: nat, revocation: Revocation, base: nat)
    requires Outstanding(row)
    ensures var d := Revoke(row, units, revocation, base);
            && (d.row.revoked <==> d.sent.Some? && revocation.outcome.Some? && Releases(row, revocation.outcome.value))
            && (d.row.revoked ==> d.disposition == Revoked || d.disposition == ReleasedByOwner)
  {
    hide Still, OfKind, UnitsOf;
  }

  /** The reserve is recorded released only on the chain's word: the revocation applied, or nothing is sponsored. */
  lemma ReleasedOnlyOnProof(row: Row, net: ReclaimReads, revocation: Revocation, base: nat, now: Time)
    requires Outstanding(row) && Dispose(row, net, true, revocation, base, now).row.revoked
    ensures var d := Dispose(row, net, true, revocation, base, now);
            && row.status == Established
            && (d.disposition == Revoked || d.disposition == ReleasedByOwner)
            && (d.sent == None ==> net.chain.Some? && UnitsOf(Still(net.chain.value, row.kind)) == 0)
            && (d.sent.Some? ==> revocation.outcome.Some? && Releases(row, revocation.outcome.value))
  {
    hide Revoke, Refusal, Still, OfKind, UnitsOf;
    var cleared := if row.reclaimTx.Some? then ClearIntent(row, row.reclaimTx.value) else row;
    if net.chain.Some? {
      RevokeReleases(cleared, UnitsOf(Still(net.chain.value, row.kind)), revocation, base);
    }
  }

  // ----- the whole run -----

  /** One row's line in the report: its disposition, units and stroops. */
  datatype Line = Line(disposition: Disposition, units: nat, reclaimedStroops: nat)

  function LineOf(d: Disposed): Line {
    Line(d.disposition, d.units, d.reclaimedStroops)
  }

  datatype Totals = Totals(sponsorships: nat, byDisposition: map<Disposition, nat>, reclaimedStroops: nat,
                           ownerReleasedStroops: nat, lockedUnits: nat)

  predicate Locks(d: Disposition) {
    d != ReleasedByOwner && d != Revoked && d != SponsorshipNeverLanded
  }

  function CountOf(lines: seq<Line>, d: Disposition): nat {
    if lines == [] then 0 else CountOf(lines[..|lines| - 1], d) + (if lines[|lines| - 1].disposition == d then 1 else 0)
  }

  function ReclaimedIn(lines: seq<Line>): nat {
    if lines == [] then 0 else ReclaimedIn(lines[..|lines| - 1]) + lines[|lines| - 1].reclaimedStroops
  }

  function OwnerReleasedIn(lines: seq<Line>): nat {
    if lines == [] then 0
    else
      var last := lines[|lines| - 1];
      OwnerReleasedIn(lines[..|lines| - 1]) + (if last.disposition == ReleasedByOwner then last.units else 0)
  }

  function LockedIn(lines: seq<Line>): nat {
    if lines == [] then 0
    else
      var last := lines[|lines| - 1];
      LockedIn(lines[..|lines| - 1]) + (if Locks(last.disposition) then last.units else 0)
  }

  /** `buildReport`'s loop. */
  method BuildReport(lines: seq<Line>, base: nat) returns (totals: Totals)
    ensures totals.sponsorships == |lines|
    ensures forall d :: d in totals.byDisposition <==> CountOf(lines, d) > 0
    ensures forall d :: d in totals.byDisposition ==> totals.byDisposition[d] == CountOf(lines, d)
    ensures totals.reclaimedStroops == ReclaimedIn(lines)
    ensures totals.ownerReleasedStroops == OwnerReleasedIn(lines) * base
    ensures totals.lockedUnits == LockedIn(lines)
  {
    var byDisposition: map<Disposition, nat> := map[];
    var reclaimed, ownerReleased, locked := 0, 0, 0;
    for i := 0 to |lines|
      invariant forall d :: d in byDisposition <==> CountOf(lines[..i], d) > 0
      invariant forall d :: d in byDisposition ==> byDisposition[d] == CountOf(lines[..i], d)
      invariant reclaimed == ReclaimedIn(lines[..i])
      invariant ownerReleased == OwnerReleasedIn(lines[..i]) * base
      invariant locked == LockedIn(lines[..i])
    {
      var entry := lines[i];
      assert lines[..i + 1][..i] == lines[..i];
      var before := if entry.disposition in byDisposition then byDisposition[entry.disposition] else 0;
      byDisposition := byDisposition[entry.disposition := before + 1];
      reclaimed := reclaimed + entry.reclaimedStroops;
      if entry.disposition == ReleasedByOwner {
        ownerReleased := ownerReleased + entry.units * base;
      } else if entry.disposition != Revoked && entry.disposition != SponsorshipNeverLanded {
        locked := locked + entry.units;
      }
    }
    assert lines[..|lines|] == lines;
    totals := Totals(|lines|, byDisposition, reclaimed, ownerReleased, locked);
  }

  /** What a run starts from: its rows in order, and what each disposition will read and meet. */
  datatype Case = Case(row: Row, net: ReclaimReads, revocation: Revocation)

  /** `runSponsorshipReclaim`: each row's disposition in turn, acting on it in an execute run. */
  method RunReclaim(cases: seq<Case>, execute: bool, base: nat, now: Time) returns (rows: seq<Row>, lines: seq<Line>)
    ensures |rows| == |lines| == |cases|
    ensures forall i :: 0 <= i < |cases| ==>
              var d := Dispose(cases[i].row, cases[i].net, execute, cases[i].revocation, base, now);
              rows[i] == d.row && lines[i] == LineOf(d)
  {
    rows, lines := [], [];
    for i := 0 to |cases|
      invariant |rows| == |lines| == i
      invariant forall j :: 0 <= j < i ==>
                  var d := Dispose(cases[j].row, cases[j].net, execute, cases[j].revocation, base, now);
                  rows[j] == d.row && lines[j] == LineOf(d)
    {
      var d := Dispose(cases[i].row, cases[i].net, execute, cases[i].revocation, base, now);
      rows, lines := rows + [d.row], lines + [LineOf(d)];
    }
  }

  // ----- every unit is accounted for -----

  function AllUnits(lines: seq<Line>): nat {
    if lines == [] then 0 else AllUnits(lines[..|lines| - 1]) + lines[|lines| - 1].units
  }

  function UnitsWith(lines: seq<Line>, d: Disposition): nat {
    if lines == [] then 0
    else
      var last := lines[|lines| - 1];
      UnitsWith(lines[..|lines| - 1], d) + (if last.disposition == d then last.units else 0)
  }

  /** Stroops are reclaimed for revoked units alone, at the base reserve each; a sponsorship that never landed costs nothing. */
  lemma LineStroops(row: Row, net: ReclaimReads, execute: bool, revocation: Revocation, base: nat, now: Time)
    requires Outstanding(row)
    ensures var d := Dispose(row, net, execute, revocation, base, now);
            && d.reclaimedStroops == (if d.disposition == Revoked then d.units * base else 0)
            && (d.disposition == SponsorshipNeverLanded ==> d.units == 0)
  {
    if row.status == Awaiting {
      PendingExactly(row, net, execute, revocation, base, now);
    } else if !PassesEveryRule(row, net, base, now) {
      EstablishedExactly(row, net, execute, revocation, base, now);
    } else {
      var cleared := if row.reclaimTx.Some? then ClearIntent(row, row.reclaimTx.value) else row;
      if execute {
        RevokeStroops(cleared, UnitsOf(Still(net.chain.value, row.kind)), revocation, base);
      }
      hide Revoke, UnitsOf, OfKind;
    }
  }

  lemma RevokeStroops(row: Row, units: nat, revocation: Revocation, base: nat)
    ensures var d := Revoke(row, units, revocation, base);
            && d.reclaimedStroops == (if d.disposition == Revoked then d.units * base else 0)
            && d.disposition != SponsorshipNeverLanded
  {
    hide UnitsOf, OfKind, Still;
  }

  predicate LineSound(line: Line, base: nat) {
    && line.reclaimedStroops == (if line.disposition == Revoked then line.units * base else 0)
    && (line.disposition == SponsorshipNeverLanded ==> line.units == 0)
  }

  lemma {:induction false} SoundLinesTotal(lines: seq<Line>, base: nat)
    requires forall i :: 0 <= i < |lines| ==> LineSound(lines[i], base)
    ensures LockedIn(lines) + OwnerReleasedIn(lines) + UnitsWith(lines, Revoked) == AllUnits(lines)
    ensures OwnerReleasedIn(lines) == UnitsWith(lines, ReleasedByOwner)
    ensures ReclaimedIn(lines) == UnitsWith(lines, Revoked) * base
  {
    if lines != [] {
      var n := |lines| - 1;
      SoundLinesTotal(lines[..n], base);
      assert LineSound(lines[n], base);
      Distributes(UnitsWith(lines[..n], Revoked), lines[n].units, base);
    }
  }

  /**
   Every unit a run reports is in exactly one place: still locked, released by its owner, or
   revoked; and what was revoked is what was reclaimed.
   */
  lemma ReserveAccountedFor(cases: seq<Case>, execute: bool, base: nat, now: Time, lines: seq<Line>)
    requires Ran(cases, execute, base, now, lines) && forall i :: 0 <= i < |cases| ==> Outstanding(cases[i].row)
    ensures LockedIn(lines) + OwnerReleasedIn(lines) + UnitsWith(lines, Revoked) == AllUnits(lines)
    ensures OwnerReleasedIn(lines) == UnitsWith(lines, ReleasedByOwner)
    ensures ReclaimedIn(lines) == UnitsWith(lines, Revoked) * base
  {
    hide Dispose;
    forall i | 0 <= i < |lines| ensures LineSound(lines[i], base) {
      LineStroops(cases[i].row, cases[i].net, execute, cases[i].revocation, base, now);
    }
    SoundLinesTotal(lines, base);
  }

  lemma Distributes(a: nat, b: nat, base: nat)
    ensures (a + b) * base == a * base + b * base
  {
  }

  /** The lines an execute run reports, given those of the dry run. */
  ghost predicate Predicts(dry: seq<Line>, run: seq<Line>) {
    && |dry| == |run|
    && forall i :: 0 <= i < |dry| ==>
         (dry[i].disposition == Eligible && RevokeResult(run[i].disposition)) || dry[i] == run[i]
  }

  ghost predicate Ran(cases: seq<Case>, execute: bool, base: nat, now: Time, lines: seq<Line>) {
    && |lines| == |cases|
    && forall i :: 0 <= i < |cases| ==>
         lines[i] == LineOf(Dispose(cases[i].row, cases[i].net, execute, cases[i].revocation, base, now))
  }

  /** Predicted lines total alike, apart from what the eligible rows became. */
  lemma {:induction false} TotalsPredicted(dry: seq<Line>, run: seq<Line>)
    requires Predicts(dry, run)
    ensures forall d :: d != Eligible && !RevokeResult(d) ==> CountOf(dry, d) == CountOf(run, d)
    ensures forall d :: RevokeResult(d) ==> CountOf(dry, d) <= CountOf(run, d)
    ensures (forall i :: 0 <= i < |dry| && dry[i].disposition == Eligible ==> dry[i].reclaimedStroops == 0) ==>
              ReclaimedIn(dry) <= ReclaimedIn(run)
    decreases |dry|
  {
    if dry != [] {
      var n := |dry| - 1;
      assert Predicts(dry[..n], run[..n]);
      TotalsPredicted(dry[..n], run[..n]);
      assert forall i :: 0 <= i < n ==> dry[..n][i] == dry[i];
      assert dry[n] == dry[n] && run[n] == run[n];
    }
  }

  /**
   A dry run predicts an execute run of the same rows, chain and clock, line by line; its
   totals differ only in what the eligible rows became, and no line stays eligible.
   */
  lemma DryRunPredicts(cases: seq<Case>, base: nat, now: Time, dry: seq<Line>, run: seq<Line>)
    requires forall i :: 0 <= i < |cases| ==> Outstanding(cases[i].row)
    requires Ran(cases, false, base, now, dry) && Ran(cases, true, base, now, run)
    ensures Predicts(dry, run)
    ensures forall i :: 0 <= i < |run| ==> run[i].disposition != Eligible
    ensures forall d :: d != Eligible && !RevokeResult(d) ==> CountOf(dry, d) == CountOf(run, d)
    ensures forall d :: RevokeResult(d) ==> CountOf(dry, d) <= CountOf(run, d)
    ensures ReclaimedIn(dry) <= ReclaimedIn(run)
  {
    hide Dispose;
    forall i | 0 <= i < |cases|
      ensures (dry[i].disposition == Eligible && RevokeResult(run[i].disposition)) || dry[i] == run[i]
      ensures run[i].disposition != Eligible
      ensures dry[i].disposition == Eligible ==> dry[i].reclaimedStroops == 0
    {
      ExecuteAsPredicted(cases[i].row, cases[i].net, cases[i].revocation, base, now);
      DryRunWritesNothing(cases[i].row, cases[i].net, cases[i].revocation, base, now);
    }
    TotalsPredicted(dry, run);
  }
}
