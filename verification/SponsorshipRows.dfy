/**
 The sponsored-reserve rows of one address, and the intent decision taken before a
 sponsorship envelope is broadcast: on values, and in place by `SponsorshipTable`.
 */
module SponsorshipRows {
  import opened Wrappers
  import opened StellarChain

  type UserId = nat

  datatype Kind = Trustline | AccountAndTrustline
  /** `pending`, `confirmed` and `failed`. */
  datatype RowStatus = Awaiting | Established | NeverLanded
  datatype Releaser = SponsorRevoke | Owner

  /** `confirmedBefore` is a non-null `confirmedAt`; `revoked` a non-null `revokedAt`. */
  datatype Row = Row(user: UserId, kind: Kind, txHash: Hash, status: RowStatus, confirmedBefore: bool,
                     expiresAt: Option<Time>, revoked: bool, releasedBy: Option<Releaser>,
                     reclaimTx: Option<Hash>, reclaimExpiresAt: Option<Time>)

  /** The ledger entries a sponsor may pay the reserve of. */
  datatype Entries = Entries(trustline: bool, account: bool)

  function UnitsOf(e: Entries): nat {
    (if e.trustline then 1 else 0) + (if e.account then 2 else 0)
  }

  function PaidFor(kind: Kind): Entries {
    Entries(true, kind == AccountAndTrustline)
  }

  function ReserveUnits(kind: Kind): nat {
    if kind == Trustline then 1 else 3
  }

  function OfKind(e: Entries, kind: Kind): Entries {
    Entries(e.trustline && PaidFor(kind).trustline, e.account && PaidFor(kind).account)
  }

  predicate Outstanding(row: Row) {
    !row.revoked && row.status != NeverLanded
  }

  /** The address's first outstanding row; the unique index allows one. */
  function Current(rows: seq<Row>): (i: Option<nat>)
    ensures i.Some? ==> i.value < |rows| && Outstanding(rows[i.value])
    ensures i == None ==> forall k :: 0 <= k < |rows| ==> !Outstanding(rows[k])
  {
    CurrentFrom(rows, 0)
  }

  function CurrentFrom(rows: seq<Row>, from: nat): (i: Option<nat>)
    requires from <= |rows|
    ensures i.Some? ==> from <= i.value < |rows| && Outstanding(rows[i.value])
    ensures i == None ==> forall k :: from <= k < |rows| ==> !Outstanding(rows[k])
    decreases |rows| - from
  {
    if from == |rows| then None
    else if Outstanding(rows[from]) then Some(from)
    else CurrentFrom(rows, from + 1)
  }

  /** The partial unique index. */
  ghost predicate OneOutstanding(rows: seq<Row>) {
    forall i, j :: 0 <= i < |rows| && 0 <= j < |rows| && Outstanding(rows[i]) && Outstanding(rows[j]) ==> i == j
  }

  // ----- conditional updates -----

  /** `confirmSponsorship`: only while row `i` still carries this hash. */
  function ConfirmRow(rows: seq<Row>, i: nat, h: Hash): seq<Row> {
    if i < |rows| && rows[i].txHash == h && rows[i].status != Established
    then rows[i := rows[i].(status := Established, confirmedBefore := true)] else rows
  }

  /** `failSponsorship`: a row confirmed before goes back to confirmed, any other fails. */
  function FailRow(rows: seq<Row>, i: nat, h: Hash): seq<Row> {
    if i < |rows| && rows[i].txHash == h && rows[i].status == Awaiting
    then rows[i := rows[i].(status := if rows[i].confirmedBefore then Established else NeverLanded)] else rows
  }

  function MarkReleased(row: Row, releaser: Releaser, tx: Option<Hash>): Row {
    if row.revoked then row
    else row.(revoked := true, releasedBy := Some(releaser), reclaimTx := tx,
              reclaimExpiresAt := if releaser == Owner then None else row.reclaimExpiresAt)
  }

  function ClearIntent(row: Row, g: Hash): Row {
    if !row.revoked && row.reclaimTx == Some(g) then row.(reclaimTx := None, reclaimExpiresAt := None) else row
  }

  // ----- the intent -----

  datatype Intent = Intent(user: UserId, kind: Kind, txHash: Hash, expiresAt: Time)

  /** What one pass reads of the network; `None` is a lookup that threw. */
  datatype IntentReads = IntentReads(prior: Option<TxStatus>, chain: Option<OnChain>)
  datatype OnChain = OnChain(usdcTrustline: bool, sponsored: Entries)

  /** `Raced` is a unique violation or a row changed underneath: the decision is taken again. */
  datatype Decision = Submit(id: nat) | AlreadyConfirmed | PriorPending | AddressInUse | LookupThrew | Raced

  datatype Decided = Decided(rows: seq<Row>, decision: Decision)

  function PendingRow(intent: Intent): Row {
    Row(intent.user, intent.kind, intent.txHash, Awaiting, false, Some(intent.expiresAt), false, None, None, None)
  }

  /** `createPending`, which the unique index may refuse. */
  function CreatePending(rows: seq<Row>, intent: Intent): Decided {
    if Current(rows) == None then Decided(rows + [PendingRow(intent)], Submit(|rows|)) else Decided(rows, Raced)
  }

  /** `resetConfirmed`: a confirmed row whose trustline is gone is released by its owner, or reopened. */
  function ResetConfirmed(rows: seq<Row>, i: nat, intent: Intent, sponsored: Entries): Decided
    requires i < |rows|
  {
    if rows[i].reclaimTx.Some? then Decided(rows, Raced)
    else if UnitsOf(OfKind(sponsored, rows[i].kind)) == 0 then
      CreatePending(rows[i := rows[i].(revoked := true, releasedBy := Some(Owner))], intent)
    else
      Decided(rows[i := rows[i].(status := Awaiting, txHash := intent.txHash, expiresAt := Some(intent.expiresAt))], Submit(i))
  }

  predicate Expired(expiresAt: Option<Time>, now: Time) {
    expiresAt == None || expiresAt.value < now
  }

  /** One read-then-write pass. */
  function DecideIntent(rows: seq<Row>, intent: Intent, net: IntentReads, now: Time): Decided {
    match Current(rows)
    case None => CreatePending(rows, intent)
    case Some(i) =>
      var row := rows[i];
      if row.user != intent.user then Decided(rows, AddressInUse)
      else if row.status == Established then
        if net.chain == None then Decided(rows, LookupThrew)
        else if net.chain.value.usdcTrustline then Decided(rows, AlreadyConfirmed)
        else ResetConfirmed(rows, i, intent, net.chain.value.sponsored)
      else if row.txHash == intent.txHash then Decided(rows, Submit(i))
      else if net.prior == None then Decided(rows, LookupThrew)
      else if net.prior.value == TxStatus.Confirmed then Decided(ConfirmRow(rows, i, row.txHash), AlreadyConfirmed)
      else if net.prior.value == NotFound && !Expired(row.expiresAt, now) then Decided(rows, PriorPending)
      else CreatePending(FailRow(rows, i, row.txHash), intent)
  }

  const INTENT_ATTEMPTS: nat := 3

  /** `openSponsorshipIntent`: decide again after a race, a bounded number of times. */
  function OpenIntent(rows: seq<Row>, intent: Intent, net: seq<IntentReads>, now: Time): Decided
    decreases |net|
  {
    if net == [] then Decided(rows, Raced)
    else
      var d := DecideIntent(rows, intent, net[0], now);
      if d.decision == Raced then OpenIntent(d.rows, intent, net[1..], now) else d
  }

  /** The rows of one address as the database holds them. */
  class SponsorshipTable {
    var rows: seq<Row>

    constructor (initial: seq<Row>)
      ensures rows == initial
    {
      rows := initial;
    }

    /** Insert the pending row unless the unique index refuses it. */
    method Create(intent: Intent) returns (decision: Decision)
      modifies this
      ensures Decided(rows, decision) == CreatePending(old(rows), intent)
    {
      if Current(rows) != None { return Raced; }
      rows := rows + [PendingRow(intent)];
      decision := Submit(|rows| - 1);
    }

    method Confirm(i: nat, h: Hash)
      modifies this
      ensures rows == ConfirmRow(old(rows), i, h)
      ensures |rows| == |old(rows)| && forall k :: 0 <= k < |rows| ==>
                rows[k] == if k == i && old(rows)[k].txHash == h && old(rows)[k].status != Established
                           then old(rows)[k].(status := Established, confirmedBefore := true) else old(rows)[k]
    {
      if i < |rows| && rows[i].txHash == h && rows[i].status != Established {
        rows := rows[i := rows[i].(status := Established, confirmedBefore := true)];
      }
    }

    /** Two conditional updates, in the source's order; the second cannot see a row the first moved. */
    method Fail(i: nat, h: Hash)
      modifies this
      ensures rows == FailRow(old(rows), i, h)
      ensures |rows| == |old(rows)| && forall k :: 0 <= k < |rows| ==>
                rows[k] == if k == i && old(rows)[k].txHash == h && old(rows)[k].status == Awaiting
                           then old(rows)[k].(status := if old(rows)[k].confirmedBefore then Established else NeverLanded)
                           else old(rows)[k]
    {
      if i < |rows| && rows[i].txHash == h && rows[i].status == Awaiting && rows[i].confirmedBefore {
        rows := rows[i := rows[i].(status := Established)];
      }
      if i < |rows| && rows[i].txHash == h && rows[i].status == Awaiting && !rows[i].confirmedBefore {
        rows := rows[i := rows[i].(status := NeverLanded)];
      }
    }

    method Reset(i: nat, intent: Intent, sponsored: Entries) returns (decision: Decision)
      requires i < |rows|
      modifies this
      ensures Decided(rows, decision) == ResetConfirmed(old(rows), i, intent, sponsored)
    {
      var paidFor := PaidFor(rows[i].kind);
      var stillSponsored := (sponsored.trustline && paidFor.trustline) || (sponsored.account && paidFor.account);
      if rows[i].reclaimTx.Some? { return Raced; }
      if !stillSponsored {
        rows := rows[i := rows[i].(revoked := true, releasedBy := Some(Owner))];
        decision := Create(intent);
        return decision;
      }
      rows := rows[i := rows[i].(status := Awaiting, txHash := intent.txHash, expiresAt := Some(intent.expiresAt))];
      decision := Submit(i);
    }

    method Decide(intent: Intent, net: IntentReads, now: Time) returns (decision: Decision)
      modifies this
      ensures Decided(rows, decision) == DecideIntent(old(rows), intent, net, now)
    {
      var current := Current(rows);
      if current == None {
        decision := Create(intent);
        return decision;
      }
      var i := current.value;
      if rows[i].user != intent.user { return AddressInUse; }
      if rows[i].status == Established {
        if net.chain == None { return LookupThrew; }
        if net.chain.value.usdcTrustline { return AlreadyConfirmed; }
        decision := Reset(i, intent, net.chain.value.sponsored);
        return decision;
      }
      if rows[i].txHash == intent.txHash { return Submit(i); }
      if net.prior == None { return LookupThrew; }
      var prior := net.prior.value;
      if prior == TxStatus.Confirmed {
        Confirm(i, rows[i].txHash);
        return AlreadyConfirmed;
      }
      var expired := rows[i].expiresAt == None || rows[i].expiresAt.value < now;
      if prior == NotFound && !expired { return PriorPending; }
      Fail(i, rows[i].txHash);
      decision := Create(intent);
    }

    /** The bounded retry loop; `net[k]` is what the network answers to attempt `k`. */
    method OpenSponsorshipIntent(intent: Intent, net: seq<IntentReads>, now: Time) returns (decision: Decision)
      requires |net| == INTENT_ATTEMPTS
      modifies this
      ensures Decided(rows, decision) == OpenIntent(old(rows), intent, net, now)
    {
      decision := Raced;
      var attempt := 0;
      while attempt < INTENT_ATTEMPTS && decision == Raced
        invariant 0 <= attempt <= INTENT_ATTEMPTS
        invariant decision == Raced ==> OpenIntent(rows, intent, net[attempt..], now) == OpenIntent(old(rows), intent, net, now)
        invariant decision != Raced ==> Decided(rows, decision) == OpenIntent(old(rows), intent, net, now)
      {
        assert net[attempt..][0] == net[attempt] && net[attempt..][1..] == net[attempt + 1..];
        decision := Decide(intent, net[attempt], now);
        attempt := attempt + 1;
      }
    }
  }

  // ----- what the decision is, and keeps -----

  /** An address with no outstanding row gets a pending one, and its envelope is submitted. */
  lemma FreshAddressSubmits(rows: seq<Row>, intent: Intent, net: IntentReads, now: Time)
    requires forall k :: 0 <= k < |rows| ==> rows[k].revoked || rows[k].status == NeverLanded
    ensures DecideIntent(rows, intent, net, now) ==
              Decided(rows + [Row(intent.user, intent.kind, intent.txHash, Awaiting, false, Some(intent.expiresAt), false, None, None, None)],
                      Submit(|rows|))
  {
  }

  /** The row's earlier envelope was not found, and its bound is not past: it may still land. */
  predicate EarlierMayLand(row: Row, net: IntentReads, now: Time) {
    net.prior == Some(NotFound) && row.expiresAt.Some? && row.expiresAt.value >= now
  }

  predicate StillSponsors(row: Row, chain: OnChain) {
    chain.sponsored.trustline || (row.kind == AccountAndTrustline && chain.sponsored.account)
  }

  /**
   Against the address's one outstanding row, exactly when the intent is refused, found
   confirmed already, or to be decided again.
   */
  lemma DecisionExactly(rows: seq<Row>, intent: Intent, net: IntentReads, now: Time, i: nat)
    requires OneOutstanding(rows) && i < |rows| && Outstanding(rows[i])
    ensures var d, row := DecideIntent(rows, intent, net, now).decision, rows[i];
            var mine := row.user == intent.user;
            var asks := mine && row.status == Awaiting && row.txHash != intent.txHash;
            var gone := mine && row.status == Established && net.chain.Some? && !net.chain.value.usdcTrustline;
            && (d == AddressInUse <==> !mine)
            && (d == LookupThrew <==> (mine && row.status == Established && net.chain == None) || (asks && net.prior == None))
            && (d == AlreadyConfirmed <==>
                  || (mine && row.status == Established && net.chain.Some? && net.chain.value.usdcTrustline)
                  || (asks && net.prior == Some(TxStatus.Confirmed)))
            && (d == PriorPending <==> asks && EarlierMayLand(row, net, now))
            && (d == Raced <==>
                  || (gone && row.reclaimTx.Some?)
                  || (asks && net.prior.Some? && net.prior.value != TxStatus.Confirmed && !EarlierMayLand(row, net, now) && row.confirmedBefore))
  {
    assert Current(rows) == Some(i);
    OthersNotOutstanding(rows, i, rows[i].(status := NeverLanded));
    OthersNotOutstanding(rows, i, rows[i].(status := Established));
    OthersNotOutstanding(rows, i, rows[i].(revoked := true, releasedBy := Some(Owner)));
    hide UnitsOf, OfKind;
  }

  lemma StillUnits(row: Row, net: IntentReads)
    ensures net.chain.Some? ==> (UnitsOf(OfKind(net.chain.value.sponsored, row.kind)) == 0 <==> !StillSponsors(row, net.chain.value))
  {
  }

  /**
   And what it writes: it submits its own pending row again, reopens a confirmed one whose
   trustline is gone while the sponsor still pays for it, or replaces one that is released or
   can never land; and it confirms what Horizon shows confirmed.
   */
  lemma WritesExactly(rows: seq<Row>, intent: Intent, net: IntentReads, now: Time, i: nat)
    requires OneOutstanding(rows) && i < |rows| && Outstanding(rows[i])
    ensures var d, row := DecideIntent(rows, intent, net, now), rows[i];
            var pending := Row(intent.user, intent.kind, intent.txHash, Awaiting, false, Some(intent.expiresAt), false, None, None, None);
            match d.decision
            case Submit(id) =>
              if row.status == Awaiting && row.txHash == intent.txHash then id == i && d.rows == rows
              else if row.status == Awaiting then id == |rows| && d.rows == rows[i := row.(status := NeverLanded)] + [pending]
              else if StillSponsors(row, net.chain.value)
              then id == i && d.rows == rows[i := row.(status := Awaiting, txHash := intent.txHash, expiresAt := Some(intent.expiresAt))]
              else id == |rows| && d.rows == rows[i := row.(revoked := true, releasedBy := Some(Owner))] + [pending]
            case AlreadyConfirmed =>
              d.rows == if row.status == Awaiting then rows[i := row.(status := Established, confirmedBefore := true)] else rows
            case Raced => d.rows == if row.status == Awaiting then rows[i := row.(status := Established)] else rows
            case _ => d.rows == rows
  {
    assert Current(rows) == Some(i);
    if rows[i].status == Established {
      StillUnits(rows[i], net);
    }
    if rows[i].status == Awaiting {
      OthersNotOutstanding(rows, i, rows[i].(status := NeverLanded));
      OthersNotOutstanding(rows, i, rows[i].(status := Established));
    } else {
      OthersNotOutstanding(rows, i, rows[i].(revoked := true, releasedBy := Some(Owner)));
    }
    hide UnitsOf, OfKind;
  }

  lemma OthersNotOutstanding(rows: seq<Row>, i: nat, row: Row)
    requires OneOutstanding(rows) && i < |rows| && Outstanding(rows[i])
    ensures Current(rows[i := row]) == if Outstanding(row) then Some(i) else None
  {
    var t := rows[i := row];
    assert forall k :: 0 <= k < |t| && k != i ==> t[k] == rows[k] && !Outstanding(t[k]);
    if Current(t) != None {
      assert Outstanding(t[Current(t).value]);
    } else {
      assert !Outstanding(t[i]);
    }
  }

  /** Every pass keeps one outstanding row per address. */
  lemma DecideKeepsOne(rows: seq<Row>, intent: Intent, net: IntentReads, now: Time)
    requires OneOutstanding(rows)
    ensures OneOutstanding(DecideIntent(rows, intent, net, now).rows)
  {
  }

  lemma {:induction false} OpenKeepsOne(rows: seq<Row>, intent: Intent, net: seq<IntentReads>, now: Time)
    requires OneOutstanding(rows)
    ensures OneOutstanding(OpenIntent(rows, intent, net, now).rows)
    decreases |net|
  {
    if net != [] {
      DecideKeepsOne(rows, intent, net[0], now);
      var d := DecideIntent(rows, intent, net[0], now);
      if d.decision == Raced {
        OpenKeepsOne(d.rows, intent, net[1..], now);
      }
    }
  }

  /** A row another user holds is never touched, and a lookup that throws writes nothing. */
  lemma RefusalWritesNothing(rows: seq<Row>, intent: Intent, net: IntentReads, now: Time)
    ensures var d := DecideIntent(rows, intent, net, now);
            (d.decision == AddressInUse || d.decision == LookupThrew || d.decision == PriorPending) ==> d.rows == rows
    ensures Current(rows).Some? && rows[Current(rows).value].user != intent.user ==>
              DecideIntent(rows, intent, net, now) == Decided(rows, AddressInUse)
  {
  }

  /**
   Two passes always decide unless a revocation holds the row: the first may put a
   reopened row back to confirmed and collide with it, and the second then resets it.
   */
  lemma TwoPassesDecide(rows: seq<Row>, intent: Intent, net: seq<IntentReads>, now: Time)
    requires OneOutstanding(rows) && |net| >= 2
    requires OpenIntent(rows, intent, net, now).decision == Raced
    ensures Current(rows).Some? && rows[Current(rows).value].reclaimTx.Some?
  {
    var d := DecideIntent(rows, intent, net[0], now);
    DecideKeepsOne(rows, intent, net[0], now);
    var second := DecideIntent(d.rows, intent, net[1], now);
    assert net[1..][0] == net[1];
    assert d.decision == Raced && second.decision == Raced;
    var i := Current(rows).value;
    assert Outstanding(d.rows[i]);
    assert Current(d.rows) == Some(i);
  }
}
