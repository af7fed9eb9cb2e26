/**
 The sponsor's liability as the ledger records it, summed from the database's groups,
 and its relation to what the chain shows over every address.
 */
module SponsorshipLiability {
  import opened Wrappers
  import opened SponsorshipRows
  import opened SponsorshipProtocol
  import opened SponsorshipSafety

  /** One group of the outstanding rows. `kind` is free text in the database: `None` is an unknown value. */
  datatype Group = Group(kind: Option<Kind>, pending: bool, count: nat)

  datatype Counts = Counts(confirmed: nat, pending: nat)

  datatype Liability = Liability(outstanding: nat, pending: nat, reserveUnits: nat, trustline: Counts, account: Counts)

  function RowsIn(groups: seq<Group>): nat {
    if groups == [] then 0 else RowsIn(groups[..|groups| - 1]) + groups[|groups| - 1].count
  }

  function PendingIn(groups: seq<Group>): nat {
    if groups == [] then 0
    else PendingIn(groups[..|groups| - 1]) + (if groups[|groups| - 1].pending then groups[|groups| - 1].count else 0)
  }

  function UnitsIn(groups: seq<Group>): nat {
    if groups == [] then 0
    else
      var last := groups[|groups| - 1];
      UnitsIn(groups[..|groups| - 1]) + (if last.kind.Some? then last.count * ReserveUnits(last.kind.value) else 0)
  }

  function OfKey(groups: seq<Group>, kind: Kind, pending: bool): nat {
    if groups == [] then 0
    else
      var last := groups[|groups| - 1];
      OfKey(groups[..|groups| - 1], kind, pending) + (if last.kind == Some(kind) && last.pending == pending then last.count else 0)
  }

  predicate AllKnown(groups: seq<Group>) {
    forall i :: 0 <= i < |groups| ==> groups[i].kind.Some?
  }

  function Bump(c: Counts, pending: bool, count: nat): Counts {
    if pending then c.(pending := c.pending + count) else c.(confirmed := c.confirmed + count)
  }

  /** `sponsorshipLiability`: refuses to report rather than skip an unknown kind. */
  method ReportLiability(groups: seq<Group>) returns (r: Option<Liability>)
    ensures r.Some? <==> AllKnown(groups)
    ensures r.Some? ==>
              && r.value.outstanding == RowsIn(groups) && r.value.pending == PendingIn(groups)
              && r.value.reserveUnits == UnitsIn(groups)
              && r.value.trustline == Counts(OfKey(groups, Trustline, false), OfKey(groups, Trustline, true))
              && r.value.account == Counts(OfKey(groups, AccountAndTrustline, false), OfKey(groups, AccountAndTrustline, true))
  {
    var l := Liability(0, 0, 0, Counts(0, 0), Counts(0, 0));
    for i := 0 to |groups|
      invariant AllKnown(groups[..i])
      invariant l.outstanding == RowsIn(groups[..i]) && l.pending == PendingIn(groups[..i])
      invariant l.reserveUnits == UnitsIn(groups[..i])
      invariant l.trustline == Counts(OfKey(groups[..i], Trustline, false), OfKey(groups[..i], Trustline, true))
      invariant l.account == Counts(OfKey(groups[..i], AccountAndTrustline, false), OfKey(groups[..i], AccountAndTrustline, true))
    {
      var group := groups[i];
      assert groups[..i + 1][..i] == groups[..i];
      if group.kind == None { return None; }
      l := l.(outstanding := l.outstanding + group.count,
              pending := l.pending + (if group.pending then group.count else 0),
              reserveUnits := l.reserveUnits + group.count * ReserveUnits(group.kind.value),
              trustline := if group.kind.value == Trustline then Bump(l.trustline, group.pending, group.count) else l.trustline,
              account := if group.kind.value == Trustline then l.account else Bump(l.account, group.pending, group.count));
    }
    assert groups[..|groups|] == groups;
    r := Some(l);
  }

  lemma GroupUnits(count: nat, kind: Kind)
    ensures count * ReserveUnits(kind) == if kind == Trustline then count else 3 * count
  {
  }

  /** The totals are those of the four counts: what one row of each kind costs is all there is. */
  lemma {:induction false} TotalsOfCounts(groups: seq<Group>)
    requires AllKnown(groups)
    ensures var lines, accounts := OfKey(groups, Trustline, false), OfKey(groups, AccountAndTrustline, false);
            var newLines, newAccounts := OfKey(groups, Trustline, true), OfKey(groups, AccountAndTrustline, true);
            && RowsIn(groups) == lines + newLines + accounts + newAccounts
            && PendingIn(groups) == newLines + newAccounts
            && UnitsIn(groups) == lines + newLines + 3 * (accounts + newAccounts)
  {
    if groups != [] {
      TotalsOfCounts(groups[..|groups| - 1]);
      var last := groups[|groups| - 1];
      GroupUnits(last.count, last.kind.value);
    }
  }

  // ----- groups and rows -----

  predicate HasKey(row: Row, g: Group) {
    Outstanding(row) && g.kind == Some(row.kind) && g.pending == (row.status == Awaiting)
  }

  function CountRows(rows: seq<Row>, g: Group): nat {
    if rows == [] then 0 else CountRows(rows[..|rows| - 1], g) + (if HasKey(rows[|rows| - 1], g) then 1 else 0)
  }

  function OutstandingUnits(rows: seq<Row>): nat {
    if rows == [] then 0
    else OutstandingUnits(rows[..|rows| - 1]) + (if Outstanding(rows[|rows| - 1]) then ReserveUnits(rows[|rows| - 1].kind) else 0)
  }

  /** Outstanding rows of a kind that are pending, or confirmed. */
  function RowsOf(rows: seq<Row>, kind: Kind, pending: bool): nat {
    if rows == [] then 0
    else
      var last := rows[|rows| - 1];
      RowsOf(rows[..|rows| - 1], kind, pending)
      + (if !last.revoked && last.kind == kind && last.status == (if pending then Awaiting else Established) then 1 else 0)
  }

  lemma {:induction false} CountsTheKey(rows: seq<Row>, g: Group, kind: Kind, pending: bool)
    requires g.kind == Some(kind) && g.pending == pending
    ensures CountRows(rows, g) == RowsOf(rows, kind, pending)
  {
    if rows != [] {
      CountsTheKey(rows[..|rows| - 1], g, kind, pending);
    }
  }

  lemma {:induction false} NoneOfKey(rows: seq<Row>, kind: Kind, pending: bool)
    requires forall k :: 0 <= k < |rows| && Outstanding(rows[k]) ==> rows[k].kind != kind || (rows[k].status == Awaiting) != pending
    ensures RowsOf(rows, kind, pending) == 0
  {
    if rows != [] {
      NoneOfKey(rows[..|rows| - 1], kind, pending);
      assert Outstanding(rows[|rows| - 1]) ==> rows[|rows| - 1].kind != kind || (rows[|rows| - 1].status == Awaiting) != pending;
    }
  }

  lemma {:induction false} KeyIsItsGroup(groups: seq<Group>, kind: Kind, pending: bool)
    requires forall i, j :: 0 <= i < j < |groups| ==> (groups[i].kind, groups[i].pending) != (groups[j].kind, groups[j].pending)
    ensures forall i :: 0 <= i < |groups| && groups[i].kind == Some(kind) && groups[i].pending == pending ==>
              OfKey(groups, kind, pending) == groups[i].count
    ensures (forall i :: 0 <= i < |groups| ==> groups[i].kind != Some(kind) || groups[i].pending != pending) ==>
              OfKey(groups, kind, pending) == 0
  {
    if groups != [] {
      var n := |groups| - 1;
      KeyIsItsGroup(groups[..n], kind, pending);
      assert forall i :: 0 <= i < n ==> (groups[i].kind, groups[i].pending) != (groups[n].kind, groups[n].pending);
    }
  }

  /** Each of the report's four counts is the number of outstanding rows of that kind that are pending, or confirmed. */
  lemma CountsAreRows(groups: seq<Group>, rows: seq<Row>, kind: Kind, pending: bool)
    requires Summarizes(groups, rows)
    ensures OfKey(groups, kind, pending) == RowsOf(rows, kind, pending)
  {
    KeyIsItsGroup(groups, kind, pending);
    if i :| 0 <= i < |groups| && groups[i].kind == Some(kind) && groups[i].pending == pending {
      CountsTheKey(rows, groups[i], kind, pending);
    } else {
      forall k | 0 <= k < |rows| && Outstanding(rows[k]) ensures rows[k].kind != kind || (rows[k].status == Awaiting) != pending {
        var i :| 0 <= i < |groups| && HasKey(rows[k], groups[i]);
      }
      NoneOfKey(rows, kind, pending);
    }
  }

  /** What `groupBy` answers: one group a key, its count the rows of that key, and every outstanding row in one. */
  ghost predicate Summarizes(groups: seq<Group>, rows: seq<Row>) {
    && (forall i :: 0 <= i < |groups| ==> groups[i].count == CountRows(rows, groups[i]))
    && (forall i, j :: 0 <= i < j < |groups| ==> (groups[i].kind, groups[i].pending) != (groups[j].kind, groups[j].pending))
    && (forall k :: 0 <= k < |rows| && Outstanding(rows[k]) ==> exists i :: 0 <= i < |groups| && HasKey(rows[k], groups[i]))
  }

  /** The same groups over one row fewer. */
  function Recount(groups: seq<Group>, rows: seq<Row>): (r: seq<Group>)
    ensures |r| == |groups|
    ensures forall i :: 0 <= i < |groups| ==> r[i] == groups[i].(count := CountRows(rows, groups[i]))
  {
    if groups == [] then []
    else Recount(groups[..|groups| - 1], rows) + [groups[|groups| - 1].(count := CountRows(rows, groups[|groups| - 1]))]
  }

  ghost predicate Counted(groups: seq<Group>, rows: seq<Row>) {
    forall i :: 0 <= i < |groups| ==> groups[i].count == CountRows(rows, groups[i])
  }

  lemma CountOneMore(rows: seq<Row>, row: Row, g: Group)
    ensures CountRows(rows + [row], g) == CountRows(rows, g) + (if HasKey(row, g) then 1 else 0)
  {
    assert (rows + [row])[..|rows|] == rows;
  }

  /** A row with no group of its own changes no count. */
  lemma {:induction false} UnrelatedRow(groups: seq<Group>, rows: seq<Row>, row: Row)
    requires Counted(groups, rows + [row]) && forall i :: 0 <= i < |groups| ==> !HasKey(row, groups[i])
    ensures Recount(groups, rows) == groups
  {
    forall i | 0 <= i < |groups| ensures Recount(groups, rows)[i] == groups[i] {
      CountOneMore(rows, row, groups[i]);
    }
  }

  /** A row adds its units through its own group, and through no other. */
  lemma {:induction false} OneRowMore(groups: seq<Group>, rows: seq<Row>, row: Row, i: nat)
    requires Counted(groups, rows + [row]) && i < |groups| && HasKey(row, groups[i])
    requires forall j :: 0 <= j < |groups| && j != i ==> !HasKey(row, groups[j])
    ensures UnitsIn(groups) == UnitsIn(Recount(groups, rows)) + ReserveUnits(row.kind)
    decreases |groups|
  {
    var n := |groups| - 1;
    var fewer := Recount(groups, rows);
    assert fewer[..n] == Recount(groups[..n], rows);
    CountOneMore(rows, row, groups[n]);
    assert fewer[n] == groups[n].(count := CountRows(rows, groups[n]));
    if i == n {
      UnrelatedRow(groups[..n], rows, row);
      OneMoreTimes(fewer[n].count, ReserveUnits(row.kind));
    } else {
      OneRowMore(groups[..n], rows, row, i);
    }
  }

  lemma OneMoreTimes(count: nat, units: nat)
    ensures (count + 1) * units == count * units + units
  {
  }

  lemma {:induction false} NoRowsNoUnits(groups: seq<Group>)
    requires forall i :: 0 <= i < |groups| ==> groups[i].count == 0
    ensures UnitsIn(groups) == 0
    decreases |groups|
  {
    if groups != [] {
      NoRowsNoUnits(groups[..|groups| - 1]);
    }
  }

  /** Summed by group or row by row, the units are the same. */
  lemma {:induction false} GroupsTotalTheRows(groups: seq<Group>, rows: seq<Row>)
    requires Summarizes(groups, rows)
    ensures UnitsIn(groups) == OutstandingUnits(rows)
    decreases |rows|
  {
    if rows == [] {
      NoRowsNoUnits(groups);
    } else {
      var n := |rows| - 1;
      var fewer := Recount(groups, rows[..n]);
      assert rows == rows[..n] + [rows[n]];
      forall i | 0 <= i < |fewer| ensures fewer[i].count == CountRows(rows[..n], fewer[i]) {
        KeyDecidesCount(rows[..n], groups[i], fewer[i]);
      }
      forall k | 0 <= k < n && Outstanding(rows[..n][k]) ensures exists i :: 0 <= i < |fewer| && HasKey(rows[..n][k], fewer[i]) {
        var i :| 0 <= i < |groups| && HasKey(rows[k], groups[i]);
        assert HasKey(rows[..n][k], fewer[i]);
      }
      GroupsTotalTheRows(fewer, rows[..n]);
      if Outstanding(rows[n]) {
        var i :| 0 <= i < |groups| && HasKey(rows[n], groups[i]);
        assert forall j :: 0 <= j < |groups| && HasKey(rows[n], groups[j]) ==> (groups[j].kind, groups[j].pending) == (groups[i].kind, groups[i].pending);
        OneRowMore(groups, rows[..n], rows[n], i);
      } else {
        UnrelatedRow(groups, rows[..n], rows[n]);
      }
    }
  }

  lemma {:induction false} KeyDecidesCount(rows: seq<Row>, g: Group, h: Group)
    requires g.kind == h.kind && g.pending == h.pending
    ensures CountRows(rows, g) == CountRows(rows, h)
  {
    if rows != [] {
      KeyDecidesCount(rows[..|rows| - 1], g, h);
    }
  }

  // ----- liability and chain -----

  function AllRows(places: seq<Place>): seq<Row> {
    if places == [] then [] else AllRows(places[..|places| - 1]) + places[|places| - 1].rows
  }

  /** Every reserve unit the chain shows the sponsor paying for. */
  function ChainUnits(places: seq<Place>): nat {
    if places == [] then 0 else ChainUnits(places[..|places| - 1]) + UnitsOf(places[|places| - 1].account.sponsored)
  }

  lemma {:induction false} UnitsAppend(a: seq<Row>, b: seq<Row>)
    ensures OutstandingUnits(a + b) == OutstandingUnits(a) + OutstandingUnits(b)
    decreases |b|
  {
    if b == [] {
      assert a + b == a;
    } else {
      UnitsAppend(a, b[..|b| - 1]);
      assert (a + b)[..|a + b| - 1] == a + b[..|b| - 1];
    }
  }

  lemma {:induction false} RowIsCounted(rows: seq<Row>, i: nat)
    requires i < |rows| && Outstanding(rows[i])
    ensures OutstandingUnits(rows) >= ReserveUnits(rows[i].kind)
    decreases |rows|
  {
    if i < |rows| - 1 {
      RowIsCounted(rows[..|rows| - 1], i);
    }
  }

  lemma {:induction false} CoveredEverywhere(places: seq<Place>)
    requires forall i :: 0 <= i < |places| ==> !Understated(places[i])
    ensures ChainUnits(places) <= OutstandingUnits(AllRows(places))
    decreases |places|
  {
    if places != [] {
      var n := |places| - 1;
      CoveredEverywhere(places[..n]);
      UnitsAppend(AllRows(places[..n]), places[n].rows);
      if Current(places[n].rows).Some? {
        RowIsCounted(places[n].rows, Current(places[n].rows).value);
      }
    }
  }

  /** In every reachable state, the reported reserve units are at least the chain's total over every address. */
  lemma LiabilityCoversChain(m: Mode, states: seq<System>, labels: seq<Label>, k: nat, groups: seq<Group>)
    requires Careful(m) && Run(m, states, labels) && k < |states|
    requires Summarizes(groups, AllRows(states[k].places))
    ensures UnitsIn(groups) >= ChainUnits(states[k].places)
  {
    forall i | 0 <= i < |states[k].places| ensures !Understated(states[k].places[i]) {
      ReserveNeverUnderstated(m, states, labels, k, i);
    }
    CoveredEverywhere(states[k].places);
    GroupsTotalTheRows(groups, AllRows(states[k].places));
  }
}
