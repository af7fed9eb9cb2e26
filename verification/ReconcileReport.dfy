/**
 The zero-unreconciled report: every submission of the window counted by status, every
 broadcast hash put in exactly one place, and the window judged as a volume proof.
 */
module ReconcileReport {
  import opened Wrappers

  type Id = nat
  type Hash = nat
  type Wallet = nat

  /** `Other` is any status the report has no rule for (`accrued`, or one added later). */
  datatype Status = Pending | Sent | Failed | Abandoned | Held | Confirmed | Skipped | Other

  datatype JobTuple = JobTuple(txHash: Option<Hash>, amountUnits: Option<nat>, broadcastAt: Option<int>)

  datatype AttemptStatus = Open | Landed | Void
  datatype Attempt = Attempt(status: AttemptStatus, expiresAt: int)

  datatype Row = Row(id: Id, status: Status, hash: Option<Hash>, amount: nat, mismatch: bool, wallet: Option<Wallet>,
                     createdAt: int, job: Option<JobTuple>, attempts: seq<Attempt>)

  /** What Horizon answers for a hash. `pays` is `verifySettledPayout`'s verdict for this submission. */
  datatype Lookup = Unreadable | Missing | IncludedAndFailed | Applied(pays: bool)

  /** What the report reads besides its rows. `shared` holds every hash recorded on more than one submission. */
  datatype Sources = Sources(now: int, overdueMs: int, shared: set<Hash>, fixtures: set<Hash>, legacyEvm: set<Hash>,
                             horizon: Option<map<Hash, Lookup>>)

  datatype Kind =
    | SentOverdue | TerminalWithHash | HeldPayment | HeldMismatch | AttemptExpiredOpen | SharedHash
    | MultipleLandedAttempts | HorizonMismatch | HorizonFailed | HorizonMissing | HorizonUnreadable
    | HorizonUnchecked | PayoutJobTupleMissing

  datatype Finding = Finding(kind: Kind, id: Id)

  datatype Bucket = QaFixture | LegacyEvm

  datatype StatusTotal = StatusTotal(count: nat, units: nat)

  datatype Report = Report(byStatus: map<Status, StatusTotal>, reconciled: seq<Id>, pending: seq<Id>,
                           qaFixture: seq<Id>, legacyEvm: seq<Id>, unreconciled: seq<Finding>,
                           paidPerWallet: map<Wallet, nat>)

  // ----- one row -----

  function ExcludedBucket(s: Sources, h: Hash): Option<Bucket> {
    if h in s.fixtures then Some(QaFixture) else if h in s.legacyEvm then Some(LegacyEvm) else None
  }

  /** None when Horizon shows the payout applied exactly as owed. */
  function CheckOnHorizon(s: Sources, h: Hash, destination: Option<Wallet>): Option<Kind> {
    if s.horizon == None then Some(HorizonUnchecked)
    else if h !in s.horizon.value || s.horizon.value[h] == Unreadable then Some(HorizonUnreadable)
    else if s.horizon.value[h] == Missing then Some(HorizonMissing)
    else if s.horizon.value[h] == IncludedAndFailed then Some(HorizonFailed)
    else if destination == None || !s.horizon.value[h].pays then Some(HorizonMismatch)
    else None
  }

  predicate ExpiredOpen(a: Attempt, now: int) {
    a.status == Open && a.expiresAt < now
  }

  function LandedCount(attempts: seq<Attempt>): nat {
    if attempts == [] then 0 else LandedCount(attempts[1..]) + (if attempts[0].status == Landed then 1 else 0)
  }

  predicate HasExpiredOpen(row: Row, now: int) {
    exists i :: 0 <= i < |row.attempts| && ExpiredOpen(row.attempts[i], now)
  }

  function If(c: bool, kind: Kind): seq<Kind> {
    if c then [kind] else []
  }

  predicate Overdue(s: Sources, row: Row) {
    var sentAt := if row.job.Some? && row.job.value.broadcastAt.Some? then row.job.value.broadcastAt.value else row.createdAt;
    s.now - sentAt > s.overdueMs
  }

  predicate TupleMissing(row: Row) {
    row.job.Some? && (row.job.value.txHash == None || row.job.value.amountUnits == None || row.job.value.broadcastAt == None)
  }

  /** Journal findings hold whatever the row's hash looks like. */
  function JournalFindings(s: Sources, row: Row): seq<Kind> {
    If(HasExpiredOpen(row, s.now), AttemptExpiredOpen) + If(LandedCount(row.attempts) > 1, MultipleLandedAttempts)
  }

  /** The findings of a hash Horizon can answer for, by status. */
  function HashFindings(s: Sources, row: Row, h: Hash): seq<Kind> {
    If(h in s.shared, SharedHash) +
    match row.status
    case Sent => If(Overdue(s, row), SentOverdue)
    case Failed => [TerminalWithHash]
    case Abandoned => [TerminalWithHash]
    case Held => [if row.mismatch then HeldMismatch else HeldPayment]
    case Confirmed =>
      If(TupleMissing(row), PayoutJobTupleMissing)
      + (match CheckOnHorizon(s, h, row.wallet) case None => [] case Some(kind) => [kind])
    case _ => []
  }

  predicate Broadcast(s: Sources, row: Row) {
    row.hash.Some? && ExcludedBucket(s, row.hash.value) == None
  }

  function Findings(s: Sources, row: Row): seq<Kind> {
    JournalFindings(s, row) + (if Broadcast(s, row) then HashFindings(s, row, row.hash.value) else [])
  }

  predicate IsReconciled(s: Sources, row: Row) {
    Broadcast(s, row) && row.status == Confirmed && Findings(s, row) == []
  }

  predicate IsPending(s: Sources, row: Row) {
    Broadcast(s, row) && row.status == Sent && Findings(s, row) == []
  }

  predicate IsExcluded(s: Sources, row: Row, bucket: Bucket) {
    row.hash.Some? && ExcludedBucket(s, row.hash.value) == Some(bucket)
  }

  // ----- the report on values -----

  function Tagged(kinds: seq<Kind>, id: Id): (r: seq<Finding>)
    ensures |r| == |kinds| && forall i :: 0 <= i < |r| ==> r[i] == Finding(kinds[i], id)
  {
    if kinds == [] then [] else Tagged(kinds[..|kinds| - 1], id) + [Finding(kinds[|kinds| - 1], id)]
  }

  function ReconciledIn(s: Sources, rows: seq<Row>): seq<Id> {
    if rows == [] then []
    else ReconciledIn(s, rows[..|rows| - 1]) + (if IsReconciled(s, rows[|rows| - 1]) then [rows[|rows| - 1].id] else [])
  }

  function PendingIn(s: Sources, rows: seq<Row>): seq<Id> {
    if rows == [] then []
    else PendingIn(s, rows[..|rows| - 1]) + (if IsPending(s, rows[|rows| - 1]) then [rows[|rows| - 1].id] else [])
  }

  function ExcludedIn(s: Sources, rows: seq<Row>, bucket: Bucket): seq<Id> {
    if rows == [] then []
    else ExcludedIn(s, rows[..|rows| - 1], bucket) + (if IsExcluded(s, rows[|rows| - 1], bucket) then [rows[|rows| - 1].id] else [])
  }

  function UnreconciledIn(s: Sources, rows: seq<Row>): seq<Finding> {
    if rows == [] then []
    else UnreconciledIn(s, rows[..|rows| - 1]) + Tagged(Findings(s, rows[|rows| - 1]), rows[|rows| - 1].id)
  }

  function StatusCount(rows: seq<Row>, status: Status): nat {
    if rows == [] then 0 else StatusCount(rows[..|rows| - 1], status) + (if rows[|rows| - 1].status == status then 1 else 0)
  }

  function StatusUnits(rows: seq<Row>, status: Status): nat {
    if rows == [] then 0
    else StatusUnits(rows[..|rows| - 1], status) + (if rows[|rows| - 1].status == status then rows[|rows| - 1].amount else 0)
  }

  function PaidTo(s: Sources, rows: seq<Row>, w: Wallet): nat {
    if rows == [] then 0
    else PaidTo(s, rows[..|rows| - 1], w) + (if IsReconciled(s, rows[|rows| - 1]) && rows[|rows| - 1].wallet == Some(w) then 1 else 0)
  }

  // ----- the report as it is built -----

  method CountStatuses(rows: seq<Row>) returns (byStatus: map<Status, StatusTotal>)
    ensures forall st :: st in byStatus <==> StatusCount(rows, st) > 0
    ensures forall st :: st in byStatus ==> byStatus[st] == StatusTotal(StatusCount(rows, st), StatusUnits(rows, st))
  {
    byStatus := map[];
    for i := 0 to |rows|
      invariant forall st :: st in byStatus <==> StatusCount(rows[..i], st) > 0
      invariant forall st :: StatusCount(rows[..i], st) == 0 ==> StatusUnits(rows[..i], st) == 0
      invariant forall st :: st in byStatus ==> byStatus[st] == StatusTotal(StatusCount(rows[..i], st), StatusUnits(rows[..i], st))
    {
      assert rows[..i + 1][..i] == rows[..i];
      assert forall st :: StatusCount(rows[..i + 1], st) == StatusCount(rows[..i], st) + (if rows[i].status == st then 1 else 0);
      assert forall st :: StatusUnits(rows[..i + 1], st) == StatusUnits(rows[..i], st) + (if rows[i].status == st then rows[i].amount else 0);
      var bucket := if rows[i].status in byStatus then byStatus[rows[i].status] else StatusTotal(0, 0);
      byStatus := byStatus[rows[i].status := StatusTotal(bucket.count + 1, bucket.units + rows[i].amount)];
    }
    assert rows[..|rows|] == rows;
  }

  /** The findings of a hash Horizon can answer for, pushed after the journal's. */
  method ClassifyHash(s: Sources, row: Row, h: Hash, journal: seq<Kind>)
    returns (found: seq<Kind>, reconciled: bool, pending: bool)
    ensures found == journal + HashFindings(s, row, h)
    ensures reconciled <==> row.status == Confirmed && |found| == 0
    ensures pending <==> row.status == Sent && |found| == 0
  {
    found, reconciled, pending := journal, false, false;
    if h in s.shared { found := found + [SharedHash]; }
    ghost var shared := found;
    if row.status == Sent {
      if Overdue(s, row) {
        found := found + [SentOverdue];
      } else if |found| == 0 {
        pending := true;
      }
    } else if row.status == Failed || row.status == Abandoned {
      found := found + [TerminalWithHash];
    } else if row.status == Held {
      found := found + [if row.mismatch then HeldMismatch else HeldPayment];
    } else if row.status == Confirmed {
      if TupleMissing(row) { found := found + [PayoutJobTupleMissing]; }
      var onChain := CheckOnHorizon(s, h, row.wallet);
      if onChain.Some? {
        found := found + [onChain.value];
      } else if |found| == 0 {
        reconciled := true;
      }
    }
    assert shared == journal + If(h in s.shared, SharedHash);
    assert found == shared + found[|shared|..];
  }

  /** The findings of one row, in the source's order, and whether it is reconciled or pending. */
  method Classify(s: Sources, row: Row) returns (found: seq<Kind>, reconciled: bool, pending: bool)
    ensures found == Findings(s, row)
    ensures reconciled == IsReconciled(s, row) && pending == IsPending(s, row)
  {
    found, reconciled, pending := [], false, false;
    if HasExpiredOpen(row, s.now) { found := found + [AttemptExpiredOpen]; }
    if LandedCount(row.attempts) > 1 { found := found + [MultipleLandedAttempts]; }
    if row.hash == None || ExcludedBucket(s, row.hash.value) != None { return; }
    found, reconciled, pending := ClassifyHash(s, row, row.hash.value, found);
  }

  /** What one more row adds to every list and count. */
  lemma OneRowMore(s: Sources, rows: seq<Row>, i: nat)
    requires i < |rows|
    ensures var row, before, after := rows[i], rows[..i], rows[..i + 1];
            && ReconciledIn(s, after) == ReconciledIn(s, before) + (if IsReconciled(s, row) then [row.id] else [])
            && PendingIn(s, after) == PendingIn(s, before) + (if IsPending(s, row) then [row.id] else [])
            && ExcludedIn(s, after, QaFixture) == ExcludedIn(s, before, QaFixture) + (if IsExcluded(s, row, QaFixture) then [row.id] else [])
            && ExcludedIn(s, after, LegacyEvm) == ExcludedIn(s, before, LegacyEvm) + (if IsExcluded(s, row, LegacyEvm) then [row.id] else [])
            && UnreconciledIn(s, after) == UnreconciledIn(s, before) + Tagged(Findings(s, row), row.id)
            && (forall w: Wallet :: PaidTo(s, after, w) == PaidTo(s, before, w) + (if IsReconciled(s, row) && row.wallet == Some(w) then 1 else 0))
            && (IsReconciled(s, row) ==> !IsPending(s, row))
            && (IsReconciled(s, row) || IsPending(s, row) ==> row.hash.Some? && ExcludedBucket(s, row.hash.value) == None)
  {
    assert rows[..i + 1][..i] == rows[..i];
    hide Findings, ExcludedBucket, Tagged;
  }

  /** `buildReconcileReport`'s loop over the window. */
  method BuildReconcileReport(s: Sources, rows: seq<Row>) returns (r: Report)
    ensures r.reconciled == ReconciledIn(s, rows) && r.pending == PendingIn(s, rows)
    ensures r.qaFixture == ExcludedIn(s, rows, QaFixture) && r.legacyEvm == ExcludedIn(s, rows, LegacyEvm)
    ensures r.unreconciled == UnreconciledIn(s, rows)
    ensures forall st :: st in r.byStatus <==> StatusCount(rows, st) > 0
    ensures forall st :: st in r.byStatus ==> r.byStatus[st] == StatusTotal(StatusCount(rows, st), StatusUnits(rows, st))
    ensures forall w :: w in r.paidPerWallet <==> PaidTo(s, rows, w) > 0
    ensures forall w :: w in r.paidPerWallet ==> r.paidPerWallet[w] == PaidTo(s, rows, w)
    ensures SumOf(r.paidPerWallet) == |r.reconciled|
  {
    var byStatus := CountStatuses(rows);
    var reconciled: seq<Id>, pending: seq<Id>, qaFixture: seq<Id>, legacyEvm: seq<Id> := [], [], [], [];
    var unreconciled: seq<Finding> := [];
    var paidPerWallet: map<Wallet, nat> := map[];
    NoRowsNothing(s, rows[..0]);
    hide ReconciledIn, PendingIn, ExcludedIn, UnreconciledIn, PaidTo, SumOf, IsReconciled, IsPending, Findings, ExcludedBucket,
         StatusCount, StatusUnits, Tagged;
    for i := 0 to |rows|
      invariant reconciled == ReconciledIn(s, rows[..i]) && pending == PendingIn(s, rows[..i])
      invariant qaFixture == ExcludedIn(s, rows[..i], QaFixture) && legacyEvm == ExcludedIn(s, rows[..i], LegacyEvm)
      invariant unreconciled == UnreconciledIn(s, rows[..i])
      invariant forall w :: w in paidPerWallet <==> PaidTo(s, rows[..i], w) > 0
      invariant forall w :: w in paidPerWallet ==> paidPerWallet[w] == PaidTo(s, rows[..i], w)
      invariant SumOf(paidPerWallet) == |reconciled|
    {
      var row := rows[i];
      OneRowMore(s, rows, i);
      var found, isReconciled, isPending := Classify(s, row);
      if row.hash.Some? && ExcludedBucket(s, row.hash.value) == Some(QaFixture) {
        qaFixture := qaFixture + [row.id];
      } else if row.hash.Some? && ExcludedBucket(s, row.hash.value) == Some(LegacyEvm) {
        legacyEvm := legacyEvm + [row.id];
      } else if isPending {
        pending := pending + [row.id];
      } else if isReconciled {
        ReconciledHasWallet(s, row);
        reconciled := reconciled + [row.id];
        paidPerWallet := CountPayout(paidPerWallet, row.wallet.value);
      }
      unreconciled := unreconciled + Tagged(found, row.id);
    }
    assert rows[..|rows|] == rows;
    r := Report(byStatus, reconciled, pending, qaFixture, legacyEvm, unreconciled, paidPerWallet);
  }

  /** `paidPerWallet.set(w, (paidPerWallet.get(w) ?? 0) + 1)`. */
  method CountPayout(paid: map<Wallet, nat>, w: Wallet) returns (more: map<Wallet, nat>)
    ensures more == paid[w := (if w in paid then paid[w] else 0) + 1]
    ensures SumOf(more) == SumOf(paid) + 1
  {
    var before := if w in paid then paid[w] else 0;
    SumOfUpdate(paid, w, before + 1);
    more := paid[w := before + 1];
  }

  lemma NoRowsNothing(s: Sources, rows: seq<Row>)
    requires rows == []
    ensures ReconciledIn(s, rows) == PendingIn(s, rows) == [] && UnreconciledIn(s, rows) == []
    ensures ExcludedIn(s, rows, QaFixture) == ExcludedIn(s, rows, LegacyEvm) == []
    ensures forall w: Wallet :: PaidTo(s, rows, w) == 0
    ensures SumOf<Wallet>(map[]) == 0
  {
  }

  // ----- sums over a map -----

  ghost function SumOf<K>(m: map<K, nat>): nat
    decreases |m|
  {
    if m == map[] then 0
    else
      var k :| k in m;
      m[k] + SumOf(m - {k})
  }

  lemma {:induction false} SumOfTake<K>(m: map<K, nat>, k: K)
    requires k in m
    ensures SumOf(m) == m[k] + SumOf(m - {k})
    decreases |m|
  {
    var j :| j in m && SumOf(m) == m[j] + SumOf(m - {j});
    if j != k {
      SumOfTake(m - {j}, k);
      SumOfTake(m - {k}, j);
      assert (m - {j}) - {k} == (m - {k}) - {j};
    }
  }

  lemma SumOfUpdate<K>(m: map<K, nat>, k: K, v: nat)
    ensures SumOf(m[k := v]) == SumOf(m) + v - (if k in m then m[k] else 0)
  {
    SumOfTake(m[k := v], k);
    assert m[k := v] - {k} == m - {k};
    if k in m {
      SumOfTake(m, k);
    } else {
      assert m - {k} == m;
    }
  }

  // ----- what the report means -----

  lemma ReconciledHasWallet(s: Sources, row: Row)
    requires IsReconciled(s, row)
    ensures row.wallet.Some?
  {
    assert |JournalFindings(s, row)| == 0 && |HashFindings(s, row, row.hash.value)| == 0;
  }

  /** The statuses a broadcast payout can be classified under. */
  predicate Classified(status: Status) {
    status.Sent? || status.Failed? || status.Abandoned? || status.Held? || status.Confirmed?
  }

  /**
   Each hashed row Horizon can answer for, in one of those statuses, is in exactly one of
   reconciled, pending and unreconciled. In any other status it is in at most the last,
   and in none of them exactly when it has no finding.
   */
  lemma ExactlyOnePlace(s: Sources, row: Row)
    requires Broadcast(s, row)
    ensures !(IsReconciled(s, row) && IsPending(s, row))
    ensures IsReconciled(s, row) || IsPending(s, row) ==> Findings(s, row) == []
    ensures (IsReconciled(s, row) || IsPending(s, row) || Findings(s, row) != []) <==> (Classified(row.status) || Findings(s, row) != [])
    ensures Classified(row.status) ==> IsReconciled(s, row) || IsPending(s, row) || Findings(s, row) != []
  {
    var h := row.hash.value;
    assert row.status.Failed? || row.status.Abandoned? || row.status.Held? ==> |HashFindings(s, row, h)| > 0;
  }

  /** Horizon is asked about this hash: it is neither a fixture's nor one of the legacy chain. */
  predicate Asked(s: Sources, row: Row) {
    row.hash.Some? && row.hash.value !in s.fixtures && row.hash.value !in s.legacyEvm
  }

  lemma {:induction false} LandedTwice(attempts: seq<Attempt>)
    ensures LandedCount(attempts) > 0 <==> exists i :: 0 <= i < |attempts| && attempts[i].status == Landed
    ensures LandedCount(attempts) > 1 <==>
              exists i, j :: 0 <= i < j < |attempts| && attempts[i].status == Landed && attempts[j].status == Landed
  {
    if attempts != [] {
      var rest := attempts[1..];
      LandedTwice(rest);
      assert forall i :: 0 <= i < |rest| ==> rest[i] == attempts[i + 1];
      if LandedCount(rest) > 1 {
        var i, j :| 0 <= i < j < |rest| && rest[i].status == Landed && rest[j].status == Landed;
        assert attempts[i + 1].status == Landed && attempts[j + 1].status == Landed;
      } else if LandedCount(rest) > 0 {
        var j :| 0 <= j < |rest| && rest[j].status == Landed;
        assert attempts[j + 1].status == Landed;
      }
    }
  }

  lemma KindsOfJournal(s: Sources, row: Row, kind: Kind)
    ensures kind in JournalFindings(s, row) <==>
              (kind == AttemptExpiredOpen && HasExpiredOpen(row, s.now)) || (kind == MultipleLandedAttempts && LandedCount(row.attempts) > 1)
  {
    hide HasExpiredOpen, LandedCount;
  }

  lemma KindsOfHash(s: Sources, row: Row, h: Hash, kind: Kind)
    ensures kind in HashFindings(s, row, h) <==>
              match kind
              case SharedHash => h in s.shared
              case SentOverdue => row.status == Sent && Overdue(s, row)
              case TerminalWithHash => row.status == Failed || row.status == Abandoned
              case HeldPayment => row.status == Held && !row.mismatch
              case HeldMismatch => row.status == Held && row.mismatch
              case AttemptExpiredOpen => false
              case MultipleLandedAttempts => false
              case PayoutJobTupleMissing => row.status == Confirmed && TupleMissing(row)
              case _ => row.status == Confirmed && CheckOnHorizon(s, h, row.wallet) == Some(kind)
  {
    OnHorizonOnly(s, h, row.wallet);
    if row.status == Confirmed {
      KindsOfConfirmed(s, row, h, kind);
    } else {
      KindsOfOthers(s, row, h, kind);
    }
    hide HashFindings, Overdue, TupleMissing, CheckOnHorizon;
  }

  lemma KindsOfConfirmed(s: Sources, row: Row, h: Hash, kind: Kind)
    requires row.status == Confirmed
    ensures kind in HashFindings(s, row, h) <==>
              (kind == SharedHash && h in s.shared) || (kind == PayoutJobTupleMissing && TupleMissing(row))
              || CheckOnHorizon(s, h, row.wallet) == Some(kind)
  {
    hide TupleMissing, CheckOnHorizon;
    var shared, tuple := If(h in s.shared, SharedHash), If(TupleMissing(row), PayoutJobTupleMissing);
    var onChain: seq<Kind> := match CheckOnHorizon(s, h, row.wallet) case None => [] case Some(k) => [k];
    assert HashFindings(s, row, h) == shared + (tuple + onChain);
    InThree(shared, tuple, onChain, kind);
    hide HashFindings;
  }

  lemma InThree(a: seq<Kind>, b: seq<Kind>, c: seq<Kind>, kind: Kind)
    ensures kind in a + (b + c) <==> kind in a || kind in b || kind in c
  {
  }

  lemma KindsOfOthers(s: Sources, row: Row, h: Hash, kind: Kind)
    requires row.status != Confirmed
    ensures kind in HashFindings(s, row, h) <==>
              || (kind == SharedHash && h in s.shared)
              || (kind == SentOverdue && row.status == Sent && Overdue(s, row))
              || (kind == TerminalWithHash && (row.status == Failed || row.status == Abandoned))
              || (row.status == Held && kind == if row.mismatch then HeldMismatch else HeldPayment)
  {
    hide Overdue;
  }

  lemma OnHorizonOnly(s: Sources, h: Hash, wallet: Option<Wallet>)
    ensures var kind := CheckOnHorizon(s, h, wallet);
            kind.Some? ==> kind.value == HorizonUnchecked || kind.value == HorizonUnreadable || kind.value == HorizonMissing
                           || kind.value == HorizonFailed || kind.value == HorizonMismatch
  {
  }

  /** The journal's two findings, whatever the row's hash: an envelope open past its bound, and two that landed. */
  lemma JournalFindingsExactly(s: Sources, row: Row)
    ensures AttemptExpiredOpen in Findings(s, row) <==>
              exists i :: 0 <= i < |row.attempts| && row.attempts[i].status == Open && row.attempts[i].expiresAt < s.now
    ensures MultipleLandedAttempts in Findings(s, row) <==>
              exists i, j :: 0 <= i < j < |row.attempts| && row.attempts[i].status == Landed && row.attempts[j].status == Landed
  {
    LandedTwice(row.attempts);
    FoundEither(s, row, AttemptExpiredOpen);
    FoundEither(s, row, MultipleLandedAttempts);
    hide Findings, LandedCount;
  }

  lemma FoundEither(s: Sources, row: Row, kind: Kind)
    ensures kind in Findings(s, row) <==>
              match kind
              case AttemptExpiredOpen => HasExpiredOpen(row, s.now)
              case MultipleLandedAttempts => LandedCount(row.attempts) > 1
              case _ => Asked(s, row) && kind in HashFindings(s, row, row.hash.value)
  {
    KindsOfJournal(s, row, kind);
    if row.hash.Some? {
      KindsOfHash(s, row, row.hash.value, kind);
    }
    hide JournalFindings, HashFindings, HasExpiredOpen, LandedCount;
  }

  /** The database's findings of a hash: each exactly when its own facts hold. */
  lemma HashFindingsExactly(s: Sources, row: Row)
    ensures SharedHash in Findings(s, row) <==> Asked(s, row) && row.hash.value in s.shared
    ensures SentOverdue in Findings(s, row) <==>
              && Asked(s, row) && row.status == Sent
              && s.now - (if row.job.Some? && row.job.value.broadcastAt.Some? then row.job.value.broadcastAt.value else row.createdAt)
                 > s.overdueMs
    ensures TerminalWithHash in Findings(s, row) <==> Asked(s, row) && (row.status == Failed || row.status == Abandoned)
    ensures HeldMismatch in Findings(s, row) <==> Asked(s, row) && row.status == Held && row.mismatch
    ensures HeldPayment in Findings(s, row) <==> Asked(s, row) && row.status == Held && !row.mismatch
    ensures PayoutJobTupleMissing in Findings(s, row) <==>
              && Asked(s, row) && row.status == Confirmed && row.job.Some?
              && (row.job.value.txHash == None || row.job.value.amountUnits == None || row.job.value.broadcastAt == None)
  {
    forall kind: Kind ensures kind in Findings(s, row) <==>
                                match kind
                                case AttemptExpiredOpen => HasExpiredOpen(row, s.now)
                                case MultipleLandedAttempts => LandedCount(row.attempts) > 1
                                case _ => Asked(s, row) && kind in HashFindings(s, row, row.hash.value)
    {
      FoundEither(s, row, kind);
    }
    if row.hash.Some? {
      var h := row.hash.value;
      KindsOfHash(s, row, h, SharedHash);
      KindsOfHash(s, row, h, SentOverdue);
      KindsOfHash(s, row, h, TerminalWithHash);
      KindsOfHash(s, row, h, HeldMismatch);
      KindsOfHash(s, row, h, HeldPayment);
      KindsOfHash(s, row, h, PayoutJobTupleMissing);
    }
    hide Findings, HashFindings;
  }

  /** Horizon's findings of a confirmed row: at most one, exactly by what it answers. */
  lemma HorizonFindingsExactly(s: Sources, row: Row)
    requires Asked(s, row) && row.status == Confirmed
    ensures var h := row.hash.value;
            && (HorizonUnchecked in Findings(s, row) <==> s.horizon == None)
            && (s.horizon.Some? ==>
                  && (HorizonUnreadable in Findings(s, row) <==> h !in s.horizon.value || s.horizon.value[h] == Unreadable)
                  && (HorizonMissing in Findings(s, row) <==> h in s.horizon.value && s.horizon.value[h] == Missing)
                  && (HorizonFailed in Findings(s, row) <==> h in s.horizon.value && s.horizon.value[h] == IncludedAndFailed)
                  && (HorizonMismatch in Findings(s, row) <==>
                        h in s.horizon.value && s.horizon.value[h].Applied? && (row.wallet == None || !s.horizon.value[h].pays)))
  {
    var h := row.hash.value;
    FoundOnHorizon(s, row, HorizonUnchecked);
    FoundOnHorizon(s, row, HorizonUnreadable);
    FoundOnHorizon(s, row, HorizonMissing);
    FoundOnHorizon(s, row, HorizonFailed);
    FoundOnHorizon(s, row, HorizonMismatch);
    hide Findings;
  }

  lemma FoundOnHorizon(s: Sources, row: Row, kind: Kind)
    requires Asked(s, row) && row.status == Confirmed
    requires kind == HorizonUnchecked || kind == HorizonUnreadable || kind == HorizonMissing || kind == HorizonFailed || kind == HorizonMismatch
    ensures kind in Findings(s, row) <==> CheckOnHorizon(s, row.hash.value, row.wallet) == Some(kind)
  {
    FoundEither(s, row, kind);
    KindsOfHash(s, row, row.hash.value, kind);
    hide Findings, HashFindings;
  }

  /** `reconciled` says: settled exactly as owed, once, under a hash of its own, and counted by the caps. */
  lemma ReconciledMeans(s: Sources, row: Row)
    requires IsReconciled(s, row)
    ensures row.status == Confirmed && row.hash.Some? && row.hash.value !in s.shared && row.wallet.Some?
    ensures s.horizon.Some? && row.hash.value in s.horizon.value && s.horizon.value[row.hash.value] == Applied(true)
    ensures LandedCount(row.attempts) <= 1 && !HasExpiredOpen(row, s.now) && !TupleMissing(row)
  {
    var h := row.hash.value;
    assert |JournalFindings(s, row)| == 0 && |HashFindings(s, row, h)| == 0;
    assert CheckOnHorizon(s, h, row.wallet) == None;
  }

  /** And only those: what is settled so is reported reconciled. */
  lemma SettledIsReconciled(s: Sources, row: Row)
    requires Broadcast(s, row) && row.status == Confirmed && row.hash.value !in s.shared && row.wallet.Some?
    requires s.horizon.Some? && row.hash.value in s.horizon.value && s.horizon.value[row.hash.value] == Applied(true)
    requires LandedCount(row.attempts) <= 1 && !HasExpiredOpen(row, s.now) && !TupleMissing(row)
    ensures IsReconciled(s, row)
  {
    assert JournalFindings(s, row) == [];
    assert CheckOnHorizon(s, row.hash.value, row.wallet) == None;
    hide CheckOnHorizon, JournalFindings, TupleMissing, HasExpiredOpen, LandedCount, ExcludedBucket;
    assert HashFindings(s, row, row.hash.value) == [];
  }

  ghost predicate InList(ids: seq<Id>, id: Id) {
    exists i :: 0 <= i < |ids| && ids[i] == id
  }

  lemma {:induction false} ListedIfPlaced(s: Sources, rows: seq<Row>, k: nat)
    requires k < |rows|
    ensures IsReconciled(s, rows[k]) ==> InList(ReconciledIn(s, rows), rows[k].id)
    ensures IsPending(s, rows[k]) ==> InList(PendingIn(s, rows), rows[k].id)
    ensures Findings(s, rows[k]) != [] ==> UnreconciledIn(s, rows) != []
    decreases |rows|
  {
    var n := |rows| - 1;
    if k < n {
      ListedIfPlaced(s, rows[..n], k);
      if IsReconciled(s, rows[k]) {
        var i :| 0 <= i < |ReconciledIn(s, rows[..n])| && ReconciledIn(s, rows[..n])[i] == rows[k].id;
        assert ReconciledIn(s, rows)[i] == rows[k].id;
      }
      if IsPending(s, rows[k]) {
        var i :| 0 <= i < |PendingIn(s, rows[..n])| && PendingIn(s, rows[..n])[i] == rows[k].id;
        assert PendingIn(s, rows)[i] == rows[k].id;
      }
    } else {
      if IsReconciled(s, rows[k]) {
        assert ReconciledIn(s, rows)[|ReconciledIn(s, rows[..n])|] == rows[k].id;
      }
      if IsPending(s, rows[k]) {
        assert PendingIn(s, rows)[|PendingIn(s, rows[..n])|] == rows[k].id;
      }
      if Findings(s, rows[k]) != [] {
        assert |UnreconciledIn(s, rows)| > 0;
      }
    }
  }

  /** Nothing is listed that no row of the window accounts for, and every finding is one of its own row's. */
  lemma {:induction false} ListedOnlyIfPlaced(s: Sources, rows: seq<Row>)
    ensures forall id :: InList(ReconciledIn(s, rows), id) ==> exists k :: 0 <= k < |rows| && rows[k].id == id && IsReconciled(s, rows[k])
    ensures forall id :: InList(PendingIn(s, rows), id) ==> exists k :: 0 <= k < |rows| && rows[k].id == id && IsPending(s, rows[k])
    ensures forall i :: 0 <= i < |UnreconciledIn(s, rows)| ==> FoundIn(s, rows, UnreconciledIn(s, rows)[i])
    decreases |rows|
  {
    if rows != [] {
      var n := |rows| - 1;
      var init, row := rows[..n], rows[n];
      ListedOnlyIfPlaced(s, init);
      hide IsReconciled, IsPending, Findings;
      forall id | InList(ReconciledIn(s, rows), id)
        ensures exists k :: 0 <= k < |rows| && rows[k].id == id && IsReconciled(s, rows[k])
      {
        ListedEarlier(ReconciledIn(s, init), ReconciledIn(s, rows), id);
      }
      forall id | InList(PendingIn(s, rows), id) ensures exists k :: 0 <= k < |rows| && rows[k].id == id && IsPending(s, rows[k]) {
        ListedEarlier(PendingIn(s, init), PendingIn(s, rows), id);
      }
      var before, all := UnreconciledIn(s, init), UnreconciledIn(s, rows);
      forall i | 0 <= i < |all| ensures FoundIn(s, rows, all[i]) {
        if i < |before| {
          assert FoundIn(s, init, before[i]);
          var k :| 0 <= k < |init| && init[k].id == before[i].id && before[i].kind in Findings(s, init[k]);
          assert rows[k] == init[k];
        } else {
          assert all[i] == Finding(Findings(s, row)[i - |before|], row.id);
          assert rows[n].id == all[i].id && all[i].kind in Findings(s, rows[n]);
        }
      }
    }
  }

  /** A hash Horizon can never answer for is excluded as a fixture's first, and as the legacy chain's only otherwise. */
  predicate Excluded(s: Sources, row: Row, bucket: Bucket) {
    && row.hash.Some?
    && match bucket
       case QaFixture => row.hash.value in s.fixtures
       case LegacyEvm => row.hash.value !in s.fixtures && row.hash.value in s.legacyEvm
  }

  /** Exactly those rows are listed in each excluded bucket, and none of them is reconciled or pending. */
  lemma {:induction false} ExcludedExactly(s: Sources, rows: seq<Row>, bucket: Bucket)
    ensures forall id :: InList(ExcludedIn(s, rows, bucket), id) <==> exists k :: 0 <= k < |rows| && rows[k].id == id && Excluded(s, rows[k], bucket)
    ensures forall k :: 0 <= k < |rows| && Excluded(s, rows[k], bucket) ==> !IsReconciled(s, rows[k]) && !IsPending(s, rows[k])
    decreases |rows|
  {
    if rows != [] {
      var n := |rows| - 1;
      var init := rows[..n];
      ExcludedExactly(s, init, bucket);
      hide Findings;
      assert Excluded(s, rows[n], bucket) <==> IsExcluded(s, rows[n], bucket);
      assert forall k :: 0 <= k < n ==> rows[k] == init[k];
      var before, after := ExcludedIn(s, init, bucket), ExcludedIn(s, rows, bucket);
      assert after == before + (if IsExcluded(s, rows[n], bucket) then [rows[n].id] else []);
      hide ExcludedIn, Excluded, IsExcluded, IsReconciled, IsPending;
      forall id ensures InList(after, id) <==> InList(before, id) || (Excluded(s, rows[n], bucket) && rows[n].id == id) {
        if InList(before, id) {
          var i :| 0 <= i < |before| && before[i] == id;
          assert after[i] == id;
        } else if Excluded(s, rows[n], bucket) && rows[n].id == id {
          assert after[|before|] == id;
        }
      }
    }
  }

  ghost predicate FoundIn(s: Sources, rows: seq<Row>, f: Finding) {
    exists k :: 0 <= k < |rows| && rows[k].id == f.id && f.kind in Findings(s, rows[k])
  }

  /** Every finding of every row is listed under its id. */
  lemma {:induction false} EveryFindingListed(s: Sources, rows: seq<Row>, k: nat, kind: Kind)
    requires k < |rows| && kind in Findings(s, rows[k])
    ensures Finding(kind, rows[k].id) in UnreconciledIn(s, rows)
    decreases |rows|
  {
    hide Findings;
    var n := |rows| - 1;
    if k < n {
      EveryFindingListed(s, rows[..n], k, kind);
    } else {
      var i :| 0 <= i < |Findings(s, rows[n])| && Findings(s, rows[n])[i] == kind;
      assert Tagged(Findings(s, rows[n]), rows[n].id)[i] == Finding(kind, rows[n].id);
    }
  }

  lemma ListedEarlier(before: seq<Id>, after: seq<Id>, id: Id)
    requires InList(after, id) && before <= after && |after| <= |before| + 1
    ensures InList(before, id) || (|after| == |before| + 1 && after[|before|] == id)
  {
    var i :| 0 <= i < |after| && after[i] == id;
    if i < |before| {
      assert before[i] == id;
    }
  }

  /** Zero findings means every broadcast payout is accounted for: reconciled, or sent and within its grace period. */
  lemma ZeroMeansAccounted(s: Sources, rows: seq<Row>, k: nat)
    requires UnreconciledIn(s, rows) == [] && k < |rows| && Broadcast(s, rows[k]) && Classified(rows[k].status)
    ensures if rows[k].status == Confirmed then IsReconciled(s, rows[k]) && InList(ReconciledIn(s, rows), rows[k].id)
            else rows[k].status == Sent && InList(PendingIn(s, rows), rows[k].id)
                 && s.now - (if rows[k].job.Some? && rows[k].job.value.broadcastAt.Some? then rows[k].job.value.broadcastAt.value
                             else rows[k].createdAt) <= s.overdueMs
  {
    ListedIfPlaced(s, rows, k);
    ExactlyOnePlace(s, rows[k]);
    assert Findings(s, rows[k]) == [];
    assert |JournalFindings(s, rows[k])| == 0 && |HashFindings(s, rows[k], rows[k].hash.value)| == 0;
  }

  function TotalUnits(rows: seq<Row>): nat {
    if rows == [] then 0 else TotalUnits(rows[..|rows| - 1]) + rows[|rows| - 1].amount
  }

  /** A status counts exactly the rows that have it. */
  lemma {:induction false} CountedByStatus(rows: seq<Row>, status: Status)
    ensures StatusCount(rows, status) > 0 <==> exists k :: 0 <= k < |rows| && rows[k].status == status
    ensures StatusCount(rows, status) == 0 ==> StatusUnits(rows, status) == 0
    decreases |rows|
  {
    if rows != [] {
      var n := |rows| - 1;
      CountedByStatus(rows[..n], status);
      assert forall k :: 0 <= k < n ==> rows[..n][k] == rows[k];
      if StatusCount(rows[..n], status) > 0 {
        var k :| 0 <= k < n && rows[..n][k].status == status;
        assert rows[k].status == status;
      } else if rows[n].status == status {
        assert rows[n].status == status;
      }
    }
  }

  /** Every submission of the window, and every unit it is owed, is counted under exactly one status. */
  lemma {:induction false} StatusesSumToRows(rows: seq<Row>)
    ensures StatusCount(rows, Pending) + StatusCount(rows, Sent) + StatusCount(rows, Failed) + StatusCount(rows, Abandoned)
            + StatusCount(rows, Held) + StatusCount(rows, Confirmed) + StatusCount(rows, Skipped) + StatusCount(rows, Other) == |rows|
    ensures StatusUnits(rows, Pending) + StatusUnits(rows, Sent) + StatusUnits(rows, Failed) + StatusUnits(rows, Abandoned)
            + StatusUnits(rows, Held) + StatusUnits(rows, Confirmed) + StatusUnits(rows, Skipped) + StatusUnits(rows, Other) == TotalUnits(rows)
  {
    if rows != [] {
      StatusesSumToRows(rows[..|rows| - 1]);
    }
  }

  // ----- the volume proof -----

  datatype Targets = Targets(settlements: nat, wallets: nat)

  datatype Shortfall = Settlements(have: nat) | UniqueWallets(have: nat) | Duplicates(have: nat) | Unreconciled(have: nat)

  datatype Volume = Volume(successful: nat, uniqueWallets: nat, rejected: nat, failed: nat, duplicate: nat, unreconciled: nat,
                           met: Option<bool>, shortfalls: seq<Shortfall>)

  predicate IsDuplicate(kind: Kind) {
    kind == SharedHash || kind == MultipleLandedAttempts
  }

  /** The submissions with a finding that `duplicateOnly` asks for. */
  function SubmissionsWith(found: seq<Finding>, duplicateOnly: bool): set<Id> {
    set i | 0 <= i < |found| && (duplicateOnly ==> IsDuplicate(found[i].kind)) :: found[i].id
  }

  method SummarizeVolume(r: Report, rows: seq<Row>, targets: Option<Targets>) returns (v: Volume)
    ensures v.successful == |r.reconciled| && v.uniqueWallets == |r.paidPerWallet|
    ensures v.rejected == StatusCount(rows, Skipped) && v.failed == StatusCount(rows, Failed) + StatusCount(rows, Abandoned)
    ensures v.duplicate == |SubmissionsWith(r.unreconciled, true)| && v.unreconciled == |SubmissionsWith(r.unreconciled, false)|
    ensures SubmissionsWith(r.unreconciled, true) ==
              set i | 0 <= i < |r.unreconciled|
                      && (r.unreconciled[i].kind == SharedHash || r.unreconciled[i].kind == MultipleLandedAttempts) :: r.unreconciled[i].id
    ensures SubmissionsWith(r.unreconciled, false) == set i | 0 <= i < |r.unreconciled| :: r.unreconciled[i].id
    ensures v.met == None <==> targets == None
    ensures targets.Some? ==> (v.met == Some(true) <==> v.shortfalls == [])
    ensures targets.Some? ==> (v.met == Some(true) <==>
              v.successful >= targets.value.settlements && v.uniqueWallets >= targets.value.wallets
              && v.duplicate == 0 && v.unreconciled == 0)
  {
    var rejected, failed := 0, 0;
    for i := 0 to |rows|
      invariant rejected == StatusCount(rows[..i], Skipped)
      invariant failed == StatusCount(rows[..i], Failed) + StatusCount(rows[..i], Abandoned)
    {
      assert rows[..i + 1][..i] == rows[..i];
      if rows[i].status == Skipped { rejected := rejected + 1; }
      if rows[i].status == Failed || rows[i].status == Abandoned { failed := failed + 1; }
    }
    assert rows[..|rows|] == rows;
    var duplicate, unreconciled := |SubmissionsWith(r.unreconciled, true)|, |SubmissionsWith(r.unreconciled, false)|;
    v := Volume(|r.reconciled|, |r.paidPerWallet|, rejected, failed, duplicate, unreconciled, None, []);
    if targets == None { return; }
    var shortfalls: seq<Shortfall> := [];
    if v.successful < targets.value.settlements { shortfalls := shortfalls + [Settlements(v.successful)]; }
    if v.uniqueWallets < targets.value.wallets { shortfalls := shortfalls + [UniqueWallets(v.uniqueWallets)]; }
    if duplicate != 0 { shortfalls := shortfalls + [Duplicates(duplicate)]; }
    if unreconciled != 0 { shortfalls := shortfalls + [Unreconciled(unreconciled)]; }
    v := v.(shortfalls := shortfalls, met := Some(|shortfalls| == 0));
  }

  /** The targets are never met over an unreconciled row: no submissions with findings means no findings. */
  lemma MetMeansZero(found: seq<Finding>)
    ensures |SubmissionsWith(found, false)| == 0 <==> found == []
    ensures SubmissionsWith(found, true) <= SubmissionsWith(found, false)
  {
    if found != [] {
      assert found[0].id in SubmissionsWith(found, false);
    }
  }
}
