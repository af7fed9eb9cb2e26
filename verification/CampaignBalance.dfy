/**
 The prepaid campaign balance and its ledger: debits at submit, deposits, and the
 refund of a submission's debit, applied at most once per submission.
 */
module CampaignBalance {
  import opened Wrappers

  type CampaignId = nat

  datatype EntryType = Deposit | Refund | DebitReward | DebitFee

  /** One ledger row. `submission` and `note` are nullable columns. */
  datatype Entry = Entry(campaign: CampaignId, kind: EntryType, amount: nat, note: Option<string>, submission: Option<string>)

  /** Balance rows by campaign, and the ledger of all of them. */
  datatype Books = Books(balances: map<CampaignId, nat>, ledger: seq<Entry>)

  datatype DebitResult = Debited | Insufficient(balance: nat, required: nat) | NoBalanceRow

  function TotalDebit(reward: nat, fee: nat): nat {
    reward + fee
  }

  function BalanceOf(b: Books, c: CampaignId): nat {
    if c in b.balances then b.balances[c] else 0
  }

  // ----- naming a submission -----

  const FOR_SUBMISSION := "for submission "

  predicate EndsWith(s: string, suffix: string) {
    |suffix| <= |s| && s[|s| - |suffix|..] == suffix
  }

  /** A refund names a submission by its id, or by the note of a refund written before refunds carried one. */
  predicate Names(e: Entry, id: string) {
    e.kind == Refund && (e.submission == Some(id) || (e.note.Some? && EndsWith(e.note.value, FOR_SUBMISSION + id)))
  }

  /** The same in full: this submission's id in the keyed column, or at the end of the note. */
  predicate RefundsIt(e: Entry, id: string) {
    && e.kind == Refund
    && (e.submission == Some(id)
        || (e.note.Some? && var tail := "for submission " + id; |tail| <= |e.note.value| && e.note.value[|e.note.value| - |tail|..] == tail))
  }

  predicate HasRefunded(ledger: seq<Entry>, id: string) {
    exists i :: 0 <= i < |ledger| && Names(ledger[i], id)
  }

  function RefundNote(reason: string, id: string): string {
    reason + " " + FOR_SUBMISSION + id
  }

  lemma NoteReads(reason: string, id: string)
    ensures RefundNote(reason, id) == reason + " for submission " + id
  {
    assert RefundNote(reason, id) == reason + (" " + FOR_SUBMISSION) + id;
  }

  predicate NoSpaces(s: string) {
    forall i :: 0 <= i < |s| ==> s[i] != ' '
  }

  /** Position `p` holds the last space of `s`. */
  predicate LastSpace(s: string, p: int) {
    0 <= p < |s| && s[p] == ' ' && forall k :: p < k < |s| ==> s[k] != ' '
  }

  /** A string that ends with the phrase and an id has its last space right before that id. */
  lemma SpaceBeforeId(s: string, id: string)
    requires NoSpaces(id) && EndsWith(s, FOR_SUBMISSION + id)
    ensures LastSpace(s, |s| - |id| - 1) && s[|s| - |id|..] == id
  {
    var tail := s[|s| - |FOR_SUBMISSION + id|..];
    assert tail == FOR_SUBMISSION + id && tail[|FOR_SUBMISSION| - 1] == ' ';
    forall k | 0 <= k < |id| ensures s[|s| - |id| + k] == id[k] {
      assert tail[|FOR_SUBMISSION| + k] == id[k];
    }
  }

  /** For ids without spaces, the note's suffix names exactly one submission. */
  lemma NoteNamesOne(reason: string, id: string, other: string)
    requires NoSpaces(id) && NoSpaces(other)
    ensures EndsWith(RefundNote(reason, id), FOR_SUBMISSION + other) <==> id == other
  {
    var note := RefundNote(reason, id);
    assert note == (reason + " ") + (FOR_SUBMISSION + id);
    SpaceBeforeId(note, id);
    if EndsWith(note, FOR_SUBMISSION + other) {
      SpaceBeforeId(note, other);
    }
  }

  /** With spaces in ids it can name two: `b` is named by the note of `a for submission b`. */
  lemma SpacesNameTwo(reason: string, a: string, b: string)
    ensures var id := a + " " + FOR_SUBMISSION + b;
            id != b && EndsWith(RefundNote(reason, id), FOR_SUBMISSION + b)
  {
    var id := a + " " + FOR_SUBMISSION + b;
    assert |id| > |b|;
    assert RefundNote(reason, id) == (reason + " " + FOR_SUBMISSION + a + " ") + (FOR_SUBMISSION + b);
  }

  // ----- the operations on values -----

  function Debit(b: Books, c: CampaignId, reward: nat, fee: nat, id: string): (Books, DebitResult) {
    var required := TotalDebit(reward, fee);
    if BalanceOf(b, c) < required then (b, Insufficient(BalanceOf(b, c), required))
    else if c !in b.balances then (b, NoBalanceRow)
    else (Books(b.balances[c := b.balances[c] - required],
                b.ledger + [Entry(c, DebitReward, reward, None, Some(id)), Entry(c, DebitFee, fee, None, Some(id))]), Debited)
  }

  function Credit(b: Books, c: CampaignId, amount: nat, note: Option<string>, kind: EntryType, id: Option<string>): Books {
    if kind == Refund && id.Some? && id.value != "" && HasRefunded(b.ledger, id.value) then b
    else Books(b.balances[c := BalanceOf(b, c) + amount], b.ledger + [Entry(c, kind, amount, note, id)])
  }

  /** A submission's task, as far as its refund asks. */
  datatype Task = Task(isGold: bool, campaign: Option<CampaignId>)

  function RefundDebit(b: Books, task: Task, id: string, reward: nat, fee: nat, reason: string): Books {
    if task.isGold || task.campaign == None then b
    else Credit(b, task.campaign.value, TotalDebit(reward, fee), Some(RefundNote(reason, id)), Refund, Some(id))
  }

  /** The balance rows and the ledger as the database holds them. */
  class CampaignBooks {
    var balances: map<CampaignId, nat>
    var ledger: seq<Entry>

    function View(): Books
      reads this
    {
      Books(balances, ledger)
    }

    constructor (b: Books)
      ensures View() == b
    {
      balances, ledger := b.balances, b.ledger;
    }

    /** Debit the reward and the fee under the row lock, or nothing. */
    method CheckAndDebit(c: CampaignId, reward: nat, fee: nat, id: string) returns (result: DebitResult)
      modifies this
      ensures (View(), result) == Debit(old(View()), c, reward, fee, id)
      ensures result == Debited <==> c in old(balances) && old(balances)[c] >= reward + fee
      ensures result == NoBalanceRow <==> c !in old(balances) && reward + fee == 0
      ensures result.Insufficient? ==> result == Insufficient(if c in old(balances) then old(balances)[c] else 0, reward + fee)
      ensures result == Debited ==>
                && balances == old(balances)[c := old(balances)[c] - reward - fee]
                && ledger == old(ledger) + [Entry(c, DebitReward, reward, None, Some(id)), Entry(c, DebitFee, fee, None, Some(id))]
      ensures result != Debited ==> unchanged(this)
    {
      var required := TotalDebit(reward, fee);
      var currentBalance := if c in balances then balances[c] else 0;
      if currentBalance < required { return Insufficient(currentBalance, required); }
      if c !in balances { return NoBalanceRow; }
      balances := balances[c := balances[c] - required];
      ledger := ledger + [Entry(c, DebitReward, reward, None, Some(id)), Entry(c, DebitFee, fee, None, Some(id))];
      result := Debited;
    }

    method HasRefundedSubmission(id: string) returns (refunded: bool)
      ensures refunded <==> HasRefunded(ledger, id)
      ensures refunded <==> exists i :: 0 <= i < |ledger| && RefundsIt(ledger[i], id)
    {
      for i := 0 to |ledger|
        invariant forall k :: 0 <= k < i ==> !Names(ledger[k], id)
        invariant forall k :: 0 <= k < i ==> !RefundsIt(ledger[k], id)
      {
        assert Names(ledger[i], id) <==> RefundsIt(ledger[i], id);
        if Names(ledger[i], id) { return true; }
      }
      refunded := false;
    }

    method CreditBalance(c: CampaignId, amount: nat, note: Option<string>, kind: EntryType, id: Option<string>)
      returns (balance: nat)
      modifies this
      ensures View() == Credit(old(View()), c, amount, note, kind, id)
      ensures balance == BalanceOf(View(), c)
      ensures kind == Refund && id.Some? && id.value != "" && (exists i :: 0 <= i < |old(ledger)| && RefundsIt(old(ledger)[i], id.value)) ==>
                unchanged(this)
      ensures !(kind == Refund && id.Some? && id.value != "" && exists i :: 0 <= i < |old(ledger)| && RefundsIt(old(ledger)[i], id.value)) ==>
                && balances == old(balances)[c := (if c in old(balances) then old(balances)[c] else 0) + amount]
                && ledger == old(ledger) + [Entry(c, kind, amount, note, id)]
    {
      if kind == Refund && id.Some? && id.value != "" {
        var refunded := HasRefundedSubmission(id.value);
        if refunded {
          return if c in balances then balances[c] else 0;
        }
      }
      balances := balances[c := (if c in balances then balances[c] else 0) + amount];
      ledger := ledger + [Entry(c, kind, amount, note, id)];
      balance := balances[c];
    }

    /** `refundCampaignBalance`: gold and campaign-less tasks draw from no budget. */
    method RefundCampaignBalance(task: Task, id: string, reward: nat, fee: nat, reason: string)
      modifies this
      ensures View() == RefundDebit(old(View()), task, id, reward, fee, reason)
      ensures task.isGold || task.campaign == None ==> unchanged(this)
      ensures !task.isGold && task.campaign.Some? && id != "" ==>
                && (exists i :: 0 <= i < |ledger| && RefundsIt(ledger[i], id))
                && if exists i :: 0 <= i < |old(ledger)| && RefundsIt(old(ledger)[i], id) then unchanged(this)
                   else
                     var c := task.campaign.value;
                     && balances == old(balances)[c := (if c in old(balances) then old(balances)[c] else 0) + reward + fee]
                     && ledger == old(ledger) + [Entry(c, Refund, reward + fee, Some(reason + " for submission " + id), Some(id))]
    {
      if task.isGold || task.campaign == None { return; }
      NoteReads(reason, id);
      ghost var before := ledger;
      var _ := CreditBalance(task.campaign.value, TotalDebit(reward, fee), Some(RefundNote(reason, id)), Refund, Some(id));
      assert ledger != before ==> RefundsIt(ledger[|ledger| - 1], id);
    }
  }

  // ----- any interleaving -----

  /** The transactions of the campaign money, whole: they interleave in any order. */
  datatype Op =
    | DepositOp(c: CampaignId, amount: nat)
    | DebitOp(c: CampaignId, reward: nat, id: string)
    | RefundOp(task: Task, id: string, reward: nat, reason: string)

  function Apply(b: Books, op: Op, fee: nat): Books {
    match op
    case DepositOp(c, amount) => Credit(b, c, amount, None, Deposit, None)
    case DebitOp(c, reward, id) => Debit(b, c, reward, fee, id).0
    case RefundOp(task, id, reward, reason) => RefundDebit(b, task, id, reward, fee, reason)
  }

  function ApplyAll(b: Books, ops: seq<Op>, fee: nat): Books {
    if ops == [] then b else Apply(ApplyAll(b, ops[..|ops| - 1], fee), ops[|ops| - 1], fee)
  }

  function Signed(e: Entry): int {
    if e.kind == Deposit || e.kind == Refund then e.amount else 0 - e.amount
  }

  /** Deposits plus refunds minus reward and fee debits, for one campaign. */
  function Net(ledger: seq<Entry>, c: CampaignId): int {
    if ledger == [] then 0
    else
      var last := ledger[|ledger| - 1];
      Net(ledger[..|ledger| - 1], c) + (if last.campaign == c then Signed(last) else 0)
  }

  ghost predicate Conserved(b: Books) {
    forall c :: BalanceOf(b, c) == Net(b.ledger, c)
  }

  lemma NetAppend(ledger: seq<Entry>, e: Entry, c: CampaignId)
    ensures Net(ledger + [e], c) == Net(ledger, c) + (if e.campaign == c then Signed(e) else 0)
  {
    assert (ledger + [e])[..|ledger|] == ledger;
  }

  lemma CreditConserves(b: Books, c: CampaignId, amount: nat, note: Option<string>, kind: EntryType, id: Option<string>)
    requires Conserved(b) && (kind == Deposit || kind == Refund)
    ensures Conserved(Credit(b, c, amount, note, kind, id))
  {
    forall x ensures BalanceOf(Credit(b, c, amount, note, kind, id), x) == Net(Credit(b, c, amount, note, kind, id).ledger, x) {
      NetAppend(b.ledger, Entry(c, kind, amount, note, id), x);
    }
  }

  lemma DebitConserves(b: Books, c: CampaignId, reward: nat, fee: nat, id: string)
    requires Conserved(b)
    ensures Conserved(Debit(b, c, reward, fee, id).0)
  {
    var first, second := Entry(c, DebitReward, reward, None, Some(id)), Entry(c, DebitFee, fee, None, Some(id));
    assert b.ledger + [first, second] == (b.ledger + [first]) + [second];
    forall x ensures BalanceOf(Debit(b, c, reward, fee, id).0, x) == Net(Debit(b, c, reward, fee, id).0.ledger, x) {
      NetAppend(b.ledger, first, x);
      NetAppend(b.ledger + [first], second, x);
    }
  }

  /** Units of one kind of ledger row under one submission. */
  function Recorded(ledger: seq<Entry>, kind: EntryType, id: string): nat {
    if ledger == [] then 0
    else
      var last := ledger[|ledger| - 1];
      Recorded(ledger[..|ledger| - 1], kind, id) + (if last.kind == kind && last.submission == Some(id) then last.amount else 0)
  }

  /** A debit takes the reward and the fee together and records each under its own kind; short of both, it takes and records nothing. */
  lemma DebitIsWhole(b: Books, c: CampaignId, reward: nat, fee: nat, id: string)
    ensures var t := Debit(b, c, reward, fee, id);
            && (t.1 == Debited <==> c in b.balances && b.balances[c] >= reward + fee)
            && (t.1 != Debited ==> t.0 == b)
            && (t.1 == Debited ==>
                  && BalanceOf(t.0, c) == BalanceOf(b, c) - reward - fee
                  && Recorded(t.0.ledger, DebitReward, id) == Recorded(b.ledger, DebitReward, id) + reward
                  && Recorded(t.0.ledger, DebitFee, id) == Recorded(b.ledger, DebitFee, id) + fee)
  {
    var first, second := Entry(c, DebitReward, reward, None, Some(id)), Entry(c, DebitFee, fee, None, Some(id));
    var one, two := b.ledger + [first], b.ledger + [first, second];
    assert two[..|two| - 1] == one && one[..|one| - 1] == b.ledger;
  }

  /** In every interleaving the balance is deposits plus refunds minus debits, and so never negative. */
  lemma {:induction false} MoneyConserved(b: Books, ops: seq<Op>, fee: nat, c: CampaignId)
    requires Conserved(b)
    ensures Conserved(ApplyAll(b, ops, fee))
    ensures Net(ApplyAll(b, ops, fee).ledger, c) >= 0
    decreases |ops|
  {
    if ops != [] {
      var before := ApplyAll(b, ops[..|ops| - 1], fee);
      MoneyConserved(b, ops[..|ops| - 1], fee, c);
      match ops[|ops| - 1]
      case DepositOp(d, amount) => CreditConserves(before, d, amount, None, Deposit, None);
      case DebitOp(d, reward, id) => DebitConserves(before, d, reward, fee, id);
      case RefundOp(task, id, reward, reason) =>
        if !task.isGold && task.campaign.Some? {
          CreditConserves(before, task.campaign.value, TotalDebit(reward, fee), Some(RefundNote(reason, id)), Refund, Some(id));
        }
    }
    assert BalanceOf(ApplyAll(b, ops, fee), c) == Net(ApplyAll(b, ops, fee).ledger, c);
  }

  // ----- each debit returned at most once, and in full -----

  function RefundsNaming(ledger: seq<Entry>, id: string): nat {
    if ledger == [] then 0
    else RefundsNaming(ledger[..|ledger| - 1], id) + (if Names(ledger[|ledger| - 1], id) then 1 else 0)
  }

  /** Units taken from a campaign under a submission's id, and units returned to it under that id or its legacy note. */
  function DebitedFor(ledger: seq<Entry>, c: CampaignId, id: string): nat {
    if ledger == [] then 0 else DebitedFor(ledger[..|ledger| - 1], c, id) + DebitOf(ledger[|ledger| - 1], c, id)
  }

  function DebitOf(e: Entry, c: CampaignId, id: string): nat {
    if (e.kind == DebitReward || e.kind == DebitFee) && e.campaign == c && e.submission == Some(id) then e.amount else 0
  }

  function RefundedFor(ledger: seq<Entry>, c: CampaignId, id: string): nat {
    if ledger == [] then 0 else RefundedFor(ledger[..|ledger| - 1], c, id) + RefundOf(ledger[|ledger| - 1], c, id)
  }

  function RefundOf(e: Entry, c: CampaignId, id: string): nat {
    if Names(e, id) && e.campaign == c then e.amount else 0
  }

  lemma SumsAppend(ledger: seq<Entry>, e: Entry, c: CampaignId, id: string)
    ensures RefundsNaming(ledger + [e], id) == RefundsNaming(ledger, id) + (if Names(e, id) then 1 else 0)
    ensures RefundedFor(ledger + [e], c, id) == RefundedFor(ledger, c, id) + RefundOf(e, c, id)
    ensures DebitedFor(ledger + [e], c, id) == DebitedFor(ledger, c, id) + DebitOf(e, c, id)
  {
    assert (ledger + [e])[..|ledger|] == ledger;
  }

  lemma {:induction false} NamedIsCounted(ledger: seq<Entry>, c: CampaignId, id: string)
    ensures HasRefunded(ledger, id) <==> RefundsNaming(ledger, id) > 0
    ensures RefundsNaming(ledger, id) == 0 ==> RefundedFor(ledger, c, id) == 0
  {
    if ledger != [] {
      var n := |ledger| - 1;
      NamedIsCounted(ledger[..n], c, id);
      if HasRefunded(ledger, id) {
        var i :| 0 <= i < |ledger| && Names(ledger[i], id);
        assert i < n ==> Names(ledger[..n][i], id);
      }
      if HasRefunded(ledger[..n], id) {
        var i :| 0 <= i < n && Names(ledger[..n][i], id);
        assert Names(ledger[i], id);
      }
    }
  }

  /** What the callers keep: non-empty ids without spaces, each debited once. */
  ghost predicate Callers(ops: seq<Op>) {
    && (forall i :: 0 <= i < |ops| && (ops[i].DebitOp? || ops[i].RefundOp?) ==> ops[i].id != "" && NoSpaces(ops[i].id))
    && (forall i, j :: 0 <= i < j < |ops| && ops[i].DebitOp? && ops[j].DebitOp? ==> ops[i].id != ops[j].id)
  }

  /** Is this submission debited somewhere in the run, from this campaign? */
  ghost predicate DebitedBy(ops: seq<Op>, c: CampaignId, id: string) {
    exists i :: 0 <= i < |ops| && ops[i].DebitOp? && ops[i].c == c && ops[i].id == id
  }

  /** The refund is of a debit taken earlier in the run, from the same campaign and of the same amount. */
  ghost predicate RefundsADebit(start: Books, ops: seq<Op>, fee: nat, i: nat)
    requires i < |ops|
  {
    ops[i].RefundOp? && !ops[i].task.isGold && ops[i].task.campaign.Some? ==>
      && DebitedBy(ops[..i], ops[i].task.campaign.value, ops[i].id)
      && DebitedFor(ApplyAll(start, ops[..i], fee).ledger, ops[i].task.campaign.value, ops[i].id) == TotalDebit(ops[i].reward, fee)
  }

  ghost predicate AllOfDebits(start: Books, ops: seq<Op>, fee: nat) {
    forall i :: 0 <= i < |ops| ==> RefundsADebit(start, ops, fee, i)
  }

  lemma RefundNamesOnly(b: Books, task: Task, id: string, reward: nat, fee: nat, reason: string, c: CampaignId, other: string)
    requires id != "" && NoSpaces(id) && NoSpaces(other)
    ensures var t := RefundDebit(b, task, id, reward, fee, reason);
            && DebitedFor(t.ledger, c, other) == DebitedFor(b.ledger, c, other)
            && (id != other ==> RefundsNaming(t.ledger, other) == RefundsNaming(b.ledger, other)
                                && RefundedFor(t.ledger, c, other) == RefundedFor(b.ledger, c, other))
            && (id == other && (HasRefunded(b.ledger, id) || task.isGold || task.campaign == None) ==> t == b)
            && (id == other && !HasRefunded(b.ledger, id) && !task.isGold && task.campaign.Some? ==>
                  RefundsNaming(t.ledger, id) == 1
                  && RefundedFor(t.ledger, c, id) == if c == task.campaign.value then TotalDebit(reward, fee) else 0)
  {
    NamedIsCounted(b.ledger, c, id);
    NoteNamesOne(reason, id, other);
    if !task.isGold && task.campaign.Some? {
      var e := Entry(task.campaign.value, Refund, TotalDebit(reward, fee), Some(RefundNote(reason, id)), Some(id));
      SumsAppend(b.ledger, e, c, other);
    }
  }

  lemma DepositNamesNone(b: Books, d: CampaignId, amount: nat, c: CampaignId, id: string)
    ensures var t := Credit(b, d, amount, None, Deposit, None);
            && RefundsNaming(t.ledger, id) == RefundsNaming(b.ledger, id) && RefundedFor(t.ledger, c, id) == RefundedFor(b.ledger, c, id)
            && DebitedFor(t.ledger, c, id) == DebitedFor(b.ledger, c, id)
  {
    SumsAppend(b.ledger, Entry(d, Deposit, amount, None, None), c, id);
  }

  lemma DebitNamesNone(b: Books, d: CampaignId, reward: nat, fee: nat, id: string, c: CampaignId, other: string)
    ensures var t := Debit(b, d, reward, fee, id);
            && RefundsNaming(t.0.ledger, other) == RefundsNaming(b.ledger, other)
            && RefundedFor(t.0.ledger, c, other) == RefundedFor(b.ledger, c, other)
            && DebitedFor(t.0.ledger, c, other) == DebitedFor(b.ledger, c, other)
                 + (if t.1 == Debited && d == c && id == other then TotalDebit(reward, fee) else 0)
  {
    var first, second := Entry(d, DebitReward, reward, None, Some(id)), Entry(d, DebitFee, fee, None, Some(id));
    assert b.ledger + [first, second] == (b.ledger + [first]) + [second];
    SumsAppend(b.ledger, first, c, other);
    SumsAppend(b.ledger + [first], second, c, other);
  }

  /** Of what a submission took from a campaign, nothing has gone back, or exactly all of it; and no campaign gains that gave nothing. */
  ghost predicate ReturnedAtMostOnce(ledger: seq<Entry>, ops: seq<Op>, c: CampaignId, id: string) {
    && RefundsNaming(ledger, id) <= 1
    && (RefundsNaming(ledger, id) == 0 ==> RefundedFor(ledger, c, id) == 0)
    && (RefundsNaming(ledger, id) == 1 ==> RefundedFor(ledger, c, id) == DebitedFor(ledger, c, id))
    && (!DebitedBy(ops, c, id) ==> DebitedFor(ledger, c, id) == 0 && RefundedFor(ledger, c, id) == 0)
    && (RefundsNaming(ledger, id) == 1 ==> exists d :: DebitedBy(ops, d, id))
  }

  lemma OpReturnsAtMostOnce(start: Books, before: Books, ops: seq<Op>, fee: nat, c: CampaignId, id: string)
    requires ops != [] && Callers(ops) && NoSpaces(id)
    requires before == ApplyAll(start, ops[..|ops| - 1], fee) && RefundsADebit(start, ops, fee, |ops| - 1)
    requires ReturnedAtMostOnce(before.ledger, ops[..|ops| - 1], c, id)
    ensures ReturnedAtMostOnce(Apply(before, ops[|ops| - 1], fee).ledger, ops, c, id)
  {
    NamedIsCounted(before.ledger, c, id);
    StillDebited(ops, c, id);
    match ops[|ops| - 1]
    case DepositOp(d, amount) => DepositNamesNone(before, d, amount, c, id);
    case DebitOp(d, reward, other) => DebitNamesNone(before, d, reward, fee, other, c, id);
    case RefundOp(task, other, reward, reason) => RefundNamesOnly(before, task, other, reward, fee, reason, c, id);
  }

  /**
   Under any interleaving and at a constant fee, each submission's debit goes back to the
   campaign it was taken from, at most once and in full: whatever the run, what a campaign
   gave for a submission and what it got back differ by nothing or by the whole.
   */
  lemma {:induction false} RefundedOnceInFull(start: Books, ops: seq<Op>, fee: nat, c: CampaignId, id: string)
    requires Callers(ops) && AllOfDebits(start, ops, fee) && NoSpaces(id)
    requires RefundsNaming(start.ledger, id) == 0 && DebitedFor(start.ledger, c, id) == 0
    ensures ReturnedAtMostOnce(ApplyAll(start, ops, fee).ledger, ops, c, id)
    decreases |ops|
  {
    if ops == [] {
      NamedIsCounted(start.ledger, c, id);
    } else {
      EarlierCallers(start, ops, fee);
      RefundedOnceInFull(start, ops[..|ops| - 1], fee, c, id);
      assert RefundsADebit(start, ops, fee, |ops| - 1);
      OpReturnsAtMostOnce(start, ApplyAll(start, ops[..|ops| - 1], fee), ops, fee, c, id);
    }
  }

  /**
   And it does go back: once a refund of it has run, whatever ran before, the campaign has
   all of what it gave for the submission, under exactly one refund.
   */
  lemma RefundGivesBack(start: Books, ops: seq<Op>, fee: nat)
    requires ops != [] && Callers(ops) && AllOfDebits(start, ops, fee)
    requires var op := ops[|ops| - 1]; op.RefundOp? && !op.task.isGold && op.task.campaign.Some?
    requires var op := ops[|ops| - 1];
             RefundsNaming(start.ledger, op.id) == 0 && DebitedFor(start.ledger, op.task.campaign.value, op.id) == 0
    ensures var op, t := ops[|ops| - 1], ApplyAll(start, ops, fee);
            && RefundsNaming(t.ledger, op.id) == 1
            && RefundedFor(t.ledger, op.task.campaign.value, op.id) == op.reward + fee
            && DebitedFor(t.ledger, op.task.campaign.value, op.id) == op.reward + fee
  {
    var op := ops[|ops| - 1];
    var c := op.task.campaign.value;
    var before := ApplyAll(start, ops[..|ops| - 1], fee);
    RefundedOnceInFull(start, ops, fee, c, op.id);
    RefundNamesOnly(before, op.task, op.id, op.reward, fee, op.reason, c, op.id);
    NamedIsCounted(before.ledger, c, op.id);
    assert RefundsADebit(start, ops, fee, |ops| - 1);
    hide RefundDebit, ReturnedAtMostOnce;
    RefundIsNamed(start, ops, fee, c, op.id);
  }

  lemma RefundIsNamed(start: Books, ops: seq<Op>, fee: nat, c: CampaignId, id: string)
    requires ReturnedAtMostOnce(ApplyAll(start, ops, fee).ledger, ops, c, id)
    requires RefundsNaming(ApplyAll(start, ops, fee).ledger, id) > 0
    ensures var t := ApplyAll(start, ops, fee).ledger;
            RefundsNaming(t, id) == 1 && RefundedFor(t, c, id) == DebitedFor(t, c, id)
  {
  }

  lemma EarlierCallers(start: Books, ops: seq<Op>, fee: nat)
    requires ops != [] && Callers(ops) && AllOfDebits(start, ops, fee)
    ensures Callers(ops[..|ops| - 1]) && AllOfDebits(start, ops[..|ops| - 1], fee)
  {
    var fewer := ops[..|ops| - 1];
    forall i | 0 <= i < |fewer| ensures RefundsADebit(start, fewer, fee, i) {
      assert fewer[..i] == ops[..i];
      assert RefundsADebit(start, ops, fee, i);
    }
  }

  /** The last operation adds at most its own debit; an id is debited once, so from one campaign, and before any refund of it. */
  lemma StillDebited(ops: seq<Op>, c: CampaignId, id: string)
    requires ops != [] && Callers(ops)
    ensures var fewer, last := ops[..|ops| - 1], ops[|ops| - 1];
            && (forall d :: DebitedBy(fewer, d, id) ==> DebitedBy(ops, d, id))
            && (DebitedBy(ops, c, id) <==> DebitedBy(fewer, c, id) || (last.DebitOp? && last.c == c && last.id == id))
            && (forall d :: DebitedBy(ops, c, id) && DebitedBy(ops, d, id) ==> c == d)
            && (last.DebitOp? && last.id == id ==> forall d :: !DebitedBy(fewer, d, id))
  {
    var fewer, last := ops[..|ops| - 1], ops[|ops| - 1];
    forall d | DebitedBy(fewer, d, id) ensures DebitedBy(ops, d, id) && !(last.DebitOp? && last.id == id) {
      var i :| 0 <= i < |fewer| && fewer[i].DebitOp? && fewer[i].c == d && fewer[i].id == id;
      assert ops[i] == fewer[i];
    }
    if DebitedBy(ops, c, id) {
      var i :| 0 <= i < |ops| && ops[i].DebitOp? && ops[i].c == c && ops[i].id == id;
      assert i < |fewer| ==> fewer[i] == ops[i];
    }
  }
}
