/**
 The withdrawable balance: enqueued withdrawals, direct debits, and the reversal of a
 failed withdrawal, which is written at most once per job whoever reaches it and
 however often it is replayed.
 */
module UserBalance {
  import opened Wrappers

  type JobId = nat

  datatype JobStatus = Queued | Processing | Done | JobFailed

  /** A withdrawal's payout job: what it debited, and where it stands. */
  datatype Withdrawal = Withdrawal(amount: nat, status: JobStatus, retryCount: nat)

  datatype EntryType = WITHDRAWAL | REVERSAL

  datatype Entry = Entry(kind: EntryType, amount: nat, job: Option<JobId>)

  /** One user's locked balance row, its ledger, and the withdrawal jobs it paid for. */
  datatype Purse = Purse(balance: int, ledger: seq<Entry>, jobs: seq<Withdrawal>)

  const WITHDRAWAL_MAX_RETRIES: nat := 3

  datatype Enqueued = Accepted(job: JobId, amount: nat, newBalance: int) | NothingToWithdraw(balance: int) | InFlight

  datatype DebitResult = Debited(newBalance: int) | Insufficient(balance: int, required: nat)

  /** The partial unique index: one queued or processing withdrawal per user. */
  predicate HasInFlight(jobs: seq<Withdrawal>) {
    exists j :: 0 <= j < |jobs| && (jobs[j].status.Queued? || jobs[j].status.Processing?)
  }

  predicate Reversed(ledger: seq<Entry>, job: JobId) {
    exists i :: 0 <= i < |ledger| && ledger[i].kind == REVERSAL && ledger[i].job == Some(job)
  }

  /** A ledger row that names this job's reversal; one without a job names none. */
  predicate IsReversal(e: Entry, job: Option<JobId>) {
    job.Some? && e.kind == REVERSAL && e.job == job
  }

  // ----- the operations on values -----

  /** `enqueueWithdrawal`: the whole balance, or nothing; the index's refusal rolls the debit back. */
  function Enqueue(p: Purse): (Purse, Enqueued) {
    if p.balance <= 0 then (p, NothingToWithdraw(p.balance))
    else if HasInFlight(p.jobs) then (p, InFlight)
    else (Purse(0, p.ledger + [Entry(WITHDRAWAL, p.balance, None)], p.jobs + [Withdrawal(p.balance, JobStatus.Queued, 0)]),
          Accepted(|p.jobs|, p.balance, 0))
  }

  function Debit(p: Purse, amount: nat, job: Option<JobId>): (Purse, DebitResult) {
    if p.balance < amount then (p, Insufficient(p.balance, amount))
    else (p.(balance := p.balance - amount, ledger := p.ledger + [Entry(WITHDRAWAL, amount, job)]), Debited(p.balance - amount))
  }

  function Reverse(p: Purse, amount: nat, job: Option<JobId>): Purse {
    if job.Some? && Reversed(p.ledger, job.value) then p
    else p.(balance := p.balance + amount, ledger := p.ledger + [Entry(REVERSAL, amount, job)])
  }

  /** The user's row, ledger and jobs as the database holds them. */
  class Account {
    var balance: int
    var ledger: seq<Entry>
    var jobs: seq<Withdrawal>

    function View(): Purse
      reads this
    {
      Purse(balance, ledger, jobs)
    }

    constructor (p: Purse)
      ensures View() == p
    {
      balance, ledger, jobs := p.balance, p.ledger, p.jobs;
    }

    method EnqueueWithdrawal() returns (result: Enqueued)
      modifies this
      ensures (View(), result) == Enqueue(old(View()))
      ensures result.NothingToWithdraw? <==> old(balance) <= 0
      ensures result.InFlight? <==> old(balance) > 0 && exists j :: 0 <= j < |old(jobs)| && (old(jobs)[j].status.Queued? || old(jobs)[j].status.Processing?)
      ensures result.Accepted? ==>
                && result == Accepted(|old(jobs)|, old(balance), 0) && balance == 0
                && jobs == old(jobs) + [Withdrawal(old(balance), JobStatus.Queued, 0)]
                && ledger == old(ledger) + [Entry(WITHDRAWAL, old(balance), None)]
      ensures !result.Accepted? ==> unchanged(this)
    {
      if balance <= 0 { return NothingToWithdraw(balance); }
      if HasInFlight(jobs) { return InFlight; }
      var amount := balance;
      balance := balance - amount;
      jobs := jobs + [Withdrawal(amount, JobStatus.Queued, 0)];
      ledger := ledger + [Entry(WITHDRAWAL, amount, None)];
      result := Accepted(|jobs| - 1, amount, balance);
    }

    method DebitForWithdrawal(amount: nat, job: Option<JobId>) returns (result: DebitResult)
      modifies this
      ensures (View(), result) == Debit(old(View()), amount, job)
      ensures jobs == old(jobs)
      ensures if old(balance) >= amount
              then result == Debited(balance) && balance == old(balance) - amount && ledger == old(ledger) + [Entry(WITHDRAWAL, amount, job)]
              else result == Insufficient(old(balance), amount) && unchanged(this)
    {
      if balance < amount { return Insufficient(balance, amount); }
      balance := balance - amount;
      ledger := ledger + [Entry(WITHDRAWAL, amount, job)];
      result := Debited(balance);
    }

    /** Under the row lock: a reversal already carrying this job's id leaves the balance as it is. */
    method RefundReversal(amount: nat, job: Option<JobId>) returns (newBalance: int)
      modifies this
      ensures View() == Reverse(old(View()), amount, job)
      ensures newBalance == balance && jobs == old(jobs)
      ensures (exists i :: 0 <= i < |old(ledger)| && IsReversal(old(ledger)[i], job)) ==> unchanged(this)
      ensures !(exists i :: 0 <= i < |old(ledger)| && IsReversal(old(ledger)[i], job)) ==>
                balance == old(balance) + amount && ledger == old(ledger) + [Entry(REVERSAL, amount, job)]
      ensures job.Some? ==> exists i :: 0 <= i < |ledger| && IsReversal(ledger[i], job)
    {
      if job.Some? {
        for i := 0 to |ledger|
          invariant balance == old(balance) && ledger == old(ledger) && jobs == old(jobs)
          invariant forall k :: 0 <= k < i ==> !IsReversal(ledger[k], job)
        {
          if ledger[i].kind == REVERSAL && ledger[i].job == job {
            assert IsReversal(old(ledger)[i], job);
            return balance;
          }
        }
      }
      assert job.Some? && Reversed(ledger, job.value) ==> exists i :: 0 <= i < |ledger| && IsReversal(ledger[i], job);
      balance := balance + amount;
      ledger := ledger + [Entry(REVERSAL, amount, job)];
      newBalance := balance;
      assert job.Some? ==> IsReversal(ledger[|ledger| - 1], job);
    }

    /** `handleWithdrawalRetry`'s write for a count read earlier: true when this caller won the move to failed. */
    method CountRetry(id: JobId, newCount: nat) returns (reverses: bool)
      modifies this`jobs
      ensures (jobs, reverses) == CountedRetry(old(jobs), id, newCount)
      ensures reverses <==> id < |old(jobs)| && newCount >= 3 && old(jobs)[id].status == Processing
      ensures id < |old(jobs)| && (newCount < 3 || reverses) ==>
                jobs == old(jobs)[id := Withdrawal(old(jobs)[id].amount, if reverses then JobFailed else old(jobs)[id].status, newCount)]
      ensures id >= |old(jobs)| || (newCount >= 3 && !reverses) ==> jobs == old(jobs)
    {
      if id >= |jobs| { return false; }
      if newCount >= WITHDRAWAL_MAX_RETRIES {
        if jobs[id].status != Processing { return false; }
        jobs := jobs[id := jobs[id].(status := JobFailed, retryCount := newCount)];
        return true;
      }
      jobs := jobs[id := jobs[id].(retryCount := newCount)];
      reverses := false;
    }
  }

  function CountedRetry(jobs: seq<Withdrawal>, id: JobId, newCount: nat): (seq<Withdrawal>, bool) {
    if id >= |jobs| then (jobs, false)
    else if newCount < WITHDRAWAL_MAX_RETRIES then (jobs[id := jobs[id].(retryCount := newCount)], false)
    else if jobs[id].status != Processing then (jobs, false)
    else (jobs[id := jobs[id].(status := JobFailed, retryCount := newCount)], true)
  }

  // ----- any interleaving -----

  type ReconcilerId = nat

  /** Where one reconciler stands on a failed withdrawal. */
  datatype Pass = Counted(job: JobId, newCount: nat) | Reversing(job: JobId)

  /** One user's money, and every reconciler at work on it. */
  datatype State = State(purse: Purse, passes: map<ReconcilerId, Pass>, opening: int, direct: nat)

  datatype Op =
    | EnqueueOp
    | DebitOp(amount: nat)
    | StartOp(job: JobId)                    // the worker takes a queued job
    | FinishOp(job: JobId)                   // Horizon confirmed it: marked done, whatever it read before
    | LookOp(r: ReconcilerId, job: JobId)    // Horizon says it failed: the retry count is read
    | WriteOp(r: ReconcilerId)               // the retry is counted, or the job finalized
    | ReverseOp(r: ReconcilerId, lost: bool) // the reversal commits; `lost`: and is run again
    | ReplayOp(job: JobId)                   // a caller outside runs the reversal of a failed job again
    | DieOp(r: ReconcilerId)

  predicate Enabled(s: State, op: Op) {
    match op
    case StartOp(j) => j < |s.purse.jobs| && s.purse.jobs[j].status == JobStatus.Queued
    case FinishOp(j) => j < |s.purse.jobs| && s.purse.jobs[j].status == Processing
    case LookOp(r, j) => r !in s.passes && j < |s.purse.jobs| && s.purse.jobs[j].status == Processing
    case WriteOp(r) => r in s.passes && s.passes[r].Counted?
    case ReverseOp(r, _) => r in s.passes && s.passes[r].Reversing? && s.passes[r].job < |s.purse.jobs|
    case ReplayOp(j) => j < |s.purse.jobs| && s.purse.jobs[j].status == JobFailed
    case _ => true
  }

  function Effect(s: State, op: Op): State
    requires Enabled(s, op)
  {
    match op
    case EnqueueOp => s.(purse := Enqueue(s.purse).0)
    case DebitOp(amount) =>
      var d := Debit(s.purse, amount, None);
      s.(purse := d.0, direct := if d.1.Debited? then s.direct + amount else s.direct)
    case StartOp(j) => s.(purse := s.purse.(jobs := s.purse.jobs[j := s.purse.jobs[j].(status := Processing)]))
    case FinishOp(j) => s.(purse := s.purse.(jobs := s.purse.jobs[j := s.purse.jobs[j].(status := Done)]))
    case LookOp(r, j) => s.(passes := s.passes[r := Counted(j, s.purse.jobs[j].retryCount + 1)])
    case WriteOp(r) =>
      var w := CountedRetry(s.purse.jobs, s.passes[r].job, s.passes[r].newCount);
      s.(purse := s.purse.(jobs := w.0), passes := if w.1 then s.passes[r := Reversing(s.passes[r].job)] else s.passes - {r})
    case ReverseOp(r, lost) =>
      var j := s.passes[r].job;
      s.(purse := Reverse(s.purse, s.purse.jobs[j].amount, Some(j)), passes := if lost then s.passes else s.passes - {r})
    case ReplayOp(j) => s.(purse := Reverse(s.purse, s.purse.jobs[j].amount, Some(j)))
    case DieOp(r) => s.(passes := s.passes - {r})
  }

  /** Units of the first `n` jobs whose debit has not been handed back. */
  function Unreversed(jobs: seq<Withdrawal>, ledger: seq<Entry>, n: nat): nat
    requires n <= |jobs|
  {
    if n == 0 then 0 else Unreversed(jobs, ledger, n - 1) + (if Reversed(ledger, n - 1) then 0 else jobs[n - 1].amount)
  }

  function ReversalsOf(ledger: seq<Entry>, job: JobId): nat {
    if ledger == [] then 0
    else
      var last := ledger[|ledger| - 1];
      ReversalsOf(ledger[..|ledger| - 1], job) + (if last.kind == REVERSAL && last.job == Some(job) then 1 else 0)
  }

  ghost predicate Kept(s: State) {
    && s.purse.balance >= 0
    && s.purse.balance + Unreversed(s.purse.jobs, s.purse.ledger, |s.purse.jobs|) + s.direct == s.opening
    && (forall j: JobId :: ReversalsOf(s.purse.ledger, j) <= 1)
    && (forall j: JobId :: Reversed(s.purse.ledger, j) ==> j < |s.purse.jobs| && s.purse.jobs[j].status == JobFailed)
    && (forall r :: r in s.passes ==> s.passes[r].job < |s.purse.jobs| && !s.purse.jobs[s.passes[r].job].status.Queued?)
    && (forall r :: r in s.passes && s.passes[r].Reversing? ==> s.purse.jobs[s.passes[r].job].status == JobFailed)
    && (forall q, r :: q in s.passes && r in s.passes && s.passes[q].Reversing? && s.passes[q] == s.passes[r] ==> q == r)
  }

  lemma {:induction false} UnreversedAlike(a: seq<Withdrawal>, l: seq<Entry>, b: seq<Withdrawal>, m: seq<Entry>, n: nat)
    requires n <= |a| && n <= |b|
    requires forall j :: 0 <= j < n ==> a[j].amount == b[j].amount && (Reversed(l, j) <==> Reversed(m, j))
    ensures Unreversed(a, l, n) == Unreversed(b, m, n)
  {
    if n > 0 {
      UnreversedAlike(a, l, b, m, n - 1);
    }
  }

  /** Reversing one job more takes exactly its amount out of the unreversed ones. */
  lemma {:induction false} UnreversedLess(jobs: seq<Withdrawal>, l: seq<Entry>, m: seq<Entry>, job: JobId, n: nat)
    requires n <= |jobs| && job < n && !Reversed(l, job) && Reversed(m, job)
    requires forall j :: 0 <= j < n && j != job ==> (Reversed(l, j) <==> Reversed(m, j))
    ensures Unreversed(jobs, m, n) + jobs[job].amount == Unreversed(jobs, l, n)
  {
    if job == n - 1 {
      UnreversedAlike(jobs, l, jobs, m, n - 1);
    } else {
      UnreversedLess(jobs, l, m, job, n - 1);
    }
  }

  lemma EntryAdded(ledger: seq<Entry>, e: Entry)
    ensures forall j: JobId :: ReversalsOf(ledger + [e], j) == ReversalsOf(ledger, j) + (if e.kind == REVERSAL && e.job == Some(j) then 1 else 0)
    ensures forall j: JobId :: Reversed(ledger + [e], j) <==> Reversed(ledger, j) || (e.kind == REVERSAL && e.job == Some(j))
  {
    var more := ledger + [e];
    assert more[..|ledger|] == ledger;
    forall j: JobId ensures Reversed(more, j) <==> Reversed(ledger, j) || (e.kind == REVERSAL && e.job == Some(j)) {
      if Reversed(ledger, j) {
        var i :| 0 <= i < |ledger| && ledger[i].kind == REVERSAL && ledger[i].job == Some(j);
        assert more[i] == ledger[i];
      } else if e.kind == REVERSAL && e.job == Some(j) {
        assert more[|ledger|] == e;
      }
    }
  }

  lemma {:induction false} CountedIsReversed(ledger: seq<Entry>, job: JobId)
    ensures Reversed(ledger, job) <==> ReversalsOf(ledger, job) > 0
  {
    if ledger != [] {
      var n := |ledger| - 1;
      CountedIsReversed(ledger[..n], job);
      assert ledger == ledger[..n] + [ledger[n]];
      EntryAdded(ledger[..n], ledger[n]);
    }
  }

  lemma ReverseKeeps(s: State, job: JobId)
    requires Kept(s) && job < |s.purse.jobs| && s.purse.jobs[job].status == JobFailed
    ensures Kept(s.(purse := Reverse(s.purse, s.purse.jobs[job].amount, Some(job))))
  {
    if !Reversed(s.purse.ledger, job) {
      var e := Entry(REVERSAL, s.purse.jobs[job].amount, Some(job));
      EntryAdded(s.purse.ledger, e);
      CountedIsReversed(s.purse.ledger, job);
      UnreversedLess(s.purse.jobs, s.purse.ledger, s.purse.ledger + [e], job, |s.purse.jobs|);
    }
  }

  lemma EnqueueKeeps(s: State)
    requires Kept(s)
    ensures Kept(s.(purse := Enqueue(s.purse).0))
  {
    if s.purse.balance > 0 && !HasInFlight(s.purse.jobs) {
      var e := Entry(WITHDRAWAL, s.purse.balance, None);
      var jobs := s.purse.jobs + [Withdrawal(s.purse.balance, JobStatus.Queued, 0)];
      EntryAdded(s.purse.ledger, e);
      UnreversedAlike(s.purse.jobs, s.purse.ledger, jobs, s.purse.ledger + [e], |s.purse.jobs|);
      assert !Reversed(s.purse.ledger, |s.purse.jobs|);
    }
  }

  function WithJob(s: State, j: JobId, job: Withdrawal, passes: map<ReconcilerId, Pass>): State
    requires j < |s.purse.jobs|
  {
    s.(purse := s.purse.(jobs := s.purse.jobs[j := job]), passes := passes)
  }

  /** Pass `r` after the step: as it was, a new look at `j`, or the one that won the move of `j` to failed. */
  predicate PassFrom(s: State, j: JobId, job: Withdrawal, passes: map<ReconcilerId, Pass>, r: ReconcilerId)
    requires j < |s.purse.jobs| && r in passes
  {
    || (r in s.passes && passes[r] == s.passes[r])
    || (passes[r].Counted? && passes[r].job == j)
    || (passes[r] == Reversing(j) && s.purse.jobs[j].status != JobFailed && job.status == JobFailed)
  }

  /** A change of status or retry count moves no money, and crowns at most one reconciler. */
  lemma JobKeeps(s: State, j: JobId, job: Withdrawal, passes: map<ReconcilerId, Pass>, actor: ReconcilerId)
    requires Kept(s) && j < |s.purse.jobs| && job.amount == s.purse.jobs[j].amount
    requires s.purse.jobs[j].status == JobFailed ==> job.status == JobFailed
    requires job.status.Queued? ==> passes == s.passes && s.purse.jobs[j].status.Queued?
    requires forall r :: r in passes ==> PassFrom(s, j, job, passes, r)
    requires forall r :: r in passes && r != actor ==> r in s.passes && passes[r] == s.passes[r]
    ensures Kept(WithJob(s, j, job, passes))
  {
    UnreversedAlike(s.purse.jobs, s.purse.ledger, s.purse.jobs[j := job], s.purse.ledger, |s.purse.jobs|);
  }

  lemma DebitKeeps(s: State, amount: nat)
    requires Kept(s)
    ensures Kept(Effect(s, DebitOp(amount)))
  {
    var e := Entry(WITHDRAWAL, amount, None);
    EntryAdded(s.purse.ledger, e);
    UnreversedAlike(s.purse.jobs, s.purse.ledger, s.purse.jobs, s.purse.ledger + [e], |s.purse.jobs|);
  }

  lemma OpKeeps(s: State, op: Op)
    requires Kept(s) && Enabled(s, op)
    ensures Kept(Effect(s, op))
  {
    match op
    case EnqueueOp => EnqueueKeeps(s);
    case DebitOp(amount) => DebitKeeps(s, amount);
    case StartOp(j) => JobKeeps(s, j, s.purse.jobs[j].(status := Processing), s.passes, 0);
    case FinishOp(j) => JobKeeps(s, j, s.purse.jobs[j].(status := Done), s.passes, 0);
    case LookOp(r, j) =>
      JobKeeps(s, j, s.purse.jobs[j], Effect(s, op).passes, r);
      assert s.purse.jobs[j := s.purse.jobs[j]] == s.purse.jobs;
    case WriteOp(r) =>
      var t := Effect(s, op);
      JobKeeps(s, s.passes[r].job, t.purse.jobs[s.passes[r].job], t.passes, r);
      assert s.purse.jobs[s.passes[r].job := t.purse.jobs[s.passes[r].job]] == t.purse.jobs;
    case ReverseOp(r, lost) => ReverseKeeps(s, s.passes[r].job);
    case ReplayOp(j) => ReverseKeeps(s, j);
    case DieOp(r) =>
  }

  ghost predicate Run(states: seq<State>, ops: seq<Op>) {
    && |states| == |ops| + 1
    && states[0] == State(Purse(states[0].opening, [], []), map[], states[0].opening, 0) && states[0].opening >= 0
    && forall i :: 0 <= i < |ops| ==> Enabled(states[i], ops[i]) && states[i + 1] == Effect(states[i], ops[i])
  }

  lemma {:induction false} OpeningStays(states: seq<State>, ops: seq<Op>, k: nat)
    requires Run(states, ops) && k < |states|
    ensures Kept(states[k]) && states[k].opening == states[0].opening
    decreases k
  {
    if k > 0 {
      OpeningStays(states, ops, k - 1);
      OpKeeps(states[k - 1], ops[k - 1]);
    }
  }

  /**
   The withdrawable balance is conserved: over any interleaving of enqueues, debits,
   reversals and replays, the balance and every unreversed withdrawal add up to the
   opening balance, the balance is never negative, no job is reversed twice, and only a
   job that failed is reversed at all.
   */
  lemma BalanceConserved(states: seq<State>, ops: seq<Op>, k: nat, job: JobId)
    requires Run(states, ops) && k < |states|
    ensures var s := states[k];
            && s.purse.balance + Unreversed(s.purse.jobs, s.purse.ledger, |s.purse.jobs|) + s.direct == states[0].opening
            && s.purse.balance >= 0
            && ReversalsOf(s.purse.ledger, job) <= 1
            && (Reversed(s.purse.ledger, job) ==> job < |s.purse.jobs| && s.purse.jobs[job].status == JobFailed)
  {
    OpeningStays(states, ops, k);
  }

  /** The job whose reversal this step runs. */
  function ReversedBy(s: State, op: Op): Option<JobId> {
    match op
    case ReverseOp(r, _) => if r in s.passes then Some(s.passes[r].job) else None
    case ReplayOp(j) => Some(j)
    case _ => None
  }

  /**
   A reversal gives the money back: after it the job is reversed exactly once, whoever ran
   it and however often; the first one raises the balance by the job's whole debit and takes
   it out of what is still owed; any other changes nothing.
   */
  lemma ReversalGivesBack(states: seq<State>, ops: seq<Op>, k: nat, job: JobId)
    requires Run(states, ops) && k < |ops| && ReversedBy(states[k], ops[k]) == Some(job)
    ensures job < |states[k].purse.jobs|
    ensures var p, q := states[k].purse, states[k + 1].purse;
            && ReversalsOf(q.ledger, job) == 1 && q.jobs == p.jobs
            && (ReversalsOf(p.ledger, job) == 0 ==>
                  && q.balance == p.balance + p.jobs[job].amount
                  && q.ledger == p.ledger + [Entry(REVERSAL, p.jobs[job].amount, Some(job))]
                  && Unreversed(q.jobs, q.ledger, |q.jobs|) + p.jobs[job].amount == Unreversed(p.jobs, p.ledger, |p.jobs|))
            && (ReversalsOf(p.ledger, job) == 1 ==> q == p)
  {
    var s, t := states[k], states[k + 1];
    OpeningStays(states, ops, k);
    OpeningStays(states, ops, k + 1);
    CountedIsReversed(s.purse.ledger, job);
    EntryAdded(s.purse.ledger, Entry(REVERSAL, s.purse.jobs[job].amount, Some(job)));
    assert ReversalsOf(s.purse.ledger, job) <= 1;
  }

  /** Reversed already, or in the hands of the reconciler that won the move to failed. */
  predicate Handled(s: State, job: JobId) {
    Reversed(s.purse.ledger, job) || exists r :: r in s.passes && s.passes[r] == Reversing(job)
  }

  /** No winner of a move to failed dies before its reversal. */
  ghost predicate WinnersLive(states: seq<State>, ops: seq<Op>)
    requires |states| == |ops| + 1
  {
    forall i :: 0 <= i < |ops| && ops[i].DieOp? && ops[i].r in states[i].passes ==> !states[i].passes[ops[i].r].Reversing?
  }

  lemma HandledStays(s: State, op: Op, job: JobId)
    requires Kept(s) && Enabled(s, op) && (op.DieOp? && op.r in s.passes ==> !s.passes[op.r].Reversing?)
    requires job < |s.purse.jobs| && s.purse.jobs[job].status == JobFailed ==> Handled(s, job)
    ensures var t := Effect(s, op);
            job < |t.purse.jobs| && t.purse.jobs[job].status == JobFailed ==> Handled(t, job)
  {
    var t := Effect(s, op);
    EntryAdded(s.purse.ledger, Entry(WITHDRAWAL, s.purse.balance, None));
    if op.DebitOp? {
      EntryAdded(s.purse.ledger, Entry(WITHDRAWAL, op.amount, None));
    }
    if ReversedBy(s, op).Some? {
      var j := ReversedBy(s, op).value;
      EntryAdded(s.purse.ledger, Entry(REVERSAL, s.purse.jobs[j].amount, Some(j)));
    }
    if job < |t.purse.jobs| && t.purse.jobs[job].status == JobFailed {
      if job < |s.purse.jobs| && s.purse.jobs[job].status == JobFailed && !Reversed(s.purse.ledger, job) {
        var r :| r in s.passes && s.passes[r] == Reversing(job);
        if !Reversed(t.purse.ledger, job) {
          assert r in t.passes && t.passes[r] == Reversing(job);
        }
      } else if !(job < |s.purse.jobs| && s.purse.jobs[job].status == JobFailed) {
        assert op.WriteOp? && t.passes[op.r] == Reversing(job);
      }
    }
  }

  /** No failed withdrawal is forgotten: while no winner dies first, each has been given back or has its reconciler about to. */
  lemma {:induction false} FailedIsHandled(states: seq<State>, ops: seq<Op>, k: nat, job: JobId)
    requires Run(states, ops) && WinnersLive(states, ops) && k < |states|
    requires job < |states[k].purse.jobs| && states[k].purse.jobs[job].status == JobFailed
    ensures Handled(states[k], job)
    decreases k
  {
    if k > 0 {
      OpeningStays(states, ops, k - 1);
      var s := states[k - 1];
      if job < |s.purse.jobs| && s.purse.jobs[job].status == JobFailed {
        FailedIsHandled(states, ops, k - 1, job);
      }
      HandledStays(s, ops[k - 1], job);
    }
  }

  /** Of all reconcilers on one job, at most one has won the move to failed and will reverse it. */
  lemma OneReconcilerReverses(states: seq<State>, ops: seq<Op>, k: nat, q: ReconcilerId, r: ReconcilerId)
    requires Run(states, ops) && k < |states|
    requires q in states[k].passes && r in states[k].passes
    requires states[k].passes[q].Reversing? && states[k].passes[r] == states[k].passes[q]
    ensures q == r
  {
    OpeningStays(states, ops, k);
  }
}
