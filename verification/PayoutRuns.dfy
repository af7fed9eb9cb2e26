/**
 Whole runs: every reachable state keeps the journal invariant and the lease, so no
 submission is ever paid twice, no payment is lost, and no two payers hold at once.
 When every lease is kept and every record is acknowledged, the lease alone gives the
 one payer at a time that the second contract needs.
 */
module PayoutRuns {
  import opened Wrappers
  import opened StellarChain
  import opened PayoutRows
  import opened PayoutProtocol
  import opened PayoutSafety
  import opened PayoutLease

  ghost predicate AllSingle(s: System) {
    forall i :: 0 <= i < |s.subs| ==> Single(s.subs[i])
  }

  ghost predicate RunInv(m: Mode, s: System) {
    && s.world.Valid()
    && (Sound(m) ==> SystemInv(m, s))
    && (LeaseMode(m) ==> AllUnderLease(m, s))
    && (m.onePayer ==> AllSingle(s))
  }

  lemma NextSingle(m: Mode, s: System, l: Label, t: System)
    requires m.onePayer && AllSingle(s) && Next(m, s, l, t)
    ensures AllSingle(t)
  {
    hide Effect, Enabled;
    if l.Act? {
      SingleKeeps(m, s.subs[l.i], s.world, l.a);
    }
  }

  lemma NextBuildsAlone(m: Mode, s: System, l: Label, t: System)
    requires RunInv(m, s) && Next(m, s, l, t) && l.Act?
    ensures BuildsAlone(m, s.subs[l.i], l.a)
  {
    hide Effect, Enabled, SubInv, LeaseInv;
    if m.onePayer {
      SingleKeeps(m, s.subs[l.i], s.world, l.a);
    } else if Exclusive(m) {
      LeaseBuildsAlone(m, s.subs[l.i], s.world, l.a);
    }
  }

  lemma {:induction false} RunKeeps(m: Mode, states: seq<System>, labels: seq<Label>, k: nat)
    requires Run(m, states, labels) && k < |states|
    ensures RunInv(m, states[k])
    decreases k
  {
    if k > 0 {
      RunKeeps(m, states, labels, k - 1);
      var s, l, t := states[k - 1], labels[k - 1], states[k];
      assert Next(m, s, l, t);
      hide Allowed, Run;
      NextValid(m, s, l, t);
      if l.Act? { NextBuildsAlone(m, s, l, t); }
      if Sound(m) { NextKeeps(m, s, l, t); }
      if LeaseMode(m) { NextLease(m, s, l, t); }
      if m.onePayer { NextSingle(m, s, l, t); }
    }
  }

  lemma NextValid(m: Mode, s: System, l: Label, t: System)
    requires s.world.Valid() && Next(m, s, l, t)
    ensures t.world.Valid()
  {
  }

  /** In every run, at most one envelope per submission ever applies. */
  lemma AtMostOnePayment(m: Mode, states: seq<System>, labels: seq<Label>, k: nat, i: nat, g: Hash, h: Hash)
    requires Sound(m) && Run(m, states, labels) && k < |states| && i < |states[k].subs|
    requires g in states[k].subs[i].envs && Applied(g, states[k].world.chain)
    requires h in states[k].subs[i].envs && Applied(h, states[k].world.chain)
    ensures g == h
  {
    RunKeeps(m, states, labels, k);
    var s := states[k].subs[i];
    assert SubInv(m, s, states[k].world);
    AppliedIsOnlyLive(m, s, states[k].world, g);
    AppliedIsOnlyLive(m, s, states[k].world, h);
  }

  /** The inductive core, as the journal's comments promise it. */
  lemma OneAttemptNotVoid(m: Mode, states: seq<System>, labels: seq<Label>, k: nat, i: nat)
    requires Sound(m) && Run(m, states, labels) && k < |states| && i < |states[k].subs|
    ensures var r := states[k].subs[i].rows;
            && (forall g, h :: Live(r.attempts, g) && Live(r.attempts, h) ==> g == h)
            && (forall h :: h in r.attempts && r.attempts[h].status == Landed ==> r.hash == Some(h))
  {
    RunKeeps(m, states, labels, k);
    assert SubInv(m, states[k].subs[i], states[k].world);
  }

  /**
   No payment is lost: in every reachable state, processes dying anywhere, an applied
   envelope is the submission's recorded hash or is still open for the next payer.
   */
  lemma NoPaymentLost(m: Mode, states: seq<System>, labels: seq<Label>, k: nat, i: nat, h: Hash)
    requires Sound(m) && Run(m, states, labels) && k < |states| && i < |states[k].subs|
    requires h in states[k].subs[i].envs && Applied(h, states[k].world.chain)
    ensures states[k].subs[i].rows.hash == Some(h) || OpenIn(states[k].subs[i].rows.attempts, h)
  {
    RunKeeps(m, states, labels, k);
    var s := states[k].subs[i];
    assert SubInv(m, s, states[k].world);
    AppliedIsOnlyLive(m, s, states[k].world, h);
  }

  /** In every run, at most one payer is between its claim and its record or release. */
  lemma AtMostOneHolder(m: Mode, states: seq<System>, labels: seq<Label>, k: nat, i: nat, p: PayerId, q: PayerId)
    requires LeaseMode(m) && Run(m, states, labels) && k < |states| && i < |states[k].subs|
    requires Holds(states[k].subs[i], p) && Holds(states[k].subs[i], q)
    ensures p == q
  {
    RunKeeps(m, states, labels, k);
    assert LeaseInv(m, states[k].subs[i], states[k].world.now);
  }

  /** ... and while it holds, no other claim, no settlement and no operator's reset touches the row. */
  lemma HolderKeepsOthersOut(m: Mode, states: seq<System>, labels: seq<Label>, k: nat, i: nat, p: PayerId)
    requires LeaseMode(m) && Run(m, states, labels) && k < |states| && i < |states[k].subs|
    requires Holds(states[k].subs[i], p)
    ensures var r, now := states[k].subs[i].rows, states[k].world.now;
            && ClaimForRetry(r, now) == None && AdminReset(r, now) == None
            && forall h, from :: !Unchanged(r, from, h)
  {
    RunKeeps(m, states, labels, k);
    HolderIsUnderLease(m, states[k].subs[i], states[k].world.now, p);
  }
}
