/**
 The Stellar ledger as the payout rail sees it: a growing sequence of ledgers
 with increasing close times, read through Horizon, whose answer is always the
 answer of some prefix of that sequence.
 */
module StellarChain {
  import opened Wrappers

  /** An envelope's hash. Only equality matters. */
  type Hash = nat

  /** Milliseconds, on the network's clock or on a host's. */
  type Time = nat

  /** One closed ledger: when it closed, and each included envelope with whether it applied. */
  datatype Ledger = Ledger(closeTime: Time, txs: map<Hash, bool>)

  type Chain = seq<Ledger>

  /** Horizon's three answers about a hash (`getTxStatus`). */
  datatype TxStatus = Confirmed | Failed | NotFound

  /** What a reader of exactly these ledgers answers. The first inclusion decides. */
  function Lookup(c: Chain, h: Hash): TxStatus {
    if c == [] then NotFound
    else
      var before := Lookup(c[..|c| - 1], h);
      var last := c[|c| - 1];
      if before != NotFound then before
      else if h !in last.txs then NotFound
      else if last.txs[h] then Confirmed
      else Failed
  }

  function LatestClose(c: Chain): Option<Time> {
    if c == [] then None else Some(c[|c| - 1].closeTime)
  }

  /** A ledger closed strictly past `t`: an envelope is still valid at a close time equal to its bound. */
  predicate ClosedPast(c: Chain, t: Time) {
    c != [] && c[|c| - 1].closeTime > t
  }

  ghost predicate Ordered(c: Chain) {
    forall i, j :: 0 <= i < j < |c| ==> c[i].closeTime < c[j].closeTime
  }

  /** Every ledger that includes `h` closes within the envelope's time bound. */
  ghost predicate WithinBound(c: Chain, h: Hash, maxTime: Time) {
    forall i :: 0 <= i < |c| && h in c[i].txs ==> c[i].closeTime <= maxTime
  }

  /** `later` is a possible future of `c` for an envelope `h` bounded by `maxTime`. */
  ghost predicate Future(c: Chain, later: Chain, h: Hash, maxTime: Time) {
    c <= later && Ordered(later) && WithinBound(later, h, maxTime)
  }

  /** What an answer means of the ledgers read: absent from all of them, or as the first that includes it has it. */
  lemma {:induction false} LookupReads(c: Chain, h: Hash)
    ensures Lookup(c, h) == NotFound <==> forall i :: 0 <= i < |c| ==> h !in c[i].txs
    ensures Lookup(c, h) != NotFound <==> exists i :: FirstIncludes(c, h, i)
    ensures forall i :: FirstIncludes(c, h, i) ==> (Lookup(c, h) == Confirmed <==> c[i].txs[h])
  {
    if c != [] {
      var n := |c| - 1;
      LookupReads(c[..n], h);
      forall i | 0 <= i < n ensures FirstIncludes(c, h, i) <==> FirstIncludes(c[..n], h, i) {
        assert c[..n][..i] == c[..i];
      }
      if Lookup(c[..n], h) != NotFound {
        var i :| FirstIncludes(c[..n], h, i);
        assert FirstIncludes(c, h, i);
      } else if h in c[n].txs {
        assert FirstIncludes(c, h, n);
      }
    }
  }

  /** Ledger `i` is the first that includes `h`. */
  predicate FirstIncludes(c: Chain, h: Hash, i: int) {
    0 <= i < |c| && h in c[i].txs && forall j :: 0 <= j < i ==> h !in c[j].txs
  }

  /** A settled answer never changes as the chain grows. */
  lemma {:induction false} LookupGrows(c: Chain, later: Chain, h: Hash)
    requires c <= later
    requires Lookup(c, h) != NotFound
    ensures Lookup(later, h) == Lookup(c, h)
    decreases |later|
  {
    if |c| < |later| {
      var init := later[..|later| - 1];
      assert c <= init;
      LookupGrows(c, init, h);
    } else {
      assert c == later;
    }
  }

  /** Absence is final once a ledger has closed past the bound: no future includes the envelope. */
  lemma {:induction false} AbsentPastBound(c: Chain, later: Chain, h: Hash, maxTime: Time)
    requires Future(c, later, h, maxTime)
    requires Lookup(c, h) == NotFound && ClosedPast(c, maxTime)
    ensures Lookup(later, h) == NotFound
    decreases |later|
  {
    if |c| < |later| {
      var init := later[..|later| - 1];
      assert c <= init;
      assert c[|c| - 1] == later[|c| - 1];
      AbsentPastBound(c, init, h, maxTime);
    } else {
      assert c == later;
    }
  }

  /** A view that ends after the bound keeps that property as it grows. */
  lemma ClosedPastGrows(c: Chain, later: Chain, t: Time)
    requires c <= later && Ordered(later) && ClosedPast(c, t)
    ensures ClosedPast(later, t)
  {
    assert c[|c| - 1] == later[|c| - 1];
    assert |c| - 1 < |later| - 1 ==> later[|c| - 1].closeTime < later[|later| - 1].closeTime;
  }
}
