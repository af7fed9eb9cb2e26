/**
 De-duplication of PAGE alerts within one process: local ownership while a webhook is in
 flight and a local cooldown after it, shared by the Redis path and the degraded one.
 */
module HealthAlert {
  import opened Wrappers

  type Key = string
  type Token = nat

  /** The two module-level maps. */
  datatype Desk = Desk(owners: map<Key, Token>, expiries: map<Key, int>)

  function Unexpired(expiries: map<Key, int>, now: int): map<Key, int> {
    map k | k in expiries && expiries[k] > now :: expiries[k]
  }

  predicate CanClaim(d: Desk, key: Key, now: int) {
    key !in Unexpired(d.expiries, now) && key !in d.owners
  }

  function ClaimPage(d: Desk, key: Key, token: Token, now: int): Desk {
    Desk(if CanClaim(d, key, now) then d.owners[key := token] else d.owners, Unexpired(d.expiries, now))
  }

  function ReleasePage(d: Desk, key: Key, token: Token): Desk {
    if key in d.owners && d.owners[key] == token then d.(owners := d.owners - {key}) else d
  }

  function CompletePage(d: Desk, key: Key, token: Token, cooldown: nat, now: int): Desk {
    if key in d.owners && d.owners[key] == token
    then Desk(d.owners - {key}, Unexpired(d.expiries, now)[key := now + cooldown])
    else d
  }

  /** The maps as the process updates them. */
  class PageDesk {
    var owners: map<Key, Token>
    var expiries: map<Key, int>

    function View(): Desk
      reads this
    {
      Desk(owners, expiries)
    }

    constructor ()
      ensures View() == Desk(map[], map[])
    {
      owners, expiries := map[], map[];
    }

    /** `pruneExpiredPageFallbacks`: delete while walking the entries. */
    method Prune(now: int)
      modifies this`expiries
      ensures expiries == Unexpired(old(expiries), now)
    {
      var keys := expiries.Keys;
      while keys != {}
        invariant keys <= old(expiries).Keys
        invariant forall k :: k in expiries <==> k in old(expiries) && (k in keys || old(expiries)[k] > now)
        invariant forall k :: k in expiries ==> expiries[k] == old(expiries)[k]
        decreases keys
      {
        var k :| k in keys;
        if expiries[k] <= now {
          expiries := expiries - {k};
        }
        keys := keys - {k};
      }
    }

    method ClaimLocalPage(key: Key, token: Token, now: int) returns (claimed: bool)
      modifies this
      ensures claimed == CanClaim(old(View()), key, now) && View() == ClaimPage(old(View()), key, token, now)
    {
      Prune(now);
      if key in expiries || key in owners { return false; }
      owners := owners[key := token];
      claimed := true;
    }

    method ReleaseLocalPage(key: Key, token: Token)
      modifies this
      ensures View() == ReleasePage(old(View()), key, token)
    {
      if key in owners && owners[key] == token {
        owners := owners - {key};
      }
    }

    method CompleteLocalPage(key: Key, token: Token, cooldown: nat, now: int)
      modifies this
      ensures View() == CompletePage(old(View()), key, token, cooldown, now)
    {
      if key !in owners || owners[key] != token { return; }
      owners := owners - {key};
      Prune(now);
      expiries := expiries[key := now + cooldown];
    }
  }

  // ----- calls in any interleaving -----

  /** What Redis answered a call before it may deliver. */
  datatype Redis = Unavailable | Leased | Refused

  /** A PAGE call whose webhook is in flight. `degraded` is the path without Redis. */
  datatype Call = Call(key: Key, now: int, cooldown: nat, degraded: bool)

  /** The desk, the calls in flight, every successful delivery in the order it completed, and the latest claim's clock. */
  datatype Process = Process(desk: Desk, calls: map<Token, Call>, sent: seq<Call>, clock: int)

  datatype Event =
    | Alert(token: Token, call: Call, redis: Redis)
    | Delivered(token: Token)
    | NotDelivered(token: Token)

  /** Tokens are unique; claims come in non-decreasing clock order. */
  predicate Enabled(p: Process, e: Event) {
    match e
    case Alert(token, call, redis) =>
      token !in p.calls && (forall k :: k in p.desk.owners ==> p.desk.owners[k] != token)
      && p.clock <= call.now && call.degraded == redis.Unavailable?
    case Delivered(token) => token in p.calls
    case NotDelivered(token) => token in p.calls
  }

  /** Both paths claim the page locally before any webhook; a refused lease claims nothing. */
  function Effect(p: Process, e: Event): Process
    requires Enabled(p, e)
  {
    match e
    case Alert(token, call, redis) =>
      if redis.Refused? then p
      else
        p.(desk := ClaimPage(p.desk, call.key, token, call.now), clock := call.now,
           calls := if CanClaim(p.desk, call.key, call.now) then p.calls[token := call] else p.calls)
    case Delivered(token) =>
      var c := p.calls[token];
      p.(desk := CompletePage(p.desk, c.key, token, c.cooldown, c.now), calls := p.calls - {token}, sent := p.sent + [c])
    case NotDelivered(token) =>
      p.(desk := ReleasePage(p.desk, p.calls[token].key, token), calls := p.calls - {token})
  }

  /** A delivery's cooldown still stands on the desk, or is over by the clock. */
  predicate CooledBy(p: Process, c: Call) {
    (c.key in p.desk.expiries && p.desk.expiries[c.key] >= c.now + c.cooldown) || c.now + c.cooldown <= p.clock
  }

  /** An identity cools down only for a delivery of its own, and exactly as long as that asked. */
  ghost predicate Cools(p: Process, key: Key)
    requires key in p.desk.expiries
  {
    exists i :: 0 <= i < |p.sent| && p.sent[i].key == key && p.desk.expiries[key] == p.sent[i].now + p.sent[i].cooldown
  }

  /** Owners and calls in flight are the same, one an identity. */
  ghost predicate Owned(p: Process) {
    && (forall t :: t in p.calls ==> p.calls[t].key in p.desk.owners && p.desk.owners[p.calls[t].key] == t && p.calls[t].now <= p.clock)
    && (forall k :: k in p.desk.owners ==> p.desk.owners[k] in p.calls && p.calls[p.desk.owners[k]].key == k)
  }

  ghost predicate Cooling(p: Process) {
    && (forall i :: 0 <= i < |p.sent| ==> CooledBy(p, p.sent[i]))
    && (forall k :: k in p.desk.expiries ==> Cools(p, k))
  }

  /** Deliveries, and the calls after them, are a cooldown apart. */
  ghost predicate Spaced(p: Process) {
    && (forall i, t :: 0 <= i < |p.sent| && t in p.calls && p.calls[t].key == p.sent[i].key ==>
          p.sent[i].now + p.sent[i].cooldown <= p.calls[t].now)
    && (forall i, j :: 0 <= i < j < |p.sent| && p.sent[i].key == p.sent[j].key ==>
          p.sent[i].now + p.sent[i].cooldown <= p.sent[j].now)
  }

  ghost predicate Deduplicated(p: Process) {
    Owned(p) && Cooling(p) && Spaced(p)
  }

  lemma AlertOwned(p: Process, token: Token, call: Call, redis: Redis)
    requires Owned(p) && Enabled(p, Alert(token, call, redis))
    ensures Owned(Effect(p, Alert(token, call, redis)))
  {
  }

  /** A claim drops only cooldowns that are over, and is made only once they are. */
  lemma AlertCools(p: Process, token: Token, call: Call, redis: Redis)
    requires Cooling(p) && Enabled(p, Alert(token, call, redis))
    ensures Cooling(Effect(p, Alert(token, call, redis)))
    ensures CanClaim(p.desk, call.key, call.now) ==>
              forall i :: 0 <= i < |p.sent| && p.sent[i].key == call.key ==> p.sent[i].now + p.sent[i].cooldown <= call.now
  {
    var q := Effect(p, Alert(token, call, redis));
    forall i | 0 <= i < |q.sent|
      ensures CooledBy(q, q.sent[i])
      ensures CanClaim(p.desk, call.key, call.now) && p.sent[i].key == call.key ==> p.sent[i].now + p.sent[i].cooldown <= call.now
    {
      assert CooledBy(p, p.sent[i]);
    }
    forall k | k in q.desk.expiries ensures Cools(q, k) {
      assert Cools(p, k);
    }
  }

  lemma AlertKeeps(p: Process, token: Token, call: Call, redis: Redis)
    requires Deduplicated(p) && Enabled(p, Alert(token, call, redis))
    ensures Deduplicated(Effect(p, Alert(token, call, redis)))
  {
    AlertOwned(p, token, call, redis);
    AlertCools(p, token, call, redis);
    hide Owned, Cooling, CanClaim, ClaimPage;
  }

  lemma DeliveredOwned(p: Process, token: Token)
    requires Owned(p) && Enabled(p, Delivered(token))
    ensures Owned(Effect(p, Delivered(token)))
  {
  }

  /** Earlier deliveries of the identity have cooled down by the time its call took, so its own cooldown covers theirs. */
  lemma DeliveredCooledBy(p: Process, token: Token, i: nat)
    requires Cooling(p) && Owned(p) && Spaced(p) && Enabled(p, Delivered(token)) && i < |p.sent|
    ensures CooledBy(Effect(p, Delivered(token)), p.sent[i])
  {
    assert CooledBy(p, p.sent[i]);
    assert p.calls[token].key == p.sent[i].key ==> p.sent[i].now + p.sent[i].cooldown <= p.calls[token].now;
    hide Cooling, Spaced;
  }

  lemma DeliveredExpiry(p: Process, token: Token, k: Key)
    requires Enabled(p, Delivered(token)) && (k in p.desk.expiries ==> Cools(p, k)) && k in Effect(p, Delivered(token)).desk.expiries
    ensures Cools(Effect(p, Delivered(token)), k)
  {
    var q, c := Effect(p, Delivered(token)), p.calls[token];
    assert q.sent[|p.sent|] == c;
    if k in p.desk.expiries {
      var i :| 0 <= i < |p.sent| && p.sent[i].key == k && p.desk.expiries[k] == p.sent[i].now + p.sent[i].cooldown;
      assert q.sent[i] == p.sent[i];
    }
  }

  lemma DeliveredCools(p: Process, token: Token)
    requires Cooling(p) && Owned(p) && Spaced(p) && Enabled(p, Delivered(token))
    ensures Cooling(Effect(p, Delivered(token)))
  {
    var q := Effect(p, Delivered(token));
    assert q.sent == p.sent + [p.calls[token]];
    NowCools(p, token);
    forall i | 0 <= i < |p.sent| ensures CooledBy(q, p.sent[i]) {
      DeliveredCooledBy(p, token, i);
    }
    forall k | k in q.desk.expiries ensures Cools(q, k) {
      DeliveredExpiry(p, token, k);
    }
    hide CooledBy, Cools, Effect;
  }

  lemma NowCools(p: Process, token: Token)
    requires Owned(p) && Enabled(p, Delivered(token))
    ensures CooledBy(Effect(p, Delivered(token)), p.calls[token])
  {
  }

  lemma DeliveredSpaced(p: Process, token: Token)
    requires Spaced(p) && Owned(p) && Enabled(p, Delivered(token))
    ensures Spaced(Effect(p, Delivered(token)))
  {
    hide CompletePage;
  }

  lemma DeliveredKeeps(p: Process, token: Token)
    requires Deduplicated(p) && Enabled(p, Delivered(token))
    ensures Deduplicated(Effect(p, Delivered(token)))
  {
    DeliveredOwned(p, token);
    DeliveredCools(p, token);
    DeliveredSpaced(p, token);
    hide Owned, Cooling, Spaced, Effect;
  }

  lemma NotDeliveredKeeps(p: Process, token: Token)
    requires Deduplicated(p) && Enabled(p, NotDelivered(token))
    ensures Deduplicated(Effect(p, NotDelivered(token)))
  {
    var q := Effect(p, NotDelivered(token));
    forall i | 0 <= i < |p.sent| ensures CooledBy(q, p.sent[i]) {
      assert CooledBy(p, p.sent[i]);
    }
    forall k | k in p.desk.expiries ensures Cools(q, k) {
      assert Cools(p, k);
    }
  }

  lemma EventKeeps(p: Process, e: Event)
    requires Deduplicated(p) && Enabled(p, e)
    ensures Deduplicated(Effect(p, e))
  {
    match e
    case Alert(token, call, redis) => AlertKeeps(p, token, call, redis);
    case Delivered(token) => DeliveredKeeps(p, token);
    case NotDelivered(token) => NotDeliveredKeeps(p, token);
  }

  ghost predicate Run(states: seq<Process>, events: seq<Event>) {
    && |states| == |events| + 1
    && states[0] == Process(Desk(map[], map[]), map[], [], states[0].clock)
    && forall i :: 0 <= i < |events| ==> Enabled(states[i], events[i]) && states[i + 1] == Effect(states[i], events[i])
  }

  lemma {:induction false} RunKeeps(states: seq<Process>, events: seq<Event>, k: nat)
    requires Run(states, events) && k < |states|
    ensures Deduplicated(states[k])
    decreases k
  {
    if k > 0 {
      RunKeeps(states, events, k - 1);
      EventKeeps(states[k - 1], events[k - 1]);
    }
  }

  /** Over every interleaving of Redis-up and degraded calls, an identity never has two deliveries in flight. */
  lemma OneDeliveryInFlight(states: seq<Process>, events: seq<Event>, k: nat, s: Token, t: Token)
    requires Run(states, events) && k < |states| && s in states[k].calls && t in states[k].calls
    requires states[k].calls[s].key == states[k].calls[t].key
    ensures s == t
  {
    RunKeeps(states, events, k);
  }

  /**
   The calls of two successful deliveries of an identity took their times at least the first
   one's cooldown apart. A cooldown runs from the time its call read when it claimed, so a
   slow first delivery may complete closer than that to the second.
   */
  lemma DeliveriesCoolDown(states: seq<Process>, events: seq<Event>, k: nat, i: nat, j: nat)
    requires Run(states, events) && k < |states| && i < j < |states[k].sent|
    requires states[k].sent[i].key == states[k].sent[j].key
    ensures states[k].sent[j].now - states[k].sent[i].now >= states[k].sent[i].cooldown
  {
    RunKeeps(states, events, k);
  }

  /** No finished call leaves ownership behind: every owned identity has its call still in flight. */
  lemma OwnershipEnds(states: seq<Process>, events: seq<Event>, k: nat, key: Key)
    requires Run(states, events) && k < |states| && key in states[k].desk.owners
    ensures states[k].desk.owners[key] in states[k].calls && states[k].calls[states[k].desk.owners[key]].key == key
  {
    RunKeeps(states, events, k);
  }

  /**
   An alert goes out exactly when Redis did not refuse it, nothing is in flight for its
   identity and every earlier delivery of it has cooled down: none is dropped for want of
   Redis, and none repeated.
   */
  lemma AlertGoesOutExactly(states: seq<Process>, events: seq<Event>, k: nat, token: Token, call: Call, redis: Redis)
    requires Run(states, events) && k < |states| && Enabled(states[k], Alert(token, call, redis))
    ensures token in Effect(states[k], Alert(token, call, redis)).calls <==>
              && redis != Refused
              && (forall t :: t in states[k].calls ==> states[k].calls[t].key != call.key)
              && (forall i :: 0 <= i < |states[k].sent| && states[k].sent[i].key == call.key ==>
                    states[k].sent[i].now + states[k].sent[i].cooldown <= call.now)
  {
    RunKeeps(states, events, k);
    var p := states[k];
    assert Deduplicated(p);
    forall i | 0 <= i < |p.sent| && p.sent[i].key == call.key && p.sent[i].now + p.sent[i].cooldown > call.now
      ensures !CanClaim(p.desk, call.key, call.now)
    {
      assert CooledBy(p, p.sent[i]);
    }
    if call.key in p.desk.expiries {
      assert Cools(p, call.key);
    }
  }
}
