/**
 The per-client token bucket of the WebSocket server: lazy refill, one token per
 admitted request, and a sweep that forgets buckets idle for two windows.

 Time is in integer nanoseconds, tokens are reals.  `Limiter` is the state as a value,
 `Allow` one request against it, and `ClientRateLimiter` the class that keeps the state
 in fields.  `Remember` is the same limiter without the sweep; it is the reference the
 sweeping limiter is compared with.
 */
module RateLimit {

  type Nanos = int

  const NANOS_PER_SECOND: real := 1000000000.0

  datatype Config = Config(limit: int, window: Nanos, burst: int) {
    // The constructor returns no limiter at all for anything else.
    predicate Valid() {
      limit > 0 && window > 0 && burst > 0
    }

    function Rate(): real
      requires Valid()
    {
      limit as real / Seconds(window)
    }

    function IdleTTL(): Nanos {
      2 * window
    }
  }

  datatype Bucket = Bucket(tokens: real, last: Nanos, lastSeen: Nanos)

  datatype Decision = Decision(allowed: bool, retryAfter: Nanos)

  datatype Limiter = Limiter(clients: map<string, Bucket>, lastSweep: Nanos)

  datatype Call = Call(id: string, now: Nanos)

  function Seconds(d: Nanos): real {
    d as real / NANOS_PER_SECOND
  }

  function Min(a: real, b: real): real {
    if a < b then a else b
  }

  function Ceil(x: real): int {
    -((-x).Floor)
  }

  /******* One request *******/

  function FreshBucket(cfg: Config, now: Nanos): Bucket {
    Bucket(cfg.burst as real, now, now)
  }

  function Refill(cfg: Config, b: Bucket, now: Nanos): Bucket
    requires cfg.Valid()
  {
    if now - b.last > 0 then
      b.(tokens := Min(cfg.burst as real, b.tokens + Seconds(now - b.last) * cfg.Rate()), last := now)
    else
      b
  }

  // The bucket after one request and the answer to it.
  function Spend(cfg: Config, b: Bucket, now: Nanos): (Bucket, Decision)
    requires cfg.Valid()
  {
    var r := Refill(cfg, b, now).(lastSeen := now);
    if r.tokens >= 1.0 then
      (r.(tokens := r.tokens - 1.0), Decision(true, 0))
    else
      (r, Decision(false, Ceil((1.0 - r.tokens) / cfg.Rate() * NANOS_PER_SECOND)))
  }

  function BucketOf(cfg: Config, clients: map<string, Bucket>, id: string, now: Nanos): Bucket {
    if id in clients then clients[id] else FreshBucket(cfg, now)
  }

  // A request to a limiter that never forgets a bucket.
  function Remember(cfg: Config, clients: map<string, Bucket>, c: Call): (map<string, Bucket>, Decision)
    requires cfg.Valid()
  {
    var (b, d) := Spend(cfg, BucketOf(cfg, clients, c.id, c.now), c.now);
    (clients[c.id := b], d)
  }

  function Sweep(cfg: Config, l: Limiter, now: Nanos): Limiter {
    if |l.clients| == 0 || now - l.lastSweep < cfg.IdleTTL() then
      l
    else
      Limiter(map k | k in l.clients && now - l.clients[k].lastSeen < cfg.IdleTTL() :: l.clients[k], now)
  }

  function Allow(cfg: Config, l: Limiter, c: Call): (Limiter, Decision)
    requires cfg.Valid()
  {
    var s := Sweep(cfg, l, c.now);
    var (clients, d) := Remember(cfg, s.clients, c);
    (s.(clients := clients), d)
  }

  /******* The limiter object *******/

  class ClientRateLimiter {
    const cfg: Config
    var clients: map<string, Bucket>
    var lastSweep: Nanos

    constructor (limit: int, window: Nanos, burst: int, now: Nanos)
      ensures cfg == Config(limit, window, burst)
      ensures State() == Limiter(map[], now)
    {
      cfg := Config(limit, window, burst);
      clients := map[];
      lastSweep := now;
    }

    ghost function State(): Limiter
      reads this
    {
      Limiter(clients, lastSweep)
    }

    method SweepIdle(now: Nanos)
      modifies this
      ensures State() == Sweep(cfg, old(State()), now)
    {
      if |clients| == 0 || now - lastSweep < cfg.IdleTTL() {
        return;
      }
      ghost var before := clients;
      var todo := clients.Keys;
      while todo != {}
        invariant todo <= clients.Keys <= before.Keys
        invariant forall k :: k in clients ==> clients[k] == before[k]
        invariant forall k :: k in before && k !in todo ==>
          (k in clients <==> now - before[k].lastSeen < cfg.IdleTTL())
        decreases todo
      {
        var key :| key in todo;
        todo := todo - {key};
        if now - clients[key].lastSeen >= cfg.IdleTTL() {
          clients := clients - {key};
        }
      }
      lastSweep := now;
    }

    method Admit(clientID: string, now: Nanos) returns (d: Decision)
      requires cfg.Valid()
      modifies this
      ensures (State(), d) == Allow(cfg, old(State()), Call(clientID, now))
    {
      SweepIdle(now);
      var bucket := FreshBucket(cfg, now);
      if clientID in clients {
        bucket := clients[clientID];
      }
      var elapsed := Seconds(now - bucket.last);
      if elapsed > 0.0 {
        bucket := bucket.(tokens := Min(cfg.burst as real, bucket.tokens + elapsed * cfg.Rate()), last := now);
      }
      bucket := bucket.(lastSeen := now);
      if bucket.tokens >= 1.0 {
        bucket := bucket.(tokens := bucket.tokens - 1.0);
        clients := clients[clientID := bucket];
        return Decision(true, 0);
      }
      clients := clients[clientID := bucket];
      var waitSeconds := (1.0 - bucket.tokens) / cfg.Rate();
      return Decision(false, Ceil(waitSeconds * NANOS_PER_SECOND));
    }
  }

  // No limiter is built for a configuration that is not positive throughout.
  method NewClientRateLimiter(limit: int, window: Nanos, burst: int, now: Nanos) returns (l: ClientRateLimiter?)
    ensures l == null <==> limit <= 0 || window <= 0 || burst <= 0
    ensures l != null ==>
      fresh(l) && l.cfg == Config(limit, window, burst) && l.cfg.Valid() && l.State() == Limiter(map[], now)
  {
    if limit <= 0 || window <= 0 || burst <= 0 {
      return null;
    }
    l := new ClientRateLimiter(limit, window, burst, now);
  }

  // Without a limiter every request is admitted.
  method AdmitOn(l: ClientRateLimiter?, clientID: string, now: Nanos) returns (d: Decision)
    requires l != null ==> l.cfg.Valid()
    modifies l
    ensures l == null ==> d == Decision(true, 0)
    ensures l != null ==> (l.State(), d) == Allow(l.cfg, old(l.State()), Call(clientID, now))
  {
    if l == null {
      return Decision(true, 0);
    }
    d := l.Admit(clientID, now);
  }

  /******* Runs *******/

  // The clock never goes back.
  ghost predicate Ordered(start: Nanos, calls: seq<Call>)
    decreases calls
  {
    calls != [] ==> start <= calls[0].now && Ordered(calls[0].now, calls[1..])
  }

  function Decisions(cfg: Config, l: Limiter, calls: seq<Call>): (ds: seq<Decision>)
    requires cfg.Valid()
    ensures |ds| == |calls|
    decreases calls
  {
    if calls == [] then [] else
      var (l', d) := Allow(cfg, l, calls[0]);
      [d] + Decisions(cfg, l', calls[1..])
  }

  function RememberedDecisions(cfg: Config, clients: map<string, Bucket>, calls: seq<Call>): (ds: seq<Decision>)
    requires cfg.Valid()
    ensures |ds| == |calls|
    decreases calls
  {
    if calls == [] then [] else
      var (clients', d) := Remember(cfg, clients, calls[0]);
      [d] + RememberedDecisions(cfg, clients', calls[1..])
  }

  // How often `id` was admitted at a time in [t1, t2].
  function Admitted(calls: seq<Call>, ds: seq<Decision>, id: string, t1: Nanos, t2: Nanos): nat
    requires |ds| == |calls|
  {
    if calls == [] then 0 else
      (if calls[0].id == id && t1 <= calls[0].now <= t2 && ds[0].allowed then 1 else 0)
      + Admitted(calls[1..], ds[1..], id, t1, t2)
  }

  /******* Arithmetic *******/

  lemma RatePositive(cfg: Config)
    requires cfg.Valid()
    ensures cfg.Rate() > 0.0
  {
    assert Seconds(cfg.window) > 0.0;
    DivPositive(cfg.limit as real, Seconds(cfg.window));
  }

  lemma DivPositive(a: real, b: real)
    requires a > 0.0 && b > 0.0
    ensures a / b > 0.0
  {
    var q := a / b;
    assert q * b == a;
    if q <= 0.0 {
      MulMono(q, 0.0, b);
    }
  }

  lemma MulMono(a: real, b: real, c: real)
    requires a <= b && c >= 0.0
    ensures a * c <= b * c
  {
  }

  // Two windows refill twice the limit.
  lemma IdleRefill(cfg: Config, e: Nanos)
    requires cfg.Valid() && e >= cfg.IdleTTL()
    ensures Seconds(e) * cfg.Rate() >= 2.0 * cfg.limit as real
    ensures e == cfg.IdleTTL() ==> Seconds(e) * cfg.Rate() == 2.0 * cfg.limit as real
  {
    RatePositive(cfg);
    var w := Seconds(cfg.window);
    assert Seconds(cfg.IdleTTL()) == 2.0 * w;
    assert w * cfg.Rate() == cfg.limit as real;
    assert (2.0 * w) * cfg.Rate() == 2.0 * (w * cfg.Rate());
    MulMono(2.0 * w, Seconds(e), cfg.Rate());
  }

  // Refilling in two steps is refilling once.
  lemma RefillAdds(cfg: Config, b: Bucket, t: Nanos, u: Nanos)
    requires cfg.Valid() && b.tokens <= cfg.burst as real && b.last <= t <= u
    ensures Refill(cfg, Refill(cfg, b, t), u).tokens == Refill(cfg, b, u).tokens
    ensures Refill(cfg, Refill(cfg, b, t), u).last == Refill(cfg, b, u).last
  {
    RatePositive(cfg);
    var x, y, r := Seconds(t - b.last), Seconds(u - t), cfg.Rate();
    assert Seconds(u - b.last) == x + y;
    assert (x + y) * r == x * r + y * r;
    MulMono(0.0, x, r);
    MulMono(0.0, y, r);
  }

  /******* The sweep cannot be observed when burst <= 2 * limit *******/

  ghost predicate BucketOk(cfg: Config, b: Bucket, now: Nanos) {
    0.0 <= b.tokens <= cfg.burst as real && b.last == b.lastSeen <= now
  }

  ghost predicate BucketsOk(cfg: Config, clients: map<string, Bucket>, now: Nanos) {
    forall k :: k in clients ==> BucketOk(cfg, clients[k], now)
  }

  // `swept` is `kept` without some buckets that have been idle for the whole TTL.
  ghost predicate Forgets(cfg: Config, swept: map<string, Bucket>, kept: map<string, Bucket>, now: Nanos) {
    && (forall k :: k in swept ==> k in kept && swept[k] == kept[k])
    && (forall k :: k in kept && k !in swept ==> now - kept[k].lastSeen >= cfg.IdleTTL())
  }

  lemma SpendOk(cfg: Config, b: Bucket, now: Nanos)
    requires cfg.Valid() && BucketOk(cfg, b, now)
    ensures BucketOk(cfg, Spend(cfg, b, now).0, now)
    ensures Spend(cfg, b, now).0.lastSeen == now
  {
    RatePositive(cfg);
    if now > b.last {
      MulMono(0.0, Seconds(now - b.last), cfg.Rate());
    }
  }

  lemma RememberOk(cfg: Config, clients: map<string, Bucket>, c: Call, start: Nanos)
    requires cfg.Valid() && BucketsOk(cfg, clients, start) && start <= c.now
    ensures BucketsOk(cfg, Remember(cfg, clients, c).0, c.now)
  {
    SpendOk(cfg, BucketOf(cfg, clients, c.id, c.now), c.now);
  }

  // A bucket idle for the TTL answers like a fresh one.
  lemma IdleIsFresh(cfg: Config, b: Bucket, now: Nanos)
    requires cfg.Valid() && cfg.burst <= 2 * cfg.limit
    requires BucketOk(cfg, b, now) && now - b.lastSeen >= cfg.IdleTTL()
    ensures Spend(cfg, b, now) == Spend(cfg, FreshBucket(cfg, now), now)
  {
    IdleRefill(cfg, now - b.last);
    var refilled := b.tokens + Seconds(now - b.last) * cfg.Rate();
    assert 2.0 * cfg.limit as real == (2 * cfg.limit) as real;
    assert refilled >= cfg.burst as real;
    assert Refill(cfg, b, now) == Bucket(cfg.burst as real, now, b.lastSeen);
    assert Refill(cfg, FreshBucket(cfg, now), now) == FreshBucket(cfg, now);
  }

  lemma {:induction false} SweepInvisible(cfg: Config, l: Limiter, kept: map<string, Bucket>, start: Nanos,
                                          calls: seq<Call>)
    requires cfg.Valid() && cfg.burst <= 2 * cfg.limit
    requires Ordered(start, calls)
    requires BucketsOk(cfg, kept, start) && Forgets(cfg, l.clients, kept, start)
    ensures Decisions(cfg, l, calls) == RememberedDecisions(cfg, kept, calls)
    decreases calls
  {
    if calls == [] {
    } else {
      var c := calls[0];
      var s := Sweep(cfg, l, c.now);
      assert Forgets(cfg, s.clients, kept, c.now);
      if c.id in kept && c.id !in s.clients {
        IdleIsFresh(cfg, kept[c.id], c.now);
      }
      RememberOk(cfg, kept, c, start);
      SpendOk(cfg, BucketOf(cfg, kept, c.id, c.now), c.now);
      SweepInvisible(cfg, Allow(cfg, l, c).0, Remember(cfg, kept, c).0, c.now, calls[1..]);
    }
  }

  /******* A burst, and a burst again after two windows *******/

  function Repeat(id: string, now: Nanos, n: nat): (calls: seq<Call>)
    ensures |calls| == n
    ensures forall i :: 0 <= i < n ==> calls[i] == Call(id, now)
  {
    if n == 0 then [] else [Call(id, now)] + Repeat(id, now, n - 1)
  }

  function Yes(n: nat): (ds: seq<Decision>)
    ensures |ds| == n
    ensures forall i :: 0 <= i < n ==> ds[i] == Decision(true, 0)
  {
    if n == 0 then [] else [Decision(true, 0)] + Yes(n - 1)
  }

  function After(cfg: Config, l: Limiter, calls: seq<Call>): Limiter
    requires cfg.Valid()
    decreases calls
  {
    if calls == [] then l else After(cfg, Allow(cfg, l, calls[0]).0, calls[1..])
  }

  function RememberedAfter(cfg: Config, clients: map<string, Bucket>, calls: seq<Call>): map<string, Bucket>
    requires cfg.Valid()
    decreases calls
  {
    if calls == [] then clients else RememberedAfter(cfg, Remember(cfg, clients, calls[0]).0, calls[1..])
  }

  lemma {:induction false} DecisionsConcat(cfg: Config, l: Limiter, a: seq<Call>, b: seq<Call>)
    requires cfg.Valid()
    ensures Decisions(cfg, l, a + b) == Decisions(cfg, l, a) + Decisions(cfg, After(cfg, l, a), b)
    decreases a
  {
    if a == [] {
      assert a + b == b;
    } else {
      assert (a + b)[1..] == a[1..] + b;
      DecisionsConcat(cfg, Allow(cfg, l, a[0]).0, a[1..], b);
    }
  }

  lemma {:induction false} RememberedConcat(cfg: Config, clients: map<string, Bucket>, a: seq<Call>, b: seq<Call>)
    requires cfg.Valid()
    ensures RememberedDecisions(cfg, clients, a + b)
         == RememberedDecisions(cfg, clients, a) + RememberedDecisions(cfg, RememberedAfter(cfg, clients, a), b)
    decreases a
  {
    if a == [] {
      assert a + b == b;
    } else {
      assert (a + b)[1..] == a[1..] + b;
      RememberedConcat(cfg, Remember(cfg, clients, a[0]).0, a[1..], b);
    }
  }

  lemma {:induction false} OrderedConcat(start: Nanos, mid: Nanos, a: seq<Call>, b: seq<Call>)
    requires start <= mid && Ordered(start, a) && Ordered(mid, b)
    requires forall i :: 0 <= i < |a| ==> a[i].now <= mid
    ensures Ordered(start, a + b)
    decreases a
  {
    if a == [] {
      assert a + b == b;
    } else {
      assert (a + b)[1..] == a[1..] + b;
      OrderedConcat(a[0].now, mid, a[1..], b);
    }
  }

  lemma {:induction false} RepeatOrdered(id: string, start: Nanos, now: Nanos, n: nat)
    requires start <= now
    ensures Ordered(start, Repeat(id, now, n))
    decreases n
  {
    if n > 0 {
      assert Repeat(id, now, n)[1..] == Repeat(id, now, n - 1);
      RepeatOrdered(id, now, now, n - 1);
    }
  }

  // A bucket holding at least `n` tokens admits `n` requests at one instant.
  lemma {:induction false} RememberedBurst(cfg: Config, clients: map<string, Bucket>, id: string, now: Nanos, n: nat)
    requires cfg.Valid()
    requires BucketOf(cfg, clients, id, now).last == now && BucketOf(cfg, clients, id, now).tokens >= n as real
    ensures RememberedDecisions(cfg, clients, Repeat(id, now, n)) == Yes(n)
    ensures n > 0 ==>
      RememberedAfter(cfg, clients, Repeat(id, now, n))
      == clients[id := Bucket(BucketOf(cfg, clients, id, now).tokens - n as real, now, now)]
    decreases n
  {
    if n > 0 {
      assert Repeat(id, now, n)[1..] == Repeat(id, now, n - 1);
      var next := Remember(cfg, clients, Call(id, now)).0;
      RememberedBurst(cfg, next, id, now, n - 1);
    }
  }

  lemma {:induction false} SweptBurst(cfg: Config, l: Limiter, id: string, now: Nanos, n: nat)
    requires cfg.Valid() && now - l.lastSweep < cfg.IdleTTL()
    requires BucketOf(cfg, l.clients, id, now).last == now && BucketOf(cfg, l.clients, id, now).tokens >= n as real
    ensures Decisions(cfg, l, Repeat(id, now, n)) == Yes(n)
    ensures n > 0 ==>
      After(cfg, l, Repeat(id, now, n))
      == l.(clients := l.clients[id := Bucket(BucketOf(cfg, l.clients, id, now).tokens - n as real, now, now)])
    decreases n
  {
    if n > 0 {
      assert Repeat(id, now, n)[1..] == Repeat(id, now, n - 1);
      var next := Allow(cfg, l, Call(id, now)).0;
      SweptBurst(cfg, next, id, now, n - 1);
    }
  }

  // Two bursts, the second exactly when the first one's bucket is swept.
  function TwoBursts(cfg: Config, start: Nanos): (calls: seq<Call>)
    requires cfg.Valid()
    ensures |calls| == 2 * cfg.burst
  {
    Repeat("c", start, cfg.burst) + Repeat("c", start + cfg.IdleTTL(), cfg.burst)
  }

  lemma TwoBurstsOrdered(cfg: Config, start: Nanos)
    requires cfg.Valid()
    ensures Ordered(start, TwoBursts(cfg, start))
  {
    var t := start + cfg.IdleTTL();
    RepeatOrdered("c", start, start, cfg.burst);
    RepeatOrdered("c", t, t, cfg.burst);
    OrderedConcat(start, t, Repeat("c", start, cfg.burst), Repeat("c", t, cfg.burst));
  }

  // The sweeping limiter admits all of both bursts, whatever the configuration.
  lemma TwoBurstsSwept(cfg: Config, start: Nanos)
    requires cfg.Valid()
    ensures Decisions(cfg, Limiter(map[], start), TwoBursts(cfg, start)) == Yes(cfg.burst) + Yes(cfg.burst)
  {
    var l := Limiter(map[], start);
    var n, t := cfg.burst, start + cfg.IdleTTL();
    SweptBurst(cfg, l, "c", start, n);
    var l1 := After(cfg, l, Repeat("c", start, n));
    DecisionsConcat(cfg, l, Repeat("c", start, n), Repeat("c", t, n));
    assert Sweep(cfg, l1, t) == Limiter(map[], t);
    var l2 := Allow(cfg, l1, Call("c", t)).0;
    assert l2 == Allow(cfg, Limiter(map[], t), Call("c", t)).0;
    assert Decisions(cfg, l1, Repeat("c", t, n)) == Decisions(cfg, Limiter(map[], t), Repeat("c", t, n)) by {
      assert Repeat("c", t, n)[0] == Call("c", t);
    }
    SweptBurst(cfg, Limiter(map[], t), "c", t, n);
  }

  // A bucket holding exactly `m` tokens at `t` admits m of the requests made then and denies the next.
  lemma {:induction false} DrainedDenies(cfg: Config, clients: map<string, Bucket>,
                                         id: string, t: Nanos, m: nat, n: nat)
    requires cfg.Valid() && m < n && id in clients && clients[id] == Bucket(m as real, t, t)
    ensures !RememberedDecisions(cfg, clients, Repeat(id, t, n))[m].allowed
  {
    assert Repeat(id, t, n)[1..] == Repeat(id, t, n - 1);
    if m > 0 {
      var next := Remember(cfg, clients, Call(id, t)).0;
      assert next[id] == Bucket((m - 1) as real, t, t);
      DrainedDenies(cfg, next, id, t, m - 1, n - 1);
    }
  }

  // The same when it refills to `m` tokens at `t`: the first request also refills it.
  lemma RefilledBurst(cfg: Config, clients: map<string, Bucket>, id: string, t: Nanos, m: nat, n: nat)
    requires cfg.Valid() && 0 < m < n && id in clients && Refill(cfg, clients[id], t).tokens == m as real
    requires clients[id].last < t
    ensures !RememberedDecisions(cfg, clients, Repeat(id, t, n))[m].allowed
  {
    var one := Remember(cfg, clients, Call(id, t)).0;
    assert one[id] == Bucket((m - 1) as real, t, t);
    DrainedDenies(cfg, one, id, t, m - 1, n - 1);
    assert Repeat(id, t, n)[1..] == Repeat(id, t, n - 1);
  }

  // A limiter that remembers denies the request after the refilled 2 * limit ones.
  lemma TwoBurstsRemembered(cfg: Config, start: Nanos)
    requires cfg.Valid() && cfg.burst > 2 * cfg.limit
    ensures !RememberedDecisions(cfg, map[], TwoBursts(cfg, start))[cfg.burst + 2 * cfg.limit].allowed
  {
    var n, m, t := cfg.burst, 2 * cfg.limit, start + cfg.IdleTTL();
    RememberedBurst(cfg, map[], "c", start, n);
    var spent := RememberedAfter(cfg, map[], Repeat("c", start, n));
    RememberedConcat(cfg, map[], Repeat("c", start, n), Repeat("c", t, n));
    IdleRefill(cfg, cfg.IdleTTL());
    assert spent["c"] == Bucket(0.0, start, start);
    assert Refill(cfg, spent["c"], t).tokens == m as real;
    RefilledBurst(cfg, spent, "c", t, m, n);
  }

  ghost predicate SweepUnobservable(cfg: Config, start: Nanos)
    requires cfg.Valid()
  {
    forall calls :: Ordered(start, calls) ==>
      Decisions(cfg, Limiter(map[], start), calls) == RememberedDecisions(cfg, map[], calls)
  }

  // Sweeping is unobservable over all runs exactly when the burst fits in two windows of refill.
  lemma SweepRefinement(cfg: Config, start: Nanos)
    requires cfg.Valid()
    ensures SweepUnobservable(cfg, start) <==> cfg.burst <= 2 * cfg.limit
  {
    if cfg.burst <= 2 * cfg.limit {
      forall calls | Ordered(start, calls)
        ensures Decisions(cfg, Limiter(map[], start), calls) == RememberedDecisions(cfg, map[], calls)
      {
        SweepInvisible(cfg, Limiter(map[], start), map[], start, calls);
      }
    } else {
      TwoBurstsOrdered(cfg, start);
      TwoBurstsSwept(cfg, start);
      TwoBurstsRemembered(cfg, start);
      var calls, i := TwoBursts(cfg, start), cfg.burst + 2 * cfg.limit;
      assert Decisions(cfg, Limiter(map[], start), calls)[i].allowed;
    }
  }

  /******* The admission bound *******/

  // Tokens that would be there at time `t`.
  function Available(cfg: Config, clients: map<string, Bucket>, id: string, t: Nanos): real
    requires cfg.Valid()
  {
    Refill(cfg, BucketOf(cfg, clients, id, t), t).tokens
  }

  function Grant(cfg: Config, t1: Nanos, t2: Nanos): real
    requires cfg.Valid()
  {
    cfg.Rate() * Seconds(t2 - t1)
  }

  lemma AvailableGrows(cfg: Config, clients: map<string, Bucket>, id: string, t: Nanos, u: Nanos)
    requires cfg.Valid() && BucketsOk(cfg, clients, t) && t <= u
    ensures 0.0 <= Available(cfg, clients, id, t) <= cfg.burst as real
    ensures Available(cfg, clients, id, u) <= Available(cfg, clients, id, t) + Grant(cfg, t, u)
  {
    RatePositive(cfg);
    MulMono(0.0, Seconds(u - t), cfg.Rate());
    if id in clients {
      var b := clients[id];
      MulMono(0.0, Seconds(t - b.last), cfg.Rate());
      RefillAdds(cfg, b, t, u);
    }
  }

  lemma GrantAdds(cfg: Config, t: Nanos, u: Nanos, v: Nanos)
    requires cfg.Valid()
    ensures Grant(cfg, t, u) + Grant(cfg, u, v) == Grant(cfg, t, v)
  {
    var r := cfg.Rate();
    assert Seconds(v - t) == Seconds(u - t) + Seconds(v - u);
    assert r * (Seconds(u - t) + Seconds(v - u)) == r * Seconds(u - t) + r * Seconds(v - u);
  }

  lemma GrantMono(cfg: Config, t1: Nanos, t2: Nanos, from: Nanos)
    requires cfg.Valid() && t1 <= from <= t2
    ensures 0.0 <= Grant(cfg, from, t2) <= Grant(cfg, t1, t2)
  {
    RatePositive(cfg);
    MulMono(0.0, Seconds(t2 - from), cfg.Rate());
    MulMono(Seconds(t2 - from), Seconds(t2 - t1), cfg.Rate());
  }

  // From time `t` on, admissions up to `t2` are paid for by the tokens at `t` and the refill since.
  lemma {:induction false} AdmittedFrom(cfg: Config, clients: map<string, Bucket>, calls: seq<Call>,
                                        id: string, t1: Nanos, t: Nanos, t2: Nanos)
    requires cfg.Valid() && BucketsOk(cfg, clients, t) && Ordered(t, calls) && t <= t2
    ensures Admitted(calls, RememberedDecisions(cfg, clients, calls), id, t1, t2) as real
         <= Available(cfg, clients, id, t) + Grant(cfg, t, t2)
    decreases calls
  {
    RatePositive(cfg);
    AvailableGrows(cfg, clients, id, t, t2);
    MulMono(0.0, Seconds(t2 - t), cfg.Rate());
    if calls == [] {
    } else if calls[0].now > t2 {
      NoneAfter(calls, RememberedDecisions(cfg, clients, calls), id, t1, t2);
    } else {
      var c := calls[0];
      var (next, d) := Remember(cfg, clients, c);
      RememberOk(cfg, clients, c, t);
      AdmittedFrom(cfg, next, calls[1..], id, t1, c.now, t2);
      AvailableGrows(cfg, clients, id, t, c.now);
      GrantAdds(cfg, t, c.now, t2);
      assert RememberedDecisions(cfg, clients, calls)[1..] == RememberedDecisions(cfg, next, calls[1..]);
      assert Available(cfg, next, id, c.now)
          == Available(cfg, clients, id, c.now) - (if c.id == id && d.allowed then 1.0 else 0.0);
    }
  }

  lemma {:induction false} NoneAfter(calls: seq<Call>, ds: seq<Decision>, id: string, t1: Nanos, t2: Nanos)
    requires |ds| == |calls| && calls != [] && calls[0].now > t2 && Ordered(calls[0].now, calls)
    ensures Admitted(calls, ds, id, t1, t2) == 0
    decreases calls
  {
    if |calls| > 1 {
      NoneAfter(calls[1..], ds[1..], id, t1, t2);
    }
  }

  lemma {:induction false} AdmittedRemembered(cfg: Config, clients: map<string, Bucket>, start: Nanos, calls: seq<Call>,
                                              id: string, t1: Nanos, t2: Nanos)
    requires cfg.Valid() && BucketsOk(cfg, clients, start) && Ordered(start, calls) && t1 <= t2
    ensures Admitted(calls, RememberedDecisions(cfg, clients, calls), id, t1, t2) as real
         <= cfg.burst as real + Grant(cfg, t1, t2)
    decreases calls
  {
    GrantMono(cfg, t1, t2, t1);
    if calls == [] {
    } else if calls[0].now > t2 {
      NoneAfter(calls, RememberedDecisions(cfg, clients, calls), id, t1, t2);
    } else if calls[0].now >= t1 {
      var from := if start <= t1 then t1 else start;
      AvailableGrows(cfg, clients, id, from, from);
      AdmittedFrom(cfg, clients, calls, id, t1, from, t2);
      GrantMono(cfg, t1, t2, from);
    } else {
      var next := Remember(cfg, clients, calls[0]).0;
      RememberOk(cfg, clients, calls[0], start);
      AdmittedRemembered(cfg, next, calls[0].now, calls[1..], id, t1, t2);
      assert RememberedDecisions(cfg, clients, calls)[1..] == RememberedDecisions(cfg, next, calls[1..]);
    }
  }

  ghost predicate AdmissionBounded(cfg: Config, start: Nanos)
    requires cfg.Valid()
  {
    forall calls, id, t1, t2 :: Ordered(start, calls) && t1 <= t2 ==>
      Admitted(calls, Decisions(cfg, Limiter(map[], start), calls), id, t1, t2) as real
      <= cfg.burst as real + Grant(cfg, t1, t2)
  }

  lemma {:induction false} AdmittedAll(calls: seq<Call>, ds: seq<Decision>, id: string, t1: Nanos, t2: Nanos)
    requires |ds| == |calls|
    requires forall i :: 0 <= i < |calls| ==> calls[i].id == id && t1 <= calls[i].now <= t2 && ds[i].allowed
    ensures Admitted(calls, ds, id, t1, t2) == |calls|
    decreases calls
  {
    if calls != [] {
      AdmittedAll(calls[1..], ds[1..], id, t1, t2);
    }
  }

  // No client gets more than burst + rate * (t2 - t1) admissions in any [t1, t2] of any run,
  // exactly when the burst fits in two windows of refill.
  lemma AdmissionBound(cfg: Config, start: Nanos)
    requires cfg.Valid()
    ensures AdmissionBounded(cfg, start) <==> cfg.burst <= 2 * cfg.limit
  {
    if cfg.burst <= 2 * cfg.limit {
      forall calls, id, t1, t2 | Ordered(start, calls) && t1 <= t2
        ensures Admitted(calls, Decisions(cfg, Limiter(map[], start), calls), id, t1, t2) as real
             <= cfg.burst as real + Grant(cfg, t1, t2)
      {
        SweepInvisible(cfg, Limiter(map[], start), map[], start, calls);
        AdmittedRemembered(cfg, map[], start, calls, id, t1, t2);
      }
    } else {
      var calls, t := TwoBursts(cfg, start), start + cfg.IdleTTL();
      var ds := Decisions(cfg, Limiter(map[], start), calls);
      TwoBurstsOrdered(cfg, start);
      TwoBurstsSwept(cfg, start);
      AdmittedAll(calls, ds, "c", start, t);
      IdleRefill(cfg, cfg.IdleTTL());
      assert Grant(cfg, start, t) == 2.0 * cfg.limit as real;
      assert !(Admitted(calls, ds, "c", start, t) as real <= cfg.burst as real + Grant(cfg, start, t));
    }
  }

  /******* RetryAfter is exact *******/

  // With `tokens` left, a whole token is there `e` later exactly when `e` reaches the announced wait.
  lemma WaitExact(cfg: Config, tokens: real, e: Nanos)
    requires cfg.Valid() && tokens < 1.0
    ensures tokens + Seconds(e) * cfg.Rate() >= 1.0
       <==> e >= Ceil((1.0 - tokens) / cfg.Rate() * NANOS_PER_SECOND)
  {
    RatePositive(cfg);
    var r, w := cfg.Rate(), (1.0 - tokens) / cfg.Rate();
    assert w * r == 1.0 - tokens;
    if Seconds(e) >= w {
      MulMono(w, Seconds(e), r);
    } else {
      MulStrict(Seconds(e), w, r);
    }
    assert Seconds(e) >= w <==> e as real >= w * NANOS_PER_SECOND;
  }

  lemma MulStrict(a: real, b: real, c: real)
    requires a < b && c > 0.0
    ensures a * c < b * c
  {
  }

  // The wait shrinks by exactly the time already waited.
  lemma WaitShrinks(cfg: Config, tokens: real, e: Nanos)
    requires cfg.Valid() && tokens < 1.0
    ensures Ceil((1.0 - (tokens + Seconds(e) * cfg.Rate())) / cfg.Rate() * NANOS_PER_SECOND)
         == Ceil((1.0 - tokens) / cfg.Rate() * NANOS_PER_SECOND) - e
  {
    RatePositive(cfg);
    var r, w, k := cfg.Rate(), (1.0 - tokens) / cfg.Rate(), NANOS_PER_SECOND;
    var v := (1.0 - (tokens + Seconds(e) * r)) / r;
    assert v * r == w * r - Seconds(e) * r;
    assert (w - Seconds(e)) * r == w * r - Seconds(e) * r;
    EqByMul(v, w - Seconds(e), r);
    assert v * k == w * k - e as real;
  }

  lemma EqByMul(a: real, b: real, c: real)
    requires c > 0.0 && a * c == b * c
    ensures a == b
  {
    if a < b {
      MulStrict(a, b, c);
    } else if b < a {
      MulStrict(b, a, c);
    }
  }

  // At most one window passes before the next token.
  lemma WaitWithinWindow(cfg: Config, tokens: real)
    requires cfg.Valid() && 0.0 <= tokens < 1.0
    ensures 0 < Ceil((1.0 - tokens) / cfg.Rate() * NANOS_PER_SECOND) <= cfg.window
  {
    WaitExact(cfg, tokens, cfg.window);
    WaitExact(cfg, tokens, 0);
    RatePositive(cfg);
    assert Seconds(cfg.window) * cfg.Rate() == cfg.limit as real;
    assert Seconds(0) * cfg.Rate() == 0.0;
  }

  // `id` was told to come back at `deadline`: its bucket reaches a token then and not before,
  // or it has been swept, which happens only after the deadline.
  ghost predicate Waiting(cfg: Config, l: Limiter, id: string, deadline: Nanos, now: Nanos)
    requires cfg.Valid()
  {
    if id in l.clients then
      var b := l.clients[id];
      && b.last == b.lastSeen <= now && 0.0 <= b.tokens < 1.0
      && deadline == b.last + Ceil((1.0 - b.tokens) / cfg.Rate() * NANOS_PER_SECOND)
    else
      deadline <= now
  }

  lemma DenialWaits(cfg: Config, l: Limiter, c: Call, start: Nanos)
    requires cfg.Valid() && BucketsOk(cfg, l.clients, start) && start <= c.now
    requires !Allow(cfg, l, c).1.allowed
    ensures Waiting(cfg, Allow(cfg, l, c).0, c.id, c.now + Allow(cfg, l, c).1.retryAfter, c.now)
  {
    var s := Sweep(cfg, l, c.now);
    SpendOk(cfg, BucketOf(cfg, s.clients, c.id, c.now), c.now);
  }

  // One later request, of any client, against a waiting one.
  lemma WaitingStep(cfg: Config, l: Limiter, id: string, deadline: Nanos, start: Nanos, c: Call)
    requires cfg.Valid() && Waiting(cfg, l, id, deadline, start) && start <= c.now
    ensures c.id != id ==> Waiting(cfg, Allow(cfg, l, c).0, id, deadline, c.now)
    ensures c.id == id && c.now < deadline ==>
      && Allow(cfg, l, c).1 == Decision(false, deadline - c.now)
      && Waiting(cfg, Allow(cfg, l, c).0, id, deadline, c.now)
    ensures c.id == id && c.now >= deadline ==> Allow(cfg, l, c).1.allowed
  {
    var s := Sweep(cfg, l, c.now);
    if id in l.clients {
      WaitWithinWindow(cfg, l.clients[id].tokens);
      if id in s.clients && c.id == id {
        WaitingSpend(cfg, l.clients[id], c.now);
      }
    }
  }

  // A bucket short of a token denies until its deadline, keeps that deadline, and then admits.
  lemma WaitingSpend(cfg: Config, b: Bucket, now: Nanos)
    requires cfg.Valid() && 0.0 <= b.tokens < 1.0 && b.last <= now
    ensures var deadline := b.last + Ceil((1.0 - b.tokens) / cfg.Rate() * NANOS_PER_SECOND);
            var (b', d) := Spend(cfg, b, now);
            if now >= deadline then
              d.allowed
            else
              && d == Decision(false, deadline - now)
              && b'.last == b'.lastSeen == now && 0.0 <= b'.tokens < 1.0
              && deadline == b'.last + Ceil((1.0 - b'.tokens) / cfg.Rate() * NANOS_PER_SECOND)
  {
    var e := now - b.last;
    WaitExact(cfg, b.tokens, e);
    WaitShrinks(cfg, b.tokens, e);
    RatePositive(cfg);
    MulMono(0.0, Seconds(e), cfg.Rate());
    assert Seconds(0) * cfg.Rate() == 0.0;
    var t := b.tokens + Seconds(e) * cfg.Rate();
    assert t < 1.0 ==> Refill(cfg, b, now).tokens == t;
  }

  lemma {:induction false} WaitingRun(cfg: Config, l: Limiter, id: string, deadline: Nanos, start: Nanos,
                                      calls: seq<Call>, k: nat)
    requires cfg.Valid() && Waiting(cfg, l, id, deadline, start) && Ordered(start, calls)
    requires k < |calls| && calls[k].id == id
    requires forall i :: 0 <= i < k && calls[i].id == id ==> calls[i].now < deadline
    ensures calls[k].now < deadline ==> Decisions(cfg, l, calls)[k] == Decision(false, deadline - calls[k].now)
    ensures calls[k].now >= deadline ==> Decisions(cfg, l, calls)[k].allowed
    decreases k
  {
    WaitingStep(cfg, l, id, deadline, start, calls[0]);
    if k > 0 {
      WaitingRun(cfg, Allow(cfg, l, calls[0]).0, id, deadline, calls[0].now, calls[1..], k - 1);
    }
  }

  // In every run: after a denial, each request of that client before the announced time is denied
  // with the same deadline, and the first one at or after it is admitted, whatever other clients
  // and sweeps do in between.  The wait is at most one window.
  lemma {:induction false} RetryAfterExact(cfg: Config, l: Limiter, start: Nanos, calls: seq<Call>, i: nat, k: nat)
    requires cfg.Valid() && BucketsOk(cfg, l.clients, start) && Ordered(start, calls)
    requires i < k < |calls| && calls[i].id == calls[k].id
    requires !Decisions(cfg, l, calls)[i].allowed
    requires forall j :: i < j < k && calls[j].id == calls[i].id ==>
      calls[j].now < calls[i].now + Decisions(cfg, l, calls)[i].retryAfter
    ensures var ds := Decisions(cfg, l, calls);
            var deadline := calls[i].now + ds[i].retryAfter;
            && 0 < ds[i].retryAfter <= cfg.window
            && (calls[k].now < deadline ==> ds[k] == Decision(false, deadline - calls[k].now))
            && (calls[k].now >= deadline ==> ds[k].allowed)
    decreases i
  {
    var c := calls[0];
    var (next, d) := Allow(cfg, l, c);
    SpendOk(cfg, BucketOf(cfg, Sweep(cfg, l, c.now).clients, c.id, c.now), c.now);
    assert Decisions(cfg, l, calls)[1..] == Decisions(cfg, next, calls[1..]);
    if i == 0 {
      DenialWaits(cfg, l, c, start);
      WaitWithinWindow(cfg, next.clients[c.id].tokens);
      WaitingRun(cfg, next, c.id, c.now + d.retryAfter, c.now, calls[1..], k - 1);
    } else {
      RetryAfterExact(cfg, next, c.now, calls[1..], i - 1, k - 1);
    }
  }
}
