/** The per-address rate limiter that forgets addresses it has not heard from,
    against one that never forgets. Times are seconds. */
module RateLimit {

  const STALE_AFTER := 3600.0

  /** Tokens per second and bucket size. */
  datatype Config = Config(rate: real, burst: nat)

  predicate Valid(c: Config) { c.rate > 0.0 }

  datatype Bucket = Bucket(tokens: real, last: real)

  datatype Entry = Entry(bucket: Bucket, lastSeen: real)

  type Address = string
  type Table = map<Address, Entry>

  function Min(a: real, b: real): real { if a <= b then a else b }

  /** Tokens in the bucket at a later time. */
  function Level(c: Config, b: Bucket, now: real): real {
    Min(c.burst as real, b.tokens + (now - b.last) * c.rate)
  }

  /** Takes a token if there is one. */
  function Take(c: Config, b: Bucket, now: real): (Bucket, bool) {
    var level := Level(c, b, now);
    if level >= 1.0 then (Bucket(level - 1.0, now), true) else (b, false)
  }

  function Fresh(c: Config, now: real): Bucket { Bucket(c.burst as real, now) }

  function Touch(c: Config, t: Table, ip: Address, now: real): Table {
    t[ip := Entry(if ip in t then t[ip].bucket else Fresh(c, now), now)]
  }

  function Request(c: Config, t: Table, ip: Address, now: real): (Table, bool) {
    var seen := Touch(c, t, ip, now);
    var (b, allowed) := Take(c, seen[ip].bucket, now);
    (seen[ip := Entry(b, now)], allowed)
  }

  predicate Stale(e: Entry, now: real) { now - e.lastSeen > STALE_AFTER }

  function Swept(t: Table, now: real): Table {
    map ip | ip in t && !Stale(t[ip], now) :: t[ip]
  }

  datatype Op = Ask(ip: Address, at: real) | Tick(at: real)

  /** The answers to the requests, in order; a limiter that forgets obeys the sweeps. */
  function Answers(c: Config, t: Table, ops: seq<Op>, forgets: bool): seq<bool>
    decreases ops
  {
    if ops == [] then []
    else match ops[0]
      case Tick(at) => Answers(c, if forgets then Swept(t, at) else t, ops[1..], forgets)
      case Ask(ip, at) =>
        var (t', allowed) := Request(c, t, ip, at);
        [allowed] + Answers(c, t', ops[1..], forgets)
  }

  predicate Ordered(ops: seq<Op>, from: real)
    decreases ops
  {
    ops == [] || (from <= ops[0].at && Ordered(ops[1..], ops[0].at))
  }

  // ---------- Forgetting is unobservable ----------

  predicate Sane(c: Config, b: Bucket, now: real) {
    0.0 <= b.tokens <= c.burst as real && b.last <= now
  }

  lemma Monotone(a: real, b: real, r: real)
    requires a <= b && r >= 0.0
    ensures a * r <= b * r
  {
    assert (b - a) * r >= 0.0;
  }

  lemma LevelAtOnce(c: Config, b: Bucket, at: real)
    requires b.last == at
    ensures Level(c, b, at) == Min(c.burst as real, b.tokens)
  {
    var elapsed := at - b.last;
    assert elapsed == 0.0 && elapsed * c.rate == 0.0;
  }

  /** The level later depends only on the level now. */
  lemma LevelLater(c: Config, b: Bucket, now: real, later: real)
    requires Valid(c) && Sane(c, b, now) && now <= later
    ensures Level(c, b, later) == Min(c.burst as real, Level(c, b, now) + (later - now) * c.rate)
    ensures 0.0 <= Level(c, b, now) <= c.burst as real
  {
    assert (later - b.last) * c.rate == (now - b.last) * c.rate + (later - now) * c.rate;
    Monotone(0.0, later - now, c.rate);
    Monotone(0.0, now - b.last, c.rate);
    var gained := (now - b.last) * c.rate;
    assert gained >= 0.0;
    assert Level(c, b, now) == Min(c.burst as real, b.tokens + gained);
  }

  /** A bucket left alone for longer than the eviction time is full again. */
  lemma FullWhenStale(c: Config, b: Bucket, lastSeen: real, now: real)
    requires Valid(c) && c.burst as real <= STALE_AFTER * c.rate
    requires Sane(c, b, lastSeen) && now - lastSeen > STALE_AFTER
    ensures Level(c, b, now) == c.burst as real
  {
    Monotone(STALE_AFTER, now - b.last, c.rate);
    var gained := (now - b.last) * c.rate;
    assert gained >= c.burst as real;
    assert Level(c, b, now) == Min(c.burst as real, b.tokens + gained);
  }

  /** What the two tables have in common at a time: an address known to both has
      the same level, and one that was forgotten has a full bucket. */
  ghost predicate Agree(c: Config, t: Table, k: Table, now: real) {
    && (forall ip :: ip in k ==> Sane(c, k[ip].bucket, now))
    && (forall ip :: ip in t ==>
          && ip in k && Sane(c, t[ip].bucket, t[ip].lastSeen) && t[ip].lastSeen <= now
          && Level(c, t[ip].bucket, now) == Level(c, k[ip].bucket, now))
    && (forall ip :: ip in k && ip !in t ==> Level(c, k[ip].bucket, now) == c.burst as real)
  }

  lemma AgreeLater(c: Config, t: Table, k: Table, now: real, later: real)
    requires Valid(c) && Agree(c, t, k, now) && now <= later
    ensures Agree(c, t, k, later)
  {
    forall ip | ip in k
      ensures Sane(c, k[ip].bucket, later)
      ensures ip in t ==> Level(c, t[ip].bucket, later) == Level(c, k[ip].bucket, later)
      ensures ip !in t ==> Level(c, k[ip].bucket, later) == c.burst as real
    {
      LevelLater(c, k[ip].bucket, now, later);
      if ip in t {
        LevelLater(c, t[ip].bucket, now, later);
      } else {
        Monotone(0.0, later - now, c.rate);
      }
    }
  }

  /** Buckets of the same level answer alike and are of the same level afterwards. */
  lemma TakeAgrees(c: Config, b: Bucket, d: Bucket, now: real)
    requires Valid(c) && Sane(c, b, now) && Sane(c, d, now) && Level(c, b, now) == Level(c, d, now)
    ensures var (b', x) := Take(c, b, now); var (d', y) := Take(c, d, now);
      x == y && Sane(c, b', now) && Sane(c, d', now) && Level(c, b', now) == Level(c, d', now)
  {
    var level := Level(c, b, now);
    if level >= 1.0 {
      LevelAtOnce(c, Bucket(level - 1.0, now), now);
    }
  }

  lemma FreshIsFull(c: Config, now: real)
    ensures Level(c, Fresh(c, now), now) == c.burst as real && Sane(c, Fresh(c, now), now)
  {
    LevelAtOnce(c, Fresh(c, now), now);
  }

  lemma AgreeRequest(c: Config, t: Table, k: Table, ip: Address, now: real)
    requires Valid(c) && Agree(c, t, k, now)
    ensures Request(c, t, ip, now).1 == Request(c, k, ip, now).1
    ensures Agree(c, Request(c, t, ip, now).0, Request(c, k, ip, now).0, now)
  {
    var b := Touch(c, t, ip, now)[ip].bucket;
    var d := Touch(c, k, ip, now)[ip].bucket;
    FreshIsFull(c, now);
    TakeAgrees(c, b, d, now);
    var (b', x) := Take(c, b, now);
    var (d', y) := Take(c, d, now);
    var t', k' := t[ip := Entry(b', now)], k[ip := Entry(d', now)];
    assert Request(c, t, ip, now) == (t', x) && Request(c, k, ip, now) == (k', y) by {
      assert Touch(c, t, ip, now)[ip := Entry(b', now)] == t';
      assert Touch(c, k, ip, now)[ip := Entry(d', now)] == k';
    }
  }

  lemma AgreeSweep(c: Config, t: Table, k: Table, now: real)
    requires Valid(c) && c.burst as real <= STALE_AFTER * c.rate && Agree(c, t, k, now)
    ensures Agree(c, Swept(t, now), k, now)
  {
    forall ip | ip in t && Stale(t[ip], now)
      ensures Level(c, k[ip].bucket, now) == c.burst as real
    {
      FullWhenStale(c, t[ip].bucket, t[ip].lastSeen, now);
    }
  }

  lemma {:induction false} SameAnswers(c: Config, t: Table, k: Table, ops: seq<Op>, now: real)
    requires Valid(c) && c.burst as real <= STALE_AFTER * c.rate
    requires Agree(c, t, k, now) && Ordered(ops, now)
    ensures Answers(c, t, ops, true) == Answers(c, k, ops, false)
    decreases ops
  {
    if ops != [] {
      var at := ops[0].at;
      AgreeLater(c, t, k, now, at);
      match ops[0]
      case Tick(_) =>
        AgreeSweep(c, t, k, at);
        SameAnswers(c, Swept(t, at), k, ops[1..], at);
      case Ask(ip, _) =>
        AgreeRequest(c, t, k, ip, at);
        SameAnswers(c, Request(c, t, ip, at).0, Request(c, k, ip, at).0, ops[1..], at);
    }
  }

  // ---------- And only then ----------

  function Repeat(op: Op, n: nat): (ops: seq<Op>)
    ensures |ops| == n && forall i :: 0 <= i < n ==> ops[i] == op
  {
    seq(n, i => op)
  }

  ghost predicate AllYes(answers: seq<bool>) { false !in answers }

  lemma TakeOne(c: Config, b: Bucket, at: real)
    ensures Take(c, b, at).1 ==> Level(c, Take(c, b, at).0, at) == Level(c, b, at) - 1.0
  {
    if Take(c, b, at).1 {
      LevelAtOnce(c, Take(c, b, at).0, at);
    }
  }

  /** n requests at one instant are all allowed exactly when the bucket holds n tokens. */
  lemma {:induction false} Burst(c: Config, t: Table, ip: Address, at: real, n: nat, rest: seq<Op>,
      forgets: bool) returns (after: Table)
    requires ip in t
    ensures var all := Answers(c, t, Repeat(Ask(ip, at), n) + rest, forgets);
      && |all| >= n
      && all[n..] == Answers(c, after, rest, forgets)
      && (AllYes(all[..n]) <==> n == 0 || Level(c, t[ip].bucket, at) >= n as real)
    ensures n == 0 ==> after == t
    ensures Level(c, t[ip].bucket, at) >= n as real && n > 0 ==>
      after == t[ip := Entry(Bucket(Level(c, t[ip].bucket, at) - n as real, at), at)]
    decreases n
  {
    var ops := Repeat(Ask(ip, at), n) + rest;
    if n == 0 {
      assert ops == rest;
      after := t;
    } else {
      assert ops[1..] == Repeat(Ask(ip, at), n - 1) + rest;
      var (t', allowed) := Request(c, t, ip, at);
      TakeOne(c, t[ip].bucket, at);
      after := Burst(c, t', ip, at, n - 1, rest, forgets);
      var later := Answers(c, t', ops[1..], forgets);
      assert Answers(c, t, ops, forgets) == [allowed] + later;
      assert ([allowed] + later)[n..] == later[n - 1..];
      assert ([allowed] + later)[..n] == [allowed] + later[..n - 1];
    }
  }

  /** The same from a table that has not seen the address yet. */
  lemma FirstBurst(c: Config, t: Table, ip: Address, at: real, rest: seq<Op>, forgets: bool) returns (after: Table)
    requires ip !in t && c.burst > 0
    ensures var n := c.burst; var all := Answers(c, t, Repeat(Ask(ip, at), n) + rest, forgets);
      && |all| >= n && AllYes(all[..n]) && all[n..] == Answers(c, after, rest, forgets)
    ensures after == t[ip := Entry(Bucket(0.0, at), at)]
  {
    var seen := Touch(c, t, ip, at);
    var ops := Repeat(Ask(ip, at), c.burst) + rest;
    assert ops[0] == Ask(ip, at);
    assert Touch(c, seen, ip, at) == seen;
    assert Answers(c, seen, ops, forgets) == Answers(c, t, ops, forgets);
    FreshIsFull(c, at);
    after := Burst(c, seen, ip, at, c.burst, rest, forgets);
  }

  lemma {:induction false} RepeatIsOrdered(op: Op, n: nat, rest: seq<Op>, from: real)
    requires from <= op.at && Ordered(rest, op.at)
    ensures Ordered(Repeat(op, n) + rest, from)
    decreases n
  {
    var ops := Repeat(op, n) + rest;
    if n == 0 {
      assert ops == rest;
      if rest != [] { assert from <= rest[0].at; }
    } else {
      assert ops[1..] == Repeat(op, n - 1) + rest;
      RepeatIsOrdered(op, n - 1, rest, op.at);
    }
  }

  lemma EvictedButNotFull(c: Config) returns (wait: real)
    requires Valid(c) && c.burst as real > STALE_AFTER * c.rate
    ensures wait > STALE_AFTER && 0.0 < wait * c.rate < c.burst as real
  {
    var full := c.burst as real / c.rate;
    assert full * c.rate == c.burst as real;
    if full <= STALE_AFTER {
      Monotone(full, STALE_AFTER, c.rate);
    }
    wait := (STALE_AFTER + full) / 2.0;
    assert (full - wait) * c.rate > 0.0;
  }

  function Drained(ip: Address): Table { map[ip := Entry(Bucket(0.0, 0.0), 0.0)] }

  /** The limiter that forgets allows a whole burst after the sweep. */
  lemma ForgotBurst(c: Config, ip: Address, wait: real, second: seq<Op>)
    requires c.burst > 0 && wait > STALE_AFTER && second == Repeat(Ask(ip, wait), c.burst)
    ensures var all := Answers(c, Drained(ip), [Tick(wait)] + second, true); |all| >= c.burst && AllYes(all[..c.burst])
  {
    assert ([Tick(wait)] + second)[1..] == second && second + [] == second;
    assert Swept(Drained(ip), wait) == map[];
    var after := FirstBurst(c, map[], ip, wait, [], true);
  }

  /** The one that remembers does not. */
  lemma RememberedBurst(c: Config, ip: Address, wait: real, second: seq<Op>)
    requires c.burst > 0 && 0.0 < wait * c.rate < c.burst as real && second == Repeat(Ask(ip, wait), c.burst)
    ensures var all := Answers(c, Drained(ip), [Tick(wait)] + second, false);
      |all| >= c.burst && !AllYes(all[..c.burst])
  {
    assert ([Tick(wait)] + second)[1..] == second && second + [] == second;
    var after := Burst(c, Drained(ip), ip, wait, c.burst, [], false);
    assert (wait - 0.0) * c.rate == wait * c.rate;
    assert Level(c, Drained(ip)[ip].bucket, wait) < c.burst as real;
  }

  /** A slow enough refill makes a sweep visible: drain the bucket, wait until it
      is evicted but not yet full, and drain it again. */
  lemma ForgettingShows(c: Config, ip: Address) returns (ops: seq<Op>)
    requires Valid(c) && c.burst as real > STALE_AFTER * c.rate
    ensures Ordered(ops, 0.0)
    ensures Answers(c, map[], ops, true) != Answers(c, map[], ops, false)
  {
    Monotone(0.0, STALE_AFTER, c.rate);
    var wait := EvictedButNotFull(c);
    var second := Repeat(Ask(ip, wait), c.burst);
    var tail := [Tick(wait)] + second;
    ops := Repeat(Ask(ip, 0.0), c.burst) + tail;
    assert second + [] == second && tail[1..] == second;
    RepeatIsOrdered(Ask(ip, wait), c.burst, [], wait);
    RepeatIsOrdered(Ask(ip, 0.0), c.burst, tail, 0.0);
    var a := FirstBurst(c, map[], ip, 0.0, tail, true);
    var b := FirstBurst(c, map[], ip, 0.0, tail, false);
    assert a == Drained(ip) && b == Drained(ip);
    ForgotBurst(c, ip, wait, second);
    RememberedBurst(c, ip, wait, second);
  }

  /** No sequence of timed requests and sweeps tells the forgetting limiter from the
      one that remembers, exactly when a bucket refills within the eviction time. */
  lemma EvictionIsUnobservable(c: Config)
    requires Valid(c)
    ensures (forall ops :: Ordered(ops, 0.0) ==> Answers(c, map[], ops, true) == Answers(c, map[], ops, false))
            <==> c.burst as real <= STALE_AFTER * c.rate
  {
    if c.burst as real <= STALE_AFTER * c.rate {
      forall ops | Ordered(ops, 0.0) ensures Answers(c, map[], ops, true) == Answers(c, map[], ops, false) {
        SameAnswers(c, map[], map[], ops, 0.0);
      }
    } else {
      var ops := ForgettingShows(c, "");
    }
  }

  // The four limiters of the API: one token every so many seconds, and the burst
  const REGISTER := Config(1.0 / 300.0, 5)
  const LOGIN := Config(1.0 / 20.0, 3)
  const ROOM := Config(1.0 / 5.0, 30)
  const CHAT := Config(1.0 / 5.0, 30)

  lemma ConfiguredLimitersForgetSafely(c: Config, ops: seq<Op>)
    requires c in {REGISTER, LOGIN, ROOM, CHAT} && Ordered(ops, 0.0)
    ensures Answers(c, map[], ops, true) == Answers(c, map[], ops, false)
  {
    EvictionIsUnobservable(c);
  }

  // ---------- The limiter itself ----------

  /** The library's token bucket. */
  class TokenBucket {
    const config: Config
    var tokens: real
    var last: real

    constructor (config: Config, now: real)
      ensures this.config == config && State() == Fresh(config, now)
    {
      this.config := config;
      tokens, last := config.burst as real, now;
    }

    ghost function State(): Bucket
      reads this
    {
      Bucket(tokens, last)
    }

    method Allow(now: real) returns (allowed: bool)
      modifies this
      ensures (State(), allowed) == Take(config, old(State()), now)
      ensures !allowed ==> State() == old(State())
      ensures allowed ==> Level(config, State(), now) == Level(config, old(State()), now) - 1.0
    {
      TakeOne(config, State(), now);
      var level := tokens + (now - last) * config.rate;
      if level > config.burst as real {
        level := config.burst as real;
      }
      assert level == Level(config, old(State()), now);
      allowed := level >= 1.0;
      if allowed {
        tokens, last := level - 1.0, now;
      }
    }
  }

  class Client {
    const limiter: TokenBucket
    var lastSeen: real

    constructor (limiter: TokenBucket, lastSeen: real)
      ensures this.limiter == limiter && this.lastSeen == lastSeen
    {
      this.limiter, this.lastSeen := limiter, lastSeen;
    }

    ghost function State(): Entry
      reads this, limiter
    {
      Entry(limiter.State(), lastSeen)
    }
  }

  class Limiter {
    const config: Config
    var byIP: map<Address, Client>

    ghost function Clients(): set<Client>
      reads this
    {
      set ip | ip in byIP :: byIP[ip]
    }

    ghost function Buckets(): set<TokenBucket>
      reads this
    {
      set ip | ip in byIP :: byIP[ip].limiter
    }

    /** No two addresses share a client or a bucket. */
    ghost predicate Valid()
      reads this
    {
      && (forall ip :: ip in byIP ==> byIP[ip].limiter.config == config)
      && (forall ip, ip' :: ip in byIP && ip' in byIP && ip != ip' ==>
        byIP[ip] != byIP[ip'] && byIP[ip].limiter != byIP[ip'].limiter)
    }

    ghost function State(): Table
      reads this, Clients(), Buckets()
    {
      map ip | ip in byIP :: byIP[ip].State()
    }

    constructor (config: Config)
      ensures Valid() && this.config == config && State() == map[]
    {
      this.config := config;
      byIP := map[];
    }

    method Create(ip: Address, now: real) returns (c: Client)
      requires Valid() && ip !in byIP
      modifies this
      ensures Valid() && fresh(c) && fresh(c.limiter) && byIP == old(byIP)[ip := c]
      ensures State() == Touch(config, old(State()), ip, now)
    {
      var b := new TokenBucket(config, now);
      c := new Client(b, now);
      byIP := byIP[ip := c];
      assert forall k :: k in old(byIP) ==> byIP[k].State() == old(byIP[k].State());
    }

    method See(ip: Address, now: real) returns (b: TokenBucket)
      requires Valid() && ip in byIP
      modifies byIP[ip]
      ensures Valid() && b == byIP[ip].limiter
      ensures State() == Touch(config, old(State()), ip, now)
    {
      var c := byIP[ip];
      c.lastSeen := now;
      b := c.limiter;
      assert forall k :: k in byIP && k != ip ==> byIP[k].State() == old(byIP[k].State());
    }

    method GetOrCreate(ip: Address, now: real) returns (b: TokenBucket)
      requires Valid()
      modifies this, Clients()
      ensures Valid() && fresh(Clients() - old(Clients())) && fresh(Buckets() - old(Buckets()))
      ensures ip in byIP && b == byIP[ip].limiter
      ensures State() == Touch(config, old(State()), ip, now)
      ensures State()[ip].lastSeen == now
      ensures State()[ip].bucket ==
        if ip in old(byIP) then old(State())[ip].bucket else Bucket(config.burst as real, now)
    {
      if ip !in byIP {
        var c := Create(ip, now);
        b := c.limiter;
      } else {
        b := See(ip, now);
      }
    }

    method Sweep(now: real)
      requires Valid()
      modifies this
      ensures Valid() && Clients() <= old(Clients()) && Buckets() <= old(Buckets())
      ensures State() == Swept(old(State()), now)
      ensures forall ip :: ip in byIP <==> ip in old(byIP) && now - old(byIP[ip].lastSeen) <= 3600.0
    {
      var left := byIP.Keys;
      while left != {}
        invariant left <= old(byIP).Keys
        invariant forall ip :: ip in byIP <==> ip in old(byIP) && (ip in left || !Stale(old(byIP[ip].State()), now))
        invariant forall ip :: ip in byIP ==> byIP[ip] == old(byIP)[ip]
        decreases |left|
      {
        var ip :| ip in left;
        if now - byIP[ip].lastSeen > STALE_AFTER {
          byIP := byIP - {ip};
        }
        left := left - {ip};
      }
    }

    /** Asks the bucket of a known address. */
    method AllowKnown(ip: Address, now: real) returns (allowed: bool)
      requires Valid() && ip in byIP
      modifies byIP[ip].limiter
      ensures Valid()
      ensures allowed == Take(config, old(State()[ip].bucket), now).1
      ensures State() == old(State())[ip := Entry(Take(config, old(State()[ip].bucket), now).0,
        old(State()[ip].lastSeen))]
    {
      allowed := byIP[ip].limiter.Allow(now);
      assert forall k :: k in byIP && k != ip ==> byIP[k].State() == old(byIP[k].State());
    }

    method Check(ip: Address, now: real) returns (allowed: bool)
      requires Valid()
      modifies this, Clients(), Buckets()
      ensures Valid() && fresh(Clients() - old(Clients())) && fresh(Buckets() - old(Buckets()))
      ensures (State(), allowed) == Request(config, old(State()), ip, now)
      ensures !allowed && ip in old(byIP) ==> State()[ip].bucket == old(State())[ip].bucket
    {
      var b := GetOrCreate(ip, now);
      assert b in Buckets();
      allowed := AllowKnown(ip, now);
    }
  }
}
