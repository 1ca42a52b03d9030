/** What the rate limiter answers, by the times of an address's requests alone. */
module Allowance {
  import opened RateLimit

  /** When an address asked. */
  function Times(ops: seq<Op>, ip: Address): seq<real> {
    if ops == [] then []
    else (if ops[0].Ask? && ops[0].ip == ip then [ops[0].at] else []) + Times(ops[1..], ip)
  }

  /** The answers that it got, out of those to everybody. */
  function AnswersTo(ops: seq<Op>, answers: seq<bool>, ip: Address): seq<bool>
    decreases ops
  {
    if ops == [] || answers == [] then []
    else if ops[0].Tick? then AnswersTo(ops[1..], answers, ip)
    else (if ops[0].ip == ip then [answers[0]] else []) + AnswersTo(ops[1..], answers[1..], ip)
  }

  /** How many were allowed. */
  function Allowed(answers: seq<bool>): nat {
    if answers == [] then 0
    else Allowed(answers[..|answers| - 1]) + if answers[|answers| - 1] then 1 else 0
  }

  /** From request j on, request i included, no more were let through than a full bucket
      and what flowed in since. */
  predicate Affordable(c: Config, ts: seq<real>, answers: seq<bool>, j: nat, i: nat)
    requires j <= i < |ts| && i <= |answers|
  {
    Allowed(answers[j..i]) as real + 1.0 <= c.burst as real + (ts[i] - ts[j]) * c.rate
  }

  // ---------- One bucket ----------

  function BucketAnswers(c: Config, b: Bucket, ts: seq<real>): (answers: seq<bool>)
    ensures |answers| == |ts|
    decreases ts
  {
    if ts == [] then []
    else
      var (b', allowed) := Take(c, b, ts[0]);
      [allowed] + BucketAnswers(c, b', ts[1..])
  }

  function BucketAfter(c: Config, b: Bucket, ts: seq<real>): Bucket
    decreases ts
  {
    if ts == [] then b else BucketAfter(c, Take(c, b, ts[0]).0, ts[1..])
  }

  lemma {:induction false} NextAnswer(c: Config, b: Bucket, ts: seq<real>, i: nat)
    requires i < |ts|
    ensures BucketAnswers(c, b, ts)[i] == Take(c, BucketAfter(c, b, ts[..i]), ts[i]).1
    ensures BucketAfter(c, b, ts[..i + 1]) == Take(c, BucketAfter(c, b, ts[..i]), ts[i]).0
    decreases ts
  {
    assert ts[..i + 1][1..] == ts[1..][..i];
    if i > 0 {
      assert ts[..i][1..] == ts[1..][..i - 1];
      NextAnswer(c, Take(c, b, ts[0]).0, ts[1..], i - 1);
    }
  }

  /** A request takes one token if it is allowed, and otherwise nothing. */
  lemma TakeCosts(c: Config, b: Bucket, now: real)
    requires Valid(c) && Sane(c, b, now)
    ensures var (b', allowed) := Take(c, b, now);
      && (allowed <==> Level(c, b, now) >= 1.0) && Sane(c, b', now)
      && Level(c, b', now) == Level(c, b, now) - if allowed then 1.0 else 0.0
  {
    LevelLater(c, b, now, now);
    TakeOne(c, b, now);
  }

  /** What is left of a full bucket and the inflow after some requests. */
  function Spare(c: Config, from: real, to: real, used: nat): real {
    c.burst as real + (to - from) * c.rate - used as real
  }

  lemma SpareLater(c: Config, from: real, now: real, later: real, used: nat)
    ensures Spare(c, from, later, used) == Spare(c, from, now, used) + (later - now) * c.rate
  {
    assert (later - from) * c.rate == (now - from) * c.rate + (later - now) * c.rate;
  }

  predicate Rising(ts: seq<real>) { forall i, j :: 0 <= i <= j < |ts| ==> ts[i] <= ts[j] }

  /** The level is the least of what is left since any earlier request. */
  ghost predicate LeastSpare(c: Config, ts: seq<real>, answers: seq<bool>, i: nat, level: real)
    requires i < |ts| && i <= |answers|
  {
    && (forall j :: 0 <= j <= i ==> level <= Spare(c, ts[j], ts[i], Allowed(answers[j..i])))
    && (exists j :: 0 <= j <= i && level == Spare(c, ts[j], ts[i], Allowed(answers[j..i])))
  }

  lemma OneMoreAnswer(answers: seq<bool>, j: nat, i: nat)
    requires j <= i < |answers|
    ensures Allowed(answers[j..i + 1]) == Allowed(answers[j..i]) + if answers[i] then 1 else 0
  {
    assert answers[j..i + 1][..i - j] == answers[j..i];
  }

  lemma SpareNow(c: Config, t: real)
    ensures Spare(c, t, t, 0) == c.burst as real
  {
    assert (t - t) * c.rate == 0.0;
  }

  lemma SpareStep(c: Config, ts: seq<real>, answers: seq<bool>, i: nat, j: nat)
    requires 0 <= j < i < |ts| && i <= |answers|
    ensures Spare(c, ts[j], ts[i], Allowed(answers[j..i])) ==
      Spare(c, ts[j], ts[i - 1], Allowed(answers[j..i - 1])) - (if answers[i - 1] then 1.0 else 0.0)
        + (ts[i] - ts[i - 1]) * c.rate
  {
    OneMoreAnswer(answers, j, i - 1);
    SpareLater(c, ts[j], ts[i - 1], ts[i], Allowed(answers[j..i]));
  }

  /** From one request to the next: what was taken is gone, what flowed in is there, up to
      the size of the bucket. */
  lemma LeastSpareStep(c: Config, ts: seq<real>, answers: seq<bool>, i: nat, before: real, level: real)
    requires 0 < i < |ts| && i <= |answers| && LeastSpare(c, ts, answers, i - 1, before)
    requires level == Min(c.burst as real,
      before - (if answers[i - 1] then 1.0 else 0.0) + (ts[i] - ts[i - 1]) * c.rate)
    ensures LeastSpare(c, ts, answers, i, level)
  {
    SpareNow(c, ts[i]);
    assert answers[i..i] == [];
    forall j | 0 <= j <= i ensures level <= Spare(c, ts[j], ts[i], Allowed(answers[j..i])) {
      if j < i {
        SpareStep(c, ts, answers, i, j);
      }
    }
    if level == c.burst as real {
      assert level == Spare(c, ts[i], ts[i], Allowed(answers[i..i]));
    } else {
      var j :| 0 <= j <= i - 1 && before == Spare(c, ts[j], ts[i - 1], Allowed(answers[j..i - 1]));
      SpareStep(c, ts, answers, i, j);
      assert level == Spare(c, ts[j], ts[i], Allowed(answers[j..i]));
    }
  }

  /** The level from one request to the next. */
  lemma NextLevel(c: Config, b: Bucket, now: real, later: real)
    requires Valid(c) && Sane(c, b, now) && now <= later
    ensures var (b', allowed) := Take(c, b, now);
      && Sane(c, b', later)
      && Level(c, b', later) ==
         Min(c.burst as real, Level(c, b, now) - (if allowed then 1.0 else 0.0) + (later - now) * c.rate)
  {
    TakeCosts(c, b, now);
    LevelLater(c, Take(c, b, now).0, now, later);
  }

  lemma FirstLevel(c: Config, ts: seq<real>, answers: seq<bool>)
    requires ts != []
    ensures Sane(c, Fresh(c, ts[0]), ts[0])
    ensures LeastSpare(c, ts, answers, 0, Level(c, Fresh(c, ts[0]), ts[0]))
  {
    FreshIsFull(c, ts[0]);
    SpareNow(c, ts[0]);
    assert answers[0..0] == [];
    assert Level(c, Fresh(c, ts[0]), ts[0]) == Spare(c, ts[0], ts[0], Allowed(answers[0..0]));
  }

  /** The bucket that request i meets. */
  function MetBucket(c: Config, ts: seq<real>, i: nat): Bucket
    requires i < |ts|
  {
    BucketAfter(c, Fresh(c, ts[0]), ts[..i])
  }

  function FullAnswers(c: Config, ts: seq<real>): (answers: seq<bool>)
    requires ts != []
    ensures |answers| == |ts|
  {
    BucketAnswers(c, Fresh(c, ts[0]), ts)
  }

  lemma MetStep(c: Config, ts: seq<real>, i: nat)
    requires i < |ts|
    ensures FullAnswers(c, ts)[i] == Take(c, MetBucket(c, ts, i), ts[i]).1
    ensures i + 1 < |ts| ==> MetBucket(c, ts, i + 1) == Take(c, MetBucket(c, ts, i), ts[i]).0
  {
    NextAnswer(c, Fresh(c, ts[0]), ts, i);
  }

  /** The bucket's level at request i is that least. */
  ghost predicate Leveled(c: Config, b: Bucket, ts: seq<real>, answers: seq<bool>, i: nat)
    requires i < |ts| && i <= |answers|
  {
    Sane(c, b, ts[i]) && LeastSpare(c, ts, answers, i, Level(c, b, ts[i]))
  }

  lemma LeveledStep(c: Config, b: Bucket, b': Bucket, ts: seq<real>, answers: seq<bool>, i: nat)
    requires Valid(c) && 0 < i < |ts| && i <= |answers| && ts[i - 1] <= ts[i]
    requires Leveled(c, b, ts, answers, i - 1) && Take(c, b, ts[i - 1]) == (b', answers[i - 1])
    ensures Leveled(c, b', ts, answers, i)
  {
    NextLevel(c, b, ts[i - 1], ts[i]);
    LeastSpareStep(c, ts, answers, i, Level(c, b, ts[i - 1]), Level(c, b', ts[i]));
  }

  lemma {:induction false} LevelIsSpare(c: Config, ts: seq<real>, i: nat)
    requires Valid(c) && Rising(ts) && i < |ts|
    ensures Leveled(c, MetBucket(c, ts, i), ts, FullAnswers(c, ts), i)
  {
    if i == 0 {
      FirstLevel(c, ts, FullAnswers(c, ts));
    } else {
      LevelIsSpare(c, ts, i - 1);
      MetStep(c, ts, i - 1);
      LeveledStep(c, MetBucket(c, ts, i - 1), MetBucket(c, ts, i), ts, FullAnswers(c, ts), i);
    }
  }

  lemma LeastDecides(c: Config, ts: seq<real>, answers: seq<bool>, i: nat, level: real)
    requires i < |ts| && i <= |answers| && LeastSpare(c, ts, answers, i, level)
    ensures level >= 1.0 <==> forall j :: 0 <= j <= i ==> Affordable(c, ts, answers, j, i)
  {
    forall j | 0 <= j <= i
      ensures Affordable(c, ts, answers, j, i) <==> Spare(c, ts[j], ts[i], Allowed(answers[j..i])) >= 1.0
    {
    }
    var j :| 0 <= j <= i && level == Spare(c, ts[j], ts[i], Allowed(answers[j..i]));
    assert level < 1.0 ==> !Affordable(c, ts, answers, j, i);
  }

  lemma BucketIsAffordable(c: Config, ts: seq<real>, i: nat)
    requires Valid(c) && Rising(ts) && i < |ts|
    ensures FullAnswers(c, ts)[i] <==> forall j :: 0 <= j <= i ==> Affordable(c, ts, FullAnswers(c, ts), j, i)
  {
    LevelIsSpare(c, ts, i);
    MetStep(c, ts, i);
    TakeCosts(c, MetBucket(c, ts, i), ts[i]);
    LeastDecides(c, ts, FullAnswers(c, ts), i, Level(c, MetBucket(c, ts, i), ts[i]));
  }

  // ---------- One address of many ----------

  /** The bucket that an address asks first. */
  function FirstBucket(c: Config, t: Table, ip: Address, at: real): Bucket {
    if ip in t then t[ip].bucket else Fresh(c, at)
  }

  /** What an address would be answered if it were alone. */
  function Alone(c: Config, t: Table, ip: Address, ts: seq<real>): (answers: seq<bool>)
    ensures |answers| == |ts|
  {
    if ts == [] then [] else BucketAnswers(c, FirstBucket(c, t, ip, ts[0]), ts)
  }

  /** Its own request moves its bucket on. */
  lemma OwnRequest(c: Config, t: Table, ip: Address, at: real, ts: seq<real>)
    ensures var (t', allowed) := Request(c, t, ip, at); Alone(c, t, ip, [at] + ts) == [allowed] + Alone(c, t', ip, ts)
  {
    assert ([at] + ts)[1..] == ts;
  }

  /** Another's does not. */
  lemma OtherRequest(c: Config, t: Table, ip: Address, other: Address, at: real, ts: seq<real>)
    requires other != ip
    ensures Alone(c, Request(c, t, other, at).0, ip, ts) == Alone(c, t, ip, ts)
  {
  }

  lemma NextAsk(ops: seq<Op>, allowed: bool, rest: seq<bool>, ip: Address)
    requires ops != [] && ops[0].Ask?
    ensures AnswersTo(ops, [allowed] + rest, ip) ==
      (if ops[0].ip == ip then [allowed] else []) + AnswersTo(ops[1..], rest, ip)
  {
    assert ([allowed] + rest)[1..] == rest;
  }

  /** Addresses have buckets of their own. */
  lemma {:induction false} OneAddress(c: Config, t: Table, ops: seq<Op>, ip: Address)
    ensures AnswersTo(ops, Answers(c, t, ops, false), ip) == Alone(c, t, ip, Times(ops, ip))
    decreases ops
  {
    if ops != [] {
      var later := ops[1..];
      if ops[0].Tick? {
        OneAddress(c, t, later, ip);
        assert Times(ops, ip) == Times(later, ip);
      } else {
        var (t', allowed) := Request(c, t, ops[0].ip, ops[0].at);
        OneAddress(c, t', later, ip);
        NextAsk(ops, allowed, Answers(c, t', later, false), ip);
        if ops[0].ip == ip {
          OwnRequest(c, t, ip, ops[0].at, Times(later, ip));
        } else {
          OtherRequest(c, t, ip, ops[0].ip, ops[0].at, Times(later, ip));
          assert Times(ops, ip) == Times(later, ip);
        }
      }
    }
  }

  lemma {:induction false} TimesRise(ops: seq<Op>, ip: Address, from: real)
    requires Ordered(ops, from)
    ensures Rising(Times(ops, ip)) && forall i :: 0 <= i < |Times(ops, ip)| ==> from <= Times(ops, ip)[i]
    decreases ops
  {
    if ops != [] {
      TimesRise(ops[1..], ip, ops[0].at);
    }
  }

  /** Whatever other addresses ask, and whenever the limiter sweeps: a request is allowed
      exactly if, from every earlier request of its address on, the allowed ones and itself
      are no more than a full bucket and what flowed in since. What was refused costs nothing. */
  lemma AnsweredByRequests(c: Config, ops: seq<Op>, forgets: bool, ip: Address, i: nat)
    requires Valid(c) && Ordered(ops, 0.0) && (forgets ==> c.burst as real <= STALE_AFTER * c.rate)
    ensures var ts, answers := Times(ops, ip), AnswersTo(ops, Answers(c, map[], ops, forgets), ip);
      && |answers| == |ts|
      && (i < |ts| ==> (answers[i] <==> forall j :: 0 <= j <= i ==> Affordable(c, ts, answers, j, i)))
  {
    if forgets {
      SameAnswers(c, map[], map[], ops, 0.0);
    }
    OneAddress(c, map[], ops, ip);
    TimesRise(ops, ip, 0.0);
    if i < |Times(ops, ip)| {
      BucketIsAffordable(c, Times(ops, ip), i);
    }
  }

  /** The limits of the API, as calls and seconds. */
  predicate ConfiguredAs(c: Config, burst: nat, every: real) {
    || (c == REGISTER && burst == 5 && every == 300.0)
    || (c == LOGIN && burst == 3 && every == 20.0)
    || ((c == ROOM || c == CHAT) && burst == 30 && every == 5.0)
  }

  lemma Inflow(c: Config, burst: nat, every: real, elapsed: real)
    requires ConfiguredAs(c, burst, every)
    ensures c.burst == burst && elapsed * c.rate == elapsed / every
  {
  }

  /** The same, with what flows in as a number of seconds for each request. */
  predicate AffordableEvery(burst: nat, every: real, ts: seq<real>, answers: seq<bool>, j: nat, i: nat)
    requires j <= i < |ts| && i <= |answers| && every > 0.0
  {
    Allowed(answers[j..i]) as real + 1.0 <= burst as real + (ts[i] - ts[j]) / every
  }

  lemma AffordableAs(c: Config, burst: nat, every: real, ts: seq<real>, answers: seq<bool>, j: nat, i: nat)
    requires ConfiguredAs(c, burst, every) && j <= i < |ts| && i <= |answers|
    ensures Affordable(c, ts, answers, j, i) <==> AffordableEvery(burst, every, ts, answers, j, i)
  {
    Inflow(c, burst, every, ts[i] - ts[j]);
  }

  lemma SameLimits(c: Config, burst: nat, every: real, ts: seq<real>, answers: seq<bool>, i: nat)
    requires ConfiguredAs(c, burst, every) && i < |ts| && i <= |answers|
    ensures (forall j :: 0 <= j <= i ==> Affordable(c, ts, answers, j, i)) <==>
      (forall j :: 0 <= j <= i ==> AffordableEvery(burst, every, ts, answers, j, i))
  {
    forall j | 0 <= j <= i
      ensures Affordable(c, ts, answers, j, i) <==> AffordableEvery(burst, every, ts, answers, j, i)
    {
      AffordableAs(c, burst, every, ts, answers, j, i);
    }
  }

  /** Each of the four limiters: a burst, and one more for so many seconds. */
  lemma ConfiguredAnswers(c: Config, burst: nat, every: real, ops: seq<Op>, ip: Address, i: nat)
    requires ConfiguredAs(c, burst, every) && Ordered(ops, 0.0)
    ensures var ts, answers := Times(ops, ip), AnswersTo(ops, Answers(c, map[], ops, true), ip);
      && |answers| == |ts|
      && (i < |ts| ==> (answers[i] <==> forall j :: 0 <= j <= i ==> AffordableEvery(burst, every, ts, answers, j, i)))
  {
    var ts, answers := Times(ops, ip), AnswersTo(ops, Answers(c, map[], ops, true), ip);
    AnsweredByRequests(c, ops, true, ip, i);
    if i < |ts| {
      SameLimits(c, burst, every, ts, answers, i);
    }
  }
}
