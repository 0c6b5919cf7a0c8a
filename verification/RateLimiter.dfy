/** Per-client token buckets: refill on every request, spend or deny, and a
    clean-up that forgets idle clients. Time and tokens are reals; the clock is
    passed in with every call. */
module RateLimiter {

  datatype Config = Config(rate: real, burst: int)
  datatype Bucket = Bucket(tokens: real, lastUpdate: real)

  datatype Answer =
    | Granted(tokensRemaining: int, resetAfter: real)
    | Denied(retryAfter: real, tokensRemaining: int)
    | DividedByZero

  datatype Status = Status(tokens: int, active: bool)

  type Buckets = map<string, Bucket>

  function Min(x: real, y: real): real {
    if x <= y then x else y
  }

  /** `int(x)`: towards zero. */
  function Trunc(x: real): int {
    if x >= 0.0 then x.Floor else -((-x).Floor)
  }

  function Full(cfg: Config, now: real): Bucket {
    Bucket(cfg.burst as real, now)
  }

  function Stored(cfg: Config, buckets: Buckets, client: string, now: real): Bucket {
    if client in buckets then buckets[client] else Full(cfg, now)
  }

  /** The tokens a bucket holds once the time since its last update is credited. */
  function Level(cfg: Config, b: Bucket, now: real): real {
    Min(b.tokens + (now - b.lastUpdate) * cfg.rate, cfg.burst as real)
  }

  function Decide(cfg: Config, level: real, cost: int): Answer {
    if cfg.rate == 0.0 then DividedByZero
    else if level >= cost as real then
      Granted(Trunc(level - cost as real), (cfg.burst as real - (level - cost as real)) / cfg.rate)
    else Denied((cost as real - level) / cfg.rate, Trunc(level))
  }

  predicate Affords(cfg: Config, buckets: Buckets, client: string, cost: int, now: real) {
    cfg.rate != 0.0 && Level(cfg, Stored(cfg, buckets, client, now), now) >= cost as real
  }

  /** What the bound below counts as granted is what the limiter answers. */
  lemma GrantedIffAffords(cfg: Config, buckets: Buckets, client: string, cost: int, now: real)
    ensures AnswerTo(cfg, buckets, client, cost, now).Granted? <==> Affords(cfg, buckets, client, cost, now)
  {
  }

  function AfterRequest(cfg: Config, buckets: Buckets, client: string, cost: int, now: real): Buckets {
    var level := Level(cfg, Stored(cfg, buckets, client, now), now);
    buckets[client := Bucket(if level >= cost as real then level - cost as real else level, now)]
  }

  function AnswerTo(cfg: Config, buckets: Buckets, client: string, cost: int, now: real): Answer {
    Decide(cfg, Level(cfg, Stored(cfg, buckets, client, now), now), cost)
  }

  function Swept(buckets: Buckets, maxAge: real, now: real): Buckets {
    map k | k in buckets && now - buckets[k].lastUpdate <= maxAge :: buckets[k]
  }

  class TokenBucketRateLimiter {
    const config: Config
    var buckets: Buckets

    constructor (config: Config)
      ensures this.config == config && buckets == map[]
    {
      this.config := config;
      buckets := map[];
    }

    method IsAllowed(client: string, cost: int, now: real) returns (answer: Answer)
      modifies this
      ensures buckets == AfterRequest(config, old(buckets), client, cost, now)
      ensures answer == AnswerTo(config, old(buckets), client, cost, now)
    {
      if client !in buckets {
        buckets := buckets[client := Full(config, now)];
      }
      var bucket := buckets[client];
      var elapsed := now - bucket.lastUpdate;
      var toAdd := elapsed * config.rate;
      bucket := Bucket(Min(bucket.tokens + toAdd, config.burst as real), now);
      ghost var level := Level(config, Stored(config, old(buckets), client, now), now);
      assert bucket.tokens == level;
      if bucket.tokens >= cost as real {
        bucket := bucket.(tokens := bucket.tokens - cost as real);
        buckets := buckets[client := bucket];
        assert bucket == Bucket(level - cost as real, now) && buckets == old(buckets)[client := bucket];
        if config.rate == 0.0 {
          return DividedByZero;
        }
        return Granted(Trunc(bucket.tokens), (config.burst as real - bucket.tokens) / config.rate);
      }
      buckets := buckets[client := bucket];
      assert buckets == old(buckets)[client := bucket];
      if config.rate == 0.0 {
        return DividedByZero;
      }
      return Denied((cost as real - bucket.tokens) / config.rate, Trunc(bucket.tokens));
    }

    method CleanupOldBuckets(maxAge: real, now: real) returns (removed: nat)
      modifies this
      ensures buckets == Swept(old(buckets), maxAge, now)
      ensures removed == |old(buckets)| - |buckets|
    {
      var toRemove := set k | k in buckets && now - buckets[k].lastUpdate > maxAge;
      removed := |toRemove|;
      ghost var doomed := toRemove;
      while toRemove != {}
        invariant toRemove <= doomed
        invariant buckets == map k | k in old(buckets) && k !in doomed - toRemove :: old(buckets)[k]
        decreases toRemove
      {
        var client :| client in toRemove;
        buckets := map k | k in buckets && k != client :: buckets[k];
        toRemove := toRemove - {client};
      }
      assert buckets.Keys == old(buckets).Keys - doomed;
    }

    method GetStatus(client: string, now: real) returns (status: Status)
      ensures status == StatusOf(config, buckets, client, now)
    {
      if client !in buckets {
        return Status(config.burst, false);
      }
      var elapsed := now - buckets[client].lastUpdate;
      var tokens := Min(buckets[client].tokens + elapsed * config.rate, config.burst as real);
      return Status(Trunc(tokens), true);
    }
  }

  function StatusOf(cfg: Config, buckets: Buckets, client: string, now: real): Status {
    if client in buckets then Status(Trunc(Level(cfg, buckets[client], now)), true) else Status(cfg.burst, false)
  }

  // ----- traces -----

  datatype Event = Request(client: string, cost: int, now: real) | Cleanup(maxAge: real, now: real)

  function After(cfg: Config, buckets: Buckets, e: Event): Buckets {
    match e
    case Request(client, cost, now) => AfterRequest(cfg, buckets, client, cost, now)
    case Cleanup(maxAge, now) => Swept(buckets, maxAge, now)
  }

  /** The answers given to the requests of a trace, in order. */
  function Answers(cfg: Config, buckets: Buckets, trace: seq<Event>): seq<Answer>
    decreases trace
  {
    if trace == [] then []
    else
      var rest := Answers(cfg, After(cfg, buckets, trace[0]), trace[1..]);
      match trace[0]
      case Request(client, cost, now) => [AnswerTo(cfg, buckets, client, cost, now)] + rest
      case Cleanup(_, _) => rest
  }

  /** The cost an event is granted on behalf of `client`. */
  function CostGranted(cfg: Config, buckets: Buckets, e: Event, client: string): real {
    if e.Request? && e.client == client && Affords(cfg, buckets, client, e.cost, e.now) then e.cost as real else 0.0
  }

  /** The total cost granted to `client` by requests made in [from, to]. */
  function GrantedCost(cfg: Config, buckets: Buckets, trace: seq<Event>, client: string, from: real, to: real): real
    decreases trace
  {
    if trace == [] then 0.0
    else
      var e := trace[0];
      (if from <= e.now <= to then CostGranted(cfg, buckets, e, client) else 0.0)
      + GrantedCost(cfg, After(cfg, buckets, e), trace[1..], client, from, to)
  }

  /** The clock never runs backwards, starting at `start`. */
  ghost predicate Clocked(trace: seq<Event>, start: real) {
    trace != [] ==> start <= trace[0].now && Clocked(trace[1..], trace[0].now)
  }

  ghost predicate SaneBucket(b: Bucket, now: real) {
    b.tokens >= 0.0 && b.lastUpdate <= now
  }

  ghost predicate Sane(buckets: Buckets, now: real) {
    forall k :: k in buckets ==> SaneBucket(buckets[k], now)
  }

  /** Cleaning up after `maxAge` loses nothing: by then any bucket is full. */
  predicate PatientEnough(cfg: Config, maxAge: real) {
    maxAge * cfg.rate >= cfg.burst as real
  }

  ghost predicate PatientTrace(cfg: Config, trace: seq<Event>) {
    forall e :: e in trace && e.Cleanup? ==> PatientEnough(cfg, e.maxAge)
  }

  lemma Earned(rate: real, x: real, y: real)
    requires rate >= 0.0 && x <= y
    ensures 0.0 <= (y - x) * rate
    ensures x * rate + (y - x) * rate == y * rate
  {
  }

  lemma LevelNonNegative(cfg: Config, b: Bucket, now: real)
    requires cfg.rate >= 0.0 && cfg.burst >= 0 && SaneBucket(b, now)
    ensures 0.0 <= Level(cfg, b, now) <= cfg.burst as real
  {
    Earned(cfg.rate, b.lastUpdate, now);
    assert 0.0 <= (now - b.lastUpdate) * cfg.rate;
    assert 0.0 <= b.tokens + (now - b.lastUpdate) * cfg.rate;
    assert 0.0 <= cfg.burst as real;
  }

  lemma StaysSane(cfg: Config, buckets: Buckets, e: Event, start: real)
    requires cfg.rate >= 0.0 && cfg.burst >= 0
    requires start <= e.now && Sane(buckets, start)
    ensures Sane(After(cfg, buckets, e), e.now)
  {
    if e.Request? {
      LevelNonNegative(cfg, Stored(cfg, buckets, e.client, e.now), e.now);
    }
  }

  /** Waiting credits at most `rate` tokens a second. */
  lemma LevelGrows(cfg: Config, b: Bucket, s: real, t: real)
    requires cfg.rate >= 0.0 && s <= t
    ensures Level(cfg, b, s) <= Level(cfg, b, t) <= Level(cfg, b, s) + (t - s) * cfg.rate
  {
    Earned(cfg.rate, s - b.lastUpdate, t - b.lastUpdate);
    assert (t - b.lastUpdate) - (s - b.lastUpdate) == t - s;
  }

  /** A bucket idle for longer than a patient age is full. */
  lemma IdleIsFull(cfg: Config, b: Bucket, maxAge: real, now: real)
    requires cfg.rate >= 0.0 && b.tokens >= 0.0 && PatientEnough(cfg, maxAge) && now - b.lastUpdate > maxAge
    ensures Level(cfg, b, now) == cfg.burst as real
  {
    Earned(cfg.rate, maxAge, now - b.lastUpdate);
    assert (now - b.lastUpdate) * cfg.rate >= maxAge * cfg.rate;
    assert b.tokens + (now - b.lastUpdate) * cfg.rate >= cfg.burst as real;
  }

  /** The tokens a client could spend at `now`. */
  function Spendable(cfg: Config, buckets: Buckets, client: string, now: real): real {
    Level(cfg, Stored(cfg, buckets, client, now), now)
  }

  lemma SpendableGrows(cfg: Config, buckets: Buckets, client: string, s: real, t: real)
    requires cfg.rate >= 0.0 && cfg.burst >= 0 && s <= t
    ensures Spendable(cfg, buckets, client, t) <= Spendable(cfg, buckets, client, s) + (t - s) * cfg.rate
  {
    if client in buckets {
      LevelGrows(cfg, buckets[client], s, t);
    } else {
      Earned(cfg.rate, s, t);
    }
  }

  /** A request pays for what it is granted; a patient clean-up gives nothing away. */
  lemma SpendableStep(cfg: Config, buckets: Buckets, e: Event, client: string)
    requires cfg.rate > 0.0 && cfg.burst >= 0 && Sane(buckets, e.now)
    requires e.Cleanup? ==> PatientEnough(cfg, e.maxAge)
    ensures Spendable(cfg, After(cfg, buckets, e), client, e.now) + CostGranted(cfg, buckets, e, client)
         <= Spendable(cfg, buckets, client, e.now)
  {
    match e {
      case Request(c, cost, now) =>
        assert (now - now) * cfg.rate == 0.0;
      case Cleanup(maxAge, now) =>
        if client in buckets {
          assert SaneBucket(buckets[client], now);
          if now - buckets[client].lastUpdate > maxAge {
            IdleIsFull(cfg, buckets[client], maxAge, now);
          }
        }
    }
  }

  // A potential argument: `pot` bounds what a client could spend, `clock` the
  // tokens earned up to a time.

  ghost predicate PotWithinBurst(cfg: Config, pot: (Buckets, real) -> real) {
    forall b, t :: Sane(b, t) ==> 0.0 <= pot(b, t) <= cfg.burst as real
  }

  ghost predicate PotGrowsWithClock(pot: (Buckets, real) -> real, clock: real -> real) {
    forall b, s, t :: s <= t ==> pot(b, t) <= pot(b, s) + clock(t) - clock(s)
  }

  ghost predicate ClockMonotone(clock: real -> real) {
    forall s, t :: s <= t ==> clock(s) <= clock(t)
  }

  ghost predicate PotPays(cfg: Config, client: string, pot: (Buckets, real) -> real) {
    forall b, e: Event :: Sane(b, e.now) && (e.Cleanup? ==> PatientEnough(cfg, e.maxAge)) ==>
      pot(After(cfg, b, e), e.now) + CostGranted(cfg, b, e, client) <= pot(b, e.now)
  }

  ghost predicate Bounds(cfg: Config, client: string, pot: (Buckets, real) -> real, clock: real -> real) {
    PotWithinBurst(cfg, pot) && PotGrowsWithClock(pot, clock) && ClockMonotone(clock) && PotPays(cfg, client, pot)
  }

  lemma SpendableWithinBurst(cfg: Config, client: string, pot: (Buckets, real) -> real)
    requires cfg.rate > 0.0 && cfg.burst >= 0 && pot == ((b, t) => Spendable(cfg, b, client, t))
    ensures PotWithinBurst(cfg, pot)
  {
    forall b, t | Sane(b, t) ensures 0.0 <= pot(b, t) <= cfg.burst as real {
      LevelNonNegative(cfg, Stored(cfg, b, client, t), t);
    }
  }

  lemma SpendableGrowsWithClock(cfg: Config, client: string, pot: (Buckets, real) -> real, clock: real -> real)
    requires cfg.rate > 0.0 && cfg.burst >= 0
    requires pot == ((b, t) => Spendable(cfg, b, client, t)) && clock == (t => t * cfg.rate)
    ensures PotGrowsWithClock(pot, clock) && ClockMonotone(clock)
  {
    forall b, s, t | s <= t ensures pot(b, t) <= pot(b, s) + clock(t) - clock(s) {
      SpendableGrows(cfg, b, client, s, t);
      Earned(cfg.rate, s, t);
    }
    forall s, t | s <= t ensures clock(s) <= clock(t) {
      Earned(cfg.rate, s, t);
    }
  }

  lemma SpendablePays(cfg: Config, client: string, pot: (Buckets, real) -> real)
    requires cfg.rate > 0.0 && cfg.burst >= 0 && pot == ((b, t) => Spendable(cfg, b, client, t))
    ensures PotPays(cfg, client, pot)
  {
    forall b, e: Event | Sane(b, e.now) && (e.Cleanup? ==> PatientEnough(cfg, e.maxAge))
      ensures pot(After(cfg, b, e), e.now) + CostGranted(cfg, b, e, client) <= pot(b, e.now)
    {
      SpendableStep(cfg, b, e, client);
    }
  }

  lemma {:induction false} GrantedWithinPotential(
    cfg: Config, buckets: Buckets, trace: seq<Event>, client: string, at: real, from: real, to: real,
    pot: (Buckets, real) -> real, clock: real -> real)
    requires cfg.rate > 0.0 && cfg.burst >= 0 && from <= to && Bounds(cfg, client, pot, clock)
    requires Sane(buckets, at) && Clocked(trace, at) && PatientTrace(cfg, trace)
    ensures GrantedCost(cfg, buckets, trace, client, from, to)
         <= if at > to then 0.0
            else if at < from then cfg.burst as real + clock(to) - clock(from)
            else pot(buckets, at) + clock(to) - clock(at)
    decreases trace
  {
    if trace != [] {
      var e := trace[0];
      var next := After(cfg, buckets, e);
      StaysSane(cfg, buckets, e, at);
      GrantedWithinPotential(cfg, next, trace[1..], client, e.now, from, to, pot, clock);
      assert Sane(buckets, e.now);
      assert pot(next, e.now) + CostGranted(cfg, buckets, e, client) <= pot(buckets, e.now);
    }
  }

  lemma GrantedInWindow(cfg: Config, trace: seq<Event>, client: string, start: real, from: real, to: real,
                        pot: (Buckets, real) -> real, clock: real -> real)
    requires cfg.rate > 0.0 && cfg.burst >= 0 && from <= to && Bounds(cfg, client, pot, clock)
    requires Clocked(trace, start) && PatientTrace(cfg, trace)
    ensures GrantedCost(cfg, map[], trace, client, from, to) <= cfg.burst as real + (clock(to) - clock(from))
  {
    GrantedWithinPotential(cfg, map[], trace, client, start, from, to, pot, clock);
    assert Sane(map[], start);
    assert clock(from) <= clock(to);
    assert cfg.burst as real >= 0.0;
    if start >= from {
      assert clock(from) <= clock(start);
    }
  }

  /** Over any window of any trace, patient clean-ups included, a client is granted
      at most the burst plus what the rate earns during the window. */
  lemma BurstPlusRate(cfg: Config, trace: seq<Event>, client: string, start: real, from: real, to: real)
    requires cfg.rate > 0.0 && cfg.burst >= 0 && from <= to
    requires Clocked(trace, start) && PatientTrace(cfg, trace)
    ensures GrantedCost(cfg, map[], trace, client, from, to) <= cfg.burst as real + (to - from) * cfg.rate
  {
    var pot := (b, t) => Spendable(cfg, b, client, t);
    var clock := (t: real) => t * cfg.rate;
    SpendableWithinBurst(cfg, client, pot);
    SpendableGrowsWithClock(cfg, client, pot, clock);
    SpendablePays(cfg, client, pot);
    GrantedInWindow(cfg, trace, client, start, from, to, pot, clock);
    assert clock(to) - clock(from) == (to - from) * cfg.rate;
  }

  lemma WaitLongEnough(rate: real, short: real, wait: real)
    requires rate > 0.0
    ensures wait * rate >= short <==> wait >= short / rate
  {
    var w := short / rate;
    assert w * rate == short;
    if wait >= w {
      Earned(rate, w, wait);
    } else {
      assert wait * rate < w * rate;
    }
  }

  lemma LevelAfterWait(cfg: Config, b: Bucket, wait: real)
    ensures Level(cfg, b, b.lastUpdate + wait) == Min(b.tokens + wait * cfg.rate, cfg.burst as real)
  {
    assert b.lastUpdate + wait - b.lastUpdate == wait;
  }

  /** `retry_after` is exact: the same request, retried alone `wait` seconds
      after a denial, is granted precisely when it could ever be granted and
      `retry_after` has passed. */
  lemma RetryAfterExact(cfg: Config, buckets: Buckets, client: string, cost: int, now: real, wait: real)
    requires cfg.rate > 0.0 && cfg.burst >= 0 && wait >= 0.0
    requires AnswerTo(cfg, buckets, client, cost, now).Denied?
    ensures var denied := AnswerTo(cfg, buckets, client, cost, now);
            var later := AnswerTo(cfg, AfterRequest(cfg, buckets, client, cost, now), client, cost, now + wait);
            later.Granted? <==> cost <= cfg.burst && wait >= denied.retryAfter
  {
    var level := Spendable(cfg, buckets, client, now);
    WaitLongEnough(cfg.rate, cost as real - level, wait);
    var left := Bucket(level, now);
    assert AfterRequest(cfg, buckets, client, cost, now)[client] == left;
    LevelAfterWait(cfg, left, wait);
  }

  /** A client not seen before has the whole burst, and what it is told it has left is
      what the burst leaves it. */
  lemma FirstRequest(cfg: Config, buckets: Buckets, client: string, cost: int, now: real)
    requires cfg.rate > 0.0 && client !in buckets
    ensures var answer := AnswerTo(cfg, buckets, client, cost, now);
            && (answer.Granted? <==> cost <= cfg.burst)
            && (answer.Granted? ==> answer.tokensRemaining == cfg.burst - cost)
            && (answer.Denied? && cfg.burst >= 0 ==> answer.tokensRemaining == cfg.burst)
  {
    FirstLevel(cfg, buckets, client, now);
    TruncInt(cfg.burst);
    TruncInt(cfg.burst - cost);
    assert cfg.burst as real - cost as real == (cfg.burst - cost) as real;
  }

  lemma FirstLevel(cfg: Config, buckets: Buckets, client: string, now: real)
    requires client !in buckets
    ensures Level(cfg, Stored(cfg, buckets, client, now), now) == cfg.burst as real
  {
    assert (now - now) * cfg.rate == 0.0;
  }

  lemma TruncInt(n: int)
    ensures Trunc(n as real) == n
  {
    assert (n as real).Floor == n && (-(n as real)).Floor == -n;
  }

  /** And what it has left then, with what the rate earns meanwhile, is all it can spend
      next: the second of two requests is granted exactly when both fit. */
  lemma TwoRequests(cfg: Config, buckets: Buckets, client: string, first: int, second: int, now: real, wait: real)
    requires cfg.rate > 0.0 && client !in buckets && first <= cfg.burst && wait >= 0.0
    ensures var after := AfterRequest(cfg, buckets, client, first, now);
            AnswerTo(cfg, after, client, second, now + wait).Granted?
            <==> second <= cfg.burst && (first + second) as real <= cfg.burst as real + wait * cfg.rate
  {
    FirstLevel(cfg, buckets, client, now);
    LevelAfterWait(cfg, Bucket((cfg.burst - first) as real, now), wait);
  }

  /** `reset_after` is exact: the bucket is full again precisely when it has passed. */
  lemma ResetAfterExact(cfg: Config, buckets: Buckets, client: string, cost: int, now: real, wait: real)
    requires cfg.rate > 0.0 && wait >= 0.0 && AnswerTo(cfg, buckets, client, cost, now).Granted?
    ensures var granted, after := AnswerTo(cfg, buckets, client, cost, now), AfterRequest(cfg, buckets, client, cost, now);
            Spendable(cfg, after, client, now + wait) == cfg.burst as real <==> wait >= granted.resetAfter
  {
    var left := Spendable(cfg, buckets, client, now) - cost as real;
    GrantedLeaves(cfg, buckets, client, cost, now);
    RefilledIff(cfg, buckets, client, left, now, wait);
  }

  lemma RefilledIff(cfg: Config, buckets: Buckets, client: string, left: real, now: real, wait: real)
    requires cfg.rate > 0.0
    ensures Spendable(cfg, buckets[client := Bucket(left, now)], client, now + wait) == cfg.burst as real
       <==> wait >= (cfg.burst as real - left) / cfg.rate
  {
    LevelAfterWait(cfg, Bucket(left, now), wait);
    FullIff(cfg.rate, left, cfg.burst as real, wait);
  }

  lemma GrantedLeaves(cfg: Config, buckets: Buckets, client: string, cost: int, now: real)
    requires AnswerTo(cfg, buckets, client, cost, now).Granted?
    ensures var left := Spendable(cfg, buckets, client, now) - cost as real;
            && AfterRequest(cfg, buckets, client, cost, now) == buckets[client := Bucket(left, now)]
            && AnswerTo(cfg, buckets, client, cost, now).resetAfter == (cfg.burst as real - left) / cfg.rate
  {
  }

  lemma FullIff(rate: real, tokens: real, burst: real, wait: real)
    requires rate > 0.0
    ensures Min(tokens + wait * rate, burst) == burst <==> wait >= (burst - tokens) / rate
  {
    WaitLongEnough(rate, burst - tokens, wait);
  }

  /** The status report predicts the very next answer. */
  lemma StatusPredicts(cfg: Config, buckets: Buckets, client: string, cost: int, now: real)
    requires cfg.rate > 0.0 && cfg.burst >= 0 && Sane(buckets, now)
    ensures AnswerTo(cfg, buckets, client, cost, now).Granted?
       <==> cost <= StatusOf(cfg, buckets, client, now).tokens
  {
    LevelNonNegative(cfg, Stored(cfg, buckets, client, now), now);
  }

  // ----- clean-up is unobservable -----

  function Uncleaned(trace: seq<Event>): (r: seq<Event>) {
    if trace == [] then []
    else if trace[0].Cleanup? then Uncleaned(trace[1..])
    else [trace[0]] + Uncleaned(trace[1..])
  }

  /** `swept` differs from `kept` only by buckets that are full by now. */
  ghost predicate SameUpToFull(cfg: Config, swept: Buckets, kept: Buckets, now: real) {
    && (forall k :: k in swept ==> k in kept && swept[k] == kept[k])
    && (forall k :: k in kept && k !in swept ==> Level(cfg, kept[k], now) == cfg.burst as real)
  }

  lemma StillFull(cfg: Config, swept: Buckets, kept: Buckets, s: real, t: real)
    requires cfg.rate >= 0.0 && s <= t && SameUpToFull(cfg, swept, kept, s)
    ensures SameUpToFull(cfg, swept, kept, t)
  {
    forall k | k in kept && k !in swept ensures Level(cfg, kept[k], t) == cfg.burst as real {
      LevelGrows(cfg, kept[k], s, t);
    }
  }

  lemma {:induction false} SweptAnswersAgree(cfg: Config, swept: Buckets, kept: Buckets, trace: seq<Event>, at: real)
    requires cfg.rate >= 0.0 && cfg.burst >= 0
    requires Clocked(trace, at) && PatientTrace(cfg, trace)
    requires Sane(kept, at) && SameUpToFull(cfg, swept, kept, at)
    ensures Answers(cfg, swept, trace) == Answers(cfg, kept, Uncleaned(trace))
    decreases trace
  {
    if trace != [] {
      var e := trace[0];
      var now := e.now;
      StillFull(cfg, swept, kept, at, now);
      match e {
        case Request(client, cost, _) =>
          assert Spendable(cfg, swept, client, now) == Spendable(cfg, kept, client, now);
          StaysSane(cfg, kept, e, at);
          SweptAnswersAgree(cfg, After(cfg, swept, e), After(cfg, kept, e), trace[1..], now);
          assert Uncleaned(trace)[1..] == Uncleaned(trace[1..]);
        case Cleanup(maxAge, _) =>
          assert e in trace;
          forall k | k in kept && k !in Swept(swept, maxAge, now)
            ensures Level(cfg, kept[k], now) == cfg.burst as real
          {
            assert SaneBucket(kept[k], at);
            if k in swept {
              IdleIsFull(cfg, kept[k], maxAge, now);
            }
          }
          assert Sane(kept, now) by {
            forall k | k in kept ensures SaneBucket(kept[k], now) {
              assert SaneBucket(kept[k], at);
            }
          }
          SweptAnswersAgree(cfg, Swept(swept, maxAge, now), kept, trace[1..], now);
      }
    }
  }

  ghost predicate CleanupsOfAge(trace: seq<Event>, maxAge: real) {
    forall e :: e in trace && e.Cleanup? ==> e.maxAge == maxAge
  }

  /** No trace, however its clean-ups of age `maxAge` are placed, is answered
      differently from the same trace without them. */
  ghost predicate CleanupUnobservable(cfg: Config, maxAge: real) {
    forall trace: seq<Event>, start: real ::
      Clocked(trace, start) && CleanupsOfAge(trace, maxAge)
      ==> Answers(cfg, map[], trace) == Answers(cfg, map[], Uncleaned(trace))
  }

  /** A wait longer than an impatient age, yet too short to refill the burst. */
  lemma ShortWait(cfg: Config, maxAge: real) returns (wait: real)
    requires cfg.rate > 0.0 && cfg.burst > 0 && maxAge >= 0.0 && !PatientEnough(cfg, maxAge)
    ensures maxAge < wait && wait * cfg.rate < cfg.burst as real
  {
    var fill := cfg.burst as real / cfg.rate;
    assert fill * cfg.rate == cfg.burst as real;
    WaitLongEnough(cfg.rate, cfg.burst as real, maxAge);
    wait := (maxAge + fill) / 2.0;
    WaitLongEnough(cfg.rate, cfg.burst as real, wait);
  }

  lemma ImpatientCleanupShows(cfg: Config, maxAge: real)
    requires cfg.rate > 0.0 && cfg.burst > 0 && maxAge >= 0.0 && !PatientEnough(cfg, maxAge)
    ensures !CleanupUnobservable(cfg, maxAge)
  {
    var wait := ShortWait(cfg, maxAge);
    var drain, sweep, again := Request("c", cfg.burst, 0.0), Cleanup(maxAge, wait), Request("c", cfg.burst, wait);
    var trace := [drain, sweep, again];
    var drained := map["c" := Bucket(0.0, 0.0)];
    DrainedBucketDiffers(cfg, maxAge, wait);
    assert trace[1..] == [sweep, again] && trace[1..][1..] == [again] && trace[1..][1..][1..] == [];
    assert Clocked([again], wait) && Clocked(trace[1..], 0.0) && Clocked(trace, 0.0);
    assert Answers(cfg, drained, trace[1..]) == Answers(cfg, map[], [again]);
    assert Uncleaned([again]) == [again] && Uncleaned(trace[1..]) == [again] && Uncleaned(trace) == [drain, again];
    assert [drain, again][1..] == [again];
    AnswersToRequest(cfg, map[], trace);
    AnswersToRequest(cfg, map[], [again]);
    AnswersToRequest(cfg, map[], [drain, again]);
    AnswersToRequest(cfg, drained, [again]);
    assert Answers(cfg, map[], trace)[1] != Answers(cfg, map[], [drain, again])[1];
  }

  lemma AnswersToRequest(cfg: Config, buckets: Buckets, trace: seq<Event>)
    requires trace != [] && trace[0].Request?
    ensures Answers(cfg, buckets, trace) == [AnswerTo(cfg, buckets, trace[0].client, trace[0].cost, trace[0].now)]
         + Answers(cfg, After(cfg, buckets, trace[0]), trace[1..])
  {
  }

  lemma DrainedBucketDiffers(cfg: Config, maxAge: real, wait: real)
    requires cfg.rate > 0.0 && cfg.burst > 0 && maxAge >= 0.0 && maxAge < wait && wait * cfg.rate < cfg.burst as real
    ensures After(cfg, map[], Request("c", cfg.burst, 0.0)) == map["c" := Bucket(0.0, 0.0)]
    ensures Swept(map["c" := Bucket(0.0, 0.0)], maxAge, wait) == map[]
    ensures AnswerTo(cfg, map[], "c", cfg.burst, wait).Granted?
    ensures AnswerTo(cfg, map["c" := Bucket(0.0, 0.0)], "c", cfg.burst, wait).Denied?
  {
  }

  /** Forgetting idle buckets is unobservable exactly when the age threshold is
      long enough for an empty bucket to refill. */
  lemma CleanupUnobservableIff(cfg: Config, maxAge: real)
    requires cfg.rate > 0.0 && cfg.burst > 0 && maxAge >= 0.0
    ensures CleanupUnobservable(cfg, maxAge) <==> PatientEnough(cfg, maxAge)
  {
    if PatientEnough(cfg, maxAge) {
      forall trace: seq<Event>, start: real |
        Clocked(trace, start) && CleanupsOfAge(trace, maxAge)
        ensures Answers(cfg, map[], trace) == Answers(cfg, map[], Uncleaned(trace))
      {
        SweptAnswersAgree(cfg, map[], map[], trace, start);
      }
    } else {
      ImpatientCleanupShows(cfg, maxAge);
    }
  }
}
