/** The per-IP token bucket with eviction of idle visitors (internal/middleware/ratelimit.go).

    Arithmetic is exact: time is in nanoseconds and tokens are counted in units of 1/MINUTE token, so a request
    costs MINUTE units and a nanosecond earns `rpm` of them. A bucket follows the usual rule
    tokens = min(burst, tokens + elapsed * rate); a refused request leaves it as it was. */
module RateLimiter {
  type Ip = nat

  const MINUTE: nat := 60_000_000_000
  const IDLE: nat := 3 * MINUTE

  datatype Config = Config(rpm: nat, burst: nat)

  datatype Bucket = Bucket(tokens: nat, last: nat)

  datatype Visitor = Visitor(bucket: Bucket, lastSeen: nat)

  datatype State = State(now: nat, visitors: map<Ip, Visitor>)

  /** `dt` nanoseconds after the previous step. */
  datatype Step = Request(ip: Ip, dt: nat) | Sweep(dt: nat)

  function Full(cfg: Config): nat {
    cfg.burst * MINUTE
  }

  function Refill(cfg: Config, elapsed: nat): nat {
    elapsed * cfg.rpm
  }

  function Min(a: nat, b: nat): nat {
    if a <= b then a else b
  }

  function Since(last: nat, at: nat): nat {
    if at > last then at - last else 0
  }

  function Tokens(cfg: Config, b: Bucket, at: nat): nat {
    Min(Full(cfg), b.tokens + Refill(cfg, Since(b.last, at)))
  }

  /** What a request from `ip` finds: an unknown visitor gets a full bucket. */
  function Level(cfg: Config, s: State, ip: Ip, at: nat): nat {
    if ip in s.visitors then Tokens(cfg, s.visitors[ip].bucket, at) else Full(cfg)
  }

  predicate Allows(cfg: Config, s: State, a: Step)
    requires a.Request?
  {
    Level(cfg, s, a.ip, s.now + a.dt) >= MINUTE
  }

  predicate Idle(v: Visitor, at: nat) {
    Since(v.lastSeen, at) > IDLE
  }

  function AfterRequest(cfg: Config, s: State, ip: Ip, at: nat): State {
    var found := if ip in s.visitors then s.visitors[ip].bucket else Bucket(Full(cfg), at);
    var tokens := Tokens(cfg, found, at);
    var left := if tokens >= MINUTE then Bucket(tokens - MINUTE, at) else found;
    State(at, s.visitors[ip := Visitor(left, at)])
  }

  function AfterSweep(s: State, at: nat): State {
    State(at, map ip | ip in s.visitors && !Idle(s.visitors[ip], at) :: s.visitors[ip])
  }

  /** With `evicts` this is the limiter of the source; without, one that never forgets a visitor. */
  function Apply(cfg: Config, evicts: bool, s: State, a: Step): State {
    match a
    case Request(ip, dt) => AfterRequest(cfg, s, ip, s.now + dt)
    case Sweep(dt) => if evicts then AfterSweep(s, s.now + dt) else s.(now := s.now + dt)
  }

  function Run(cfg: Config, evicts: bool, steps: seq<Step>): State {
    if steps == [] then State(0, map[])
    else Apply(cfg, evicts, Run(cfg, evicts, steps[..|steps| - 1]), steps[|steps| - 1])
  }

  /** The answer to step i of a run. */
  predicate Accepts(cfg: Config, evicts: bool, steps: seq<Step>, i: nat)
    requires i < |steps|
  {
    steps[i].Request? && Allows(cfg, Run(cfg, evicts, steps[..i]), steps[i])
  }

  lemma {:induction false} RunPrefix(cfg: Config, evicts: bool, steps: seq<Step>, i: nat)
    requires i < |steps|
    ensures Run(cfg, evicts, steps[..i + 1]) == Apply(cfg, evicts, Run(cfg, evicts, steps[..i]), steps[i])
  {
    assert steps[..i + 1][..i] == steps[..i];
  }

  // ---- refilling ----

  lemma RefillAdds(cfg: Config, a: nat, b: nat)
    ensures Refill(cfg, a + b) == Refill(cfg, a) + Refill(cfg, b)
  {}

  lemma RefillGrows(cfg: Config, a: nat, b: nat)
    requires a <= b
    ensures Refill(cfg, a) <= Refill(cfg, b)
  {
    RefillAdds(cfg, a, b - a);
  }

  ghost predicate Sane(cfg: Config, s: State) {
    forall ip <- s.visitors ::
      s.visitors[ip].bucket.last <= s.visitors[ip].lastSeen <= s.now && s.visitors[ip].bucket.tokens <= Full(cfg)
  }

  lemma {:induction false} RunIsSane(cfg: Config, evicts: bool, steps: seq<Step>)
    ensures Sane(cfg, Run(cfg, evicts, steps))
  {
    if steps != [] {
      RunIsSane(cfg, evicts, steps[..|steps| - 1]);
    }
  }

  /** Waiting only adds what the rate earns, up to a full bucket. */
  lemma LevelLater(cfg: Config, s: State, ip: Ip, dt: nat)
    requires Sane(cfg, s)
    ensures Level(cfg, s, ip, s.now + dt) == Min(Full(cfg), Level(cfg, s, ip, s.now) + Refill(cfg, dt))
  {
    if ip in s.visitors {
      var last := s.visitors[ip].bucket.last;
      RefillAdds(cfg, s.now - last, dt);
      assert Since(last, s.now + dt) == (s.now - last) + dt;
    }
  }

  lemma RequestTakesOne(cfg: Config, s: State, ip: Ip, at: nat, other: Ip)
    requires Sane(cfg, s) && s.now <= at
    ensures var t := AfterRequest(cfg, s, ip, at);
            Level(cfg, t, other, at) ==
              if other == ip && Level(cfg, s, ip, at) >= MINUTE then Level(cfg, s, ip, at) - MINUTE
              else Level(cfg, s, other, at)
  {}

  // ---- eviction is unobservable, exactly if idling refills a bucket ----

  /** Whoever has been idle long enough to be evicted has a full bucket. */
  predicate IdlingRefills(cfg: Config) {
    Full(cfg) <= Refill(cfg, IDLE + 1)
  }

  ghost predicate SameLevels(cfg: Config, s: State, t: State) {
    s.now == t.now && forall ip :: Level(cfg, s, ip, s.now) == Level(cfg, t, ip, t.now)
  }

  lemma SweepKeepsLevels(cfg: Config, s: State, at: nat, ip: Ip)
    requires IdlingRefills(cfg) && Sane(cfg, s) && s.now <= at
    ensures Level(cfg, AfterSweep(s, at), ip, at) == Level(cfg, s, ip, at)
  {
    if ip in s.visitors && Idle(s.visitors[ip], at) {
      RefillGrows(cfg, IDLE + 1, Since(s.visitors[ip].bucket.last, at));
    }
  }

  lemma LevelsAgreeLater(cfg: Config, s: State, t: State, dt: nat, ip: Ip)
    requires Sane(cfg, s) && Sane(cfg, t) && SameLevels(cfg, s, t)
    ensures Level(cfg, s, ip, s.now + dt) == Level(cfg, t, ip, t.now + dt)
  {
    LevelLater(cfg, s, ip, dt);
    LevelLater(cfg, t, ip, dt);
  }

  lemma RequestKeepsLevel(cfg: Config, s: State, t: State, client: Ip, dt: nat, ip: Ip)
    requires Sane(cfg, s) && Sane(cfg, t) && SameLevels(cfg, s, t)
    ensures Level(cfg, AfterRequest(cfg, s, client, s.now + dt), ip, s.now + dt) ==
            Level(cfg, AfterRequest(cfg, t, client, t.now + dt), ip, t.now + dt)
  {
    LevelsAgreeLater(cfg, s, t, dt, client);
    LevelsAgreeLater(cfg, s, t, dt, ip);
    RequestTakesOne(cfg, s, client, s.now + dt, ip);
    RequestTakesOne(cfg, t, client, t.now + dt, ip);
  }

  lemma RequestKeepsLevels(cfg: Config, s: State, t: State, client: Ip, dt: nat)
    requires Sane(cfg, s) && Sane(cfg, t) && SameLevels(cfg, s, t)
    ensures SameLevels(cfg, AfterRequest(cfg, s, client, s.now + dt), AfterRequest(cfg, t, client, t.now + dt))
  {
    var s', t' := AfterRequest(cfg, s, client, s.now + dt), AfterRequest(cfg, t, client, t.now + dt);
    forall ip ensures Level(cfg, s', ip, s'.now) == Level(cfg, t', ip, t'.now) {
      RequestKeepsLevel(cfg, s, t, client, dt, ip);
    }
  }

  lemma SweepKeepsAllLevels(cfg: Config, s: State, t: State, dt: nat)
    requires IdlingRefills(cfg) && Sane(cfg, s) && Sane(cfg, t) && SameLevels(cfg, s, t)
    ensures SameLevels(cfg, AfterSweep(s, s.now + dt), t.(now := t.now + dt))
  {
    var s', t' := AfterSweep(s, s.now + dt), t.(now := t.now + dt);
    forall ip ensures Level(cfg, s', ip, s'.now) == Level(cfg, t', ip, t'.now) {
      LevelsAgreeLater(cfg, s, t, dt, ip);
      SweepKeepsLevels(cfg, s, s.now + dt, ip);
    }
  }

  lemma StepKeepsLevels(cfg: Config, s: State, t: State, a: Step)
    requires IdlingRefills(cfg) && Sane(cfg, s) && Sane(cfg, t) && SameLevels(cfg, s, t)
    ensures SameLevels(cfg, Apply(cfg, true, s, a), Apply(cfg, false, t, a))
  {
    match a
    case Request(client, dt) =>
      RequestKeepsLevels(cfg, s, t, client, dt);
      assert Apply(cfg, true, s, a) == AfterRequest(cfg, s, client, s.now + dt);
      assert Apply(cfg, false, t, a) == AfterRequest(cfg, t, client, t.now + dt);
    case Sweep(dt) =>
      SweepKeepsAllLevels(cfg, s, t, dt);
      assert Apply(cfg, true, s, a) == AfterSweep(s, s.now + dt);
      assert Apply(cfg, false, t, a) == t.(now := t.now + dt);
  }

  lemma {:induction false} RunsKeepLevels(cfg: Config, steps: seq<Step>)
    requires IdlingRefills(cfg)
    ensures SameLevels(cfg, Run(cfg, true, steps), Run(cfg, false, steps))
  {
    if steps != [] {
      var prefix := steps[..|steps| - 1];
      RunsKeepLevels(cfg, prefix);
      RunIsSane(cfg, true, prefix);
      RunIsSane(cfg, false, prefix);
      StepKeepsLevels(cfg, Run(cfg, true, prefix), Run(cfg, false, prefix), steps[|steps| - 1]);
    }
  }

  lemma {:induction false} EvictionIsUnobservable(cfg: Config, steps: seq<Step>, i: nat)
    requires IdlingRefills(cfg) && i < |steps|
    ensures Accepts(cfg, true, steps, i) <==> Accepts(cfg, false, steps, i)
  {
    var s, t := Run(cfg, true, steps[..i]), Run(cfg, false, steps[..i]);
    RunsKeepLevels(cfg, steps[..i]);
    if steps[i].Request? {
      RunIsSane(cfg, true, steps[..i]);
      RunIsSane(cfg, false, steps[..i]);
      LevelLater(cfg, s, steps[i].ip, steps[i].dt);
      LevelLater(cfg, t, steps[i].ip, steps[i].dt);
    }
  }

  /** In particular if the burst is at most three minutes' worth of requests, as for the 20 and 5 the routes use. */
  lemma ThreeMinutesSuffice(cfg: Config)
    requires cfg.burst <= 3 * cfg.rpm
    ensures IdlingRefills(cfg)
  {
    assert Full(cfg) <= 3 * cfg.rpm * MINUTE;
    assert Refill(cfg, IDLE + 1) == 3 * cfg.rpm * MINUTE + cfg.rpm;
  }

  function Burst(n: nat): seq<Step> {
    if n == 0 then [] else Burst(n - 1) + [Request(0, 0)]
  }

  lemma {:induction false} OneMoreRequest(cfg: Config, evicts: bool, steps: seq<Step>)
    ensures var s, t := Run(cfg, evicts, steps), Run(cfg, evicts, steps + [Request(0, 0)]);
            var level := Level(cfg, s, 0, s.now);
            t.now == s.now && Level(cfg, t, 0, t.now) == if level >= MINUTE then level - MINUTE else level
  {
    var s := Run(cfg, evicts, steps);
    assert (steps + [Request(0, 0)])[..|steps|] == steps;
    RunIsSane(cfg, evicts, steps);
    RequestTakesOne(cfg, s, 0, s.now, 0);
  }

  /** A burst of n requests that the bucket covers takes exactly n tokens. */
  lemma {:induction false} BurstTakes(cfg: Config, evicts: bool, before: seq<Step>, n: nat)
    requires n * MINUTE <= Level(cfg, Run(cfg, evicts, before), 0, Run(cfg, evicts, before).now)
    ensures var s, t := Run(cfg, evicts, before), Run(cfg, evicts, before + Burst(n));
            t.now == s.now && Level(cfg, t, 0, t.now) == Level(cfg, s, 0, s.now) - n * MINUTE
  {
    if n == 0 {
      assert before + Burst(0) == before;
    } else {
      BurstTakes(cfg, evicts, before, n - 1);
      OneMoreRequest(cfg, evicts, before + Burst(n - 1));
      assert before + Burst(n) == before + Burst(n - 1) + [Request(0, 0)];
    }
  }

  /** Otherwise this run tells them apart: a full burst, an idle time one nanosecond over the limit, a sweep, and
      requests until the limiter that forgets nothing refuses one. */
  function Telltale(cfg: Config): seq<Step> {
    Burst(cfg.burst) + [Sweep(IDLE + 1)] + Burst(Refill(cfg, IDLE + 1) / MINUTE) + [Request(0, 0)]
  }

  lemma LevelAfterBurst(cfg: Config, evicts: bool)
    requires cfg.burst > 0
    ensures var s := Run(cfg, evicts, Burst(cfg.burst));
            s.now == 0 && Level(cfg, s, 0, 0) == 0 && 0 in s.visitors && s.visitors[0].lastSeen == 0
  {
    var steps := Burst(cfg.burst);
    BurstTakes(cfg, evicts, [], cfg.burst);
    assert [] + steps == steps;
    RunIsSane(cfg, evicts, steps);
  }

  lemma SweepAfter(cfg: Config, evicts: bool, steps: seq<Step>, dt: nat)
    ensures Run(cfg, evicts, steps + [Sweep(dt)]) == Apply(cfg, evicts, Run(cfg, evicts, steps), Sweep(dt))
  {
    assert (steps + [Sweep(dt)])[..|steps|] == steps;
  }

  lemma LevelAfterBurstAndSweep(cfg: Config, evicts: bool)
    requires !IdlingRefills(cfg)
    ensures var t := Run(cfg, evicts, Burst(cfg.burst) + [Sweep(IDLE + 1)]);
            Level(cfg, t, 0, t.now) == if evicts then Full(cfg) else Refill(cfg, IDLE + 1)
  {
    LevelAfterBurst(cfg, evicts);
    SweepAfter(cfg, evicts, Burst(cfg.burst), IDLE + 1);
    RunIsSane(cfg, evicts, Burst(cfg.burst));
    LevelLater(cfg, Run(cfg, evicts, Burst(cfg.burst)), 0, IDLE + 1);
  }

  /** One more request after a burst that the bucket covers. */
  lemma BurstThenOne(cfg: Config, evicts: bool, before: seq<Step>, n: nat)
    requires n * MINUTE <= Level(cfg, Run(cfg, evicts, before), 0, Run(cfg, evicts, before).now)
    ensures var s := Run(cfg, evicts, before);
            var steps := before + Burst(n) + [Request(0, 0)];
            Accepts(cfg, evicts, steps, |steps| - 1) <==> Level(cfg, s, 0, s.now) - n * MINUTE >= MINUTE
  {
    var steps := before + Burst(n) + [Request(0, 0)];
    BurstTakes(cfg, evicts, before, n);
    assert steps[..|steps| - 1] == before + Burst(n);
  }

  lemma WholeTokens(cfg: Config, level: nat)
    requires level < Full(cfg)
    ensures var n := level / MINUTE;
            n * MINUTE <= level && level - n * MINUTE < MINUTE && Full(cfg) - n * MINUTE >= MINUTE
  {
    var n := level / MINUTE;
    assert n < cfg.burst;
    assert (n + 1) * MINUTE <= cfg.burst * MINUTE;
  }

  lemma TelltaleTells(cfg: Config, evicts: bool)
    requires !IdlingRefills(cfg)
    ensures Accepts(cfg, evicts, Telltale(cfg), |Telltale(cfg)| - 1) <==> evicts
  {
    LevelAfterBurstAndSweep(cfg, evicts);
    WholeTokens(cfg, Refill(cfg, IDLE + 1));
    BurstThenOne(cfg, evicts, Burst(cfg.burst) + [Sweep(IDLE + 1)], Refill(cfg, IDLE + 1) / MINUTE);
  }

  /** Evicting idle visitors is unobservable exactly if idling refills a bucket. */
  lemma UnobservableExactly(cfg: Config)
    ensures IdlingRefills(cfg) <==>
            forall steps: seq<Step>, i: nat :: i < |steps| ==>
              (Accepts(cfg, true, steps, i) <==> Accepts(cfg, false, steps, i))
  {
    if IdlingRefills(cfg) {
      forall steps: seq<Step>, i: nat | i < |steps|
        ensures Accepts(cfg, true, steps, i) <==> Accepts(cfg, false, steps, i)
      {
        EvictionIsUnobservable(cfg, steps, i);
      }
    } else {
      TelltaleTells(cfg, true);
      TelltaleTells(cfg, false);
    }
  }

  // ---- how many requests get through ----

  /** The requests of `ip` accepted among steps i to j. */
  function Accepted(cfg: Config, evicts: bool, steps: seq<Step>, ip: Ip, i: nat, j: nat): nat
    requires i <= j <= |steps|
  {
    if i == j then 0
    else Accepted(cfg, evicts, steps, ip, i, j - 1)
         + if Accepts(cfg, evicts, steps, j - 1) && steps[j - 1] == Request(ip, steps[j - 1].dt) then 1 else 0
  }

  function Clock(cfg: Config, steps: seq<Step>, i: nat): nat
    requires i <= |steps|
  {
    Run(cfg, false, steps[..i]).now
  }

  function LevelAt(cfg: Config, steps: seq<Step>, ip: Ip, i: nat): nat
    requires i <= |steps|
  {
    Level(cfg, Run(cfg, false, steps[..i]), ip, Clock(cfg, steps, i))
  }

  /** One step pays for what it accepts out of the level and the elapsed time. */
  lemma StepPays(cfg: Config, s: State, a: Step, ip: Ip)
    requires Sane(cfg, s)
    ensures var t := Apply(cfg, false, s, a);
            Level(cfg, t, ip, t.now) + (if a == Request(ip, a.dt) && Allows(cfg, s, a) then MINUTE else 0)
            == Min(Full(cfg), Level(cfg, s, ip, s.now) + Refill(cfg, a.dt))
  {
    LevelLater(cfg, s, ip, a.dt);
    if a.Request? {
      RequestTakesOne(cfg, s, a.ip, s.now + a.dt, ip);
    }
  }

  lemma {:induction false} StepIsPaid(cfg: Config, steps: seq<Step>, ip: Ip, j: nat)
    requires j < |steps|
    ensures Clock(cfg, steps, j + 1) == Clock(cfg, steps, j) + steps[j].dt
    ensures LevelAt(cfg, steps, ip, j + 1) + Accepted(cfg, false, steps, ip, j, j + 1) * MINUTE
            == Min(Full(cfg), LevelAt(cfg, steps, ip, j) + Refill(cfg, steps[j].dt))
  {
    RunPrefix(cfg, false, steps, j);
    RunIsSane(cfg, false, steps[..j]);
    StepPays(cfg, Run(cfg, false, steps[..j]), steps[j], ip);
    assert Accepted(cfg, false, steps, ip, j, j) == 0;
  }

  /** Payments add up. */
  lemma PaysOn(cfg: Config, before: nat, after: nat, accepted: nat, one: nat, elapsed: nat, dt: nat)
    requires before + accepted * MINUTE <= Full(cfg) + Refill(cfg, elapsed)
    requires after + one * MINUTE <= Min(Full(cfg), before + Refill(cfg, dt))
    ensures after + (accepted + one) * MINUTE <= Full(cfg) + Refill(cfg, elapsed + dt)
  {
    RefillAdds(cfg, elapsed, dt);
    assert (accepted + one) * MINUTE == accepted * MINUTE + one * MINUTE;
  }

  lemma AcceptedAdds(cfg: Config, steps: seq<Step>, ip: Ip, i: nat, j: nat)
    requires i < j <= |steps|
    ensures Accepted(cfg, false, steps, ip, i, j) ==
            Accepted(cfg, false, steps, ip, i, j - 1) + Accepted(cfg, false, steps, ip, j - 1, j)
  {
    assert Accepted(cfg, false, steps, ip, j - 1, j - 1) == 0;
  }

  /** What a window's requests took is paid out of a full bucket and the time since its first request. */
  ghost predicate Paid(cfg: Config, steps: seq<Step>, ip: Ip, i: nat, j: nat)
    requires i < j <= |steps|
  {
    && Clock(cfg, steps, i + 1) <= Clock(cfg, steps, j)
    && LevelAt(cfg, steps, ip, j) + Accepted(cfg, false, steps, ip, i, j) * MINUTE
       <= Full(cfg) + Refill(cfg, Clock(cfg, steps, j) - Clock(cfg, steps, i + 1))
  }

  lemma {:induction false} StepKeepsPaid(cfg: Config, steps: seq<Step>, ip: Ip, i: nat, j: nat)
    requires i + 1 < j <= |steps| && Paid(cfg, steps, ip, i, j - 1)
    ensures Paid(cfg, steps, ip, i, j)
  {
    StepIsPaid(cfg, steps, ip, j - 1);
    AcceptedAdds(cfg, steps, ip, i, j);
    var elapsed := Clock(cfg, steps, j - 1) - Clock(cfg, steps, i + 1);
    var before, after := LevelAt(cfg, steps, ip, j - 1), LevelAt(cfg, steps, ip, j);
    var accepted, one := Accepted(cfg, false, steps, ip, i, j - 1), Accepted(cfg, false, steps, ip, j - 1, j);
    PaysOn(cfg, before, after, accepted, one, elapsed, steps[j - 1].dt);
  }

  lemma {:induction false} WindowIsPaid(cfg: Config, steps: seq<Step>, ip: Ip, i: nat, j: nat)
    requires i < j <= |steps|
    ensures Paid(cfg, steps, ip, i, j)
    decreases j
  {
    if i + 1 < j {
      WindowIsPaid(cfg, steps, ip, i, j - 1);
      StepKeepsPaid(cfg, steps, ip, i, j);
    } else {
      StepIsPaid(cfg, steps, ip, i);
    }
  }

  lemma {:induction false} SameAccepted(cfg: Config, steps: seq<Step>, ip: Ip, i: nat, j: nat)
    requires IdlingRefills(cfg) && i <= j <= |steps|
    ensures Accepted(cfg, true, steps, ip, i, j) == Accepted(cfg, false, steps, ip, i, j)
    decreases j
  {
    if i < j {
      SameAccepted(cfg, steps, ip, i, j - 1);
      EvictionIsUnobservable(cfg, steps, j - 1);
    }
  }

  /** In any window, eviction included, an IP gets at most the burst and what the rate earns in that time. */
  lemma {:induction false} WindowBound(cfg: Config, steps: seq<Step>, ip: Ip, i: nat, j: nat)
    requires IdlingRefills(cfg) && i < j <= |steps|
    ensures Clock(cfg, steps, i + 1) <= Clock(cfg, steps, j)
    ensures Accepted(cfg, true, steps, ip, i, j) * MINUTE
            <= cfg.burst * MINUTE + (Clock(cfg, steps, j) - Clock(cfg, steps, i + 1)) * cfg.rpm
  {
    SameAccepted(cfg, steps, ip, i, j);
    WindowIsPaid(cfg, steps, ip, i, j);
  }

  /** The level is what a full bucket and the time since some request's arrival leave, so no payment is too high. */
  ghost predicate Tight(cfg: Config, steps: seq<Step>, ip: Ip, i: nat, j: nat)
    requires i < j <= |steps|
  {
    && Clock(cfg, steps, i + 1) <= Clock(cfg, steps, j)
    && LevelAt(cfg, steps, ip, j) + Accepted(cfg, false, steps, ip, i, j) * MINUTE
       == Full(cfg) + Refill(cfg, Clock(cfg, steps, j) - Clock(cfg, steps, i + 1))
  }

  lemma PaysOnExactly(cfg: Config, before: nat, after: nat, accepted: nat, one: nat, elapsed: nat, dt: nat)
    requires before + accepted * MINUTE == Full(cfg) + Refill(cfg, elapsed)
    requires after + one * MINUTE == before + Refill(cfg, dt)
    ensures after + (accepted + one) * MINUTE == Full(cfg) + Refill(cfg, elapsed + dt)
  {
    RefillAdds(cfg, elapsed, dt);
    assert (accepted + one) * MINUTE == accepted * MINUTE + one * MINUTE;
  }

  lemma {:induction false} TightGrows(cfg: Config, steps: seq<Step>, ip: Ip, i: nat, j: nat)
    requires i < j < |steps| && Tight(cfg, steps, ip, i, j)
    requires LevelAt(cfg, steps, ip, j) + Refill(cfg, steps[j].dt) <= Full(cfg)
    ensures Tight(cfg, steps, ip, i, j + 1)
  {
    StepIsPaid(cfg, steps, ip, j);
    AcceptedAdds(cfg, steps, ip, i, j + 1);
    var elapsed := Clock(cfg, steps, j) - Clock(cfg, steps, i + 1);
    PaysOnExactly(cfg, LevelAt(cfg, steps, ip, j), LevelAt(cfg, steps, ip, j + 1),
                  Accepted(cfg, false, steps, ip, i, j), Accepted(cfg, false, steps, ip, j, j + 1),
                  elapsed, steps[j].dt);
  }

  lemma {:induction false} LevelAtStart(cfg: Config, steps: seq<Step>, ip: Ip)
    ensures LevelAt(cfg, steps, ip, 0) == Full(cfg)
  {
    assert steps[..0] == [];
  }

  /** There is such a request: the last that found the bucket full. */
  lemma {:induction false} TightWindow(cfg: Config, steps: seq<Step>, ip: Ip, j: nat) returns (i: nat)
    requires 0 < j <= |steps|
    ensures i < j && Tight(cfg, steps, ip, i, j)
    decreases j
  {
    StepIsPaid(cfg, steps, ip, j - 1);
    if LevelAt(cfg, steps, ip, j - 1) + Refill(cfg, steps[j - 1].dt) >= Full(cfg) {
      i := j - 1;
    } else {
      if j == 1 { LevelAtStart(cfg, steps, ip); }
      i := TightWindow(cfg, steps, ip, j - 1);
      TightGrows(cfg, steps, ip, i, j - 1);
    }
  }

  /** What a bucket of `burst` tokens earning `rpm` a minute can pay, with one more request in the window. */
  predicate Fits(cfg: Config, steps: seq<Step>, ip: Ip, i: nat, j: nat)
    requires i <= j < |steps|
  {
    (Accepted(cfg, true, steps, ip, i, j) + 1) * 60_000_000_000
    <= cfg.burst * 60_000_000_000 + (Clock(cfg, steps, j + 1) - Clock(cfg, steps, i + 1)) * cfg.rpm
  }

  lemma {:induction false} LevelDecides(cfg: Config, steps: seq<Step>, j: nat)
    requires j < |steps| && steps[j].Request?
    ensures Accepts(cfg, false, steps, j) <==>
            Min(Full(cfg), LevelAt(cfg, steps, steps[j].ip, j) + Refill(cfg, steps[j].dt)) >= MINUTE
  {
    RunIsSane(cfg, false, steps[..j]);
    LevelLater(cfg, Run(cfg, false, steps[..j]), steps[j].ip, steps[j].dt);
  }

  /** A window with the last step accepted costs what Fits says. */
  lemma {:induction false} AcceptedFits(cfg: Config, steps: seq<Step>, i: nat, j: nat)
    requires IdlingRefills(cfg) && i <= j < |steps| && Accepts(cfg, true, steps, j)
    ensures Fits(cfg, steps, steps[j].ip, i, j)
  {
    WindowBound(cfg, steps, steps[j].ip, i, j + 1);
    assert Accepted(cfg, true, steps, steps[j].ip, i, j + 1) == Accepted(cfg, true, steps, steps[j].ip, i, j) + 1;
  }

  lemma RefusedMeansLow(cfg: Config, level: nat, accepted: nat, elapsed: nat, dt: nat)
    requires level + accepted * MINUTE == Full(cfg) + Refill(cfg, elapsed) && level + Refill(cfg, dt) < MINUTE
    ensures (accepted + 1) * 60_000_000_000 > cfg.burst * 60_000_000_000 + (elapsed + dt) * cfg.rpm
  {
    RefillAdds(cfg, elapsed, dt);
  }

  /** A refused request would not have fitted into some window. */
  lemma {:induction false} RefusedDoesNotFit(cfg: Config, steps: seq<Step>, j: nat) returns (i: nat)
    requires IdlingRefills(cfg) && j < |steps| && steps[j].Request? && !Accepts(cfg, true, steps, j)
    ensures i <= j && !Fits(cfg, steps, steps[j].ip, i, j)
  {
    var ip, dt := steps[j].ip, steps[j].dt;
    EvictionIsUnobservable(cfg, steps, j);
    LevelDecides(cfg, steps, j);
    StepIsPaid(cfg, steps, ip, j);
    if Full(cfg) < MINUTE {
      i := j;
      assert Accepted(cfg, true, steps, ip, j, j) == 0;
    } else {
      if j == 0 { LevelAtStart(cfg, steps, ip); }
      i := TightWindow(cfg, steps, ip, j);
      SameAccepted(cfg, steps, ip, i, j);
      RefusedMeansLow(cfg, LevelAt(cfg, steps, ip, j), Accepted(cfg, false, steps, ip, i, j),
                      Clock(cfg, steps, j) - Clock(cfg, steps, i + 1), dt);
    }
  }

  /** In every run, eviction included, a request is accepted exactly if in every window that ends with it the accepted
      requests of its IP, this one included, number at most the burst and what the rate earns in that time. */
  lemma {:induction false} AcceptsExactly(cfg: Config, steps: seq<Step>, j: nat)
    requires IdlingRefills(cfg) && j < |steps| && steps[j].Request?
    ensures Accepts(cfg, true, steps, j) <==> forall i | 0 <= i <= j :: Fits(cfg, steps, steps[j].ip, i, j)
  {
    if Accepts(cfg, true, steps, j) {
      forall i | 0 <= i <= j ensures Fits(cfg, steps, steps[j].ip, i, j) {
        AcceptedFits(cfg, steps, i, j);
      }
    } else {
      var i := RefusedDoesNotFit(cfg, steps, j);
    }
  }

  // ---- the limiter over mutable state ----

  class IPRateLimiter {
    var visitors: map<Ip, Visitor>
    const cfg: Config

    constructor (cfg: Config)
      ensures this.cfg == cfg && visitors == map[]
    {
      this.cfg := cfg;
      visitors := map[];
    }

    method GetVisitor(ip: Ip, now: nat) returns (bucket: Bucket)
      modifies this`visitors
      ensures bucket == if ip in old(visitors) then old(visitors)[ip].bucket else Bucket(Full(cfg), now)
      ensures visitors == old(visitors)[ip := Visitor(bucket, now)]
    {
      if ip !in visitors {
        visitors := visitors[ip := Visitor(Bucket(Full(cfg), now), now)];
      } else {
        visitors := visitors[ip := visitors[ip].(lastSeen := now)];
      }
      return visitors[ip].bucket;
    }

    /** The decision of the middleware. */
    method Handle(ip: Ip, now: nat) returns (accepted: bool)
      modifies this`visitors
      ensures State(now, visitors) == AfterRequest(cfg, State(now, old(visitors)), ip, now)
      ensures accepted <==> Allows(cfg, State(now, old(visitors)), Request(ip, 0))
    {
      var bucket := GetVisitor(ip, now);
      var tokens := Tokens(cfg, bucket, now);
      accepted := tokens >= MINUTE;
      if accepted {
        visitors := visitors[ip := Visitor(Bucket(tokens - MINUTE, now), now)];
      }
    }

    /** One pass of the cleanup loop. */
    method Cleanup(now: nat)
      modifies this`visitors
      ensures forall ip :: ip in visitors <==>
                ip in old(visitors) && now - old(visitors)[ip].lastSeen <= 180_000_000_000
      ensures State(now, visitors) == AfterSweep(State(now, old(visitors)), now)
    {
      var rest := visitors.Keys;
      while rest != {}
        invariant rest <= old(visitors).Keys
        invariant forall ip :: ip in visitors <==>
                    ip in old(visitors) && (ip in rest || !Idle(old(visitors)[ip], now))
        invariant forall ip <- visitors :: visitors[ip] == old(visitors)[ip]
        decreases |rest|
      {
        var ip :| ip in rest;
        rest := rest - {ip};
        if Since(visitors[ip].lastSeen, now) > IDLE {
          visitors := visitors - {ip};
        }
      }
      assert visitors == AfterSweep(State(now, old(visitors)), now).visitors;
    }
  }
}
