/** The token bucket kept for each client address, and the background sweep that forgets idle clients. */
module RateLimiter {
  datatype Config = Config(rate: real, burst: int)

  datatype Visitor = Visitor(tokens: real, lastSeen: real)

  type Visitors = map<string, Visitor>

  const IDLE_SECONDS := 180.0

  /** One request reads the clock up to three times: when it creates its visitor, when it measures the time
      elapsed, and when it stamps the visitor. A sweep is a series of `Forget` steps, one per visitor. */
  datatype Step =
    | Request(ip: string, created: real, read: real, stamped: real)
    | Forget(ip: string, now: real)

  predicate Timed(from: real, steps: seq<Step>)
    decreases steps
  {
    steps == [] ||
    match steps[0]
    case Request(_, created, read, stamped) =>
      from <= created <= read <= stamped && Timed(stamped, steps[1..])
    case Forget(_, now) =>
      from <= now && Timed(now, steps[1..])
  }

  function Found(c: Config, vs: Visitors, ip: string, created: real): Visitor {
    if ip in vs then vs[ip] else Visitor(c.burst as real, created)
  }

  /** What `seconds` earn at `rate` tokens a second. */
  function Gain(seconds: real, rate: real): real {
    seconds * rate
  }

  function Refilled(c: Config, v: Visitor, read: real): real {
    var tokens := v.tokens + Gain(read - v.lastSeen, c.rate);
    if tokens > c.burst as real then c.burst as real else tokens
  }

  predicate Admits(c: Config, vs: Visitors, r: Step)
    requires r.Request?
  {
    Refilled(c, Found(c, vs, r.ip, r.created), r.read) >= 1.0
  }

  function Served(c: Config, vs: Visitors, r: Step): Visitors
    requires r.Request?
  {
    var tokens := Refilled(c, Found(c, vs, r.ip, r.created), r.read);
    vs[r.ip := Visitor(if tokens >= 1.0 then tokens - 1.0 else tokens, r.stamped)]
  }

  predicate Idle(v: Visitor, now: real) {
    now - v.lastSeen > IDLE_SECONDS
  }

  function After(c: Config, sweeping: bool, vs: Visitors, step: Step): Visitors {
    match step
    case Request(_, _, _, _) => Served(c, vs, step)
    case Forget(ip, now) => if sweeping && ip in vs && Idle(vs[ip], now) then vs - {ip} else vs
  }

  /** Which steps let a request through; `sweeping` says whether idle visitors are really forgotten. */
  function Decisions(c: Config, sweeping: bool, vs: Visitors, steps: seq<Step>): (allowed: seq<bool>)
    ensures |allowed| == |steps|
    decreases |steps|
  {
    if steps == [] then []
    else
      [steps[0].Request? && Admits(c, vs, steps[0])]
      + Decisions(c, sweeping, After(c, sweeping, vs, steps[0]), steps[1..])
  }

  /** The limiter itself. */
  class Limiter {
    const config: Config
    var visitors: Visitors

    constructor (rate: real, burst: int)
      ensures config == Config(rate, burst) && visitors == map[]
    {
      config := Config(rate, burst);
      visitors := map[];
    }

    method Handle(ip: string, created: real, read: real, stamped: real) returns (allowed: bool)
      modifies this
      ensures allowed == Admits(config, old(visitors), Request(ip, created, read, stamped))
      ensures visitors == Served(config, old(visitors), Request(ip, created, read, stamped))
    {
      if ip !in visitors {
        visitors := visitors[ip := Visitor(config.burst as real, created)];
      }
      var v := visitors[ip];
      v := v.(tokens := v.tokens + Gain(read - v.lastSeen, config.rate));
      if v.tokens > config.burst as real {
        v := v.(tokens := config.burst as real);
      }
      v := v.(lastSeen := stamped);
      visitors := visitors[ip := v];
      if v.tokens < 1.0 {
        return false;
      }
      visitors := visitors[ip := v.(tokens := v.tokens - 1.0)];
      allowed := true;
    }

    /** One sweep, visiting the clients in no particular order; `clock` is what each visit reads. */
    method Sweep(clock: string -> real)
      modifies this
      ensures visitors == map ip | ip in old(visitors) && clock(ip) - old(visitors)[ip].lastSeen <= 180.0
                            :: old(visitors)[ip]
    {
      var left := visitors.Keys;
      while left != {}
        invariant visitors.Keys <= old(visitors.Keys) && left <= old(visitors.Keys)
        invariant forall ip | ip in visitors :: visitors[ip] == old(visitors)[ip]
        invariant forall ip | ip in old(visitors) ::
          ip in visitors <==> ip in left || !Idle(old(visitors)[ip], clock(ip))
        decreases left
      {
        var ip :| ip in left;
        left := left - {ip};
        if Idle(visitors[ip], clock(ip)) {
          visitors := visitors - {ip};
        }
      }
    }
  }

  /** What a client holds when its request is read, if the bucket were bottomless. */
  function Held(c: Config, vs: Visitors, r: Step): real
    requires r.Request?
  {
    if r.ip in vs then vs[r.ip].tokens + (r.read - vs[r.ip].lastSeen) * c.rate
    else c.burst as real + (r.read - r.created) * c.rate
  }

  lemma HeldIsRefilled(c: Config, vs: Visitors, r: Step)
    requires r.Request?
    ensures Refilled(c, Found(c, vs, r.ip, r.created), r.read)
         == if Held(c, vs, r) <= c.burst as real then Held(c, vs, r) else c.burst as real
  {
    var v := Found(c, vs, r.ip, r.created);
    assert Gain(r.read - v.lastSeen, c.rate) == (r.read - v.lastSeen) * c.rate;
  }

  /** A request is let through exactly if the client's tokens, with what the time since its last request has earned,
      come to one and the bucket can hold one; a new client starts with a full bucket. The tokens are capped at the burst,
      and a request let through takes one. No other client is touched. */
  lemma HandleMeaning(c: Config, vs: Visitors, r: Step)
    requires r.Request?
    ensures Admits(c, vs, r) <==> Held(c, vs, r) >= 1.0 && c.burst >= 1
    ensures var after, held := Served(c, vs, r), Held(c, vs, r);
            && r.ip in after && after == vs[r.ip := after[r.ip]]
            && after[r.ip].lastSeen == r.stamped
            && after[r.ip].tokens == (if held <= c.burst as real then held else c.burst as real)
                                     - if Admits(c, vs, r) then 1.0 else 0.0
  {
    HeldIsRefilled(c, vs, r);
  }

  // ---------- the tokens of a client ----------

  predicate InRange(c: Config, vs: Visitors) {
    forall ip | ip in vs :: 0.0 <= vs[ip].tokens <= c.burst as real
  }

  predicate SeenBy(vs: Visitors, now: real) {
    forall ip | ip in vs :: vs[ip].lastSeen <= now
  }

  lemma GainIsNonNegative(x: real, y: real)
    requires 0.0 <= x && 0.0 <= y
    ensures 0.0 <= Gain(x, y)
  {
  }

  lemma GainAdds(x: real, y: real, rate: real)
    ensures Gain(x + y, rate) == Gain(x, rate) + Gain(y, rate)
  {
  }

  lemma GainGrows(x: real, y: real, rate: real)
    requires 0.0 <= rate && x <= y
    ensures Gain(x, rate) <= Gain(y, rate)
  {
    GainIsNonNegative(y - x, rate);
    GainAdds(x, y - x, rate);
  }

  function VisitorsAfter(c: Config, sweeping: bool, vs: Visitors, steps: seq<Step>): Visitors
    decreases |steps|
  {
    if steps == [] then vs
    else VisitorsAfter(c, sweeping, After(c, sweeping, vs, steps[0]), steps[1..])
  }

  lemma StepStaysInRange(c: Config, sweeping: bool, vs: Visitors, from: real, step: Step)
    requires 0.0 <= c.rate && 0 <= c.burst
    requires InRange(c, vs) && SeenBy(vs, from) && Timed(from, [step])
    ensures InRange(c, After(c, sweeping, vs, step))
    ensures SeenBy(After(c, sweeping, vs, step), if step.Request? then step.stamped else step.now)
  {
    if step.Request? {
      var v := Found(c, vs, step.ip, step.created);
      GainIsNonNegative(step.read - v.lastSeen, c.rate);
      var tokens := Refilled(c, v, step.read);
      assert 0.0 <= tokens <= c.burst as real;
    }
  }

  lemma {:induction false} TokensStayInRange(
      c: Config, sweeping: bool, vs: Visitors, from: real, steps: seq<Step>)
    requires 0.0 <= c.rate && 0 <= c.burst
    requires InRange(c, vs) && SeenBy(vs, from) && Timed(from, steps)
    ensures InRange(c, VisitorsAfter(c, sweeping, vs, steps))
    decreases |steps|
  {
    if steps != [] {
      assert Timed(from, [steps[0]]);
      StepStaysInRange(c, sweeping, vs, from, steps[0]);
      var now := if steps[0].Request? then steps[0].stamped else steps[0].now;
      TokensStayInRange(c, sweeping, After(c, sweeping, vs, steps[0]), now, steps[1..]);
    }
  }

  // ---------- forgetting idle clients ----------

  function ForgetSteps(ips: seq<string>, clock: string -> real): (steps: seq<Step>)
    ensures |steps| == |ips|
  {
    if ips == [] then [] else [Forget(ips[0], clock(ips[0]))] + ForgetSteps(ips[1..], clock)
  }

  /** A sweep is its visits one by one, in whatever order they happen. */
  lemma {:induction false} SweepIsItsVisits(c: Config, vs: Visitors, ips: seq<string>, clock: string -> real)
    ensures VisitorsAfter(c, true, vs, ForgetSteps(ips, clock))
         == map ip | ip in vs && !(ip in ips && clock(ip) - vs[ip].lastSeen > 180.0) :: vs[ip]
    decreases |ips|
  {
    if ips != [] {
      SweepIsItsVisits(c, After(c, true, vs, Forget(ips[0], clock(ips[0]))), ips[1..], clock);
    }
  }

  /** Whenever a client can be forgotten its bucket would have been full again by its next request. */
  predicate RefillsWhileIdle(c: Config) {
    c.burst <= 0 || c.burst as real <= Gain(IDLE_SECONDS, c.rate)
  }

  /** `vs` is what `all` becomes when some visitors idle at `now` are forgotten. */
  predicate Forgets(vs: Visitors, all: Visitors, now: real) {
    && (forall ip | ip in vs :: ip in all && vs[ip] == all[ip])
    && (forall ip | ip in all && ip !in vs :: Idle(all[ip], now))
  }

  lemma GainCovers(c: Config, v: Visitor, read: real)
    requires c.burst > 0 && RefillsWhileIdle(c) && 0.0 <= v.tokens && Idle(v, read)
    ensures Refilled(c, v, read) == c.burst as real
  {
    assert 0.0 < c.rate;
    GainGrows(IDLE_SECONDS, read - v.lastSeen, c.rate);
  }

  lemma NewIsFull(c: Config, created: real, read: real)
    requires 0.0 <= c.rate && created <= read
    ensures Refilled(c, Visitor(c.burst as real, created), read) == c.burst as real
  {
    GainIsNonNegative(read - created, c.rate);
  }

  lemma RequestMatches(c: Config, vs: Visitors, all: Visitors, from: real, r: Step)
    requires r.Request? && Timed(from, [r])
    requires c.burst > 0 && RefillsWhileIdle(c) && InRange(c, all) && Forgets(vs, all, from)
    ensures Admits(c, vs, r) == Admits(c, all, r)
    ensures Forgets(Served(c, vs, r), Served(c, all, r), r.stamped)
  {
    assert Refilled(c, Found(c, vs, r.ip, r.created), r.read)
        == Refilled(c, Found(c, all, r.ip, r.created), r.read) by {
      if r.ip !in vs && r.ip in all {
        assert 0.0 <= c.rate;
        GainCovers(c, all[r.ip], r.read);
        NewIsFull(c, r.created, r.read);
      }
    }
  }

  lemma {:induction false} SameDecisions(c: Config, vs: Visitors, all: Visitors, from: real, steps: seq<Step>)
    requires c.burst > 0 && RefillsWhileIdle(c)
    requires InRange(c, all) && SeenBy(all, from) && Forgets(vs, all, from) && Timed(from, steps)
    ensures Decisions(c, true, vs, steps) == Decisions(c, false, all, steps)
    decreases |steps|
  {
    if steps != [] {
      var step := steps[0];
      assert Timed(from, [step]);
      assert 0.0 <= c.rate;
      StepStaysInRange(c, false, all, from, step);
      if step.Request? {
        RequestMatches(c, vs, all, from, step);
        SameDecisions(c, Served(c, vs, step), Served(c, all, step), step.stamped, steps[1..]);
      } else {
        SameDecisions(c, After(c, true, vs, step), all, step.now, steps[1..]);
      }
    }
  }

  predicate AllBelow(c: Config, vs: Visitors) {
    forall ip | ip in vs :: vs[ip].tokens <= c.burst as real
  }

  lemma {:induction false} NothingAllowed(c: Config, sweeping: bool, vs: Visitors, steps: seq<Step>)
    requires c.burst <= 0 && AllBelow(c, vs)
    ensures forall i | 0 <= i < |steps| :: !Decisions(c, sweeping, vs, steps)[i]
    decreases |steps|
  {
    if steps != [] {
      NothingAllowed(c, sweeping, After(c, sweeping, vs, steps[0]), steps[1..]);
    }
  }

  // ---------- the rate bound ----------

  function Pos(x: real): real {
    if x > 0.0 then x else 0.0
  }

  /** How many requests of `ip` were let through with their elapsed time read between `s` and `t`. */
  function Count(steps: seq<Step>, allowed: seq<bool>, ip: string, s: real, t: real): (n: nat)
    requires |allowed| == |steps|
    ensures n <= |steps|
  {
    if steps == [] then 0
    else
      (if allowed[0] && steps[0].Request? && steps[0].ip == ip && s <= steps[0].read <= t then 1 else 0)
      + Count(steps[1..], allowed[1..], ip, s, t)
  }

  /** The burst, and what the rate makes of the window. */
  function Bound(c: Config, s: real, t: real): real {
    (if c.burst > 0 then c.burst as real else 0.0) + (t - s) * if c.rate > 0.0 then c.rate else 0.0
  }

  lemma BoundIs(c: Config, s: real, t: real)
    ensures Bound(c, s, t) == Pos(c.burst as real) + Gain(t - s, Pos(c.rate))
  {
  }

  /** What `ip` can still be allowed in the rest of the window, as the limiter's state stands. */
  function Credit(c: Config, vs: Visitors, ip: string, s: real, t: real): real {
    if ip in vs && vs[ip].lastSeen >= s
    then Pos(vs[ip].tokens) + Gain(Pos(t - vs[ip].lastSeen), Pos(c.rate))
    else Bound(c, s, t)
  }

  lemma {:induction false} NothingAfterTheWindow(
      steps: seq<Step>, allowed: seq<bool>, from: real, ip: string, s: real, t: real)
    requires |allowed| == |steps| && Timed(from, steps) && t < from
    ensures Count(steps, allowed, ip, s, t) == 0
    decreases |steps|
  {
    if steps != [] {
      var now := if steps[0].Request? then steps[0].stamped else steps[0].now;
      NothingAfterTheWindow(steps[1..], allowed[1..], now, ip, s, t);
    }
  }

  lemma RefillIsBounded(c: Config, v: Visitor, read: real)
    requires v.lastSeen <= read
    ensures Refilled(c, v, read) <= Pos(v.tokens) + Gain(read - v.lastSeen, Pos(c.rate))
  {
    GainGrows(0.0, read - v.lastSeen, Pos(c.rate) - c.rate);
    SplitRate(read - v.lastSeen, c.rate);
  }

  lemma SplitRate(x: real, rate: real)
    ensures Gain(x, Pos(rate)) == Gain(x, rate) + Gain(x, Pos(rate) - rate)
  {
  }

  /** A request served inside the window uses up as much credit as it is worth. */
  lemma CreditIsSpent(c: Config, vs: Visitors, ip: string, s: real, t: real, from: real, r: Step)
    requires r.Request? && r.ip == ip && Timed(from, [r]) && s <= t
    requires AllBelow(c, vs) && SeenBy(vs, from) && r.stamped <= t
    ensures Credit(c, Served(c, vs, r), ip, s, t) + (if Admits(c, vs, r) && s <= r.read then 1.0 else 0.0)
         <= Credit(c, vs, ip, s, t)
  {
    var v := Found(c, vs, ip, r.created);
    var k := Pos(c.rate);
    var tokens := Refilled(c, v, r.read);
    BoundIs(c, s, t);
    RefillIsBounded(c, v, r.read);
    GainGrows(t - r.stamped, t - r.read, k);
    GainAdds(r.read - v.lastSeen, t - r.read, k);
    assert r.read - v.lastSeen + (t - r.read) == t - v.lastSeen;
    if s <= r.stamped {
      GainGrows(t - r.stamped, t - s, k);
    }
  }

  lemma {:induction false} CreditBoundsCount(
      c: Config, vs: Visitors, steps: seq<Step>, from: real, ip: string, s: real, t: real)
    requires AllBelow(c, vs) && SeenBy(vs, from) && Timed(from, steps) && s <= t
    ensures Count(steps, Decisions(c, false, vs, steps), ip, s, t) as real <= Credit(c, vs, ip, s, t)
    decreases |steps|
  {
    CreditIsNonNegative(c, vs, ip, s, t);
    if steps != [] {
      var r := steps[0];
      var allowed := Decisions(c, false, vs, steps);
      assert Timed(from, [r]);
      if r.Forget? {
        CreditBoundsCount(c, vs, steps[1..], r.now, ip, s, t);
      } else {
        var next := Served(c, vs, r);
        CreditBoundsCount(c, next, steps[1..], r.stamped, ip, s, t);
        if r.stamped > t {
          NothingAfterTheWindow(steps[1..], allowed[1..], r.stamped, ip, s, t);
          if r.ip == ip && r.read <= t && s <= r.read && Admits(c, vs, r) {
            LastIsCovered(c, vs, ip, s, t, from, r);
          }
        } else if r.ip == ip {
          CreditIsSpent(c, vs, ip, s, t, from, r);
        }
      }
    }
  }

  lemma CreditIsNonNegative(c: Config, vs: Visitors, ip: string, s: real, t: real)
    requires s <= t
    ensures 0.0 <= Credit(c, vs, ip, s, t)
  {
    BoundIs(c, s, t);
    GainIsNonNegative(t - s, Pos(c.rate));
    if ip in vs {
      GainIsNonNegative(Pos(t - vs[ip].lastSeen), Pos(c.rate));
    }
  }

  /** A request read inside the window but stamped after it is the last one that can count. */
  lemma LastIsCovered(c: Config, vs: Visitors, ip: string, s: real, t: real, from: real, r: Step)
    requires r.Request? && r.ip == ip && Timed(from, [r]) && s <= r.read <= t
    requires AllBelow(c, vs) && SeenBy(vs, from) && Admits(c, vs, r)
    ensures 1.0 <= Credit(c, vs, ip, s, t)
  {
    var v := Found(c, vs, ip, r.created);
    BoundIs(c, s, t);
    RefillIsBounded(c, v, r.read);
    GainGrows(r.read - v.lastSeen, t - v.lastSeen, Pos(c.rate));
    GainIsNonNegative(t - s, Pos(c.rate));
  }

  lemma RefillsIff(c: Config)
    ensures RefillsWhileIdle(c) <==> c.burst <= 0 || c.burst as real <= 180.0 * c.rate
  {
  }

  // ---------- when both promises hold ----------

  ghost predicate ForgettingIsUnseen(c: Config) {
    forall from: real, steps: seq<Step> | Timed(from, steps) ::
      Decisions(c, true, map[], steps) == Decisions(c, false, map[], steps)
  }

  ghost predicate RateIsBounded(c: Config) {
    forall from: real, steps: seq<Step>, ip: string, s: real, t: real | Timed(from, steps) && s <= t ::
      Count(steps, Decisions(c, true, map[], steps), ip, s, t) as real <= Bound(c, s, t)
  }

  /** For any schedule of requests and sweeps the limiter decides as if it never forgot a client. */
  lemma ForgettingUnseen(c: Config, from: real, steps: seq<Step>)
    requires (c.burst <= 0 || c.burst as real <= 180.0 * c.rate) && Timed(from, steps)
    ensures Decisions(c, true, map[], steps) == Decisions(c, false, map[], steps)
  {
    RefillsIff(c);
    if c.burst <= 0 {
      NothingAllowed(c, true, map[], steps);
      NothingAllowed(c, false, map[], steps);
    } else {
      SameDecisions(c, map[], map[], from, steps);
    }
  }

  lemma RateBound(c: Config, from: real, steps: seq<Step>, ip: string, s: real, t: real)
    requires (c.burst <= 0 || c.burst as real <= 180.0 * c.rate) && Timed(from, steps) && s <= t
    ensures Count(steps, Decisions(c, true, map[], steps), ip, s, t) as real <= Bound(c, s, t)
  {
    ForgettingUnseen(c, from, steps);
    CreditBoundsCount(c, map[], steps, from, ip, s, t);
  }

  // ---------- a run that shows the condition is needed ----------

  function Volley(n: nat, ip: string, at: real): (steps: seq<Step>)
    ensures |steps| == n
  {
    if n == 0 then [] else [Request(ip, at, at, at)] + Volley(n - 1, ip, at)
  }

  lemma {:induction false} VolleyIsTimed(n: nat, ip: string, at: real, rest: seq<Step>)
    requires Timed(at, rest)
    ensures Timed(at, Volley(n, ip, at) + rest)
    decreases n
  {
    if n == 0 {
      assert Volley(n, ip, at) + rest == rest;
    } else {
      VolleyIsTimed(n - 1, ip, at, rest);
      assert (Volley(n, ip, at) + rest)[0] == Request(ip, at, at, at);
      assert (Volley(n, ip, at) + rest)[1..] == Volley(n - 1, ip, at) + rest;
    }
  }

  lemma OneOfVolley(c: Config, vs: Visitors, n: nat, ip: string, at: real)
    requires 0 < n <= c.burst && Found(c, vs, ip, at) == Visitor(n as real, at)
    ensures var r := Request(ip, at, at, at);
            Admits(c, vs, r) && Served(c, vs, r) == vs[ip := Visitor((n - 1) as real, at)]
  {
    assert Gain(at - at, c.rate) == 0.0;
    assert Refilled(c, Visitor(n as real, at), at) == n as real;
  }

  /** A client with `n` whole tokens gets `n` requests through at once, and is left with what remains. */
  lemma {:induction false} VolleyPasses(
      c: Config, vs: Visitors, n: nat, ip: string, at: real, rest: seq<Step>, s: real, t: real)
    requires s <= at <= t && n <= c.burst
    requires Found(c, vs, ip, at) == Visitor(n as real, at)
    ensures var steps := Volley(n, ip, at) + rest;
            var drained := if n == 0 then vs else vs[ip := Visitor(0.0, at)];
            Count(steps, Decisions(c, true, vs, steps), ip, s, t)
            == n + Count(rest, Decisions(c, true, drained, rest), ip, s, t)
    decreases n
  {
    var steps := Volley(n, ip, at) + rest;
    if n == 0 {
      assert steps == rest;
    } else {
      var next := vs[ip := Visitor((n - 1) as real, at)];
      assert steps[1..] == Volley(n - 1, ip, at) + rest;
      OneOfVolley(c, vs, n, ip, at);
      VolleyPasses(c, next, n - 1, ip, at, rest, s, t);
      assert (if n == 1 then next else next[ip := Visitor(0.0, at)]) == vs[ip := Visitor(0.0, at)];
      assert Decisions(c, true, vs, steps)[1..] == Decisions(c, true, next, steps[1..]);
    }
  }

  lemma MomentBeforeRefill(c: Config) returns (when: real)
    requires !RefillsWhileIdle(c)
    ensures when > IDLE_SECONDS && Gain(when, Pos(c.rate)) < c.burst as real
  {
    if c.rate <= 0.0 {
      when := 181.0;
    } else {
      var full := c.burst as real / c.rate;
      assert Gain(full, c.rate) == c.burst as real;
      if full <= IDLE_SECONDS {
        GainGrows(full, IDLE_SECONDS, c.rate);
        assert false;
      }
      when := (IDLE_SECONDS + full) / 2.0;
      GainAdds(when, when, c.rate);
      GainAdds(IDLE_SECONDS, full, c.rate);
    }
  }

  /** Drain the bucket, wait to be forgotten before it is full again, drain it once more. */
  lemma ForgottenTooEarly(c: Config) returns (steps: seq<Step>, t: real)
    requires !(c.burst <= 0 || c.burst as real <= 180.0 * c.rate)
    ensures Timed(0.0, steps) && 0.0 <= t
    ensures Count(steps, Decisions(c, true, map[], steps), "", 0.0, t) == 2 * c.burst
    ensures Bound(c, 0.0, t) < 2.0 * c.burst as real
  {
    RefillsIff(c);
    t := MomentBeforeRefill(c);
    var second := Volley(c.burst, "", t);
    var rest := [Forget("", t)] + second;
    steps := Volley(c.burst, "", 0.0) + rest;
    assert second + [] == second;
    VolleyIsTimed(c.burst, "", t, []);
    assert rest[1..] == second;
    assert Timed(0.0, rest);
    VolleyIsTimed(c.burst, "", 0.0, rest);
    VolleyPasses(c, map[], c.burst, "", 0.0, rest, 0.0, t);
    var drained: Visitors := map["" := Visitor(0.0, 0.0)];
    assert map[]["" := Visitor(0.0, 0.0)] == drained;
    assert After(c, true, drained, rest[0]) == map[];
    VolleyPasses(c, map[], c.burst, "", t, [], 0.0, t);
    assert Decisions(c, true, drained, rest)[1..] == Decisions(c, true, map[], second);
  }

  /** Forgetting idle clients changes no decision exactly when a bucket refills within the idle time... */
  lemma ForgettingIsUnseenIff(c: Config)
    ensures ForgettingIsUnseen(c) <==> c.burst <= 0 || c.burst as real <= 180.0 * c.rate
  {
    if c.burst <= 0 || c.burst as real <= 180.0 * c.rate {
      forall from: real, steps: seq<Step> | Timed(from, steps)
        ensures Decisions(c, true, map[], steps) == Decisions(c, false, map[], steps)
      {
        ForgettingUnseen(c, from, steps);
      }
    } else {
      var steps, t := ForgottenTooEarly(c);
      CreditBoundsCount(c, map[], steps, 0.0, "", 0.0, t);
    }
  }

  /** ...and the same condition decides whether the configured rate is a bound over every window. */
  lemma RateIsBoundedIff(c: Config)
    ensures RateIsBounded(c) <==> c.burst <= 0 || c.burst as real <= 180.0 * c.rate
  {
    if c.burst <= 0 || c.burst as real <= 180.0 * c.rate {
      forall from: real, steps: seq<Step>, ip: string, s: real, t: real | Timed(from, steps) && s <= t
        ensures Count(steps, Decisions(c, true, map[], steps), ip, s, t) as real <= Bound(c, s, t)
      {
        RateBound(c, from, steps, ip, s, t);
      }
    } else {
      var steps, t := ForgottenTooEarly(c);
    }
  }

  /** The router's limiter: ten requests a second, bursts of fifty. */
  lemma ConfiguredLimiter(from: real, steps: seq<Step>, ip: string, s: real, t: real)
    requires Timed(from, steps) && s <= t
    ensures Decisions(Config(10.0, 50), true, map[], steps) == Decisions(Config(10.0, 50), false, map[], steps)
    ensures Count(steps, Decisions(Config(10.0, 50), true, map[], steps), ip, s, t) as real <= 50.0 + 10.0 * (t - s)
  {
    ForgettingUnseen(Config(10.0, 50), from, steps);
    RateBound(Config(10.0, 50), from, steps, ip, s, t);
  }
}
