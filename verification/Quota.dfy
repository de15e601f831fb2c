/** The scanner's request rate, and the reserve it keeps over a whole rate-limit window. */
module Quota {
  import opened RateLimit

  /** Requests that may be spent above the reserve. */
  function Usable(limit: int, remaining: int, safetyBuffer: real): real {
    remaining as real - limit as real * safetyBuffer
  }

  function Min(a: real, b: real): real {
    if a < b then a else b
  }

  /** Repositories per second: spread the usable requests over the time to the reset, at most
      ten requests a second, two requests a repository. */
  function Rate(limit: int, remaining: int, safetyBuffer: real, untilReset: real): real {
    var usable := Usable(limit, remaining, safetyBuffer);
    var seconds := if untilReset <= 0.0 then 3600.0 else untilReset;
    if usable <= 0.0 then 0.0 else Min(usable / seconds, 10.0) / 2.0
  }

  /** Spending two requests per permit until the reset uses up no more than is usable. */
  lemma RateFitsTheWindow(limit: int, remaining: int, safetyBuffer: real, untilReset: real)
    ensures var r, u := Rate(limit, remaining, safetyBuffer, untilReset), Usable(limit, remaining, safetyBuffer);
            && 0.0 <= r <= 5.0
            && (r > 0.0 <==> u > 0.0)
            && (untilReset > 0.0 ==> 2.0 * r * untilReset <= if u > 0.0 then u else 0.0)
  {
    var u := Usable(limit, remaining, safetyBuffer);
    var s := if untilReset <= 0.0 then 3600.0 else untilReset;
    if u > 0.0 {
      var q := u / s;
      assert q * s == u && q > 0.0;
      var m := Min(q, 10.0);
      assert m * s <= q * s;
      var r := Rate(limit, remaining, safetyBuffer, untilReset);
      assert 2.0 * r == m;
      assert 2.0 * r * s == m * s;
      assert untilReset > 0.0 ==> 2.0 * r * untilReset == 2.0 * r * s;
    }
  }

  /** And no larger rate within the cap would fit. */
  lemma RateIsTheLargest(limit: int, remaining: int, safetyBuffer: real, untilReset: real, x: real)
    requires untilReset > 0.0 && 0.0 <= x <= 5.0
    requires 2.0 * x * untilReset <= Usable(limit, remaining, safetyBuffer)
    ensures x <= Rate(limit, remaining, safetyBuffer, untilReset)
  {
    var u := Usable(limit, remaining, safetyBuffer);
    if x > 0.0 {
      assert 2.0 * x * untilReset > 0.0;
      var q := u / untilReset;
      assert q * untilReset == u;
      if 2.0 * x > q { assert 2.0 * x * untilReset > q * untilReset; }
    }
  }

  /** From the headers to the rate: after a response with whole limits, and past any Retry-After,
      the scanner goes on if and only if the remaining count exceeds the reserved share of the
      limit. */
  lemma RateFollowsTheHeaders(last: RateLimits, h: Headers, now: int, later: int, safetyBuffer: real)
    requires Whole(h)
    ensures var v := Merge(last, Extract(h, now));
            && IsValid(v)
            && (Rate(v.limit, v.remaining, safetyBuffer, (v.resetAt - later) as real / SECOND as real) > 0.0
                <==> h.remaining.value as real > h.limit.value as real * safetyBuffer)
  {
    var v := Merge(last, Extract(h, now));
    MergedFromHeaders(last, h, now);
    RateFitsTheWindow(v.limit, v.remaining, safetyBuffer, (v.resetAt - later) as real / SECOND as real);
  }

  /** Past the reset the usable requests are spread over an hour. */
  lemma RateAfterReset(limit: int, remaining: int, safetyBuffer: real, untilReset: real)
    requires untilReset <= 0.0
    ensures Rate(limit, remaining, safetyBuffer, untilReset) == Rate(limit, remaining, safetyBuffer, 3600.0)
    ensures 0.0 < Usable(limit, remaining, safetyBuffer) <= 36000.0 ==>
              7200.0 * Rate(limit, remaining, safetyBuffer, untilReset) == Usable(limit, remaining, safetyBuffer)
  {
  }

  /** Without limits from the server the scanner assumes 60 requests in the coming hour. */
  lemma UnauthenticatedRate(now: int, safetyBuffer: real)
    requires 0.0 <= safetyBuffer <= 1.0
    ensures var l := UnauthenticatedLimits(now);
            && IsValid(l.(resetAt := 1)) && l.retryAfter == 0
            && 120.0 * Rate(l.limit, l.remaining, safetyBuffer, (l.resetAt - now) as real / SECOND as real)
               == 1.0 - safetyBuffer
  {
    var l := UnauthenticatedLimits(now);
    assert (l.resetAt - now) as real / SECOND as real == 3600.0;
  }

  class QuotaManager {
    var limiter: real   // permits per second
    const safetyBuffer: real

    constructor (safetyBuffer: real)
      ensures this.safetyBuffer == safetyBuffer && limiter == 1.0
    {
      this.safetyBuffer := safetyBuffer;
      limiter := 1.0;
    }

    /** Refresh; `now` and `later` are its two readings of the clock. */
    method Refresh(observed: RateLimits, now: int, later: int) returns (rps: real)
      requires now <= later
      modifies this
      ensures limiter == rps && 0.0 <= rps <= 5.0
      ensures now < observed.retryAfter ==> rps == 0.0
      ensures now >= observed.retryAfter ==>
                var limits := if IsValid(observed) then observed else UnauthenticatedLimits(now);
                var untilReset := (limits.resetAt - later) as real / SECOND as real;
                var usable := Usable(limits.limit, limits.remaining, safetyBuffer);
                && (rps > 0.0 <==> usable > 0.0)
                && (untilReset > 0.0 ==> 2.0 * rps * untilReset <= if usable > 0.0 then usable else 0.0)
                && rps == Rate(limits.limit, limits.remaining, safetyBuffer, untilReset)
    {
      hide UnauthenticatedLimits, IsValid;
      if now < observed.retryAfter {
        limiter := 0.0;
        return 0.0;
      }
      var limits := observed;
      if !IsValid(limits) { limits := UnauthenticatedLimits(now); }
      var timeUntilReset := (limits.resetAt - later) as real / SECOND as real;
      RateFitsTheWindow(limits.limit, limits.remaining, safetyBuffer, timeUntilReset);
      if timeUntilReset <= 0.0 { timeUntilReset := 3600.0; }
      var usable := limits.remaining as real - limits.limit as real * safetyBuffer;
      rps := 0.0;
      if usable > 0.0 {
        rps := usable / timeUntilReset;
        rps := Min(rps, 10.0);
        rps := rps / 2.0;
      }
      limiter := rps;
    }

    method Freeze()
      modifies this
      ensures limiter == 0.0
    {
      limiter := 0.0;
    }
  }

  // ---- One rate-limit window ----

  /** The window's constants: quota, reserve share, worker count, the most requests one permit
      leads to, and by how many requests the remaining count read from the headers may lag behind
      when no request is in flight. A scan makes two requests, each of which the client repeats
      for every redirect it follows. */
  datatype Window = Window(limit: int, safetyBuffer: real, workers: nat, perPermit: nat, lag: nat)

  /** `remaining` is the server's count and `seen` the last one read from a header. A permit
      allows `perPermit` requests: `outstanding` ones not sent yet, `inFlight` ones not answered yet.
      `lookups` counts requests the subscribe handler made past the limiter. */
  datatype Meter = Meter(remaining: int, seen: int, outstanding: nat, inFlight: nat,
                         tokens: real, rate: real, left: real, lookups: nat)

  datatype Step =
    | Elapse(seconds: real)
    | Refreshed(retryLater: bool)
    | Frozen
    | Permit
    | Send
    | Respond(seen: int)
    | Skip              // a request of a permit that is not needed, or is answered by the cache
    | Lookup

  function Next(c: Window, m: Meter, s: Step): Meter {
    match s
    case Elapse(dt) =>
      if 0.0 <= dt <= m.left then m.(tokens := Min(m.tokens + m.rate * dt, 1.0), left := m.left - dt) else m
    case Refreshed(retryLater) =>
      m.(rate := if retryLater then 0.0 else Rate(c.limit, m.seen, c.safetyBuffer, m.left))
    case Frozen => m.(rate := 0.0)
    case Permit =>
      if m.tokens >= 1.0 && m.outstanding + m.inFlight + c.perPermit <= c.perPermit * c.workers
      then m.(tokens := m.tokens - 1.0, outstanding := m.outstanding + c.perPermit) else m
    case Send =>
      if m.outstanding > 0 then m.(outstanding := m.outstanding - 1, inFlight := m.inFlight + 1,
                                  remaining := m.remaining - 1) else m
    case Respond(seen) =>
      if m.inFlight > 0 && seen <= m.remaining + c.lag + (m.inFlight - 1) + m.lookups
      then m.(inFlight := m.inFlight - 1, seen := seen) else m
    case Skip => if m.outstanding > 0 then m.(outstanding := m.outstanding - 1) else m
    case Lookup => m.(remaining := m.remaining - 1, lookups := m.lookups + 1)
  }

  function Run(c: Window, m: Meter, steps: seq<Step>): Meter
    decreases steps
  {
    if steps == [] then m else Run(c, Next(c, m, steps[0]), steps[1..])
  }

  /** Whether the server counts the step as a request. */
  predicate Counted(m: Meter, s: Step) {
    s == Lookup || (s == Send && m.outstanding > 0)
  }

  function Requests(c: Window, m: Meter, steps: seq<Step>): nat
    decreases steps
  {
    if steps == [] then 0
    else (if Counted(m, steps[0]) then 1 else 0) + Requests(c, Next(c, m, steps[0]), steps[1..])
  }

  /** Over every run the server's count falls by exactly the requests sent. */
  lemma {:induction false} EveryRequestIsCounted(c: Window, m: Meter, steps: seq<Step>)
    ensures Run(c, m, steps).remaining == m.remaining - Requests(c, m, steps)
    decreases steps
  {
    if steps != [] {
      EveryRequestIsCounted(c, Next(c, m, steps[0]), steps[1..]);
    }
  }

  /** The window as the first Refresh finds it: nothing queued, so nothing permitted yet. After a
      start inside a window `seen` is the base limit and not the server's count. */
  function Opening(remaining: int, seen: int, left: real): Meter {
    Meter(remaining, seen, 0, 0, 1.0, 0.0, left, 0)
  }

  /** What the quota can still lose: unsent requests, the bucket, and the refill to the reset. */
  function Potential(c: Window, m: Meter): real {
    Usable(c.limit, m.remaining, c.safetyBuffer) - m.outstanding as real - 2.0 * m.tokens - 2.0 * m.rate * m.left
  }

  function Slack(c: Window, m: Meter): real {
    (2 * c.workers + 2 + c.lag + m.lookups) as real
  }

  /** `start` is the usable quota at the opening if that was already negative, else 0. */
  ghost predicate Inv(c: Window, m: Meter, start: real) {
    && 0.0 <= m.tokens <= 1.0 && m.rate >= 0.0 && m.left >= 0.0
    && c.perPermit <= 2 && m.outstanding + m.inFlight <= 2 * c.workers
    && m.seen <= m.remaining + c.lag + m.inFlight + m.lookups
    && Potential(c, m) >= start - Slack(c, m)
  }

  lemma ElapseKeeps(c: Window, m: Meter, dt: real, start: real)
    requires Inv(c, m, start)
    ensures Inv(c, Next(c, m, Elapse(dt)), start)
  {
    if 0.0 <= dt <= m.left {
      assert m.rate * dt >= 0.0;
      assert m.rate * (m.left - dt) == m.rate * m.left - m.rate * dt;
    }
  }

  /** Any rate that fits the count last read. */
  lemma NewRateKeeps(c: Window, m: Meter, rate: real, start: real)
    requires Inv(c, m, start) && start <= 0.0 && rate >= 0.0
    requires var u := Usable(c.limit, m.seen, c.safetyBuffer);
             2.0 * rate * m.left <= if u > 0.0 then u else 0.0
    requires rate > 0.0 ==> Usable(c.limit, m.seen, c.safetyBuffer) > 0.0
    ensures Inv(c, m.(rate := rate), start)
  {
    assert m.rate * m.left >= 0.0;
    if rate == 0.0 {
      assert rate * m.left == 0.0;
    } else {
      UsableLags(c, m);
    }
  }

  lemma UsableLags(c: Window, m: Meter)
    requires m.seen <= m.remaining + c.lag + m.inFlight + m.lookups
    ensures Usable(c.limit, m.seen, c.safetyBuffer)
            <= Usable(c.limit, m.remaining, c.safetyBuffer) + (c.lag + m.inFlight + m.lookups) as real
  {
  }

  lemma RefreshKeeps(c: Window, m: Meter, retryLater: bool, start: real)
    requires Inv(c, m, start) && start <= 0.0
    ensures Inv(c, Next(c, m, Refreshed(retryLater)), start)
  {
    hide Inv, Rate, Usable;
    LeftInWindow(c, m, start);
    var r := Rate(c.limit, m.seen, c.safetyBuffer, m.left);
    RateFitsTheWindow(c.limit, m.seen, c.safetyBuffer, m.left);
    NoTimeLeft(r, m.left);
    NoTimeLeft(0.0, m.left);
    NewRateKeeps(c, m, if retryLater then 0.0 else r, start);
  }

  lemma LeftInWindow(c: Window, m: Meter, start: real)
    requires Inv(c, m, start)
    ensures m.left >= 0.0
  {
  }

  lemma NoTimeLeft(r: real, left: real)
    ensures left == 0.0 || r == 0.0 ==> 2.0 * r * left == 0.0
  {
  }

  lemma StepKeeps(c: Window, m: Meter, s: Step, start: real)
    requires Inv(c, m, start) && start <= 0.0
    ensures Inv(c, Next(c, m, s), start)
  {
    match s
    case Elapse(dt) => ElapseKeeps(c, m, dt, start);
    case Refreshed(retryLater) => RefreshKeeps(c, m, retryLater, start);
    case Frozen => assert m.rate * m.left >= 0.0;
    case _ =>
  }

  lemma {:induction false} RunKeeps(c: Window, m: Meter, steps: seq<Step>, start: real)
    requires Inv(c, m, start) && start <= 0.0
    ensures Inv(c, Run(c, m, steps), start)
    decreases steps
  {
    hide Next, Inv;
    if steps != [] {
      StepKeeps(c, m, steps[0], start);
      RunKeeps(c, Next(c, m, steps[0]), steps[1..], start);
    }
  }

  lemma InvBounds(c: Window, m: Meter, start: real)
    requires Inv(c, m, start)
    ensures m.remaining as real >= c.limit as real * c.safetyBuffer + start
                                   - (2 * c.workers + 2 + c.lag + m.lookups) as real
  {
    assert m.rate * m.left >= 0.0;
    assert Usable(c.limit, m.remaining, c.safetyBuffer) >= Potential(c, m);
    assert Slack(c, m) == (2 * c.workers + 2 + c.lag + m.lookups) as real;
  }

  /** The part of the reserve that is already gone when the window opens, if any. */
  function Deficit(limit: int, remaining: int, safetyBuffer: real): (d: real)
    ensures d <= 0.0 && d <= Usable(limit, remaining, safetyBuffer)
    ensures Usable(limit, remaining, safetyBuffer) >= 0.0 ==> d == 0.0
  {
    Min(Usable(limit, remaining, safetyBuffer), 0.0)
  }

  lemma OpeningHolds(c: Window, remaining: int, seen: int, left: real)
    requires left >= 0.0 && c.perPermit <= 2 && seen <= remaining + c.lag
    ensures Inv(c, Opening(remaining, seen, left), Deficit(c.limit, remaining, c.safetyBuffer))
  {
    var m := Opening(remaining, seen, left);
    assert 2.0 * m.rate * m.left == 0.0;
    assert Potential(c, m) == Usable(c.limit, remaining, c.safetyBuffer) - 2.0;
    assert Slack(c, m) >= 2.0;
  }

  /** The reserve is kept: up to the reset, after any refreshes, and if a permit leads to at most
      two requests, the server's count stays above the reserve less 2 requests per worker, 2 for
      the bucket, the header lag and the handler's lookups (and less the deficit the window
      started with, if any). */
  lemma ReserveIsKept(c: Window, remaining: int, seen: int, left: real, steps: seq<Step>)
    requires left >= 0.0 && c.perPermit <= 2 && seen <= remaining + c.lag
    ensures var m := Run(c, Opening(remaining, seen, left), steps);
            m.remaining as real >= c.limit as real * c.safetyBuffer + Deficit(c.limit, remaining, c.safetyBuffer)
                                   - (2 * c.workers + 2 + c.lag + m.lookups) as real
  {
    hide *;
    var start := Deficit(c.limit, remaining, c.safetyBuffer);
    OpeningHolds(c, remaining, seen, left);
    RunKeeps(c, Opening(remaining, seen, left), steps, start);
    InvBounds(c, Run(c, Opening(remaining, seen, left), steps), start);
  }

  /** One worker, exact headers, no lookups, and a window that opens above the reserve: the
      count is never more than 4 below Limit * safetyBuffer in the run. */
  ghost predicate WithinFour(limit: int, safetyBuffer: real, perPermit: nat, remaining: int, seen: int, left: real,
                             steps: seq<Step>) {
    && left >= 0.0 && seen <= remaining && Usable(limit, remaining, safetyBuffer) >= 0.0
    && (forall s :: s in steps ==> s != Lookup) ==>
      Run(Window(limit, safetyBuffer, 1, perPermit, 0), Opening(remaining, seen, left), steps).remaining as real
      >= limit as real * safetyBuffer - 4.0
  }

  /** That bound of 4 holds of every run if and only if a permit leads to at most two requests. */
  lemma WithinFourExactly(perPermit: nat)
    ensures (forall limit, safetyBuffer, remaining, seen, left, steps ::
               WithinFour(limit, safetyBuffer, perPermit, remaining, seen, left, steps))
            <==> perPermit <= 2
  {
    if perPermit <= 2 {
      forall limit, safetyBuffer, remaining, seen, left, steps
        ensures WithinFour(limit, safetyBuffer, perPermit, remaining, seen, left, steps)
      {
        OneWorkerStaysWithinFour(limit, safetyBuffer, perPermit, remaining, seen, left, steps);
      }
    } else {
      MorePerPermitSpendsTheReserve(perPermit, 5);
      var n := 5;
      var r := perPermit * n + 2 * n;
      assert !WithinFour(2 * perPermit * n, 0.5, perPermit, r, r, n as real, Spend(perPermit, n));
    }
  }

  lemma OneWorkerStaysWithinFour(limit: int, safetyBuffer: real, perPermit: nat, remaining: int, seen: int,
                                 left: real, steps: seq<Step>)
    requires perPermit <= 2
    ensures WithinFour(limit, safetyBuffer, perPermit, remaining, seen, left, steps)
  {
    if left >= 0.0 && seen <= remaining && Usable(limit, remaining, safetyBuffer) >= 0.0
       && forall s :: s in steps ==> s != Lookup
    {
      var c := Window(limit, safetyBuffer, 1, perPermit, 0);
      ReserveIsKept(c, remaining, seen, left, steps);
      NoLookups(c, Opening(remaining, seen, left), steps);
    }
  }

  // ---- More than two requests per permit ----

  function Repeat(s: Step, n: nat): seq<Step> {
    seq(n, _ => s)
  }

  /** One permit a second, used to the full; the first refresh is the only one. */
  function Second(k: nat): seq<Step> {
    [Elapse(1.0), Permit] + Repeat(Send, k)
  }

  /** The answers show what the server counts after all of them. */
  function Answers(k: nat, remaining: int): seq<Step> {
    Repeat(Respond(remaining), k)
  }

  function Rounds(k: nat, remaining: int, n: nat): seq<Step>
    decreases n
  {
    if n == 0 then []
    else Second(k) + Answers(k, remaining - k) + Rounds(k, remaining - k, n - 1)
  }

  /** The bucket's first permit is left unused until a second has passed. */
  function Spend(k: nat, n: nat): seq<Step> {
    [Refreshed(false)] + Rounds(k, k * n + 2 * n, n)
  }

  lemma {:induction false} RunConcat(c: Window, m: Meter, a: seq<Step>, b: seq<Step>)
    ensures Run(c, m, a + b) == Run(c, Run(c, m, a), b)
    decreases a
  {
    if a == [] {
      assert a + b == b;
    } else {
      assert (a + b)[1..] == a[1..] + b;
      RunConcat(c, Next(c, m, a[0]), a[1..], b);
    }
  }

  lemma {:induction false} RunSends(c: Window, m: Meter, n: nat)
    requires n <= m.outstanding
    ensures Run(c, m, Repeat(Send, n))
            == m.(outstanding := m.outstanding - n, inFlight := m.inFlight + n, remaining := m.remaining - n)
    decreases n
  {
    if n > 0 {
      assert Repeat(Send, n)[1..] == Repeat(Send, n - 1);
      RunSends(c, Next(c, m, Send), n - 1);
    }
  }

  lemma {:induction false} RunAnswers(c: Window, m: Meter, n: nat)
    requires n <= m.inFlight
    ensures Run(c, m, Repeat(Respond(m.remaining), n))
            == m.(inFlight := m.inFlight - n, seen := if n == 0 then m.seen else m.remaining)
    decreases n
  {
    if n > 0 {
      assert Repeat(Respond(m.remaining), n)[1..] == Repeat(Respond(m.remaining), n - 1);
      RunAnswers(c, Next(c, m, Respond(m.remaining)), n - 1);
    }
  }

  lemma RoundSpends(c: Window, m: Meter)
    requires c.workers == 1 && c.perPermit > 0
    requires m.outstanding == 0 && m.inFlight == 0 && 0.0 <= m.tokens <= 1.0 && m.rate == 1.0 && m.left >= 1.0
    ensures var k := c.perPermit;
            Run(c, m, Second(k) + Answers(k, m.remaining - k))
            == m.(remaining := m.remaining - k, seen := m.remaining - k, left := m.left - 1.0, tokens := 0.0)
  {
    var k := c.perPermit;
    var m1 := Next(c, m, Elapse(1.0));
    assert m.rate * 1.0 == 1.0 && m1 == m.(tokens := 1.0, left := m.left - 1.0);
    var m2 := Next(c, m1, Permit);
    assert m2 == m1.(tokens := 0.0, outstanding := k);
    var p := [Elapse(1.0), Permit];
    assert Run(c, m, p) == m2 by { assert p[1..] == [Permit] && p[1..][1..] == []; }
    hide Next;
    RunConcat(c, m, p, Repeat(Send, k));
    RunSends(c, m2, k);
    RunConcat(c, m, Second(k), Answers(k, m.remaining - k));
    RunAnswers(c, Run(c, m, Second(k)), k);
  }

  lemma {:induction false} RoundsSpend(c: Window, m: Meter, n: nat)
    requires c.workers == 1 && c.perPermit > 0
    requires m.outstanding == 0 && m.inFlight == 0 && 0.0 <= m.tokens <= 1.0 && m.rate == 1.0 && m.left >= n as real
    ensures Run(c, m, Rounds(c.perPermit, m.remaining, n)).remaining == m.remaining - c.perPermit * n
    decreases n
  {
    if n > 0 {
      var k := c.perPermit;
      RoundSpends(c, m);
      hide Next, Second, Answers;
      RunConcat(c, m, Second(k) + Answers(k, m.remaining - k), Rounds(k, m.remaining - k, n - 1));
      var v := m.(remaining := m.remaining - k, seen := m.remaining - k, left := m.left - 1.0, tokens := 0.0);
      RoundsSpend(c, v, n - 1);
      assert k * n == k + k * (n - 1);
    }
  }

  /** With k > 2 requests per permit there is a run of one worker with exact headers and no lookups
      that spends (k - 2) * n of the reserve, for every n: its only refresh grants one permit a
      second for n seconds. */
  lemma MorePerPermitSpendsTheReserve(k: nat, n: nat)
    requires k > 2 && n > 0
    ensures var c := Window(2 * k * n, 0.5, 1, k, 0);
            && Usable(c.limit, k * n + 2 * n, 0.5) == (2 * n) as real
            && Run(c, Opening(k * n + 2 * n, k * n + 2 * n, n as real), Spend(k, n)).remaining as real
               == c.limit as real * c.safetyBuffer - ((k - 2) * n) as real
            && forall s :: s in Spend(k, n) ==> s != Lookup
  {
    var c, r := Window(2 * k * n, 0.5, 1, k, 0), k * n + 2 * n;
    var m := Opening(r, r, n as real);
    assert c.limit as real * 0.5 == (k * n) as real;
    OnePermitASecond(c.limit, r, n);
    var v := Next(c, m, Refreshed(false));
    assert v == m.(rate := 1.0);
    RoundsSpend(c, v, n);
    assert Spend(k, n)[1..] == Rounds(k, r, n);
    assert r - k * n == 2 * n && k * n - (k - 2) * n == 2 * n;
    RoundsLookNothingUp(k, r, n);
  }

  lemma OnePermitASecond(limit: int, remaining: int, n: nat)
    requires n > 0 && Usable(limit, remaining, 0.5) == (2 * n) as real
    ensures Rate(limit, remaining, 0.5, n as real) == 1.0
  {
    var b := n as real;
    assert (2 * n) as real == 2.0 * b;
    TwiceOver(b);
  }

  lemma TwiceOver(b: real)
    requires b > 0.0
    ensures 2.0 * b / b == 2.0
  {
  }

  lemma {:induction false} RoundsLookNothingUp(k: nat, remaining: int, n: nat)
    ensures forall s :: s in Rounds(k, remaining, n) ==> s != Lookup
    decreases n
  {
    if n > 0 { RoundsLookNothingUp(k, remaining - k, n - 1); }
  }

  lemma {:induction false} NoLookups(c: Window, m: Meter, steps: seq<Step>)
    requires forall s :: s in steps ==> s != Lookup
    ensures Run(c, m, steps).lookups == m.lookups
    decreases steps
  {
    if steps != [] {
      assert forall s :: s in steps[1..] ==> s in steps;
      assert steps[0] in steps;
      NoLookups(c, Next(c, m, steps[0]), steps[1..]);
    }
  }

  /** What a freeze is for: until the next Refresh the scanner sends no more than the requests
      it was already permitted and those of the one permit left in the bucket. */
  lemma FreezeStopsTheScanner(c: Window, m: Meter, steps: seq<Step>)
    requires m.tokens <= 1.0 && forall s :: s in steps ==> !s.Refreshed?
    ensures var v := Run(c, Next(c, m, Frozen), steps);
            v.remaining >= m.remaining - m.outstanding - (if m.tokens >= 1.0 then c.perPermit else 0)
                           - (v.lookups - m.lookups)
  {
    FrozenSpends(c, Next(c, m, Frozen), steps);
  }

  lemma {:induction false} FrozenSpends(c: Window, m: Meter, steps: seq<Step>)
    requires m.tokens <= 1.0 && m.rate == 0.0 && forall s :: s in steps ==> !s.Refreshed?
    ensures var v := Run(c, m, steps);
            v.remaining >= m.remaining - m.outstanding - (if m.tokens >= 1.0 then c.perPermit else 0)
                           - (v.lookups - m.lookups)
    decreases steps
  {
    if steps != [] {
      assert steps[0] in steps && forall s :: s in steps[1..] ==> s in steps;
      FrozenStep(c, m, steps[0]);
      hide Next;
      FrozenSpends(c, Next(c, m, steps[0]), steps[1..]);
    }
  }

  function Left(c: Window, m: Meter): int {
    m.remaining + m.lookups - m.outstanding - (if m.tokens >= 1.0 then c.perPermit else 0)
  }

  lemma FrozenStep(c: Window, m: Meter, s: Step)
    requires m.tokens <= 1.0 && m.rate == 0.0 && !s.Refreshed?
    ensures var v := Next(c, m, s); v.tokens <= 1.0 && v.rate == 0.0 && Left(c, v) >= Left(c, m)
  {
    if s.Elapse? { assert m.rate * s.seconds == 0.0; }
  }
}
