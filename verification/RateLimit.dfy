/** The transport that remembers the API's rate limits. Times are nanoseconds since year 1,
    so 0 is the zero time. */
module RateLimit {
  import opened Domain
  import Backoff

  const SECOND: int := 1_000_000_000
  const UNIX_EPOCH: int := 62_135_596_800 // seconds from year 1

  datatype RateLimits = RateLimits(limit: int, remaining: int, resetAt: int, retryAfter: int)

  predicate IsValid(rl: RateLimits) {
    rl.limit != -1 && rl.remaining != -1 && rl.resetAt != 0
  }

  function UnauthenticatedLimits(now: int): RateLimits {
    RateLimits(60, 60, now + 3600 * SECOND, 0)
  }

  datatype RetryHeader = Absent | Seconds(seconds: int) | HttpDate(time: int) | Garbage

  /** The headers of a response; None is a missing or unreadable number. */
  datatype Headers = Headers(limit: Option<int>, remaining: Option<int>, reset: Option<int>, retry: RetryHeader)

  function IntHeader(h: Option<int>): int {
    match h
    case Some(v) => v
    case None => -1
  }

  function ResetTime(h: Option<int>): int {
    match h
    case Some(unix) => (unix + UNIX_EPOCH) * SECOND
    case None => 0
  }

  /** A number of seconds is multiplied as an int64 duration. */
  function RetryAfterTime(h: RetryHeader, now: int): int {
    match h
    case Seconds(n) => now + Backoff.Wrap64(n * SECOND)
    case HttpDate(t) => t
    case _ => 0
  }

  function Extract(h: Headers, now: int): RateLimits {
    RateLimits(IntHeader(h.limit), IntHeader(h.remaining), ResetTime(h.reset), RetryAfterTime(h.retry, now))
  }

  function Merge(last: RateLimits, seen: RateLimits): RateLimits {
    var triple := if IsValid(seen) then seen else last;
    var retry := if seen.retryAfter != 0 && seen.retryAfter - last.retryAfter > SECOND
                 then seen.retryAfter else last.retryAfter;
    triple.(retryAfter := retry)
  }

  /** The three numbers are there, and none is the value that stands for a missing one. */
  predicate Whole(h: Headers) {
    && h.limit.Some? && h.limit.value != -1 && h.remaining.Some? && h.remaining.value != -1
    && h.reset.Some? && h.reset.value != -62_135_596_800
  }

  /** What a response does to the stored limits, header by header. */
  lemma MergedFromHeaders(last: RateLimits, h: Headers, now: int)
    ensures var v := Merge(last, Extract(h, now));
            && (Whole(h) ==>
                  && v.limit == h.limit.value && v.remaining == h.remaining.value
                  && v.resetAt == (h.reset.value + 62_135_596_800) * 1_000_000_000)
            && (!Whole(h) ==> v.limit == last.limit && v.remaining == last.remaining && v.resetAt == last.resetAt)
    ensures var v := Merge(last, Extract(h, now));
            match h.retry
            case Seconds(n) =>
              var t := now + Backoff.Wrap64(n * 1_000_000_000);
              v.retryAfter == if t != 0 && t > last.retryAfter + 1_000_000_000 then t else last.retryAfter
            case HttpDate(t) =>
              v.retryAfter == if t != 0 && t > last.retryAfter + 1_000_000_000 then t else last.retryAfter
            case _ => v.retryAfter == last.retryAfter
  {
  }

  class RateLimitTransport {
    var lastLimits: RateLimits

    constructor (baseLimits: RateLimits)
      ensures lastLimits == baseLimits
    {
      lastLimits := baseLimits;
    }

    /** RoundTrip; None is a transport error, which changes nothing. */
    method RoundTrip(response: Option<Headers>, now: int)
      modifies this
      ensures response.Some? && Whole(response.value) ==>
                && lastLimits.limit == response.value.limit.value
                && lastLimits.remaining == response.value.remaining.value
                && lastLimits.resetAt == (response.value.reset.value + 62_135_596_800) * 1_000_000_000
      ensures response.None? || !Whole(response.value) ==> SameTriple(lastLimits, old(lastLimits))
      ensures lastLimits == if response.Some? then Merge(old(lastLimits), Extract(response.value, now))
                            else old(lastLimits)
    {
      if response.None? { return; }
      MergedFromHeaders(lastLimits, response.value, now);
      var limits := Extract(response.value, now);
      if IsValid(limits) {
        lastLimits := lastLimits.(limit := limits.limit, remaining := limits.remaining, resetAt := limits.resetAt);
      }
      if limits.retryAfter != 0 && limits.retryAfter - lastLimits.retryAfter > SECOND {
        lastLimits := lastLimits.(retryAfter := limits.retryAfter);
      }
    }
  }

  function MergeAll(last: RateLimits, seen: seq<RateLimits>): RateLimits {
    if seen == [] then last else Merge(MergeAll(last, seen[..|seen| - 1]), seen[|seen| - 1])
  }

  predicate SameTriple(a: RateLimits, b: RateLimits) {
    a.limit == b.limit && a.remaining == b.remaining && a.resetAt == b.resetAt
  }

  /** The stored triple comes whole from the most recent valid response, or from the initial
      limits when there was none. */
  lemma {:induction false} TripleFromLastValid(last: RateLimits, seen: seq<RateLimits>, i: int)
    requires -1 <= i < |seen| && (i >= 0 ==> IsValid(seen[i]))
    requires forall j :: i < j < |seen| ==> !IsValid(seen[j])
    ensures SameTriple(MergeAll(last, seen), if i < 0 then last else seen[i])
  {
    var n := |seen| - 1;
    if n > i {
      assert forall j :: i < j < n ==> !IsValid(seen[..n][j]);
      TripleFromLastValid(last, seen[..n], i);
    }
  }

  /** The stored Retry-After never moves back, is always a value that was seen or the initial
      one, and stays within a second of the largest value seen. */
  lemma {:induction false} RetryAfterTracksTheMaximum(last: RateLimits, seen: seq<RateLimits>)
    ensures var r := MergeAll(last, seen).retryAfter;
            && (forall k :: 0 <= k <= |seen| ==> MergeAll(last, seen[..k]).retryAfter <= r)
            && (forall i :: 0 <= i < |seen| && seen[i].retryAfter != 0 ==> seen[i].retryAfter - SECOND <= r)
            && (r == last.retryAfter || exists i :: 0 <= i < |seen| && seen[i].retryAfter == r)
  {
    if seen == [] {
    } else {
      var n := |seen| - 1;
      var front := seen[..n];
      RetryAfterTracksTheMaximum(last, front);
      var m := MergeAll(last, front).retryAfter;
      assert MergeAll(last, seen).retryAfter >= m;
      forall k | 0 <= k <= |seen| ensures MergeAll(last, seen[..k]).retryAfter <= MergeAll(last, seen).retryAfter {
        if k <= n { assert seen[..k] == front[..k]; } else { assert seen[..k] == seen; }
      }
      forall i | 0 <= i < |seen| && seen[i].retryAfter != 0
        ensures seen[i].retryAfter - SECOND <= MergeAll(last, seen).retryAfter
      {
        if i < n { assert front[i] == seen[i]; }
      }
      var r := MergeAll(last, seen).retryAfter;
      if r == m && m != last.retryAfter {
        var i :| 0 <= i < |front| && front[i].retryAfter == m;
        assert seen[i].retryAfter == r;
      }
    }
  }
}
