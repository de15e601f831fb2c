/** Exponential backoff: the broker's retry tiers and the mailer's in-process waits. */
module Backoff {

  function Pow(f: nat, n: nat): nat {
    if n == 0 then 1 else f * Pow(f, n - 1)
  }

  datatype RetryPolicy = RetryPolicy(baseMs: nat, factor: nat, tiers: nat)

  /** NewRetryPolicy clamps the factor to at least 1 and the tier count to at least 0. */
  function NewRetryPolicy(baseMs: nat, factor: int, tiers: int): (p: RetryPolicy)
    ensures p.baseMs == baseMs
    ensures p.factor >= 1 && p.factor >= factor && (p.factor == factor || p.factor == 1)
    ensures p.tiers >= tiers && (p.tiers == tiers || p.tiers == 0)
  {
    RetryPolicy(baseMs, if factor < 1 then 1 else factor, if tiers < 0 then 0 else tiers)
  }

  // ---- int64 arithmetic ----

  const TWO64: int := 0x1_0000_0000_0000_0000
  const TWO63: int := 0x8000_0000_0000_0000

  function Wrap64(x: int): (w: int)
    ensures -TWO63 <= w < TWO63
    ensures -TWO63 <= x < TWO63 ==> w == x
  {
    (x + TWO63) % TWO64 - TWO63
  }

  lemma ModUnique(b: int, q: int, r: int, m: int)
    requires 0 <= r < m && b == q * m + r
    ensures b % m == r
  {
    var d := b / m - q;
    assert d * m == r - b % m by {
      assert b == (b / m) * m + b % m;
      assert d * m == (b / m) * m - q * m;
    }
    assert d >= 1 ==> d * m >= m;
    assert d <= -1 ==> d * m <= -m;
  }

  lemma WrapShift(x: int, k: int)
    ensures Wrap64(x + k * TWO64) == Wrap64(x)
  {
    var a := x + TWO63;
    ModUnique(a + k * TWO64, a / TWO64 + k, a % TWO64, TWO64);
  }

  lemma WrapProduct(x: int, f: int)
    ensures Wrap64(Wrap64(x) * f) == Wrap64(x * f)
  {
    var k := (x + TWO63) / TWO64;
    assert Wrap64(x) == x - k * TWO64;
    assert Wrap64(x) * f == x * f + (-(k * f)) * TWO64 by {
      assert (x - k * TWO64) * f == x * f - (k * f) * TWO64;
    }
    WrapShift(x * f, -(k * f));
  }

  function TierTTL(p: RetryPolicy, tier: nat): int {
    Wrap64(p.baseMs * Pow(p.factor, tier))
  }

  lemma TierTTLStep(p: RetryPolicy, tier: nat)
    ensures p.baseMs < TWO63 ==> TierTTL(p, 0) == p.baseMs
    ensures Wrap64(TierTTL(p, tier) * p.factor) == TierTTL(p, tier + 1)
  {
    hide Wrap64;
    var b, f, x := p.baseMs, p.factor, Pow(p.factor, tier);
    assert b * x * f == b * (f * x);
    WrapProduct(b * x, f);
    WrapSmall(b);
    assert b * Pow(f, 0) == b;
  }

  lemma WrapSmall(x: int)
    ensures -TWO63 <= x < TWO63 ==> Wrap64(x) == x
  {
  }

  /** tierTTLms: the product base * factor^tier, taken in int64 with wrap-around. */
  method TierTTLms(p: RetryPolicy, tier: nat) returns (ms: int)
    requires p.baseMs < TWO63
    ensures ms == TierTTL(p, tier)
  {
    hide TierTTL, Wrap64;
    ms := p.baseMs;
    TierTTLStep(p, 0);
    for i := 0 to tier
      invariant ms == TierTTL(p, i)
    {
      TierTTLStep(p, i);
      ms := Wrap64(ms * p.factor);
    }
  }

  /** declareEndpoint: one wait queue per tier, each returning to the main queue. The
      result maps a tier to its TTL. */
  method DeclareTiers(p: RetryPolicy) returns (ttl: map<nat, int>)
    requires p.baseMs < TWO63
    ensures forall i: nat :: i in ttl <==> i < p.tiers
    ensures forall i: nat :: i < p.tiers ==> ttl[i] == TierTTL(p, i)
  {
    hide TierTTL;
    ttl := map[];
    for tier := 0 to p.tiers
      invariant forall i: nat :: i in ttl <==> i < tier
      invariant forall i: nat :: i < tier ==> ttl[i] == TierTTL(p, i)
    {
      var ms := TierTTLms(p, tier);
      ttl := ttl[tier := ms];
    }
  }

  // ---- Closed forms ----

  function TotalWait(base: nat, f: nat, n: nat): nat {
    if n == 0 then 0 else TotalWait(base, f, n - 1) + base * Pow(f, n - 1)
  }

  /** Passing through all tiers waits base*(f^n - 1)/(f - 1), and base*n when the factor is 1. */
  lemma {:induction false} TotalWaitClosedForm(base: nat, f: nat, n: nat)
    requires f >= 1
    ensures TotalWait(base, f, n) * (f - 1) == base * (Pow(f, n) - 1)
    ensures f == 1 ==> TotalWait(base, f, n) == base * n
    ensures Pow(f, n) >= 1
  {
    if n > 0 {
      TotalWaitClosedForm(base, f, n - 1);
      var p, t := Pow(f, n - 1), TotalWait(base, f, n - 1);
      GeometricStep(base, f, p, t);
      if f == 1 { PowOne(n - 1); }
    }
  }

  lemma GeometricStep(base: nat, f: nat, p: nat, t: nat)
    requires f >= 1 && p >= 1 && t * (f - 1) == base * (p - 1)
    ensures (t + base * p) * (f - 1) == base * (f * p - 1)
    ensures f * p >= 1
  {
    assert (t + base * p) * (f - 1) == t * (f - 1) + (base * p) * (f - 1);
    assert (base * p) * (f - 1) == base * (p * f) - base * p;
    assert base * (p - 1) == base * p - base;
    assert base * (f * p - 1) == base * (f * p) - base;
    assert p * f == f * p;
  }

  lemma {:induction false} PowOne(n: nat)
    ensures Pow(1, n) == 1
  {
    if n > 0 { PowOne(n - 1); }
  }

  /** A later tier never waits less. */
  lemma {:induction false} TiersNeverShrink(base: nat, f: nat, i: nat, j: nat)
    requires f >= 1 && i <= j
    ensures base * Pow(f, i) <= base * Pow(f, j)
  {
    if i < j {
      TiersNeverShrink(base, f, i, j - 1);
      var p := Pow(f, j - 1);
      assert base * (f * p) >= base * p by { assert f * p >= p; assert base * (f * p - p) >= 0; }
    }
  }

  /** For every factor the declared TTLs never decrease if the last one fits in int64. */
  lemma TTLsNeverShrink(p: RetryPolicy, i: nat, j: nat)
    requires p.factor >= 1 && i <= j < p.tiers && p.baseMs * Pow(p.factor, p.tiers - 1) < TWO63
    ensures 0 <= TierTTL(p, i) <= TierTTL(p, j)
  {
    hide Pow, Wrap64;
    TiersNeverShrink(p.baseMs, p.factor, i, j);
    TiersNeverShrink(p.baseMs, p.factor, j, p.tiers - 1);
    var x, y: nat := p.baseMs * Pow(p.factor, i), p.baseMs * Pow(p.factor, j);
    WrapSmall(x);
    WrapSmall(y);
  }

  /** The declared TTLs of a doubling policy never decrease exactly as long as the last one fits
      in int64: the first that does not comes out negative. */
  lemma DoublingTTLsNeverShrinkExactly(base: nat, tiers: nat)
    requires base < TWO63 && tiers >= 1
    ensures var p := RetryPolicy(base, 2, tiers);
            (forall i: nat, j: nat :: i <= j < tiers ==> TierTTL(p, i) <= TierTTL(p, j))
            <==> base * Pow(2, tiers - 1) < TWO63
  {
    var p := RetryPolicy(base, 2, tiers);
    if base * Pow(2, tiers - 1) < TWO63 {
      forall i: nat, j: nat | i <= j < tiers ensures TierTTL(p, i) <= TierTTL(p, j) {
        TTLsNeverShrink(p, i, j);
      }
    } else {
      var j := FirstTooLong(base, tiers - 1);
      assert TierTTL(p, j - 1) >= 0 > TierTTL(p, j);
    }
  }

  lemma {:induction false} FirstTooLong(base: nat, n: nat) returns (j: nat)
    requires base < TWO63 <= base * Pow(2, n)
    ensures 1 <= j <= n && base * Pow(2, j - 1) < TWO63 <= base * Pow(2, j) < TWO64
  {
    assert base * Pow(2, 0) == base;
    if base * Pow(2, n - 1) < TWO63 {
      j := n;
      assert base * Pow(2, n) == 2 * (base * Pow(2, n - 1));
    } else {
      j := FirstTooLong(base, n - 1);
    }
  }

  /** Doubling waits between n in-process tries add up to base*(2^(n-1) - 1). */
  lemma DoublingClosedForm(base: nat, n: nat)
    requires n >= 1
    ensures TotalWait(base, 2, n - 1) == base * (Pow(2, n - 1) - 1)
  {
    TotalWaitClosedForm(base, 2, n - 1);
  }

  /** All scheduled waiting between Subscribe's commit and the settled saga when nothing is
      lost: every notifier tier, every SMTP try, every report try, every saga tier. */
  function ScheduledWait(p: RetryPolicy, smtpBase: nat, smtpTries: nat, reportTries: nat): nat
    requires smtpTries >= 1 && reportTries >= 1
  {
    TotalWait(p.baseMs, p.factor, p.tiers) + TotalWait(smtpBase, 2, smtpTries - 1)
    + TotalWait(smtpBase, 2, reportTries - 1) + TotalWait(p.baseMs, p.factor, p.tiers)
  }

  /** What StaleAfter has to exceed, for every policy; both sides are multiplied by factor - 1, and
      a factor of 1 is given separately. */
  lemma ScheduledWaitBoundForFactor(p: RetryPolicy, smtpBase: nat, smtpTries: nat, reportTries: nat)
    requires p.factor >= 1 && smtpTries >= 1 && reportTries >= 1
    ensures var inProcess := smtpBase * (Pow(2, smtpTries - 1) + Pow(2, reportTries - 1) - 2);
            var wait := ScheduledWait(p, smtpBase, smtpTries, reportTries);
            && (wait - inProcess) * (p.factor - 1) == 2 * (p.baseMs * (Pow(p.factor, p.tiers) - 1))
            && (p.factor == 1 ==> wait == 2 * (p.baseMs * p.tiers) + inProcess)
  {
    hide Pow, TotalWait;
    TotalWaitClosedForm(p.baseMs, p.factor, p.tiers);
    DoublingClosedForm(smtpBase, smtpTries);
    DoublingClosedForm(smtpBase, reportTries);
    SameFactor(smtpBase, Pow(2, smtpTries - 1), Pow(2, reportTries - 1));
    TwiceTimes(TotalWait(p.baseMs, p.factor, p.tiers), p.factor - 1);
  }

  lemma SameFactor(x: int, a: int, b: int)
    ensures x * (a - 1) + x * (b - 1) == x * (a + b - 2)
  {
  }

  lemma TwiceTimes(t: int, f: int)
    ensures (2 * t) * f == 2 * (t * f)
  {
  }

  /** And for every doubling policy. */
  lemma ScheduledWaitBound(baseMs: nat, tiers: nat, smtpBase: nat, smtpTries: nat, reportTries: nat)
    requires smtpTries >= 1 && reportTries >= 1
    ensures ScheduledWait(RetryPolicy(baseMs, 2, tiers), smtpBase, smtpTries, reportTries)
            == 2 * baseMs * (Pow(2, tiers) - 1) + smtpBase * (Pow(2, smtpTries - 1) + Pow(2, reportTries - 1) - 2)
  {
    TotalWaitClosedForm(baseMs, 2, tiers);
    DoublingClosedForm(smtpBase, smtpTries);
    DoublingClosedForm(smtpBase, reportTries);
    var x: int, a: int, b: int := smtpBase, Pow(2, smtpTries - 1), Pow(2, reportTries - 1);
    assert x * (a - 1) + x * (b - 1) == x * (a + b - 2);
    assert 2 * baseMs * (Pow(2, tiers) - 1) == 2 * (baseMs * (Pow(2, tiers) - 1));
  }
}
