/** The conversion of a 64-bit integer score to the float64 score of a Redis sorted set member: binary64
    has 53 significant bits and rounds to nearest, ties to even. */
module Float64 {
  const TWO_52 := 0x10_0000_0000_0000
  const TWO_53 := 0x20_0000_0000_0000

  function Pow2(e: nat): (p: nat)
    ensures p > 0
  {
    if e == 0 then 1 else 2 * Pow2(e - 1)
  }

  /** The number of low bits of `n` beyond 53. */
  function Excess(n: nat): nat {
    if n < TWO_53 then 0 else 1 + Excess(n / 2)
  }

  /** q * u + r rounded to a multiple of `u`, to nearest, ties to even. */
  function RoundParts(q: nat, r: nat, u: nat): nat {
    if 2 * r > u || (2 * r == u && q % 2 == 1) then (q + 1) * u else q * u
  }

  function RoundTo(n: nat, u: nat): nat
    requires u > 0
  {
    RoundParts(n / u, n % u, u)
  }

  function RoundNat(n: nat): nat {
    RoundTo(n, Pow2(Excess(n)))
  }

  function ToFloat(n: int): int {
    if n >= 0 then RoundNat(n) else 0 - RoundNat(-n)
  }

  lemma {:induction false} ExcessBounds(n: nat)
    ensures n < TWO_53 * Pow2(Excess(n))
    ensures Excess(n) > 0 ==> n >= TWO_52 * Pow2(Excess(n))
  {
    if n >= TWO_53 {
      ExcessBounds(n / 2);
    }
  }

  lemma {:induction false} Pow2Grows(d: nat, e: nat)
    requires d < e
    ensures 2 * Pow2(d) <= Pow2(e)
  {
    if d + 1 < e {
      Pow2Grows(d, e - 1);
    }
  }

  lemma TimesMonotone(a: int, b: int, u: nat)
    requires a <= b
    ensures a * u <= b * u
  {
  }

  lemma CancelTimes(a: int, b: int, u: nat)
    requires a * u < b * u
    ensures a < b
  {
    if b <= a {
      TimesMonotone(b, a, u);
    }
  }

  lemma Division(n: nat, u: nat) returns (q: nat, r: nat)
    requires u > 0
    ensures q == n / u && r == n % u && n == q * u + r && r < u
    ensures q * u <= n < (q + 1) * u
    ensures RoundTo(n, u) == RoundParts(q, r, u)
  {
    q, r := n / u, n % u;
    assert (q + 1) * u == q * u + u;
  }

  lemma PartsMonotone(q: nat, r: nat, s: nat, t: nat, u: nat)
    requires q < s || (q == s && r <= t)
    ensures RoundParts(q, r, u) <= RoundParts(s, t, u)
  {
    TimesMonotone(q, q + 1, u);
    TimesMonotone(s, s + 1, u);
    if q < s {
      TimesMonotone(q + 1, s, u);
    }
  }

  lemma RoundToMonotone(m: nat, n: nat, u: nat)
    requires u > 0 && m <= n
    ensures RoundTo(m, u) <= RoundTo(n, u)
  {
    var q, r := Division(m, u);
    var s, t := Division(n, u);
    CancelTimes(q, s + 1, u);
    PartsMonotone(q, r, s, t, u);
  }

  /** A number below k units rounds to at most k units; one of at least k units rounds to no less. */
  lemma RoundToLimit(n: nat, u: nat, k: nat)
    requires u > 0
    ensures n < k * u ==> RoundTo(n, u) <= k * u
    ensures n >= k * u ==> RoundTo(n, u) >= k * u
  {
    var q, r := Division(n, u);
    TimesMonotone(q, q + 1, u);
    if n < k * u {
      CancelTimes(q, k, u);
      TimesMonotone(q + 1, k, u);
    } else {
      CancelTimes(k, q + 1, u);
      TimesMonotone(k, q, u);
    }
  }

  lemma RoundNatMonotone(m: nat, n: nat)
    requires m <= n
    ensures RoundNat(m) <= RoundNat(n)
  {
    var d, e := Excess(m), Excess(n);
    ExcessBounds(m);
    ExcessBounds(n);
    if d == e {
      RoundToMonotone(m, n, Pow2(d));
    } else if d < e {
      Pow2Grows(d, e);
      RoundToLimit(m, Pow2(d), TWO_53);
      RoundToLimit(n, Pow2(e), TWO_52);
    } else {
      Pow2Grows(e, d);
    }
  }

  /** Conversion keeps order, though not strict order. */
  lemma ToFloatMonotone(m: int, n: int)
    requires m <= n
    ensures ToFloat(m) <= ToFloat(n)
  {
    if 0 <= m {
      RoundNatMonotone(m, n);
    } else if n < 0 {
      RoundNatMonotone(-n, -m);
    }
  }

  function Magnitude(n: int): nat {
    if n >= 0 then n else -n
  }

  lemma NearestNat(n: nat) returns (k: nat, u: nat)
    ensures u == Pow2(Excess(n)) && n < TWO_53 * u && (u > 1 ==> n >= TWO_52 * u)
    ensures RoundNat(n) == k * u && 0 - u <= 2 * (RoundNat(n) - n) <= u
    ensures 2 * (RoundNat(n) - n) == u || 2 * (n - RoundNat(n)) == u ==> k % 2 == 0
  {
    u := Pow2(Excess(n));
    ExcessBounds(n);
    var q, r := Division(n, u);
    k := if 2 * r > u || (2 * r == u && q % 2 == 1) then q + 1 else q;
    assert (q + 1) * u == q * u + u;
  }

  /** What binary64 promises of every 64-bit score, negative ones included: with `u` the spacing of the floats at
      `n`, the result is a multiple k * u no further from `n` than half of `u`, and an even one on a tie. */
  lemma NearestFloat(n: int) returns (k: int, u: nat)
    ensures u == Pow2(Excess(Magnitude(n))) && Magnitude(n) < TWO_53 * u && (u > 1 ==> Magnitude(n) >= TWO_52 * u)
    ensures ToFloat(n) == k * u && 0 - u <= 2 * (ToFloat(n) - n) <= u
    ensures 2 * (ToFloat(n) - n) == u || 2 * (n - ToFloat(n)) == u ==> k % 2 == 0
  {
    k, u := NearestNat(Magnitude(n));
    if n < 0 {
      k := -k;
      assert k * u == 0 - (-k) * u;
    }
  }

  /** Scores of magnitude at most 2^53 convert exactly. */
  lemma ToFloatExact(n: int)
    requires -TWO_53 <= n <= TWO_53
    ensures ToFloat(n) == n
  {
    var k := if n >= 0 then n else -n;
    if k == TWO_53 {
      assert Excess(k) == 1 + Excess(TWO_52);
      assert Pow2(1) == 2 * Pow2(0) == 2;
    } else {
      assert Pow2(Excess(k)) == 1;
    }
  }

  /** The next score converts to the same float. */
  lemma FirstCollision()
    ensures ToFloat(TWO_53 + 1) == ToFloat(TWO_53)
  {
    ToFloatExact(TWO_53);
    assert Excess(TWO_53 + 1) == 1 + Excess(TWO_52);
    assert Pow2(1) == 2 * Pow2(0) == 2;
  }
}
