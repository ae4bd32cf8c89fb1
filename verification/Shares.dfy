/** Shares in parts per billion, by the contracts the reward arithmetic relies on. */
module Shares {
  const BILLION: nat := 1_000_000_000

  type Share = n: nat | n <= BILLION

  /** The share of a zero total; the library decides, and nothing below depends on its choice. */
  const SHARE_OF_NOTHING: Share

  /** `p / q` as a share, rounded down, and at most the whole. */
  function FromRational(p: nat, q: nat): Share {
    if q == 0 then SHARE_OF_NOTHING
    else if p >= q then BILLION
    else
      QuotientFits(p, q);
      p * BILLION / q
  }

  lemma QuotientFits(p: nat, q: nat)
    requires p < q
    ensures 0 <= p * BILLION / q <= BILLION
  {
    DivisionRounds(p * BILLION, q);
    Scale(p, q, BILLION);
    Unscale(p * BILLION / q, BILLION, q);
  }

  lemma Unscale(a: int, b: int, k: nat)
    requires k > 0 && k * a <= k * b
    ensures a <= b
  {
    if a > b {
      ScaleMore(a, b, k);
    }
  }

  lemma ScaleMore(a: int, b: int, k: nat)
    requires k > 0 && a > b
    ensures k * a > k * b
  {
    assert k * (a - b) >= k by { Scale(1, a - b, k); }
  }

  lemma DivisionRounds(n: nat, q: nat)
    requires q > 0
    ensures 0 <= n / q && q * (n / q) <= n < q * (n / q) + q
  {
  }

  /** A share of an amount, rounded to the nearest, ties down. */
  function Part(share: Share, x: nat): nat {
    var n := share * x;
    if 2 * (n % BILLION) > BILLION then n / BILLION + 1 else n / BILLION
  }

  /** Rounding changes the result by no more than a half. */
  lemma PartIsNearest(share: Share, x: nat)
    ensures 2 * share * x - BILLION <= 2 * BILLION * Part(share, x) <= 2 * share * x + BILLION
  {
    var n := share * x;
    assert n == BILLION * (n / BILLION) + n % BILLION;
    assert 2 * share * x == 2 * n;
  }

  /** A part is never more than the whole. */
  lemma PartFits(share: Share, x: nat)
    ensures Part(share, x) <= x
  {
    var n := share * x;
    assert n <= BILLION * x;
    assert n == BILLION * (n / BILLION) + n % BILLION;
  }

  lemma FromRationalRoundsDown(p: nat, q: nat)
    requires q > 0
    ensures FromRational(p, q) * q <= p * BILLION
    ensures p <= q ==> p * BILLION < FromRational(p, q) * q + q
  {
    DivisionRounds(p * BILLION, q);
    if p >= q {
      assert BILLION * q <= p * BILLION;
    }
  }

  /** A share `p / q` of an amount exceeds the exact portion by no more than a half. */
  lemma PortionBound(p: nat, q: nat, x: nat)
    requires q > 0
    ensures 2 * q * Part(FromRational(p, q), x) <= 2 * x * p + q
  {
    var share := FromRational(p, q);
    var part := Part(share, x);
    PartIsNearest(share, x);
    FromRationalRoundsDown(p, q);
    Scale(2 * BILLION * part, 2 * share * x + BILLION, q);
    Scale(share * q, p * BILLION, 2 * x);
    PortionAlgebra(p, q, x, share, part);
  }

  lemma Scale(a: int, b: int, k: nat)
    requires a <= b
    ensures k * a <= k * b
  {
  }

  lemma PortionAlgebra(p: nat, q: nat, x: nat, share: nat, part: nat)
    requires q * (2 * BILLION * part) <= q * (2 * share * x + BILLION)
    requires 2 * x * (share * q) <= 2 * x * (p * BILLION)
    ensures 2 * q * part <= 2 * x * p + q
  {
    assert q * (2 * BILLION * part) == BILLION * (2 * q * part);
    assert q * (2 * share * x + BILLION) == 2 * x * (share * q) + BILLION * q by {
      assert q * (2 * share * x) == 2 * x * (share * q);
    }
    assert 2 * x * (p * BILLION) == BILLION * (2 * x * p);
    assert BILLION * (2 * q * part) <= BILLION * (2 * x * p + q);
  }
}
