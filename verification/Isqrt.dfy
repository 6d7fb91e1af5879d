/** The integer square root of the AMM module, in 128-bit arithmetic with overflow checks. */
module IntegerSqrt {
  import opened Wrappers
  import opened Division

  newtype i128 = x: int | -0x8000_0000_0000_0000_0000_0000_0000_0000 <= x < 0x8000_0000_0000_0000_0000_0000_0000_0000

  const I128_MAX: i128 := 0x7FFF_FFFF_FFFF_FFFF_FFFF_FFFF_FFFF_FFFF

  ghost predicate IsFloorSqrt(r: int, n: int) {
    0 <= r && r * r <= n < (r + 1) * (r + 1)
  }

  lemma SquareMonotone(a: int, b: int)
    requires 0 <= a <= b
    ensures a * a <= b * b
  {
    MulLeft(a, a, b);
    MulLeft(b, a, b);
  }

  /** A floor square root exists for every non-negative number. */
  lemma {:induction false} FloorSqrtExists(n: nat) returns (r: nat)
    ensures IsFloorSqrt(r, n)
  {
    if n == 0 {
      r := 0;
    } else {
      r := FloorSqrtExists(n - 1);
      if (r + 1) * (r + 1) == n {
        SquareMonotone(r + 1, r + 2);
        r := r + 1;
      }
    }
  }

  /** The arithmetic mean of x and n / x is never below the root. */
  lemma NewtonAbove(n: nat, r: nat, x: int)
    requires IsFloorSqrt(r, n) && x > 0
    ensures r <= (x + n / x) / 2
  {
    MeanSquares(r, x);
    FloorGreatest(n, x, 2 * r - x);
  }

  lemma MeanSquares(r: int, x: int)
    ensures x * (2 * r - x) <= r * r
  {
    var gap := x - r;
    assert gap * gap >= 0;
    assert x * (2 * r - x) == (r + gap) * (r - gap) == r * r - gap * gap;
  }

  /** When the mean does not fall below x, x is no larger than the root. */
  lemma NewtonStops(n: nat, r: nat, x: int)
    requires IsFloorSqrt(r, n) && x > 0 && (x + n / x) / 2 >= x
    ensures x <= r
  {
    FloorBounds(n, x);
    MulLeft(x, x, n / x);
    if x > r {
      SquareMonotone(r + 1, x);
      assert false;
    }
  }

  /**
   * The Newton loop. Every intermediate value is an `i128`: `x + 1` is the only operation that can
   * leave the range, and only for the largest input, where the call traps.
   */
  method Isqrt(n: i128) returns (root: Option<i128>)
    ensures root.None? <==> n == I128_MAX
    ensures n < 0 ==> root == Some(0)
    ensures 0 <= n < I128_MAX ==> root.Some? && IsFloorSqrt(root.value as int, n as int)
  {
    if n < 0 { return Some(0); }
    if n == 0 { return Some(0); }
    if n == I128_MAX { return None; }
    ghost var r := FloorSqrtExists(n as int);
    var x := n;
    var y := (x + 1) / 2;
    FirstGuess(n as int, r);
    while y < x
      invariant 0 < x <= n && 0 < y
      invariant r <= x as int && r <= y as int
      invariant y < x || (x as int + n as int / x as int) / 2 >= x as int
      decreases x
    {
      NewtonAbove(n as int, r, y as int);
      QuotientBound(n as int, y as int, x as int);
      x := y;
      y := (x + n / x) / 2;
    }
    NewtonStops(n as int, r, x as int);
    return Some(x);
  }

  lemma FirstGuess(n: int, r: nat)
    requires n > 0 && IsFloorSqrt(r, n)
    ensures 0 < r <= (n + 1) / 2
    ensures (n + 1) / 2 >= n ==> (n + n / n) / 2 >= n
    ensures r <= n
  {
    assert n / n == 1 by { FloorBounds(n, n); FloorGreatest(n, n, 1); FloorLeast(n, n, 1); }
    NewtonAbove(n, r, n);
  }

  /** The next mean stays within range: the quotient by y adds to y at most n + 1. */
  lemma QuotientBound(n: int, y: int, x: int)
    requires 0 < y < x <= n
    ensures 0 <= n / y <= n && y + n / y <= n + 1
  {
    FloorBounds(n, y);
    FloorGreatest(n, y, 0);
    MulLeft(n, 1, y);
    FloorLeast(n, y, n);
    // y + n/y <= n + 1, from (y - 1) * (n - y) >= 0
    assert (y - 1) * (n - y) >= 0;
    assert y * (n + 1 - y) == n + (y - 1) * (n - y);
    FloorLeast(n, y, n + 1 - y);
  }
}
