/** The per-piece movement arithmetic of validateMove, on the file delta df
    and the rank delta dr of a move. */
module Geometry {

  function Abs(x: int): (a: nat)
    ensures a == x || a == -x
  {
    if x < 0 then -x else x
  }

  lemma MulNonNegative(x: int, y: int)
    requires x >= 0 && y >= 0
    ensures x * y >= 0
  {
  }

  lemma MulAtLeast(x: int, y: int)
    requires x >= 0 && y >= 1
    ensures x * y >= x
  {
    MulNonNegative(x, y - 1);
    assert x * y == x * (y - 1) + x;
  }

  lemma MulNegate(x: int, y: int)
    ensures (-x) * y == -(x * y) && x * (-y) == -(x * y)
  {
  }

  lemma DivPositive(a: nat, b: int)
    requires b > 0
    ensures a == (a / b) * b + a % b && 0 <= a % b < b
  {
  }

  /** C's integer division: the quotient is truncated toward zero, so the
      remainder takes the sign of the dividend (section 6.5.5 of ISO C99).
      Dafny's own `/` is Euclidean. */
  function CDiv(a: int, b: int): (q: int)
    requires b != 0
    ensures var r := a - q * b; Abs(r) < Abs(b) && (r == 0 || (r > 0 <==> a > 0))
  {
    if b > 0 then
      if a >= 0 then Quotient(a, b) as int
      else MulNegate(Quotient(-a, b), b); -(Quotient(-a, b) as int)
    else
      if a >= 0 then MulNegate(Quotient(a, -b), b); -(Quotient(a, -b) as int)
      else MulNegate(Quotient(-a, -b), b); Quotient(-a, -b) as int
  }

  /** The quotient of a non-negative dividend by a positive divisor. */
  function Quotient(a: nat, b: int): (q: nat)
    requires b > 0
    ensures 0 <= a - q * b < b
  {
    DivPositive(a, b);
    a / b
  }

  /** Knight: the product of the deltas is 2 or -2. */
  predicate KnightShape(df: int, dr: int) {
    df * dr == 2 || df * dr == -2
  }

  /** King: a straight move must change one coordinate by one; a slanted move
      must have a delta product of 1 or -1. */
  predicate KingShape(df: int, dr: int) {
    if df == 0 || dr == 0 then df == 1 || dr == 1 || df == -1 || dr == -1
    else df * dr == 1 || df * dr == -1
  }

  /** Rook: a move that changes both file and rank is refused. */
  predicate RookShape(df: int, dr: int) {
    !(df != 0 && dr != 0)
  }

  /** Bishop: the rank must change and the truncated slope df / dr must be 1 or -1. */
  predicate BishopShape(df: int, dr: int) {
    dr != 0 && (CDiv(df, dr) == 1 || CDiv(df, dr) == -1)
  }

  /** Queen: the slope is only computed when the rank changes; a move that
      changes both coordinates needs a truncated slope of 1 or -1. */
  function QueenSlope(df: int, dr: int): int {
    if dr != 0 then CDiv(df, dr) else 0
  }

  predicate QueenShape(df: int, dr: int) {
    !(df != 0 && dr != 0 && QueenSlope(df, dr) != 1 && QueenSlope(df, dr) != -1)
  }

  lemma ProductMagnitude(x: int, y: int)
    ensures Abs(x * y) == Abs(x) * Abs(y)
    ensures x != 0 && y != 0 ==> Abs(x * y) >= Abs(x) && Abs(x * y) >= Abs(y)
  {
    MulNegate(x, y);
    MulNegate(-x, y);
    MulNonNegative(Abs(x), Abs(y));
    if x < 0 && y < 0 {
      assert x * y == (-x) * (-y);
    }
    if x != 0 && y != 0 {
      MulAtLeast(Abs(x), Abs(y));
      MulAtLeast(Abs(y), Abs(x));
    }
  }

  /** The knight test accepts exactly the L-shaped moves. */
  lemma KnightShapeIsLShape(df: int, dr: int)
    ensures KnightShape(df, dr) <==> (Abs(df) == 1 && Abs(dr) == 2) || (Abs(df) == 2 && Abs(dr) == 1)
  {
    ProductMagnitude(df, dr);
    if KnightShape(df, dr) {
      assert Abs(df) * Abs(dr) == 2;
      assert Abs(df) <= 2 && Abs(dr) <= 2;
      if Abs(df) == 2 {
        assert 2 * Abs(dr) == 2;
      } else if Abs(df) == 1 {
        assert Abs(dr) == 2;
      }
    }
  }

  /** The king test accepts exactly the moves to one of the eight neighbours. */
  lemma KingShapeIsStep(df: int, dr: int)
    ensures KingShape(df, dr) <==> -1 <= df <= 1 && -1 <= dr <= 1 && !(df == 0 && dr == 0)
  {
    ProductMagnitude(df, dr);
    if df != 0 && dr != 0 && (df * dr == 1 || df * dr == -1) {
      assert Abs(df) * Abs(dr) == 1;
      assert Abs(df) == 1 && Abs(dr) == 1;
    }
    if df != 0 && dr != 0 && -1 <= df <= 1 && -1 <= dr <= 1 {
      assert Abs(df) == 1 && Abs(dr) == 1;
      assert Abs(df * dr) == 1;
    }
  }

  lemma DivIsOne(a: nat, b: int)
    requires b > 0
    ensures a / b == 1 <==> b <= a < 2 * b
  {
    DivPositive(a, b);
    var q := a / b;
    if q >= 2 {
      assert q * b >= 2 * b by {
        MulNonNegative(q - 2, b);
        assert q * b == (q - 2) * b + 2 * b;
      }
    }
  }

  lemma CDivOne(a: int, b: int)
    requires b != 0
    ensures CDiv(a, b) == 1 <==> ((a > 0) == (b > 0)) && a != 0 && Abs(b) <= Abs(a) < 2 * Abs(b)
    ensures CDiv(a, b) == -1 <==> ((a > 0) != (b > 0)) && a != 0 && Abs(b) <= Abs(a) < 2 * Abs(b)
  {
    DivIsOne(Abs(a), Abs(b));
    DivPositive(Abs(a), Abs(b));
  }

  /** Because the slope is truncated, the bishop test accepts every move whose
      rank delta is non-zero and whose file delta is at least the rank delta
      and less than twice it, so (df, dr) = (3, 2) passes as well as the
      diagonals. */
  lemma BishopShapeByTruncation(df: int, dr: int)
    ensures BishopShape(df, dr) <==> dr != 0 && Abs(dr) <= Abs(df) < 2 * Abs(dr)
  {
    if dr != 0 {
      CDivOne(df, dr);
    }
  }

  /** The queen test is the rook test or the bishop test. */
  lemma QueenShapeIsRookOrBishop(df: int, dr: int)
    ensures QueenShape(df, dr) <==> RookShape(df, dr) || BishopShape(df, dr)
  {
  }
}
