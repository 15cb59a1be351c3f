/** Rounding to the nearest integer with ties to even. */
module Rounding {
  function Min(a: int, b: int): int {
    if a < b then a else b
  }

  /** Python's `round(a / b)`: nearest integer, ties to the even one. */
  function RoundHalfEven(a: nat, b: nat): nat
    requires b > 0
  {
    var q, r := a / b, a % b;
    if 2 * r < b then q
    else if 2 * r > b then q + 1
    else if q % 2 == 0 then q else q + 1
  }

  lemma DivMod(a: nat, b: nat)
    requires b > 0
    ensures a == b * (a / b) + a % b
    ensures 0 <= a % b < b
  {
  }

  lemma MulMonotone(b: nat, x: int, y: int)
    requires x <= y
    ensures b * x <= b * y
  {
    assert b * (y - x) >= 0;
    assert b * (y - x) == b * y - b * x;
  }

  /** The rounded value is within half a unit, and a tie goes to the even neighbour. */
  lemma RoundIsNearest(a: nat, b: nat)
    requires b > 0
    ensures var r := RoundHalfEven(a, b); 2 * (b * r) <= 2 * a + b && 2 * a <= 2 * (b * r) + b
    ensures var r := RoundHalfEven(a, b);
            2 * (b * r) == 2 * a + b || 2 * a == 2 * (b * r) + b ==> r % 2 == 0
  {
    DivMod(a, b);
    var q := a / b;
    assert b * (q + 1) == b * q + b;
  }

  /** Only one integer can be nearest in that sense. */
  lemma NearestIsUnique(a: nat, b: nat, r: int)
    requires b > 0
    requires 2 * (b * r) < 2 * a + b && 2 * a < 2 * (b * r) + b
    ensures RoundHalfEven(a, b) == r
  {
    var s := RoundHalfEven(a, b);
    RoundIsNearest(a, b);
    assert b * (r - 1) == b * r - b && b * (r + 1) == b * r + b;
    if s < r {
      MulMonotone(b, s, r - 1);
    } else if s > r {
      MulMonotone(b, r + 1, s);
    }
  }

  lemma RoundOfMultiple(k: nat, b: nat)
    requires b > 0
    ensures RoundHalfEven(b * k, b) == k
  {
    NearestIsUnique(b * k, b, k);
  }

  lemma DivAtLeastOne(a: nat, b: nat)
    requires 0 < b <= a
    ensures a / b >= 1
  {
    DivMod(a, b);
    if a / b <= 0 {
      MulMonotone(b, a / b, 0);
    }
  }
}
