/**
 * The percent both front ends put on their bar:
 * max(0, min(100, int(cur / total * 100))), with Python's int() on a float
 * (truncation toward zero). Durations are exact reals here; see README for
 * what that leaves out.
 */
module ProgressMath {

  /** Python's int() on a float: truncation toward zero. */
  function Trunc(x: real): (n: int)
    ensures 0.0 <= x ==> n as real <= x < n as real + 1.0
    ensures x < 0.0 ==> n as real - 1.0 < x <= n as real
  {
    if x >= 0.0 then x.Floor else -((-x).Floor)
  }

  /** max(0, min(100, v)). */
  function Clamp(v: int): (r: int)
    ensures 0 <= r <= 100
    ensures 0 <= v <= 100 ==> r == v
    ensures v < 0 ==> r == 0
    ensures v > 100 ==> r == 100
  {
    if v < 0 then 0 else if v > 100 then 100 else v
  }

  /** max(0, min(100, int(cur / total * 100))). */
  function Percent(cur: real, total: real): (p: int)
    requires total != 0.0
    ensures 0 <= p <= 100
  {
    Clamp(Trunc(cur / total * 100.0))
  }

  lemma MulLeft(a: real, b: real, t: real)
    requires 0.0 < t
    ensures a <= b <==> a * t <= b * t
    ensures a < b <==> a * t < b * t
  {
    assert (b - a) * t == b * t - a * t;
    if a < b { assert (b - a) * t > 0.0; }
    if b < a { assert (a - b) * t > 0.0; }
  }

  /** cur / total * 100 times total is 100 * cur. */
  lemma Scaled(cur: real, total: real)
    requires 0.0 < total
    ensures (cur / total * 100.0) * total == 100.0 * cur
  {
    assert (cur / total) * total == cur;
  }

  lemma ScaledBounds(x: real, cur: real, total: real)
    requires 0.0 < total && 0.0 <= cur <= total && x * total == 100.0 * cur
    ensures 0.0 <= x <= 100.0
  {
    MulLeft(0.0, x, total);
    MulLeft(x, 100.0, total);
  }

  lemma MulLe(a: real, b: real, t: real)
    requires 0.0 < t && a <= b
    ensures a * t <= b * t
  {
    assert (b - a) * t >= 0.0;
  }

  lemma MulLt(a: real, b: real, t: real)
    requires 0.0 < t && a < b
    ensures a * t < b * t
  {
    assert (b - a) * t > 0.0;
  }

  lemma FloorLow(n: real, x: real, cur: real, total: real)
    requires 0.0 < total && n <= x && x * total == 100.0 * cur
    ensures n * total <= 100.0 * cur
  {
    MulLe(n, x, total);
  }

  lemma FloorHigh(n: real, x: real, cur: real, total: real)
    requires 0.0 < total && x < n + 1.0 && x * total == 100.0 * cur
    ensures 100.0 * cur < (n + 1.0) * total
  {
    MulLt(x, n + 1.0, total);
    assert x * total < (n + 1.0) * total;
  }

  /** Within the run, the percent is the floor of 100 * cur / total. */
  lemma PercentIsFloor(cur: real, total: real)
    requires 0.0 < total && 0.0 <= cur <= total
    ensures var p := Percent(cur, total);
            p as real * total <= 100.0 * cur < (p as real + 1.0) * total
  {
    var x := cur / total * 100.0;
    Scaled(cur, total);
    assert x * total == 100.0 * cur;
    ScaledBounds(x, cur, total);
    var n := Trunc(x);
    FloorLow(n as real, x, cur, total);
    FloorHigh(n as real, x, cur, total);
    assert Percent(cur, total) == n;
  }

  /** Timestamps that do not go back give a percent that does not go back. */
  lemma PercentMonotone(cur1: real, cur2: real, total: real)
    requires 0.0 < total && cur1 <= cur2
    ensures Percent(cur1, total) <= Percent(cur2, total)
  {
    var x1 := cur1 / total * 100.0;
    var x2 := cur2 / total * 100.0;
    Scaled(cur1, total);
    Scaled(cur2, total);
    MulLeft(x1, x2, total);
    var n1, n2 := Trunc(x1), Trunc(x2);
    if 0.0 <= x1 {
      assert n1 <= n2;
    } else if x2 < 0.0 {
      assert n1 <= n2;
    } else {
      assert n1 <= 0 <= n2;
    }
  }

  /** The bar reads 0 at the start and 100 once the position reaches the total. */
  lemma PercentEnds(cur: real, total: real)
    requires 0.0 < total
    ensures cur <= 0.0 ==> Percent(cur, total) == 0
    ensures total <= cur ==> Percent(cur, total) == 100
  {
    var x := cur / total * 100.0;
    Scaled(cur, total);
    MulLeft(x, 0.0, total);
    MulLeft(100.0, x, total);
    if total <= cur {
      assert 100.0 * total <= 100.0 * cur;
      assert 100.0 <= x;
    }
  }
}
