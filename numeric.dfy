/**
  Numeric helpers: conversion of a real number to an integer the way Python's
  built-in int() converts a float (the fractional part is dropped, rounding
  toward zero), and the facts about products of reals the other modules use.
 */
module Numeric {

  /** int(x): floor for non-negative x, ceiling for negative x. */
  function TruncateTowardZero(x: real): (n: int)
    ensures 0.0 <= x ==> n as real <= x < n as real + 1.0
    ensures x <= 0.0 ==> n as real - 1.0 < x <= n as real
  {
    if x >= 0.0 then x.Floor else -((-x).Floor)
  }

  /** On non-negative arguments int() is the floor. */
  lemma TruncateIsFloor(x: real)
    requires 0.0 <= x
    ensures TruncateTowardZero(x) == x.Floor
  {
  }

  /** int() leaves integers as they are. */
  lemma TruncateOfInteger(k: int)
    ensures TruncateTowardZero(k as real) == k
  {
  }

  /** int() is monotone: smaller arguments never give larger integers. */
  lemma TruncateMonotone(x: real, y: real)
    requires x <= y
    ensures TruncateTowardZero(x) <= TruncateTowardZero(y)
  {
    var m, n := TruncateTowardZero(x), TruncateTowardZero(y);
    if 0.0 <= x {
      assert m as real <= x <= y < n as real + 1.0;
    } else if y <= 0.0 {
      assert m as real - 1.0 < x <= y <= n as real;
    } else {
      assert m <= 0 <= n;
    }
  }

  /**
    Subtracting an integer k commutes with int() as long as the argument keeps
    its sign: int(x - k) == int(x) - k.
   */
  lemma TruncateShift(x: real, k: int)
    requires (0.0 <= x && 0.0 <= x - k as real) || (x <= 0.0 && x - k as real <= 0.0)
    ensures TruncateTowardZero(x - k as real) == TruncateTowardZero(x) - k
  {
    var m, n := TruncateTowardZero(x), TruncateTowardZero(x - k as real);
    if 0.0 <= x && 0.0 <= x - k as real {
      assert (n + k) as real <= x < (n + k) as real + 1.0;
      assert m as real <= x < m as real + 1.0;
    } else {
      assert (n + k) as real - 1.0 < x <= (n + k) as real;
      assert m as real - 1.0 < x <= m as real;
    }
  }

  // ---------------------------------------------------------------------------
  // Products of reals, one fact per lemma over plain variables (the solver
  // handles a product reliably only when it meets few facts about it)

  lemma MulNonNegative(a: real, b: real)
    requires 0.0 <= a && 0.0 <= b
    ensures 0.0 <= a * b
  {
  }

  lemma MulPositive(a: real, b: real)
    requires 0.0 < a && 0.0 < b
    ensures 0.0 < a * b
  {
  }

  lemma MulMonotone(a: real, b: real, c: real)
    requires a <= b && 0.0 <= c
    ensures a * c <= b * c
  {
    MulNonNegative(b - a, c);
    assert (b - a) * c == b * c - a * c;
  }

  lemma MulMonotoneLeft(c: real, a: real, b: real)
    requires a <= b && 0.0 <= c
    ensures c * a <= c * b
  {
    MulNonNegative(c, b - a);
    assert c * (b - a) == c * b - c * a;
  }

  lemma MulAtMost(x: real, d: real)
    requires 0.0 <= x && d <= 1.0
    ensures x * d <= x
  {
    MulNonNegative(x, 1.0 - d);
    assert x * (1.0 - d) == x - x * d;
  }

  lemma MulBelow(x: real, d: real)
    requires 0.0 < x && d < 1.0
    ensures x * d < x
  {
    MulPositive(x, 1.0 - d);
    assert x * (1.0 - d) == x - x * d;
  }
}
