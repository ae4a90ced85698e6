/** Shared vocabulary: optional values, results carrying the exceptions the
    tuner raises, and the few Python numeric conversions the model needs. */
module Common {

  datatype Option<+T> = None | Some(value: T)

  /** The exception classes the tuner raises. The messages are the source's
      own texts and numpy's for a zero-length array; an index out of range
      carries a fixed text instead of numpy's index-and-size message. */
  datatype Error =
    | RuntimeError(message: string)
    | ValueError(message: string)
    | IndexError(message: string)

  datatype Result<+T> = Success(value: T) | Failure(error: Error)

  function Min(a: int, b: int): int { if a <= b then a else b }

  function Max(a: int, b: int): int { if a >= b then a else b }

  /** Python's `int(x)` on a float: truncation toward zero. */
  function Trunc(x: real): (n: int)
    ensures x >= 0.0 ==> n as real <= x < n as real + 1.0
    ensures x < 0.0 ==> n as real - 1.0 < x <= n as real
  {
    if x >= 0.0 then x.Floor else -((-x).Floor)
  }

  /** Python's `int(a / b)` on integers: true division, then truncation toward zero. */
  function TruncDiv(a: int, b: int): (q: int)
    requires b > 0
    ensures a >= 0 ==> q == a / b
    ensures a < 0 ==> q == -((-a) / b)
  {
    if a >= 0 then
      RealQuotientFloor(a, b);
      Trunc(a as real / b as real)
    else
      RealQuotientFloor(-a, b);
      assert a as real / b as real == -((-a) as real / b as real);
      Trunc(a as real / b as real)
  }

  lemma RealQuotientFloor(a: nat, b: int)
    requires b > 0
    ensures (a as real / b as real).Floor == a / b
  {
    var q, r := a / b, a % b;
    assert a == q * b + r;
    assert a as real / b as real == q as real + r as real / b as real;
    assert 0.0 <= r as real / b as real < 1.0;
  }

  lemma TruncMonotone(x: real, y: real)
    requires x <= y
    ensures Trunc(x) <= Trunc(y)
  {
  }
}
