/** JavaScript values as the player's code uses them: optional values (null or
    undefined), numbers that may be NaN, bytes from the analyser, Math.random
    draws, and the Math.max/Math.min clamp that every control applies. */
module Values {

  datatype Option<+T> = None | Some(value: T)

  /** A JavaScript number as the player code sees it: a finite value, or NaN
      (an unloaded media duration, a mean over an empty slice). */
  datatype Num = Finite(v: real) | NaN

  /** `!x` in JavaScript: 0 and NaN are the falsy numbers. */
  predicate Falsy(x: Num)
  {
    x.NaN? || x.v == 0.0
  }

  /** One value of Math.random(): a real in [0, 1). */
  type UnitReal = r: real | 0.0 <= r < 1.0

  /** The successive values Math.random() returns, the k-th at index k. */
  type RandomStream = nat -> UnitReal

  /** One element of a Uint8Array. */
  type Byte = x: int | 0 <= x < 256

  /** `new Uint8Array(n)` or `new Array(n).fill(0)`: n zeros. */
  function Zeros(n: nat): (z: seq<Byte>)
    ensures |z| == n && forall i :: 0 <= i < n ==> z[i] == 0
  {
    if n == 0 then [] else Zeros(n - 1) + [0]
  }

  function Min(a: real, b: real): real { if a <= b then a else b }

  function Max(a: real, b: real): real { if a >= b then a else b }

  /** `Math.max(lo, Math.min(hi, x))`. */
  function Clamp(lo: real, hi: real, x: real): (r: real)
    requires lo <= hi
    ensures lo <= r <= hi
    ensures lo <= x <= hi ==> r == x
    ensures x < lo ==> r == lo
    ensures hi < x ==> r == hi
  {
    Max(lo, Min(hi, x))
  }

  /** Clamping twice is clamping once. */
  lemma ClampIdempotent(lo: real, hi: real, x: real)
    requires lo <= hi
    ensures Clamp(lo, hi, Clamp(lo, hi, x)) == Clamp(lo, hi, x)
  {
  }

  /** JavaScript `a % n` on integers: truncating, so the remainder takes the
      sign of a (Dafny's `%` is Euclidean and never negative). */
  function JsRemainder(a: int, n: int): (r: int)
    requires n > 0
    ensures a >= 0 ==> r == a % n
    ensures a < 0 ==> -n < r <= 0
  {
    if a >= 0 then a % n else -((-a) % n)
  }

  /** `Math.floor(Math.random() * n)`: the random index used by the shuffled
      next and previous commands. */
  function RandomIndex(r: UnitReal, n: nat): (i: int)
    requires n > 0
    ensures 0 <= i < n
  {
    var x := r * n as real;
    assert 0.0 <= x by { MulNonNegative(r, n as real); }
    assert x < n as real by { MulBelow(r, n as real); }
    x.Floor
  }

  lemma MulNonNegative(a: real, b: real)
    requires 0.0 <= a && 0.0 <= b
    ensures 0.0 <= a * b
  {
  }

  lemma MulBelow(r: real, n: real)
    requires 0.0 <= r < 1.0 && 0.0 < n
    ensures r * n < n
  {
    assert (1.0 - r) * n > 0.0;
  }
}
