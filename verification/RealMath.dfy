/** Small facts about reals, and the mathematical functions that the original takes from its library. */
module RealMath {

  function Abs(x: real): real { if x < 0.0 then -x else x }
  function Max(x: real, y: real): real { if x < y then y else x }
  function Min(x: real, y: real): real { if y < x then y else x }

  /** `std::max(-lim, std::min(lim, v))` */
  function Clamp(v: real, lim: real): real { Max(-lim, Min(lim, v)) }

  function Ceil(x: real): int { -((-x).Floor) }

  /** Truncation toward zero, as in `fmod` and in a cast to an integer type. */
  function Trunc(x: real): int { if x >= 0.0 then x.Floor else -((-x).Floor) }

  /** n times b, by repeated addition. */
  function Times(n: nat, b: real): real { if n == 0 then 0.0 else Times(n - 1, b) + b }

  lemma {:induction false} TimesIsProduct(n: nat, b: real)
    ensures Times(n, b) == n as real * b
  {
    if n > 0 {
      TimesIsProduct(n - 1, b);
      var m := (n - 1) as real;
      assert n as real == m + 1.0;
      assert (m + 1.0) * b == m * b + b;
    }
  }

  lemma {:induction false} TimesMonotone(m: nat, n: nat, b: real)
    requires m <= n && b >= 0.0
    ensures Times(m, b) <= Times(n, b)
    decreases n
  {
    if m < n { TimesMonotone(m, n - 1, b); }
  }

  /** Enough steps of size b cover x. */
  lemma CeilCovers(x: real, b: real, n: nat)
    requires b > 0.0 && n >= Ceil(x / b)
    ensures Times(n, b) >= x
  {
    TimesIsProduct(n, b);
    var q := x / b;
    assert q * b == x;
    var m := n as real;
    assert m >= q;
    ScaleMonotone(q, m, b);
  }

  lemma ScaleMonotone(p: real, q: real, b: real)
    requires p <= q && b >= 0.0
    ensures p * b <= q * b
  {
  }

  lemma ZeroFactor(a: real, b: real)
    requires a * b == 0.0 && a != 0.0
    ensures b == 0.0
  {
  }

  /** Fewer steps than that do not exceed x. */
  lemma FloorBounds(x: real, b: real, n: nat)
    requires b > 0.0 && Times(n, b) <= x
    ensures n <= (x / b).Floor
  {
    TimesIsProduct(n, b);
    var q := x / b;
    assert q * b == x;
    if n as real > q { assert n as real * b > q * b; }
  }

  /** Sine and cosine of radians, square root, arc cosine. */
  datatype Library = Library(sin: real -> real, cos: real -> real, sqrt: real -> real, acos: real -> real)

  ghost predicate Sound(lib: Library) {
    && (forall x :: lib.sin(x) * lib.sin(x) + lib.cos(x) * lib.cos(x) == 1.0)
    && (forall x :: x >= 0.0 ==> lib.sqrt(x) >= 0.0 && lib.sqrt(x) * lib.sqrt(x) == x)
  }
}
