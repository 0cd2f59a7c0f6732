/** The floating-point library calls the engine makes, kept abstract.
    `exp` is any positive function; `sqrt` is any function that is zero at
    zero, non-negative and strictly increasing on the non-negative reals;
    `sinTurns(x)` stands for `sin(2*pi*x)` and is any value in [-1, 1].
    No other property of `math.exp`, `math.sqrt` or `math.sin` is assumed. */
module Transcendental {
  import opened Space

  datatype Math = Math(exp: real -> real, sqrt: real -> real, sinTurns: real -> real)

  ghost predicate Valid(m: Math)
  {
    && (forall x :: m.exp(x) > 0.0)
    && m.sqrt(0.0) == 0.0
    && (forall x :: x >= 0.0 ==> m.sqrt(x) >= 0.0)
    && (forall x, y :: 0.0 <= x < y ==> m.sqrt(x) < m.sqrt(y))
    && (forall x :: -1.0 <= m.sinTurns(x) <= 1.0)
  }

  /** Euclidean distance between two points. */
  function Distance(p: Point, q: Point, m: Math): (d: real)
    requires Valid(m)
    ensures d >= 0.0
    ensures p == q ==> d == 0.0
  {
    m.sqrt(SqDist(p, q))
  }

  /** Comparing distances and comparing squared distances agree. */
  lemma SqrtMonotone(m: Math, a: real, b: real)
    requires Valid(m)
    requires a >= 0.0 && b >= 0.0
    ensures a < b <==> m.sqrt(a) < m.sqrt(b)
    ensures a == b <==> m.sqrt(a) == m.sqrt(b)
  {
  }
}
