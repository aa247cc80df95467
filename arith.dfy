/** Small facts about multiplication and division by a positive stride, and about concatenation. */
module Arith {

  lemma MulSucc(n: int, d: int)
    ensures (n + 1) * d == n * d + d
  {
  }

  lemma MulMonotone(a: int, b: int, d: nat)
    ensures a <= b ==> a * d <= b * d
  {
    assert b * d - a * d == (b - a) * d;
  }

  /** `x / d` is the unique `q` with `q * d <= x < (q + 1) * d`. */
  lemma DivIsQuotient(x: nat, d: nat, q: nat)
    requires d > 0
    requires q * d <= x < q * d + d
    ensures x / d == q
  {
    var r := x / d;
    assert x == r * d + x % d;
    MulSucc(r, d);
    MulSucc(q, d);
    MulMonotone(r + 1, q, d);
    MulMonotone(q + 1, r, d);
  }

  /** Regrouping a three-part concatenation. */
  lemma AppendAssoc<T>(a: seq<T>, b: seq<T>, c: seq<T>)
    ensures a + (b + c) == (a + b) + c
  {
  }
}
