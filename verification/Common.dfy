// What several modules share.

module Common {

  datatype Option<T> = None | Some(value: T)

  function Pow2(n: nat): (r: int)
    ensures r >= 1
  {
    if n == 0 then 1 else 2 * Pow2(n - 1)
  }

  lemma {:induction false} Pow2Splits(i: nat, j: nat)
    ensures Pow2(i + j) == Pow2(i) * Pow2(j)
  {
    if i > 0 { Pow2Splits(i - 1, j); }
  }

  lemma Multiple(d: int, b: int)
    requires d >= 1 && b > 0
    ensures d * b >= b
  {}

  lemma DivUnique(a: int, b: int, q: int, r: int)
    requires a == q * b + r && 0 <= r < b
    ensures a / b == q && a % b == r
  {
    var p := a / b;
    assert a == p * b + a % b;
    assert (q - p) * b == q * b - p * b && (p - q) * b == p * b - q * b;
    if q > p { Multiple(q - p, b); } else if q < p { Multiple(p - q, b); }
  }

  lemma QuotientBelow(a: int, k: int, c: int)
    requires 0 <= a < c * k && k > 0
    ensures 0 <= a / k < c
  {
    var h := a / k;
    assert (h - c) * k == h * k - c * k;
    if h >= c { Multiple(h - c + 1, k); }
    if h < 0 { Multiple(-h, k); }
  }

  lemma SameRemainder(v: int, q: int, r: int)
    requires r > 0
    ensures (v + q * r) % r == v % r
  {
    var p := v / r;
    assert v + q * r == (p + q) * r + v % r by { assert (p + q) * r == p * r + q * r; }
    DivUnique(v + q * r, r, p + q, v % r);
  }
}
