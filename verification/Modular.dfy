/** Remainders: uniqueness, steps round a circle, and when two positions on it differ. */
module Modular {

  /** Quotient and remainder are determined by their range. */
  lemma ModuloUnique(x: int, d: int, q: int, r: int)
    requires d > 0 && 0 <= r < d && x == q * d + r
    ensures x % d == r && x / d == q
  {
    var q', r' := x / d, x % d;
    assert x == q' * d + r' && 0 <= r' < d;
    assert (q - q') * d == r' - r;
    if q != q' { MultipleIsFar(q - q', d); }
  }

  lemma MultipleIsFar(a: int, d: int)
    requires a != 0 && d > 0
    ensures a * d >= d || a * d <= -d
  {
    if a > 0 { assert (a - 1) * d >= 0; } else { assert (-a - 1) * d >= 0; }
  }

  /** Reducing before a step changes nothing. */
  lemma ModAdd(x: int, k: int, c: nat)
    requires c > 0
    ensures (x % c + k) % c == (x + k) % c
  {
    var y := x % c + k;
    assert x + k == (x / c + y / c) * c + y % c;
    ModuloUnique(x + k, c, x / c + y / c, y % c);
  }

  /** Less than one turn apart is at different positions. */
  lemma ModDistinct(x: int, y: int, c: nat)
    requires 0 < y - x < c
    ensures x % c != y % c
  {
    var d := y - x;
    var q, r := x / c, x % c;
    if r + d < c { ModuloUnique(y, c, q, r + d); }
    else {
      assert y == (q + 1) * c + (r + d - c);
      ModuloUnique(y, c, q + 1, r + d - c);
    }
  }

  /** One turn on is the same position. */
  lemma ModTurn(x: int, c: nat)
    requires c > 0
    ensures (x + c) % c == x % c
  {
    assert x + c == (x / c + 1) * c + x % c;
    ModuloUnique(x + c, c, x / c + 1, x % c);
  }
}
