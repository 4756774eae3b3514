/** Two indices in one: row a of width n, column x; and rounding up to whole rows. */
module FlatIndex {
  function At(a: nat, n: nat, x: nat): nat {
    a * n + x
  }

  lemma Below(a: nat, n: nat, x: nat, b: nat)
    requires a < b && x < n
    ensures At(a, n, x) < b * n
  {
    var k := b - a - 1;
    calc {
      b * n;
      (a + 1 + k) * n;
      a * n + n + k * n;
    }
  }

  lemma Unique(a: nat, n: nat, x: nat, b: nat, y: nat)
    requires x < n && y < n && At(a, n, x) == At(b, n, y)
    ensures a == b && x == y
  {
    if a < b { Below(a, n, x, b); }
    if b < a { Below(b, n, y, a); }
  }

  /** The parts of an index below b * n. */
  lemma Split(i: nat, n: nat)
    requires 0 < n
    ensures i % n < n && i == At(i / n, n, i % n)
  {}

  lemma SplitBelow(i: nat, n: nat, b: nat)
    requires 0 < n && i < b * n
    ensures i / n < b
  {}

  lemma Parts(a: nat, n: nat, x: nat)
    requires x < n
    ensures At(a, n, x) / n == a && At(a, n, x) % n == x
  {
    Split(At(a, n, x), n);
    Unique(At(a, n, x) / n, n, At(a, n, x) % n, a, x);
  }

  /** ceil_multi: u rounded up to a multiple of mul (src/common/nnet.hpp:34-35). */
  function CeilMulti(u: nat, mul: nat): nat
    requires 0 < mul
  {
    (u + mul - 1) / mul * mul
  }

  lemma CeilMultiIs(u: nat, mul: nat)
    requires 0 < mul
    ensures u <= CeilMulti(u, mul) < u + mul && CeilMulti(u, mul) % mul == 0
  {
    Split(u + mul - 1, mul);
    Parts((u + mul - 1) / mul, mul, 0);
  }
}
