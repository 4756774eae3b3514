/** Lists of different numbers below a bound. */
module Pigeonhole {

  predicate Distinct(l: seq<nat>) { forall a, b | 0 <= a < b < |l| :: l[a] != l[b] }

  predicate InRange(l: seq<nat>, n: nat) { forall a | 0 <= a < |l| :: l[a] < n }

  function Without(l: seq<nat>, j: nat): seq<nat>
    requires j < |l|
  {
    l[..j] + l[j + 1..]
  }

  lemma WithoutAt(l: seq<nat>, j: nat)
    requires j < |l|
    ensures |Without(l, j)| == |l| - 1 &&
          forall a | 0 <= a < |l| - 1 :: Without(l, j)[a] == l[if a < j then a else a + 1]
  {}

  lemma WithoutMembers(l: seq<nat>, j: nat)
    requires j < |l| && Distinct(l)
    ensures forall e :: e in Without(l, j) <==> e in l && e != l[j]
  {}

  /** n different numbers below n are all of them. */
  lemma {:induction false} Pigeons(l: seq<nat>, n: nat)
    requires Distinct(l) && InRange(l, n) && |l| == n
    ensures forall e | 0 <= e < n :: e in l
  {
    if n > 0 {
      if n - 1 in l {
        var j :| 0 <= j < n && l[j] == n - 1;
        var w := Without(l, j);
        WithoutAt(l, j);
        assert InRange(w, n - 1);
        Pigeons(w, n - 1);
        assert forall e | e in w :: e in l;
      } else {
        TooMany(l, n - 1);
        assert false;
      }
    }
  }

  lemma {:induction false} TooMany(l: seq<nat>, n: nat)
    requires Distinct(l) && InRange(l, n)
    ensures |l| <= n
  {
    if l != [] {
      assert l[0] < n;
      if n - 1 in l {
        var j :| 0 <= j < |l| && l[j] == n - 1;
        WithoutAt(l, j);
        TooMany(Without(l, j), n - 1);
      } else {
        TooMany(l, n - 1);
      }
    }
  }
}
