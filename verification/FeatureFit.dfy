/** When a packed batch stays within the words allocated for it, 2048 a sample (src/common/nnet-ocl.cpp:2202-2203), and
    when the assertion of add holds (src/common/nnet.cpp:174). */
module FeatureFit {
  import opened Features
  import opened FeaturePack
  import opened FlatIndex

  /** At most n indices in each list. */
  predicate EachAtMost(ls: seq<seq<nat>>, n: nat) {
    forall b | 0 <= b < |ls| :: |ls[b]| <= n
  }

  /** At most nb samples of at most n ones each, with fewer moves each than a move list has places. */
  ghost predicate Batch(ss: seq<Sample>, ms: seq<seq<nat>>, nb: nat, n: nat) {
    |ss| == |ms| && |ss| <= nb && EachAtMost(OnesOf(ss), n) && EachAtMost(ms, MAXSIZE_MOVES - 1)
  }

  ghost predicate AlwaysFits(bd: Build, n: nat) {
    forall ss, ms, nb :: Batch(ss, ms, nb, n) ==> Fits(bd, ss, ms, nb)
  }

  lemma {:induction false} JoinedLen(ls: seq<seq<nat>>, step: nat, n: nat)
    requires EachAtMost(ls, n)
    ensures |Joined(ls, step)| <= Offset(|ls|, n)
  {
    if ls != [] {
      JoinedLen(ls[..|ls| - 1], step, n);
      assert |ls[|ls| - 1]| <= n && Offset(|ls|, n) == Offset(|ls| - 1, n) + n;
      hide Offset;
    }
  }

  /** Samples of at most 864 ones always fit: more than the 512 of one build, fewer than the 1024 of the other. */
  lemma PackFits(bd: Build, ss: seq<Sample>, ms: seq<seq<nat>>, nb: nat)
    requires Batch(ss, ms, nb, 864)
    ensures Fits(bd, ss, ms, nb)
  {
    JoinedLen(OnesOf(ss), SIZE, 864);
    JoinedLen(ms, bd.SizeOut(), MAXSIZE_MOVES - 1);
    PartsApart(ss, nb);
    CeilMultiIs(nb * NFILL, 32);
    CeilMultiIs(|AllOnes(ss)|, 32);
    assert |AllOnes(ss)| <= 864 * |ss| && |AllMoves(bd, ms)| <= 1023 * |ss|;
    hide AllOnes, AllMoves, CeilMulti, Batch;
  }

  // ----- a sample with as many ones as one likes -----

  /** Ones on the first n cells, which belong to channels of ones. */
  function Sparse(n: nat): Sample {
    seq(SIZE, i => if i < n then 1.0 else 0.0)
  }

  lemma {:induction false} SparseOnes(n: nat, k: nat)
    requires n <= 28 * PLANE && k <= SIZE
    ensures |Ones(Sparse(n), k)| == if k < n then k else n
  {
    if k > 0 {
      SparseOnes(n, k - 1);
      assert IsOne(Sparse(n), k - 1) <==> k - 1 < n;
    }
  }

  function Zeroes(m: nat): seq<nat> {
    seq(m, _ => 0)
  }

  /** A batch of one sample of n ones with m moves. */
  lemma OneSample(bd: Build, n: nat, m: nat)
    requires n <= 28 * PLANE
    ensures |Ones(Sparse(n), SIZE)| == n
    ensures m < MAXSIZE_MOVES ==> Batch([Sparse(n)], [Zeroes(m)], 1, n)
    ensures Fits(bd, [Sparse(n)], [Zeroes(m)], 1) <==> 160 + CeilMulti(n, 32) + m <= 2048
  {
    var ss, ms := [Sparse(n)], [Zeroes(m)];
    SparseOnes(n, SIZE);
    assert [] + [Sparse(n)] == ss && OnesOf([]) == [];
    OnesSnoc([], Sparse(n));
    assert ms[..0] == [] && |Zeroes(m)| == m;
    assert AllMoves(bd, ms) == Joined(ms[..0], bd.SizeOut()) + Shift(ms[0], Offset(0, bd.SizeOut()));
    assert |AllMoves(bd, ms)| == m;
    assert FillBlock(1) == 160;
    hide Ones, Sparse, AllOnes, AllMoves, CeilMulti, FillBlock;
  }

  /** For batches of any size, samples of at most n ones are sure to fit exactly up to 864. */
  lemma FitsExactly(bd: Build, n: nat)
    ensures AlwaysFits(bd, n) <==> n <= 864
  {
    if n <= 864 {
      forall ss, ms, nb | Batch(ss, ms, nb, n) ensures Fits(bd, ss, ms, nb) { PackFits(bd, ss, ms, nb); }
    } else {
      Overflow(bd, n);
    }
  }

  /** One sample of 865 ones with 1023 moves overflows: 160 + 896 + 1023 words. */
  lemma Overflow(bd: Build, n: nat)
    requires 865 <= n
    ensures Batch([Sparse(865)], [Zeroes(1023)], 1, n) && !Fits(bd, [Sparse(865)], [Zeroes(1023)], 1)
  {
    OneSample(bd, 865, 1023);
    hide Fits, Sparse, Ones;
  }

  /** The bound of the build is enough exactly without USE_POLICY2187. */
  lemma BuildFits(bd: Build)
    ensures AlwaysFits(bd, bd.MaxnOne()) <==> bd.Policy11259?
  {
    FitsExactly(bd, bd.MaxnOne());
    hide AlwaysFits;
  }

  // ----- ones and moves together -----

  /** Ones and moves of each sample are at most c. */
  ghost predicate EachSum(ss: seq<Sample>, ms: seq<seq<nat>>, c: nat) {
    |ss| == |ms| && forall b | 0 <= b < |ss| :: |Ones(ss[b], SIZE)| + |ms[b]| <= c
  }

  ghost predicate AlwaysFitsSum(bd: Build, c: nat) {
    forall ss, ms, nb :: Batch(ss, ms, nb, bd.MaxnOne()) && EachSum(ss, ms, c) ==> Fits(bd, ss, ms, nb)
  }

  lemma {:induction false} SumLen(bd: Build, ss: seq<Sample>, ms: seq<seq<nat>>, c: nat)
    requires EachSum(ss, ms, c)
    ensures |AllOnes(ss)| + |AllMoves(bd, ms)| <= Offset(|ss|, c)
  {
    if ss == [] {
      assert OnesOf(ss) == [];
    } else {
      var n := |ss| - 1;
      var s, m := ss[..n], ms[..n];
      assert |Ones(ss[n], SIZE)| + |ms[n]| <= c && Offset(n + 1, c) == Offset(n, c) + c && EachSum(s, m, c);
      hide *;
      LastOf(bd, ss, ms);
      SumLen(bd, s, m, c);
    }
  }

  lemma LastOf(bd: Build, ss: seq<Sample>, ms: seq<seq<nat>>)
    requires |ss| == |ms| > 0
    ensures |AllOnes(ss)| == |AllOnes(ss[..|ss| - 1])| + |Ones(ss[|ss| - 1], SIZE)|
    ensures |AllMoves(bd, ms)| == |AllMoves(bd, ms[..|ms| - 1])| + |ms[|ms| - 1]|
  {
    var n := |ss| - 1;
    assert ss == ss[..n] + [ss[n]];
    OnesSnoc(ss[..n], ss[n]);
    hide AllOnes, Ones;
  }

  lemma SumFits(bd: Build, ss: seq<Sample>, ms: seq<seq<nat>>, nb: nat)
    requires |ss| <= nb && EachSum(ss, ms, 1857)
    ensures Fits(bd, ss, ms, nb)
  {
    SumLen(bd, ss, ms, 1857);
    PartsApart(ss, nb);
    CeilMultiIs(nb * NFILL, 32);
    CeilMultiIs(|AllOnes(ss)|, 32);
    hide AllOnes, AllMoves, CeilMulti, EachSum;
  }

  /** With USE_POLICY2187 a bound on ones and moves of each sample is enough exactly up to 1857. */
  lemma SumFitsExactly(bd: Build, c: nat)
    ensures AlwaysFitsSum(bd, c) <==> bd.Policy11259? || c <= 1857
  {
    if bd.Policy11259? {
      BuildFits(bd);
    } else if c <= 1857 {
      forall ss, ms, nb | Batch(ss, ms, nb, 1024) && EachSum(ss, ms, c) ensures Fits(bd, ss, ms, nb) {
        SumFits(bd, ss, ms, nb);
      }
    } else {
      var ss, ms := [Sparse(865)], [Zeroes(993)];
      OneSample(bd, 865, 993);
      assert EachSum(ss, ms, c);
      assert Batch(ss, ms, 1, 1024);
      assert !Fits(bd, ss, ms, 1);
    }
    hide Ones, Sparse, Fits;
  }

  // ----- the assertion about the ones -----

  /** Two samples with as many ones as the build allows each fail the assertion of the second add, although they fit
      the buffers of the batch. */
  lemma TwoSamplesFail(bd: Build)
    ensures var s := Sparse(bd.MaxnOne());
            |Ones(s, SIZE)| <= bd.MaxnOne() && |AllOnes([s, s])| <= 2 * bd.MaxnOne() && AssertsHold(bd, [s])
            && !AssertsHold(bd, [s, s])
  {
    var s := Sparse(bd.MaxnOne());
    SparseOnes(bd.MaxnOne(), SIZE);
    assert [] + [s] == [s] && [s] + [s] == [s, s] && OnesOf([]) == [];
    OnesSnoc([], s);
    OnesSnoc([s], s);
    AssertsHoldExact(bd, [s]);
    AssertsHoldExact(bd, [s, s]);
    hide Ones, Sparse, AllOnes, AssertsHold;
  }
}
