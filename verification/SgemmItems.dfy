/** What the work items of a group compute in private between loading the tiles and storing the result
    (sgemm_child, src/common/nnet-ocl.cpp:764-791). */
module SgemmItems {
  import opened FlatIndex
  import opened SgemmTuning
  import opened SgemmKernel

  /** A work item: where its group starts in the result, and its place in the group. */
  datatype Item = Item(m0: nat, n0: nat, ulm: nat, uln: nat)

  function ItemOf(p: Param, m0: nat, n0: nat, ul: nat): Item
    requires 0 < p.nln
  {
    Item(m0, n0, ul / p.nln, ul % p.nln)
  }

  /** The rows and columns of the result that are the item's own. */
  function RowOf(p: Param, t: Item, i: nat): nat { t.m0 + At(t.ulm, p.npm, i) }
  function ColOf(p: Param, t: Item, j: nat): nat { t.n0 + At(j, p.nln, t.uln) }

  /** The item's private cells: those before (i0, j0) are summed down to depth k + 1, the others down to depth k. */
  ghost predicate Prod(c: Mat, a: Mat, b: Mat, p: Param, t: Item, k: nat, i0: nat, j0: nat) {
    Shaped(c, p.npm, p.npn) && forall i, j | 0 <= i < p.npm && 0 <= j < p.npn :: ProdAt(c, a, b, p, t, k, i0, j0, i, j)
  }

  ghost predicate ProdAt(c: Mat, a: Mat, b: Mat, p: Param, t: Item, k: nat, i0: nat, j0: nat, i: nat, j: nat)
    requires i < |c| && j < |c[i]|
  {
    c[i][j] == Dot(a, b, RowOf(p, t, i), ColOf(p, t, j), if i < i0 || (i == i0 && j < j0) then k + 1 else k)
  }

  lemma ProdNext(c: Mat, a: Mat, b: Mat, p: Param, t: Item, k: nat, i0: nat, j0: nat, next: nat)
    requires Prod(c, a, b, p, t, k, i0, j0) && i0 < p.npm && j0 < p.npn && next == j0 + 1
    ensures i0 < |c| && j0 < |c[i0]|
    ensures (var x := Times(Cell(a, k, RowOf(p, t, i0)), Cell(b, k, ColOf(p, t, j0)));
             Prod(With(c, i0, j0, c[i0][j0] + x), a, b, p, t, k, i0, next))
  {
    var x := Times(Cell(a, k, RowOf(p, t, i0)), Cell(b, k, ColOf(p, t, j0)));
    var e := With(c, i0, j0, c[i0][j0] + x);
    assert ProdAt(c, a, b, p, t, k, i0, j0, i0, j0);
    hide Times, Cell, RowOf, ColOf;
    forall i, j | 0 <= i < p.npm && 0 <= j < p.npn ensures ProdAt(e, a, b, p, t, k, i0, next, i, j) {
      assert ProdAt(c, a, b, p, t, k, i0, j0, i, j);
    }
  }

  lemma ProdRowEnd(c: Mat, a: Mat, b: Mat, p: Param, t: Item, k: nat, i0: nat, next: nat)
    requires Prod(c, a, b, p, t, k, i0, p.npn) && next == i0 + 1
    ensures Prod(c, a, b, p, t, k, next, 0)
  {
    hide Dot, RowOf, ColOf;
    forall i, j | 0 <= i < p.npm && 0 <= j < p.npn ensures ProdAt(c, a, b, p, t, k, next, 0, i, j) {
      assert ProdAt(c, a, b, p, t, k, i0, p.npn, i, j);
    }
  }

  lemma ProdDepthEnd(c: Mat, a: Mat, b: Mat, p: Param, t: Item, k: nat, next: nat)
    requires Prod(c, a, b, p, t, k, p.npm, 0) && next == k + 1
    ensures Prod(c, a, b, p, t, next, 0, 0)
  {
    hide Dot, RowOf, ColOf;
    forall i, j | 0 <= i < p.npm && 0 <= j < p.npn ensures ProdAt(c, a, b, p, t, next, 0, 0, i, j) {
      assert ProdAt(c, a, b, p, t, k, p.npm, 0, i, j);
    }
  }

  // ----- the private cells of all items -----

  ghost predicate Holds3(g: array3<real>, cs: seq<Mat>)
    reads g
  {
    |cs| == g.Length0 && (forall ul | 0 <= ul < |cs| :: Shaped(cs[ul], g.Length1, g.Length2))
    && forall ul, i, j | 0 <= ul < g.Length0 && 0 <= i < g.Length1 && 0 <= j < g.Length2 :: g[ul, i, j] == cs[ul][i][j]
  }

  method Set3(g: array3<real>, ul: nat, i: nat, j: nat, x: real, ghost cs: seq<Mat>, ghost c: Mat)
      returns (ghost es: seq<Mat>)
    requires Holds3(g, cs) && ul < g.Length0 && i < g.Length1 && j < g.Length2 && c == cs[ul]
    modifies g
    ensures |c| == g.Length1 && |c[i]| == g.Length2 && Holds3(g, es) && es == cs[ul := With(c, i, j, x)]
  {
    g[ul, i, j] := x;
    es := cs[ul := With(c, i, j, x)];
  }

  lemma Holds3At(g: array3<real>, cs: seq<Mat>, ul: nat, i: nat, j: nat)
    requires Holds3(g, cs) && ul < g.Length0 && i < g.Length1 && j < g.Length2
    ensures i < |cs[ul]| && j < |cs[ul][i]| && g[ul, i, j] == cs[ul][i][j]
  {}

  /** One row of private cells: pC[upm][upn] += pA * pB[upn]. */
  method AddRow(pC: array3<real>, p: Param, ul: nat, upm: nat, pA: real, pB: array<real>, k: nat, ghost a: Mat,
                ghost b: Mat,
                ghost t: Item, ghost cs: seq<Mat>) returns (ghost es: seq<Mat>)
    requires Holds3(pC, cs) && ul < pC.Length0 && pC.Length1 == p.npm && pC.Length2 == p.npn == pB.Length && upm < p.npm
    requires pA == Cell(a, k, RowOf(p, t, upm)) && forall j | 0 <= j < p.npn :: pB[j] == Cell(b, k, ColOf(p, t, j))
    requires Prod(cs[ul], a, b, p, t, k, upm, 0)
    modifies pC
    ensures Holds3(pC, es) && es == cs[ul := es[ul]] && Prod(es[ul], a, b, p, t, k, upm + 1, 0)
  {
    es := cs;
    hide Prod, Times, Cell, RowOf, ColOf, Holds3, Dot;
    SameLength(pC, cs);
    for upn := 0 to p.npn
      invariant |es| == |cs| && Holds3(pC, es) && es == cs[ul := es[ul]] && Prod(es[ul], a, b, p, t, k, upm, upn)
    {
      ProdNext(es[ul], a, b, p, t, k, upm, upn, upn + 1);
      Holds3At(pC, es, ul, upm, upn);
      es := Set3(pC, ul, upm, upn, pC[ul, upm, upn] + Times(pA, pB[upn]), es, es[ul]);
    }
    ProdRowEnd(es[ul], a, b, p, t, k, upm, upm + 1);
  }

  lemma SameLength(g: array3<real>, cs: seq<Mat>)
    requires Holds3(g, cs)
    ensures |cs| == g.Length0
  {}

  // ----- reading the tiles -----

  /** Widths of the tiles. */
  function TileM(p: Param): nat { p.nlm * p.npm }
  function TileN(p: Param): nat { p.nln * p.npn }

  /** The group's two tiles hold a from row k0 and column m0, and b from row k0 and column n0. */
  ghost predicate Tiles(lA: array2<real>, lB: array2<real>, a: Mat, b: Mat, p: Param, k0: nat, m0: nat, n0: nat)
    reads lA, lB
  {
    && lA.Length0 == lB.Length0 == p.npk && lA.Length1 == TileM(p) && lB.Length1 == TileN(p)
    && (forall r, c | 0 <= r < p.npk && 0 <= c < lA.Length1 :: lA[r, c] == Cell(a, k0 + r, m0 + c))
    && forall r, c | 0 <= r < p.npk && 0 <= c < lB.Length1 :: lB[r, c] == Cell(b, k0 + r, n0 + c)
  }

  lemma ReadA(lA: array2<real>, lB: array2<real>, a: Mat, b: Mat, p: Param, k0: nat, t: Item, r: nat, i: nat)
    requires Tiles(lA, lB, a, b, p, k0, t.m0, t.n0) && r < p.npk && t.ulm < p.nlm && i < p.npm
    ensures r < lA.Length0 && At(t.ulm, p.npm, i) < lA.Length1
    ensures lA[r, At(t.ulm, p.npm, i)] == Cell(a, k0 + r, RowOf(p, t, i))
  {
    Below(t.ulm, p.npm, i, p.nlm);
    hide At, Cell;
  }

  lemma ReadB(lA: array2<real>, lB: array2<real>, a: Mat, b: Mat, p: Param, k0: nat, t: Item, r: nat, j: nat)
    requires Tiles(lA, lB, a, b, p, k0, t.m0, t.n0) && r < p.npk && t.uln < p.nln && j < p.npn
    ensures r < lB.Length0 && At(j, p.nln, t.uln) < lB.Length1
    ensures lB[r, At(j, p.nln, t.uln)] == Cell(b, k0 + r, ColOf(p, t, j))
  {
    Below(j, p.nln, t.uln, p.npn);
    hide At, Cell;
  }

  /** One depth of one item: pB is read, then the item's rows are summed. */
  method ItemDepth(pC: array3<real>, lA: array2<real>, lB: array2<real>, p: Param, ulm: nat, uln: nat, ul: nat,
                   upk: nat,
                   k0: nat, ghost a: Mat, ghost b: Mat, ghost t: Item, ghost cs: seq<Mat>) returns (ghost es: seq<Mat>)
    requires Holds3(pC, cs) && ul < pC.Length0 && pC.Length1 == p.npm && pC.Length2 == p.npn && upk < p.npk
    requires Tiles(lA, lB, a, b, p, k0, t.m0, t.n0) && t.ulm == ulm < p.nlm && t.uln == uln < p.nln
    requires Prod(cs[ul], a, b, p, t, k0 + upk, 0, 0)
    modifies pC
    ensures Holds3(pC, es) && |es| == |cs| && es == cs[ul := es[ul]] && Prod(es[ul], a, b, p, t, k0 + upk + 1, 0, 0)
  {
    var pB := new real[p.npn];
    hide Tiles, Prod, Holds3, Cell, RowOf, ColOf;
    for upn := 0 to p.npn
      invariant Holds3(pC, cs) && forall j | 0 <= j < upn :: pB[j] == Cell(b, k0 + upk, ColOf(p, t, j))
    {
      ReadB(lA, lB, a, b, p, k0, t, upk, upn);
      pB[upn] := lB[upk, At(upn, p.nln, uln)];
    }
    es := SumRows(pC, lA, lB, p, ulm, ul, upk, k0, pB, a, b, t, cs);
    ProdDepthEnd(es[ul], a, b, p, t, k0 + upk, k0 + upk + 1);
  }

  method SumRows(pC: array3<real>, lA: array2<real>, lB: array2<real>, p: Param, ulm: nat, ul: nat, upk: nat, k0: nat,
                 pB: array<real>, ghost a: Mat, ghost b: Mat, ghost t: Item, ghost cs: seq<Mat>)
                     returns (ghost es: seq<Mat>)
    requires Holds3(pC, cs) && ul < pC.Length0 && pC.Length1 == p.npm && pC.Length2 == p.npn == pB.Length && upk < p.npk
    requires Tiles(lA, lB, a, b, p, k0, t.m0, t.n0) && t.ulm == ulm < p.nlm
    requires forall j | 0 <= j < p.npn :: pB[j] == Cell(b, k0 + upk, ColOf(p, t, j))
    requires Prod(cs[ul], a, b, p, t, k0 + upk, 0, 0)
    modifies pC
    ensures Holds3(pC, es) && |es| == |cs| && es == cs[ul := es[ul]] && Prod(es[ul], a, b, p, t, k0 + upk, p.npm, 0)
  {
    es := cs;
    SameLength(pC, cs);
    hide Tiles, Prod, Holds3, Cell, RowOf, ColOf;
    for upm := 0 to p.npm
      invariant |es| == |cs| && Holds3(pC, es) && es == cs[ul := es[ul]] && Prod(es[ul], a, b, p, t, k0 + upk, upm, 0)
    {
      ReadA(lA, lB, a, b, p, k0, t, upk, upm);
      var pA := lA[upk, At(ulm, p.npm, upm)];
      es := AddRow(pC, p, ul, upm, pA, pB, k0 + upk, a, b, t, es);
    }
  }

  /** The phase between the barriers for one item: all depths of the tiles. */
  method ItemPhase(pC: array3<real>, lA: array2<real>, lB: array2<real>, p: Param, ul: nat, k0: nat, ghost a: Mat,
                   ghost b: Mat, ghost m0: nat, ghost n0: nat, ghost cs: seq<Mat>) returns (ghost es: seq<Mat>)
    requires Holds3(pC, cs) && ul < pC.Length0 == p.nlm * p.nln && pC.Length1 == p.npm && pC.Length2 == p.npn
        && 0 < p.nln
    requires Tiles(lA, lB, a, b, p, k0, m0, n0) && Prod(cs[ul], a, b, p, ItemOf(p, m0, n0, ul), k0, 0, 0)
    modifies pC
    ensures Holds3(pC, es) && |es| == |cs| && es == cs[ul := es[ul]]
    ensures Prod(es[ul], a, b, p, ItemOf(p, m0, n0, ul), k0 + p.npk, 0, 0)
  {
    var ulm, uln := ul / p.nln, ul % p.nln;
    SplitBelow(ul, p.nln, p.nlm);
    ghost var t := ItemOf(p, m0, n0, ul);
    es := cs;
    SameLength(pC, cs);
    hide Tiles, Prod, Holds3;
    for upk := 0 to p.npk
      invariant |es| == |cs| && Holds3(pC, es) && es == cs[ul := es[ul]] && Prod(es[ul], a, b, p, t, k0 + upk, 0, 0)
    {
      es := ItemDepth(pC, lA, lB, p, ulm, uln, ul, upk, k0, a, b, t, es);
    }
  }

  /** The items before ul are at depth k1, the others at depth k. */
  ghost predicate AllProd(cs: seq<Mat>, a: Mat, b: Mat, p: Param, m0: nat, n0: nat, k: nat, k1: nat, ul: nat) {
    0 < p.nln && forall x | 0 <= x < |cs| :: Prod(cs[x], a, b, p, ItemOf(p, m0, n0, x), if x < ul then k1 else k, 0, 0)
  }

  /** The phase between the barriers: all items, each with cells of its own. */
  method Accumulate(pC: array3<real>, lA: array2<real>, lB: array2<real>, p: Param, k0: nat, ghost a: Mat, ghost b: Mat,
                    ghost m0: nat, ghost n0: nat, ghost cs: seq<Mat>) returns (ghost es: seq<Mat>)
    requires Holds3(pC, cs) && pC.Length0 == p.nlm * p.nln && pC.Length1 == p.npm && pC.Length2 == p.npn
    requires Tiles(lA, lB, a, b, p, k0, m0, n0) && AllProd(cs, a, b, p, m0, n0, k0, k0, 0)
    modifies pC
    ensures Holds3(pC, es) && AllProd(es, a, b, p, m0, n0, k0 + p.npk, k0 + p.npk, 0)
  {
    es := cs;
    SameLength(pC, cs);
    for ul := 0 to pC.Length0
      invariant |es| == pC.Length0 && Holds3(pC, es) && AllProd(es, a, b, p, m0, n0, k0, k0 + p.npk, ul)
    {
      ghost var cs := es;
      assert Prod(es[ul], a, b, p, ItemOf(p, m0, n0, ul), k0, 0, 0);
      hide Tiles, Prod, Holds3, AllProd, ItemOf;
      es := ItemPhase(pC, lA, lB, p, ul, k0, a, b, m0, n0, es);
    }
  }
}
