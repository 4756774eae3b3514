/** One work group from its tiles to its part of the result, and all groups together (sgemm_child and sgemm,
    src/common/nnet-ocl.cpp:758-836; the padded sizes of gen_code_sgemm, 977-996). */
module SgemmGroup {
  import opened FlatIndex
  import opened SgemmTuning
  import opened SgemmKernel
  import opened SgemmItems

  ghost function Snap(g: array2<real>): (v: Mat)
    reads g
    ensures Holds(g, v)
  {
    seq(g.Length0,
        i requires 0 <= i < g.Length0 reads g => seq(g.Length1, j requires 0 <= j < g.Length1 reads g => g[i, j]))
  }

  ghost function Snap3(g: array3<real>): (v: seq<Mat>)
    reads g
    ensures Holds3(g, v)
  {
    seq(g.Length0, l requires 0 <= l < g.Length0 reads g =>
      seq(g.Length1,
          i requires 0 <= i < g.Length1 reads g => seq(g.Length2, j requires 0 <= j < g.Length2 reads g => g[l, i, j])))
  }

  /** Group (ugm, ugn) of a kernel for matrices of the padded sizes. */
  ghost predicate Placed(p: Param, nm: nat, nn: nat, nk: nat, m0: nat, n0: nat) {
    Fits(p) && m0 + TileM(p) <= nm && n0 + TileN(p) <= nn && nk % p.npk == 0
  }

  lemma DepthFits(nk: nat, npk: nat, ugk: nat)
    requires 0 < npk && nk % npk == 0 && ugk < nk / npk
    ensures At(ugk, npk, 0) + npk <= nk && At(ugk + 1, npk, 0) == At(ugk, npk, 0) + npk
  {
    Split(nk, npk);
    Below(ugk, npk, npk - 1, nk / npk);
  }

  lemma DepthEnds(nk: nat, npk: nat)
    requires 0 < npk && nk % npk == 0
    ensures At(nk / npk, npk, 0) == nk && At(0, npk, 0) == 0
  {}

  /** The loads of the tiles are shared out evenly. */
  lemma FitsShares(p: Param)
    requires Fits(p)
    ensures IsBlock(p.npk, p.nln / p.npm) && IsBlock(p.npk, p.nlm / p.npn) && IsBlock(p.nlm, p.nlm / p.npn)
    ensures 0 < TileM(p) && 0 < TileN(p)
    ensures Items(p.nln / p.npm, TileM(p)) == p.nlm * p.nln == Items(p.nlm / p.npn, TileN(p))
  {}

  /** The sums of all depths in private cells. */
  method SumAll(gA: array2<real>, gB: array2<real>, lA: array2<real>, lB: array2<real>, pC: array3<real>, p: Param,
                m0: nat, n0: nat, nk: nat, ghost a: Mat, ghost b: Mat) returns (ghost cs: seq<Mat>)
    requires Holds(gA, a) && Holds(gB, b) && gA.Length0 == gB.Length0 == nk
        && Placed(p, gA.Length1, gB.Length1, nk, m0, n0)
    requires lA != gA && lB != gB && lA != lB && lA != gB && lB != gA && lA.Length0 == lB.Length0 == p.npk
    requires lA.Length1 == TileM(p) && lB.Length1 == TileN(p)
    requires pC.Length0 == p.nlm * p.nln && pC.Length1 == p.npm && pC.Length2 == p.npn
    requires forall l, i, j | 0 <= l < pC.Length0 && 0 <= i < p.npm && 0 <= j < p.npn :: pC[l, i, j] == 0.0
    modifies lA, lB, pC
    ensures Holds3(pC, cs) && AllProd(cs, a, b, p, m0, n0, nk, nk, 0)
  {
    FitsShares(p);
    DepthEnds(nk, p.npk);
    cs := Snap3(pC);
    assert forall l | 0 <= l < |cs| :: Zeroed(cs[l], p.npm, p.npn);
    ghost var la, lb := Snap(lA), Snap(lB);
    for ugk := 0 to nk / p.npk
      invariant Holds(lA, la) && Holds(lB, lb) && Holds3(pC, cs)
      invariant AllProd(cs, a, b, p, m0, n0, At(ugk, p.npk, 0), At(ugk, p.npk, 0), 0)
    {
      DepthFits(nk, p.npk, ugk);
      hide Holds, Holds3, AllProd, Tiles, Tile, IsBlock, At, TileM, TileN, Fits;
      cs, la, lb := SumTiles(gA, gB, lA, lB, pC, p, m0, n0, ugk * p.npk, a, b, la, lb, cs);
    }
  }

  /** One turn of the loop over the depth: load, barrier, accumulate. */
  method SumTiles(gA: array2<real>, gB: array2<real>, lA: array2<real>, lB: array2<real>, pC: array3<real>, p: Param,
                  m0: nat, n0: nat, k0: nat, ghost a: Mat, ghost b: Mat, ghost la: Mat, ghost lb: Mat,
                      ghost cs: seq<Mat>)
    returns (ghost es: seq<Mat>, ghost ta: Mat, ghost tb: Mat)
    requires Holds(gA, a) && Holds(gB, b) && Holds(lA, la) && Holds(lB, lb) && Holds3(pC, cs) && Fits(p)
    requires lA != gA && lB != gB && lA != lB && lA != gB && lB != gA && lA.Length0 == lB.Length0 == p.npk
    requires lA.Length1 == TileM(p) && lB.Length1 == TileN(p)
    requires pC.Length0 == p.nlm * p.nln && pC.Length1 == p.npm && pC.Length2 == p.npn
    requires k0 + p.npk <= gA.Length0 && k0 + p.npk <= gB.Length0
    requires m0 + TileM(p) <= gA.Length1 && n0 + TileN(p) <= gB.Length1 && AllProd(cs, a, b, p, m0, n0, k0, k0, 0)
    modifies lA, lB, pC
    ensures Holds(lA, ta) && Holds(lB, tb) && Holds3(pC, es)
    ensures AllProd(es, a, b, p, m0, n0, k0 + p.npk, k0 + p.npk, 0)
  {
    FitsShares(p);
    hide Holds, Holds3, AllProd, Tiles, Tile, IsBlock, TileM, TileN, Items;
    ta := Load(lA, gA, k0, m0, p.nln / p.npm, a, la);
    tb := Load(lB, gB, k0, n0, p.nlm / p.npn, b, lb);
    es := Accumulate(pC, lA, lB, p, k0, a, b, m0, n0, cs);
  }

  predicate Zeroed(c: Mat, rows: nat, cols: nat) {
    Shaped(c, rows, cols) && forall i, j | 0 <= i < rows && 0 <= j < cols :: c[i][j] == 0.0
  }

  // ----- storing the result, row by row of the items -----

  /** The cell (r, c) of the result tile lC belongs to item At(r, nln, c % nln), which writes it in turn c / nln. Those
      before item ul, and before turn j of it, hold the sums of the items' rows upm. */
  ghost predicate StageTo(d: Mat, a: Mat, b: Mat, p: Param, m0: nat, n0: nat, nk: nat, upm: nat, ul: nat, j: nat) {
    && 0 < p.nln && Shaped(d, p.npk, TileN(p)) && p.nlm <= p.npk
    && forall r, c | 0 <= r < p.nlm && 0 <= c < TileN(p) :: StageAt(d, a, b, p, m0, n0, nk, upm, ul, j, r, c)
  }

  ghost predicate StageAt(d: Mat, a: Mat, b: Mat, p: Param, m0: nat, n0: nat, nk: nat, upm: nat, ul: nat, j: nat,
                          r: nat, c: nat)
    requires 0 < p.nln && r < |d| && c < |d[r]|
  {
    var o := At(r, p.nln, c % p.nln);
    o < ul || (o == ul && c / p.nln < j) ==> d[r][c] == Dot(a, b, m0 + At(r, p.npm, upm), n0 + c, nk)
  }

  lemma StageNext(d: Mat, a: Mat, b: Mat, p: Param, m0: nat, n0: nat, nk: nat, upm: nat, ul: nat, j: nat, next: nat)
    requires StageTo(d, a, b, p, m0, n0, nk, upm, ul, j) && ul < p.nlm * p.nln && j < p.npn && next == j + 1
    ensures (var t := ItemOf(p, m0, n0, ul); var c := At(j, p.nln, t.uln);
             t.ulm < p.nlm && t.ulm < |d| && c < |d[t.ulm]| && c < TileN(p) &&
             StageTo(With(d, t.ulm, c, Dot(a, b, RowOf(p, t, upm), ColOf(p, t, j), nk)), a, b, p, m0, n0, nk, upm, ul,
                     next))
  {
    var t := ItemOf(p, m0, n0, ul);
    var c0 := At(j, p.nln, t.uln);
    SplitBelow(ul, p.nln, p.nlm);
    Split(ul, p.nln);
    Below(j, p.nln, t.uln, p.npn);
    Parts(j, p.nln, t.uln);
    var e := With(d, t.ulm, c0, Dot(a, b, RowOf(p, t, upm), ColOf(p, t, j), nk));
    hide Dot;
    forall r, c | 0 <= r < p.nlm && 0 <= c < TileN(p) ensures StageAt(e, a, b, p, m0, n0, nk, upm, ul, next, r, c) {
      assert StageAt(d, a, b, p, m0, n0, nk, upm, ul, j, r, c);
      Split(c, p.nln);
      if At(r, p.nln, c % p.nln) == ul { Unique(r, p.nln, c % p.nln, t.ulm, t.uln); }
      hide At;
    }
  }

  lemma StageItemEnd(d: Mat, a: Mat, b: Mat, p: Param, m0: nat, n0: nat, nk: nat, upm: nat, ul: nat, next: nat)
    requires StageTo(d, a, b, p, m0, n0, nk, upm, ul, p.npn) && next == ul + 1
    ensures StageTo(d, a, b, p, m0, n0, nk, upm, next, 0)
  {
    hide Dot, At;
    forall r, c | 0 <= r < p.nlm && 0 <= c < TileN(p) ensures StageAt(d, a, b, p, m0, n0, nk, upm, next, 0, r, c) {
      assert StageAt(d, a, b, p, m0, n0, nk, upm, ul, p.npn, r, c);
      SplitBelow(c, p.nln, p.npn);
    }
  }

  lemma StageBegin(d: Mat, a: Mat, b: Mat, p: Param, m0: nat, n0: nat, nk: nat, upm: nat, ul: nat)
    requires 0 < p.nln && p.nlm <= p.npk && Shaped(d, p.npk, TileN(p)) && ul == 0
    ensures StageTo(d, a, b, p, m0, n0, nk, upm, ul, 0)
  {}

  lemma SumAt(cs: seq<Mat>, a: Mat, b: Mat, p: Param, m0: nat, n0: nat, nk: nat, ul: nat, i: nat, j: nat)
    requires AllProd(cs, a, b, p, m0, n0, nk, nk, 0) && ul < |cs| && i < p.npm && j < p.npn
    ensures i < |cs[ul]| && j < |cs[ul][i]|
    ensures cs[ul][i][j] == Dot(a, b, RowOf(p, ItemOf(p, m0, n0, ul), i), ColOf(p, ItemOf(p, m0, n0, ul), j), nk)
  {
    assert Prod(cs[ul], a, b, p, ItemOf(p, m0, n0, ul), nk, 0, 0);
    assert ProdAt(cs[ul], a, b, p, ItemOf(p, m0, n0, ul), nk, 0, 0, i, j);
    hide Dot, ItemOf, RowOf, ColOf;
  }

  /** The turns of one item: its sums of row upm go to row ulm of lC, which overlays lB. */
  method StageItem(lC: array2<real>, pC: array3<real>, p: Param, ul: nat, upm: nat, nk: nat, ghost a: Mat, ghost b: Mat,
                   ghost m0: nat, ghost n0: nat, ghost cs: seq<Mat>, ghost d: Mat) returns (ghost e: Mat)
    requires Holds(lC, d) && Holds3(pC, cs) && lC.Length0 == p.npk && lC.Length1 == TileN(p)
    requires pC.Length0 == p.nlm * p.nln && pC.Length1 == p.npm && pC.Length2 == p.npn && ul < pC.Length0 && upm < p.npm
    requires AllProd(cs, a, b, p, m0, n0, nk, nk, 0) && StageTo(d, a, b, p, m0, n0, nk, upm, ul, 0)
    modifies lC
    ensures Holds(lC, e) && StageTo(e, a, b, p, m0, n0, nk, upm, ul + 1, 0)
  {
    var ulm, uln := ul / p.nln, ul % p.nln;
    e := d;
    SameLength(pC, cs);
    hide Holds, Holds3, AllProd, StageTo, Dot, RowOf, ColOf, TileN;
    for upn := 0 to p.npn
      invariant Holds(lC, e) && StageTo(e, a, b, p, m0, n0, nk, upm, ul, upn)
    {
      StageNext(e, a, b, p, m0, n0, nk, upm, ul, upn, upn + 1);
      SumAt(cs, a, b, p, m0, n0, nk, ul, upm, upn);
      Holds3At(pC, cs, ul, upm, upn);
      e := Set(lC, ulm, At(upn, p.nln, uln), pC[ul, upm, upn], e);
    }
    StageItemEnd(e, a, b, p, m0, n0, nk, upm, ul, ul + 1);
  }

  /** The phase in which all items write lC. */
  method Stage(lC: array2<real>, pC: array3<real>, p: Param, upm: nat, nk: nat, ghost a: Mat, ghost b: Mat,
               ghost m0: nat,
               ghost n0: nat, ghost cs: seq<Mat>, ghost d: Mat) returns (ghost e: Mat)
    requires Holds(lC, d) && Holds3(pC, cs) && lC.Length0 == p.npk && lC.Length1 == TileN(p) && Fits(p)
    requires pC.Length0 == p.nlm * p.nln && pC.Length1 == p.npm && pC.Length2 == p.npn && upm < p.npm
    requires AllProd(cs, a, b, p, m0, n0, nk, nk, 0)
    modifies lC
    ensures Holds(lC, e) && Staged(e, a, b, p, m0, n0, nk, upm)
  {
    e := d;
    StageBegin(e, a, b, p, m0, n0, nk, upm, 0);
    hide Holds, Holds3, AllProd, StageTo, TileN;
    for ul := 0 to pC.Length0
      invariant Holds(lC, e) && StageTo(e, a, b, p, m0, n0, nk, upm, ul, 0)
    {
      e := StageItem(lC, pC, p, ul, upm, nk, a, b, m0, n0, cs, e);
    }
    StageEnd(e, a, b, p, m0, n0, nk, upm);
  }

  /** lC holds the sums of all items' rows upm. */
  ghost predicate Staged(d: Mat, a: Mat, b: Mat, p: Param, m0: nat, n0: nat, nk: nat, upm: nat) {
    && Shaped(d, p.npk, TileN(p)) && p.nlm <= p.npk
    && forall r, c | 0 <= r < p.nlm && 0 <= c < TileN(p) :: d[r][c] == Dot(a, b, m0 + At(r, p.npm, upm), n0 + c, nk)
  }

  lemma StageEnd(d: Mat, a: Mat, b: Mat, p: Param, m0: nat, n0: nat, nk: nat, upm: nat)
    requires StageTo(d, a, b, p, m0, n0, nk, upm, p.nlm * p.nln, 0)
    ensures Staged(d, a, b, p, m0, n0, nk, upm)
  {
    hide Dot;
    forall r, c | 0 <= r < p.nlm && 0 <= c < TileN(p)
      ensures d[r][c] == Dot(a, b, m0 + At(r, p.npm, upm), n0 + c, nk)
    {
      assert StageAt(d, a, b, p, m0, n0, nk, upm, p.nlm * p.nln, 0, r, c);
      Below(r, p.nln, c % p.nln, p.nlm);
      hide At;
    }
  }

  // ----- from lC to the result -----

  /** Cell (m, n) of the result lies in the group's part, in an item's row upm. */
  predicate InRows(p: Param, m0: nat, n0: nat, upm: nat, m: nat, n: nat) {
    0 < p.npm && m0 <= m < m0 + TileM(p) && n0 <= n < n0 + TileN(p) && (m - m0) % p.npm == upm
  }

  /** The result while item ul stores its cells of rows upm: those before row u of the tile, and those of the items
      before it, are sums; the others are as in g0. */
  ghost predicate OutTo(g: Mat, g0: Mat, a: Mat, b: Mat, p: Param, m0: nat, n0: nat, nk: nat, upm: nat, s: nat,
                        ul: nat, u: nat) {
    && 0 < s && |g| == |g0| && (forall m | 0 <= m < |g| :: |g[m]| == |g0[m]|)
    && forall m, n | 0 <= m < |g| && 0 <= n < |g[m]| :: OutAt(g, g0, a, b, p, m0, n0, nk, upm, s, ul, u, m, n)
  }

  ghost predicate OutAt(g: Mat, g0: Mat, a: Mat, b: Mat, p: Param, m0: nat, n0: nat, nk: nat, upm: nat, s: nat,
                        ul: nat, u: nat,
                        m: nat, n: nat)
    requires 0 < s && m < |g| && m < |g0| && n < |g[m]| && n < |g0[m]|
  {
    if InRows(p, m0, n0, upm, m, n) && OwnedBefore(p, m0, n0, s, ul, u, m, n) then g[m][n] == Dot(a, b, m, n, nk)
    else g[m][n] == g0[m][n]
  }

  predicate OwnedBefore(p: Param, m0: nat, n0: nat, s: nat, ul: nat, u: nat, m: nat, n: nat)
    requires 0 < s
  {
    0 < p.npm && m0 <= m && n0 <= n &&
    var r, c := (m - m0) / p.npm, n - n0; var o := Owner(r, c, TileN(p), s);
    o < ul || (o == ul && r < u)
  }

  lemma OutNext(g: Mat, g0: Mat, a: Mat, b: Mat, p: Param, m0: nat, n0: nat, nk: nat, upm: nat, s: nat, ul: nat,
                l1: nat,
                l2: nat, u: nat, next: nat)
    requires Fits(p) && OutTo(g, g0, a, b, p, m0, n0, nk, upm, s, ul, u) && upm < p.npm && next == u + s
    requires IsBlock(p.nlm, s) && IsBlock(u, s) && next <= p.nlm && l1 < TileN(p) && l2 < s
        && ul == At(l2, TileN(p), l1)
    requires m0 + TileM(p) <= |g| && forall m | 0 <= m < |g| :: n0 + TileN(p) <= |g[m]|
    ensures (var m, n := m0 + At(u + l2, p.npm, upm), n0 + l1;
             m < |g| && n < |g[m]|
                 && OutTo(With(g, m, n, Dot(a, b, m, n, nk)), g0, a, b, p, m0, n0, nk, upm, s, ul, next))
  {
    var m1, n1 := m0 + At(u + l2, p.npm, upm), n0 + l1;
    Below(u + l2, p.npm, upm, p.nlm);
    var e := With(g, m1, n1, Dot(a, b, m1, n1, nk));
    hide Dot, With;
    forall m, n | 0 <= m < |g| && 0 <= n < |g[m]| ensures OutAt(e, g0, a, b, p, m0, n0, nk, upm, s, ul, next, m, n) {
      assert OutAt(g, g0, a, b, p, m0, n0, nk, upm, s, ul, u, m, n);
      OwnedNext(p, m0, n0, upm, s, ul, l1, l2, u, m, n);
      hide InRows, OwnedBefore;
    }
  }

  /** What item ul stores in the turn that starts at row u. */
  lemma OwnedNext(p: Param, m0: nat, n0: nat, upm: nat, s: nat, ul: nat, l1: nat, l2: nat, u: nat, m: nat, n: nat)
    requires Fits(p) && upm < p.npm && IsBlock(p.nlm, s) && IsBlock(u, s) && u + s <= p.nlm
    requires l1 < TileN(p) && l2 < s && ul == At(l2, TileN(p), l1)
    ensures InRows(p, m0, n0, upm, m, n) && OwnedBefore(p, m0, n0, s, ul, u + s, m, n)
       <==> (InRows(p, m0, n0, upm, m, n) && OwnedBefore(p, m0, n0, s, ul, u, m, n))
            || (m == m0 + At(u + l2, p.npm, upm) && n == n0 + l1)
  {
    Parts(u + l2, p.npm, upm);
    Below(u + l2, p.npm, upm, p.nlm);
    Parts(l2, TileN(p), l1);
    Below(l2, TileN(p), l1, s);
    BlockOf(u, s, l2);
    if InRows(p, m0, n0, upm, m, n) {
      var r, c := (m - m0) / p.npm, n - n0;
      Split(m - m0, p.npm);
      SplitBelow(m - m0, p.npm, p.nlm);
      MovedOnce(r, c, TileN(p), s, p.nlm, ul, u);
      if u <= r < u + s { BlockOf(u, s, r - u); }
      hide Owner, At;
    }
  }

  lemma OutBegin(g: Mat, a: Mat, b: Mat, p: Param, m0: nat, n0: nat, nk: nat, upm: nat, s: nat, ul: nat)
    requires 0 < s && ul == 0
    ensures OutTo(g, g, a, b, p, m0, n0, nk, upm, s, ul, 0)
  {}

  lemma OutItemEnd(g: Mat, g0: Mat, a: Mat, b: Mat, p: Param, m0: nat, n0: nat, nk: nat, upm: nat, s: nat, ul: nat,
                   u: nat,
                   next: nat)
    requires Fits(p) && OutTo(g, g0, a, b, p, m0, n0, nk, upm, s, ul, u) && p.nlm <= u && next == ul + 1
    ensures OutTo(g, g0, a, b, p, m0, n0, nk, upm, s, next, 0)
  {
    hide Dot, Owner;
    forall m, n | 0 <= m < |g| && 0 <= n < |g[m]| ensures OutAt(g, g0, a, b, p, m0, n0, nk, upm, s, next, 0, m, n) {
      assert OutAt(g, g0, a, b, p, m0, n0, nk, upm, s, ul, u, m, n);
      if InRows(p, m0, n0, upm, m, n) { SplitBelow(m - m0, p.npm, p.nlm); }
    }
  }

  /** The loop of one item that stores its cells of lC in the result, s rows of the tile apart. */
  method StoreItem(gC: array2<real>, lC: array2<real>, p: Param, m0: nat, n0: nat, upm: nat, s: nat, ul: nat, nk: nat,
                   ghost a: Mat, ghost b: Mat, ghost d: Mat, ghost g0: Mat, ghost g: Mat) returns (ghost e: Mat)
    requires Holds(lC, d) && Staged(d, a, b, p, m0, n0, nk, upm) && Holds(gC, g) && gC != lC && Fits(p) && upm < p.npm
    requires IsBlock(p.nlm, s) && ul < s * TileN(p) && 0 < TileN(p)
    requires m0 + TileM(p) <= gC.Length0 && n0 + TileN(p) <= gC.Length1
    requires OutTo(g, g0, a, b, p, m0, n0, nk, upm, s, ul, 0)
    modifies gC
    ensures Holds(gC, e) && OutTo(e, g0, a, b, p, m0, n0, nk, upm, s, ul + 1, 0)
  {
    var l1, l2 := ul % TileN(p), ul / TileN(p);
    SplitBelow(ul, TileN(p), s);
    Split(ul, TileN(p));
    hide *;
    e := StoreRows(gC, lC, p, m0, n0, upm, s, ul, l1, l2, nk, a, b, d, g0, g);
  }

  method StoreRows(gC: array2<real>, lC: array2<real>, p: Param, m0: nat, n0: nat, upm: nat, s: nat, ul: nat, l1: nat,
                   l2: nat, nk: nat, ghost a: Mat, ghost b: Mat, ghost d: Mat, ghost g0: Mat, ghost g: Mat)
    returns (ghost e: Mat)
    requires Holds(lC, d) && Staged(d, a, b, p, m0, n0, nk, upm) && Holds(gC, g) && gC != lC && Fits(p) && upm < p.npm
    requires IsBlock(p.nlm, s) && l1 < TileN(p) && l2 < s && ul == At(l2, TileN(p), l1)
    requires m0 + TileM(p) <= gC.Length0 && n0 + TileN(p) <= gC.Length1
    requires OutTo(g, g0, a, b, p, m0, n0, nk, upm, s, ul, 0)
    modifies gC
    ensures Holds(gC, e) && OutTo(e, g0, a, b, p, m0, n0, nk, upm, s, ul + 1, 0)
  {
    var u := 0;
    e := g;
    BlockZero(s);
    hide *;
    while u < p.nlm
      invariant IsBlock(u, s) && Holds(gC, e) && OutTo(e, g0, a, b, p, m0, n0, nk, upm, s, ul, u)
    {
      RowsFit(p.nlm, u, s);
      NextBlock(u, s);
      StagedAt(lC, d, a, b, p, m0, n0, nk, upm, u + l2, l1);
      OutNext(e, g0, a, b, p, m0, n0, nk, upm, s, ul, l1, l2, u, u + s);
      e := Set(gC, m0 + At(u + l2, p.npm, upm), n0 + l1, lC[u + l2, l1], e);
      u := u + s;
    }
    OutItemEnd(e, g0, a, b, p, m0, n0, nk, upm, s, ul, u, ul + 1);
  }

  lemma StagedAt(lC: array2<real>, d: Mat, a: Mat, b: Mat, p: Param, m0: nat, n0: nat, nk: nat, upm: nat, r: nat,
                 c: nat)
    requires Holds(lC, d) && Staged(d, a, b, p, m0, n0, nk, upm) && r < p.nlm && c < TileN(p)
    ensures r < lC.Length0 && c < lC.Length1 && lC[r, c] == Dot(a, b, m0 + At(r, p.npm, upm), n0 + c, nk)
  {
    hide Dot, At, TileN;
    assert |d| == lC.Length0 && |d[r]| == lC.Length1;
    assert lC[r, c] == d[r][c];
  }

  /** After all items: rows upm of the group's part are sums. */
  ghost predicate RowsOut(g: Mat, g0: Mat, a: Mat, b: Mat, p: Param, m0: nat, n0: nat, nk: nat, upm: nat) {
    && |g| == |g0| && (forall m | 0 <= m < |g| :: |g[m]| == |g0[m]|)
    && forall m, n | 0 <= m < |g| && 0 <= n < |g[m]| ::
         g[m][n] == if InRows(p, m0, n0, upm, m, n) then Dot(a, b, m, n, nk) else g0[m][n]
  }

  lemma OutEnd(g: Mat, g0: Mat, a: Mat, b: Mat, p: Param, m0: nat, n0: nat, nk: nat, upm: nat, s: nat)
    requires Fits(p) && IsBlock(p.nlm, s) && OutTo(g, g0, a, b, p, m0, n0, nk, upm, s, Items(s, TileN(p)), 0)
    ensures RowsOut(g, g0, a, b, p, m0, n0, nk, upm)
  {
    hide Dot;
    forall m, n | 0 <= m < |g| && 0 <= n < |g[m]|
      ensures g[m][n] == if InRows(p, m0, n0, upm, m, n) then Dot(a, b, m, n, nk) else g0[m][n]
    {
      assert OutAt(g, g0, a, b, p, m0, n0, nk, upm, s, Items(s, TileN(p)), 0, m, n);
      if InRows(p, m0, n0, upm, m, n) {
        SplitBelow(m - m0, p.npm, p.nlm);
        OwnerIn((m - m0) / p.npm, n - n0, TileN(p), s, p.nlm);
      }
      hide Owner, InRows;
    }
  }

  /** The phase in which all items store their cells of lC. */
  method Store(gC: array2<real>, lC: array2<real>, p: Param, m0: nat, n0: nat, upm: nat, nk: nat, ghost a: Mat,
               ghost b: Mat, ghost d: Mat, ghost g: Mat) returns (ghost e: Mat)
    requires Holds(lC, d) && Staged(d, a, b, p, m0, n0, nk, upm) && Holds(gC, g) && gC != lC && Fits(p) && upm < p.npm
    requires m0 + TileM(p) <= gC.Length0 && n0 + TileN(p) <= gC.Length1
    modifies gC
    ensures Holds(gC, e) && RowsOut(e, g, a, b, p, m0, n0, nk, upm)
  {
    FitsShares(p);
    e := g;
    var s := p.nlm / p.npn;
    OutBegin(g, a, b, p, m0, n0, nk, upm, s, 0);
    hide *;
    for ul := 0 to Items(s, TileN(p))
      invariant Holds(gC, e) && OutTo(e, g, a, b, p, m0, n0, nk, upm, s, ul, 0)
    {
      ItemsAre(s, TileN(p));
      e := StoreItem(gC, lC, p, m0, n0, upm, s, ul, nk, a, b, d, g, e);
    }
    OutEnd(e, g, a, b, p, m0, n0, nk, upm, s);
  }

  // ----- a group, and all groups -----

  /** Rows of the items before row upm are sums in the group's part. */
  ghost predicate PartTo(g: Mat, g0: Mat, a: Mat, b: Mat, p: Param, m0: nat, n0: nat, nk: nat, upm: nat) {
    && |g| == |g0| && (forall m | 0 <= m < |g| :: |g[m]| == |g0[m]|)
    && forall m, n | 0 <= m < |g| && 0 <= n < |g[m]| :: PartAt(g, g0, a, b, p, m0, n0, nk, upm, m, n)
  }

  ghost predicate PartAt(g: Mat, g0: Mat, a: Mat, b: Mat, p: Param, m0: nat, n0: nat, nk: nat, upm: nat, m: nat, n: nat)
    requires m < |g| && m < |g0| && n < |g[m]| && n < |g0[m]|
  {
    g[m][n] == if InPart(p, m0, n0, upm, m, n) then Dot(a, b, m, n, nk) else g0[m][n]
  }

  predicate InPart(p: Param, m0: nat, n0: nat, upm: nat, m: nat, n: nat) {
    0 < p.npm && m0 <= m < m0 + TileM(p) && n0 <= n < n0 + TileN(p) && (m - m0) % p.npm < upm
  }

  lemma PartNext(g: Mat, h: Mat, g0: Mat, a: Mat, b: Mat, p: Param, m0: nat, n0: nat, nk: nat, upm: nat, next: nat)
    requires PartTo(g, g0, a, b, p, m0, n0, nk, upm) && RowsOut(h, g, a, b, p, m0, n0, nk, upm) && next == upm + 1
    ensures PartTo(h, g0, a, b, p, m0, n0, nk, next)
  {
    hide Dot, TileM, TileN;
    forall m, n | 0 <= m < |h| && 0 <= n < |h[m]| ensures PartAt(h, g0, a, b, p, m0, n0, nk, next, m, n) {
      assert PartAt(g, g0, a, b, p, m0, n0, nk, upm, m, n);
    }
  }

  /** The loop over the rows of the items: stage in lC, barrier, store. */
  method StoreAll(gC: array2<real>, lC: array2<real>, pC: array3<real>, p: Param, m0: nat, n0: nat, nk: nat,
                  ghost a: Mat,
                  ghost b: Mat, ghost cs: seq<Mat>, ghost d: Mat, ghost g0: Mat) returns (ghost g: Mat)
    requires Holds(lC, d) && Holds3(pC, cs) && Holds(gC, g0) && gC != lC && Fits(p)
    requires lC.Length0 == p.npk && lC.Length1 == TileN(p) && m0 + TileM(p) <= gC.Length0 && n0 + TileN(p) <= gC.Length1
    requires pC.Length0 == p.nlm * p.nln && pC.Length1 == p.npm && pC.Length2 == p.npn
    requires AllProd(cs, a, b, p, m0, n0, nk, nk, 0)
    modifies gC, lC
    ensures Holds(gC, g) && PartTo(g, g0, a, b, p, m0, n0, nk, p.npm)
  {
    g := g0;
    ghost var e := d;
    NoPart(g0, a, b, p, m0, n0, nk, 0);
    hide Holds, Holds3, AllProd, PartTo, RowsOut, Staged, TileM, TileN, Fits;
    for upm := 0 to p.npm
      invariant Holds(lC, e) && Holds(gC, g) && PartTo(g, g0, a, b, p, m0, n0, nk, upm)
    {
      e := Stage(lC, pC, p, upm, nk, a, b, m0, n0, cs, e);
      ghost var h := Store(gC, lC, p, m0, n0, upm, nk, a, b, e, g);
      PartNext(g, h, g0, a, b, p, m0, n0, nk, upm, upm + 1);
      g := h;
    }
  }

  lemma NoPart(g: Mat, a: Mat, b: Mat, p: Param, m0: nat, n0: nat, nk: nat, upm: nat)
    requires upm == 0
    ensures PartTo(g, g, a, b, p, m0, n0, nk, upm)
  {}

  /** One work group: its part of the result becomes the product, and nothing else changes. */
  method Group(gA: array2<real>, gB: array2<real>, gC: array2<real>, p: Param, m0: nat, n0: nat, ghost a: Mat,
               ghost b: Mat,
               ghost g0: Mat) returns (ghost g: Mat)
    requires Holds(gA, a) && Holds(gB, b) && Holds(gC, g0) && gC != gA && gC != gB && gA.Length0 == gB.Length0
    requires gC.Length0 == gA.Length1 && gC.Length1 == gB.Length1
    requires Placed(p, gA.Length1, gB.Length1, gA.Length0, m0, n0)
    modifies gC
    ensures Holds(gC, g) && PartTo(g, g0, a, b, p, m0, n0, gA.Length0, p.npm)
  {
    var lA, lB := new real[p.npk, p.nlm * p.npm], new real[p.npk, p.nln * p.npn];
    var pC := new real[p.nlm * p.nln, p.npm, p.npn]((_, _, _) => 0.0);
    hide Holds, Holds3, AllProd, PartTo;
    ghost var cs := SumAll(gA, gB, lA, lB, pC, p, m0, n0, gA.Length0, a, b);
    g := StoreAll(gC, lB, pC, p, m0, n0, gA.Length0, a, b, cs, Snap(lB), g0);
  }

  /** The cells of the groups before (i, j) are the product. */
  ghost predicate GroupsTo(g: Mat, a: Mat, b: Mat, p: Param, nk: nat, i: nat, j: nat) {
    0 < TileM(p) && 0 < TileN(p) && forall m, n | 0 <= m < |g|
        && 0 <= n < |g[m]| :: GroupsAt(g, a, b, p, nk, i, j, m, n)
  }

  ghost predicate GroupsAt(g: Mat, a: Mat, b: Mat, p: Param, nk: nat, i: nat, j: nat, m: nat, n: nat)
    requires 0 < TileM(p) && 0 < TileN(p) && m < |g| && n < |g[m]|
  {
    m / TileM(p) < i || (m / TileM(p) == i && n / TileN(p) < j) ==> g[m][n] == Dot(a, b, m, n, nk)
  }

  lemma GroupsNext(g: Mat, h: Mat, a: Mat, b: Mat, p: Param, nk: nat, i: nat, j: nat, next: nat)
    requires GroupsTo(g, a, b, p, nk, i, j) && 0 < p.npm && next == j + 1
    requires PartTo(h, g, a, b, p, At(i, TileM(p), 0), At(j, TileN(p), 0), nk, p.npm)
    ensures GroupsTo(h, a, b, p, nk, i, next)
  {
    hide Dot, TileM, TileN;
    forall m, n | 0 <= m < |h| && 0 <= n < |h[m]| ensures GroupsAt(h, a, b, p, nk, i, next, m, n) {
      assert GroupsAt(g, a, b, p, nk, i, j, m, n);
      assert PartAt(h, g, a, b, p, At(i, TileM(p), 0), At(j, TileN(p), 0), nk, p.npm, m, n);
      Split(m, TileM(p));
      Split(n, TileN(p));
      hide At;
      InTile(m, TileM(p), i);
      InTile(n, TileN(p), j);
    }
  }

  /** Index m lies in tile i exactly if i is its quotient. */
  lemma InTile(m: nat, w: nat, i: nat)
    requires 0 < w
    ensures m / w == i <==> At(i, w, 0) <= m < At(i, w, 0) + w
  {
    Split(m, w);
    if At(i, w, 0) <= m < At(i, w, 0) + w { Unique(m / w, w, m % w, i, m - At(i, w, 0)); }
  }

  lemma GroupsRowEnd(g: Mat, a: Mat, b: Mat, p: Param, nk: nat, nn: nat, i: nat, next: nat)
    requires 0 < TileN(p) && nn % TileN(p) == 0 && GroupsTo(g, a, b, p, nk, i, nn / TileN(p)) && next == i + 1
    requires forall m | 0 <= m < |g| :: |g[m]| == nn
    ensures GroupsTo(g, a, b, p, nk, next, 0)
  {
    hide Dot, TileM, TileN;
    forall m, n | 0 <= m < |g| && 0 <= n < |g[m]| ensures GroupsAt(g, a, b, p, nk, next, 0, m, n) {
      assert GroupsAt(g, a, b, p, nk, i, nn / TileN(p), m, n);
      SplitBelow(n, TileN(p), nn / TileN(p));
    }
  }

  lemma TileFits(n: nat, w: nat, i: nat)
    requires 0 < w && n % w == 0 && i < n / w
    ensures At(i, w, 0) + w <= n
  {
    Split(n, w);
    Below(i, w, w - 1, n / w);
  }

  /** The kernel: every cell of the result is the product, whatever the matrices, if the sizes are padded. */
  method Sgemm(gA: array2<real>, gB: array2<real>, gC: array2<real>, p: Param, ghost a: Mat, ghost b: Mat)
    requires Fits(p) && Holds(gA, a) && Holds(gB, b) && gC != gA && gC != gB && gA.Length0 == gB.Length0
    requires gC.Length0 == gA.Length1 && gC.Length1 == gB.Length1
    requires 0 < TileM(p) && 0 < TileN(p)
    requires gC.Length0 % TileM(p) == 0 && gC.Length1 % TileN(p) == 0 && gA.Length0 % p.npk == 0
    modifies gC
    ensures forall m, n | 0 <= m < gC.Length0 && 0 <= n < gC.Length1 :: gC[m, n] == Dot(a, b, m, n, gA.Length0)
  {
    ghost var g := Snap(gC);
    var nk := gA.Length0;
    NoGroups(g, a, b, p, nk, 0);
    hide *;
    for ugm := 0 to gC.Length0 / TileM(p)
      invariant Holds(gC, g) && GroupsTo(g, a, b, p, nk, ugm, 0)
    {
      g := GroupRow(gA, gB, gC, p, ugm, a, b, g);
    }
    AllGroups(gC, g, a, b, p, nk);
  }

  method GroupRow(gA: array2<real>, gB: array2<real>, gC: array2<real>, p: Param, ugm: nat, ghost a: Mat, ghost b: Mat,
                  ghost g0: Mat) returns (ghost g: Mat)
    requires Fits(p) && Holds(gA, a) && Holds(gB, b) && Holds(gC, g0) && gC != gA && gC != gB
        && gA.Length0 == gB.Length0
    requires gC.Length0 == gA.Length1 && gC.Length1 == gB.Length1 && 0 < TileM(p) && 0 < TileN(p)
    requires gC.Length0 % TileM(p) == 0 && gC.Length1 % TileN(p) == 0 && gA.Length0 % p.npk == 0
    requires ugm < gC.Length0 / TileM(p) && GroupsTo(g0, a, b, p, gA.Length0, ugm, 0)
    modifies gC
    ensures Holds(gC, g) && GroupsTo(g, a, b, p, gA.Length0, ugm + 1, 0)
  {
    g := g0;
    TileFits(gC.Length0, TileM(p), ugm);
    hide *;
    for ugn := 0 to gC.Length1 / TileN(p)
      invariant Holds(gC, g) && GroupsTo(g, a, b, p, gA.Length0, ugm, ugn)
    {
      TileFits(gC.Length1, TileN(p), ugn);
      ghost var h := Group(gA, gB, gC, p, At(ugm, TileM(p), 0), At(ugn, TileN(p), 0), a, b, g);
      GroupsNext(g, h, a, b, p, gA.Length0, ugm, ugn, ugn + 1);
      g := h;
    }
    GroupsRowEnd(g, a, b, p, gA.Length0, gC.Length1, ugm, ugm + 1);
  }

  lemma NoGroups(g: Mat, a: Mat, b: Mat, p: Param, nk: nat, i: nat)
    requires 0 < TileM(p) && 0 < TileN(p) && i == 0
    ensures GroupsTo(g, a, b, p, nk, i, 0)
  {}

  lemma AllGroups(gC: array2<real>, g: Mat, a: Mat, b: Mat, p: Param, nk: nat)
    requires Holds(gC, g) && 0 < TileM(p) && gC.Length0 % TileM(p) == 0
    requires GroupsTo(g, a, b, p, nk, gC.Length0 / TileM(p), 0)
    ensures forall m, n | 0 <= m < gC.Length0 && 0 <= n < gC.Length1 :: gC[m, n] == Dot(a, b, m, n, nk)
  {
    hide Dot, TileM, TileN;
    forall m, n | 0 <= m < gC.Length0 && 0 <= n < gC.Length1 ensures gC[m, n] == Dot(a, b, m, n, nk) {
      assert GroupsAt(g, a, b, p, nk, gC.Length0 / TileM(p), 0, m, n);
      SplitBelow(m, TileM(p), gC.Length0 / TileM(p));
    }
  }
}
