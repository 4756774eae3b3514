/** Matrices of any size, in flat buffers at any offset with rows any distance apart: they are copied into zeroed ones
    of the padded sizes, multiplied, and the upper left part is copied back (code_change_dim, gen_code_sgemm and
    MngChgDim, src/common/nnet-ocl.cpp:838-850, 977-996, 1442-1469). */
module SgemmPadded {
  import opened FlatIndex
  import opened SgemmTuning
  import opened SgemmKernel
  import opened SgemmItems
  import opened SgemmGroup

  /** Where cell (i, j) lies in a flat buffer: OFF0 + i * NM0 + j. */
  function Place(off: nat, ld: nat, i: nat, j: nat): nat {
    off + At(i, ld, j)
  }

  /** The buffer g holds the matrix v of that size from off on, rows ld apart. */
  ghost predicate Lies(g: seq<real>, off: nat, ld: nat, rows: nat, cols: nat, v: Mat) {
    Shaped(v, rows, cols) && forall i, j | 0 <= i < rows && 0 <= j < cols :: LiesAt(g, off, ld, v, i, j)
  }

  ghost predicate LiesAt(g: seq<real>, off: nat, ld: nat, v: Mat, i: nat, j: nat)
    requires i < |v| && j < |v[i]|
  {
    Place(off, ld, i, j) < |g| && g[Place(off, ld, i, j)] == v[i][j]
  }

  /** The matrices agree where both have cells, and hold zero elsewhere. */
  ghost predicate SameCells(v: Mat, w: Mat) {
    forall i: nat, j: nat :: Cell(v, i, j) == Cell(w, i, j)
  }

  lemma {:induction false} SameDot(a: Mat, b: Mat, c: Mat, d: Mat, m: nat, n: nat, k: nat)
    requires SameCells(a, c) && SameCells(b, d)
    ensures Dot(a, b, m, n, k) == Dot(c, d, m, n, k)
  {
    if k > 0 { SameDot(a, b, c, d, m, n, k - 1); }
    hide Cell, Times;
  }

  /** Depths beyond the matrices add nothing. */
  lemma {:induction false} DotBeyond(a: Mat, b: Mat, m: nat, n: nat, k0: nat, k: nat)
    requires |a| == k0 <= k
    ensures Dot(a, b, m, n, k) == Dot(a, b, m, n, k0)
    decreases k
  {
    if k > k0 {
      DotBeyond(a, b, m, n, k0, k - 1);
      assert Cell(a, k - 1, m) == 0.0;
      ZeroTimes(Cell(b, k - 1, n));
      hide Times, Cell;
    }
  }

  lemma ZeroTimes(x: real)
    ensures Times(0.0, x) == 0.0
  {}

  /** The work items before gid have copied their cells. */
  ghost predicate CopiedTo(d: Mat, v: Mat, rows: nat, cols: nat, w: nat, gid: nat) {
    && Shaped(d, rows, cols) && 0 < w && forall i, j | 0 <= i < rows && 0 <= j < cols :: CopiedAt(d, v, w, gid, i, j)
  }

  ghost predicate CopiedAt(d: Mat, v: Mat, w: nat, gid: nat, i: nat, j: nat)
    requires i < |d| && j < |d[i]|
  {
    d[i][j] == if j < w && At(i, w, j) < gid then Cell(v, i, j) else 0.0
  }

  lemma CopyNext(d: Mat, v: Mat, rows: nat, cols: nat, w: nat, gid: nat, next: nat)
    requires CopiedTo(d, v, rows, cols, w, gid) && w <= cols && gid < rows * w && next == gid + 1
    ensures gid / w < |d| && gid % w < |d[gid / w]|
    ensures CopiedTo(With(d, gid / w, gid % w, Cell(v, gid / w, gid % w)), v, rows, cols, w, next)
  {
    SplitBelow(gid, w, rows);
    Split(gid, w);
    var r, c := gid / w, gid % w;
    var e := With(d, r, c, Cell(v, r, c));
    hide Cell;
    forall i, j | 0 <= i < rows && 0 <= j < cols ensures CopiedAt(e, v, w, next, i, j) {
      assert CopiedAt(d, v, w, gid, i, j);
      if j < w && At(i, w, j) == gid { Unique(i, w, j, r, c); }
      hide At;
    }
  }

  lemma CopyEnd(d: Mat, v: Mat, rows: nat, cols: nat, w: nat)
    requires CopiedTo(d, v, rows, cols, w, |v| * w) && w <= cols && Shaped(v, |v|, w) && |v| <= rows
    ensures SameCells(d, v)
  {
    forall i: nat, j: nat ensures Cell(d, i, j) == Cell(v, i, j) {
      if i < rows && j < cols {
        assert CopiedAt(d, v, w, |v| * w, i, j);
        if j < w && i < |v| { Below(i, w, j, |v|); }
      }
      hide At;
    }
  }

  /** to1: a matrix of n rows and w columns copied into the upper left of a zeroed one. */
  method Pad(g: array<real>, off: nat, ld: nat, n: nat, w: nat, rows: nat, cols: nat, ghost v: Mat)
    returns (h: array2<real>, ghost d: Mat)
    requires Lies(g[..], off, ld, n, w, v) && 0 < w <= cols && n <= rows
    ensures fresh(h) && h.Length0 == rows && h.Length1 == cols && Holds(h, d) && SameCells(d, v)
  {
    h := new real[rows, cols]((_, _) => 0.0);
    d := Snap(h);
    hide Cell, At;
    CopyBegin(d, v, rows, cols, w, 0);
    hide Holds, CopiedTo, Lies;
    for gid := 0 to Items(n, w)
      invariant fresh(h) && h.Length0 == rows && h.Length1 == cols && Holds(h, d) && CopiedTo(d, v, rows, cols, w, gid)
    {
      d := PadCell(g, off, ld, n, w, h, gid, v, d);
    }
    CopyAll(g[..], off, ld, n, w, d, v, rows, cols);
  }

  /** Work item gid of to1. */
  method PadCell(g: array<real>, off: nat, ld: nat, n: nat, w: nat, h: array2<real>, gid: nat, ghost v: Mat,
                 ghost d: Mat) returns (ghost e: Mat)
    requires Lies(g[..], off, ld, n, w, v) && Holds(h, d) && 0 < w <= h.Length1 && n <= h.Length0
    requires gid < Items(n, w) && CopiedTo(d, v, h.Length0, h.Length1, w, gid)
    modifies h
    ensures Holds(h, e) && CopiedTo(e, v, h.Length0, h.Length1, w, gid + 1)
  {
    RowBelow(gid, w, n, h.Length0);
    CopyNext(d, v, h.Length0, h.Length1, w, gid, gid + 1);
    LiesCell(g[..], off, ld, n, w, v, gid / w, gid % w);
    hide *;
    var urow, ucol := gid / w, gid % w;
    e := Set(h, urow, ucol, g[Place(off, ld, urow, ucol)], d);
  }

  lemma LiesCell(g: seq<real>, off: nat, ld: nat, n: nat, w: nat, v: Mat, i: nat, j: nat)
    requires Lies(g, off, ld, n, w, v) && i < n && j < w
    ensures Place(off, ld, i, j) < |g| && g[Place(off, ld, i, j)] == Cell(v, i, j)
  {
    assert LiesAt(g, off, ld, v, i, j);
  }

  lemma CopyBegin(d: Mat, v: Mat, rows: nat, cols: nat, w: nat, gid: nat)
    requires Shaped(d, rows, cols) && 0 < w && gid == 0 && forall i, j | 0 <= i < rows
        && 0 <= j < cols :: d[i][j] == 0.0
    ensures CopiedTo(d, v, rows, cols, w, gid)
  {
    forall i, j | 0 <= i < rows && 0 <= j < cols ensures CopiedAt(d, v, w, gid, i, j) {}
  }

  lemma CopyAll(g: seq<real>, off: nat, ld: nat, n: nat, w: nat, d: Mat, v: Mat, rows: nat, cols: nat)
    requires Lies(g, off, ld, n, w, v) && w <= cols && n <= rows
    requires CopiedTo(d, v, rows, cols, w, Items(n, w))
    ensures SameCells(d, v)
  {
    CopyEnd(d, v, rows, cols, w);
  }

  lemma RowBelow(gid: nat, w: nat, n: nat, rows: nat)
    requires 0 < w && gid < n * w && n <= rows
    ensures gid / w < n && gid % w < w && gid < rows * w
  {
    SplitBelow(gid, w, n);
    assert rows * w == n * w + (rows - n) * w;
  }

  /** The index is that of a cell of a matrix of that size. */
  ghost predicate Inside(off: nat, ld: nat, rows: nat, w: nat, q: nat) {
    exists i, j | 0 <= i < rows && 0 <= j < w :: Place(off, ld, i, j) == q
  }

  ghost predicate Room(len: nat, off: nat, ld: nat, rows: nat, w: nat) {
    forall i, j | 0 <= i < rows && 0 <= j < w :: Place(off, ld, i, j) < len
  }

  /** The work items before gid have copied their cells back, and nothing else has changed. */
  ghost predicate BackTo(d: seq<real>, d0: seq<real>, v: Mat, off: nat, ld: nat, rows: nat, w: nat, gid: nat) {
    && |d| == |d0| && (forall i, j | 0 <= i < rows && 0 <= j < w :: BackAt(d, v, off, ld, w, gid, i, j))
    && forall q | 0 <= q < |d| && !Inside(off, ld, rows, w, q) :: d[q] == d0[q]
  }

  ghost predicate BackAt(d: seq<real>, v: Mat, off: nat, ld: nat, w: nat, gid: nat, i: nat, j: nat) {
    Place(off, ld, i, j) < |d| && (At(i, w, j) < gid ==> d[Place(off, ld, i, j)] == Cell(v, i, j))
  }

  lemma BackNext(d: seq<real>, d0: seq<real>, v: Mat, off: nat, ld: nat, rows: nat, w: nat, gid: nat, next: nat)
    requires BackTo(d, d0, v, off, ld, rows, w, gid) && 0 < w <= ld && gid < rows * w && next == gid + 1
    ensures Place(off, ld, gid / w, gid % w) < |d|
    ensures BackTo(d[Place(off, ld, gid / w, gid % w) := Cell(v, gid / w, gid % w)], d0, v, off, ld, rows, w, next)
  {
    SplitBelow(gid, w, rows);
    Split(gid, w);
    var r, c := gid / w, gid % w;
    assert BackAt(d, v, off, ld, w, gid, r, c);
    var e := d[Place(off, ld, r, c) := Cell(v, r, c)];
    hide Cell;
    forall i, j | 0 <= i < rows && 0 <= j < w ensures BackAt(e, v, off, ld, w, next, i, j) {
      assert BackAt(d, v, off, ld, w, gid, i, j);
      if Place(off, ld, i, j) == Place(off, ld, r, c) { Unique(i, ld, j, r, c); }
      if At(i, w, j) == gid { Unique(i, w, j, r, c); }
      hide At;
    }
    assert Inside(off, ld, rows, w, Place(off, ld, r, c));
    hide Inside, BackAt, Place;
  }

  /** Work item gid of to0. */
  method UnpadCell(h: array2<real>, g: array<real>, off: nat, ld: nat, n: nat, w: nat, gid: nat, ghost v: Mat,
                   ghost d0: seq<real>)
    requires Holds(h, v) && 0 < w <= h.Length1 && w <= ld && n <= h.Length0
    requires gid < Items(n, w) && BackTo(g[..], d0, v, off, ld, n, w, gid)
    modifies g
    ensures BackTo(g[..], d0, v, off, ld, n, w, gid + 1)
  {
    RowBelow(gid, w, n, h.Length0);
    BackNext(g[..], d0, v, off, ld, n, w, gid, gid + 1);
    HoldsAt(h, v, gid / w, gid % w);
    hide *;
    var urow, ucol := gid / w, gid % w;
    ghost var d := g[..];
    g[Place(off, ld, urow, ucol)] := h[urow, ucol];
    assert g[..] == d[Place(off, ld, urow, ucol) := h[urow, ucol]];
  }

  /** to0: the upper left part, of n rows and w columns, copied back. */
  method Unpad(h: array2<real>, g: array<real>, off: nat, ld: nat, n: nat, w: nat)
    requires n <= h.Length0 && 0 < w <= h.Length1 && w <= ld && Room(g.Length, off, ld, n, w)
    modifies g
    ensures forall i, j | 0 <= i < n && 0 <= j < w :: Place(off, ld, i, j) < g.Length
                                                      && g[Place(off, ld, i, j)] == h[i, j]
    ensures forall q | 0 <= q < g.Length && !Inside(off, ld, n, w, q) :: g[q] == old(g[q])
  {
    ghost var v, d0 := Snap(h), g[..];
    BackBegin(d0, v, off, ld, n, w, 0);
    hide *;
    for gid := 0 to Items(n, w)
      invariant Holds(h, v) && BackTo(g[..], d0, v, off, ld, n, w, gid)
    {
      UnpadCell(h, g, off, ld, n, w, gid, v, d0);
    }
    BackEnd(h, g[..], d0, v, off, ld, n, w);
  }

  lemma BackBegin(d: seq<real>, v: Mat, off: nat, ld: nat, n: nat, w: nat, gid: nat)
    requires Room(|d|, off, ld, n, w) && gid == 0
    ensures BackTo(d, d, v, off, ld, n, w, gid)
  {
    forall i, j | 0 <= i < n && 0 <= j < w ensures BackAt(d, v, off, ld, w, gid, i, j) {
      assert Place(off, ld, i, j) < |d|;
    }
    hide Inside;
  }

  lemma BackEnd(h: array2<real>, d: seq<real>, d0: seq<real>, v: Mat, off: nat, ld: nat, n: nat, w: nat)
    requires BackTo(d, d0, v, off, ld, n, w, Items(n, w)) && Holds(h, v) && n <= h.Length0 && w <= h.Length1
    ensures |d| == |d0| && forall i, j | 0 <= i < n && 0 <= j < w ::
              Place(off, ld, i, j) < |d| && d[Place(off, ld, i, j)] == h[i, j]
    ensures forall q | 0 <= q < |d| && !Inside(off, ld, n, w, q) :: d[q] == d0[q]
  {
    forall i, j | 0 <= i < n && 0 <= j < w
      ensures Place(off, ld, i, j) < |d| && d[Place(off, ld, i, j)] == h[i, j] {
      Below(i, w, j, n);
      assert BackAt(d, v, off, ld, w, Items(n, w), i, j);
      HoldsAt(h, v, i, j);
      hide Holds, Inside;
    }
  }

  /** Where a matrix lies in a flat buffer. */
  datatype Spread = Spread(off: nat, ld: nat)

  /** For matrices of any size and every parameter set that fits, the result is the matrix product: gA is stored by
      depth, so cell (m, n) is the sum over k of gA[k][m] times gB[k][n].  Nothing else of gC changes. */
  method Multiply(gA: array<real>, sa: Spread, gB: array<real>, sb: Spread, gC: array<real>, sc: Spread, nm0: nat,
                  nn0: nat, nk0: nat, p: Param, ghost a: Mat, ghost b: Mat)
    requires Fits(p) && 0 < nm0 && 0 < nn0 <= sc.ld && Room(gC.Length, sc.off, sc.ld, nm0, nn0)
    requires Lies(gA[..], sa.off, sa.ld, nk0, nm0, a) && Lies(gB[..], sb.off, sb.ld, nk0, nn0, b)
    modifies gC
    ensures forall m, n | 0 <= m < nm0 && 0 <= n < nn0 ::
              Place(sc.off, sc.ld, m, n) < gC.Length && gC[Place(sc.off, sc.ld, m, n)] == Dot(a, b, m, n, nk0)
    ensures forall q | 0 <= q < gC.Length && !Inside(sc.off, sc.ld, nm0, nn0, q) :: gC[q] == old(gC[q])
  {
    FitsShares(p);
    var nm, nn, nk := CeilMulti(nm0, TileM(p)), CeilMulti(nn0, TileN(p)), CeilMulti(nk0, p.npk);
    CeilMultiIs(nm0, TileM(p));
    CeilMultiIs(nn0, TileN(p));
    CeilMultiIs(nk0, p.npk);
    assert |a| == |b| == nk0;
    hide CeilMulti, TileM, TileN, Lies, Room, Inside, Place;
    ghost var va, vb;
    var pA, pB;
    pA, va := Pad(gA, sa.off, sa.ld, nk0, nm0, nk, nm, a);
    pB, vb := Pad(gB, sb.off, sb.ld, nk0, nn0, nk, nn, b);
    var pC := new real[nm, nn];
    hide Fits;
    Sgemm(pA, pB, pC, p, va, vb);
    forall m, n | 0 <= m < nm && 0 <= n < nn ensures pC[m, n] == Dot(a, b, m, n, nk0) {
      SameDot(va, vb, a, b, m, n, nk);
      DotBeyond(a, b, m, n, nk0, nk);
    }
    hide Dot, Holds;
    Unpad(pC, gC, sc.off, sc.ld, nm0, nn0);
  }
}
