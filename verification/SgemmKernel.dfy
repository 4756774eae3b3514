/** The tiled matrix product of one work group after the other (sgemm_child and sgemm, src/common/nnet-ocl.cpp:758-836).
    Between two barriers every work item writes cells of its own and reads only what the phase before has written, so
    the items of a phase may go one after the other. Matrices are two-dimensional; A is stored by depth, as in the
    source. */
module SgemmKernel {
  import opened FlatIndex

  type Mat = seq<seq<real>>

  function Times(x: real, y: real): real { x * y }

  predicate Shaped(v: Mat, rows: nat, cols: nat) {
    |v| == rows && forall i | 0 <= i < rows :: |v[i]| == cols
  }

  function Cell(v: Mat, i: nat, j: nat): real {
    if i < |v| && j < |v[i]| then v[i][j] else 0.0
  }

  /** Column m of a times column n of b, down to depth k. */
  function Dot(a: Mat, b: Mat, m: nat, n: nat, k: nat): real {
    if k == 0 then 0.0 else Dot(a, b, m, n, k - 1) + Times(Cell(a, k - 1, m), Cell(b, k - 1, n))
  }

  ghost predicate Holds(g: array2<real>, v: Mat)
    reads g
  {
    Shaped(v, g.Length0, g.Length1) && forall i, j | 0 <= i < g.Length0 && 0 <= j < g.Length1 :: g[i, j] == v[i][j]
  }

  // ----- moving tiles -----

  /** The work item that moves cell (r, c) of a tile of width w when s rows go at a time. */
  function Owner(r: nat, c: nat, w: nat, s: nat): nat
    requires 0 < s
  {
    At(r % s, w, c)
  }

  /** In a phase every cell is moved by exactly one work item, in exactly one turn of its loop: the item's number is
      the cell's owner, and the turn is the one that starts at the last multiple of s. */
  lemma MovedOnce(r: nat, c: nat, w: nat, s: nat, rows: nat, ul: nat, u: nat)
    requires 0 < s && 0 < w && r < rows && c < w && rows % s == 0 && u % s == 0 && ul < s * w
    ensures Owner(r, c, w, s) < s * w && r - r % s + s <= rows
    ensures r == u + ul / w && c == ul % w <==> ul == Owner(r, c, w, s) && u == r - r % s
  {
    OwnerIn(r, c, w, s, rows);
    OwnerParts(r, c, w, s);
    SplitBelow(ul, w, s);
    BlockOf(u, s, ul / w);
    Split(ul, w);
    hide Owner, At;
    assert r == u + ul / w && c == ul % w ==> r % s == ul / w && ul == At(r % s, w, c);
  }

  lemma OwnerIn(r: nat, c: nat, w: nat, s: nat, rows: nat)
    requires 0 < s && r < rows && c < w && rows % s == 0
    ensures Owner(r, c, w, s) < s * w && r - r % s + s <= rows
  {
    Below(r % s, w, c, s);
    Split(r, s);
    Split(rows, s);
    WholeBlock(r / s, rows / s, s, r % s);
    hide At;
  }

  lemma OwnerParts(r: nat, c: nat, w: nat, s: nat)
    requires 0 < s && c < w
    ensures Owner(r, c, w, s) == At(r % s, w, c) && Owner(r, c, w, s) / w == r % s && Owner(r, c, w, s) % w == c
  {
    Parts(r % s, w, c);
    hide At;
  }

  /** Offset x within the block that starts at u. */
  lemma BlockOf(u: nat, s: nat, x: nat)
    requires 0 < s && u % s == 0 && x < s
    ensures (u + x) % s == x
  {
    Split(u, s);
    Parts(u / s, s, x);
  }

  lemma WholeBlock(q: nat, p: nat, s: nat, x: nat)
    requires x < s && At(q, s, x) < At(p, s, 0)
    ensures At(q, s, 0) + s <= At(p, s, 0)
  {
    if p < q { Below(p, s, 0, q); }
    if q < p { Below(q, s, s - 1, p); }
  }

  /** One more cell. */
  function With(d: Mat, i: nat, j: nat, x: real): Mat
    requires i < |d| && j < |d[i]|
  {
    d[i := d[i][j := x]]
  }

  method Set(g: array2<real>, i: nat, j: nat, x: real, ghost d: Mat) returns (ghost e: Mat)
    requires Holds(g, d) && i < g.Length0 && j < g.Length1
    modifies g
    ensures Holds(g, e) && e == With(d, i, j, x)
  {
    g[i, j] := x;
    e := With(d, i, j, x);
  }

  /** The tile d holds the part of v that starts at row k0 and column c0. */
  ghost predicate Tile(d: Mat, v: Mat, rows: nat, cols: nat, k0: nat, c0: nat) {
    Shaped(d, rows, cols) && forall r, c | 0 <= r < rows && 0 <= c < cols :: d[r][c] == Cell(v, k0 + r, c0 + c)
  }

  /** Work item ul has loaded its cells in the rows before u, the items before it all of theirs. */
  ghost predicate ItemTo(d: Mat, v: Mat, rows: nat, w: nat, k0: nat, c0: nat, s: nat, ul: nat, u: nat) {
    0 < s && Shaped(d, rows, w) && forall r, c | 0 <= r < rows && 0 <= c < w :: CellTo(d, v, w, k0, c0, s, ul, u, r, c)
  }

  ghost predicate CellTo(d: Mat, v: Mat, w: nat, k0: nat, c0: nat, s: nat, ul: nat, u: nat, r: nat, c: nat)
    requires 0 < s && r < |d| && c < |d[r]|
  {
    var o := Owner(r, c, w, s);
    o < ul || (o == ul && r < u) ==> d[r][c] == Cell(v, k0 + r, c0 + c)
  }

  lemma ItemNext(d: Mat, v: Mat, rows: nat, w: nat, k0: nat, c0: nat, s: nat, ul: nat, l1: nat, l2: nat, u: nat)
    requires IsBlock(rows, s) && IsBlock(u, s) && u + s <= rows && l1 < w && l2 < s && ul == At(l2, w, l1)
    requires ItemTo(d, v, rows, w, k0, c0, s, ul, u)
    ensures Shaped(d, rows, w)
    ensures ItemTo(With(d, u + l2, l1, Cell(v, k0 + u + l2, c0 + l1)), v, rows, w, k0, c0, s, ul, u + s)
  {
    var next, e := u + s, With(d, u + l2, l1, Cell(v, k0 + u + l2, c0 + l1));
    Parts(l2, w, l1);
    Below(l2, w, l1, s);
    forall r, c | 0 <= r < rows && 0 <= c < w ensures CellTo(e, v, w, k0, c0, s, ul, next, r, c) {
      MovedOnce(r, c, w, s, rows, ul, u);
      assert CellTo(d, v, w, k0, c0, s, ul, u, r, c);
      if u <= r < u + s { BlockOf(u, s, r - u); }
      hide Owner;
    }
  }

  lemma ItemEnd(d: Mat, v: Mat, rows: nat, w: nat, k0: nat, c0: nat, s: nat, ul: nat, u: nat, next: nat)
    requires rows <= u && ItemTo(d, v, rows, w, k0, c0, s, ul, u) && next == ul + 1
    ensures ItemTo(d, v, rows, w, k0, c0, s, next, 0)
  {
    hide Owner;
    forall r, c | 0 <= r < rows && 0 <= c < w ensures CellTo(d, v, w, k0, c0, s, next, 0, r, c) {
      assert CellTo(d, v, w, k0, c0, s, ul, u, r, c);
    }
  }

  lemma HoldsAt(g: array2<real>, v: Mat, i: nat, j: nat)
    requires Holds(g, v) && i < g.Length0 && j < g.Length1
    ensures g[i, j] == Cell(v, i, j)
  {}

  /** The loop of one work item over the rows of a tile, s apart. */
  method LoadItem(dst: array2<real>, g: array2<real>, k0: nat, c0: nat, s: nat, ul: nat, ghost v: Mat, ghost d: Mat)
    returns (ghost e: Mat)
    requires Holds(g, v) && Holds(dst, d) && dst != g && IsBlock(dst.Length0, s) && ul < s * dst.Length1
    requires 0 < dst.Length1 && k0 + dst.Length0 <= g.Length0 && c0 + dst.Length1 <= g.Length1
    requires ItemTo(d, v, dst.Length0, dst.Length1, k0, c0, s, ul, 0)
    modifies dst
    ensures Holds(dst, e) && ItemTo(e, v, dst.Length0, dst.Length1, k0, c0, s, ul + 1, 0)
  {
    hide *;
    SplitBelow(ul, dst.Length1, s);
    Split(ul, dst.Length1);
    var l1, l2 := ul % dst.Length1, ul / dst.Length1;
    e := LoadRows(dst, g, k0, c0, s, ul, l1, l2, v, d);
  }

  method LoadRows(dst: array2<real>, g: array2<real>, k0: nat, c0: nat, s: nat, ul: nat, l1: nat, l2: nat, ghost v: Mat,
                  ghost d: Mat) returns (ghost e: Mat)
    requires Holds(g, v) && Holds(dst, d) && dst != g && IsBlock(dst.Length0, s) && l1 < dst.Length1 && l2 < s
    requires k0 + dst.Length0 <= g.Length0 && c0 + dst.Length1 <= g.Length1 && ul == At(l2, dst.Length1, l1)
    requires ItemTo(d, v, dst.Length0, dst.Length1, k0, c0, s, ul, 0)
    modifies dst
    ensures Holds(dst, e) && ItemTo(e, v, dst.Length0, dst.Length1, k0, c0, s, ul + 1, 0)
  {
    var u := 0;
    e := d;
    BlockZero(s);
    hide *;
    while u < dst.Length0
      invariant IsBlock(u, s) && Holds(dst, e) && ItemTo(e, v, dst.Length0, dst.Length1, k0, c0, s, ul, u)
    {
      RowsFit(dst.Length0, u, s);
      HoldsAt(g, v, k0 + u + l2, c0 + l1);
      NextBlock(u, s);
      ItemNext(e, v, dst.Length0, dst.Length1, k0, c0, s, ul, l1, l2, u);
      e := Set(dst, u + l2, l1, g[k0 + u + l2, c0 + l1], e);
      u := u + s;
    }
    ItemEnd(e, v, dst.Length0, dst.Length1, k0, c0, s, ul, u, ul + 1);
  }

  lemma BlockZero(s: nat)
    requires 0 < s
    ensures IsBlock(0, s)
  {}

  predicate IsBlock(u: nat, s: nat) { 0 < s && u % s == 0 }

  lemma RowsFit(rows: nat, u: nat, s: nat)
    requires IsBlock(rows, s) && IsBlock(u, s) && u < rows
    ensures u + s <= rows
  {
    Split(u, s);
    Split(rows, s);
    WholeBlock(u / s, rows / s, s, 0);
  }

  lemma NextBlock(u: nat, s: nat)
    requires IsBlock(u, s)
    ensures IsBlock(u + s, s)
  {
    Split(u, s);
    Parts(u / s + 1, s, 0);
    assert At(u / s + 1, s, 0) == u + s;
  }

  /** One phase: all work items load their cells of a tile. */
  method Load(dst: array2<real>, g: array2<real>, k0: nat, c0: nat, s: nat, ghost v: Mat, ghost d: Mat)
    returns (ghost e: Mat)
    requires Holds(g, v) && Holds(dst, d) && dst != g && IsBlock(dst.Length0, s) && 0 < dst.Length1
    requires k0 + dst.Length0 <= g.Length0 && c0 + dst.Length1 <= g.Length1
    modifies dst
    ensures Holds(dst, e) && Tile(e, v, dst.Length0, dst.Length1, k0, c0)
  {
    e := d;
    LoadBegin(d, v, dst.Length0, dst.Length1, k0, c0, s, 0);
    hide *;
    for ul := 0 to Items(s, dst.Length1)
      invariant Holds(dst, e) && ItemTo(e, v, dst.Length0, dst.Length1, k0, c0, s, ul, 0)
    {
      assert ul < s * dst.Length1 by { ItemsAre(s, dst.Length1); }
      e := LoadItem(dst, g, k0, c0, s, ul, v, e);
    }
    LoadEnd(e, v, dst.Length0, dst.Length1, k0, c0, s);
  }

  function Items(s: nat, w: nat): nat { s * w }

  lemma ItemsAre(s: nat, w: nat)
    ensures Items(s, w) == s * w
  {}

  lemma LoadBegin(d: Mat, v: Mat, rows: nat, w: nat, k0: nat, c0: nat, s: nat, u: nat)
    requires Shaped(d, rows, w) && 0 < s && u == 0
    ensures ItemTo(d, v, rows, w, k0, c0, s, 0, u)
  {
    forall r, c | 0 <= r < rows && 0 <= c < w ensures CellTo(d, v, w, k0, c0, s, 0, u, r, c) {}
  }

  lemma LoadEnd(d: Mat, v: Mat, rows: nat, w: nat, k0: nat, c0: nat, s: nat)
    requires IsBlock(rows, s) && 0 < w && ItemTo(d, v, rows, w, k0, c0, s, Items(s, w), 0)
    ensures Tile(d, v, rows, w, k0, c0)
  {
    forall r, c | 0 <= r < rows && 0 <= c < w ensures d[r][c] == Cell(v, k0 + r, c0 + c) {
      OwnerIn(r, c, w, s, rows);
      assert CellTo(d, v, w, k0, c0, s, Items(s, w), 0, r, c);
      hide Owner;
    }
  }
}
