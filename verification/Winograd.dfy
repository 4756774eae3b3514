/** The arithmetic of the Winograd convolution F(3x3, 3x3) in src/common/nnet-cpu.cpp, over the reals: the kernel
    transform (lines 82-104), the input transform (lines 253-366), the output transform (lines 370-428), and why
    together they convolve. */
module Winograd {

  // ----- one dimension -----

  /** Row k of matG applied to a kernel of three. */
  function G(k: nat, g0: real, g1: real, g2: real): real {
    if k == 0 then g0 / 2.0
    else if k == 1 then -g0 / 2.0 - g1 / 2.0 - g2 / 2.0
    else if k == 2 then -g0 / 6.0 + g1 / 6.0 - g2 / 6.0
    else if k == 3 then g0 / 6.0 + g1 / 3.0 + 2.0 * g2 / 3.0
    else g2
  }

  /** Row k of the input transform applied to five values. */
  function B(k: nat, d0: real, d1: real, d2: real, d3: real, d4: real): real {
    if k == 0 then 2.0 * d0 - d1 - 2.0 * d2 + d3
    else if k == 1 then -2.0 * d1 - d2 + d3
    else if k == 2 then 2.0 * d1 - 3.0 * d2 + d3
    else if k == 3 then d3 - d1
    else 2.0 * d1 - d2 - 2.0 * d3 + d4
  }

  /** Row r of the output transform applied to five products. */
  function A(r: nat, m0: real, m1: real, m2: real, m3: real, m4: real): real {
    if r == 0 then m0 + m1 + m2 + m3
    else if r == 1 then m1 - m2 + 2.0 * m3
    else m1 + m2 + 4.0 * m3 + m4
  }

  /** A product, kept as one term where only its being a product of the same two numbers matters. */
  function Mul(x: real, y: real): real { x * y }

  /** Five products instead of nine: the transforms convolve three outputs at a time. */
  lemma F33(g0: real, g1: real, g2: real, d0: real, d1: real, d2: real, d3: real, d4: real, r: nat)
    requires r < 3
    ensures A(r, Mul(G(0, g0, g1, g2), B(0, d0, d1, d2, d3, d4)), Mul(G(1, g0, g1, g2), B(1, d0, d1, d2, d3, d4)),
                 Mul(G(2, g0, g1, g2), B(2, d0, d1, d2, d3, d4)), Mul(G(3, g0, g1, g2), B(3, d0, d1, d2, d3, d4)),
                 Mul(G(4, g0, g1, g2), B(4, d0, d1, d2, d3, d4)))
         == if r == 0 then Mul(g0, d0) + Mul(g1, d1) + Mul(g2, d2)
            else if r == 1 then Mul(g0, d1) + Mul(g1, d2) + Mul(g2, d3)
            else Mul(g0, d2) + Mul(g1, d3) + Mul(g2, d4)
  {}

  // ----- two dimensions: a kernel of 3x3, a tile of 5x5 and outputs of 3x3, all in row order -----

  type Kernel = g: seq<real> | |g| == 9 witness [0.0, 0.0, 0.0, 0.0, 0.0, 0.0, 0.0, 0.0, 0.0]
  type Tile = d: seq<real> | |d| == 25 witness seq(25, i => 0.0)

  /** The 25 sums of compute_matV_child. */
  function MatV(d: Tile, t: nat): real {
    if t == 0 then
      4.0 * d[0] - 2.0 * d[1] - 4.0 * d[2] + 2.0 * d[3] - 2.0 * d[5] + d[6] + 2.0 * d[7] - d[8] - 4.0 * d[10]
      + 2.0 * d[11] + 4.0 * d[12] - 2.0 * d[13] + 2.0 * d[15] - d[16] - 2.0 * d[17] + d[18]
    else if t == 1 then
      -4.0 * d[1] - 2.0 * d[2] + 2.0 * d[3] + 2.0 * d[6] + d[7] - d[8] + 4.0 * d[11] + 2.0 * d[12]
      - 2.0 * d[13] - 2.0 * d[16] - d[17] + d[18]
    else if t == 2 then
      4.0 * d[1] - 6.0 * d[2] + 2.0 * d[3] - 2.0 * d[6] + 3.0 * d[7] - d[8] - 4.0 * d[11] + 6.0 * d[12]
      - 2.0 * d[13] + 2.0 * d[16] - 3.0 * d[17] + d[18]
    else if t == 3 then
      -2.0 * d[1] + 2.0 * d[3] + d[6] - d[8] + 2.0 * d[11] - 2.0 * d[13] - d[16] + d[18]
    else if t == 4 then
      4.0 * d[1] - 2.0 * d[2] - 4.0 * d[3] + 2.0 * d[4] - 2.0 * d[6] + d[7] + 2.0 * d[8] - d[9] - 4.0 * d[11]
      + 2.0 * d[12] + 4.0 * d[13] - 2.0 * d[14] + 2.0 * d[16] - d[17] - 2.0 * d[18] + d[19]
    else if t == 5 then
      -4.0 * d[5] + 2.0 * d[6] + 4.0 * d[7] - 2.0 * d[8] - 2.0 * d[10] + d[11] + 2.0 * d[12] - d[13]
      + 2.0 * d[15] - d[16] - 2.0 * d[17] + d[18]
    else if t == 6 then
      4.0 * d[6] + 2.0 * d[7] - 2.0 * d[8] + 2.0 * d[11] + d[12] - d[13] - 2.0 * d[16] - d[17] + d[18]
    else if t == 7 then
      -4.0 * d[6] + 6.0 * d[7] - 2.0 * d[8] - 2.0 * d[11] + 3.0 * d[12] - d[13] + 2.0 * d[16] - 3.0 * d[17]
      + d[18]
    else if t == 8 then
      2.0 * d[6] - 2.0 * d[8] + d[11] - d[13] - d[16] + d[18]
    else if t == 9 then
      -4.0 * d[6] + 2.0 * d[7] + 4.0 * d[8] - 2.0 * d[9] - 2.0 * d[11] + d[12] + 2.0 * d[13] - d[14]
      + 2.0 * d[16] - d[17] - 2.0 * d[18] + d[19]
    else if t == 10 then
      4.0 * d[5] - 2.0 * d[6] - 4.0 * d[7] + 2.0 * d[8] - 6.0 * d[10] + 3.0 * d[11] + 6.0 * d[12] - 3.0 * d[13]
      + 2.0 * d[15] - d[16] - 2.0 * d[17] + d[18]
    else if t == 11 then
      -4.0 * d[6] - 2.0 * d[7] + 2.0 * d[8] + 6.0 * d[11] + 3.0 * d[12] - 3.0 * d[13] - 2.0 * d[16] - d[17]
      + d[18]
    else if t == 12 then
      4.0 * d[6] - 6.0 * d[7] + 2.0 * d[8] - 6.0 * d[11] + 9.0 * d[12] - 3.0 * d[13] + 2.0 * d[16]
      - 3.0 * d[17] + d[18]
    else if t == 13 then
      -2.0 * d[6] + 2.0 * d[8] + 3.0 * d[11] - 3.0 * d[13] - d[16] + d[18]
    else if t == 14 then
      4.0 * d[6] - 6.0 * d[11] + 2.0 * d[16] - 2.0 * d[7] + 3.0 * d[12] - d[17] - 4.0 * d[8] + 6.0 * d[13]
      - 2.0 * d[18] + 2.0 * d[9] - 3.0 * d[14] + d[19]
    else if t == 15 then
      -2.0 * d[5] + d[6] + 2.0 * d[7] - d[8] + 2.0 * d[15] - d[16] - 2.0 * d[17] + d[18]
    else if t == 16 then
      2.0 * d[6] + d[7] - d[8] - 2.0 * d[16] - d[17] + d[18]
    else if t == 17 then
      -2.0 * d[6] + 3.0 * d[7] - d[8] + 2.0 * d[16] - 3.0 * d[17] + d[18]
    else if t == 18 then
      d[6] - d[8] - d[16] + d[18]
    else if t == 19 then
      -2.0 * d[6] + 2.0 * d[16] + d[7] - d[17] + 2.0 * d[8] - 2.0 * d[18] - d[9] + d[19]
    else if t == 20 then
      4.0 * d[5] - 2.0 * d[6] - 4.0 * d[7] + 2.0 * d[8] - 2.0 * d[10] + d[11] + 2.0 * d[12] - d[13]
      - 4.0 * d[15] + 2.0 * d[16] + 4.0 * d[17] - 2.0 * d[18] + 2.0 * d[20] - d[21] - 2.0 * d[22] + d[23]
    else if t == 21 then
      -4.0 * d[6] - 2.0 * d[7] + 2.0 * d[8] + 2.0 * d[11] + d[12] - d[13] + 4.0 * d[16] + 2.0 * d[17]
      - 2.0 * d[18] - 2.0 * d[21] - d[22] + d[23]
    else if t == 22 then
      4.0 * d[6] - 6.0 * d[7] + 2.0 * d[8] - 2.0 * d[11] + 3.0 * d[12] - d[13] - 4.0 * d[16] + 6.0 * d[17]
      - 2.0 * d[18] + 2.0 * d[21] - 3.0 * d[22] + d[23]
    else if t == 23 then
      -2.0 * d[6] + 2.0 * d[8] + d[11] - d[13] + 2.0 * d[16] - 2.0 * d[18] - d[21] + d[23]
    else
      4.0 * d[6] - 2.0 * d[7] - 4.0 * d[8] + 2.0 * d[9] - 2.0 * d[11] + d[12] + 2.0 * d[13] - d[14]
      - 4.0 * d[16] + 2.0 * d[17] + 4.0 * d[18] - 2.0 * d[19] + 2.0 * d[21] - d[22] - 2.0 * d[23] + d[24]
  }

  /** The nine sums of compute_matA_child. */
  function MatA(m: Tile, q: nat): real {
    if q == 0 then
      m[0] + m[1] + m[2] + m[3] + m[5] + m[6] + m[7] + m[8] + m[10] + m[11] + m[12] + m[13] + m[15] + m[16]
      + m[17] + m[18]
    else if q == 1 then
      m[1] - m[2] + 2.0 * m[3] + m[6] - m[7] + 2.0 * m[8] + m[11] - m[12] + 2.0 * m[13] + m[16] - m[17]
      + 2.0 * m[18]
    else if q == 2 then
      m[1] + m[2] + 4.0 * m[3] + m[4] + m[6] + m[7] + 4.0 * m[8] + m[9] + m[11] + m[12] + 4.0 * m[13] + m[14]
      + m[16] + m[17] + 4.0 * m[18] + m[19]
    else if q == 3 then
      m[5] + m[6] + m[7] + m[8] - m[10] - m[11] - m[12] - m[13] + 2.0 * m[15] + 2.0 * m[16] + 2.0 * m[17]
      + 2.0 * m[18]
    else if q == 4 then
      m[6] - m[7] + 2.0 * m[8] - m[11] + m[12] - 2.0 * m[13] + 2.0 * m[16] - 2.0 * m[17] + 4.0 * m[18]
    else if q == 5 then
      m[6] + m[7] + 4.0 * m[8] + m[9] - m[11] - m[12] - 4.0 * m[13] - m[14] + 2.0 * m[16] + 2.0 * m[17]
      + 8.0 * m[18] + 2.0 * m[19]
    else if q == 6 then
      m[5] + m[6] + m[7] + m[8] + m[10] + m[11] + m[12] + m[13] + 4.0 * m[15] + 4.0 * m[16] + 4.0 * m[17]
      + 4.0 * m[18] + m[20] + m[21] + m[22] + m[23]
    else if q == 7 then
      m[6] - m[7] + 2.0 * m[8] + m[11] - m[12] + 2.0 * m[13] + 4.0 * m[16] - 4.0 * m[17] + 8.0 * m[18] + m[21]
      - m[22] + 2.0 * m[23]
    else
      m[6] + m[7] + 4.0 * m[8] + m[9] + m[11] + m[12] + 4.0 * m[13] + m[14] + 4.0 * m[16] + 4.0 * m[17]
      + 16.0 * m[18] + 4.0 * m[19] + m[21] + m[22] + 4.0 * m[23] + m[24]
  }

  /** Column x of the tile through row i of the transform. */
  function BCol(d: Tile, i: nat, x: nat): real
    requires x < 5
  {
    B(i, d[x], d[5 + x], d[10 + x], d[15 + x], d[20 + x])
  }

  function GCol(g: Kernel, i: nat, x: nat): real
    requires x < 3
  {
    G(i, g[x], g[3 + x], g[6 + x])
  }

  /** The transforms taken one dimension after the other. */
  function VAt(d: Tile, i: nat, j: nat): real
  {
    B(j, BCol(d, i, 0), BCol(d, i, 1), BCol(d, i, 2), BCol(d, i, 3), BCol(d, i, 4))
  }
  function UAt(g: Kernel, i: nat, j: nat): real { G(j, GCol(g, i, 0), GCol(g, i, 1), GCol(g, i, 2)) }

  function ARow(m: Tile, c: nat, i: nat): real
    requires i < 5
  {
    A(c, m[5 * i], m[5 * i + 1], m[5 * i + 2], m[5 * i + 3], m[5 * i + 4])
  }
  function OAt(m: Tile, r: nat, c: nat): real
  {
    A(r, ARow(m, c, 0), ARow(m, c, 1), ARow(m, c, 2), ARow(m, c, 3), ARow(m, c, 4))
  }

  /** The written-out sums are these transforms. */
  lemma MatVSeparates(d: Tile, i: nat, j: nat)
    requires i < 5 && j < 5
    ensures MatV(d, 5 * i + j) == VAt(d, i, j)
  {
    if i == 0 { if j == 0 {} else if j == 1 {} else if j == 2 {} else if j == 3 {} else {} }
    else if i == 1 { if j == 0 {} else if j == 1 {} else if j == 2 {} else if j == 3 {} else {} }
    else if i == 2 { if j == 0 {} else if j == 1 {} else if j == 2 {} else if j == 3 {} else {} }
    else if i == 3 { if j == 0 {} else if j == 1 {} else if j == 2 {} else if j == 3 {} else {} }
    else { if j == 0 {} else if j == 1 {} else if j == 2 {} else if j == 3 {} else {} }
  }

  lemma MatASeparates(m: Tile, r: nat, c: nat)
    requires r < 3 && c < 3
    ensures MatA(m, 3 * r + c) == OAt(m, r, c)
  {
    if r == 0 { if c == 0 {} else if c == 1 {} else {} }
    else if r == 1 { if c == 0 {} else if c == 1 {} else {} }
    else { if c == 0 {} else if c == 1 {} else {} }
  }

  /** What one output of a tile should be: the kernel laid over the tile at (r, c). */
  function TileConv(g: Kernel, d: Tile, r: nat, c: nat): real
    requires r < 3 && c < 3
  {
    Mul(g[0], d[5 * r + c]) + Mul(g[1], d[5 * r + c + 1]) + Mul(g[2], d[5 * r + c + 2])
    + Mul(g[3], d[5 * r + c + 5]) + Mul(g[4], d[5 * r + c + 6]) + Mul(g[5], d[5 * r + c + 7])
    + Mul(g[6], d[5 * r + c + 10]) + Mul(g[7], d[5 * r + c + 11]) + Mul(g[8], d[5 * r + c + 12])
  }

  /** m holds the products of the transformed kernel and the transformed tile. */
  ghost predicate AreProducts(g: Kernel, d: Tile, m: Tile) {
    forall i, j | 0 <= i < 5 && 0 <= j < 5 :: m[5 * i + j] == Mul(UAt(g, i, j), VAt(d, i, j))
  }

  /** Row i of the products, brought to output column c: the kernel's columns, transformed, against the tile's. */
  lemma RowConvolves(g: Kernel, d: Tile, m: Tile, i: nat, c: nat)
    requires i < 5 && c < 3 && AreProducts(g, d, m)
    ensures ARow(m, c, i) == Mul(GCol(g, i, 0), BCol(d, i, c)) + Mul(GCol(g, i, 1), BCol(d, i, c + 1))
        + Mul(GCol(g, i, 2), BCol(d, i, c + 2))
  {
    assert m[5 * i + 0] == Mul(UAt(g, i, 0), VAt(d, i, 0)) && m[5 * i + 1] == Mul(UAt(g, i, 1), VAt(d, i, 1));
    assert m[5 * i + 2] == Mul(UAt(g, i, 2), VAt(d, i, 2)) && m[5 * i + 3] == Mul(UAt(g, i, 3), VAt(d, i, 3));
    assert m[5 * i + 4] == Mul(UAt(g, i, 4), VAt(d, i, 4));
    F33(GCol(g, i, 0), GCol(g, i, 1), GCol(g, i, 2),
        BCol(d, i, 0), BCol(d, i, 1), BCol(d, i, 2), BCol(d, i, 3), BCol(d, i, 4), c);
    hide GCol, BCol, A, G, B, Mul, AreProducts;
    if c == 0 {} else if c == 1 {} else {}
  }

  /** The output transform is linear. */
  lemma ALinear(r: nat, x0: real, x1: real, x2: real, x3: real, x4: real, y0: real, y1: real, y2: real, y3: real,
                y4: real,
                z0: real, z1: real, z2: real, z3: real, z4: real)
    ensures A(r, x0 + y0 + z0, x1 + y1 + z1, x2 + y2 + z2, x3 + y3 + z3, x4 + y4 + z4)
         == A(r, x0, x1, x2, x3, x4) + A(r, y0, y1, y2, y3, y4) + A(r, z0, z1, z2, z3, z4)
  {}

  /** One kernel column against one tile column. */
  lemma ColumnConvolves(g: Kernel, d: Tile, r: nat, k: nat, x: nat)
    requires r < 3 && k < 3 && x < 5
    ensures A(r, Mul(GCol(g, 0, k), BCol(d, 0, x)), Mul(GCol(g, 1, k), BCol(d, 1, x)),
              Mul(GCol(g, 2, k), BCol(d, 2, x)),
                 Mul(GCol(g, 3, k), BCol(d, 3, x)), Mul(GCol(g, 4, k), BCol(d, 4, x)))
         == Mul(g[k], d[5 * r + x]) + Mul(g[3 + k], d[5 * r + x + 5]) + Mul(g[6 + k], d[5 * r + x + 10])
  {
    F33(g[k], g[3 + k], g[6 + k], d[x], d[5 + x], d[10 + x], d[15 + x], d[20 + x], r);
    hide A, G, B, Mul;
    if r == 0 {} else if r == 1 {} else {}
  }

  /** Transform, multiply, transform back: the nine outputs of a tile are the convolution of kernel and tile. */
  lemma TileConvolves(g: Kernel, d: Tile, m: Tile, r: nat, c: nat)
    requires r < 3 && c < 3 && AreProducts(g, d, m)
    ensures MatA(m, 3 * r + c) == TileConv(g, d, r, c)
  {
    MatASeparates(m, r, c);
    RowConvolves(g, d, m, 0, c);
    RowConvolves(g, d, m, 1, c);
    RowConvolves(g, d, m, 2, c);
    RowConvolves(g, d, m, 3, c);
    RowConvolves(g, d, m, 4, c);
    ColumnConvolves(g, d, r, 0, c);
    ColumnConvolves(g, d, r, 1, c + 1);
    ColumnConvolves(g, d, r, 2, c + 2);
    ALinear(r,
      Mul(GCol(g, 0, 0), BCol(d, 0, c)), Mul(GCol(g, 1, 0), BCol(d, 1, c)), Mul(GCol(g, 2, 0), BCol(d, 2, c)),
      Mul(GCol(g, 3, 0), BCol(d, 3, c)), Mul(GCol(g, 4, 0), BCol(d, 4, c)),
      Mul(GCol(g, 0, 1), BCol(d, 0, c + 1)), Mul(GCol(g, 1, 1), BCol(d, 1, c + 1)),
          Mul(GCol(g, 2, 1), BCol(d, 2, c + 1)),
      Mul(GCol(g, 3, 1), BCol(d, 3, c + 1)), Mul(GCol(g, 4, 1), BCol(d, 4, c + 1)),
      Mul(GCol(g, 0, 2), BCol(d, 0, c + 2)), Mul(GCol(g, 1, 2), BCol(d, 1, c + 2)),
          Mul(GCol(g, 2, 2), BCol(d, 2, c + 2)),
      Mul(GCol(g, 3, 2), BCol(d, 3, c + 2)), Mul(GCol(g, 4, 2), BCol(d, 4, c + 2)));
    hide A, GCol, BCol, ARow, MatA, Mul, AreProducts;
  }
}
