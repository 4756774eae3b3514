/** The convolution layer by way of transforms equals the zero-padded 3x3 convolution of the 9x9 board
    (src/common/nnet-cpu.cpp:82-104, 253-269, 370-383, 458-489), for any number of channels. */
module WinogradConv {
  import opened Winograd

  type Plane = p: seq<real> | |p| == 81 witness seq(81, i => 0.0)

  /** One plane a channel. */
  type Planes = seq<Plane>

  /** The plane, with zeros around it. */
  function Pad(p: Plane, y: int, x: int): real { if 0 <= y < 9 && 0 <= x < 9 then p[9 * y + x] else 0.0 }

  /** The 5x5 input tile of output tile (uh, uw). */
  function TileOf(p: Plane, uh: nat, uw: nat): Tile {
    seq(25, k requires 0 <= k < 25 => Pad(p, 3 * uh - 1 + k / 5, 3 * uw - 1 + k % 5))
  }

  /** The 3x3 kernel laid over the padded plane at (y, x). */
  function KernelAt(g: Kernel, p: Plane, y: nat, x: nat): real {
    Mul(g[0], Pad(p, y - 1, x - 1)) + Mul(g[1], Pad(p, y - 1, x)) + Mul(g[2], Pad(p, y - 1, x + 1))
    + Mul(g[3], Pad(p, y, x - 1)) + Mul(g[4], Pad(p, y, x)) + Mul(g[5], Pad(p, y, x + 1))
    + Mul(g[6], Pad(p, y + 1, x - 1)) + Mul(g[7], Pad(p, y + 1, x)) + Mul(g[8], Pad(p, y + 1, x + 1))
  }

  /** The convolution: kernels over planes, summed over the first n channels. */
  function ConvSum(ks: seq<Kernel>, xs: Planes, y: nat, x: nat, n: nat): real
    requires n <= |ks| && n <= |xs|
  {
    if n == 0 then 0.0 else ConvSum(ks, xs, y, x, n - 1) + KernelAt(ks[n - 1], xs[n - 1], y, x)
  }

  lemma TileRow(p: Plane, uh: nat, uw: nat, a: nat, b: nat)
    requires a < 5 && b < 5
    ensures TileOf(p, uh, uw)[5 * a + b] == Pad(p, 3 * uh - 1 + a, 3 * uw - 1 + b)
  {}

  /** Laying the kernel over the tile is laying it over the plane. */
  lemma TileIsPlane(g: Kernel, p: Plane, uh: nat, uw: nat, r: nat, c: nat)
    requires r < 3 && c < 3
    ensures TileConv(g, TileOf(p, uh, uw), r, c) == KernelAt(g, p, 3 * uh + r, 3 * uw + c)
  {
    TileRow(p, uh, uw, r, c); TileRow(p, uh, uw, r, c + 1); TileRow(p, uh, uw, r, c + 2);
    TileRow(p, uh, uw, r + 1, c); TileRow(p, uh, uw, r + 1, c + 1); TileRow(p, uh, uw, r + 1, c + 2);
    TileRow(p, uh, uw, r + 2, c); TileRow(p, uh, uw, r + 2, c + 1); TileRow(p, uh, uw, r + 2, c + 2);
    hide TileOf, Pad, Mul;
  }

  /** Transform t of a kernel and of a tile. */
  function UT(g: Kernel, t: nat): real { UAt(g, t / 5, t % 5) }
  function VT(d: Tile, t: nat): real { VAt(d, t / 5, t % 5) }

  /** compute_matM, one cell: products summed over the first n channels. */
  function Dot(ks: seq<Kernel>, xs: Planes, uh: nat, uw: nat, t: nat, n: nat): real
    requires n <= |ks| && n <= |xs|
  {
    if n == 0 then 0.0 else Dot(ks, xs, uh, uw, t, n - 1) + Mul(UT(ks[n - 1], t), VT(TileOf(xs[n - 1], uh, uw), t))
  }
  function DotTile(ks: seq<Kernel>, xs: Planes, uh: nat, uw: nat, n: nat): Tile
    requires n <= |ks| && n <= |xs|
  {
    seq(25, t requires 0 <= t < 25 => Dot(ks, xs, uh, uw, t, n))
  }
  function ProductTile(g: Kernel, d: Tile): Tile { seq(25, t requires 0 <= t < 25 => Mul(UT(g, t), VT(d, t))) }

  lemma ProductTileIs(g: Kernel, d: Tile)
    ensures AreProducts(g, d, ProductTile(g, d))
  {}

  lemma MatAAdds(a: Tile, b: Tile, s: Tile, q: nat)
    requires q < 9 && forall t | 0 <= t < 25 :: s[t] == a[t] + b[t]
    ensures MatA(s, q) == MatA(a, q) + MatA(b, q)
  {
    if q == 0 {} else if q == 1 {} else if q == 2 {} else if q == 3 {} else if q == 4 {}
    else if q == 5 {} else if q == 6 {} else if q == 7 {} else {}
  }

  /** One channel more adds one kernel's share on either side. */
  lemma OneMoreChannel(ks: seq<Kernel>, xs: Planes, uh: nat, uw: nat, r: nat, c: nat, n: nat)
    requires 0 < n <= |ks| && n <= |xs| && r < 3 && c < 3
    ensures MatA(DotTile(ks, xs, uh, uw, n), 3 * r + c) ==
            MatA(DotTile(ks, xs, uh, uw, n - 1), 3 * r + c) + KernelAt(ks[n - 1], xs[n - 1], 3 * uh + r, 3 * uw + c)
  {
    var g, d := ks[n - 1], TileOf(xs[n - 1], uh, uw);
    hide *;
    ProductTileIs(g, d);
    TileConvolves(g, d, ProductTile(g, d), r, c);
    TileIsPlane(g, xs[n - 1], uh, uw, r, c);
    MatAAdds(DotTile(ks, xs, uh, uw, n - 1), ProductTile(g, d), DotTile(ks, xs, uh, uw, n), 3 * r + c);
  }

  /** The back-transformed sum over the channels is the convolution, for every tile and every place in it. */
  lemma {:induction false} ChannelsConvolve(ks: seq<Kernel>, xs: Planes, uh: nat, uw: nat, r: nat, c: nat, n: nat)
    requires n <= |ks| && n <= |xs| && r < 3 && c < 3
    ensures MatA(DotTile(ks, xs, uh, uw, n), 3 * r + c) == ConvSum(ks, xs, 3 * uh + r, 3 * uw + c, n)
  {
    hide MatA, DotTile, KernelAt;
    if n == 0 {
      NoDots(ks, xs, uh, uw);
      NoChannels(DotTile(ks, xs, uh, uw, 0), 3 * r + c);
    } else {
      ChannelsConvolve(ks, xs, uh, uw, r, c, n - 1);
      OneMoreChannel(ks, xs, uh, uw, r, c, n);
    }
  }

  lemma NoDots(ks: seq<Kernel>, xs: Planes, uh: nat, uw: nat)
    ensures forall t | 0 <= t < 25 :: DotTile(ks, xs, uh, uw, 0)[t] == 0.0
  {}

  lemma NoChannels(m: Tile, q: nat)
    requires q < 9 && forall t | 0 <= t < 25 :: m[t] == 0.0
    ensures MatA(m, q) == 0.0
  {}

  // ----- gen_matU -----

  function MatG(k: nat, u: nat): real {
    if k == 0 then (if u == 0 then 0.5 else 0.0)
    else if k == 1 then -0.5
    else if k == 2 then (if u == 1 then 1.0 / 6.0 else -1.0 / 6.0)
    else if k == 3 then (if u == 0 then 1.0 / 6.0 else if u == 1 then 1.0 / 3.0 else 2.0 / 3.0)
    else if u == 2 then 1.0 else 0.0
  }

  function UTerm(g: Kernel, uh: nat, uw: nat, k: nat): real
    requires k < 9
  {
    MatG(uh, k / 3) * MatG(uw, k % 3) * g[k]
  }

  /** The double sum of gen_matU over its first n terms. */
  function USum(g: Kernel, uh: nat, uw: nat, n: nat): real
    requires n <= 9
  {
    if n == 0 then 0.0 else USum(g, uh, uw, n - 1) + UTerm(g, uh, uw, n - 1)
  }

  lemma USumAll(g: Kernel, uh: nat, uw: nat)
    ensures USum(g, uh, uw, 9) == UTerm(g, uh, uw, 0) + UTerm(g, uh, uw, 1) + UTerm(g, uh, uw, 2) + UTerm(g, uh, uw, 3)
      + UTerm(g, uh, uw, 4) + UTerm(g, uh, uw, 5) + UTerm(g, uh, uw, 6) + UTerm(g, uh, uw, 7) + UTerm(g, uh, uw, 8)
  {
    hide UTerm;
    assert USum(g, uh, uw, 1) == USum(g, uh, uw, 0) + UTerm(g, uh, uw, 0);
    assert USum(g, uh, uw, 2) == USum(g, uh, uw, 1) + UTerm(g, uh, uw, 1);
    assert USum(g, uh, uw, 3) == USum(g, uh, uw, 2) + UTerm(g, uh, uw, 2);
    assert USum(g, uh, uw, 4) == USum(g, uh, uw, 3) + UTerm(g, uh, uw, 3);
    assert USum(g, uh, uw, 5) == USum(g, uh, uw, 4) + UTerm(g, uh, uw, 4);
    assert USum(g, uh, uw, 6) == USum(g, uh, uw, 5) + UTerm(g, uh, uw, 5);
    assert USum(g, uh, uw, 7) == USum(g, uh, uw, 6) + UTerm(g, uh, uw, 6);
    assert USum(g, uh, uw, 8) == USum(g, uh, uw, 7) + UTerm(g, uh, uw, 7);
  }

  lemma UTerms(g: Kernel, i: nat, j: nat)
    ensures UTerm(g, i, j, 0) == MatG(i, 0) * MatG(j, 0) * g[0] && UTerm(g, i, j, 1) == MatG(i, 0) * MatG(j, 1) * g[1]
    ensures UTerm(g, i, j, 2) == MatG(i, 0) * MatG(j, 2) * g[2] && UTerm(g, i, j, 3) == MatG(i, 1) * MatG(j, 0) * g[3]
    ensures UTerm(g, i, j, 4) == MatG(i, 1) * MatG(j, 1) * g[4] && UTerm(g, i, j, 5) == MatG(i, 1) * MatG(j, 2) * g[5]
    ensures UTerm(g, i, j, 6) == MatG(i, 2) * MatG(j, 0) * g[6] && UTerm(g, i, j, 7) == MatG(i, 2) * MatG(j, 1) * g[7]
    ensures UTerm(g, i, j, 8) == MatG(i, 2) * MatG(j, 2) * g[8]
  {
    hide MatG;
  }

  /** The double sum is the kernel transform. */
  lemma USumIsTransform(g: Kernel, i: nat, j: nat)
    requires i < 5 && j < 5
    ensures USum(g, i, j, 9) == UAt(g, i, j)
  {
    USumAll(g, i, j);
    UTerms(g, i, j);
    if i == 0 { if j == 0 {} else if j == 1 {} else if j == 2 {} else if j == 3 {} else {} }
    else if i == 1 { if j == 0 {} else if j == 1 {} else if j == 2 {} else if j == 3 {} else {} }
    else if i == 2 { if j == 0 {} else if j == 1 {} else if j == 2 {} else if j == 3 {} else {} }
    else if i == 3 { if j == 0 {} else if j == 1 {} else if j == 2 {} else if j == 3 {} else {} }
    else { if j == 0 {} else if j == 1 {} else if j == 2 {} else if j == 3 {} else {} }
  }
}
