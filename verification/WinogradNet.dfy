/** The body of the network as push_ff runs it, in place on the transformed buffers (src/common/nnet-cpu.cpp:253-365,
    370-445, 464-559, 602-649), against a plain residual tower. */
module WinogradNet {
  import opened Winograd
  import opened WinogradConv

  // ----- the plain tower -----

  /** Kernels by output and input channel, and the batch normalisation of the outputs. */
  datatype Layer = Layer(kernels: seq<seq<Kernel>>, mean: seq<real>, sdInv: seq<real>)

  ghost predicate LayerOk(l: Layer, nout: nat, nin: nat) {
    |l.kernels| == |l.mean| == |l.sdInv| == nout && forall o | 0 <= o < nout :: |l.kernels[o]| == nin
  }

  function Relu(v: real): real { if v < 0.0 then 0.0 else v }

  function Norm(l: Layer, o: nat, v: real): real
    requires o < |l.mean| && o < |l.sdInv|
  {
    l.sdInv[o] * (v - l.mean[o])
  }

  function ConvPlane(ks: seq<Kernel>, xs: Planes): Plane
    requires |ks| == |xs|
  {
    seq(81, u requires 0 <= u < 81 => ConvSum(ks, xs, u / 9, u % 9, |xs|))
  }

  function NormPlane(l: Layer, o: nat, p: Plane): Plane
    requires o < |l.mean| && o < |l.sdInv|
  {
    seq(81, u requires 0 <= u < 81 => Relu(Norm(l, o, p[u])))
  }
  function JoinPlane(l: Layer, o: nat, f: Plane, p: Plane): Plane
    requires o < |l.mean| && o < |l.sdInv|
  {
    seq(81, u requires 0 <= u < 81 => Relu(f[u] + Norm(l, o, p[u])))
  }

  /** Convolution, batch normalisation, ReLU. */
  function Plain(l: Layer, xs: Planes): Planes
    requires LayerOk(l, |l.kernels|, |xs|)
  {
    seq(|l.kernels|, o requires 0 <= o < |l.kernels| => NormPlane(l, o, ConvPlane(l.kernels[o], xs)))
  }

  /** Convolution and batch normalisation, added to the shortcut f, then ReLU. */
  function Joined(l: Layer, f: Planes, xs: Planes): Planes
    requires LayerOk(l, |l.kernels|, |xs|) && |f| == |l.kernels|
  {
    seq(|l.kernels|, o requires 0 <= o < |l.kernels| => JoinPlane(l, o, f[o], ConvPlane(l.kernels[o], xs)))
  }

  function Block(l1: Layer, l2: Layer, h: Planes): (r: Planes)
    requires LayerOk(l1, |h|, |h|) && LayerOk(l2, |h|, |h|)
    ensures |r| == |h|
  {
    Joined(l2, h, Plain(l1, h))
  }

  ghost predicate BlocksOk(ls: seq<Layer>, n: nat) { |ls| % 2 == 0 && forall k | 0 <= k < |ls| :: LayerOk(ls[k], n, n) }

  ghost function Blocks(ls: seq<Layer>, h: Planes): (r: Planes)
    requires BlocksOk(ls, |h|)
    ensures |r| == |h|
    decreases |ls|
  {
    if ls == [] then h else Blocks(ls[2..], Block(ls[0], ls[1], h))
  }

  /** Input layer, then residual blocks of two layers. */
  ghost function Tower(ls: seq<Layer>, x: Planes): Planes
    requires ls != [] && LayerOk(ls[0], |ls[0].kernels|, |x|) && BlocksOk(ls[1..], |ls[0].kernels|)
  {
    Blocks(ls[1..], Plain(ls[0], x))
  }

  // ----- what the buffers hold -----

  function TileNo(p: Plane, s: nat): Tile { TileOf(p, s / 3, s % 3) }

  /** The cells of one channel of one sample. */
  ghost predicate VCell(v: array4<real>, p: Plane, ch: nat, ub: nat)
    requires v.Length0 == 25 && v.Length3 == 9 && ch < v.Length1 && ub < v.Length2
    reads v
  {
    forall t, s | 0 <= t < 25 && 0 <= s < 9 :: v[t, ch, ub, s] == VT(TileNo(p, s), t)
  }

  lemma MatVIs(d: Tile, t: nat)
    requires t < 25
    ensures MatV(d, t) == VT(d, t)
  {
    MatVSeparates(d, t / 5, t % 5);
    hide MatV, VAt;
  }

  /** Fetch a tile, with zeros for what lies outside the board. */
  method LoadTile(p: Plane, uh: nat, uw: nat) returns (d: Tile)
    ensures d == TileOf(p, uh, uw)
  {
    var md: seq<real> := [];
    var y0, x0 := 3 * uh - 1, 3 * uw - 1;
    var k := 0;
    while k < 25
      invariant 0 <= k <= 25 && |md| == k && forall a | 0 <= a < k :: md[a] == Pad(p, y0 + a / 5, x0 + a % 5)
    {
      var y, x := k / 5, k % 5;
      if 0 <= y0 + y && y0 + y < 9 && 0 <= x0 + x && x0 + x < 9 {
        md := md + [p[(y0 + y) * 9 + x0 + x]];
      } else {
        md := md + [0.0];
      }
      k := k + 1;
    }
    d := md;
  }

  /** The 25 stores of compute_matV_child for one tile. */
  method StoreTile(d: Tile, v: array4<real>, ch: nat, ub: nat, s: nat)
    requires v.Length0 == 25 && v.Length3 == 9 && ch < v.Length1 && ub < v.Length2 && s < 9
    modifies v
    ensures forall t | 0 <= t < 25 :: v[t, ch, ub, s] == VT(d, t)
    ensures forall t, c, b, r | 0 <= t < 25 && 0 <= c < v.Length1 && 0 <= b < v.Length2 && 0 <= r < 9
        && !(c == ch && b == ub && r == s) ::
              v[t, c, b, r] == old(v[t, c, b, r])
  {
    var t := 0;
    hide MatV, VT;
    while t < 25
      invariant 0 <= t <= 25
      invariant forall a | 0 <= a < t :: v[a, ch, ub, s] == VT(d, a)
      invariant forall a, c, b, r | 0 <= a < 25 && 0 <= c < v.Length1 && 0 <= b < v.Length2 && 0 <= r < 9
          && !(c == ch && b == ub && r == s) ::
                  v[a, c, b, r] == old(v[a, c, b, r])
    {
      MatVIs(d, t);
      v[t, ch, ub, s] := MatV(d, t);
      t := t + 1;
    }
  }

  /** compute_matV_child */
  method MatVChild(p: Plane, v: array4<real>, ch: nat, ub: nat)
    requires v.Length0 == 25 && v.Length3 == 9 && ch < v.Length1 && ub < v.Length2
    modifies v
    ensures VCell(v, p, ch, ub)
    ensures forall t, c, b, r | 0 <= t < 25 && 0 <= c < v.Length1 && 0 <= b < v.Length2 && 0 <= r < 9
        && !(c == ch && b == ub) ::
              v[t, c, b, r] == old(v[t, c, b, r])
  {
    var s := 0;
    hide VT, TileOf;
    while s < 9
      invariant 0 <= s <= 9
      invariant forall t, r | 0 <= t < 25 && 0 <= r < s :: v[t, ch, ub, r] == VT(TileNo(p, r), t)
      invariant forall t, c, b, r | 0 <= t < 25 && 0 <= c < v.Length1 && 0 <= b < v.Length2 && 0 <= r < 9
          && !(c == ch && b == ub) ::
                  v[t, c, b, r] == old(v[t, c, b, r])
    {
      var d := LoadTile(p, s / 3, s % 3);
      StoreTile(d, v, ch, ub, s);
      s := s + 1;
    }
  }

  /** compute_matV_input: the planes of all samples and input channels. */
  method MatVInput(fin: array3<real>, v: array4<real>, ghost xs: seq<Planes>)
    requires v.Length0 == 25 && v.Length3 == 9 && fin.Length2 == 81 && fin.Length1 <= v.Length1
        && fin.Length0 <= v.Length2
    requires |xs| == fin.Length0 && forall b | 0 <= b < |xs| :: |xs[b]| == fin.Length1
    requires forall b, c, u | 0 <= b < fin.Length0 && 0 <= c < fin.Length1 && 0 <= u < 81 :: fin[b, c, u] == xs[b][c][u]
    modifies v
    ensures forall b, c | 0 <= b < |xs| && 0 <= c < fin.Length1 :: VCell(v, xs[b][c], c, b)
  {
    var ub := 0;
    hide VT, TileNo;
    while ub < fin.Length0
      invariant 0 <= ub <= fin.Length0
      invariant forall b, c | 0 <= b < ub && 0 <= c < fin.Length1 :: VCell(v, xs[b][c], c, b)
    {
      var ch := 0;
      while ch < fin.Length1
        invariant 0 <= ch <= fin.Length1
        invariant forall b, c | 0 <= b < ub && 0 <= c < fin.Length1 :: VCell(v, xs[b][c], c, b)
        invariant forall c | 0 <= c < ch :: VCell(v, xs[ub][c], c, ub)
      {
        var p := seq(81, u requires 0 <= u < 81 reads fin => fin[ub, ch, u]);
        assert p == xs[ub][ch];
        MatVChild(p, v, ch, ub);
        ch := ch + 1;
      }
      ub := ub + 1;
    }
  }

  // ----- the kernel transform of a layer -----

  ghost predicate UHolds(um: array3<real>, l: Layer, nout: nat, nin: nat)
    reads um
  {
    LayerOk(l, nout, nin) && um.Length0 == 25 && um.Length1 == nout && um.Length2 == nin
    && forall t, o, k | 0 <= t < 25 && 0 <= o < nout && 0 <= k < nin :: um[t, o, k] == UT(l.kernels[o][k], t)
  }

  /** gen_matU for one kernel and one cell of the transform. */
  method KernelCell(g: Kernel, uh: nat, uw: nat) returns (fsum: real)
    requires uh < 5 && uw < 5
    ensures fsum == UT(g, 5 * uh + uw)
  {
    fsum := KernelSum(g, uh, uw);
    USumIsTransform(g, uh, uw);
    assert (5 * uh + uw) / 5 == uh && (5 * uh + uw) % 5 == uw;
    hide USum, UAt;
  }

  method KernelSum(g: Kernel, uh: nat, uw: nat) returns (fsum: real)
    ensures fsum == USum(g, uh, uw, 9)
  {
    fsum := 0.0;
    var u1 := 0;
    assert USum(g, uh, uw, 0) == 0.0;
    hide USum, MatG;
    while u1 < 3
      invariant 0 <= u1 <= 3 && fsum == USum(g, uh, uw, 3 * u1)
    {
      var u2 := 0;
      while u2 < 3
        invariant 0 <= u2 <= 3 && fsum == USum(g, uh, uw, 3 * u1 + u2)
      {
        USumNext(g, uh, uw, u1, u2);
        fsum := fsum + MatG(uh, u1) * MatG(uw, u2) * g[u1 * 3 + u2];
        u2 := u2 + 1;
      }
      u1 := u1 + 1;
    }
  }

  lemma USumNext(g: Kernel, uh: nat, uw: nat, u1: nat, u2: nat)
    requires u1 < 3 && u2 < 3
    ensures USum(g, uh, uw, 3 * u1 + u2 + 1) == USum(g, uh, uw, 3 * u1 + u2)
        + MatG(uh, u1) * MatG(uw, u2) * g[3 * u1 + u2]
  {}

  method GenMatU(nout: nat, nin: nat, l: Layer) returns (um: array3<real>)
    requires LayerOk(l, nout, nin)
    ensures fresh(um) && UHolds(um, l, nout, nin)
  {
    um := new real[25, nout, nin];
    var o := 0;
    hide UT;
    while o < nout
      invariant 0 <= o <= nout
      invariant forall t, a, k | 0 <= t < 25 && 0 <= a < o && 0 <= k < nin :: um[t, a, k] == UT(l.kernels[a][k], t)
    {
      var i := 0;
      while i < nin
        invariant 0 <= i <= nin
        invariant forall t, a, k | 0 <= t < 25 && 0 <= a < o && 0 <= k < nin :: um[t, a, k] == UT(l.kernels[a][k], t)
        invariant forall t, k | 0 <= t < 25 && 0 <= k < i :: um[t, o, k] == UT(l.kernels[o][k], t)
      {
        var c := 0;
        while c < 25
          invariant 0 <= c <= 25
          invariant forall t, a, k | 0 <= t < 25 && 0 <= a < o && 0 <= k < nin :: um[t, a, k] == UT(l.kernels[a][k], t)
          invariant forall t, k | 0 <= t < 25 && 0 <= k < i :: um[t, o, k] == UT(l.kernels[o][k], t)
          invariant forall t | 0 <= t < c :: um[t, o, i] == UT(l.kernels[o][i], t)
        {
          var f := KernelCell(l.kernels[o][i], c / 5, c % 5);
          um[c, o, i] := f;
          c := c + 1;
        }
        i := i + 1;
      }
      o := o + 1;
    }
  }

  // ----- the products -----

  ghost predicate MCell(m: array4<real>, ks: seq<Kernel>, xs: Planes, o: nat, ub: nat)
    requires m.Length0 == 25 && m.Length3 == 9 && o < m.Length1 && ub < m.Length2 && |ks| == |xs|
    reads m
  {
    forall t, s | 0 <= t < 25 && 0 <= s < 9 :: m[t, o, ub, s] == Dot(ks, xs, s / 3, s % 3, t, |xs|)
  }

  ghost predicate Shape(v: array4<real>, nch: nat, nb: nat)
  {
    v.Length0 == 25 && v.Length3 == 9 && nch <= v.Length1 && nb <= v.Length2
  }

  ghost predicate VHolds(v: array4<real>, xs: seq<Planes>, nch: nat)
    reads v
  {
    Shape(v, nch, |xs|) && (forall b | 0 <= b < |xs| :: |xs[b]| == nch)
    && forall b, c | 0 <= b < |xs| && 0 <= c < nch :: VCell(v, xs[b][c], c, b)
  }

  /** One cell of the matrix product, as cblas_sgemm computes it. */
  method ProductCell(um: array3<real>, v: array4<real>, l: Layer, nout: nat, nin: nat, ghost xs: seq<Planes>,
                     t: nat, o: nat, ub: nat, s: nat) returns (sum: real)
    requires UHolds(um, l, nout, nin) && VHolds(v, xs, nin) && t < 25 && o < nout && ub < |xs| && s < 9
    ensures sum == Dot(l.kernels[o], xs[ub], s / 3, s % 3, t, nin)
  {
    sum := 0.0;
    var k := 0;
    hide UT, VT, TileOf;
    while k < nin
      invariant 0 <= k <= nin && sum == Dot(l.kernels[o], xs[ub], s / 3, s % 3, t, k)
    {
      assert VCell(v, xs[ub][k], k, ub);
      assert v[t, k, ub, s] == VT(TileNo(xs[ub][k], s), t);
      sum := sum + um[t, o, k] * v[t, k, ub, s];
      k := k + 1;
    }
  }

  ghost predicate MHolds(m: array4<real>, l: Layer, xs: seq<Planes>, nout: nat, nin: nat)
    reads m
  {
    LayerOk(l, nout, nin) && Shape(m, nout, |xs|) && (forall b | 0 <= b < |xs| :: |xs[b]| == nin)
    && forall b, o | 0 <= b < |xs| && 0 <= o < nout :: MCell(m, l.kernels[o], xs[b], o, b)
  }

  /** The products of the nine tiles of one output channel and one sample, for one cell of the transform. */
  method ProductRow(um: array3<real>, v: array4<real>, l: Layer, nout: nat, nin: nat, ghost xs: seq<Planes>, t: nat,
                    o: nat, ub: nat)
    returns (row: seq<real>)
    requires UHolds(um, l, nout, nin) && VHolds(v, xs, nin) && t < 25 && o < nout && ub < |xs|
    ensures |row| == 9 && |xs[ub]| == nin == |l.kernels[o]|
    ensures forall s | 0 <= s < 9 :: row[s] == Dot(l.kernels[o], xs[ub], s / 3, s % 3, t, nin)
  {
    assert |xs[ub]| == nin && |l.kernels[o]| == nin;
    hide Dot, VHolds, UHolds, RowIs;
    row := [];
    while |row| < 9
      invariant |row| <= 9 && RowIs(row, l.kernels[o], xs[ub], t)
    {
      var sum := ProductCell(um, v, l, nout, nin, xs, t, o, ub, |row|);
      RowMore(row, l.kernels[o], xs[ub], t, sum);
      row := row + [sum];
    }
  }

  ghost predicate RowIs(row: seq<real>, ks: seq<Kernel>, xs: Planes, t: nat)
    requires |ks| == |xs|
  {
    forall s | 0 <= s < |row| :: row[s] == Dot(ks, xs, s / 3, s % 3, t, |xs|)
  }

  lemma RowMore(row: seq<real>, ks: seq<Kernel>, xs: Planes, t: nat, sum: real)
    requires |ks| == |xs| && RowIs(row, ks, xs, t) && sum == Dot(ks, xs, |row| / 3, |row| % 3, t, |xs|)
    ensures RowIs(row + [sum], ks, xs, t)
  {
    hide Dot;
  }

  method StoreRow(m: array4<real>, t: nat, o: nat, ub: nat, row: seq<real>)
    requires m.Length0 == 25 && m.Length3 == 9 && t < 25 && o < m.Length1 && ub < m.Length2 && |row| == 9
    modifies m
    ensures forall s | 0 <= s < 9 :: m[t, o, ub, s] == row[s]
    ensures forall a, c, b, r | 0 <= a < 25 && 0 <= c < m.Length1 && 0 <= b < m.Length2 && 0 <= r < 9
        && !(a == t && c == o && b == ub) ::
              m[a, c, b, r] == old(m[a, c, b, r])
  {
    var s := 0;
    while s < 9
      invariant 0 <= s <= 9 && forall r | 0 <= r < s :: m[t, o, ub, r] == row[r]
      invariant forall a, c, b, r | 0 <= a < 25 && 0 <= c < m.Length1 && 0 <= b < m.Length2 && 0 <= r < 9
          && !(a == t && c == o && b == ub) ::
                  m[a, c, b, r] == old(m[a, c, b, r])
    {
      m[t, o, ub, s] := row[s];
      s := s + 1;
    }
  }

  /** The products of one output channel and one sample. */
  method ProductCells(um: array3<real>, v: array4<real>, m: array4<real>, l: Layer, nout: nat, nin: nat,
                      ghost xs: seq<Planes>,
                      o: nat, ub: nat)
    requires LayerOk(l, nout, nin) && UHolds(um, l, nout, nin) && VHolds(v, xs, nin)
    requires Shape(m, nout, |xs|) && o < nout && ub < |xs| && m != v && |l.kernels[o]| == |xs[ub]| == nin
    modifies m
    ensures MCell(m, l.kernels[o], xs[ub], o, ub)
    ensures forall t, c, b, r | 0 <= t < 25 && 0 <= c < m.Length1 && 0 <= b < m.Length2 && 0 <= r < 9
        && !(c == o && b == ub) ::
              m[t, c, b, r] == old(m[t, c, b, r])
  {
    hide Dot, VHolds, UHolds;
    var t := 0;
    while t < 25
      invariant 0 <= t <= 25 && UHolds(um, l, nout, nin) && VHolds(v, xs, nin)
      invariant (forall a, r | 0 <= a < t && 0 <= r < 9 ::
                 m[a, o, ub, r] == Dot(l.kernels[o], xs[ub], r / 3, r % 3, a, nin))
      invariant forall a, c, b, r | 0 <= a < 25 && 0 <= c < m.Length1 && 0 <= b < m.Length2 && 0 <= r < 9
          && !(c == o && b == ub) ::
                  m[a, c, b, r] == old(m[a, c, b, r])
    {
      var row := ProductRow(um, v, l, nout, nin, xs, t, o, ub);
      StoreRow(m, t, o, ub, row);
      t := t + 1;
    }
  }

  /** compute_matM */
  method MatM(um: array3<real>, v: array4<real>, m: array4<real>, l: Layer, nout: nat, nin: nat, nb: nat,
              ghost xs: seq<Planes>)
    requires UHolds(um, l, nout, nin) && VHolds(v, xs, nin) && |xs| == nb && Shape(m, nout, nb) && m != v
    modifies m
    ensures MHolds(m, l, xs, nout, nin)
  {
    hide Dot, VHolds, UHolds;
    var o := 0;
    assert forall b | 0 <= b < nb :: |xs[b]| == nin by { VShape(v, xs, nin); }
    assert LayerOk(l, nout, nin) by { UShape(um, l, nout, nin); }
    while o < nout
      invariant 0 <= o <= nout && UHolds(um, l, nout, nin) && VHolds(v, xs, nin)
      invariant forall b, c | 0 <= b < nb && 0 <= c < o :: MCell(m, l.kernels[c], xs[b], c, b)
    {
      var ub := 0;
      while ub < nb
        invariant 0 <= ub <= nb && UHolds(um, l, nout, nin) && VHolds(v, xs, nin)
        invariant forall b, c | 0 <= b < nb && 0 <= c < o :: MCell(m, l.kernels[c], xs[b], c, b)
        invariant forall b | 0 <= b < ub :: MCell(m, l.kernels[o], xs[b], o, b)
      {
        ProductCells(um, v, m, l, nout, nin, xs, o, ub);
        ub := ub + 1;
      }
      o := o + 1;
    }
  }

  lemma VShape(v: array4<real>, xs: seq<Planes>, nch: nat)
    requires VHolds(v, xs, nch)
    ensures forall b | 0 <= b < |xs| :: |xs[b]| == nch
  {}

  lemma UShape(um: array3<real>, l: Layer, nout: nat, nin: nat)
    requires UHolds(um, l, nout, nin)
    ensures LayerOk(l, nout, nin)
  {}

  // ----- back to planes -----

  /** Square of the q-th output of tile s, and the way back. */
  function Cell(s: nat, q: nat): nat { (3 * (s / 3) + q / 3) * 9 + 3 * (s % 3) + q % 3 }
  function TileAt(u: nat): nat { 3 * (u / 9 / 3) + u % 9 / 3 }
  function PlaceAt(u: nat): nat { 3 * (u / 9 % 3) + u % 9 % 3 }

  lemma ThreeParts(a: nat, c: nat)
    requires c < 3
    ensures (3 * a + c) / 3 == a && (3 * a + c) % 3 == c
  {}

  /** Tile (a, c) has its output (b, d) on rank 3a + b and file 3c + d. */
  lemma CellForm(a: nat, b: nat, c: nat, d: nat)
    requires a < 3 && b < 3 && c < 3 && d < 3
    ensures var u := 9 * (3 * a + b) + (3 * c + d);
            u < 81 && u / 9 == 3 * a + b && u % 9 == 3 * c + d && Cell(3 * a + c, 3 * b + d) == u
            && TileAt(u) == 3 * a + c && PlaceAt(u) == 3 * b + d
  {
    ThreeParts(a, c);
    ThreeParts(b, d);
    ThreeParts(a, b);
    ThreeParts(c, d);
    var u := 9 * (3 * a + b) + (3 * c + d);
    assert u / 9 == 3 * a + b && u % 9 == 3 * c + d;
  }

  lemma CellIs(s: nat, q: nat)
    requires s < 9 && q < 9
    ensures Cell(s, q) < 81 && Cell(s, q) / 9 == 3 * (s / 3) + q / 3 && Cell(s, q) % 9 == 3 * (s % 3) + q % 3
    ensures TileAt(Cell(s, q)) == s && PlaceAt(Cell(s, q)) == q
  {
    CellForm(s / 3, q / 3, s % 3, q % 3);
    hide Cell, TileAt, PlaceAt;
  }

  lemma CellOf(u: nat)
    requires u < 81
    ensures TileAt(u) < 9 && PlaceAt(u) < 9 && Cell(TileAt(u), PlaceAt(u)) == u
  {
    var r, f := u / 9, u % 9;
    CellForm(r / 3, r % 3, f / 3, f % 3);
    hide Cell, TileAt, PlaceAt;
    assert u == 9 * (3 * (r / 3) + r % 3) + (3 * (f / 3) + f % 3);
  }

  lemma PlaneAt(ks: seq<Kernel>, xs: Planes, u: nat, y: nat, x: nat)
    requires |ks| == |xs| && u < 81 && u / 9 == y && u % 9 == x
    ensures ConvPlane(ks, xs)[u] == ConvSum(ks, xs, y, x, |xs|)
  {}

  /** An output of a tile is the convolution at its square. */
  lemma CellConvolves(ks: seq<Kernel>, xs: Planes, s: nat, q: nat)
    requires |ks| == |xs| && s < 9 && q < 9
    ensures Cell(s, q) < 81 && MatA(DotTile(ks, xs, s / 3, s % 3, |xs|), q) == ConvPlane(ks, xs)[Cell(s, q)]
  {
    hide *;
    CellIs(s, q);
    assert 3 * (q / 3) + q % 3 == q;
    PlaneAt(ks, xs, Cell(s, q), 3 * (s / 3) + q / 3, 3 * (s % 3) + q % 3);
    ChannelsConvolve(ks, xs, s / 3, s % 3, q / 3, q % 3, |xs|);
    assert MatA(DotTile(ks, xs, s / 3, s % 3, |xs|), q) == ConvPlane(ks, xs)[Cell(s, q)];
  }

  /** Gather the 25 sums of one tile. */
  method LoadSums(m: array4<real>, ghost ks: seq<Kernel>, ghost xs: Planes, o: nat, ub: nat, s: nat) returns (mm: Tile)
    requires m.Length0 == 25 && m.Length3 == 9 && o < m.Length1 && ub < m.Length2 && |ks| == |xs| && s < 9
    requires MCell(m, ks, xs, o, ub)
    ensures mm == DotTile(ks, xs, s / 3, s % 3, |xs|)
  {
    var md: seq<real> := [];
    hide Dot;
    while |md| < 25
      invariant |md| <= 25 && forall t | 0 <= t < |md| :: md[t] == Dot(ks, xs, s / 3, s % 3, t, |xs|)
    {
      md := md + [m[|md|, o, ub, s]];
    }
    mm := md;
  }

  /** The nine stores of compute_matA_child for one tile. */
  method StoreOutputs(mm: Tile, ghost p: Plane, s: nat, fout: array<real>)
    requires fout.Length == 81 && s < 9 && forall q | 0 <= q < 9 :: Cell(s, q) < 81 && MatA(mm, q) == p[Cell(s, q)]
    requires forall u | 0 <= u < 81 && TileAt(u) < s :: fout[u] == p[u]
    modifies fout
    ensures forall u | 0 <= u < 81 && TileAt(u) < s + 1 :: fout[u] == p[u]
  {
    var q := 0;
    hide MatA, Cell, TileAt, PlaceAt;
    while q < 9
      invariant 0 <= q <= 9
      invariant forall u | 0 <= u < 81 && (TileAt(u) < s || (TileAt(u) == s && PlaceAt(u) < q)) :: fout[u] == p[u]
    {
      CellIs(s, q);
      fout[Square(s, q)] := MatA(mm, q);
      forall u | 0 <= u < 81 && TileAt(u) == s && PlaceAt(u) == q ensures u == Cell(s, q) { CellOf(u); }
      q := q + 1;
    }
    forall u | 0 <= u < 81 ensures PlaceAt(u) < 9 { CellOf(u); }
  }

  /** ucd + r * width + c */
  function Square(s: nat, q: nat): nat { s / 3 * 3 * 9 + s % 3 * 3 + q / 3 * 9 + q % 3 }
  /** compute_matA_child: the convolved plane of one output channel and one sample. */
  method MatAChild(m: array4<real>, ghost ks: seq<Kernel>, ghost xs: Planes, o: nat, ub: nat)
      returns (fout: array<real>)
    requires m.Length0 == 25 && m.Length3 == 9 && o < m.Length1 && ub < m.Length2 && |ks| == |xs|
    requires MCell(m, ks, xs, o, ub)
    ensures fresh(fout) && fout.Length == 81 && fout[..] == ConvPlane(ks, xs)
  {
    fout := new real[81];
    ghost var p := ConvPlane(ks, xs);
    var s := 0;
    hide MatA, Cell, TileAt, MCell, ConvPlane;
    while s < 9
      invariant 0 <= s <= 9 && MCell(m, ks, xs, o, ub)
      invariant forall u | 0 <= u < 81 && TileAt(u) < s :: fout[u] == p[u]
    {
      var mm := LoadSums(m, ks, xs, o, ub, s);
      forall q | 0 <= q < 9 ensures Cell(s, q) < 81 && MatA(mm, q) == p[Cell(s, q)] { CellConvolves(ks, xs, s, q); }
      StoreOutputs(mm, p, s, fout);
      s := s + 1;
    }
    forall u | 0 <= u < 81 ensures TileAt(u) < 9 { CellOf(u); }
  }

  // ----- batch normalisation, shortcut and transform, fused -----

  ghost predicate ForkCell(fork: array3<real>, p: Plane, ch: nat, ub: nat)
    requires fork.Length2 == 81 && ch < fork.Length0 && ub < fork.Length1
    reads fork
  {
    forall u | 0 <= u < 81 :: fork[ch, ub, u] == p[u]
  }

  ghost predicate ForkHolds(fork: array3<real>, hs: seq<Planes>, nch: nat)
    reads fork
  {
    fork.Length2 == 81 && nch <= fork.Length0 && |hs| <= fork.Length1 && (forall b | 0 <= b < |hs| :: |hs[b]| == nch)
    && forall b, c | 0 <= b < |hs| && 0 <= c < nch :: ForkCell(fork, hs[b][c], c, b)
  }

  /** Normalise a convolved plane in place. */
  method NormInPlace(l: Layer, o: nat, fout: array<real>)
    requires o < |l.mean| && o < |l.sdInv| && fout.Length == 81
    modifies fout
    ensures fout[..] == NormPlane(l, o, old(fout[..]))
  {
    ghost var p: Plane := fout[..];
    var u := 0;
    hide Relu, Norm;
    while u < 81
      invariant 0 <= u <= 81 && forall a | 0 <= a < 81 :: fout[a] == if a < u then Relu(Norm(l, o, p[a])) else p[a]
    {
      fout[u] := Relu(Norm(l, o, fout[u]));
      u := u + 1;
    }
  }

  /** Copy the plane to the shortcut. */
  method ForkTo(fout: array<real>, fork: array3<real>, o: nat, ub: nat)
    requires fout.Length == 81 && fork.Length2 == 81 && o < fork.Length0 && ub < fork.Length1
    modifies fork
    ensures ForkCell(fork, fout[..], o, ub)
    ensures forall c, b, u | 0 <= c < fork.Length0 && 0 <= b < fork.Length1 && 0 <= u < 81 && !(c == o && b == ub) ::
              fork[c, b, u] == old(fork[c, b, u])
  {
    var u := 0;
    while u < 81
      invariant 0 <= u <= 81 && forall a | 0 <= a < u :: fork[o, ub, a] == fout[a]
      invariant forall c, b, a | 0 <= c < fork.Length0 && 0 <= b < fork.Length1 && 0 <= a < 81
          && !(c == o && b == ub) ::
                  fork[c, b, a] == old(fork[c, b, a])
    {
      fork[o, ub, u] := fout[u];
      u := u + 1;
    }
  }

  /** Add the shortcut, normalise, and make the result the new shortcut. */
  method JoinInPlace(l: Layer, o: nat, ub: nat, fout: array<real>, fork: array3<real>, ghost f: Plane)
    requires o < |l.mean| && o < |l.sdInv| && fout.Length == 81 && fork.Length2 == 81 && o < fork.Length0
        && ub < fork.Length1
    requires ForkCell(fork, f, o, ub)
    modifies fout, fork
    ensures fout[..] == JoinPlane(l, o, f, old(fout[..])) && ForkCell(fork, fout[..], o, ub)
    ensures forall c, b, u | 0 <= c < fork.Length0 && 0 <= b < fork.Length1 && 0 <= u < 81 && !(c == o && b == ub) ::
              fork[c, b, u] == old(fork[c, b, u])
  {
    ghost var p: Plane := fout[..];
    var u := 0;
    hide Relu, Norm;
    while u < 81
      invariant 0 <= u <= 81 && forall a | 0 <= a < 81 :: fout[a] == if a < u then Relu(f[a] + Norm(l, o, p[a]))
          else p[a]
      invariant forall a | 0 <= a < 81 :: fork[o, ub, a] == if a < u then fout[a] else f[a]
      invariant forall c, b, a | 0 <= c < fork.Length0 && 0 <= b < fork.Length1 && 0 <= a < 81
          && !(c == o && b == ub) ::
                  fork[c, b, a] == old(fork[c, b, a])
    {
      fout[u] := Relu(fork[o, ub, u] + Norm(l, o, fout[u]));
      fork[o, ub, u] := fout[u];
      u := u + 1;
    }
  }

  /** The planes of output channel o that a layer makes for the samples. */
  ghost predicate AllPlain(l: Layer, xs: seq<Planes>, ys: seq<Planes>, nout: nat, nin: nat) {
    LayerOk(l, nout, nin) && |ys| == |xs|
    && forall b | 0 <= b < |xs| :: |xs[b]| == nin && |ys[b]| == nout && ys[b] == Plain(l, xs[b])
  }

  ghost predicate AllJoined(l: Layer, fs: seq<Planes>, xs: seq<Planes>, ys: seq<Planes>, n: nat) {
    LayerOk(l, n, n) && |ys| == |xs| == |fs|
    && forall b | 0 <= b < |xs| :: |xs[b]| == n && |fs[b]| == n && |ys[b]| == n && ys[b] == Joined(l, fs[b], xs[b])
  }

  /** Cells done so far: all of the channels before ch, and of channel ch the samples before ub. */
  predicate Done(c: nat, b: nat, ch: nat, ub: nat) { c < ch || (c == ch && b < ub) }

  /** compute_matA_BNReLU_matV */
  method APlainV(l: Layer, m: array4<real>, v: array4<real>, nch: nat, nin: nat, nb: nat, ghost xs: seq<Planes>,
                 ghost ys: seq<Planes>)
    requires MHolds(m, l, xs, nch, nin) && |xs| == nb && Shape(v, nch, nb) && m != v && AllPlain(l, xs, ys, nch, nin)
    modifies v
    ensures VHolds(v, ys, nch)
  {
    hide VCell, MCell, NormPlane, ConvPlane;
    var ch := 0;
    while ch < nch
      invariant 0 <= ch <= nch && MHolds(m, l, xs, nch, nin)
      invariant forall c, b | 0 <= c < nch && 0 <= b < nb && Done(c, b, ch, 0) :: VCell(v, ys[b][c], c, b)
    {
      var ub := 0;
      while ub < nb
        invariant 0 <= ub <= nb && MHolds(m, l, xs, nch, nin)
        invariant forall c, b | 0 <= c < nch && 0 <= b < nb && Done(c, b, ch, ub) :: VCell(v, ys[b][c], c, b)
      {
        var fout := MatAChild(m, l.kernels[ch], xs[ub], ch, ub);
        NormInPlace(l, ch, fout);
        assert fout[..] == ys[ub][ch];
        MatVOne(fout[..], v, ys, nch, nb, ch, ub);
        ub := ub + 1;
      }
      ch := ch + 1;
    }
  }

  /** Writing the cells of one plane leaves those of the planes before it as they are. */
  method MatVOne(p: Plane, v: array4<real>, ghost ys: seq<Planes>, ghost nch: nat, ghost nb: nat, ch: nat, ub: nat)
    requires Shape(v, nch, nb) && |ys| == nb && (forall b | 0 <= b < nb :: |ys[b]| == nch) && ch < nch && ub < nb
        && p == ys[ub][ch]
    requires forall c, b | 0 <= c < nch && 0 <= b < nb && Done(c, b, ch, ub) :: VCell(v, ys[b][c], c, b)
    modifies v
    ensures forall c, b | 0 <= c < nch && 0 <= b < nb && Done(c, b, ch, ub + 1) :: VCell(v, ys[b][c], c, b)
  {
    MatVChild(p, v, ch, ub);
  }

  /** compute_matA_BNReLU_fork_matV */
  method AForkV(l: Layer, m: array4<real>, fork: array3<real>, v: array4<real>, nch: nat, nin: nat, nb: nat,
                ghost xs: seq<Planes>, ghost ys: seq<Planes>)
    requires MHolds(m, l, xs, nch, nin) && |xs| == nb && Shape(v, nch, nb) && m != v && AllPlain(l, xs, ys, nch, nin)
    requires fork.Length2 == 81 && nch <= fork.Length0 && nb <= fork.Length1
    modifies v, fork
    ensures VHolds(v, ys, nch) && ForkHolds(fork, ys, nch)
  {
    hide VCell, MCell, NormPlane, ConvPlane, ForkCell;
    var ch := 0;
    while ch < nch
      invariant 0 <= ch <= nch && MHolds(m, l, xs, nch, nin)
      invariant forall c, b | 0 <= c < nch && 0 <= b < nb && Done(c, b, ch, 0) :: VCell(v, ys[b][c], c, b)
      invariant forall c, b | 0 <= c < nch && 0 <= b < nb && Done(c, b, ch, 0) :: ForkCell(fork, ys[b][c], c, b)
    {
      var ub := 0;
      while ub < nb
        invariant 0 <= ub <= nb && MHolds(m, l, xs, nch, nin)
        invariant forall c, b | 0 <= c < nch && 0 <= b < nb && Done(c, b, ch, ub) :: VCell(v, ys[b][c], c, b)
        invariant forall c, b | 0 <= c < nch && 0 <= b < nb && Done(c, b, ch, ub) :: ForkCell(fork, ys[b][c], c, b)
      {
        var fout := MatAChild(m, l.kernels[ch], xs[ub], ch, ub);
        NormInPlace(l, ch, fout);
        assert fout[..] == ys[ub][ch];
        ForkOne(fout, fork, ys, nch, nb, ch, ub);
        MatVOne(fout[..], v, ys, nch, nb, ch, ub);
        ub := ub + 1;
      }
      ch := ch + 1;
    }
  }

  method ForkOne(fout: array<real>, fork: array3<real>, ghost ys: seq<Planes>, ghost nch: nat, ghost nb: nat, ch: nat,
                 ub: nat)
    requires fork.Length2 == 81 && nch <= fork.Length0 && nb <= fork.Length1 && fout.Length == 81
    requires |ys| == nb && (forall b | 0 <= b < nb :: |ys[b]| == nch) && ch < nch && ub < nb && fout[..] == ys[ub][ch]
    requires forall c, b | 0 <= c < nch && 0 <= b < nb && Done(c, b, ch, ub) :: ForkCell(fork, ys[b][c], c, b)
    modifies fork
    ensures forall c, b | 0 <= c < nch && 0 <= b < nb && Done(c, b, ch, ub + 1) :: ForkCell(fork, ys[b][c], c, b)
  {
    ForkTo(fout, fork, ch, ub);
  }

  /** The shortcut while it is rewritten: new planes for the cells done, old ones for the rest. */
  ghost predicate Joining(fork: array3<real>, fs: seq<Planes>, ys: seq<Planes>, nch: nat, nb: nat, ch: nat, ub: nat)
    reads fork
  {
    && fork.Length2 == 81 && nch <= fork.Length0 && nb <= fork.Length1 && |fs| == |ys| == nb
    && (forall b | 0 <= b < nb :: |fs[b]| == nch && |ys[b]| == nch)
    && forall c, b | 0 <= c < nch
    && 0 <= b < nb :: ForkCell(fork, if Done(c, b, ch, ub) then ys[b][c] else fs[b][c], c, b)
  }

  method JoinOne(l: Layer, fout: array<real>, fork: array3<real>, ghost fs: seq<Planes>, ghost ys: seq<Planes>,
                 ghost nch: nat, ghost nb: nat, ch: nat, ub: nat)
    requires Joining(fork, fs, ys, nch, nb, ch, ub) && ch < nch && ub < nb && ch < |l.mean| && ch < |l.sdInv|
    requires fout.Length == 81 && ys[ub][ch] == JoinPlane(l, ch, fs[ub][ch], fout[..])
    modifies fout, fork
    ensures Joining(fork, fs, ys, nch, nb, ch, ub + 1) && fout[..] == ys[ub][ch]
  {
    JoinInPlace(l, ch, ub, fout, fork, fs[ub][ch]);
  }

  /** compute_matA_BNReLU_join_fork_matV */
  method AJoinForkV(l: Layer, m: array4<real>, fork: array3<real>, v: array4<real>, nch: nat, nb: nat,
                    ghost fs: seq<Planes>, ghost xs: seq<Planes>, ghost ys: seq<Planes>)
    requires MHolds(m, l, xs, nch, nch) && |xs| == nb && Shape(v, nch, nb) && m != v && AllJoined(l, fs, xs, ys, nch)
    requires ForkHolds(fork, fs, nch)
    modifies v, fork
    ensures VHolds(v, ys, nch) && ForkHolds(fork, ys, nch)
  {
    hide VCell, MCell, JoinPlane, ConvPlane, ForkCell;
    var ch := 0;
    while ch < nch
      invariant 0 <= ch <= nch && MHolds(m, l, xs, nch, nch) && Joining(fork, fs, ys, nch, nb, ch, 0)
      invariant forall c, b | 0 <= c < nch && 0 <= b < nb && Done(c, b, ch, 0) :: VCell(v, ys[b][c], c, b)
    {
      var ub := 0;
      while ub < nb
        invariant 0 <= ub <= nb && MHolds(m, l, xs, nch, nch) && Joining(fork, fs, ys, nch, nb, ch, ub)
        invariant forall c, b | 0 <= c < nch && 0 <= b < nb && Done(c, b, ch, ub) :: VCell(v, ys[b][c], c, b)
      {
        var fout := MatAChild(m, l.kernels[ch], xs[ub], ch, ub);
        assert ys[ub][ch] == JoinPlane(l, ch, fs[ub][ch], fout[..]);
        JoinOne(l, fout, fork, fs, ys, nch, nb, ch, ub);
        MatVOne(fout[..], v, ys, nch, nb, ch, ub);
        ub := ub + 1;
      }
      ch := ch + 1;
    }
  }

  /** compute_matA_BNReLU_join_fork: the last layer needs no transform. */
  method AJoinFork(l: Layer, m: array4<real>, fork: array3<real>, nch: nat, nb: nat,
                   ghost fs: seq<Planes>, ghost xs: seq<Planes>, ghost ys: seq<Planes>)
    requires MHolds(m, l, xs, nch, nch) && |xs| == nb && AllJoined(l, fs, xs, ys, nch) && ForkHolds(fork, fs, nch)
    modifies fork
    ensures ForkHolds(fork, ys, nch)
  {
    hide MCell, JoinPlane, ConvPlane, ForkCell;
    var ch := 0;
    while ch < nch
      invariant 0 <= ch <= nch && MHolds(m, l, xs, nch, nch) && Joining(fork, fs, ys, nch, nb, ch, 0)
    {
      var ub := 0;
      while ub < nb
        invariant 0 <= ub <= nb && MHolds(m, l, xs, nch, nch) && Joining(fork, fs, ys, nch, nb, ch, ub)
      {
        var fout := MatAChild(m, l.kernels[ch], xs[ub], ch, ub);
        assert ys[ub][ch] == JoinPlane(l, ch, fs[ub][ch], fout[..]);
        JoinOne(l, fout, fork, fs, ys, nch, nb, ch, ub);
        ub := ub + 1;
      }
      ch := ch + 1;
    }
  }

  // ----- the body of push_ff -----

  /** Input layer, then whole residual blocks, at least one. */
  ghost predicate TowerOk(ls: seq<Layer>, nout: nat, nin: nat) {
    3 <= |ls| && |ls| % 2 == 1 && LayerOk(ls[0], nout, nin) && forall k | 1 <= k < |ls| :: LayerOk(ls[k], nout, nout)
  }

  /** The kernel transforms that load made of the layers. */
  ghost predicate Loaded(us: seq<array3<real>>, ls: seq<Layer>, nout: nat, nin: nat)
    reads us
  {
    TowerOk(ls, nout, nin) && |us| == |ls| && UHolds(us[0], ls[0], nout, nin)
    && forall k | 1 <= k < |ls| :: UHolds(us[k], ls[k], nout, nout)
  }

  /** The samples after the first n layers of the tower, n odd. */
  ghost function Reached(ls: seq<Layer>, x: Planes, nout: nat, nin: nat, n: nat): (h: Planes)
    requires TowerOk(ls, nout, nin) && |x| == nin && n % 2 == 1 && n <= |ls|
    ensures |h| == nout
  {
    if n == 1 then Plain(ls[0], x) else Block(ls[n - 2], ls[n - 1], Reached(ls, x, nout, nin, n - 2))
  }

  lemma {:induction false} BlocksFrom(ls: seq<Layer>, x: Planes, nout: nat, nin: nat, n: nat)
    requires TowerOk(ls, nout, nin) && |x| == nin && n % 2 == 1 && n <= |ls|
    ensures BlocksOk(ls[n..], nout) && BlocksOk(ls[1..], nout)
    ensures Blocks(ls[n..], Reached(ls, x, nout, nin, n)) == Blocks(ls[1..], Plain(ls[0], x))
  {
    assert BlocksOk(ls[n..], nout) && BlocksOk(ls[1..], nout);
    if n > 1 {
      BlocksFrom(ls, x, nout, nin, n - 2);
      assert ls[n - 2..][2..] == ls[n..] && ls[n - 2..][0] == ls[n - 2] && ls[n - 2..][1] == ls[n - 1];
      hide TowerOk, LayerOk, BlocksOk, Block, Plain;
    }
  }

  /** Layer by layer from the input and block by block from the front are the same tower. */
  lemma ReachedIsTower(ls: seq<Layer>, x: Planes, nout: nat, nin: nat)
    requires TowerOk(ls, nout, nin) && |x| == nin
    ensures BlocksOk(ls[1..], nout) && Reached(ls, x, nout, nin, |ls|) == Tower(ls, x)
  {
    BlocksFrom(ls, x, nout, nin, |ls|);
    assert ls[|ls|..] == [];
  }

  ghost predicate AllReached(ls: seq<Layer>, xs: seq<Planes>, hs: seq<Planes>, nout: nat, nin: nat, n: nat) {
    TowerOk(ls, nout, nin) && n % 2 == 1 && n <= |ls| && |hs| == |xs| &&
    forall b | 0 <= b < |xs| :: |xs[b]| == nin && |hs[b]| == nout && hs[b] == Reached(ls, xs[b], nout, nin, n)
  }

  /** The samples after the first layer of the next block, and after both. */
  ghost function Half(l: Layer, hs: seq<Planes>, n: nat): (r: seq<Planes>)
    requires LayerOk(l, n, n) && forall b | 0 <= b < |hs| :: |hs[b]| == n
    ensures AllPlain(l, hs, r, n, n)
  {
    seq(|hs|, b requires 0 <= b < |hs| => Plain(l, hs[b]))
  }
  ghost function Whole(l: Layer, fs: seq<Planes>, xs: seq<Planes>, n: nat): (r: seq<Planes>)
    requires LayerOk(l, n, n) && |xs| == |fs| && forall b | 0 <= b < |fs| :: |fs[b]| == n && |xs[b]| == n
    ensures AllJoined(l, fs, xs, r, n)
  {
    seq(|fs|, b requires 0 <= b < |fs| => Joined(l, fs[b], xs[b]))
  }

  lemma NextReached(ls: seq<Layer>, xs: seq<Planes>, hs: seq<Planes>, mid: seq<Planes>, ys: seq<Planes>, nout: nat,
                    nin: nat, n: nat)
    requires AllReached(ls, xs, hs, nout, nin, n) && n + 2 <= |ls|
    requires AllPlain(ls[n], hs, mid, nout, nout) && AllJoined(ls[n + 1], hs, mid, ys, nout)
    ensures AllReached(ls, xs, ys, nout, nin, n + 2)
  {}

  /** The arrays the body works on. */
  ghost predicate Buffers(m: array4<real>, v: array4<real>, fork: array3<real>, nout: nat, nin: nat, nb: nat) {
    && m != v && Shape(m, nout, nb) && Shape(v, nout, nb) && Shape(v, nin, nb)
    && fork.Length2 == 81 && nout <= fork.Length0 && nb <= fork.Length1
  }

  /** The input layer of the body. */
  method InputLayer(fin: array3<real>, um: array3<real>, l: Layer, m: array4<real>, v: array4<real>, fork: array3<real>,
                    nout: nat, nin: nat, nb: nat, ghost xs: seq<Planes>, ghost hs: seq<Planes>)
    requires UHolds(um, l, nout, nin) && Buffers(m, v, fork, nout, nin, nb) && AllPlain(l, xs, hs, nout, nin)
        && |xs| == nb
    requires fin.Length0 == nb && fin.Length1 == nin && fin.Length2 == 81 && um != fork
    requires forall b, c, u | 0 <= b < nb && 0 <= c < nin && 0 <= u < 81 :: fin[b, c, u] == xs[b][c][u]
    modifies m, v, fork
    ensures VHolds(v, hs, nout) && ForkHolds(fork, hs, nout)
  {
    hide VCell, MCell, ForkCell;
    MatVInput(fin, v, xs);
    assert VHolds(v, xs, nin);
    hide VHolds, MHolds, ForkHolds, UHolds;
    MatM(um, v, m, l, nout, nin, nb, xs);
    AForkV(l, m, fork, v, nout, nin, nb, xs, hs);
  }

  /** The first layer of a block. */
  method FirstHalf(um: array3<real>, l: Layer, m: array4<real>, v: array4<real>, nout: nat, nb: nat,
                   ghost hs: seq<Planes>, ghost mid: seq<Planes>)
    requires UHolds(um, l, nout, nout) && m != v && Shape(m, nout, nb) && Shape(v, nout, nb)
    requires VHolds(v, hs, nout) && AllPlain(l, hs, mid, nout, nout) && |hs| == nb
    modifies m, v
    ensures VHolds(v, mid, nout)
  {
    hide VHolds, MHolds, UHolds;
    MatM(um, v, m, l, nout, nout, nb, hs);
    APlainV(l, m, v, nout, nout, nb, hs, mid);
  }

  /** A block inside the tower: its output goes to the shortcut and, transformed, to the next block. */
  method InnerBlock(u1: array3<real>, u2: array3<real>, l1: Layer, l2: Layer, m: array4<real>, v: array4<real>,
                    fork: array3<real>,
                    nout: nat, nb: nat, ghost hs: seq<Planes>, ghost mid: seq<Planes>, ghost ys: seq<Planes>)
    requires UHolds(u1, l1, nout, nout) && UHolds(u2, l2, nout, nout) && fork != u1 && fork != u2
    requires m != v && Shape(m, nout, nb) && Shape(v, nout, nb) && VHolds(v, hs, nout) && ForkHolds(fork, hs, nout)
    requires AllPlain(l1, hs, mid, nout, nout) && AllJoined(l2, hs, mid, ys, nout) && |hs| == nb
    modifies m, v, fork
    ensures VHolds(v, ys, nout) && ForkHolds(fork, ys, nout)
  {
    hide VHolds, MHolds, ForkHolds, UHolds;
    FirstHalf(u1, l1, m, v, nout, nb, hs, mid);
    MatM(u2, v, m, l2, nout, nout, nb, mid);
    AJoinForkV(l2, m, fork, v, nout, nb, hs, mid, ys);
  }

  /** The last block: its output goes to the shortcut only. */
  method LastBlock(u1: array3<real>, u2: array3<real>, l1: Layer, l2: Layer, m: array4<real>, v: array4<real>,
                   fork: array3<real>,
                   nout: nat, nb: nat, ghost hs: seq<Planes>, ghost mid: seq<Planes>, ghost ys: seq<Planes>)
    requires UHolds(u1, l1, nout, nout) && UHolds(u2, l2, nout, nout) && fork != u1 && fork != u2
    requires m != v && Shape(m, nout, nb) && Shape(v, nout, nb) && VHolds(v, hs, nout) && ForkHolds(fork, hs, nout)
    requires AllPlain(l1, hs, mid, nout, nout) && AllJoined(l2, hs, mid, ys, nout) && |hs| == nb
    modifies m, v, fork
    ensures ForkHolds(fork, ys, nout)
  {
    hide VHolds, MHolds, ForkHolds, UHolds;
    FirstHalf(u1, l1, m, v, nout, nb, hs, mid);
    MatM(u2, v, m, l2, nout, nout, nb, mid);
    AJoinFork(l2, m, fork, nout, nb, hs, mid, ys);
  }

  /** The layer loop and the block behind it. */
  method Layers(us: seq<array3<real>>, ls: seq<Layer>, m: array4<real>, v: array4<real>, fork: array3<real>,
                nout: nat, ghost nin: nat, nb: nat, ghost xs: seq<Planes>, ghost hs0: seq<Planes>)
      returns (ghost hs: seq<Planes>)
    requires Loaded(us, ls, nout, nin) && Buffers(m, v, fork, nout, nin, nb) && |xs| == nb && fork !in us
    requires AllReached(ls, xs, hs0, nout, nin, 1) && VHolds(v, hs0, nout) && ForkHolds(fork, hs0, nout)
    modifies m, v, fork
    ensures AllReached(ls, xs, hs, nout, nin, |ls|) && ForkHolds(fork, hs, nout)
  {
    hs := hs0;
    var ulayer := 1;
    hide VHolds, ForkHolds, UHolds, Reached, Plain, Joined;
    while ulayer + 2 < |us|
      invariant 1 <= ulayer <= |us| - 2 && ulayer % 2 == 1 && Loaded(us, ls, nout, nin)
      invariant AllReached(ls, xs, hs, nout, nin, ulayer) && VHolds(v, hs, nout) && ForkHolds(fork, hs, nout)
    {
      ghost var mid := Half(ls[ulayer], hs, nout);
      ghost var ys := Whole(ls[ulayer + 1], hs, mid, nout);
      InnerBlock(us[ulayer], us[ulayer + 1], ls[ulayer], ls[ulayer + 1], m, v, fork, nout, nb, hs, mid, ys);
      NextReached(ls, xs, hs, mid, ys, nout, nin, ulayer);
      hs := ys;
      ulayer := ulayer + 2;
    }
    ghost var mid := Half(ls[ulayer], hs, nout);
    ghost var ys := Whole(ls[ulayer + 1], hs, mid, nout);
    LastBlock(us[ulayer], us[ulayer + 1], ls[ulayer], ls[ulayer + 1], m, v, fork, nout, nb, hs, mid, ys);
    NextReached(ls, xs, hs, mid, ys, nout, nin, ulayer);
    hs := ys;
  }

  /** The residual tower of every sample. */
  ghost function Towers(ls: seq<Layer>, xs: seq<Planes>, nout: nat, nin: nat): (r: seq<Planes>)
    requires TowerOk(ls, nout, nin) && forall b | 0 <= b < |xs| :: |xs[b]| == nin
    ensures |r| == |xs| && BlocksOk(ls[1..], nout) && forall b | 0 <= b < |xs| :: r[b] == Tower(ls, xs[b])
  {
    seq(|xs|, b requires 0 <= b < |xs| => Tower(ls, xs[b]))
  }

  /** The body of push_ff: for every batch the shortcut buffer ends up with the residual tower of every sample. */
  method PushBody(fin: array3<real>, us: seq<array3<real>>, ls: seq<Layer>, m: array4<real>, v: array4<real>,
                  fork: array3<real>,
                  nout: nat, nin: nat, nb: nat, ghost xs: seq<Planes>)
    requires Loaded(us, ls, nout, nin) && Buffers(m, v, fork, nout, nin, nb) && |xs| == nb && fork !in us
    requires fin.Length0 == nb && fin.Length1 == nin && fin.Length2 == 81
    requires forall b | 0 <= b < nb :: |xs[b]| == nin
    requires forall b, c, u | 0 <= b < nb && 0 <= c < nin && 0 <= u < 81 :: fin[b, c, u] == xs[b][c][u]
    modifies m, v, fork
    ensures ForkHolds(fork, Towers(ls, xs, nout, nin), nout)
  {
    ghost var hs := seq(nb, b requires 0 <= b < nb => Plain(ls[0], xs[b]));
    assert AllPlain(ls[0], xs, hs, nout, nin);
    assert AllReached(ls, xs, hs, nout, nin, 1);
    InputLayer(fin, us[0], ls[0], m, v, fork, nout, nin, nb, xs, hs);
    hs := Layers(us, ls, m, v, fork, nout, nin, nb, xs, hs);
    ReachedTowers(ls, xs, hs, nout, nin);
    hide ForkHolds;
  }

  lemma ReachedTowers(ls: seq<Layer>, xs: seq<Planes>, hs: seq<Planes>, nout: nat, nin: nat)
    requires AllReached(ls, xs, hs, nout, nin, |ls|)
    ensures hs == Towers(ls, xs, nout, nin)
  {
    forall b | 0 <= b < |xs| ensures hs[b] == Towers(ls, xs, nout, nin)[b] {
      ReachedIsTower(ls, xs[b], nout, nin);
      hide Tower, Reached;
    }
  }
}
