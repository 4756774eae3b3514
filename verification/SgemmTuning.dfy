/** The parameter sets that the tuning of the matrix product tries (ManageSgemm::start, src/common/nnet-ocl.cpp:861-864,
    1487-1515): which ones they are, and that all of them fit the kernel. */
module SgemmTuning {
  import opened FlatIndex

  datatype Param = Param(nlm: nat, nln: nat, npm: nat, npn: nat, npk: nat)

  predicate Pow2(n: nat) {
    n == 1 || (0 < n && n % 2 == 0 && Pow2(n / 2))
  }

  function Max(a: nat, b: nat): nat { if a < b then b else a }
  function Min(a: nat, b: nat): nat { if a < b then a else b }

  /** Of two powers of two the smaller divides the larger, and the quotient is one again. */
  lemma {:induction false} Divides(a: nat, b: nat)
    requires Pow2(a) && Pow2(b) && a <= b
    ensures b % a == 0 && Pow2(b / a)
  {
    if a > 1 {
      var c, d := a / 2, b / 2;
      Divides(c, d);
      Split(d, c);
      DoubleAt(d / c, c);
      Parts(d / c, a, 0);
      hide At;
    }
  }

  lemma DoubleAt(q: nat, c: nat)
    ensures At(q, 2 * c, 0) == 2 * At(q, c, 0)
  {}

  /** There is no power of two between one and its double. */
  lemma {:induction false} NoneBetween(x: nat, y: nat)
    requires Pow2(x) && Pow2(y) && x <= y < 2 * x
    ensures y == x
  {
    if x > 1 { NoneBetween(x / 2, y / 2); }
  }

  /** ceil_power2 */
  method CeilPower2(u: nat) returns (u0: nat)
    ensures CeilOf(u, u0)
  {
    u0 := 1;
    while u0 < u
      invariant Pow2(u0) && (u0 == 1 || u0 < 2 * u) && 0 < u0
      decreases u - u0
    {
      u0 := 2 * u0;
    }
  }

  /** What ceil_power2 gives. */
  predicate CeilOf(u: nat, u0: nat) {
    Pow2(u0) && u <= u0 && (u0 == 1 || u0 < 2 * u)
  }

  /** The least power of two not below u, but four at most. */
  function Small(u: nat): nat { if u <= 1 then 1 else if u == 2 then 2 else 4 }

  lemma SmallCeil(u: nat, u0: nat)
    requires CeilOf(u, u0)
    ensures Min(u0, 4) == Small(u)
  {
    assert !Pow2(3);
  }

  lemma CeilGrows(u: nat, u0: nat, w: nat, w0: nat)
    requires CeilOf(u, u0) && CeilOf(w, w0) && u <= w
    ensures u0 <= w0
  {
    if w0 <= u0 < 2 * w0 { NoneBetween(w0, u0); }
  }

  // ----- the kernel's demands -----

  /** The tiles are loaded and stored evenly by the work items of a group, and the rows of the result tile that
      overlays the second one are there. */
  predicate Fits(p: Param) {
    && 0 < p.nlm && 0 < p.nln && 0 < p.npm && 0 < p.npn && 0 < p.npk
    && p.nln % p.npm == 0 && p.nlm % p.npn == 0 && p.npk % (p.nln / p.npm) == 0 && p.npk % (p.nlm / p.npn) == 0
    && p.nlm % (p.nlm / p.npn) == 0 && p.nlm <= p.npk
  }

  /** What the filters look at: bounds of the matrix, of the group, and which side is longer. */
  datatype Limits = Limits(mmax: nat, nmax: nat, kmax: nat, wgmax: nat, larger: bool)

  predicate Ok(l: Limits) { Pow2(l.mmax) && Pow2(l.nmax) && Pow2(l.kmax) }

  predicate LocalOk(l: Limits, nlm: nat, nln: nat) {
    && Pow2(nlm) && Pow2(nln) && Min(l.mmax, 4) <= nlm <= 16 && Min(l.nmax, 4) <= nln <= 16
    && Mul(nlm, nln) <= l.wgmax && if l.larger then nln <= nlm else nlm <= nln
  }

  function Mul(a: nat, b: nat): nat { a * b }

  predicate PrivateOk(l: Limits, nlm: nat, nln: nat, npm: nat, npn: nat) {
    && Pow2(npm) && Pow2(npn) && npm <= 16 && npn <= 16 && (if l.larger then npn <= npm else npm <= npn)
    && Mul(nlm, npm) <= l.mmax && Mul(nln, npn) <= l.nmax && npm <= nln && npn <= nlm
  }

  predicate DepthOk(l: Limits, nlm: nat, nln: nat, npm: nat, npn: nat, npk: nat) {
    && Pow2(npk) && nlm <= npk <= Max(4, Max(nlm, nln)) && npk <= l.kmax
    && nln <= Mul(npm, npk) && nlm <= Mul(npn, npk) && (0 < npm ==> nln / npm <= npk)
  }

  /** A parameter set that the filters let through. */
  predicate Admitted(l: Limits, p: Param) {
    LocalOk(l, p.nlm, p.nln) && PrivateOk(l, p.nlm, p.nln, p.npm, p.npn)
        && DepthOk(l, p.nlm, p.nln, p.npm, p.npn, p.npk)
  }

  /** Every parameter set that gets through fits the kernel. */
  lemma AdmittedFit(l: Limits, p: Param)
    requires Admitted(l, p)
    ensures Fits(p)
  {
    Divides(p.npm, p.nln);
    Divides(p.npn, p.nlm);
    Divides(p.nln / p.npm, p.npk);
    QuotientAtMost(p.nlm, p.npn);
    Divides(p.nlm / p.npn, p.npk);
    Divides(p.nlm / p.npn, p.nlm);
  }

  lemma QuotientAtMost(a: nat, b: nat)
    requires 0 < b
    ensures a / b <= a
  {
    var q := a / b;
    Split(a, b);
    assert q * b == q + q * (b - 1);
  }

  // ----- the loops that build the list -----

  /** A loop that doubles x goes from the powers of two below x to those below its double. */
  lemma NextDouble(x: nat, y: nat)
    requires Pow2(x) && Pow2(y)
    ensures Pow2(2 * x) && (y < 2 * x <==> y < x || y == x)
  {
    if x <= y < 2 * x { NoneBetween(x, y); }
  }

  predicate Below4(l: Limits, p: Param, nlm: nat, nln: nat, npm: nat, npn: nat, to: nat) {
    p.nlm == nlm && p.nln == nln && p.npm == npm && p.npn == npn && DepthOk(l, nlm, nln, npm, npn, p.npk) && p.npk < to
  }

  predicate Below3(l: Limits, p: Param, nlm: nat, nln: nat, npm: nat, to: nat) {
    && p.nlm == nlm && p.nln == nln && p.npm == npm && PrivateOk(l, nlm, nln, npm, p.npn) && p.npn < to
    && DepthOk(l, nlm, nln, npm, p.npn, p.npk)
  }

  predicate Below2(l: Limits, p: Param, nlm: nat, nln: nat, to: nat) {
    p.nlm == nlm && p.nln == nln && p.npm < to && Below3(l, p, nlm, nln, p.npm, 17)
  }

  predicate Below1(l: Limits, p: Param, nlm: nat, to: nat) {
    p.nlm == nlm && LocalOk(l, nlm, p.nln) && p.nln < to && Below2(l, p, nlm, p.nln, 17)
  }

  predicate Below0(l: Limits, p: Param, to: nat) {
    p.nlm < to && Below1(l, p, p.nlm, 17)
  }

  /** The loop over npk. */
  method Depths(l: Limits, nlm: nat, nln: nat, npm: nat, npn: nat, params: seq<Param>) returns (r: seq<Param>)
    requires LocalOk(l, nlm, nln) && PrivateOk(l, nlm, nln, npm, npn)
    ensures forall p :: p in r <==> p in params || Below4(l, p, nlm, nln, npm, npn, Max(4, Max(nlm, nln)) + 1)
  {
    Divides(npm, nln);
    r := params;
    var npk0, npk1 := Max(nlm, nln / npm), Max(4, Max(nlm, nln));
    var npk := npk0;
    while npk <= npk1
      invariant Pow2(npk) && npk0 <= npk
      invariant forall p :: p in r <==> p in params || Below4(l, p, nlm, nln, npm, npn, npk)
    {
      forall y | Pow2(y) { NextDouble(npk, y); }
      hide Pow2;
      if nlm <= npk && npk <= l.kmax && nln <= Mul(npm, npk) && nlm <= Mul(npn, npk) {
        r := r + [Param(nlm, nln, npm, npn, npk)];
      }
      npk := 2 * npk;
    }
  }

  /** The loop over npn. */
  method PrivatesN(l: Limits, nlm: nat, nln: nat, npm: nat, params: seq<Param>) returns (r: seq<Param>)
    requires LocalOk(l, nlm, nln) && Pow2(npm) && npm <= 16
    ensures forall p :: p in r <==> p in params || Below3(l, p, nlm, nln, npm, 17)
  {
    r := params;
    var npn := 1;
    while npn <= 16
      invariant Pow2(npn)
      invariant forall p :: p in r <==> p in params || Below3(l, p, nlm, nln, npm, npn)
    {
      forall y | Pow2(y) { NextDouble(npn, y); }
      hide Pow2, LocalOk, DepthOk;
      if !(l.larger && npm < npn) && !(!l.larger && npn < npm) && Mul(nlm, npm) <= l.mmax && Mul(nln, npn) <= l.nmax
         && npm <= nln && npn <= nlm {
        r := Depths(l, nlm, nln, npm, npn, r);
      }
      npn := 2 * npn;
    }
  }

  /** The loop over npm. */
  method Privates(l: Limits, nlm: nat, nln: nat, params: seq<Param>) returns (r: seq<Param>)
    requires LocalOk(l, nlm, nln)
    ensures forall p :: p in r <==> p in params || Below2(l, p, nlm, nln, 17)
  {
    r := params;
    var npm := 1;
    while npm <= 16
      invariant Pow2(npm)
      invariant forall p :: p in r <==> p in params || Below2(l, p, nlm, nln, npm)
    {
      forall y | Pow2(y) { NextDouble(npm, y); }
      hide Pow2, LocalOk, DepthOk;
      r := PrivatesN(l, nlm, nln, npm, r);
      npm := 2 * npm;
    }
  }

  /** The loop over nln. */
  method LocalsN(l: Limits, nlm: nat, params: seq<Param>) returns (r: seq<Param>)
    requires Ok(l) && Pow2(nlm) && Min(l.mmax, 4) <= nlm <= 16
    ensures forall p :: p in r <==> p in params || Below1(l, p, nlm, 17)
  {
    r := params;
    Four();
    var nln := Min(l.nmax, 4);
    while nln <= 16
      invariant Pow2(nln) && Min(l.nmax, 4) <= nln && 0 < nln
      invariant forall p :: p in r <==> p in params || Below1(l, p, nlm, nln)
    {
      forall y | Pow2(y) { NextDouble(nln, y); }
      hide Pow2, Below2;
      if Mul(nlm, nln) <= l.wgmax && !(l.larger && nlm < nln) && !(!l.larger && nln < nlm) {
        r := Privates(l, nlm, nln, r);
      }
      nln := 2 * nln;
    }
  }

  lemma Four()
    ensures Pow2(4)
  {}

  /** The list of parameter sets: exactly those that are admitted. */
  method Candidates(nm0: nat, nn0: nat, nk0: nat, maxGroup: nat) returns (params: seq<Param>, l: Limits)
    ensures Ok(l) && nm0 <= l.mmax && nn0 <= l.nmax && nk0 <= l.kmax && l.larger == (nn0 < nm0)
        && l.wgmax == Min(maxGroup, 4096)
    ensures forall p :: p in params <==> Admitted(l, p)
    ensures forall p | p in params :: Fits(p) && Mul(p.nlm, p.nln) <= maxGroup
    ensures params != [] <==> Small(Max(nm0, nn0)) <= Small(nk0) && Mul(Small(nm0), Small(nn0)) <= maxGroup
  {
    var mmax := CeilPower2(nm0);
    var nmax := CeilPower2(nn0);
    var kmax := CeilPower2(nk0);
    l := Limits(mmax, nmax, kmax, Min(maxGroup, 4096), nn0 < nm0);
    params := [];
    Four();
    var nlm := Min(mmax, 4);
    while nlm <= 16
      invariant Pow2(nlm) && Min(l.mmax, 4) <= nlm && 0 < nlm
      invariant forall p :: p in params <==> Below0(l, p, nlm)
    {
      forall y | Pow2(y) { NextDouble(nlm, y); }
      hide Pow2, Below2;
      params := LocalsN(l, nlm, params);
      nlm := 2 * nlm;
    }
    forall p ensures Below0(l, p, nlm) <==> Admitted(l, p) { hide Pow2; }
    forall p | p in params ensures Fits(p) && Mul(p.nlm, p.nln) <= maxGroup { AdmittedFit(l, p); }
    SomethingFound(nm0, nn0, nk0, maxGroup, l);
    assert params != [] ==> params[0] in params;
    hide Admitted, Small;
  }

  lemma MulGrows(a: nat, b: nat, c: nat, d: nat)
    requires a <= c && b <= d
    ensures Mul(a, b) <= Mul(c, d)
  {}

  /** The filters leave something exactly if a work group of the smallest tile is allowed and the depth of the matrices
      reaches the longer side of that tile: without it the tuning gives up. */
  lemma SomethingLeft(l: Limits)
    requires Ok(l) && if l.larger then l.nmax <= l.mmax else l.mmax <= l.nmax
    ensures (exists p :: Admitted(l, p))
       <==> Min(4, Max(l.mmax, l.nmax)) <= l.kmax && Mul(Min(l.mmax, 4), Min(l.nmax, 4)) <= l.wgmax
  {
    var a, b := Min(l.mmax, 4), Min(l.nmax, 4);
    Four();
    if Min(4, Max(l.mmax, l.nmax)) <= l.kmax && Mul(a, b) <= l.wgmax {
      var p := Param(a, b, 1, 1, Max(a, b));
      assert b / 1 == b;
      assert Admitted(l, p);
    }
    if p :| Admitted(l, p) {
      MulGrows(a, b, p.nlm, p.nln);
      if !l.larger && p.nlm < 4 { ShortSide(l, p); }
    }
  }

  lemma ShortSide(l: Limits, p: Param)
    requires Admitted(l, p) && Ok(l) && p.nlm < 4
    ensures p.npm == 1 && p.nln <= p.npk
  {}

  /** The same on the sizes of the matrices, whose powers of two the filters look at. */
  lemma SomethingFound(nm0: nat, nn0: nat, nk0: nat, maxGroup: nat, l: Limits)
    requires CeilOf(nm0, l.mmax) && CeilOf(nn0, l.nmax) && CeilOf(nk0, l.kmax)
    requires l.larger == (nn0 < nm0) && l.wgmax == Min(maxGroup, 4096)
    ensures (exists p :: Admitted(l, p))
       <==> Small(Max(nm0, nn0)) <= Small(nk0) && Mul(Small(nm0), Small(nn0)) <= maxGroup
  {
    if nn0 < nm0 { CeilGrows(nn0, l.nmax, nm0, l.mmax); } else { CeilGrows(nm0, l.mmax, nn0, l.nmax); }
    SmallCeil(nm0, l.mmax);
    SmallCeil(nn0, l.nmax);
    SmallCeil(nk0, l.kmax);
    MulGrows(Small(nm0), Small(nn0), 4, 4);
    SomethingLeft(l);
    hide Admitted, Pow2;
  }
}
