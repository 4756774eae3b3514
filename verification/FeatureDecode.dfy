/** The kernels that unpack a batch on the device, where planes are stored channel by channel, and the batch within
    each (code_decode and ManageDecode, src/common/nnet-ocl.cpp:120-148, 1340-1381). */
module FeatureDecode {
  import opened Features
  import opened FeaturePack
  import opened FlatIndex

  /** The cell of the device for index t of the batch, as set_one computes it. */
  function Spot(nb: nat, t: nat): nat {
    At(t / PLANE % NCH, nb, t / PLANE / NCH) * PLANE + t % PLANE
  }

  /** Index ub * SIZE + ch * PLANE + sq falls apart into batch, channel and square. */
  lemma Planes(ub: nat, ch: nat, sq: nat)
    requires ch < NCH && sq < PLANE
    ensures var t := (ub * NCH + ch) * PLANE + sq;
            t % PLANE == sq && t / PLANE % NCH == ch && t / PLANE / NCH == ub && t / SIZE == ub
                && t % SIZE == ch * PLANE + sq
  {}

  lemma SpotIn(nb: nat, t: nat)
    requires t < nb * SIZE
    ensures Spot(nb, t) < nb * SIZE
  {
    var ch, ub := t / PLANE % NCH, t / PLANE / NCH;
    assert t / PLANE < nb * NCH && ub < nb;
    Below(ch, nb, ub, NCH);
    hide At;
  }

  /** Different indices have different cells. */
  lemma SpotUnique(nb: nat, t: nat, u: nat)
    requires t < nb * SIZE && u < nb * SIZE && Spot(nb, t) == Spot(nb, u)
    ensures t == u
  {
    var c, b, d, e := t / PLANE % NCH, t / PLANE / NCH, u / PLANE % NCH, u / PLANE / NCH;
    assert t / PLANE < nb * NCH && b < nb && u / PLANE < nb * NCH && e < nb;
    Unique(c, nb, b, d, e);
    assert t / PLANE == b * NCH + c && u / PLANE == e * NCH + d;
    assert t == t / PLANE * PLANE + t % PLANE && u == u / PLANE * PLANE + u % PLANE;
  }

  /** The device holds what the batch q says. */
  ghost predicate Mirrors(p: seq<real>, q: seq<real>, nb: nat) {
    |p| == |q| == nb * SIZE && forall t | 0 <= t < |q| :: MirrorsAt(p, q, nb, t)
  }

  ghost predicate MirrorsAt(p: seq<real>, q: seq<real>, nb: nat, t: nat)
    requires |p| == |q| == nb * SIZE && t < |q|
  {
    SpotIn(nb, t);
    p[Spot(nb, t)] == q[t]
  }

  /** A write to the cell of t is a write to t. */
  lemma MirrorWrite(p: seq<real>, q: seq<real>, nb: nat, t: nat, v: real)
    requires Mirrors(p, q, nb) && t < |q|
    ensures Spot(nb, t) < |p| && Mirrors(p[Spot(nb, t) := v], q[t := v], nb)
  {
    SpotIn(nb, t);
    var p1, q1 := p[Spot(nb, t) := v], q[t := v];
    hide Spot;
    forall u | 0 <= u < |q| ensures MirrorsAt(p1, q1, nb, u) {
      SpotIn(nb, u);
      assert MirrorsAt(p, q, nb, u);
      if u != t && Spot(nb, u) == Spot(nb, t) { SpotUnique(nb, u, t); }
    }
  }

  // ----- the kernels, work item by work item -----

  /** A row of tbl_ch_fill. */
  function TblRow(r: nat): (row: seq<nat>)
    ensures |row| == if r < 8 then 17 else 2
  {
    if r == 0 then [28, 29, 30, 31, 32, 33, 34, 35, 36, 37, 38, 39, 40, 41, 42, 43, 44]
    else if r == 1 then [73, 74, 75, 76, 77, 78, 79, 80, 81, 82, 83, 84, 85, 86, 87, 88, 89]
    else if r == 2 then [118, 119, 120, 121, 122, 123, 124, 125, 126, 127, 128, 129, 130, 131, 132, 133, 134]
    else if r == 3 then [163, 164, 165, 166, 167, 168, 169, 170, 171, 172, 173, 174, 175, 176, 177, 178, 179]
    else if r == 4 then [208, 209, 210, 211, 212, 213, 214, 215, 216, 217, 218, 219, 220, 221, 222, 223, 224]
    else if r == 5 then [253, 254, 255, 256, 257, 258, 259, 260, 261, 262, 263, 264, 265, 266, 267, 268, 269]
    else if r == 6 then [298, 299, 300, 301, 302, 303, 304, 305, 306, 307, 308, 309, 310, 311, 312, 313, 314]
    else if r == 7 then [343, 344, 345, 346, 347, 348, 349, 350, 351, 352, 353, 354, 355, 356, 357, 358, 359]
    else [360, 361]
  }

  /** tbl_ch_fill[i] */
  function TblChFill(i: nat): nat
    requires i < NFILL
  {
    TblRow(i / 17)[i % 17]
  }

  lemma TableIsFillCh(f: nat)
    requires f < NFILL
    ensures TblChFill(f) == FillCh(f)
  {
    var r, g := f / 17, f % 17;
    if r < 8 { RowRuns(r, g); }
  }

  lemma RowRuns(r: nat, g: nat)
    requires r < 8 && g < 17
    ensures TblRow(r)[g] == 45 * r + 28 + g
  {
    var a := 45 * r + 28;
    assert TblRow(r)
        == [a, a + 1, a + 2, a + 3, a + 4, a + 5, a + 6, a + 7, a + 8, a + 9, a + 10, a + 11, a + 12, a + 13,
                         a + 14, a + 15, a + 16];
    hide TblRow;
  }

  /** zero_clear */
  method ZeroClear(p: array<real>, nb: nat)
    requires p.Length == nb * SIZE
    modifies p
    ensures Mirrors(p[..], Zeros(nb * SIZE), nb)
  {
    for gid := 0 to p.Length
      invariant forall k | 0 <= k < gid :: p[k] == 0.0
    {
      p[gid] := 0.0;
    }
    AllZero(p[..], nb);
  }

  lemma AllZero(p: seq<real>, nb: nat)
    requires |p| == nb * SIZE && forall k | 0 <= k < |p| :: p[k] == 0.0
    ensures Mirrors(p, Zeros(nb * SIZE), nb)
  {
    var q := Zeros(nb * SIZE);
    forall t | 0 <= t < |q| ensures MirrorsAt(p, q, nb, t) { SpotIn(nb, t); }
  }

  /** The work items of plane_fill for one channel of one sample: a plane of v. */
  method PlaneOf(p: array<real>, nb: nat, ub: nat, ch: nat, v: real, ghost q: seq<real>) returns (ghost r: seq<real>)
    requires ub < nb && ch < NCH && Mirrors(p[..], q, nb)
    modifies p
    ensures Mirrors(p[..], r, nb)
    ensures RangeFilled(q, r, (ub * NCH + ch) * PLANE, (ub * NCH + ch) * PLANE + PLANE, v)
  {
    ghost var t0 := (ub * NCH + ch) * PLANE;
    r := q;
    for uplane := 0 to PLANE
      invariant Mirrors(p[..], r, nb) && RangeFilled(q, r, t0, t0 + uplane, v)
    {
      Planes(ub, ch, uplane);
      MirrorWrite(p[..], r, nb, t0 + uplane, v);
      hide Mirrors, At;
      ghost var before := p[..];
      p[At(ch, nb, ub) * PLANE + uplane] := v;
      assert p[..] == before[Spot(nb, t0 + uplane) := v];
      r := r[t0 + uplane := v];
    }
  }

  /** The planes of the first k fill values of the batch are there; the rest is zero. */
  ghost predicate PlanesTo(q: seq<real>, vals: seq<real>, nb: nat, k: nat) {
    |q| == nb * SIZE && |vals| == nb * NFILL && k <= |vals| && forall t | 0 <= t < |q| :: PlaneAt(q, vals, nb, k, t)
  }

  ghost predicate PlaneAt(q: seq<real>, vals: seq<real>, nb: nat, k: nat, t: nat)
    requires |q| == nb * SIZE && |vals| == nb * NFILL && k <= |vals| && t < |q|
  {
    q[t] == PlaneValue(vals, k, t)
  }

  function PlaneValue(vals: seq<real>, k: nat, t: nat): real
    requires k <= |vals|
  {
    var ch, ub := t / PLANE % NCH, t / PLANE / NCH;
    if OneCh(ch) then 0.0 else
      if ub * NFILL + FillOf(ch) < k then vals[ub * NFILL + FillOf(ch)] else 0.0
  }

  /** Filling the plane of fill value f of sample ub. */
  lemma PlanesNext(q: seq<real>, r: seq<real>, vals: seq<real>, nb: nat, ub: nat, f: nat)
    requires ub < nb && f < NFILL && PlanesTo(q, vals, nb, ub * NFILL + f)
    requires var t0 := (ub * NCH + FillCh(f)) * PLANE; RangeFilled(q, r, t0, t0 + PLANE, vals[ub * NFILL + f])
    ensures PlanesTo(r, vals, nb, ub * NFILL + f + 1)
  {
    var k, next := ub * NFILL + f, ub * NFILL + f + 1;
    forall t | 0 <= t < |q| ensures PlaneAt(r, vals, nb, next, t) {
      assert PlaneAt(q, vals, nb, k, t);
      PlaneOfIndex(t, ub, f);
      hide FillCh, FillOf, OneCh;
    }
  }

  /** Index t lies in the plane of fill value f of sample ub exactly if that is the fill value it reads. */
  lemma PlaneOfIndex(t: nat, ub: nat, f: nat)
    requires f < NFILL
    ensures var ch, b := t / PLANE % NCH, t / PLANE / NCH; var t0 := (ub * NCH + FillCh(f)) * PLANE;
            t0 <= t < t0 + PLANE <==> !OneCh(ch) && b * NFILL + FillOf(ch) == ub * NFILL + f
  {
    var ch, b, c := t / PLANE % NCH, t / PLANE / NCH, FillCh(f);
    ChannelsShared(ch, f);
    SamePair(b, ch, ub, c, NCH);
    assert t / PLANE == b * NCH + ch;
    if !OneCh(ch) { SamePair(b, FillOf(ch), ub, f, NFILL); }
    hide OneCh, FillOf, FillCh;
  }

  lemma SamePair(a: nat, x: nat, b: nat, y: nat, n: nat)
    requires x < n && y < n
    ensures a * n + x == b * n + y <==> a == b && x == y
  {
    if a * n + x == b * n + y { Unique(a, n, x, b, y); }
  }

  /** plane_fill */
  method PlaneFill(p: array<real>, nb: nat, pvalue: array<Word>, ghost vals: seq<real>) returns (ghost q: seq<real>)
    requires |vals| == nb * NFILL <= pvalue.Length && pvalue[..nb * NFILL] == Fs(vals)
    requires Mirrors(p[..], Zeros(nb * SIZE), nb)
    modifies p
    ensures Mirrors(p[..], q, nb) && PlanesTo(q, vals, nb, nb * NFILL)
  {
    q := Zeros(nb * SIZE);
    hide PlanesTo, Mirrors;
    for ub := 0 to nb
      invariant Mirrors(p[..], q, nb) && PlanesTo(q, vals, nb, ub * NFILL)
    {
      for ich := 0 to NFILL
        invariant Mirrors(p[..], q, nb) && PlanesTo(q, vals, nb, ub * NFILL + ich)
      {
        q := PlaneFillOne(p, nb, pvalue, vals, ub, ich, q);
      }
    }
  }

  method PlaneFillOne(p: array<real>, nb: nat, pvalue: array<Word>, ghost vals: seq<real>, ub: nat, ich: nat,
                      ghost q: seq<real>) returns (ghost r: seq<real>)
    requires |vals| == nb * NFILL <= pvalue.Length && pvalue[..nb * NFILL] == Fs(vals) && ub < nb && ich < NFILL
    requires Mirrors(p[..], q, nb) && PlanesTo(q, vals, nb, ub * NFILL + ich)
    modifies p
    ensures Mirrors(p[..], r, nb) && PlanesTo(r, vals, nb, ub * NFILL + ich + 1)
  {
    TableIsFillCh(ich);
    ChannelsShared(0, ich);
    assert pvalue[ub * NFILL + ich] == pvalue[..nb * NFILL][ub * NFILL + ich] == F(vals[ub * NFILL + ich]);
    hide PlanesTo, Mirrors, Fs, FillCh;
    r := PlaneOf(p, nb, ub, TblChFill(ich), pvalue[ub * NFILL + ich].x, q);
    PlanesNext(q, r, vals, nb, ub, ich);
  }

  /** set_one for the index pindex[block + gid] */
  method SetOne(p: array<real>, nb: nat, pindex: array<Word>, block: nat, n: nat, ghost ns: seq<nat>,
                ghost q: seq<real>)
    returns (ghost r: seq<real>)
    requires block + n <= pindex.Length && |ns| == n && pindex[block..block + n] == Us(ns, 0) && Mirrors(p[..], q, nb)
    requires forall k | 0 <= k < n :: ns[k] < nb * SIZE
    modifies p
    ensures Mirrors(p[..], r, nb) && |r| == |q|
    ensures forall t | 0 <= t < |q| :: r[t] == if t in ns then 1.0 else q[t]
  {
    r := q;
    for gid := 0 to n
      invariant Mirrors(p[..], r, nb) && |r| == |q|
      invariant forall t | 0 <= t < |q| :: r[t] == if t in ns[..gid] then 1.0 else q[t]
    {
      assert pindex[block + gid] == pindex[block..block + n][gid] == U(ns[gid]);
      MirrorWrite(p[..], r, nb, ns[gid], 1.0);
      hide Mirrors, At;
      var u := pindex[block + gid].n;
      var sq, ch, ub := u % PLANE, u / PLANE % NCH, u / PLANE / NCH;
      ghost var before := p[..];
      p[At(ch, nb, ub) * PLANE + sq] := 1.0;
      assert p[..] == before[Spot(nb, ns[gid]) := 1.0];
      r := r[ns[gid] := 1.0];
      TakeNext(ns, gid);
    }
    assert ns[..n] == ns;
  }

  // ----- what the kernels make of a packed batch -----

  /** What belongs at index t of the batch: the decoded sample, or zero behind the last one. */
  function UnpackedAt(ss: seq<Sample>, t: nat): real {
    if t / SIZE < |ss| then DecodedAt(Fills(ss[t / SIZE]), Ones(ss[t / SIZE], SIZE), t % SIZE) else 0.0
  }

  lemma {:induction false} JoinedHas(ls: seq<seq<nat>>, step: nat, b: nat, i: nat)
    requires 0 < step && i < step && forall c, k | 0 <= c < |ls| && 0 <= k < |ls[c]| :: ls[c][k] < step
    ensures Offset(b, step) + i in Joined(ls, step) <==> b < |ls| && i in ls[b]
  {
    if ls != [] {
      var init, l, d := ls[..|ls| - 1], ls[|ls| - 1], |ls| - 1;
      JoinedHas(init, step, b, i);
      ShiftHas(l, step, d, b, i);
      assert Joined(ls, step) == Joined(init, step) + Shift(l, Offset(d, step));
      assert b < d ==> init[b] == ls[b];
    }
  }

  lemma ShiftHas(l: seq<nat>, step: nat, d: nat, b: nat, i: nat)
    requires i < step && forall k | 0 <= k < |l| :: l[k] < step
    ensures Offset(b, step) + i in Shift(l, Offset(d, step)) <==> b == d && i in l
  {
    var s := Shift(l, Offset(d, step));
    if b == d && i in l {
      var k :| 0 <= k < |l| && l[k] == i;
      assert s[k] == Offset(b, step) + i;
    }
    if k :| 0 <= k < |s| && s[k] == Offset(b, step) + i {
      Unique(d, step, l[k], b, i);
    }
  }

  lemma OnesHas(ss: seq<Sample>, t: nat)
    ensures t in AllOnes(ss) <==> t / SIZE < |ss| && t % SIZE in Ones(ss[t / SIZE], SIZE)
  {
    var b, i := t / SIZE, t % SIZE;
    JoinedHas(OnesOf(ss), SIZE, b, i);
    assert Offset(b, SIZE) + i == t;
  }

  lemma OnesBelow(ss: seq<Sample>, nb: nat, k: nat)
    requires |ss| <= nb && k < |AllOnes(ss)|
    ensures AllOnes(ss)[k] < nb * SIZE
  {
    var t := AllOnes(ss)[k];
    OnesHas(ss, t);
    assert t / SIZE < nb;
  }

  lemma {:induction false} AllFillsAt(ss: seq<Sample>, b: nat, f: nat)
    requires b < |ss| && f < NFILL
    ensures AllFills(ss)[b * NFILL + f] == Fills(ss[b])[f]
  {
    if b < |ss| - 1 { AllFillsAt(ss[..|ss| - 1], b, f); }
    hide Fills;
  }

  lemma FillsToAt(ss: seq<Sample>, nb: nat, b: nat, f: nat)
    requires |ss| <= nb && b < nb && f < NFILL
    ensures b * NFILL + f < nb * NFILL
    ensures FillsTo(ss, nb)[b * NFILL + f] == if b < |ss| then Fills(ss[b])[f] else 0.0
  {
    FillsEnd(ss, nb);
    if b < |ss| { AllFillsAt(ss, b, f); }
    hide AllFills, Fills, FillsTo;
  }

  /** Planes and ones together are the unpacked batch. */
  lemma UnpackedIs(ss: seq<Sample>, nb: nat, q: seq<real>, t: nat)
    requires |ss| <= nb && PlanesTo(q, FillsTo(ss, nb), nb, nb * NFILL) && t < nb * SIZE
    ensures (if t in AllOnes(ss) then 1.0 else q[t]) == UnpackedAt(ss, t)
  {
    var ub, i := t / SIZE, t % SIZE;
    var ch, b := t / PLANE % NCH, t / PLANE / NCH;
    assert t == (b * NCH + ch) * PLANE + t % PLANE;
    Planes(b, ch, t % PLANE);
    assert ub == b && i / PLANE == ch && b < nb;
    OnesHas(ss, t);
    assert PlaneAt(q, FillsTo(ss, nb), nb, nb * NFILL, t);
    ChannelsShared(ch, 0);
    if !OneCh(ch) { FillsToAt(ss, nb, b, FillOf(ch)); }
    hide AllOnes, FillsTo, Fills, Ones, OneCh, FillOf;
  }

  lemma LayoutParts(bd: Build, a: seq<Word>, ss: seq<Sample>, ms: seq<seq<nat>>, nb: nat)
    requires Fits(bd, ss, ms, nb) && |a| == 2048 * nb
    ensures nb * NFILL <= FillBlock(nb) && FillBlock(nb) + |AllOnes(ss)| <= |a|
    ensures Layout(bd, a, ss, ms, nb)[..nb * NFILL] == Fs(FillsTo(ss, nb))
    ensures Layout(bd, a, ss, ms, nb)[FillBlock(nb)..FillBlock(nb) + |AllOnes(ss)|] == Us(AllOnes(ss), 0)
  {
    PartsApart(ss, nb);
    FillsEnd(ss, nb);
    var fs, os, index := Fs(FillsTo(ss, nb)), Us(AllOnes(ss), 0), IndexMoves(ss, nb);
    var b := Put(Put(a, 0, fs), FillBlock(nb), os);
    assert Layout(bd, a, ss, ms, nb) == Put(b, index, Us(AllMoves(bd, ms), 0));
    hide FillBlock, AllOnes, AllMoves, FillsTo, AllFills, IndexMoves, Layout, Put;
  }

  /** The kernels one after the other: every cell of the device ends up with what belongs there. */
  method Decode(p: array<real>, nb: nat, mem: array<Word>, nOne: nat, ghost bd: Build, ghost a: seq<Word>,
                ghost ss: seq<Sample>, ghost ms: seq<seq<nat>>)
    requires Fits(bd, ss, ms, nb) && |a| == 2048 * nb && mem[..] == Layout(bd, a, ss, ms, nb)
    requires nOne == SizesOf(bd, ss, ms, nb).ones && p.Length == nb * SIZE
    modifies p
    ensures forall t | 0 <= t < nb * SIZE :: Spot(nb, t) < p.Length && p[Spot(nb, t)] == UnpackedAt(ss, t)
  {
    ghost var vals := FillsTo(ss, nb);
    LayoutParts(bd, a, ss, ms, nb);
    forall k | 0 <= k < |AllOnes(ss)| ensures AllOnes(ss)[k] < nb * SIZE { OnesBelow(ss, nb, k); }
    var block := FillBlock(nb);
    assert mem[..nb * NFILL] == mem[..][..nb * NFILL] && mem[block..block + nOne] == mem[..][block..block + nOne];
    hide Layout, FillsTo, AllOnes, Us, Fs, Mirrors, PlanesTo, FillBlock;
    ZeroClear(p, nb);
    ghost var q := PlaneFill(p, nb, mem, vals);
    ghost var r := SetOne(p, nb, mem, block, nOne, AllOnes(ss), q);
    DecodedAll(p[..], ss, nb, q, r);
  }

  lemma DecodedAll(p: seq<real>, ss: seq<Sample>, nb: nat, q: seq<real>, r: seq<real>)
    requires |ss| <= nb && PlanesTo(q, FillsTo(ss, nb), nb, nb * NFILL) && Mirrors(p, r, nb) && |r| == |q|
    requires forall t | 0 <= t < |q| :: r[t] == if t in AllOnes(ss) then 1.0 else q[t]
    ensures forall t | 0 <= t < nb * SIZE :: Spot(nb, t) < |p| && p[Spot(nb, t)] == UnpackedAt(ss, t)
  {
    hide *;
    forall t | 0 <= t < nb * SIZE ensures Spot(nb, t) < |p| && p[Spot(nb, t)] == UnpackedAt(ss, t) {
      CellDecoded(p, ss, nb, q, r, t);
    }
  }

  lemma CellDecoded(p: seq<real>, ss: seq<Sample>, nb: nat, q: seq<real>, r: seq<real>, t: nat)
    requires |ss| <= nb && PlanesTo(q, FillsTo(ss, nb), nb, nb * NFILL) && Mirrors(p, r, nb) && |r| == |q|
    requires t < nb * SIZE && forall t | 0 <= t < |q| :: r[t] == if t in AllOnes(ss) then 1.0 else q[t]
    ensures Spot(nb, t) < |p| && p[Spot(nb, t)] == UnpackedAt(ss, t)
  {
    SpotIn(nb, t);
    assert MirrorsAt(p, r, nb, t);
    UnpackedIs(ss, nb, q, t);
    hide AllOnes, UnpackedAt, FillsTo, Spot;
  }

  /** A well-formed sample comes back unchanged, plane by plane. */
  lemma UnpackedSample(ss: seq<Sample>, ub: nat, i: nat)
    requires ub < |ss| && i < SIZE
    ensures UnpackedAt(ss, ub * SIZE + i) == ss[ub][i] <==> WellFormedAt(ss[ub], i)
  {
    var t := ub * SIZE + i;
    assert t / SIZE == ub && t % SIZE == i;
    RoundTripAt(ss[ub], i);
    hide Ones, Fills;
  }
}
