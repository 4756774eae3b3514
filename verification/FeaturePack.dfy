/** Batches for the device: pack_batch packs raw samples, NNInBatchCompressed takes compressed samples one at a time
    and packs what it has gathered (src/common/nnet.cpp:142-203, 300-340). */
module FeaturePack {
  import opened Features
  import opened FlatIndex

  const MAXSIZE_MOVES: nat := 1024

  /** The two builds (src/common/nnet.hpp:26-32): with USE_POLICY2187, as Makefile.config:30 has it, a policy has 27
      channels and a sample up to 1024 ones; without it 139 channels and 512 ones. */
  datatype Build = Policy2187 | Policy11259 {
    /** maxn_one */
    function MaxnOne(): nat { if Policy2187? then 1024 else 512 }

    /** nch_out_policy times the size of a plane */
    function SizeOut(): nat { if Policy2187? then 27 * PLANE else 139 * PLANE }
  }

  /** fill_block_size */
  function FillBlock(nb: nat): nat {
    CeilMulti(nb * NFILL, 32)
  }

  // ----- what a packed batch is -----

  function AllFills(ss: seq<Sample>): (r: seq<real>)
    ensures |r| == |ss| * NFILL
  {
    if ss == [] then [] else AllFills(ss[..|ss| - 1]) + Fills(ss[|ss| - 1])
  }

  function Shift(ns: seq<nat>, d: nat): seq<nat> {
    seq(|ns|, k requires 0 <= k < |ns| => ns[k] + d)
  }

  /** Lists of indices one after the other, those of list b counted from b times step. */
  function Joined(ls: seq<seq<nat>>, step: nat): seq<nat> {
    if ls == [] then [] else Joined(ls[..|ls| - 1], step) + Shift(ls[|ls| - 1], Offset(|ls| - 1, step))
  }

  function Offset(b: nat, step: nat): nat {
    b * step
  }

  function OnesOf(ss: seq<Sample>): (os: seq<seq<nat>>)
    ensures |os| == |ss|
  {
    seq(|ss|, b requires 0 <= b < |ss| => Ones(ss[b], SIZE))
  }

  function AllOnes(ss: seq<Sample>): seq<nat> {
    Joined(OnesOf(ss), SIZE)
  }

  function AllMoves(bd: Build, ms: seq<seq<nat>>): seq<nat> {
    Joined(ms, bd.SizeOut())
  }

  function Zeros(n: nat): seq<real> {
    seq(n, _ => 0.0)
  }

  /** Where the moves start. */
  function IndexMoves(ss: seq<Sample>, nb: nat): nat {
    FillBlock(nb) + CeilMulti(|AllOnes(ss)|, 32)
  }

  /** The packed batch stays within the 2048 words a sample that are allocated for it
      (src/common/nnet-ocl.cpp:2202-2203). */
  predicate Fits(bd: Build, ss: seq<Sample>, ms: seq<seq<nat>>, nb: nat) {
    |ss| == |ms| && |ss| <= nb && IndexMoves(ss, nb) + |AllMoves(bd, ms)| <= 2048 * nb
  }

  /** The parts of a packed batch come one after the other. */
  lemma PartsApart(ss: seq<Sample>, nb: nat)
    ensures nb * NFILL <= FillBlock(nb) < nb * NFILL + 32
    ensures FillBlock(nb) + |AllOnes(ss)| <= IndexMoves(ss, nb) < FillBlock(nb) + |AllOnes(ss)| + 32
  {
    CeilMultiIs(nb * NFILL, 32);
    CeilMultiIs(|AllOnes(ss)|, 32);
    hide AllOnes, CeilMulti;
  }

  /** The words of the buffer a with the batch packed into it; the gaps before aligned places keep what they held. */
  function Layout(bd: Build, a: seq<Word>, ss: seq<Sample>, ms: seq<seq<nat>>, nb: nat): (r: seq<Word>)
    requires Fits(bd, ss, ms, nb) && |a| == 2048 * nb
    ensures |r| == |a|
  {
    PartsApart(ss, nb);
    Put(Inputs(bd, a, ss, ms, nb), IndexMoves(ss, nb), Us(AllMoves(bd, ms), 0))
  }

  /** The fill values, and the ones behind them. */
  function Inputs(bd: Build, a: seq<Word>, ss: seq<Sample>, ms: seq<seq<nat>>, nb: nat): (r: seq<Word>)
    requires Fits(bd, ss, ms, nb) && |a| == 2048 * nb
    ensures |r| == |a|
  {
    PartsApart(ss, nb);
    var fills := Put(a, 0, Fs(AllFills(ss) + Zeros((nb - |ss|) * NFILL)));
    Put(fills, FillBlock(nb), Us(AllOnes(ss), 0))
  }

  /** size_write, n_one, ntot_moves, index_moves */
  datatype Sizes = Sizes(write: nat, ones: nat, moves: nat, index: nat)

  function SizesOf(bd: Build, ss: seq<Sample>, ms: seq<seq<nat>>, nb: nat): Sizes {
    Sizes((IndexMoves(ss, nb) + |AllMoves(bd, ms)|) * 4, |AllOnes(ss)|, |AllMoves(bd, ms)|, IndexMoves(ss, nb))
  }

  // ----- pack_batch on raw samples -----

  function SamplesOf(in_: seq<real>, n: nat): (ss: seq<Sample>)
    requires n * SIZE <= |in_|
    ensures |ss| == n
  {
    seq(n, b requires 0 <= b < n => SampleAt(in_, b * SIZE))
  }

  function MovesOf(nnmoves: seq<nat>, sizes: seq<nat>, n: nat): (ms: seq<seq<nat>>)
    requires n <= |sizes| && n * MAXSIZE_MOVES <= |nnmoves| && forall b | 0 <= b < n :: sizes[b] < MAXSIZE_MOVES
    ensures |ms| == n
  {
    seq(n, b requires 0 <= b < n => nnmoves[b * MAXSIZE_MOVES..b * MAXSIZE_MOVES + sizes[b]])
  }

  /** The fill values of the first ub places, those of absent samples being zero. */
  function FillsTo(ss: seq<Sample>, ub: nat): (r: seq<real>)
    ensures |r| == ub * NFILL
  {
    if ub <= |ss| then AllFills(ss[..ub]) else AllFills(ss) + Zeros((ub - |ss|) * NFILL)
  }

  lemma FillsToNext(a: seq<Word>, ss: seq<Sample>, ub: nat, s: Sample)
    requires (ub + 1) * NFILL <= |a| && (ub < |ss| ==> s == ss[ub])
    ensures |FillWords(s, ub < |ss|, NFILL)| == NFILL
    ensures Put(Put(a, 0, Fs(FillsTo(ss, ub))), ub * NFILL, FillWords(s, ub < |ss|, NFILL))
         == Put(a, 0, Fs(FillsTo(ss, ub + 1)))
  {
    var more := if ub < |ss| then Fills(s) else Zeros(NFILL);
    assert Fills(s)[..NFILL] == Fills(s);
    assert FillWords(s, ub < |ss|, NFILL) == Fs(more);
    if ub < |ss| {
      assert ss[..ub + 1][..ub] == ss[..ub];
    } else {
      assert ub == |ss| ==> ss[..ub] == ss;
      assert Zeros((ub + 1 - |ss|) * NFILL) == Zeros((ub - |ss|) * NFILL) + Zeros(NFILL);
    }
    assert FillsTo(ss, ub + 1) == FillsTo(ss, ub) + more;
    hide FillsTo, AllFills, Zeros, Fills, FillWords;
    FsCat(FillsTo(ss, ub), more);
    PutCat(a, 0, Fs(FillsTo(ss, ub)), Fs(more));
  }

  method PackFills(nb0: nat, nb: nat, in_: array<real>, out: array<Word>, ghost ss: seq<Sample>)
    requires nb0 <= nb && nb0 * SIZE <= in_.Length && ss == SamplesOf(in_[..], nb0) && nb * NFILL <= out.Length
    modifies out
    ensures out[..] == Put(old(out[..]), 0, Fs(FillsTo(ss, nb)))
  {
    ghost var before := out[..];
    PutNone(before, 0);
    assert FillsTo(ss, 0) == [];
    hide Put, Fs, FillsTo, FillWords, SampleAt;
    for ub := 0 to nb
      invariant out[..] == Put(before, 0, Fs(FillsTo(ss, ub)))
    {
      ghost var s: Sample := if ub < nb0 then ss[ub] else seq(SIZE, _ => 0.0);
      FillsToNext(before, ss, ub, s);
      PutFills(out, ub * NFILL, in_, ub * SIZE, ub < nb0, s);
    }
  }

  // ----- lists of indices, one after the other -----

  /** The lists before list b are written to out from pos on. */
  ghost predicate JoinedTo(out: seq<Word>, before: seq<Word>, pos: nat, n: nat, ls: seq<seq<nat>>, step: nat, b: nat) {
    && b <= |ls| && n == |Joined(ls[..b], step)| && pos + |Joined(ls, step)| <= |before| && pos + n <= |before|
    && out == Put(before, pos, Us(Joined(ls[..b], step), 0))
  }

  lemma JoinNext(out: seq<Word>, a: seq<Word>, pos: nat, n: nat, ls: seq<seq<nat>>, step: nat, b: nat)
    requires JoinedTo(out, a, pos, n, ls, step, b) && b < |ls|
    ensures pos + n + |ls[b]| <= |out| == |a|
    ensures JoinedTo(Put(out, pos + n, Us(ls[b], Offset(b, step))), a, pos, n + |ls[b]|, ls, step, b + 1)
  {
    assert ls[..b + 1][..b] == ls[..b];
    JoinedPrefix(ls, step, b + 1);
    var u, v := Joined(ls[..b], step), Shift(ls[b], Offset(b, step));
    assert Joined(ls[..b + 1], step) == u + v;
    assert Us(v, 0) == Us(ls[b], Offset(b, step));
    hide Shift, Joined, Offset;
    UsCat(u, v, 0);
    PutCat(a, pos, Us(u, 0), Us(v, 0));
  }

  lemma JoinEnd(out: seq<Word>, a: seq<Word>, pos: nat, n: nat, ls: seq<seq<nat>>, step: nat)
    requires JoinedTo(out, a, pos, n, ls, step, |ls|)
    ensures n == |Joined(ls, step)| && pos + n <= |a| && out == Put(a, pos, Us(Joined(ls, step), 0))
  {
    assert ls[..|ls|] == ls;
  }

  lemma {:induction false} JoinedPrefix(ls: seq<seq<nat>>, step: nat, k: nat)
    requires k <= |ls|
    ensures |Joined(ls[..k], step)| <= |Joined(ls, step)|
    decreases |ls| - k
  {
    if k < |ls| {
      assert ls[..k + 1][..k] == ls[..k];
      JoinedPrefix(ls, step, k + 1);
    } else {
      assert ls[..k] == ls;
    }
  }

  method PackOnes(nb0: nat, in_: array<real>, out: array<Word>, pos: nat, ghost ss: seq<Sample>) returns (n: nat)
    requires nb0 * SIZE <= in_.Length && ss == SamplesOf(in_[..], nb0) && pos + |AllOnes(ss)| <= out.Length
    modifies out
    ensures n == |AllOnes(ss)| && out[..] == Put(old(out[..]), pos, Us(AllOnes(ss), 0))
  {
    ghost var before, os := out[..], OnesOf(ss);
    n := 0;
    hide SamplesOf, SampleAt, JoinedTo, Joined, Ones, Put, Us;
    for ub := 0 to nb0
      invariant JoinedTo(out[..], before, pos, n, os, SIZE, ub)
    {
      n := PackOnesOf(nb0, in_, out, pos, n, ub, before, ss, os);
    }
    JoinEnd(out[..], before, pos, n, os, SIZE);
  }

  method PackOnesOf(nb0: nat, in_: array<real>, out: array<Word>, pos: nat, n0: nat, ub: nat, ghost before: seq<Word>,
                    ghost ss: seq<Sample>, ghost os: seq<seq<nat>>) returns (n: nat)
    requires nb0 * SIZE <= in_.Length && ss == SamplesOf(in_[..], nb0) && ub < nb0 && os == OnesOf(ss)
    requires JoinedTo(out[..], before, pos, n0, os, SIZE, ub)
    modifies out
    ensures JoinedTo(out[..], before, pos, n, os, SIZE, ub + 1)
  {
    JoinNext(out[..], before, pos, n0, os, SIZE, ub);
    hide SamplesOf, SampleAt, JoinedTo, Joined, Ones, Put, Us;
    var m := PutOnes(out, pos + n0, in_, ub * SIZE, ub * SIZE, ss[ub]);
    n := n0 + m;
  }

  // ----- moves -----

  /** size moves from nnmoves[from] on, shifted, to out[pos] and on. */
  method PutMoves(out: array<Word>, pos: nat, nnmoves: array<nat>, from: nat, size: nat, shift: nat, ghost ms: seq<nat>)
    requires from + size <= nnmoves.Length && pos + size <= out.Length && ms == nnmoves[..][from..from + size]
    modifies out
    ensures out[..] == Put(old(out[..]), pos, Us(ms, shift))
  {
    ghost var before := out[..];
    PutNone(before, pos);
    assert ms[..0] == [] && Us([], shift) == [];
    hide Us, Put;
    for u := 0 to size
      invariant |Us(ms[..u], shift)| == u && out[..] == Put(before, pos, Us(ms[..u], shift))
    {
      PutMove(before, pos, ms, u, shift);
      out[pos + u] := U(nnmoves[from + u] + shift);
    }
    assert ms[..size] == ms;
  }

  lemma PutMove(a: seq<Word>, pos: nat, ms: seq<nat>, u: nat, shift: nat)
    requires u < |ms| && pos + u < |a|
    ensures |Us(ms[..u], shift)| == u && |Us(ms[..u + 1], shift)| == u + 1
    ensures Put(a, pos, Us(ms[..u], shift))[pos + u := U(ms[u] + shift)] == Put(a, pos, Us(ms[..u + 1], shift))
  {}

  method PackMoves(bd: Build, nb0: nat, sizes: array<nat>, nnmoves: array<nat>, out: array<Word>, pos: nat,
                   ghost ms: seq<seq<nat>>) returns (n: nat)
    requires nb0 <= sizes.Length && nb0 * MAXSIZE_MOVES <= nnmoves.Length
    requires forall b | 0 <= b < nb0 :: sizes[..][b] < MAXSIZE_MOVES
    requires ms == MovesOf(nnmoves[..], sizes[..], nb0) && pos + |AllMoves(bd, ms)| <= out.Length
    modifies out
    ensures n == |AllMoves(bd, ms)| && out[..] == Put(old(out[..]), pos, Us(AllMoves(bd, ms), 0))
  {
    ghost var before := out[..];
    n := 0;
    hide JoinedTo, Joined, Put, Us, MovesOf;
    for ub := 0 to nb0
      invariant JoinedTo(out[..], before, pos, n, ms, bd.SizeOut(), ub)
    {
      n := PackMovesOf(bd, nb0, sizes, nnmoves, out, pos, n, ub, before, ms);
    }
    JoinEnd(out[..], before, pos, n, ms, bd.SizeOut());
  }

  method PackMovesOf(bd: Build, nb0: nat, sizes: array<nat>, nnmoves: array<nat>, out: array<Word>, pos: nat,
                     n0: nat, ub: nat, ghost before: seq<Word>, ghost ms: seq<seq<nat>>) returns (n: nat)
    requires nb0 <= sizes.Length && nb0 * MAXSIZE_MOVES <= nnmoves.Length
    requires forall b | 0 <= b < nb0 :: sizes[..][b] < MAXSIZE_MOVES
    requires ms == MovesOf(nnmoves[..], sizes[..], nb0) && ub < nb0
    requires JoinedTo(out[..], before, pos, n0, ms, bd.SizeOut(), ub)
    modifies out
    ensures JoinedTo(out[..], before, pos, n, ms, bd.SizeOut(), ub + 1)
  {
    JoinNext(out[..], before, pos, n0, ms, bd.SizeOut(), ub);
    hide JoinedTo, Joined, Put, Us, MovesOf;
    assert sizes[..][ub] == sizes[ub];
    PutMoves(out, pos + n0, nnmoves, ub * MAXSIZE_MOVES, sizes[ub], ub * bd.SizeOut(), ms[ub]);
    n := n0 + sizes[ub];
  }

  lemma FillsEnd(ss: seq<Sample>, nb: nat)
    requires |ss| <= nb
    ensures FillsTo(ss, nb) == AllFills(ss) + Zeros((nb - |ss|) * NFILL)
  {
    assert ss[..|ss|] == ss;
    hide AllFills;
  }

  /** pack_batch: the first nb0 samples of in_ with their moves, for a device that takes nb. */
  method PackBatch(bd: Build, nb0: nat, nb: nat, in_: array<real>, sizes: array<nat>, nnmoves: array<nat>,
                   out: array<Word>) returns (r: Sizes)
    requires nb0 <= nb && out.Length == 2048 * nb && nb0 * SIZE <= in_.Length && nb0 <= sizes.Length
    requires nb0 * MAXSIZE_MOVES <= nnmoves.Length && forall b | 0 <= b < nb0 :: sizes[..][b] < MAXSIZE_MOVES
    requires Fits(bd, SamplesOf(in_[..], nb0), MovesOf(nnmoves[..], sizes[..], nb0), nb)
    modifies out
    ensures out[..] == Layout(bd, old(out[..]), SamplesOf(in_[..], nb0), MovesOf(nnmoves[..], sizes[..], nb0), nb)
    ensures r == SizesOf(bd, SamplesOf(in_[..], nb0), MovesOf(nnmoves[..], sizes[..], nb0), nb)
  {
    ghost var ss, ms := SamplesOf(in_[..], nb0), MovesOf(nnmoves[..], sizes[..], nb0);
    PartsApart(ss, nb);
    assert IndexMoves(ss, nb) + |AllMoves(bd, ms)| <= 2048 * nb;
    hide Fits, SamplesOf, MovesOf, AllOnes, AllMoves, Layout, Inputs, Put, Us, FillBlock, CeilMulti;
    ghost var a := out[..];
    var nOne := PackInputs(bd, nb0, nb, in_, out, ss, ms);
    var index := FillBlock(nb) + CeilMulti(nOne, 32);
    var nMoves := PackMoves(bd, nb0, sizes, nnmoves, out, index, ms);
    r := Sizes((index + nMoves) * 4, nOne, nMoves, index);
    LaidOut(bd, a, out[..], ss, ms, nb);
  }

  /** The part of pack_batch before the moves. */
  method PackInputs(bd: Build, nb0: nat, nb: nat, in_: array<real>, out: array<Word>, ghost ss: seq<Sample>,
                    ghost ms: seq<seq<nat>>) returns (nOne: nat)
    requires nb0 <= nb && out.Length == 2048 * nb && nb0 * SIZE <= in_.Length
    requires ss == SamplesOf(in_[..], nb0) && Fits(bd, ss, ms, nb)
    modifies out
    ensures nOne == |AllOnes(ss)| && out[..] == Inputs(bd, old(out[..]), ss, ms, nb)
  {
    PartsApart(ss, nb);
    FillsEnd(ss, nb);
    hide SamplesOf, AllMoves, FillsTo, AllFills, AllOnes, Put, Fs, Us, FillBlock;
    PackFills(nb0, nb, in_, out, ss);
    nOne := PackOnes(nb0, in_, out, FillBlock(nb), ss);
  }

  lemma LaidOut(bd: Build, a: seq<Word>, b: seq<Word>, ss: seq<Sample>, ms: seq<seq<nat>>, nb: nat)
    requires Fits(bd, ss, ms, nb) && |a| == 2048 * nb
    requires b == Put(Inputs(bd, a, ss, ms, nb), IndexMoves(ss, nb), Us(AllMoves(bd, ms), 0))
    ensures b == Layout(bd, a, ss, ms, nb)
  {}

  // ----- gathering compressed samples -----

  lemma TakeNext<T>(w: seq<T>, u: nat)
    requires u < |w|
    ensures w[..u + 1] == w[..u] + [w[u]]
  {}

  /** memcpy of the fill values of a compressed sample */
  method CopyFills(dst: array<real>, pos: nat, src: array<Word>, ghost w: seq<real>)
    requires |w| == NFILL <= src.Length && src[..NFILL] == Fs(w) && pos + NFILL <= dst.Length
    modifies dst
    ensures dst[..] == Put(old(dst[..]), pos, w)
  {
    ghost var before := dst[..];
    PutNone(before, pos);
    assert w[..0] == [];
    hide Put;
    for u := 0 to NFILL
      invariant dst[..] == Put(before, pos, w[..u])
    {
      assert src[u] == src[..NFILL][u] == F(w[u]);
      PutSnoc(before, pos, w[..u], w[u]);
      TakeNext(w, u);
      dst[pos + u] := src[u].x;
    }
    assert w[..NFILL] == w;
  }

  /** The loop over the ones of a compressed sample. */
  method AddOnes(dst: array<nat>, pos: nat, src: array<Word>, n: nat, base: nat, ghost ns: seq<nat>)
    requires |ns| == n && NFILL + n <= src.Length && src[NFILL..NFILL + n] == Us(ns, 0) && pos + n <= dst.Length
    modifies dst
    ensures dst[..] == Put(old(dst[..]), pos, Shift(ns, base))
  {
    ghost var before, w := dst[..], Shift(ns, base);
    PutNone(before, pos);
    assert w[..0] == [];
    hide Put;
    for u := 0 to n
      invariant dst[..] == Put(before, pos, w[..u])
    {
      assert src[NFILL + u] == src[NFILL..NFILL + n][u] == U(ns[u]);
      PutSnoc(before, pos, w[..u], w[u]);
      TakeNext(w, u);
      dst[pos + u] := src[NFILL + u].n + base;
    }
    assert w[..n] == w;
  }

  /** The loop over the moves of a sample. */
  method AddMoves(dst: array<nat>, pos: nat, src: array<nat>, from: nat, n: nat, base: nat, ghost ns: seq<nat>)
    requires from + n <= src.Length && ns == src[..][from..from + n] && pos + n <= dst.Length && src != dst
    modifies dst
    ensures dst[..] == Put(old(dst[..]), pos, Shift(ns, base))
  {
    ghost var before, w := dst[..], Shift(ns, base);
    PutNone(before, pos);
    assert w[..0] == [];
    hide Put;
    for u := 0 to n
      invariant dst[..] == Put(before, pos, w[..u])
    {
      PutSnoc(before, pos, w[..u], w[u]);
      TakeNext(w, u);
      dst[pos + u] := src[from + u] + base;
    }
    assert w[..n] == w;
  }

  /** The buffers start with the fill values, ones and moves of the samples. */
  ghost predicate Gathered(bd: Build, fills: seq<real>, ones: seq<nat>, moves: seq<nat>, ub: nat, nOne: nat, nTot: nat,
                           ss: seq<Sample>, ls: seq<seq<nat>>) {
    && ub == |ss| == |ls| && ub * NFILL <= |fills| && nOne <= |ones| && nTot <= |moves|
    && fills[..ub * NFILL] == AllFills(ss) && ones[..nOne] == AllOnes(ss) && moves[..nTot] == AllMoves(bd, ls)
  }

  /** What add asserts (src/common/nnet.cpp:174), for each of the samples added one after the other. */
  ghost predicate AssertsHold(bd: Build, ss: seq<Sample>) {
    forall k | 0 <= k < |ss| :: |AllOnes(ss[..k])| + |Ones(ss[k], SIZE)| <= bd.MaxnOne()
  }

  class InBatchCompressed {
    const build: Build
    const nb: nat
    var ub: nat
    const fills: array<real>
    const ones: array<nat>
    const moves: array<nat>
    var nOne: nat
    var nTot: nat
    /** The samples gathered, and their moves. */
    ghost var samples: seq<Sample>
    ghost var lists: seq<seq<nat>>
    /** No add so far has failed its assertion about the ones. */
    ghost var asserted: bool

    ghost predicate Sized()
      reads this
    {
      && ones != moves && fills.Length == nb * NFILL && ones.Length == nb * build.MaxnOne()
      && moves.Length == nb * MAXSIZE_MOVES
      && ub == |samples| == |lists| <= nb && nOne <= ones.Length && nTot <= ub * MAXSIZE_MOVES
    }

    ghost predicate Valid()
      reads this, fills, ones, moves
    {
      && Sized() && Gathered(build, fills[..], ones[..], moves[..], ub, nOne, nTot, samples, lists)
      && (asserted <==> AssertsHold(build, samples))
    }

    constructor (bd: Build, nb: nat)
      ensures Valid() && samples == [] && lists == [] && build == bd && this.nb == nb
      ensures fresh(fills) && fresh(ones) && fresh(moves)
    {
      build, this.nb := bd, nb;
      fills, ones, moves := new real[nb * NFILL], new nat[nb * bd.MaxnOne()], new nat[nb * MAXSIZE_MOVES];
      ub, nOne, nTot, samples, lists, asserted := 0, 0, 0, [], [], true;
    }

    /** The three copies of add, for the sample at place b behind k ones and m moves. */
    method Append(b: nat, k: nat, m: nat, n: nat, comp: array<Word>, size: nat, nnmoves: array<nat>, from: nat,
                  ghost s: Sample, ghost ms: seq<nat>)
      requires Holds(comp[..], n, s) && b * NFILL + NFILL <= fills.Length && k + n <= ones.Length
          && m + size <= moves.Length
      requires from + size <= nnmoves.Length && ms == nnmoves[..][from..from + size] && nnmoves != ones
          && nnmoves != moves && ones != moves
      modifies fills, ones, moves
      ensures fills[..] == Put(old(fills[..]), b * NFILL, Fills(s))
      ensures ones[..] == Put(old(ones[..]), k, Shift(Ones(s, SIZE), b * SIZE))
      ensures moves[..] == Put(old(moves[..]), m, Shift(ms, b * build.SizeOut()))
    {
      assert comp[..][..NFILL] == comp[..NFILL] && comp[..][NFILL..NFILL + n] == comp[NFILL..NFILL + n];
      hide Put, Shift, Ones, Fills, Fs, Us;
      CopyFills(fills, b * NFILL, comp, Fills(s));
      AddOnes(ones, k, comp, n, b * SIZE, Ones(s, SIZE));
      AddMoves(moves, m, nnmoves, from, size, b * build.SizeOut(), ms);
    }

    /** add: one compressed sample of n ones, with size moves from nnmoves[from] on.  What is demanded of the ones is
        what the allocation needs; whether the assertion holds is recorded. */
    method Add(n: nat, comp: array<Word>, size: nat, nnmoves: array<nat>, from: nat, ghost s: Sample,
               ghost ms: seq<nat>)
      requires Valid() && ub < nb && Holds(comp[..], n, s) && nOne + n <= ones.Length && size < MAXSIZE_MOVES
      requires from + size <= nnmoves.Length && ms == nnmoves[..][from..from + size] && nnmoves != ones
          && nnmoves != moves
      modifies this, fills, ones, moves
      ensures Valid() && samples == old(samples) + [s] && lists == old(lists) + [ms]
      ensures asserted == (old(asserted) && old(nOne) + n <= build.MaxnOne())
    {
      ghost var ss, ls := samples, lists;
      AssertsNext(build, ss, s);
      AddedSample(build, fills[..], ones[..], moves[..], ub, nOne, nTot, ss, ls, s, ms);
      assert n == |Ones(s, SIZE)| && nOne == |AllOnes(ss)|;
      hide *;
      var b, k, m := Count(n, size, s, ms);
      Append(b, k, m, n, comp, size, nnmoves, from, s, ms);
    }

    /** The counters of add, and the places they had. */
    method Count(n: nat, size: nat, ghost s: Sample, ghost ms: seq<nat>) returns (b: nat, k: nat, m: nat)
      requires Sized() && ub < nb && nOne + n <= ones.Length && size < MAXSIZE_MOVES
      modifies this
      ensures Sized() && b == old(ub) && k == old(nOne) && m == old(nTot)
      ensures b * NFILL + NFILL <= fills.Length && m + size <= moves.Length && ones != moves
      ensures ub == b + 1 && nOne == k + n && nTot == m + size
      ensures samples == old(samples) + [s] && lists == old(lists) + [ms]
      ensures asserted == (old(asserted) && k + n <= build.MaxnOne())
    {
      b, k, m := ub, nOne, nTot;
      asserted := asserted && nOne + n <= build.MaxnOne();
      nOne, nTot, ub, samples, lists := nOne + n, nTot + size, ub + 1, samples + [s], lists + [ms];
    }

    /** compute_pack_batch */
    method ComputePackBatch(out: array<Word>) returns (r: Sizes)
      requires Valid() && Fits(build, samples, lists, nb) && out.Length == 2048 * nb
      modifies out
      ensures out[..] == Layout(build, old(out[..]), samples, lists, nb) && r == SizesOf(build, samples, lists, nb)
    {
      ghost var a := out[..];
      PartsApart(samples, nb);
      CopyInputs(out);
      var index := FillBlock(nb) + CeilMulti(nOne, 32);
      hide Sized, AllFills, AllOnes, AllMoves, Put, Us, FillBlock, CeilMulti, Inputs, Layout;
      CopyNats(out, index, moves, nTot, AllMoves(build, lists));
      LaidOut(build, a, out[..], samples, lists, nb);
      r := Sizes((index + nTot) * 4, nOne, nTot, index);
    }

    /** The part of compute_pack_batch before the moves. */
    method CopyInputs(out: array<Word>)
      requires Valid() && Fits(build, samples, lists, nb) && out.Length == 2048 * nb
      modifies out
      ensures out[..] == Inputs(build, old(out[..]), samples, lists, nb)
    {
      ghost var a := out[..];
      PartsApart(samples, nb);
      assert |Fs(AllFills(samples))| == ub * NFILL && ones[..nOne] == AllOnes(samples);
      assert FillBlock(nb) + nOne <= out.Length && ub * NFILL + (nb - ub) * NFILL == nb * NFILL;
      InputsAre(build, a, samples, lists, nb);
      hide *;
      CopyReals(out, 0, fills, ub * NFILL, AllFills(samples));
      ZeroRest(out, ub * NFILL, (nb - ub) * NFILL);
      CopyNats(out, FillBlock(nb), ones, nOne, AllOnes(samples));
    }
  }

  /** The fill values of the samples, the zeros behind them, and the ones, written one after the other. */
  lemma InputsAre(bd: Build, a: seq<Word>, ss: seq<Sample>, ms: seq<seq<nat>>, nb: nat)
    requires Fits(bd, ss, ms, nb) && |a| == 2048 * nb
    ensures FillBlock(nb) + |AllOnes(ss)| <= |a| && |ss| * NFILL + (nb - |ss|) * NFILL <= |a|
    ensures |Fs(AllFills(ss))| == |ss| * NFILL && |Fs(Zeros((nb - |ss|) * NFILL))| == (nb - |ss|) * NFILL
    ensures Inputs(bd, a, ss, ms, nb)
         == Put(Put(Put(a, 0, Fs(AllFills(ss))), |ss| * NFILL, Fs(Zeros((nb - |ss|) * NFILL))), FillBlock(nb),
                Us(AllOnes(ss), 0))
  {
    var fs, zs := AllFills(ss), Zeros((nb - |ss|) * NFILL);
    PartsApart(ss, nb);
    FsCat(fs, zs);
    PutCat(a, 0, Fs(fs), Fs(zs));
    hide AllFills, AllOnes, AllMoves, Put, FillBlock, Zeros;
  }

  /** memcpy */
  method CopyReals(out: array<Word>, pos: nat, src: array<real>, n: nat, ghost w: seq<real>)
    requires n <= src.Length && w == src[..n] && pos + n <= out.Length
    modifies out
    ensures out[..] == Put(old(out[..]), pos, Fs(w))
  {
    ghost var before, ws := out[..], Fs(w);
    PutNone(before, pos);
    assert ws[..0] == [];
    hide Put;
    for u := 0 to n
      invariant out[..] == Put(before, pos, ws[..u])
    {
      PutSnoc(before, pos, ws[..u], ws[u]);
      TakeNext(ws, u);
      out[pos + u] := F(src[u]);
    }
    assert ws[..n] == ws;
  }

  method ZeroRest(out: array<Word>, pos: nat, n: nat)
    requires pos + n <= out.Length
    modifies out
    ensures out[..] == Put(old(out[..]), pos, Fs(Zeros(n)))
  {
    ghost var before, ws := out[..], Fs(Zeros(n));
    PutNone(before, pos);
    assert ws[..0] == [];
    hide Put;
    for u := 0 to n
      invariant out[..] == Put(before, pos, ws[..u])
    {
      PutSnoc(before, pos, ws[..u], ws[u]);
      TakeNext(ws, u);
      out[pos + u] := F(0.0);
    }
    assert ws[..n] == ws;
  }

  /** memcpy */
  method CopyNats(out: array<Word>, pos: nat, src: array<nat>, n: nat, ghost w: seq<nat>)
    requires n <= src.Length && w == src[..n] && pos + n <= out.Length
    modifies out
    ensures out[..] == Put(old(out[..]), pos, Us(w, 0))
  {
    ghost var before, ws := out[..], Us(w, 0);
    PutNone(before, pos);
    assert ws[..0] == [];
    hide Put;
    for u := 0 to n
      invariant out[..] == Put(before, pos, ws[..u])
    {
      PutSnoc(before, pos, ws[..u], ws[u]);
      TakeNext(ws, u);
      out[pos + u] := U(src[u]);
    }
    assert ws[..n] == ws;
  }

  lemma AddedSample(bd: Build, fills: seq<real>, ones: seq<nat>, moves: seq<nat>, ub: nat, nOne: nat, nTot: nat,
                    ss: seq<Sample>, ls: seq<seq<nat>>, s: Sample, ms: seq<nat>)
    requires Gathered(bd, fills, ones, moves, ub, nOne, nTot, ss, ls)
    requires (ub + 1) * NFILL <= |fills| && nOne + |Ones(s, SIZE)| <= |ones| && nTot + |ms| <= |moves|
    ensures |Shift(Ones(s, SIZE), ub * SIZE)| == |Ones(s, SIZE)| && |Shift(ms, ub * bd.SizeOut())| == |ms|
    ensures Gathered(bd, Put(fills, ub * NFILL, Fills(s)), Put(ones, nOne, Shift(Ones(s, SIZE), ub * SIZE)),
                     Put(moves, nTot, Shift(ms, ub * bd.SizeOut())), ub + 1, nOne + |Ones(s, SIZE)|, nTot + |ms|,
                     ss + [s], ls + [ms])
  {
    assert (ss + [s])[..ub] == ss && (ls + [ms])[..ub] == ls;
    assert OnesOf(ss + [s]) == OnesOf(ss) + [Ones(s, SIZE)];
    assert OnesOf(ss + [s])[..ub] == OnesOf(ss);
    hide Ones, Fills, Put;
  }

  // ----- the assertion about the ones -----

  lemma OnesSnoc(ss: seq<Sample>, s: Sample)
    ensures |AllOnes(ss + [s])| == |AllOnes(ss)| + |Ones(s, SIZE)|
  {
    assert OnesOf(ss + [s]) == OnesOf(ss) + [Ones(s, SIZE)];
    assert (OnesOf(ss) + [Ones(s, SIZE)])[..|ss|] == OnesOf(ss);
    hide Ones, OnesOf;
  }

  lemma OnesGather(ss: seq<Sample>, k: nat)
    requires k < |ss|
    ensures |AllOnes(ss[..k])| + |Ones(ss[k], SIZE)| <= |AllOnes(ss)|
  {
    assert OnesOf(ss[..k + 1]) == OnesOf(ss)[..k + 1] && ss[..k + 1] == ss[..k] + [ss[k]];
    OnesSnoc(ss[..k], ss[k]);
    JoinedPrefix(OnesOf(ss), SIZE, k + 1);
    hide Ones, Joined;
  }

  lemma AssertsNext(bd: Build, ss: seq<Sample>, s: Sample)
    ensures AssertsHold(bd, ss + [s]) <==> AssertsHold(bd, ss) && |AllOnes(ss)| + |Ones(s, SIZE)| <= bd.MaxnOne()
  {
    var r := ss + [s];
    assert r[..|ss|] == ss && r[|ss|] == s;
    assert forall k | 0 <= k < |ss| :: r[..k] == ss[..k] && r[k] == ss[k];
    hide AllOnes, Ones;
  }

  /** The assertion holds at every add exactly if the ones of the whole batch stay below the bound of one sample. */
  lemma AssertsHoldExact(bd: Build, ss: seq<Sample>)
    ensures AssertsHold(bd, ss) <==> |AllOnes(ss)| <= bd.MaxnOne()
  {
    forall k | 0 <= k < |ss| ensures |AllOnes(ss[..k])| + |Ones(ss[k], SIZE)| <= |AllOnes(ss)| { OnesGather(ss, k); }
    if ss != [] {
      var n := |ss| - 1;
      assert ss == ss[..n] + [ss[n]];
      OnesSnoc(ss[..n], ss[n]);
    }
    hide AllOnes, Ones;
  }

  /** Compressing the samples one at a time and packing what is gathered leaves the same words and sizes as
      PackBatch does with the raw batch. */
  method PackOneByOne(bd: Build, nb0: nat, nb: nat, in_: array<real>, sizes: array<nat>, nnmoves: array<nat>,
                      comp: array<Word>, out: array<Word>) returns (r: Sizes)
    requires nb0 <= nb && out.Length == 2048 * nb && nb0 * SIZE <= in_.Length && nb0 <= sizes.Length
    requires nb0 * MAXSIZE_MOVES <= nnmoves.Length && forall b | 0 <= b < nb0 :: sizes[..][b] < MAXSIZE_MOVES
    requires Fits(bd, SamplesOf(in_[..], nb0), MovesOf(nnmoves[..], sizes[..], nb0), nb)
    requires Roomy(SamplesOf(in_[..], nb0), nb * bd.MaxnOne(), comp.Length) && comp != out
    modifies comp, out
    ensures out[..] == Layout(bd, old(out[..]), SamplesOf(in_[..], nb0), MovesOf(nnmoves[..], sizes[..], nb0), nb)
    ensures r == SizesOf(bd, SamplesOf(in_[..], nb0), MovesOf(nnmoves[..], sizes[..], nb0), nb)
  {
    ghost var ss, ms := SamplesOf(in_[..], nb0), MovesOf(nnmoves[..], sizes[..], nb0);
    hide *;
    var batch := Gather(bd, nb0, nb, in_, sizes, nnmoves, comp, ss, ms);
    r := batch.ComputePackBatch(out);
  }

  /** Room for all ones of the batch, and for each compressed sample. */
  ghost predicate Roomy(ss: seq<Sample>, ones: nat, comp: nat) {
    |AllOnes(ss)| <= ones && forall b | 0 <= b < |ss| :: NFILL + |Ones(ss[b], SIZE)| <= comp
  }

  method Gather(bd: Build, nb0: nat, nb: nat, in_: array<real>, sizes: array<nat>, nnmoves: array<nat>,
                comp: array<Word>, ghost ss: seq<Sample>, ghost ms: seq<seq<nat>>) returns (batch: InBatchCompressed)
    requires nb0 <= nb && nb0 * SIZE <= in_.Length && nb0 <= sizes.Length
    requires nb0 * MAXSIZE_MOVES <= nnmoves.Length && forall b | 0 <= b < nb0 :: sizes[..][b] < MAXSIZE_MOVES
    requires ss == SamplesOf(in_[..], nb0) && ms == MovesOf(nnmoves[..], sizes[..], nb0)
    requires Roomy(ss, nb * bd.MaxnOne(), comp.Length)
    modifies comp
    ensures batch.Valid() && batch.samples == ss && batch.lists == ms && batch.build == bd && batch.nb == nb
    ensures fresh(batch) && fresh(batch.fills) && fresh(batch.ones) && fresh(batch.moves)
  {
    batch := new InBatchCompressed(bd, nb);
    hide SamplesOf, MovesOf, Roomy, Gathered, AssertsHold;
    for ub := 0 to nb0
      invariant fresh(batch) && fresh(batch.fills) && fresh(batch.ones) && fresh(batch.moves)
      invariant batch.Valid() && batch.samples == ss[..ub] && batch.lists == ms[..ub]
      invariant batch.build == bd && batch.nb == nb
    {
      GatherOne(batch, ub, nb0, in_, sizes, nnmoves, comp, ss, ms);
    }
    assert ss[..nb0] == ss && ms[..nb0] == ms;
  }

  method GatherOne(batch: InBatchCompressed, ub: nat, nb0: nat, in_: array<real>, sizes: array<nat>,
                   nnmoves: array<nat>,
                   comp: array<Word>, ghost ss: seq<Sample>, ghost ms: seq<seq<nat>>)
    requires nb0 * SIZE <= in_.Length && nb0 <= sizes.Length && ub < nb0 <= batch.nb
    requires nb0 * MAXSIZE_MOVES <= nnmoves.Length && forall b | 0 <= b < nb0 :: sizes[..][b] < MAXSIZE_MOVES
    requires ss == SamplesOf(in_[..], nb0) && ms == MovesOf(nnmoves[..], sizes[..], nb0)
    requires Roomy(ss, batch.nb * batch.build.MaxnOne(), comp.Length)
    requires nnmoves != batch.ones && nnmoves != batch.moves
    requires sizes != batch.ones && sizes != batch.moves && in_ != batch.fills
    requires batch.Valid() && batch.samples == ss[..ub] && batch.lists == ms[..ub]
    modifies batch, batch.fills, batch.ones, batch.moves, comp
    ensures batch.Valid() && batch.samples == ss[..ub + 1] && batch.lists == ms[..ub + 1]
  {
    OnesGather(ss, ub);
    TakeNext(ss, ub);
    TakeNext(ms, ub);
    var size := sizes[ub];
    assert sizes[..][ub] == size;
    assert batch.nOne == |AllOnes(ss[..ub])|;
    assert NFILL + |Ones(ss[ub], SIZE)| <= comp.Length && |AllOnes(ss)| <= batch.ones.Length;
    hide SamplesOf, MovesOf, Roomy, SampleAt, Ones, AllOnes, Holds, Gathered, AssertsHold;
    var n := CompressFeatures(comp, in_, ub * SIZE, ss[ub]);
    assert n == |Ones(ss[ub], SIZE)|;
    batch.Add(n, comp, size, nnmoves, ub * MAXSIZE_MOVES, ss[ub], ms[ub]);
  }
}
