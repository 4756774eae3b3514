/** The input planes of the network and their compressed form: one number for a plane that holds the same everywhere,
    and the indices of the ones for the others (NNAux::compress_features and decompress_features,
    src/common/nnet.cpp:254-298; nnet.hpp:16-39). */
module Features {
  const PLANE: nat := 81
  const NCH: nat := 362
  const NFILL: nat := 138
  const SIZE: nat := 29322

  /** What a 32-bit word of a buffer holds. */
  datatype Word = F(x: real) | U(n: nat)

  type Sample = s: seq<real> | |s| == SIZE witness seq(SIZE, _ => 0.0)

  /** The channel of fill value f. */
  function FillCh(f: nat): nat {
    if f < 136 then 45 * (f / 17) + 28 + f % 17 else 224 + f
  }

  /** A channel of single ones. */
  predicate OneCh(c: nat) {
    c < 360 && c % 45 < 28
  }

  /** The fill value of a channel that is no channel of ones. */
  function FillOf(c: nat): nat
    requires c < NCH && !OneCh(c)
  {
    if c < 360 then 17 * (c / 45) + c % 45 - 28 else c - 224
  }

  /** Channels of ones and fill values share the channels out among them. */
  lemma ChannelsShared(c: nat, f: nat)
    requires c < NCH && f < NFILL
    ensures FillCh(f) < NCH && !OneCh(FillCh(f)) && FillOf(FillCh(f)) == f
    ensures !OneCh(c) ==> FillOf(c) < NFILL && FillCh(FillOf(c)) == c
  {
    FillAt(f / 17, f % 17);
    if !OneCh(c) && c < 360 { FillAt(c / 45, c % 45 - 28); }
  }

  lemma FillAt(p: nat, g: nat)
    requires g < 17
    ensures (17 * p + g) / 17 == p && (17 * p + g) % 17 == g
    ensures (45 * p + 28 + g) / 45 == p && (45 * p + 28 + g) % 45 == 28 + g
  {}

  // ----- the compressed form -----

  function Fills(s: Sample): (fs: seq<real>)
    ensures |fs| == NFILL
  {
    seq(NFILL, f requires 0 <= f < NFILL => ChannelsShared(0, f); s[FillCh(f) * PLANE])
  }

  /** Index i is that of a one. */
  predicate IsOne(s: Sample, i: nat)
    requires i < SIZE
  {
    OneCh(i / PLANE) && s[i] >= 0.5
  }

  /** The indices of the ones below k. */
  function Ones(s: Sample, k: nat): (os: seq<nat>)
    requires k <= SIZE
    ensures forall j | 0 <= j < |os| :: os[j] < k
    ensures |os| <= k
  {
    if k == 0 then [] else Ones(s, k - 1) + if IsOne(s, k - 1) then [k - 1] else []
  }

  lemma {:induction false} OnesAre(s: Sample, k: nat, i: nat)
    requires k <= SIZE
    ensures i in Ones(s, k) <==> i < k && IsOne(s, i)
  {
    if k > 0 { OnesAre(s, k - 1, i); }
  }

  /** Channels that are no channels of ones add nothing. */
  lemma {:induction false} OnesSkip(s: Sample, a: nat, b: nat)
    requires a <= b <= SIZE && forall i | a <= i < b :: !OneCh(i / PLANE)
    ensures Ones(s, b) == Ones(s, a)
    decreases b - a
  {
    if a < b { OnesSkip(s, a, b - 1); }
  }

  /** What a decoder makes of fill values and ones. */
  function Decoded(fills: seq<real>, ones: seq<nat>): (s: Sample)
    requires |fills| == NFILL
  {
    seq(SIZE, i requires 0 <= i < SIZE => DecodedAt(fills, ones, i))
  }

  function DecodedAt(fills: seq<real>, ones: seq<nat>, i: nat): real
    requires |fills| == NFILL && i < SIZE
  {
    if i in ones then 1.0 else if OneCh(i / PLANE) then 0.0 else
      ChannelsShared(i / PLANE, 0);
      fills[FillOf(i / PLANE)]
  }

  /** Planes of zeros and ones, and planes that hold the same everywhere. */
  predicate WellFormed(s: Sample) {
    forall i | 0 <= i < SIZE :: WellFormedAt(s, i)
  }

  predicate WellFormedAt(s: Sample, i: nat)
    requires i < SIZE
  {
    if OneCh(i / PLANE) then s[i] == 0.0 || s[i] == 1.0 else s[i] == s[i / PLANE * PLANE]
  }

  /** Compressing and decoding gives back the sample exactly when it is well formed. */
  lemma RoundTrip(s: Sample)
    ensures Decoded(Fills(s), Ones(s, SIZE)) == s <==> WellFormed(s)
  {
    hide Decoded, Fills, Ones, WellFormedAt;
    forall i | 0 <= i < SIZE
      ensures Decoded(Fills(s), Ones(s, SIZE))[i] == s[i] <==> WellFormedAt(s, i)
    {
      RoundTripAt(s, i);
    }
  }

  lemma RoundTripAt(s: Sample, i: nat)
    requires i < SIZE
    ensures Decoded(Fills(s), Ones(s, SIZE))[i] == s[i] <==> WellFormedAt(s, i)
  {
    OnesAre(s, SIZE, i);
    ChannelsShared(i / PLANE, 0);
    hide Ones;
  }

  // ----- writing through a moving pointer -----

  function Fs(rs: seq<real>): seq<Word> {
    seq(|rs|, k requires 0 <= k < |rs| => F(rs[k]))
  }

  function Us(ns: seq<nat>, shift: nat): seq<Word> {
    seq(|ns|, k requires 0 <= k < |ns| => U(ns[k] + shift))
  }

  /** a with w written over it from pos on. */
  function Put<T>(a: seq<T>, pos: nat, w: seq<T>): (r: seq<T>)
    requires pos + |w| <= |a|
    ensures |r| == |a|
  {
    a[..pos] + w + a[pos + |w|..]
  }

  lemma PutNone<T>(a: seq<T>, pos: nat)
    requires pos <= |a|
    ensures Put(a, pos, []) == a
  {}

  /** *p++ = x */
  lemma PutSnoc<T>(a: seq<T>, pos: nat, w: seq<T>, x: T)
    requires pos + |w| < |a|
    ensures Put(a, pos, w)[pos + |w| := x] == Put(a, pos, w + [x])
  {}

  lemma PutCat<T>(a: seq<T>, pos: nat, u: seq<T>, v: seq<T>)
    requires pos + |u| + |v| <= |a|
    ensures Put(Put(a, pos, u), pos + |u|, v) == Put(a, pos, u + v)
  {
    var l, r := Put(Put(a, pos, u), pos + |u|, v), Put(a, pos, u + v);
    forall k | 0 <= k < |a| ensures l[k] == r[k] {}
  }

  lemma UsSnoc(ns: seq<nat>, n: nat, shift: nat)
    ensures Us(ns + [n], shift) == Us(ns, shift) + [U(n + shift)]
  {}

  lemma UsCat(a: seq<nat>, b: seq<nat>, shift: nat)
    ensures Us(a + b, shift) == Us(a, shift) + Us(b, shift)
  {}

  lemma FsCat(a: seq<real>, b: seq<real>)
    ensures Fs(a + b) == Fs(a) + Fs(b)
  {}

  // ----- compress_features -----

  /** The sample that starts at in[start]. */
  function SampleAt(in_: seq<real>, start: nat): Sample
    requires start + SIZE <= |in_|
  {
    in_[start..start + SIZE]
  }

  /** The first f fill values, as words; zeros for a sample that is not there. */
  function FillWords(s: Sample, live: bool, f: nat): seq<Word>
    requires f <= NFILL
  {
    if live then Fs(Fills(s)[..f]) else Fs(seq(f, _ => 0.0))
  }

  lemma FillWordsNext(s: Sample, live: bool, f: nat)
    requires f < NFILL
    ensures FillCh(f) < NCH && |FillWords(s, live, f)| == f
    ensures FillWords(s, live, f + 1) == FillWords(s, live, f) + [F(if live then s[FillCh(f) * PLANE] else 0.0)]
  {
    ChannelsShared(0, f);
  }

  /** The fill values of the sample at in_[start], or zeros, to out[pos] and on. */
  method PutFills(out: array<Word>, pos: nat, in_: array<real>, start: nat, live: bool, ghost s: Sample)
    requires pos + NFILL <= out.Length && (live ==> start + SIZE <= in_.Length && s == SampleAt(in_[..], start))
    modifies out
    ensures |FillWords(s, live, NFILL)| == NFILL && out[..] == Put(old(out[..]), pos, FillWords(s, live, NFILL))
  {
    ghost var before := out[..];
    PutNone(before, pos);
    var p := 0;
    for uposi := 0 to 8
      invariant p == 17 * uposi && |FillWords(s, live, p)| == p && out[..] == Put(before, pos, FillWords(s, live, p))
    {
      for ufplane := 28 to 45
        invariant p == 17 * uposi + ufplane - 28 && |FillWords(s, live, p)| == p
        invariant out[..] == Put(before, pos, FillWords(s, live, p))
      {
        var ch := 45 * uposi + ufplane;
        FillAt(uposi, ufplane - 28);
        p := PutFill(out, pos, p, in_, start, ch, live, s, before);
      }
    }
    p := PutFill(out, pos, p, in_, start, 360, live, s, before);
    p := PutFill(out, pos, p, in_, start, 361, live, s, before);
  }

  method PutFill(out: array<Word>, pos: nat, p: nat, in_: array<real>, start: nat, ch: nat, live: bool, ghost s: Sample,
                 ghost before: seq<Word>) returns (q: nat)
    requires p < NFILL && pos + NFILL <= |before| == out.Length && ch == FillCh(p)
    requires live ==> start + SIZE <= in_.Length && s == SampleAt(in_[..], start)
    requires |FillWords(s, live, p)| == p && out[..] == Put(before, pos, FillWords(s, live, p))
    modifies out
    ensures q == p + 1 && |FillWords(s, live, q)| == q && out[..] == Put(before, pos, FillWords(s, live, q))
  {
    FillWordsNext(s, live, p);
    PutSnoc(before, pos, FillWords(s, live, p), F(if live then s[FillCh(p) * PLANE] else 0.0));
    out[pos + p] := F(if live then in_[start + ch * PLANE] else 0.0);
    hide FillWords, Put;
    q := p + 1;
  }

  lemma {:induction false} OnesGrow(s: Sample, a: nat, b: nat)
    requires a <= b <= SIZE
    ensures |Ones(s, a)| <= |Ones(s, b)|
    decreases b - a
  {
    if a < b { OnesGrow(s, a, b - 1); }
  }

  /** The state of the loops over the ones: those below k are written to out from pos on. */
  ghost predicate OnesPut(out: seq<Word>, before: seq<Word>, pos: nat, n: nat, s: Sample, k: nat, shift: nat) {
    && k <= SIZE && n == |Ones(s, k)| && pos + |Ones(s, SIZE)| <= |before| && pos + n <= |before|
    && out == Put(before, pos, Us(Ones(s, k), shift))
  }

  lemma OnesPutNext(out: seq<Word>, before: seq<Word>, pos: nat, n: nat, s: Sample, k: nat, shift: nat)
    requires OnesPut(out, before, pos, n, s, k, shift) && k < SIZE
    ensures !IsOne(s, k) ==> OnesPut(out, before, pos, n, s, k + 1, shift)
    ensures IsOne(s, k)
          ==> pos + n < |out| && OnesPut(out[pos + n := U(k + shift)], before, pos, n + 1, s, k + 1, shift)
  {
    OnesGrow(s, k + 1, SIZE);
    if IsOne(s, k) {
      PutSnoc(before, pos, Us(Ones(s, k), shift), U(k + shift));
      UsSnoc(Ones(s, k), k, shift);
    }
    hide Put, IsOne;
  }

  /** The indices of the ones of the sample at in_[start], shifted, to out[pos] and on. */
  method PutOnes(out: array<Word>, pos: nat, in_: array<real>, start: nat, shift: nat, ghost s: Sample) returns (n: nat)
    requires start + SIZE <= in_.Length && s == SampleAt(in_[..], start) && pos + |Ones(s, SIZE)| <= out.Length
    modifies out
    ensures n == |Ones(s, SIZE)| && out[..] == Put(old(out[..]), pos, Us(Ones(s, SIZE), shift))
  {
    ghost var before := out[..];
    OnesStart(before, pos, s, shift);
    n := 0;
    for uposi := 0 to 8
      invariant OnesPut(out[..], before, pos, n, s, Begin(uposi), shift) && |before| == out.Length
    {
      hide OnesPut, Ones, Put, Us;
      n := PutPosition(out, pos, n, in_, start, uposi, shift, s, before);
    }
  }

  method PutPosition(out: array<Word>, pos: nat, n0: nat, in_: array<real>, start: nat, uposi: nat, shift: nat,
                     ghost s: Sample, ghost before: seq<Word>) returns (n: nat)
    requires start + SIZE <= in_.Length && s == SampleAt(in_[..], start) && uposi < 8
    requires OnesPut(out[..], before, pos, n0, s, Begin(uposi), shift) && |before| == out.Length
    modifies out
    ensures OnesPut(out[..], before, pos, n, s, Begin(uposi + 1), shift)
  {
    hide OnesPut, Ones;
    n := n0;
    for ufplane := 0 to 28
      invariant OnesPut(out[..], before, pos, n, s, (45 * uposi + ufplane) * PLANE, shift)
    {
      n := PutPlane(out, pos, n, in_, start, 45 * uposi + ufplane, shift, s, before);
    }
    OnesGap(out[..], before, pos, n, s, uposi, shift);
  }

  /** Where the planes of a position begin; the last one is followed by the end of the sample. */
  function Begin(uposi: nat): nat {
    if uposi == 8 then SIZE else 45 * uposi * PLANE
  }

  /** Between the channels of ones of two positions lie the fill channels of the first. */
  lemma OnesGap(out: seq<Word>, before: seq<Word>, pos: nat, n: nat, s: Sample, uposi: nat, shift: nat)
    requires uposi < 8 && OnesPut(out, before, pos, n, s, (45 * uposi + 28) * PLANE, shift)
    ensures OnesPut(out, before, pos, n, s, Begin(uposi + 1), shift)
  {
    hide Ones;
    OnesSkip(s, (45 * uposi + 28) * PLANE, Begin(uposi + 1));
  }

  lemma OnesStart(before: seq<Word>, pos: nat, s: Sample, shift: nat)
    requires pos + |Ones(s, SIZE)| <= |before|
    ensures OnesPut(before, before, pos, 0, s, 0, shift)
  {
    PutNone(before, pos);
    assert Us(Ones(s, 0), shift) == [];
  }

  method PutPlane(out: array<Word>, pos: nat, n0: nat, in_: array<real>, start: nat, ch: nat, shift: nat,
                  ghost s: Sample,
                  ghost before: seq<Word>) returns (n: nat)
    requires start + SIZE <= in_.Length && s == SampleAt(in_[..], start) && OneCh(ch)
    requires OnesPut(out[..], before, pos, n0, s, ch * PLANE, shift) && |before| == out.Length
    modifies out
    ensures OnesPut(out[..], before, pos, n, s, (ch + 1) * PLANE, shift)
  {
    n := n0;
    for u := 0 to PLANE
      invariant OnesPut(out[..], before, pos, n, s, ch * PLANE + u, shift)
    {
      var i := ch * PLANE + u;
      OnesPutNext(out[..], before, pos, n, s, i, shift);
      assert i / PLANE == ch && s[i] == in_[start + i];
      hide OnesPut, Ones;
      if in_[start + i] >= 0.5 {
        ghost var was := out[..];
        out[pos + n] := U(i + shift);
        assert out[..] == was[pos + n := U(i + shift)];
        n := n + 1;
      }
    }
  }

  /** The compressed form of s in the words a. */
  predicate Holds(a: seq<Word>, n: nat, s: Sample) {
    n == |Ones(s, SIZE)| && NFILL + n <= |a| && a[..NFILL] == Fs(Fills(s))
        && a[NFILL..NFILL + n] == Us(Ones(s, SIZE), 0)
  }

  lemma HoldsPut(a: seq<Word>, s: Sample)
    requires NFILL + |Ones(s, SIZE)| <= |a|
    ensures |FillWords(s, true, NFILL)| == NFILL
    ensures Holds(Put(Put(a, 0, FillWords(s, true, NFILL)), NFILL, Us(Ones(s, SIZE), 0)), |Ones(s, SIZE)|, s)
  {
    assert Fills(s)[..NFILL] == Fills(s);
    hide Ones, Fills, FillCh;
  }

  /** compress_features: the sample at in_[start] into out. */
  method CompressFeatures(out: array<Word>, in_: array<real>, start: nat, ghost s: Sample) returns (n: nat)
    requires start + SIZE <= in_.Length && s == SampleAt(in_[..], start) && NFILL + |Ones(s, SIZE)| <= out.Length
    modifies out
    ensures Holds(out[..], n, s)
  {
    HoldsPut(out[..], s);
    hide Ones, FillWords, Put, Us, Fills, SampleAt, Holds;
    PutFills(out, 0, in_, start, true, s);
    n := PutOnes(out, NFILL, in_, start, 0, s);
  }

  // ----- decompress_features -----

  /** fill_n */
  method FillRange(out: array<real>, lo: nat, hi: nat, v: real)
    requires lo <= hi <= out.Length
    modifies out
    ensures RangeFilled(old(out[..]), out[..], lo, hi, v)
  {
    for i := lo to hi
      invariant forall k | 0 <= k < out.Length :: out[k] == if lo <= k < i then v else old(out[k])
    {
      out[i] := v;
    }
  }

  ghost predicate RangeFilled(a: seq<real>, b: seq<real>, lo: nat, hi: nat, v: real) {
    |a| == |b| && forall k | 0 <= k < |a| :: b[k] == if lo <= k < hi then v else a[k]
  }

  /** The planes of the first f fill values are written. */
  ghost predicate FillsShown(o: seq<real>, fills: seq<real>, f: nat)
    requires |fills| == NFILL
  {
    |o| >= SIZE && forall i | 0 <= i < SIZE && !OneCh(i / PLANE) && FillOf(i / PLANE) < f :: ShowsFill(o, fills, i)
  }

  predicate ShowsFill(o: seq<real>, fills: seq<real>, i: nat)
    requires |fills| == NFILL && i < SIZE <= |o| && !OneCh(i / PLANE)
  {
    ChannelsShared(i / PLANE, 0);
    o[i] == fills[FillOf(i / PLANE)]
  }

  lemma ShowPlane(o: seq<real>, p: seq<real>, fills: seq<real>, f: nat)
    requires |fills| == NFILL && f < NFILL && FillsShown(o, fills, f)
    requires RangeFilled(o, p, FillCh(f) * PLANE, FillCh(f) * PLANE + PLANE, fills[f])
    ensures FillsShown(p, fills, f + 1)
  {
    hide OneCh, FillCh, FillOf, ShowsFill;
    forall i | 0 <= i < SIZE && !OneCh(i / PLANE) && FillOf(i / PLANE) < f + 1 ensures ShowsFill(p, fills, i) {
      ShowCell(o, p, fills, f, i);
    }
  }

  lemma ShowCell(o: seq<real>, p: seq<real>, fills: seq<real>, f: nat, i: nat)
    requires |fills| == NFILL && f < NFILL && i < SIZE <= |o| && !OneCh(i / PLANE) && FillOf(i / PLANE) <= f
    requires RangeFilled(o, p, FillCh(f) * PLANE, FillCh(f) * PLANE + PLANE, fills[f])
    requires FillOf(i / PLANE) < f ==> ShowsFill(o, fills, i)
    ensures ShowsFill(p, fills, i)
  {
    ChannelsShared(i / PLANE, f);
    hide OneCh, FillCh, FillOf;
  }

  /** The channels of ones of the first p positions hold zeros. */
  ghost predicate ZerosShown(o: seq<real>, p: nat) {
    |o| >= SIZE && forall i | 0 <= i < SIZE && OneCh(i / PLANE) && i / PLANE < 45 * p :: o[i] == 0.0
  }

  lemma ShowZeros(o: seq<real>, q: seq<real>, fills: seq<real>, p: nat)
    requires |fills| == NFILL && FillsShown(o, fills, NFILL) && ZerosShown(o, p) && p < 8
    requires RangeFilled(o, q, 45 * p * PLANE, 45 * p * PLANE + 28 * PLANE, 0.0)
    ensures FillsShown(q, fills, NFILL) && ZerosShown(q, p + 1)
  {
    forall i | 0 <= i < SIZE && !OneCh(i / PLANE) && FillOf(i / PLANE) < NFILL ensures ShowsFill(q, fills, i) {
      assert ShowsFill(o, fills, i);
    }
    forall i | 0 <= i < SIZE && OneCh(i / PLANE) && i / PLANE < 45 * (p + 1) ensures q[i] == 0.0 {}
  }

  /** Everything is written but for the ones not in ones. */
  ghost predicate OnesShown(o: seq<real>, fills: seq<real>, ones: seq<nat>)
    requires |fills| == NFILL
  {
    |o| >= SIZE && forall i | 0 <= i < SIZE :: o[i] == DecodedAt(fills, ones, i)
  }

  lemma ShowNoOnes(o: seq<real>, fills: seq<real>)
    requires |fills| == NFILL && FillsShown(o, fills, NFILL) && ZerosShown(o, 8)
    ensures OnesShown(o, fills, [])
  {
    forall i | 0 <= i < SIZE ensures o[i] == DecodedAt(fills, [], i) {
      ChannelsShared(i / PLANE, 0);
      assert !OneCh(i / PLANE) ==> ShowsFill(o, fills, i);
    }
  }

  lemma ShowOne(o: seq<real>, fills: seq<real>, ones: seq<nat>, n: nat)
    requires |fills| == NFILL && OnesShown(o, fills, ones) && n < SIZE
    ensures OnesShown(o[n := 1.0], fills, ones + [n])
  {
    forall i | 0 <= i < SIZE ensures o[n := 1.0][i] == DecodedAt(fills, ones + [n], i) {
      assert i in ones + [n] <==> i in ones || i == n;
      assert o[i] == DecodedAt(fills, ones, i);
    }
  }

  /** The words a carry fill values and ones. */
  ghost predicate Carries(a: seq<Word>, fills: seq<real>, ones: seq<nat>) {
    && |fills| == NFILL && NFILL + |ones| <= |a| && (forall f | 0 <= f < NFILL :: a[f] == F(fills[f]))
    && forall j | 0 <= j < |ones| :: a[NFILL + j] == U(ones[j]) && ones[j] < SIZE
  }

  lemma HoldsCarries(a: seq<Word>, n: nat, s: Sample)
    requires Holds(a, n, s)
    ensures n == |Ones(s, SIZE)| && Carries(a, Fills(s), Ones(s, SIZE))
  {
    forall f | 0 <= f < NFILL ensures a[f] == F(Fills(s)[f]) { assert a[f] == a[..NFILL][f]; }
    forall j | 0 <= j < n ensures a[NFILL + j] == U(Ones(s, SIZE)[j]) { assert a[NFILL + j] == a[NFILL..NFILL + n][j]; }
  }

  /** decompress_features */
  method DecompressFeatures(out: array<real>, n: nat, in_: array<Word>, ghost fills: seq<real>, ghost ones: seq<nat>)
    requires SIZE <= out.Length && Carries(in_[..], fills, ones) && n == |ones|
    modifies out
    ensures OnesShown(out[..], fills, ones) && out[..SIZE] == Decoded(fills, ones)
  {
    var p := 0;
    hide OneCh, FillOf, ShowsFill, Decoded, DecodedAt;
    for uposi := 0 to 8
      invariant p == 17 * uposi && FillsShown(out[..], fills, p)
    {
      for ufplane := 28 to 45
        invariant p == 17 * uposi + ufplane - 28 && FillsShown(out[..], fills, p)
      {
        FillAt(uposi, ufplane - 28);
        p := UnfillPlane(out, p, 45 * uposi + ufplane, in_, fills, ones);
      }
    }
    p := UnfillPlane(out, p, 360, in_, fills, ones);
    p := UnfillPlane(out, p, 361, in_, fills, ones);
    ZeroOnes(out, fills);
    SetOnes(out, n, in_, fills, ones);
    ShownIsDecoded(out[..], fills, ones);
  }

  lemma ShownIsDecoded(o: seq<real>, fills: seq<real>, ones: seq<nat>)
    requires |fills| == NFILL && OnesShown(o, fills, ones)
    ensures o[..SIZE] == Decoded(fills, ones)
  {
    hide DecodedAt;
  }

  method UnfillPlane(out: array<real>, p: nat, ch: nat, in_: array<Word>, ghost fills: seq<real>, ghost ones: seq<nat>)
    returns (q: nat)
    requires p < NFILL && ch == FillCh(p) && Carries(in_[..], fills, ones) && FillsShown(out[..], fills, p)
    modifies out
    ensures q == p + 1 && FillsShown(out[..], fills, q)
  {
    ghost var before := out[..];
    ChannelsShared(0, p);
    assert in_[..][p] == F(fills[p]);
    hide FillCh;
    FillRange(out, ch * PLANE, ch * PLANE + PLANE, in_[p].x);
    ShowPlane(before, out[..], fills, p);
    q := p + 1;
  }

  method ZeroOnes(out: array<real>, ghost fills: seq<real>)
    requires |fills| == NFILL && FillsShown(out[..], fills, NFILL)
    modifies out
    ensures OnesShown(out[..], fills, [])
  {
    for uposi := 0 to 8
      invariant FillsShown(out[..], fills, NFILL) && ZerosShown(out[..], uposi)
    {
      ghost var before := out[..];
      FillRange(out, 45 * uposi * PLANE, 45 * uposi * PLANE + 28 * PLANE, 0.0);
      ShowZeros(before, out[..], fills, uposi);
    }
    ShowNoOnes(out[..], fills);
  }

  method SetOnes(out: array<real>, n: nat, in_: array<Word>, ghost fills: seq<real>, ghost ones: seq<nat>)
    requires Carries(in_[..], fills, ones) && n == |ones| && OnesShown(out[..], fills, [])
    modifies out
    ensures OnesShown(out[..], fills, ones)
  {
    hide DecodedAt;
    assert ones[..0] == [];
    for u := 0 to n
      invariant OnesShown(out[..], fills, ones[..u])
    {
      assert in_[..][NFILL + u] == U(ones[u]);
      ShowOne(out[..], fills, ones[..u], ones[u]);
      ghost var before := out[..];
      out[in_[NFILL + u].n] := 1.0;
      assert out[..] == before[ones[u] := 1.0];
      assert ones[..u + 1] == ones[..u] + [ones[u]];
    }
    assert ones[..n] == ones;
  }

  /** A sample that a client sends compressed and the service decodes arrives as it was exactly if it is well formed. */
  method SendAndDecode(in_: array<real>, shared: array<Word>, out: array<real>)
    requires in_.Length == SIZE == out.Length && in_ != out && NFILL + |Ones(in_[..], SIZE)| <= shared.Length
    modifies shared, out
    ensures out[..] == in_[..] <==> WellFormed(in_[..])
  {
    ghost var s: Sample := in_[..];
    assert s == SampleAt(in_[..], 0);
    RoundTrip(s);
    hide Ones, Fills, Holds, Carries, WellFormed, SampleAt, Decoded, OnesShown;
    var n := CompressFeatures(shared, in_, 0, s);
    HoldsCarries(shared[..], n, s);
    DecompressFeatures(out, n, shared, Fills(s), Ones(s, SIZE));
    assert out[..SIZE] == out[..];
  }
}
