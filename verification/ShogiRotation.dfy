/** The rotated occupancy maps and the 7-bit sliding-attack lookup
    (src/gencode/gencode.cpp:120-168, 387-475; src/common/shogibase.hpp:115-117;
    src/common/shogibase.cpp:401-405). */
module ShogiRotation {
  import opened ShogiGeometry

  // ----- the three 27-bit words of a board map, as unsigned integers -----

  datatype Words = Words(u0: nat, u1: nat, u2: nat)

  function Word(w: Words, i: nat): nat { if i == 0 then w.u0 else if i == 1 then w.u1 else w.u2 }

  /** bits >> k, one place at a time. */
  function Shr(bits: nat, k: nat): nat { if k == 0 then bits else Shr(bits / 2, k - 1) }

  /** The j low bits (a mask such as & 0x7f, j = 7). */
  function Low(bits: nat, j: nat): nat { if j == 0 then 0 else bits % 2 + 2 * Low(bits / 2, j - 1) }

  /** Bit k of a word: bits & (1 << k) is not zero. */
  predicate TB(bits: nat, k: nat) { Shr(bits, k) % 2 == 1 }

  /** Square u is stored in word u / 27 at bit 26 - u % 27 (Data::set_bit). */
  predicate HasBit(w: Words, u: nat) { TB(Word(w, u / 27), 26 - u % 27) }

  ghost predicate Represents(w: Words, bm: BMap) { forall q: Sq :: HasBit(w, Idx(q)) <==> q in bm }

  // ----- rotation of a square for each ray (tables tbl_file, tbl_diag1, tbl_diag2) -----

  /** Where square s is stored in the occupancy map of the given ray: the squares of one line of that ray
      come to stand side by side in one row.  Two short diagonals share a row. */
  function Rot(ray: nat, s: Sq): Sq {
    if ray == FILE then Sq(8 - s.f, s.r)
    else if ray == DIAG1 then Sq(if s.r + s.f < 8 then s.r + s.f + 1 else s.r + s.f - 8, 8 - s.r)
    else if ray == DIAG2 then Sq(if s.f > s.r then 9 + s.r - s.f else s.r - s.f, s.f)
    else s
  }

  // The generator's tables, nine entries a row, with A9 = 0 .. I9 = 8, A8 = 9 .. I1 = 80.
  const TBL_FILE: seq<seq<nat>> := [
    [72, 63, 54, 45, 36, 27, 18,  9,  0],
    [73, 64, 55, 46, 37, 28, 19, 10,  1],
    [74, 65, 56, 47, 38, 29, 20, 11,  2],
    [75, 66, 57, 48, 39, 30, 21, 12,  3],
    [76, 67, 58, 49, 40, 31, 22, 13,  4],
    [77, 68, 59, 50, 41, 32, 23, 14,  5],
    [78, 69, 60, 51, 42, 33, 24, 15,  6],
    [79, 70, 61, 52, 43, 34, 25, 16,  7],
    [80, 71, 62, 53, 44, 35, 26, 17,  8]
  ]

  const TBL_DIAG1: seq<seq<nat>> := [
    [17, 26, 35, 44, 53, 62, 71, 80,  8],
    [25, 34, 43, 52, 61, 70, 79,  7, 16],
    [33, 42, 51, 60, 69, 78,  6, 15, 24],
    [41, 50, 59, 68, 77,  5, 14, 23, 32],
    [49, 58, 67, 76,  4, 13, 22, 31, 40],
    [57, 66, 75,  3, 12, 21, 30, 39, 48],
    [65, 74,  2, 11, 20, 29, 38, 47, 56],
    [73,  1, 10, 19, 28, 37, 46, 55, 64],
    [0,  9, 18, 27, 36, 45, 54, 63, 72]
  ]

  const TBL_DIAG2: seq<seq<nat>> := [
    [0, 73, 65, 57, 49, 41, 33, 25, 17],
    [9,  1, 74, 66, 58, 50, 42, 34, 26],
    [18, 10,  2, 75, 67, 59, 51, 43, 35],
    [27, 19, 11,  3, 76, 68, 60, 52, 44],
    [36, 28, 20, 12,  4, 77, 69, 61, 53],
    [45, 37, 29, 21, 13,  5, 78, 70, 62],
    [54, 46, 38, 30, 22, 14,  6, 79, 71],
    [63, 55, 47, 39, 31, 23, 15,  7, 80],
    [72, 64, 56, 48, 40, 32, 24, 16,  8]
  ]

  lemma TableFileIsRotation(s: Sq)
    ensures TBL_FILE[s.r][s.f] == Idx(Rot(FILE, s))
  {
    if s.r <= 2 { if s.r == 0 {} else if s.r == 1 {} else {} }
    else if s.r <= 5 { if s.r == 3 {} else if s.r == 4 {} else {} }
    else { if s.r == 6 {} else if s.r == 7 {} else {} }
  }

  lemma TableDiag1IsRotation(s: Sq)
    ensures TBL_DIAG1[s.r][s.f] == Idx(Rot(DIAG1, s))
  {
    if s.r <= 2 {} else if s.r <= 5 {} else { Diag1Bottom(s); }
  }
  lemma Diag1Bottom(s: Sq)
    requires 6 <= s.r
    ensures TBL_DIAG1[s.r][s.f] == Idx(Rot(DIAG1, s))
  {
    if s.r == 6 {} else if s.r == 7 {} else {}
  }

  lemma TableDiag2IsRotation(s: Sq)
    ensures TBL_DIAG2[s.r][s.f] == Idx(Rot(DIAG2, s))
  {
    if s.r <= 2 { if s.r == 0 {} else if s.r == 1 {} else {} }
    else if s.r <= 5 { if s.r == 3 {} else if s.r == 4 {} else {} }
    else { if s.r == 6 {} else if s.r == 7 {} else {} }
  }

  /** (row, shift) of the 7-bit window, as out_bmap computes it for square (r, f). */
  function Window(ray: nat, s: Sq): (nat, nat) {
    var r, f := s.r, s.f;
    var offL := if r < f then 9 else 0;
    var offR := if f + r < 8 then 0 else 9;
    if ray == RANK then (Idx(s) / 27, 9 * (2 - r % 3) + 1)
    else if ray == FILE then (2 - f / 3, 9 * (f % 3) + 1)
    else if ray == DIAG1 then ((r + f + 1 - offR) / 3, 9 * (2 - (r + f + 1 - offR) % 3) + 1)
    else ((offL + r - f) / 3, 9 * (2 - (offL + r - f) % 3) + 1)
  }

  /** BMap::to_bits */
  function ToBits(w: Words, s: Sq, ray: nat): nat {
    var win := Window(ray, s);
    Low(Shr(Word(w, win.0), win.1), 7)
  }

  /** The bit of the table index (doubled, as the generator counts it) that stands for square x. */
  function BitPos(ray: nat, x: Sq): nat { 8 - Rot(ray, x).f }

  // ----- the table -----

  /** Squares reached from s along the ray until the first square whose bit is set, that square included. */
  predicate Reaches(bits: nat, ray: nat, s: Sq, t: Sq) {
    Ray(s, t) == ray && forall x | x in Board81() && Between(s, t, x) :: !TB(bits, BitPos(ray, x))
  }

  function Board81(): (b: BMap)
    ensures forall s: Sq :: s in b
  {
    set r, f | 0 <= r < 9 && 0 <= f < 9 :: Sq(r, f)
  }

  function TableEntry(bits: nat, ray: nat, s: Sq): BMap { set t | t in Board81() && Reaches(bits, ray, s, t) }

  function Sign(i: int): int { if i < 0 then -1 else if i > 0 then 1 else 0 }
  function Dist(s: Sq, t: Sq): nat {
    var dr, df := if t.r < s.r then s.r - t.r else t.r - s.r, if t.f < s.f then s.f - t.f else t.f - s.f;
    if dr < df then df else dr
  }
  predicate InDir(s: Sq, dr: int, df: int, t: Sq) {
    Ray(s, t) != NORAY && Sign(t.r - s.r) == dr && Sign(t.f - s.f) == df
  }

  /** Which coordinate bounds the generator's loop in direction (dr, df) from s. */
  predicate LoopBound(ray: nat, s: Sq, dr: int, df: int, byRank: bool) {
    if ray == RANK then dr == 0 && (df == -1 || df == 1) && !byRank
    else if ray == FILE then df == 0 && (dr == -1 || dr == 1) && byRank
    else if ray == DIAG1 then
      if dr == 1 then df == -1 && byRank == (8 <= s.f + s.r) else dr == -1 && df == 1 && byRank == (s.f + s.r < 8)
    else
      if dr == -1 then df == -1 && byRank == (s.r < s.f) else dr == 1 && df == 1 && byRank == (s.f <= s.r)
  }

  /** The next square of the walk is reached, and is the only one at its distance. */
  lemma WalkStep(bits: nat, ray: nat, s: Sq, dr: int, df: int, i: nat, q: Sq)
    requires InDir(s, dr, df, q) && Dist(s, q) == i && Ray(s, q) == ray
    requires forall t: Sq :: InDir(s, dr, df, t) && Dist(s, t) < i ==> !TB(bits, BitPos(ray, t))
    ensures Reaches(bits, ray, s, q)
    ensures forall t: Sq :: InDir(s, dr, df, t) && Dist(s, t) == i ==> t == q
  {}

  /** What the walk knows after i - 1 squares that did not stop it. */
  ghost predicate WalkedTo(bits: nat, ray: nat, s: Sq, dr: int, df: int, i: nat, start: BMap, data: BMap) {
    && (forall t: Sq :: InDir(s, dr, df, t) && Dist(s, t) < i ==> !TB(bits, BitPos(ray, t)))
    && forall t: Sq :: t in data <==> t in start || Walked(bits, ray, s, dr, df, i, t)
  }

  lemma WalkOn(bits: nat, ray: nat, s: Sq, dr: int, df: int, i: nat, q: Sq, start: BMap, data: BMap)
    requires InDir(s, dr, df, q) && Dist(s, q) == i && Ray(s, q) == ray
        && WalkedTo(bits, ray, s, dr, df, i, start, data)
    ensures !TB(bits, BitPos(ray, q)) ==> WalkedTo(bits, ray, s, dr, df, i + 1, start, data + {q})
    ensures TB(bits, BitPos(ray, q)) ==> WalkedAll(bits, ray, s, dr, df, start, data + {q})
  {
    WalkStep(bits, ray, s, dr, df, i, q);
    if TB(bits, BitPos(ray, q)) {
      forall t: Sq | InDir(s, dr, df, t) && Dist(s, t) > i ensures !Reaches(bits, ray, s, t) {}
    }
    hide InDir, Dist, Reaches, TB, BitPos;
  }

  ghost predicate WalkedAll(bits: nat, ray: nat, s: Sq, dr: int, df: int, start: BMap, data: BMap) {
    forall t: Sq :: t in data <==> t in start || (InDir(s, dr, df, t) && Reaches(bits, ray, s, t))
  }

  /** A coordinate after i steps of d. */
  function Moved(z: int, d: int, i: nat): int {
    if d == 0 then z else if d == 1 then z + i else z - i
  }

  lemma WalkOver(bits: nat, ray: nat, s: Sq, dr: int, df: int, byRank: bool, i: nat, start: BMap, data: BMap)
    requires ray < 4 && LoopBound(ray, s, dr, df, byRank) && WalkedTo(bits, ray, s, dr, df, i, start, data)
    requires !(0 <= (if byRank then Moved(s.r, dr, i) else Moved(s.f, df, i)) <= 8)
    ensures WalkedAll(bits, ray, s, dr, df, start, data)
  {}

  /** Where the loop in direction (dr, df) stands after i steps. */
  predicate StandsAt(s: Sq, dr: int, df: int, i: nat, rank: int, file: int) {
    rank == Moved(s.r, dr, i) && file == Moved(s.f, df, i)
  }

  ghost predicate Walked(bits: nat, ray: nat, s: Sq, dr: int, df: int, i: nat, t: Sq) {
    InDir(s, dr, df, t) && Dist(s, t) < i && Reaches(bits, ray, s, t)
  }

  /** The bound on one coordinate keeps the walk on the board, and the walk is along the ray. */
  lemma OnTheWay(ray: nat, s: Sq, dr: int, df: int, byRank: bool, i: nat, rank: int, file: int)
    requires ray < 4 && LoopBound(ray, s, dr, df, byRank) && 1 <= i && StandsAt(s, dr, df, i, rank, file)
    requires 0 <= (if byRank then rank else file) <= 8
    ensures i <= 8 && 0 <= rank <= 8 && 0 <= file <= 8
    ensures var q := Sq(rank, file); InDir(s, dr, df, q) && Dist(s, q) == i && Ray(s, q) == ray
    ensures StandsAt(s, dr, df, i + 1, rank + dr, file + df)
  {}

  lemma WalkNone(bits: nat, ray: nat, s: Sq, dr: int, df: int, start: BMap)
    requires dr != 0 || df != 0
    ensures WalkedTo(bits, ray, s, dr, df, 1, start, start)
  {}

  /** One of the generator's loops: walk from s in direction (dr, df), set a bit for every square met and stop
      after the first one whose index bit is set.  The loop's bound looks at one coordinate only. */
  method Walk(bits: nat, ray: nat, s: Sq, dr: int, df: int, byRank: bool, start: BMap) returns (data: BMap)
    requires ray < 4 && LoopBound(ray, s, dr, df, byRank)
    ensures WalkedAll(bits, ray, s, dr, df, start, data)
  {
    data := start;
    var i, rank, file := 1, s.r + dr, s.f + df;
    WalkNone(bits, ray, s, dr, df, start);
    while if byRank then 0 <= rank <= 8 else 0 <= file <= 8
      invariant 1 <= i <= 9 && StandsAt(s, dr, df, i, rank, file)
      invariant WalkedTo(bits, ray, s, dr, df, i, start, data)
      decreases 9 - i
    {
      hide *;
      OnTheWay(ray, s, dr, df, byRank, i, rank, file);
      var q := Sq(rank, file);
      WalkOn(bits, ray, s, dr, df, i, q, start, data);
      data := data + {q};
      if TB(bits, BitPos(ray, q)) { return; }
      i, rank, file := i + 1, rank + dr, file + df;
    }
    hide WalkedTo, WalkedAll;
    WalkOver(bits, ray, s, dr, df, byRank, i, start, data);
  }

  /** The generator's entry for one square, ray and index (out_board). */
  method GenEntry(bits: nat, ray: nat, s: Sq) returns (data: BMap)
    requires ray < 4
    ensures data == TableEntry(bits, ray, s)
  {
    data := {};
    if ray == RANK {
      data := Walk(bits, ray, s, 0, -1, false, data);
      data := Walk(bits, ray, s, 0, 1, false, data);
    } else if ray == FILE {
      data := Walk(bits, ray, s, -1, 0, true, data);
      data := Walk(bits, ray, s, 1, 0, true, data);
    } else if ray == DIAG1 {
      var far := 8 <= s.f + s.r;
      data := Walk(bits, ray, s, 1, -1, far, data);
      data := Walk(bits, ray, s, -1, 1, !far, data);
    } else {
      var low := s.f <= s.r;
      data := Walk(bits, ray, s, -1, -1, !low, data);
      data := Walk(bits, ray, s, 1, 1, low, data);
    }
  }

  // ----- the lookup -----

  ghost predicate RotatedOcc(w: Words, occ: BMap, ray: nat)
  {
    forall q: Sq :: HasBit(w, Idx(Rot(ray, q))) <==> q in occ
  }

  /** The words of a set of squares: n bits, the first square highest. */
  function Pack(bm: BMap, lo: nat, n: nat): nat
    requires lo + n <= 81
  {
    if n == 0 then 0 else 2 * Pack(bm, lo, n - 1) + (if SqAt(lo + n - 1) in bm then 1 else 0)
  }
  function SqAt(u: nat): Sq
    requires u < 81
  {
    Sq(u / 9, u % 9)
  }
  function WordsOf(bm: BMap): Words { Words(Pack(bm, 0, 27), Pack(bm, 27, 27), Pack(bm, 54, 27)) }

  lemma {:induction false} PackBit(bm: BMap, lo: nat, n: nat, j: nat)
    requires lo + n <= 81 && j < n
    ensures TB(Pack(bm, lo, n), j) <==> SqAt(lo + n - 1 - j) in bm
  {
    assert Pack(bm, lo, n) / 2 == Pack(bm, lo, n - 1);
    if j > 0 { PackBit(bm, lo, n - 1, j - 1); }
  }

  lemma WordsRepresent(bm: BMap)
    ensures Represents(WordsOf(bm), bm)
  {
    forall q: Sq ensures HasBit(WordsOf(bm), Idx(q)) <==> q in bm {
      var u := Idx(q);
      PackBit(bm, 27 * (u / 27), 27, 26 - u % 27);
      assert SqAt(u) == q;
    }
  }

  lemma {:induction false} ShrShr(d: nat, s: nat, k: nat)
    ensures Shr(Shr(d, s), k) == Shr(d, s + k)
  {
    if s > 0 { ShrShr(d / 2, s - 1, k); }
  }

  /** Masking keeps the low bits. */
  lemma {:induction false} LowBits(d: nat, j: nat, k: nat)
    requires k < j
    ensures TB(Low(d, j), k) == TB(d, k)
  {
    assert Low(d, j) / 2 == Low(d / 2, j - 1);
    if k > 0 { LowBits(d / 2, j - 1, k - 1); }
  }

  lemma DoubleBit(x: nat, k: nat)
    ensures TB(2 * x, k + 1) == TB(x, k)
  {}

  /** Bit k + 1 of the doubled 7-bit window is bit s + k of the word. */
  lemma WindowBit(d: nat, s: nat, k: nat)
    requires k < 7
    ensures TB(2 * Low(Shr(d, s), 7), k + 1) == TB(d, s + k)
  {
    LowBits(Shr(d, s), 7, k);
    ShrShr(d, s, k);
    DoubleBit(Low(Shr(d, s), 7), k);
    assert TB(Shr(d, s), k) == TB(d, s + k);
    hide TB, Low, Shr;
  }

  /** The window of s covers every inner square x of its line: same word, and x's bit inside the seven. */
  lemma WindowCovers(ray: nat, s: Sq, t: Sq, x: Sq)
    requires ray < 4 && Ray(s, t) == ray && Between(s, t, x)
    ensures var win, u := Window(ray, s), Idx(Rot(ray, x));
            win.0 == u / 27 && 1 <= BitPos(ray, x) <= 7 && 26 - u % 27 == win.1 + BitPos(ray, x) - 1
  {
    var q := Rot(ray, x);
    assert Idx(q) / 27 == q.r / 3;
    assert Idx(q) % 27 == 9 * (q.r % 3) + q.f;
    assert Rot(ray, s).r == q.r;
  }

  lemma IndexBit(w: Words, occ: BMap, ray: nat, s: Sq, t: Sq, x: Sq)
    requires ray < 4 && RotatedOcc(w, occ, ray) && Ray(s, t) == ray && Between(s, t, x)
    ensures TB(2 * ToBits(w, s, ray), BitPos(ray, x)) <==> x in occ
  {
    WindowCovers(ray, s, t, x);
    var win := Window(ray, s);
    WindowBit(Word(w, win.0), win.1, BitPos(ray, x) - 1);
    assert HasBit(w, Idx(Rot(ray, x))) <==> x in occ;
  }

  /** For every occupancy, square and ray, the rotated 7-bit lookup returns what walking the ray to the first
      blocker returns. */
  lemma LookupIsWalk(w: Words, occ: BMap, ray: nat, s: Sq)
    requires ray < 4 && RotatedOcc(w, occ, ray)
    ensures forall t: Sq :: t in TableEntry(2 * ToBits(w, s, ray), ray, s) <==> Ray(s, t) == ray && Sees(occ, s, t)
  {
    var bits := 2 * ToBits(w, s, ray);
    forall t: Sq ensures Reaches(bits, ray, s, t) <==> Ray(s, t) == ray && Sees(occ, s, t) {
      if Ray(s, t) == ray {
        forall x: Sq | Between(s, t, x) ensures TB(bits, BitPos(ray, x)) <==> x in occ {
          IndexBit(w, occ, ray, s, t, x);
        }
      }
    }
  }

  // ----- board maps kept as sets -----

  /** The occupancy map of one ray: every occupied square, rotated. */
  function RotMap(ray: nat, occ: BMap): BMap { set s | s in occ :: Rot(ray, s) }

  /** Board::to_atk on the occupancy map of a ray. */
  function Lookup(all: BMap, ray: nat, s: Sq): BMap { TableEntry(2 * ToBits(WordsOf(all), s, ray), ray, s) }

  lemma LookupSees(occ: BMap, ray: nat, s: Sq)
    requires ray < 4
    ensures forall t: Sq :: t in Lookup(RotMap(ray, occ), ray, s) <==> Ray(s, t) == ray && Sees(occ, s, t)
  {
    var w := WordsOf(RotMap(ray, occ));
    WordsRepresent(RotMap(ray, occ));
    forall q: Sq ensures HasBit(w, Idx(Rot(ray, q))) <==> q in occ {}
    LookupIsWalk(w, occ, ray, s);
  }

  lemma ObstacleStart(a: Sq, b: Sq)
    requires Ray(a, b) != NORAY
    ensures (var n := Sq(a.r + Sign(b.r - a.r), a.f + Sign(b.f - a.f));
             0 <= n.r < 9 && 0 <= n.f < 9
             && (n == b || Between(a, b, n)) && Dist(a, n) == 1)
  {}

  lemma ObstacleStep(a: Sq, b: Sq, q: Sq)
    requires Between(a, b, q)
    ensures var n := Sq(q.r + Sign(b.r - a.r), q.f + Sign(b.f - a.f));
            0 <= n.r < 9 && 0 <= n.f < 9 && (n == b || Between(a, b, n)) && Dist(a, n) == Dist(a, q) + 1
    ensures Dist(a, q) < Dist(a, b) && forall x: Sq :: Between(a, b, x) && Dist(a, x) == Dist(a, q) ==> x == q
  {}

  /** The generator's obstacle loop: step from a towards b and set every square strictly between. */
  method Obstacle(a: Sq, b: Sq) returns (data: BMap)
    ensures forall x: Sq :: x in data <==> Between(a, b, x)
  {
    data := {};
    if a != b && (a.r == b.r || a.f == b.f || b.r - a.r == a.f - b.f || b.r - a.r == b.f - a.f) {
      ObstacleStart(a, b);
      var q: Sq := Sq(a.r + Sign(b.r - a.r), a.f + Sign(b.f - a.f));
      while q != b
        invariant q == b || Between(a, b, q)
        invariant forall x: Sq :: x in data <==> Between(a, b, x) && Dist(a, x) < Dist(a, q)
        invariant Dist(a, q) <= Dist(a, b)
        decreases Dist(a, b) - Dist(a, q)
      {
        ObstacleStep(a, b, q);
        data := data + {q};
        q := Sq(q.r + Sign(b.r - a.r), q.f + Sign(b.f - a.f));
      }
      assert forall x: Sq :: Between(a, b, x) ==> Dist(a, x) < Dist(a, b);
    }
  }
}
