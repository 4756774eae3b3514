/** Squares, colours, pieces and the geometry of moves (src/common/shogibase.hpp, src/gencode/gencode.cpp).
    A square is a pair of coordinates; the program's index is 9 * rank + file.  The lookup tables that
    gencode writes out (rays, obstacles, attack steps) are given here by their coordinate conditions. */
module ShogiGeometry {

  datatype Color = Black | White {
    function Opp(): Color { if this == Black then White else Black }
  }

  datatype Square = Sq(r: int, f: int)
  type Sq = s: Square | 0 <= s.r < 9 && 0 <= s.f < 9 witness Sq(0, 0)
  type BMap = set<Sq>

  /** Pieces by the program's numbers. */
  type Pc = n: nat | n < 14 witness 0
  const Pawn: Pc := 0
  const Lance: Pc := 1
  const Knight: Pc := 2
  const Silver: Pc := 3
  const Gold: Pc := 4
  const Bishop: Pc := 5
  const Rook: Pc := 6
  const King: Pc := 7
  const Tokin: Pc := 8
  const ProLance: Pc := 9
  const ProKnight: Pc := 10
  const ProSilver: Pc := 11
  const Horse: Pc := 12
  const Dragon: Pc := 13

  predicate IsUnpromo(pc: Pc) { pc < 8 }
  predicate HandOk(pc: Pc) { pc < 7 }
  predicate CanPromote(pc: Pc) { pc < 7 && pc != Gold }
  predicate IsSlider(pc: Pc) { pc == Lance || pc == Bishop || pc == Rook || pc == Horse || pc == Dragon }
  /** Table tbl_promote: 8, 9, 10, 11, bad, 12, 13. */
  function ToPro(pc: Pc): Pc
    requires CanPromote(pc)
  {
    if pc < Gold then pc + 8 else pc + 7
  }
  /** Table tbl_unpromote: 0..7, 0, 1, 2, 3, 5, 6. */
  function ToUnpro(pc: Pc): Pc { if pc < 8 then pc else if pc < Horse then pc - 8 else pc - 7 }

  function Idx(s: Sq): (u: nat) { 9 * s.r + s.f }

  /** Rank as seen by colour c, 0 being the far end of the board. */
  function RelRank(c: Color, s: Sq): int { if c == Black then s.r else 8 - s.r }

  predicate CanExist(c: Color, s: Sq, pc: Pc) {
    if pc == Pawn || pc == Lance then RelRank(c, s) > 0
    else if pc == Knight then RelRank(c, s) > 1
    else true
  }

  predicate ZonePromote(c: Color, from: Sq, to: Sq) { RelRank(c, from) <= 2 || RelRank(c, to) <= 2 }

  predicate CanPromoteMove(c: Color, pc: Pc, from: Sq, to: Sq) { CanPromote(pc) && ZonePromote(c, from, to) }

  // ----- step attacks (tables tbl_sq_atk and tbl_sq_atk_king) -----

  /** Ranks advanced by colour c between s and t. */
  function Adv(c: Color, s: Sq, t: Sq): int { if c == Black then s.r - t.r else t.r - s.r }

  predicate StepPawn(c: Color, s: Sq, t: Sq) { Adv(c, s, t) == 1 && t.f == s.f }
  predicate StepLance(c: Color, s: Sq, t: Sq) { Adv(c, s, t) >= 1 && t.f == s.f }
  predicate StepKnight(c: Color, s: Sq, t: Sq) { Adv(c, s, t) == 2 && -1 <= t.f - s.f <= 1 && t.f != s.f }
  predicate StepSilver(c: Color, s: Sq, t: Sq) {
    var d := Adv(c, s, t);
    -1 <= t.f - s.f <= 1 && (d == 1 || (d == -1 && t.f != s.f))
  }
  predicate StepGold(c: Color, s: Sq, t: Sq) {
    var d := Adv(c, s, t);
    -1 <= t.f - s.f <= 1 && (d == 1 || (d == 0 && t.f != s.f) || (d == -1 && t.f == s.f))
  }
  predicate StepKing(s: Sq, t: Sq) { -1 <= t.f - s.f <= 1 && -1 <= t.r - s.r <= 1 && s != t }

  // ----- rays (tables tbl_sq_ray and tbl_sq_obstacle) -----

  const RANK := 0
  const FILE := 1
  const DIAG1 := 2
  const DIAG2 := 3
  const NORAY := 4

  function Ray(a: Sq, b: Sq): (ray: nat) {
    if a == b then NORAY
    else if a.r == b.r then RANK
    else if a.f == b.f then FILE
    else if b.r - a.r == a.f - b.f then DIAG1
    else if b.r - a.r == b.f - a.f then DIAG2
    else NORAY
  }

  predicate Inside(a: int, x: int, b: int) { a < x < b || b < x < a }

  /** x lies strictly between a and b on their common line; never when they share no line. */
  predicate Between(a: Sq, b: Sq, x: Sq) {
    if a == b then false
    else if a.r == b.r then x.r == a.r && Inside(a.f, x.f, b.f)
    else if a.f == b.f then x.f == a.f && Inside(a.r, x.r, b.r)
    else if a.r + a.f == b.r + b.f then x.r + x.f == a.r + a.f && Inside(a.r, x.r, b.r)
    else if a.r - a.f == b.r - b.f then x.r - x.f == a.r - a.f && Inside(a.r, x.r, b.r)
    else false
  }

  /** a and b share a line and nothing of occ stands between them. */
  ghost predicate Sees(occ: BMap, a: Sq, b: Sq) {
    Ray(a, b) != NORAY && forall x: Sq :: Between(a, b, x) ==> x !in occ
  }

  lemma BetweenSym(a: Sq, b: Sq, x: Sq)
    ensures Between(a, b, x) == Between(b, a, x)
  {}

  /** Two occupied squares seen from a on the same side of the same line are the same square. */
  lemma FirstBlockerUnique(occ: BMap, a: Sq, b: Sq, c: Sq)
    requires Sees(occ, a, b) && Sees(occ, a, c) && b in occ && c in occ
    requires Ray(a, b) == Ray(a, c) && !Between(b, c, a)
    ensures b == c
  {
    assert b != c ==> Between(a, b, c) || Between(a, c, b);
  }

  // ----- attacks of a piece, given the occupied squares -----

  predicate LineOf(pc: Pc, c: Color, s: Sq, t: Sq) {
    if pc == Lance then StepLance(c, s, t)
    else if pc == Bishop || pc == Horse then Ray(s, t) == DIAG1 || Ray(s, t) == DIAG2
    else (pc == Rook || pc == Dragon) && (Ray(s, t) == RANK || Ray(s, t) == FILE)
  }

  predicate StepOf(pc: Pc, c: Color, s: Sq, t: Sq) {
    if pc == Pawn then StepPawn(c, s, t)
    else if pc == Knight then StepKnight(c, s, t)
    else if pc == Silver then StepSilver(c, s, t)
    else if pc == King || pc == Horse || pc == Dragon then StepKing(s, t)
    else pc != Lance && pc != Bishop && pc != Rook && StepGold(c, s, t)
  }

  ghost predicate Attacks(pc: Pc, c: Color, occ: BMap, s: Sq, t: Sq) {
    StepOf(pc, c, s, t) || (LineOf(pc, c, s, t) && Sees(occ, s, t))
  }

  /** A step never jumps along a line: nothing lies between its ends. */
  lemma StepClear(pc: Pc, c: Color, s: Sq, t: Sq, x: Sq)
    requires StepOf(pc, c, s, t)
    ensures !Between(s, t, x) && s != t
  {}
}
