/** The list of moves never outgrows its 1024 places (SAux::maxsize_moves, src/common/shogibase.hpp:22, and the
    assertions of MoveSet, src/common/shogibase.cpp:732-763, 821). */
module ShogiMoveCount {
  import opened ShogiGeometry
  import opened ShogiLegality
  import opened ShogiRules
  import opened ShogiRotation
  import opened ShogiAccounts
  import opened ShogiGame

  const MAXSIZE_MOVES: nat := 1024

  // ----- how many squares a man can reach -----

  /** The cell of a line through s at coordinate i: the file of a rank, else the rank. */
  function OnLine(s: Sq, ray: nat, i: nat): (int, int) {
    if ray == RANK then (s.r, i) else if ray == FILE then (i, s.f)
    else if ray == DIAG1 then (i, s.r + s.f - i) else (i, s.f - s.r + i)
  }

  function Coord(s: Sq, ray: nat): nat { if ray == RANK then s.f else s.r }

  /** The squares of the line at coordinates below n, without s itself. */
  function Line(s: Sq, ray: nat, n: nat): (m: BMap)
    ensures |m| + (if Coord(s, ray) < n then 1 else 0) <= n
  {
    if n == 0 then {} else
      var (r, f) := OnLine(s, ray, n - 1);
      Line(s, ray, n - 1) + if n - 1 != Coord(s, ray) && 0 <= r < 9 && 0 <= f < 9 then {Sq(r, f)} else {}
  }

  lemma OnLineAt(s: Sq, ray: nat, t: Sq)
    requires Ray(s, t) == ray < 4
    ensures OnLine(s, ray, Coord(t, ray)) == (t.r, t.f) && Coord(t, ray) != Coord(s, ray)
  {
    if ray == RANK {} else if ray == FILE {} else {}
  }

  lemma {:induction false} LineHas(s: Sq, ray: nat, n: nat, t: Sq)
    requires Ray(s, t) == ray < 4 && Coord(t, ray) < n
    ensures t in Line(s, ray, n)
  {
    OnLineAt(s, ray, t);
    hide Ray, Coord, OnLine;
    if Coord(t, ray) < n - 1 { LineHas(s, ray, n - 1, t); }
  }

  type Step = (int, int)

  function Plus(s: Sq, d: Step): BMap {
    if 0 <= s.r + d.0 < 9 && 0 <= s.f + d.1 < 9 then {Sq(s.r + d.0, s.f + d.1)} else {}
  }

  function Reach(s: Sq, ds: seq<Step>): (m: BMap)
    ensures |m| <= |ds|
  {
    if ds == [] then {} else Reach(s, ds[1..]) + Plus(s, ds[0])
  }

  lemma {:induction false} ReachHas(s: Sq, ds: seq<Step>, i: nat, t: Sq)
    requires i < |ds| && ds[i] == (t.r - s.r, t.f - s.f)
    ensures t in Reach(s, ds)
  {
    if i > 0 { ReachHas(s, ds[1..], i - 1, t); }
  }

  /** The steps of a man of colour c, one ahead being -1 for Black. */
  function StepsOf(pc: Pc, c: Color): seq<Step> {
    var a := if c == Black then -1 else 1;
    if pc == Pawn then [(a, 0)]
    else if pc == Knight then [(2 * a, -1), (2 * a, 1)]
    else if pc == Silver then [(a, -1), (a, 0), (a, 1), (-a, -1), (-a, 1)]
    else if pc == King || pc == Horse || pc == Dragon then
      [(a, -1), (a, 0), (a, 1), (0, -1), (0, 1), (-a, -1), (-a, 0), (-a, 1)]
    else if pc == Lance || pc == Bishop || pc == Rook then []
    else [(a, -1), (a, 0), (a, 1), (0, -1), (0, 1), (-a, 0)]
  }

  function LinesOf(pc: Pc, s: Sq): BMap {
    if pc == Lance then Line(s, FILE, 9)
    else if pc == Bishop || pc == Horse then Line(s, DIAG1, 9) + Line(s, DIAG2, 9)
    else if pc == Rook || pc == Dragon then Line(s, RANK, 9) + Line(s, FILE, 9)
    else {}
  }

  function Targets(pc: Pc, c: Color, s: Sq): BMap { Reach(s, StepsOf(pc, c)) + LinesOf(pc, s) }

  lemma StepIn(pc: Pc, c: Color, s: Sq, t: Sq)
    requires StepOf(pc, c, s, t)
    ensures exists i :: 0 <= i < |StepsOf(pc, c)| && StepsOf(pc, c)[i] == (t.r - s.r, t.f - s.f)
  {
    var d, ds := (t.r - s.r, t.f - s.f), StepsOf(pc, c);
    if pc == Pawn { assert ds[0] == d; }
    else if pc == Knight { assert ds[0] == d || ds[1] == d; }
    else if pc == Silver { assert ds[0] == d || ds[1] == d || ds[2] == d || ds[3] == d || ds[4] == d; }
    else if pc == King || pc == Horse || pc == Dragon {
      assert ds[0] == d || ds[1] == d || ds[2] == d || ds[3] == d || ds[4] == d || ds[5] == d || ds[6] == d
          || ds[7] == d;
    } else {
      assert ds[0] == d || ds[1] == d || ds[2] == d || ds[3] == d || ds[4] == d || ds[5] == d;
    }
  }

  lemma AttackIn(pc: Pc, c: Color, occ: BMap, s: Sq, t: Sq)
    requires Attacks(pc, c, occ, s, t)
    ensures t in Targets(pc, c, s)
  {
    if StepOf(pc, c, s, t) {
      StepIn(pc, c, s, t);
      var i :| 0 <= i < |StepsOf(pc, c)| && StepsOf(pc, c)[i] == (t.r - s.r, t.f - s.f);
      ReachHas(s, StepsOf(pc, c), i, t);
    } else {
      LineHas(s, Ray(s, t), 9, t);
      hide Line;
    }
  }

  /** Targets, and the moves to them with and without promotion, by the piece it is unpromoted. */
  function Weight(k: Pc): nat {
    if k == Pawn then 6 else if k == Lance then 16 else if k == Knight then 6 else if k == Silver then 10
    else if k == Gold then 6 else if k == Bishop || k == Rook then 32 else 8
  }

  lemma LinesFew(pc: Pc, s: Sq)
    ensures |LinesOf(pc, s)| <= if pc == Lance then 8 else if IsSlider(pc) then 16 else 0
  {}

  lemma TargetsFew(pc: Pc, c: Color, s: Sq)
    ensures var n := |Targets(pc, c, s)|; (if CanPromote(pc) then n + n else n) <= Weight(ToUnpro(pc))
  {
    LinesFew(pc, s);
    var u, m := Reach(s, StepsOf(pc, c)), LinesOf(pc, s);
    assert |u + m| <= |StepsOf(pc, c)| + |m|;
    hide Line, Reach, LinesOf;
  }

  // ----- the moves of the men on the first n squares -----

  function MovesTo(mail: Mail, s: Sq, pc: Pc, m: BMap, promote: bool): set<Action> {
    set t | t in m :: Move(s, t, pc, CapAt(mail, t), promote)
  }

  lemma {:induction false} MovesToFew(mail: Mail, s: Sq, pc: Pc, m: BMap, promote: bool)
    ensures |MovesTo(mail, s, pc, m, promote)| <= |m|
    decreases |m|
  {
    if m == {} {
      assert MovesTo(mail, s, pc, m, promote) == {};
    } else {
      var t :| t in m;
      MovesToFew(mail, s, pc, m - {t}, promote);
      assert MovesTo(mail, s, pc, m, promote)
          == MovesTo(mail, s, pc, m - {t}, promote) + {Move(s, t, pc, CapAt(mail, t), promote)};
    }
  }

  /** All moves of the man on s, if it is c's. */
  function MovesFrom(mail: Mail, c: Color, s: Sq): set<Action> {
    if s !in mail || mail[s].c != c then {} else
      var pc, m := mail[s].pc, Targets(mail[s].pc, c, s);
      MovesTo(mail, s, pc, m, false) + if CanPromote(pc) then MovesTo(mail, s, pc, m, true) else {}
  }

  lemma MovesFromFew(mail: Mail, c: Color, s: Sq)
    ensures |MovesFrom(mail, c, s)| <= if s in mail && mail[s].c == c then Weight(ToUnpro(mail[s].pc)) else 0
  {
    if s in mail && mail[s].c == c {
      var pc, m := mail[s].pc, Targets(mail[s].pc, c, s);
      TargetsFew(pc, c, s);
      MovesToFew(mail, s, pc, m, false);
      MovesToFew(mail, s, pc, m, true);
      hide MovesTo, Targets, Weight;
    }
  }

  function BoardMoves(mail: Mail, c: Color, n: nat): set<Action>
    requires n <= 81
  {
    if n == 0 then {} else BoardMoves(mail, c, n - 1) + MovesFrom(mail, c, SqAt(n - 1))
  }

  /** What the pieces on the first n squares weigh, kind by kind, the king apart. */
  function Load(mail: Mail, n: nat): nat
    requires n <= 81
  {
    6 * CountKind(mail, Pawn, n) + 16 * CountKind(mail, Lance, n) + 6 * CountKind(mail, Knight, n)
    + 10 * CountKind(mail, Silver, n) + 6 * CountKind(mail, Gold, n) + 32 * CountKind(mail, Bishop, n)
    + 32 * CountKind(mail, Rook, n)
  }

  lemma IsSqAt(s: Sq, n: nat)
    requires 0 < n <= 81
    ensures SqAt(n - 1) == s <==> Idx(s) == n - 1
  {}

  lemma LoadStep(mail: Mail, n: nat)
    requires 0 < n <= 81
    ensures Load(mail, n) >= Load(mail, n - 1)
    ensures SqAt(n - 1) in mail && mail[SqAt(n - 1)].pc != King ==>
      Load(mail, n) == Load(mail, n - 1) + Weight(ToUnpro(mail[SqAt(n - 1)].pc))
  {}

  lemma {:induction false} BoardMovesFew(mail: Mail, c: Color, k: Sq, n: nat)
    requires n <= 81 && KingAt(mail, c, k)
    ensures |BoardMoves(mail, c, n)| <= Load(mail, n) + if Idx(k) < n then 8 else 0
  {
    if n > 0 {
      var s := SqAt(n - 1);
      BoardMovesFew(mail, c, k, n - 1);
      MovesFromFew(mail, c, s);
      LoadStep(mail, n);
      IsSqAt(k, n);
      assert s in mail && mail[s] == Man(c, King) ==> s == k;
      assert BoardMoves(mail, c, n) == BoardMoves(mail, c, n - 1) + MovesFrom(mail, c, s);
      hide Load, MovesFrom, SqAt, BoardMoves, KingAt;
    }
  }

  lemma LoadBounded(mail: Mail, hand: Hands)
    requires FullSet(mail, hand)
    ensures Load(mail, 81) <= 388
  {
    hide CountKind;
    assert Total(mail, hand, Pawn) <= 18 && Total(mail, hand, Lance) <= 4 && Total(mail, hand, Knight) <= 4;
    assert Total(mail, hand, Silver) <= 4 && Total(mail, hand, Gold) <= 4;
    assert Total(mail, hand, Bishop) <= 2 && Total(mail, hand, Rook) <= 2;
  }

  // ----- drops -----

  function DropsTo(s: Sq): set<Action> {
    {Drop(s, Pawn), Drop(s, Lance), Drop(s, Knight), Drop(s, Silver), Drop(s, Gold), Drop(s, Bishop), Drop(s, Rook)}
  }

  function Drops(n: nat): (m: set<Action>)
    requires n <= 81
    ensures |m| <= 7 * n
  {
    if n == 0 then {} else Drops(n - 1) + DropsTo(SqAt(n - 1))
  }

  lemma {:induction false} DropsHave(s: Sq, pc: Pc, n: nat)
    requires n <= 81 && Idx(s) < n && HandOk(pc)
    ensures Drop(s, pc) in Drops(n)
  {
    IsSqAt(s, n);
    hide SqAt;
    if Idx(s) < n - 1 { DropsHave(s, pc, n - 1); } else { assert Drop(s, pc) in DropsTo(s); }
    hide DropsTo;
  }

  lemma {:induction false} BoardMovesHave(mail: Mail, c: Color, s: Sq, a: Action, n: nat)
    requires n <= 81 && Idx(s) < n && a in MovesFrom(mail, c, s)
    ensures a in BoardMoves(mail, c, n)
  {
    hide SqAt, MovesFrom, Idx;
    IsSqAt(s, n);
    assert BoardMoves(mail, c, n) == BoardMoves(mail, c, n - 1) + MovesFrom(mail, c, SqAt(n - 1));
    if Idx(s) < n - 1 { BoardMovesHave(mail, c, s, a, n - 1); }
    hide BoardMoves;
  }

  lemma LegalIn(mail: Mail, hand: Hands, c: Color, a: Action)
    requires Legal(mail, hand, c, a)
    ensures a in BoardMoves(mail, c, 81) + Drops(81)
  {
    if a.Drop? {
      DropsHave(a.to, a.pc, 81);
    } else {
      AttackIn(mail[a.from].pc, c, mail.Keys, a.from, a.to);
      assert a == Move(a.from, a.to, a.pc, CapAt(mail, a.to), a.promote);
      assert a in MovesFrom(mail, c, a.from);
      BoardMovesHave(mail, c, a.from, a, 81);
    }
    hide BoardMoves, Drops, MovesFrom;
  }

  lemma {:induction false} ListFits(moves: seq<Action>, m: set<Action>)
    requires (forall i, j :: 0 <= i < j < |moves| ==> moves[i] != moves[j]) && forall a | a in moves :: a in m
    ensures |moves| <= |m|
  {
    if moves != [] {
      var a, rest := moves[0], moves[1..];
      assert forall b | b in rest :: b in m - {a};
      ListFits(rest, m - {a});
    }
  }

  /** A list of different legal actions of a good position is shorter than the buffer. */
  lemma LegalFew(moves: seq<Action>, p: Pos)
    requires PosOk(p) && forall i, j :: 0 <= i < j < |moves| ==> moves[i] != moves[j]
    requires forall a | a in moves :: Legal(p.mail, p.hand, p.turn, a)
    ensures |moves| < MAXSIZE_MOVES
  {
    var k: Sq :| KingAt(p.mail, p.turn, k);
    LoadBounded(p.mail, p.hand);
    hide *;
    BoardMovesFew(p.mail, p.turn, k, 81);
    forall a | a in moves
      ensures a in BoardMoves(p.mail, p.turn, 81) + Drops(81)
    {
      LegalIn(p.mail, p.hand, p.turn, a);
    }
    var m, d := BoardMoves(p.mail, p.turn, 81), Drops(81);
    ListFits(moves, m + d);
  }
}
