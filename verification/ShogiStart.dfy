/** The starting positions, even and handicap games (Node::clear, src/common/shogibase.cpp:586-632). */
module ShogiStart {
  import opened ShogiGeometry
  import opened ShogiLegality
  import opened ShogiRules
  import opened ShogiRotation
  import opened ShogiBoardMaps
  import opened ShogiQueries
  import opened ShogiBoard
  import opened ShogiAccounts
  import opened ShogiGame

  /** Square (r, f) as seen by colour c (table tbl_sq_rel). */
  function RelSq(c: Color, r: int, f: int): Sq
    requires 0 <= r < 9 && 0 <= f < 9
  {
    if c == Black then Sq(r, f) else Sq(8 - r, 8 - f)
  }
  function RelFile(c: Color, s: Sq): int { if c == Black then s.f else 8 - s.f }

  predicate Even(c: Color, numD: nat) { numD == 0 || c == Black }

  /** The man colour c starts with on s; numD is the number of the handicap, given by White. */
  function SideMan(c: Color, numD: nat, s: Sq): Option<Man> {
    var r, f, even := RelRank(c, s), RelFile(c, s), Even(c, numD);
    if r == 6 then Some(Man(c, Pawn))
    else if r == 7 then
      if f == 1 && (even || numD == 1 || numD == 3) then Some(Man(c, Bishop))
      else if f == 7 && (even || numD == 1 || numD == 2) then Some(Man(c, Rook))
      else None
    else if r == 8 then
      if f == 4 then Some(Man(c, King))
      else if f == 3 || f == 5 then Some(Man(c, Gold))
      else if f == 2 || f == 6 then Some(Man(c, Silver))
      else if f == 1 || f == 7 then (if even || numD <= 5 then Some(Man(c, Knight)) else None)
      else if even || 2 <= numD <= 4 || (numD == 1 && f == 8) then Some(Man(c, Lance))
      else None
    else None
  }
  function StartMan(numD: nat, s: Sq): Option<Man>
  {
    if s.r >= 6 then SideMan(Black, numD, s) else SideMan(White, numD, s)
  }
  function StartMail(numD: nat): (m: Mail)
    ensures forall s: Sq :: (s in m <==> StartMan(numD, s).Some?) && (s in m ==> m[s] == StartMan(numD, s).value)
  {
    map s | s in Board81() && StartMan(numD, s).Some? :: StartMan(numD, s).value
  }
  function StartTurn(numD: nat): Color { if numD > 0 then White else Black }
  function StartPos(numD: nat): Pos { Pos(StartMail(numD), EmptyHands(), StartTurn(numD)) }

  // ----- placing the men -----

  predicate SubMail(m: Mail, goal: Mail) { forall s | s in m :: s in goal && m[s] == goal[s] }

  lemma StartUnique(numD: nat, s: Sq, t: Sq)
    requires StartMan(numD, s).Some? && StartMan(numD, s) == StartMan(numD, t)
    ensures var man := StartMan(numD, s).value;
            CanExist(man.c, s, man.pc) && ((man.pc == Pawn && s.f == t.f) || man.pc == King ==> s == t)
  {}

  lemma StartFits(numD: nat)
    ensures Fits(StartMail(numD))
  {
    var m := StartMail(numD);
    forall s | s in m ensures CanExist(m[s].c, s, m[s].pc) { StartUnique(numD, s, s); }
    forall s, t | s in m && t in m && m[s] == m[t] ensures (m[s].pc == Pawn && s.f == t.f) || m[s].pc == King
        ==> s == t {
      StartUnique(numD, s, t);
    }
    hide StartMan;
  }

  /** The board holds some of the starting men, empty hands and the key that goes with them. */
  ghost predicate Partial(b: Board, numD: nat)
    reads b
  {
    && b.Valid() && SubMail(b.mail, StartMail(numD)) && b.hand == EmptyHands() && b.handColor == Totals(0, 0)
    && b.zkey == KeyOf(b.tbl, b.mail, b.hand, Black) && KingsReal(b.mail, b.sqKings)
  }

  lemma KingsRealPut(mail: Mail, kings: Kings, s: Sq, man: Man)
    requires s !in mail && KingsReal(mail, kings)
    ensures KingsReal(mail[s := man], KingPut(kings, man, s))
  {
    var m, ks := mail[s := man], KingPut(kings, man, s);
    forall c: Color | ks.At(c).Some? ensures ks.At(c).value in m && m[ks.At(c).value] == Man(c, King) {
      if kings.At(c).Some? { assert kings.At(c).value in mail && mail[kings.At(c).value] == Man(c, King); }
    }
  }

  lemma SubMailPut(mail: Mail, numD: nat, s: Sq, man: Man)
    requires SubMail(mail, StartMail(numD)) && StartMan(numD, s) == Some(man)
    ensures SubMail(mail[s := man], StartMail(numD)) && Fits(mail[s := man])
  {
    StartFits(numD);
  }

  method Place(b: Board, c: Color, pc: Pc, r: int, f: int, ghost numD: nat)
    requires 0 <= r < 9 && 0 <= f < 9 && Partial(b, numD)
    requires RelSq(c, r, f) !in b.mail && StartMan(numD, RelSq(c, r, f)) == Some(Man(c, pc))
    modifies b
    ensures Partial(b, numD) && b.mail.Keys == old(b.mail.Keys) + {RelSq(c, r, f)}
  {
    var s := RelSq(c, r, f);
    SubMailPut(b.mail, numD, s, Man(c, pc));
    KingsRealPut(b.mail, b.sqKings, s, Man(c, pc));
    KeyPlace(b.tbl, b.mail, b.hand, Black, s, Man(c, pc));
    b.PlaceSq(c, pc, s, true);
  }

  function Generals(c: Color): BMap { {RelSq(c, 8, 2), RelSq(c, 8, 6), RelSq(c, 8, 3), RelSq(c, 8, 5), RelSq(c, 8, 4)} }
  function Knights(c: Color): BMap { {RelSq(c, 8, 1), RelSq(c, 8, 7)} }
  function Lances(c: Color): BMap { {RelSq(c, 8, 0), RelSq(c, 8, 8)} }
  function Back(c: Color, numD: nat): BMap {
    if Even(c, numD) then Knights(c) + Lances(c) + {RelSq(c, 7, 1)} + {RelSq(c, 7, 7)}
    else if numD == 6 then {}
    else if numD == 5 then Knights(c)
    else if numD == 1 then Knights(c) + {RelSq(c, 8, 8)} + {RelSq(c, 7, 1)} + {RelSq(c, 7, 7)}
    else if numD == 4 then Knights(c) + Lances(c)
    else if numD == 2 then Knights(c) + Lances(c) + {RelSq(c, 7, 7)}
    else Knights(c) + Lances(c) + {RelSq(c, 7, 1)}
  }

  lemma SideCovered(c: Color, numD: nat, s: Sq)
    requires numD <= 6
    ensures SideMan(c, numD, s).Some? <==> RelRank(c, s) == 6 || s in Generals(c) || s in Back(c, numD)
  {}

  method PlacePawns(b: Board, c: Color, ghost numD: nat)
    requires Partial(b, numD) && forall s | s in b.mail :: RelRank(c, s) != 6
    modifies b
    ensures Partial(b, numD)
    ensures forall s: Sq :: s in b.mail <==> s in old(b.mail) || RelRank(c, s) == 6
  {
    hide Partial;
    for f := 0 to 9
      invariant Partial(b, numD)
      invariant forall s: Sq :: s in b.mail <==> s in old(b.mail) || (RelRank(c, s) == 6 && RelFile(c, s) < f)
    {
      Place(b, c, Pawn, 6, f, numD);
    }
  }

  method PlaceGenerals(b: Board, c: Color, ghost numD: nat)
    requires Partial(b, numD) && forall s | s in b.mail :: RelRank(c, s) <= 6
    modifies b
    ensures Partial(b, numD) && b.mail.Keys == old(b.mail.Keys) + Generals(c)
  {
    hide Partial;
    PlacePair(b, c, Silver, 2, 6, numD);
    PlacePair(b, c, Gold, 3, 5, numD);
    Place(b, c, King, 8, 4, numD);
  }

  method PlacePair(b: Board, c: Color, pc: Pc, f1: int, f2: int, ghost numD: nat)
    requires 0 <= f1 < f2 < 9 && Partial(b, numD) && RelSq(c, 8, f1) !in b.mail && RelSq(c, 8, f2) !in b.mail
    requires StartMan(numD, RelSq(c, 8, f1)) == Some(Man(c, pc)) && StartMan(numD, RelSq(c, 8, f2)) == Some(Man(c, pc))
    modifies b
    ensures Partial(b, numD) && b.mail.Keys == old(b.mail.Keys) + {RelSq(c, 8, f1), RelSq(c, 8, f2)}
  {
    hide Partial;
    Place(b, c, pc, 8, f1, numD);
    Place(b, c, pc, 8, f2, numD);
  }

  /** Squares the minor pieces may still be put on. */
  ghost predicate BackFree(mail: Mail, c: Color) {
    RelSq(c, 8, 0) !in mail && RelSq(c, 8, 1) !in mail && RelSq(c, 8, 7) !in mail && RelSq(c, 8, 8) !in mail
    && RelSq(c, 7, 1) !in mail && RelSq(c, 7, 7) !in mail
  }

  /** Knights, lances, bishop and rook, as far as the handicap leaves them. */
  method PlaceBack(b: Board, c: Color, numD: nat)
    requires numD <= 6 && Partial(b, numD) && BackFree(b.mail, c)
    modifies b
    ensures Partial(b, numD) && b.mail.Keys == old(b.mail.Keys) + Back(c, numD)
  {
    hide Partial;
    if numD == 0 || c == Black { PlaceAllBack(b, c, numD); return; }
    if numD == 6 { return; }
    PlacePair(b, c, Knight, 1, 7, numD);
    if numD == 5 { return; }
    if numD == 1 {
      Place(b, c, Lance, 8, 8, numD);
      Place(b, c, Bishop, 7, 1, numD);
      Place(b, c, Rook, 7, 7, numD);
      return;
    }
    PlaceLances(b, c, numD);
  }

  method PlaceAllBack(b: Board, c: Color, numD: nat)
    requires Partial(b, numD) && BackFree(b.mail, c) && Even(c, numD)
    modifies b
    ensures Partial(b, numD) && b.mail.Keys == old(b.mail.Keys) + Back(c, numD)
  {
    hide Partial;
    PlacePair(b, c, Knight, 1, 7, numD);
    PlacePair(b, c, Lance, 0, 8, numD);
    Place(b, c, Bishop, 7, 1, numD);
    Place(b, c, Rook, 7, 7, numD);
  }

  /** Handicaps 2, 3 and 4 leave the lances, and the first two also the rook or the bishop. */
  method PlaceLances(b: Board, c: Color, numD: nat)
    requires 2 <= numD <= 4 && Partial(b, numD) && !Even(c, numD)
    requires RelSq(c, 8, 0) !in b.mail && RelSq(c, 8, 8) !in b.mail && RelSq(c, 7, 1) !in b.mail
        && RelSq(c, 7, 7) !in b.mail
    modifies b
    ensures Partial(b, numD)
    ensures b.mail.Keys == old(b.mail.Keys) + Lances(c)
            + (if numD == 2 then {RelSq(c, 7, 7)} else if numD == 3 then {RelSq(c, 7, 1)} else {})
  {
    hide Partial;
    PlacePair(b, c, Lance, 0, 8, numD);
    if numD == 4 { return; }
    if numD == 2 { Place(b, c, Rook, 7, 7, numD); }
    if numD == 3 { Place(b, c, Bishop, 7, 1, numD); }
  }

  method PlaceSide(b: Board, c: Color, numD: nat)
    requires numD <= 6 && Partial(b, numD) && forall s | s in b.mail :: RelRank(c, s) <= 5
    modifies b
    ensures Partial(b, numD)
    ensures forall s: Sq :: s in b.mail <==> s in old(b.mail) || SideMan(c, numD, s).Some?
  {
    hide Partial;
    PlacePawns(b, c, numD);
    PlaceGenerals(b, c, numD);
    PlaceBack(b, c, numD);
    forall s: Sq { SideCovered(c, numD, s); }
    hide SideMan, Generals, Back;
  }

  /** All men in place: the board holds exactly the starting position. */
  method PlaceAll(b: Board, numD: nat)
    requires numD <= 6 && b.Valid() && b.mail == map[] && b.hand == EmptyHands() && b.handColor == Totals(0, 0)
    requires b.zkey == KeyOf(b.tbl, map[], EmptyHands(), Black) && b.sqKings == Kings(None, None)
    modifies b
    ensures Partial(b, numD) && b.mail == StartMail(numD)
  {
    assert Partial(b, numD);
    hide Partial;
    PlaceSide(b, Black, numD);
    PlaceSide(b, White, numD);
    PartialAll(b, numD);
  }

  lemma PartialAll(b: Board, numD: nat)
    requires Partial(b, numD) &&
          forall s: Sq :: s in b.mail <==> SideMan(Black, numD, s).Some? || SideMan(White, numD, s).Some?
    ensures b.mail == StartMail(numD)
  {
    assert forall s: Sq :: s in b.mail <==> s in StartMail(numD);
  }

  // ----- the starting position is a good position -----

  lemma StartKing(numD: nat, c: Color)
    ensures var m := StartMail(numD); KingAt(m, c, RelSq(c, 8, 4)) && RelSq(c, 6, 4) in m
  {
    var m, k := StartMail(numD), RelSq(c, 8, 4);
    StartFits(numD);
    forall s | s in m && m[s] == Man(c, King) ensures s == k { assert m[s] == m[k]; }
  }

  lemma StartFar(numD: nat, c: Color, e: Sq)
    requires var m := StartMail(numD); e in m && m[e].c == c.Opp()
    ensures RelRank(c, e) <= 2
  {}

  lemma StartSafe(numD: nat, c: Color)
    ensures var m := StartMail(numD); var k := RelSq(c, 8, 4);
            KingAt(m, c, k) && forall e: Sq :: !Threat(m, m.Keys, c.Opp(), e, k)
  {
    var m, k := StartMail(numD), RelSq(c, 8, 4);
    StartKing(numD, c);
    hide StartMail, RelSq;
    forall e: Sq ensures !Threat(m, m.Keys, c.Opp(), e, k) {
      if e in m && m[e].c == c.Opp() {
        StartFar(numD, c, e);
      }
    }
  }

  function RowCount(mail: Mail, k: Pc, r: nat): nat
    requires r < 9
  {
    At(mail, k, r, 0) + At(mail, k, r, 1) + At(mail, k, r, 2) + At(mail, k, r, 3) + At(mail, k, r, 4)
    + At(mail, k, r, 5) + At(mail, k, r, 6) + At(mail, k, r, 7) + At(mail, k, r, 8)
  }

  function At(mail: Mail, k: Pc, r: nat, f: nat): nat
    requires r < 9 && f < 9
  {
    if Sq(r, f) in mail && ToUnpro(mail[Sq(r, f)].pc) == k then 1 else 0
  }

  lemma CountStep(mail: Mail, k: Pc, r: nat, f: nat)
    requires r < 9 && f < 9
    ensures CountKind(mail, k, 9 * r + f + 1) == CountKind(mail, k, 9 * r + f) + At(mail, k, r, f)
  {}

  lemma CountRow(mail: Mail, k: Pc, r: nat)
    requires r < 9
    ensures CountKind(mail, k, 9 * (r + 1)) == CountKind(mail, k, 9 * r) + RowCount(mail, k, r)
  {
    hide CountKind, At;
    CountThree(mail, k, r, 0);
    CountThree(mail, k, r, 3);
    CountThree(mail, k, r, 6);
  }

  lemma CountThree(mail: Mail, k: Pc, r: nat, f: nat)
    requires r < 9 && f < 7
    ensures CountKind(mail, k, 9 * r + f + 3)
         == CountKind(mail, k, 9 * r + f) + At(mail, k, r, f) + At(mail, k, r, f + 1) + At(mail, k, r, f + 2)
  {
    hide CountKind, At;
    CountStep(mail, k, r, f);
    CountStep(mail, k, r, f + 1);
    CountStep(mail, k, r, f + 2);
  }

  /** How many men of kind k colour c starts with on one of its ranks. */
  function RankCount(c: Color, numD: nat, k: Pc, rel: nat): nat {
    var even := Even(c, numD);
    if rel == 6 then (if k == Pawn then 9 else 0)
    else if rel == 7 then
      if k == Bishop then (if even || numD == 1 || numD == 3 then 1 else 0)
      else if k == Rook then (if even || numD == 1 || numD == 2 then 1 else 0)
      else 0
    else if rel == 8 then
      if k == King then 1
      else if k == Silver || k == Gold then 2
      else if k == Knight then (if even || numD <= 5 then 2 else 0)
      else if k == Lance then (if even || 2 <= numD <= 4 then 2 else if numD == 1 then 1 else 0)
      else 0
    else 0
  }

  function StartAt(numD: nat, k: Pc, r: nat, f: nat): nat
    requires r < 9 && f < 9
  {
    var man := StartMan(numD, Sq(r, f));
    if man.Some? && ToUnpro(man.value.pc) == k then 1 else 0
  }

  lemma RowWhite(numD: nat, k: Pc, r: nat)
    requires r < 6 && HandOk(k)
    ensures StartAt(numD, k, r, 0) + StartAt(numD, k, r, 1) + StartAt(numD, k, r, 2) + StartAt(numD, k, r, 3)
            + StartAt(numD, k, r, 4) + StartAt(numD, k, r, 5) + StartAt(numD, k, r, 6) + StartAt(numD, k, r, 7)
            + StartAt(numD, k, r, 8) == RankCount(White, numD, k, 8 - r)
  {
    if r == 0 { BackRowWhite(numD, k); } else if r == 1 {} else if r == 2 {} else {}
  }

  lemma BackRowWhite(numD: nat, k: Pc)
    requires HandOk(k)
    ensures StartAt(numD, k, 0, 0) + StartAt(numD, k, 0, 1) + StartAt(numD, k, 0, 2) + StartAt(numD, k, 0, 3)
            + StartAt(numD, k, 0, 4) + StartAt(numD, k, 0, 5) + StartAt(numD, k, 0, 6) + StartAt(numD, k, 0, 7)
            + StartAt(numD, k, 0, 8) == RankCount(White, numD, k, 8)
  {}

  lemma RowBlack(numD: nat, k: Pc, r: nat)
    requires 6 <= r < 9 && HandOk(k)
    ensures StartAt(numD, k, r, 0) + StartAt(numD, k, r, 1) + StartAt(numD, k, r, 2) + StartAt(numD, k, r, 3)
            + StartAt(numD, k, r, 4) + StartAt(numD, k, r, 5) + StartAt(numD, k, r, 6) + StartAt(numD, k, r, 7)
            + StartAt(numD, k, r, 8) == RankCount(Black, numD, k, r)
  {
    if r == 6 {} else if r == 7 {} else {}
  }

  function RankAt(numD: nat, k: Pc, r: nat): nat
    requires r < 9
  {
    if r >= 6 then RankCount(Black, numD, k, r) else RankCount(White, numD, k, 8 - r)
  }

  lemma RowIsStart(numD: nat, k: Pc, r: nat)
    requires r < 9
    ensures RowCount(StartMail(numD), k, r) ==
            StartAt(numD, k, r, 0) + StartAt(numD, k, r, 1) + StartAt(numD, k, r, 2) + StartAt(numD, k, r, 3)
            + StartAt(numD, k, r, 4) + StartAt(numD, k, r, 5) + StartAt(numD, k, r, 6) + StartAt(numD, k, r, 7)
            + StartAt(numD, k, r, 8)
  {
    assert forall f: nat | f < 9 :: At(StartMail(numD), k, r, f) == StartAt(numD, k, r, f);
    hide At, StartAt, StartMail;
  }

  lemma StartRow(numD: nat, k: Pc, r: nat)
    requires r < 9 && HandOk(k)
    ensures CountKind(StartMail(numD), k, 9 * r + 9) == CountKind(StartMail(numD), k, 9 * r) + RankAt(numD, k, r)
  {
    hide CountKind, StartMail, StartAt, RankCount, RowCount;
    CountRow(StartMail(numD), k, r);
    RowIsStart(numD, k, r);
    if r >= 6 { RowBlack(numD, k, r); } else { RowWhite(numD, k, r); }
  }

  /** The men of the first n ranks, rank by rank. */
  function RanksTotal(numD: nat, k: Pc, n: nat): nat
    requires n <= 9
  {
    if n == 0 then 0 else RanksTotal(numD, k, n - 1) + RankAt(numD, k, n - 1)
  }

  lemma {:induction false} StartRows(numD: nat, k: Pc, n: nat)
    requires n <= 9 && HandOk(k)
    ensures CountKind(StartMail(numD), k, 9 * n) == RanksTotal(numD, k, n)
  {
    if n > 0 {
      StartRows(numD, k, n - 1);
      StartRow(numD, k, n - 1);
    }
    hide CountKind, StartMail, RankAt;
  }

  /** A full set of every kind, less what the handicap takes away. */
  lemma StartCount(numD: nat, k: Pc)
    requires HandOk(k)
    ensures CountKind(StartMail(numD), k, 81) ==
            RankCount(Black, numD, k, 6) + RankCount(Black, numD, k, 7) + RankCount(Black, numD, k, 8)
            + RankCount(White, numD, k, 6) + RankCount(White, numD, k, 7) + RankCount(White, numD, k, 8)
  {
    StartRows(numD, k, 9);
    hide CountKind, StartMail, RankCount;
    assert RanksTotal(numD, k, 1) == RankAt(numD, k, 0)
        && RanksTotal(numD, k, 2) == RanksTotal(numD, k, 1) + RankAt(numD, k, 1);
    assert RanksTotal(numD, k, 3) == RankAt(numD, k, 0) + RankAt(numD, k, 1) + RankAt(numD, k, 2);
    assert RanksTotal(numD, k, 4) == RanksTotal(numD, k, 3) + RankAt(numD, k, 3)
        && RanksTotal(numD, k, 5) == RanksTotal(numD, k, 4) + RankAt(numD, k, 4);
    assert RanksTotal(numD, k, 6) == RanksTotal(numD, k, 3) + RankAt(numD, k, 3) + RankAt(numD, k, 4)
        + RankAt(numD, k, 5);
    assert RanksTotal(numD, k, 7) == RanksTotal(numD, k, 6) + RankAt(numD, k, 6)
        && RanksTotal(numD, k, 8) == RanksTotal(numD, k, 7) + RankAt(numD, k, 7);
    assert RanksTotal(numD, k, 9) == RanksTotal(numD, k, 6) + RankAt(numD, k, 6) + RankAt(numD, k, 7)
        + RankAt(numD, k, 8);
  }
  lemma StartFull(numD: nat)
    ensures FullSet(StartMail(numD), EmptyHands())
  {
    forall k: Pc | HandOk(k) { StartCount(numD, k); }
  }

  /** The piece counts that Board::ok demands: a full set of every kind. */
  ghost predicate DemandedCounts(mail: Mail, hand: Hands)
  {
    forall k: Pc | HandOk(k) :: Total(mail, hand, k) == NumArray(k)
  }

  /** They hold at the start exactly when no handicap is given, so Board::ok rejects every handicap game. */
  lemma DemandedCountsAtStart(numD: nat)
    requires numD <= 6
    ensures DemandedCounts(StartMail(numD), EmptyHands()) <==> numD == 0
  {
    forall k: Pc | HandOk(k) { StartCount(numD, k); }
    hide CountKind, StartMail;
    if numD != 0 {
      var k := if numD == 1 || numD >= 5 then Lance else if numD == 2 || numD == 4 then Bishop else Rook;
      assert HandOk(k) && Total(StartMail(numD), EmptyHands(), k) != NumArray(k);
    }
  }

  /** Every position of the game holds as many pieces of each kind as the first one. */
  ghost predicate SameTotals(hist: seq<Pos>) {
    forall i, k: Pc | 0 <= i < |hist| && HandOk(k) ::
      Total(hist[i].mail, hist[i].hand, k) == Total(hist[0].mail, hist[0].hand, k)
  }

  lemma NextTotals(p: Pos, a: Action)
    requires PosOk(p) && Legal(p.mail, p.hand, p.turn, a)
    ensures forall k: Pc | HandOk(k) :: Total(Next(p, a).mail, Next(p, a).hand, k) == Total(p.mail, p.hand, k)
  {
    LegalUpdates(p, a);
    forall k: Pc | HandOk(k) ensures Total(Next(p, a).mail, Next(p, a).hand, k) == Total(p.mail, p.hand, k) {
      PiecesConserved(p.mail, p.hand, p.turn, a, k);
    }
    hide Total, PosOk, Legal, UpdateOk;
  }

  lemma TotalsStay(z: ZTable, N: nat, g: Game, a: Action)
    requires GoodGame(z, N, g) && Playable(g, a) && SameTotals(g.hist)
    ensures var h := Step(z, N, g, a).hist; SameTotals(h) && h != [] && h[0] == g.hist[0]
  {
    if a.IsMove() && |g.hist| < N {
      NextTotals(Last(g.hist), a);
      hide Total, PosOk, Legal, Verdict, Next, Keys, Checks, AtMostThree;
    }
  }

  lemma {:induction false} TotalsAlong(z: ZTable, N: nat, g: Game, acts: seq<Action>)
    requires GoodGame(z, N, g) && IsRun(z, N, g, acts) && SameTotals(g.hist)
    ensures var h := Outcome(z, N, g, acts).hist; SameTotals(h) && h != [] && h[0] == g.hist[0]
    decreases |acts|
  {
    if acts != [] {
      StepKeepsGood(z, N, g, acts[0]);
      TotalsStay(z, N, g, acts[0]);
      TotalsAlong(z, N, Step(z, N, g, acts[0]), acts[1..]);
    }
    hide SameTotals, GoodGame;
  }

  /** So the counts hold in every position of even games, and in none of a handicap game. */
  lemma DemandedCountsInGame(z: ZTable, N: nat, numD: nat, acts: seq<Action>, i: nat)
    requires numD <= 6 && N > 0 && IsRun(z, N, Game(numD == 0, [StartPos(numD)], Interior), acts)
    requires i < |Outcome(z, N, Game(numD == 0, [StartPos(numD)], Interior), acts).hist|
    ensures var p := Outcome(z, N, Game(numD == 0, [StartPos(numD)], Interior), acts).hist[i];
            DemandedCounts(p.mail, p.hand) <==> numD == 0
  {
    var g := Game(numD == 0, [StartPos(numD)], Interior);
    StartIsGood(numD);
    assert AtMostThree(Keys(z, g.even, g.hist), 1);
    TotalsAlong(z, N, g, acts);
    DemandedCountsAtStart(numD);
    hide Total, PosOk, StartMail, IsRun, Outcome;
  }

  /** The starting position of every handicap satisfies what all positions of a game keep. */
  lemma StartIsGood(numD: nat)
    ensures PosOk(StartPos(numD))
  {
    StartFits(numD);
    StartSafe(numD, Black);
    StartSafe(numD, White);
    StartFull(numD);
    var m := StartMail(numD);
    forall c: Color, k: Sq | KingAt(m, c, k) ensures k == RelSq(c, 8, 4) { StartSafe(numD, c); }
    hide StartMail, Threat, FullSet, Fits;
  }
}
