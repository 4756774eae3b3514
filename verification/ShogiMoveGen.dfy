/** The move generator lists exactly the legal actions (template class MoveSet,
    src/common/shogibase.cpp:728-884). */
module ShogiMoveGen {
  import opened ShogiGeometry
  import opened ShogiLegality
  import opened ShogiRules
  import opened ShogiRotation
  import opened ShogiBoardMaps
  import opened ShogiQueries
  import opened ShogiBoard
  import opened ShogiGame
  import opened ShogiMoveCount
  import opened ShogiNode

  // ----- what the generator looks for -----

  /** The target of a non-king action: no own man on it, and every checker captured or blocked. */
  ghost predicate OnTarget(mail: Mail, c: Color, k: Sq, to: Sq) {
    && !(to in mail && mail[to].c == c)
    && forall e: Sq :: Threat(mail, mail.Keys, c.Opp(), e, k) ==> e == to || Between(k, e, to)
  }

  ghost predicate MoveShape(mail: Mail, c: Color, a: Action) {
    && a.Move? && a.from in mail && mail[a.from] == Man(c, a.pc) && Attacks(a.pc, c, mail.Keys, a.from, a.to)
    && a.cap == CapAt(mail, a.to)
    && if a.promote then CanPromoteMove(c, a.pc, a.from, a.to) else CanExist(c, a.to, a.pc)
  }

  ghost predicate PieceMove(mail: Mail, c: Color, k: Sq, a: Action) {
    MoveShape(mail, c, a) && a.from != k && !Pinned(mail, c.Opp(), k, a.from, a.to) && OnTarget(mail, c, k, a.to)
  }

  ghost predicate KingMove(mail: Mail, c: Color, k: Sq, a: Action) {
    && a.Move? && a.from == k && a.pc == King && !a.promote && StepKing(k, a.to) && a.cap == CapAt(mail, a.to)
    && !(a.to in mail && mail[a.to].c == c) && !Attacked(mail, mail.Keys - {k}, c.Opp(), a.to)
  }

  ghost predicate DropMove(mail: Mail, hand: Hands, c: Color, k: Sq, a: Action) {
    && a.Drop? && HandOk(a.pc) && Held(hand, c, a.pc) > 0 && a.to !in mail && CanExist(c, a.to, a.pc)
    && (a.pc == Pawn ==> !OwnPawnOnFile(mail, c, a.to.f) && !MateTest(mail, c, a.to))
    && OnTarget(mail, c, k, a.to)
  }

  lemma AttackedNotKing(mail: Mail, c: Color, from: Sq, to: Sq, kx: Sq)
    requires KingAt(mail, c.Opp(), kx) && !InCheck(mail, c.Opp())
    requires from in mail && mail[from].c == c && Attacks(mail[from].pc, c, mail.Keys, from, to)
    ensures to != kx
  {
    assert to == kx ==> Threat(mail, mail.Keys, c, from, kx);
  }

  lemma ShapeIsEasy(mail: Mail, hand: Hands, c: Color, a: Action)
    requires MoveShape(mail, c, a) && !(a.to in mail && mail[a.to].c == c)
    ensures EasyOk(mail, hand, c, a) && InAttackSet(mail, a) && a.from != a.to
  {}

  /** Legal actions of men other than the king. */
  lemma PieceMoveExact(p: Pos, k: Sq, a: Action)
    requires PosOk(p) && KingAt(p.mail, p.turn, k) && a.Move? && a.from != k
    ensures Legal(p.mail, p.hand, p.turn, a) <==> PieceMove(p.mail, p.turn, k, a)
  {
    var mail, c := p.mail, p.turn;
    var kx: Sq :| KingAt(mail, c.Opp(), kx);
    if PieceMove(mail, c, k, a) {
      ShapeIsEasy(mail, p.hand, c, a);
      AttackedNotKing(mail, c, a.from, a.to, kx);
      NonKingSafe(mail, p.hand, c, a, k);
    }
    if Legal(mail, p.hand, c, a) { NonKingSafe(mail, p.hand, c, a, k); }
  }

  lemma KingMoveExact(p: Pos, k: Sq, a: Action)
    requires PosOk(p) && KingAt(p.mail, p.turn, k) && a.Move? && a.from == k
    ensures Legal(p.mail, p.hand, p.turn, a) <==> KingMove(p.mail, p.turn, k, a)
  {
    var mail, c := p.mail, p.turn;
    var kx: Sq :| KingAt(mail, c.Opp(), kx);
    if KingMove(mail, c, k, a) {
      assert MoveShape(mail, c, a);
      ShapeIsEasy(mail, p.hand, c, a);
      AttackedNotKing(mail, c, k, a.to, kx);
      KingSafe(mail, p.hand, c, a, k);
    }
    if Legal(mail, p.hand, c, a) { KingSafe(mail, p.hand, c, a, k); }
  }

  lemma DropMoveExact(p: Pos, k: Sq, a: Action)
    requires PosOk(p) && KingAt(p.mail, p.turn, k) && a.Drop?
    ensures Legal(p.mail, p.hand, p.turn, a) <==> DropMove(p.mail, p.hand, p.turn, k, a)
  {
    if a.Ok() && EasyOk(p.mail, p.hand, p.turn, a) { NonKingSafe(p.mail, p.hand, p.turn, a, k); }
  }

  // ----- targets in and out of check -----

  lemma OneCheckTarget(mail: Mail, c: Color, k: Sq, e: Sq, to: Sq)
    requires KingAt(mail, c, k) && Threat(mail, mail.Keys, c.Opp(), e, k)
    requires forall d: Sq :: Threat(mail, mail.Keys, c.Opp(), d, k) ==> d == e
    ensures OnTarget(mail, c, k, to) <==> to == e || Between(k, e, to)
    ensures Between(k, e, to) ==> to !in mail
  {}

  lemma TwoCheckTarget(mail: Mail, c: Color, k: Sq, e1: Sq, e2: Sq, to: Sq)
    requires KingAt(mail, c, k) && e1 != e2
    requires Threat(mail, mail.Keys, c.Opp(), e1, k) && Threat(mail, mail.Keys, c.Opp(), e2, k)
    ensures !OnTarget(mail, c, k, to)
  {
    TwoCheckersNeedKing(mail, c.Opp(), k, e1, e2, to);
  }

  // ----- the generator's tables of attacks -----

  /** Pieces that move like g, as the generator groups them (the template argument of gen_nsg and gen_slider). */
  predicate InGroup(g: Pc, pc: Pc) { if g == Gold then pc == Gold || (8 <= pc && pc < Horse) else pc == g }
  predicate IsGroup(g: Pc) { (g < King && g != Pawn) || g == Horse || g == Dragon }

  /** fatk: to_atk_knight, to_atk_silver, to_atk_gold, to_atk_lance, ... */
  function AtkOf(m: Maps, g: Pc, c: Color, s: Sq): BMap
    requires |m.all| == 4
  {
    if g == Knight then KnightSet(c, s)
    else if g == Silver then SilverSet(c, s)
    else if g == Gold then GoldSet(c, s)
    else if g == Lance then LanceSet(c, s) * ToAtk(m, s, FILE)
    else if g == Bishop then AtkBishop(m, s)
    else if g == Horse then AtkBishop(m, s) + KingSet(s)
    else if g == Rook then AtkRook(m, s)
    else AtkRook(m, s) + KingSet(s)
  }

  lemma AtkOfExact(mail: Mail, m: Maps, g: Pc, pc: Pc, c: Color, s: Sq, t: Sq)
    requires Agree(mail, mail.Keys, m) && IsGroup(g) && InGroup(g, pc)
    ensures t in AtkOf(m, g, c, s) <==> Attacks(pc, c, mail.Keys, s, t)
  {
    InSliders(m, mail.Keys, s, t);
    if g == Lance { LookupSees(mail.Keys, FILE, s); }
  }

  /** The source squares: _bm_sub_mobil for knights, silvers, golds and lances, and the maps of rooks, bishops,
      horses and dragons told apart. */
  function MenFrom(m: Maps, g: Pc, c: Color): BMap
    requires WellFormed(m) && IsGroup(g)
  {
    var sub := m.sub.At(c);
    assert UnpromoKeys(sub) by { assert SubKeys(sub); }
    if g == Horse then m.horse.At(c)
    else if g == Dragon then m.dragon.At(c)
    else if g == Bishop then sub[Bishop] - m.horse.At(c)
    else if g == Rook then sub[Rook] - m.dragon.At(c)
    else if g == Knight then sub[Knight]
    else if g == Silver then sub[Silver]
    else if g == Gold then sub[Gold]
    else sub[Lance]
  }

  lemma MenFromExact(mail: Mail, m: Maps, g: Pc, c: Color, s: Sq)
    requires Agree(mail, mail.Keys, m) && IsGroup(g)
    ensures s in MenFrom(m, g, c) <==> s in mail && mail[s].c == c && InGroup(g, mail[s].pc)
  {
    assert m.horse.At(c) == MenOf(mail, Man(c, Horse)) && m.dragon.At(c) == MenOf(mail, Man(c, Dragon));
  }

  // ----- one group of pieces -----

  /** MoveSet::add */
  function Added(g: Pc, c: Color, from: Sq, to: Sq, pc: Pc, cap: Option<Pc>): seq<Action> {
    (if CanPromoteMove(c, g, from, to) then [Move(from, to, pc, cap, true)] else [])
    + (if CanExist(c, to, g) then [Move(from, to, pc, cap, false)] else [])
  }

  ghost predicate GroupMove(mail: Mail, c: Color, k: Sq, g: Pc, target: BMap, a: Action) {
    MoveShape(mail, c, a) && InGroup(g, a.pc) && a.to in target && !Pinned(mail, c.Opp(), k, a.from, a.to)
  }

  lemma AddedExact(mail: Mail, m: Maps, kings: Kings, c: Color, k: Sq, g: Pc, target: BMap, from: Sq, to: Sq, a: Action)
    requires Agree(mail, mail.Keys, m) && kings.At(c) == Some(k) && KingAt(mail, c, k) && IsGroup(g)
    requires from in MenFrom(m, g, c)
    ensures from in mail
    ensures GroupMove(mail, c, k, g, target, a) && a.from == from && a.to == to <==>
            to in AtkOf(m, g, c, from) * target && !IsPinned(m, kings, c, from, to) &&
            a in Added(g, c, from, to, mail[from].pc, CapAt(mail, to))
  {
    MenFromExact(mail, m, g, c, from);
    AtkOfExact(mail, m, g, mail[from].pc, c, from, to);
    PinExact(mail, m, kings, c, k, from, to);
    hide Attacks, Pinned, IsPinned, AtkOf, MenFrom, Agree;
  }

  /** What one from-square adds: everything for a target that is not pinned away, nothing otherwise. */
  lemma AddedAll(mail: Mail, m: Maps, kings: Kings, c: Color, k: Sq, g: Pc, target: BMap, from: Sq, to: Sq)
    requires Agree(mail, mail.Keys, m) && kings.At(c) == Some(k) && KingAt(mail, c, k) && IsGroup(g)
    requires from in MenFrom(m, g, c) && to in AtkOf(m, g, c, from) * target
    ensures from in mail
    ensures forall a :: GroupMove(mail, c, k, g, target, a) && a.from == from && a.to == to <==>
              !IsPinned(m, kings, c, from, to) && a in Added(g, c, from, to, mail[from].pc, CapAt(mail, to))
  {
    forall a { AddedExact(mail, m, kings, c, k, g, target, from, to, a); }
    MenFromExact(mail, m, g, c, from);
    hide GroupMove, Agree, AtkOf, MenFrom, KingAt, IsPinned, Added;
  }

  /** A group's moves start on its squares and end on its targets. */
  lemma GroupEnds(mail: Mail, m: Maps, c: Color, k: Sq, g: Pc, target: BMap)
    requires Agree(mail, mail.Keys, m) && IsGroup(g)
    ensures forall a :: GroupMove(mail, c, k, g, target, a) ==>
              a.from in MenFrom(m, g, c) && a.to in AtkOf(m, g, c, a.from) * target
  {
    forall a | GroupMove(mail, c, k, g, target, a) ensures a.from in MenFrom(m, g, c)
        && a.to in AtkOf(m, g, c, a.from) * target {
      MenFromExact(mail, m, g, c, a.from);
      AtkOfExact(mail, m, g, a.pc, c, a.from, a.to);
    }
  }

  // ----- lists of moves -----

  ghost predicate NoDup(s: seq<Action>) { forall i, j :: 0 <= i < j < |s| ==> s[i] != s[j] }

  /** moves is was, extended, without repetitions, by the group's moves from squares of froms to squares of tos. */
  ghost predicate Listed(was: seq<Action>, moves: seq<Action>, mail: Mail, c: Color, k: Sq, g: Pc, target: BMap,
                         froms: BMap, tos: BMap) {
    NoDup(moves) && forall a ::
      a in moves <==> a in was || (GroupMove(mail, c, k, g, target, a) && a.from in froms && a.to in tos)
  }

  lemma Join(s: seq<Action>, t: seq<Action>)
    requires NoDup(s) && NoDup(t) && forall a | a in t :: a !in s
    ensures NoDup(s + t) && forall a :: a in s + t <==> a in s || a in t
  {
    var m := s + t;
    forall i, j | 0 <= i < j < |m| ensures m[i] != m[j] {
      if j < |s| {
        assert s[i] != s[j];
      } else if i >= |s| {
        assert t[i - |s|] != t[j - |s|];
      } else {
        assert t[j - |s|] in t && s[i] in s;
      }
    }
  }

  function GroupPcs(g: Pc): set<Pc> { if g == Gold then {Gold, Tokin, ProLance, ProKnight, ProSilver} else {g} }

  ghost predicate PieceShape(mail: Mail, c: Color, k: Sq, target: BMap, pcs: set<Pc>, a: Action) {
    MoveShape(mail, c, a) && a.pc in pcs && a.to in target && !Pinned(mail, c.Opp(), k, a.from, a.to)
  }

  /** moves is was, extended, without repetitions, by the moves of the pieces pcs to target. */
  ghost predicate ListedPcs(was: seq<Action>, moves: seq<Action>, mail: Mail, c: Color, k: Sq, target: BMap,
                            pcs: set<Pc>) {
    NoDup(moves) && forall a :: a in moves <==> a in was || PieceShape(mail, c, k, target, pcs, a)
  }

  function NotKing(): set<Pc> {
    {Pawn, Lance, Knight, Silver, Gold, Bishop, Rook, Tokin, ProLance, ProKnight, ProSilver, Horse, Dragon}
  }

  ghost predicate OnlyKing(moves: seq<Action>, mail: Mail) {
    forall a | a in moves :: a.Move? ==> a.from in mail && mail[a.from].pc == King
  }

  // ----- pawns -----

  /** to.adv(tx): the square a pawn of c comes from. */
  function PawnFrom(c: Color, to: Sq): Square { Sq(if c == Black then to.r + 1 else to.r - 1, to.f) }

  lemma PawnAdded(mail: Mail, m: Maps, kings: Kings, c: Color, k: Sq, target: BMap, from: Sq, to: Sq)
    requires Agree(mail, mail.Keys, m) && kings.At(c) == Some(k) && KingAt(mail, c, k)
    requires to in target && from == PawnFrom(c, to) && from in mail && mail[from] == Man(c, Pawn)
    ensures forall a :: PieceShape(mail, c, k, target, {Pawn}, a) && a.to == to <==>
              !IsPinned(m, kings, c, from, to) && a in Added(Pawn, c, from, to, Pawn, CapAt(mail, to))
  {
    PinExact(mail, m, kings, c, k, from, to);
    forall a ensures PieceShape(mail, c, k, target, {Pawn}, a) && a.to == to <==>
              !Pinned(mail, c.Opp(), k, from, to) && a in Added(Pawn, c, from, to, Pawn, CapAt(mail, to)) {
      assert a.Move? && MoveShape(mail, c, a) && a.pc == Pawn && a.to == to ==> a.from == from;
    }
  }

  /** moves is was, extended, without repetitions, by the pawn moves to squares of tos. */
  ghost predicate ListedPawns(was: seq<Action>, moves: seq<Action>, mail: Mail, c: Color, k: Sq, target: BMap,
                              tos: BMap) {
    NoDup(moves) && forall a :: a in moves <==> a in was || (PieceShape(mail, c, k, target, {Pawn}, a) && a.to in tos)
  }

  lemma PawnsAll(was: seq<Action>, moves: seq<Action>, mail: Mail, m: Maps, c: Color, k: Sq, target: BMap)
    requires Agree(mail, mail.Keys, m) && ListedPawns(was, moves, mail, c, k, target, m.pawnAtk.At(c) * target)
    ensures ListedPcs(was, moves, mail, c, k, target, {Pawn})
  {}

  // ----- king steps -----

  lemma KingMoveFrom(mail: Mail, m: Maps, c: Color, k: Sq, to: Sq)
    requires Agree(mail, mail.Keys - {k}, m)
    ensures forall a :: KingMove(mail, c, k, a) && a.to == to <==>
              to in KingSet(k) - m.color.At(c) && ToAttacker(m, c, to) == {}
                  && a in Added(King, c, k, to, King, CapAt(mail, to))
  {
    AttackedExact(mail, mail.Keys - {k}, m, c, to);
    assert m.color.At(c) == ColorOf(mail, c);
    hide Attacked, ToAttacker, Agree;
  }

  ghost predicate ListedKing(moves: seq<Action>, mail: Mail, c: Color, k: Sq, tos: BMap) {
    NoDup(moves) && forall a :: a in moves <==> KingMove(mail, c, k, a) && a.to in tos
  }

  lemma KingMore(moves: seq<Action>, more: seq<Action>, mail: Mail, c: Color, k: Sq, tos: BMap, to: Sq)
    requires ListedKing(moves, mail, c, k, tos) && to !in tos && NoDup(more)
    requires forall a :: a in more <==> KingMove(mail, c, k, a) && a.to == to
    ensures ListedKing(moves + more, mail, c, k, tos + {to})
  {
    hide Attacked, StepKing;
    forall a | a in more ensures a !in moves {}
    Join(moves, more);
    hide NoDup;
    forall a ensures a in moves + more <==> KingMove(mail, c, k, a) && a.to in tos + {to} {
      assert a in moves <==> KingMove(mail, c, k, a) && a.to in tos;
    }
  }

  // ----- drops -----

  ghost predicate DropShape(mail: Mail, hand: Hands, c: Color, target: BMap, a: Action) {
    && a.Drop? && HandOk(a.pc) && Held(hand, c, a.pc) > 0 && a.to in target && CanExist(c, a.to, a.pc)
    && (a.pc == Pawn ==> !OwnPawnOnFile(mail, c, a.to.f) && !MateTest(mail, c, a.to))
  }

  /** moves is was, extended, without repetitions, by the drops on squares of tos, and on to by the kinds of pcs. */
  ghost predicate ListedDrops(was: seq<Action>, moves: seq<Action>, mail: Mail, hand: Hands, c: Color, target: BMap,
                              tos: BMap, to: Sq, pcs: set<Pc>) {
    NoDup(moves) && forall a :: a in moves <==>
      a in was || (DropShape(mail, hand, c, target, a) && (a.to in tos || (a.to == to && a.pc in pcs)))
  }

  lemma DropMore(was: seq<Action>, moves: seq<Action>, mail: Mail, hand: Hands, c: Color, target: BMap, tos: BMap,
                 to: Sq,
                 pcs: set<Pc>, pc: Pc, adds: bool)
    requires ListedDrops(was, moves, mail, hand, c, target, tos, to, pcs) && to !in tos && pc !in pcs
    requires adds <==> DropShape(mail, hand, c, target, Drop(to, pc))
    requires forall a | a in was :: a.Move?
    ensures ListedDrops(was, if adds then moves + [Drop(to, pc)] else moves, mail, hand, c, target, tos, to, pcs + {pc})
  {}

  /** drops: the kinds c holds, each once. */
  ghost predicate IsHeld(hand: Hands, c: Color, drops: seq<Pc>) {
    && (forall u | 0 <= u < |drops| :: HandOk(drops[u]) && Held(hand, c, drops[u]) > 0)
    && (forall u, v | 0 <= u < v < |drops| :: drops[u] != drops[v])
    && forall pc: Pc | HandOk(pc) && Held(hand, c, pc) > 0 :: pc in drops
  }

  function Kinds(drops: seq<Pc>): set<Pc> { set pc | pc in drops }

  lemma KindsNext(drops: seq<Pc>, u: nat)
    requires u < |drops| && forall i, j | 0 <= i < j < |drops| :: drops[i] != drops[j]
    ensures Kinds(drops[..u + 1]) == Kinds(drops[..u]) + {drops[u]} && drops[u] !in Kinds(drops[..u])
  {}

  method HeldKinds(hand: Hands, c: Color) returns (drops: seq<Pc>)
    ensures IsHeld(hand, c, drops)
  {
    drops := [];
    var upc: nat := 0;
    while upc < 7
      invariant upc <= 7
      invariant forall u | 0 <= u < |drops| :: drops[u] < upc && Held(hand, c, drops[u]) > 0
      invariant forall u, v | 0 <= u < v < |drops| :: drops[u] != drops[v]
      invariant forall pc: Pc | pc < upc && Held(hand, c, pc) > 0 :: pc in drops
    {
      if Held(hand, c, upc) > 0 { drops := drops + [upc]; }
      upc := upc + 1;
    }
  }

  lemma DropsElsewhere(was: seq<Action>, moves: seq<Action>, mail: Mail, hand: Hands, c: Color, target: BMap,
                       tos: BMap, at: Sq, to: Sq)
    requires ListedDrops(was, moves, mail, hand, c, target, tos, at, {})
    ensures ListedDrops(was, moves, mail, hand, c, target, tos, to, {})
  {}

  /** All kinds held have been tried on to. */
  lemma DropsOnDone(was: seq<Action>, moves: seq<Action>, mail: Mail, hand: Hands, c: Color, target: BMap, tos: BMap,
                    to: Sq, drops: seq<Pc>, next: Sq)
    requires IsHeld(hand, c, drops) && ListedDrops(was, moves, mail, hand, c, target, tos, to, Kinds(drops))
    ensures ListedDrops(was, moves, mail, hand, c, target, tos + {to}, next, {})
  {}

  // ----- putting the parts together -----

  /** What the generator lists when the target of the other men is target and that of drops is free. */
  ghost predicate Generated(p: Pos, k: Sq, target: BMap, free: BMap, a: Action) {
    KingMove(p.mail, p.turn, k, a) || PieceShape(p.mail, p.turn, k, target, NotKing(), a)
    || DropShape(p.mail, p.hand, p.turn, free, a)
  }

  ghost predicate Answers(p: Pos, a: Action) { a.IsMove() && Legal(p.mail, p.hand, p.turn, a) }

  /** The shapes that the generators produce are exactly the legal board actions. */
  ghost predicate AllGenerated(p: Pos, k: Sq, target: BMap, free: BMap) {
    forall a :: Generated(p, k, target, free, a) <==> Answers(p, a)
  }

  /** The generator's targets are right when they are the squares that deal with every check. */
  ghost predicate RightTargets(p: Pos, k: Sq, target: BMap, free: BMap) {
    && (forall t: Sq :: t in target <==> OnTarget(p.mail, p.turn, k, t))
    && (forall t: Sq :: t in free <==> OnTarget(p.mail, p.turn, k, t) && t !in p.mail)
  }

  lemma KingGenerated(p: Pos, k: Sq, target: BMap, free: BMap, a: Action)
    requires PosOk(p) && KingAt(p.mail, p.turn, k) && a.Move? && a.from == k
    ensures Generated(p, k, target, free, a) <==> Answers(p, a)
  {
    KingMoveExact(p, k, a);
    hide Legal, KingMove, PosOk;
    assert !DropShape(p.mail, p.hand, p.turn, free, a) && !PieceShape(p.mail, p.turn, k, target, NotKing(), a);
  }

  lemma PieceGenerated(p: Pos, k: Sq, target: BMap, free: BMap, a: Action)
    requires PosOk(p) && KingAt(p.mail, p.turn, k) && RightTargets(p, k, target, free) && a.Move? && a.from != k
    ensures Generated(p, k, target, free, a) <==> Answers(p, a)
  {
    PieceMoveExact(p, k, a);
    assert !KingMove(p.mail, p.turn, k, a) && !DropShape(p.mail, p.hand, p.turn, free, a);
    hide Legal, KingMove, PosOk, PieceMove, PieceShape, OnTarget;
  }

  lemma DropGenerated(p: Pos, k: Sq, target: BMap, free: BMap, a: Action)
    requires PosOk(p) && KingAt(p.mail, p.turn, k) && RightTargets(p, k, target, free) && a.Drop?
    ensures Generated(p, k, target, free, a) <==> Answers(p, a)
  {
    DropMoveExact(p, k, a);
    hide Legal, OnTarget, PosOk, MateTest, OwnPawnOnFile;
  }

  lemma GeneratedExact(p: Pos, k: Sq, target: BMap, free: BMap)
    requires PosOk(p) && KingAt(p.mail, p.turn, k) && RightTargets(p, k, target, free)
    ensures AllGenerated(p, k, target, free)
  {
    forall a ensures Generated(p, k, target, free, a) <==> Answers(p, a) {
      if a.Move? && a.from == k { KingGenerated(p, k, target, free, a); }
      else if a.Move? { PieceGenerated(p, k, target, free, a); }
      else if a.Drop? { DropGenerated(p, k, target, free, a); }
    }
  }

  lemma NoEvasion(p: Pos, k: Sq)
    requires PosOk(p) && KingAt(p.mail, p.turn, k) && !InCheck(p.mail, p.turn)
    ensures AllGenerated(p, k, Board81() - ColorOf(p.mail, p.turn), Board81() - p.mail.Keys)
  {
    GeneratedExact(p, k, Board81() - ColorOf(p.mail, p.turn), Board81() - p.mail.Keys);
  }

  lemma OneEvasion(p: Pos, k: Sq, e: Sq)
    requires PosOk(p) && KingAt(p.mail, p.turn, k) && Threat(p.mail, p.mail.Keys, p.turn.Opp(), e, k)
    requires forall d: Sq :: Threat(p.mail, p.mail.Keys, p.turn.Opp(), d, k) ==> d == e
    ensures AllGenerated(p, k, ObstacleSet(k, e) + {e}, ObstacleSet(k, e))
    ensures ObstacleSet(k, e) !! p.mail.Keys
  {
    forall t: Sq { OneCheckTarget(p.mail, p.turn, k, e, t); }
    hide OnTarget;
    assert !Between(k, e, e) && e in p.mail;
    GeneratedExact(p, k, ObstacleSet(k, e) + {e}, ObstacleSet(k, e));
  }

  lemma NothingElse(p: Pos, k: Sq)
    ensures forall a :: Generated(p, k, {}, {}, a) <==> KingMove(p.mail, p.turn, k, a)
  {}

  lemma TwoEvasions(p: Pos, k: Sq, e1: Sq, e2: Sq)
    requires PosOk(p) && KingAt(p.mail, p.turn, k) && e1 != e2
    requires Threat(p.mail, p.mail.Keys, p.turn.Opp(), e1, k) && Threat(p.mail, p.mail.Keys, p.turn.Opp(), e2, k)
    ensures forall a :: Answers(p, a) <==> KingMove(p.mail, p.turn, k, a)
  {
    forall t: Sq { TwoCheckTarget(p.mail, p.turn, k, e1, e2, t); }
    hide OnTarget;
    GeneratedExact(p, k, {}, {});
    NothingElse(p, k);
  }

  /** bm holds the checkers of the king on k: one or two. */
  ghost predicate CheckersAre(p: Pos, k: Sq, bm: BMap) {
    && PosOk(p) && KingAt(p.mail, p.turn, k) && (|bm| == 1 || |bm| == 2)
    && forall e: Sq :: e in bm <==> Threat(p.mail, p.mail.Keys, p.turn.Opp(), e, k)
  }

  lemma CheckerCount(p: Pos, k: Sq, bm: BMap)
    requires PosOk(p) && KingAt(p.mail, p.turn, k) && bm != {}
    requires forall e: Sq :: e in bm <==> Threat(p.mail, p.mail.Keys, p.turn.Opp(), e, k)
    ensures CheckersAre(p, k, bm)
  {
    assert AtMostTwoChecks(p.mail, p.turn);
    forall d, e, x | d in bm && e in bm && x in bm ensures d == e || e == x || d == x {}
    AtMostTwo(bm);
    hide PosOk, KingAt, Threat, AtMostTwoChecks;
  }

  lemma AtMostTwo(bm: BMap)
    requires bm != {} && forall d, e, x | d in bm && e in bm && x in bm :: d == e || e == x || d == x
    ensures |bm| == 1 || |bm| == 2
  {
    var d: Sq :| d in bm;
    if bm - {d} == {} {
      assert bm == {d};
    } else {
      var e: Sq :| e in bm - {d};
      assert bm == {d, e};
    }
  }

  lemma DoubleCheck(p: Pos, k: Sq, bm: BMap, moves: seq<Action>)
    requires CheckersAre(p, k, bm) && |bm| == 2 && Steps(moves, p.mail, p.turn, k)
    ensures Exactly(moves, p)
  {
    var d: Sq :| d in bm;
    assert |bm - {d}| == 1;
    var e: Sq :| e in bm - {d};
    TwoEvasions(p, k, d, e);
  }

  lemma SingleCheck(p: Pos, k: Sq, bm: BMap, e: Sq)
    requires CheckersAre(p, k, bm) && |bm| != 2 && e in bm
    ensures ObstacleSet(k, e) !! p.mail.Keys
    ensures AllGenerated(p, k, ObstacleSet(k, e) + {e}, ObstacleSet(k, e))
  {
    assert |bm - {e}| == 0;
    assert forall d: Sq | d in bm :: d == e;
    OneEvasion(p, k, e);
  }

  /** The board shows a good position with c to move and its king on k. */
  ghost predicate Standing(b: Board, c: Color, k: Sq)
    reads b
  {
    b.Valid() && KingsReal(b.mail, b.sqKings) && b.sqKings.At(c) == Some(k) && KingAt(b.mail, c, k)
        && PosOk(Pos(b.mail, b.hand, c))
  }

  ghost predicate Steps(moves: seq<Action>, mail: Mail, c: Color, k: Sq) {
    NoDup(moves) && forall a :: a in moves <==> KingMove(mail, c, k, a)
  }

  ghost predicate Lists(moves: seq<Action>, p: Pos, k: Sq, target: BMap, free: BMap) {
    NoDup(moves) && forall a :: a in moves <==> Generated(p, k, target, free, a)
  }

  lemma ListsExactly(moves: seq<Action>, p: Pos, k: Sq, target: BMap, free: BMap)
    requires Lists(moves, p, k, target, free) && AllGenerated(p, k, target, free)
    ensures Exactly(moves, p)
  {}

  /** moves lists every legal board action of p exactly once and nothing else. */
  ghost predicate Exactly(moves: seq<Action>, p: Pos) {
    NoDup(moves) && forall a :: a in moves <==> Answers(p, a)
  }

  class MoveSet {
    var moves: seq<Action>

    constructor ()
      ensures moves == []
    {
      moves := [];
    }

    method AddKing(m: Maps, mail: Mail, c: Color, k: Sq, to: Sq, ghost tos: BMap)
      requires Agree(mail, mail.Keys - {k}, m) && to in KingSet(k) - m.color.At(c) && to !in tos
      requires ListedKing(moves, mail, c, k, tos)
      modifies this
      ensures ListedKing(moves, mail, c, k, tos + {to})
    {
      KingMoveFrom(mail, m, c, k, to);
      AddedNoDup(King, c, k, to, King, CapAt(mail, to));
      OkFormOcc(mail, mail.Keys - {k}, m);
      hide Agree, ListedKing, Added, WellFormed, KingMove;
      if ToAttacker(m, c, to) != {} {
        hide ToAttacker;
        KingMore(moves, [], mail, c, k, tos, to);
        assert moves + [] == moves;
      } else {
        hide ToAttacker;
        KingMore(moves, Added(King, c, k, to, King, CapAt(mail, to)), mail, c, k, tos, to);
        moves := moves + Added(King, c, k, to, King, CapAt(mail, to));
      }
    }

    method KingLoop(m: Maps, mail: Mail, c: Color, k: Sq)
      requires Agree(mail, mail.Keys - {k}, m) && moves == []
      modifies this
      ensures ListedKing(moves, mail, c, k, KingSet(k) - m.color.At(c))
    {
      assert ListedKing(moves, mail, c, k, {});
      hide Agree, ListedKing;
      var bm := KingSet(k) - m.color.At(c);
      var rest := bm;
      assert bm - rest == {};
      while rest != {}
        invariant rest <= bm && ListedKing(moves, mail, c, k, bm - rest)
        decreases rest
      {
        var to := First(rest);
        AddKing(m, mail, c, k, to, bm - rest);
        assert (bm - rest) + {to} == bm - (rest - {to});
        rest := rest - {to};
      }
      assert bm - rest == bm;
    }

    /** gen_king: the king is lifted off the occupancy maps while its steps are tested. */
    method GenKing(b: Board, c: Color, k: Sq)
      requires Standing(b, c, k) && moves == []
      modifies this, b`maps
      ensures b.maps == old(b.maps) && Standing(b, c, k) && Steps(moves, b.mail, c, k)
    {
      ghost var mail, occ := b.mail, b.mail.Keys - {k};
      assert Flip(mail.Keys, {k}) == occ && Flip(occ, {k}) == mail.Keys;
      hide BoardOk, KingMove, Flip, Agree, KingAt, KingsReal, PosOk;
      b.ToggleRayPenetrate(k, mail.Keys);
      KingLoop(b.maps, b.mail, c, k);
      b.ToggleRayPenetrate(k, occ);
      OkMaps(mail, b.maps, b.sqKings, b.hand);
      OkMaps(mail, old(b.maps), b.sqKings, b.hand);
      AgreeUnique(mail, mail.Keys, b.maps, old(b.maps));
    }

    /** The tests gen_drop makes of one kind of piece on one square. */
    method DropsHere(b: Board, c: Color, to: Sq, pc: Pc) returns (adds: bool)
      requires b.Valid() && KingsReal(b.mail, b.sqKings) && to !in b.mail && HandOk(pc)
      modifies b`maps
      ensures b.maps == old(b.maps)
      ensures adds
            <==> CanExist(c, to, pc) && (pc == Pawn ==> !OwnPawnOnFile(b.mail, c, to.f) && !MateTest(b.mail, c, to))
    {
      if pc == Pawn {
        if !CanExist(c, to, Pawn) { return false; }
        OkMaps(b.mail, b.maps, b.sqKings, b.hand);
        if b.maps.pawnFile.At(c)[to.f] != 0 { return false; }
        hide BoardOk, MateTest, Agree;
        var mate := b.IsMateByDropPawn(c, Drop(to, Pawn));
        return !mate;
      }
      return CanExist(c, to, pc);
    }

    /** The inner loop of gen_drop. */
    method DropOn(b: Board, c: Color, ghost target: BMap, to: Sq, drops: seq<Pc>, ghost was: seq<Action>,
                  ghost tos: BMap)
      requires b.Valid() && KingsReal(b.mail, b.sqKings) && IsHeld(b.hand, c, drops)
      requires to in target && to !in b.mail && to !in tos && forall a | a in was :: a.Move?
      requires ListedDrops(was, moves, b.mail, b.hand, c, target, tos, to, {})
      modifies this, b`maps
      ensures b.maps == old(b.maps) && b.Valid()
      ensures ListedDrops(was, moves, b.mail, b.hand, c, target, tos, to, Kinds(drops))
    {
      hide BoardOk, ListedDrops, MateTest, OwnPawnOnFile, KingsReal;
      var u := 0;
      assert Kinds(drops[..0]) == {};
      while u < |drops|
        invariant 0 <= u <= |drops| && b.Valid() && b.maps == old(b.maps)
        invariant ListedDrops(was, moves, b.mail, b.hand, c, target, tos, to, Kinds(drops[..u]))
      {
        ghost var pcs := Kinds(drops[..u]);
        KindsNext(drops, u);
        var adds := DropsHere(b, c, to, drops[u]);
        DropMore(was, moves, b.mail, b.hand, c, target, tos, to, pcs, drops[u], adds);
        if adds { moves := moves + [Drop(to, drops[u])]; }
        u := u + 1;
      }
      assert drops[..u] == drops;
    }

    method GenDrop(b: Board, c: Color, target: BMap)
      requires b.Valid() && KingsReal(b.mail, b.sqKings) && target !! b.mail.Keys
      requires NoDup(moves) && forall a | a in moves :: a.Move?
      modifies this, b`maps
      ensures b.maps == old(b.maps) && b.Valid()
      ensures NoDup(moves) && forall a :: a in moves <==> a in old(moves) || DropShape(b.mail, b.hand, c, target, a)
    {
      ghost var was := moves;
      var drops := HeldKinds(b.hand, c);
      if drops == [] { return; }
      hide BoardOk, ListedDrops, IsHeld, DropShape, KingsReal;
      var rest := target;
      assert target - rest == {};
      ghost var at: Sq := Sq(0, 0);
      while rest != {}
        invariant rest <= target && b.Valid() && b.maps == old(b.maps)
        invariant ListedDrops(was, moves, b.mail, b.hand, c, target, target - rest, at, {})
        decreases rest
      {
        var to := First(rest);
        DropsElsewhere(was, moves, b.mail, b.hand, c, target, target - rest, at, to);
        DropOn(b, c, target, to, drops, was, target - rest);
        DropsOnDone(was, moves, b.mail, b.hand, c, target, target - rest, to, drops, at);
        assert (target - rest) + {to} == target - (rest - {to});
        rest := rest - {to};
      }
      assert target - rest == target;
    }

    method AddPawn(m: Maps, kings: Kings, mail: Mail, c: Color, ghost k: Sq, ghost target: BMap, to: Sq,
                   ghost was: seq<Action>, ghost tos: BMap)
      requires Agree(mail, mail.Keys, m) && kings.At(c) == Some(k) && KingAt(mail, c, k)
      requires to in m.pawnAtk.At(c) * target && to !in tos && OnlyKing(was, mail)
      requires ListedPawns(was, moves, mail, c, k, target, tos)
      modifies this
      ensures ListedPawns(was, moves, mail, c, k, target, tos + {to})
    {
      var from: Sq := PawnFrom(c, to);
      PawnAdded(mail, m, kings, c, k, target, from, to);
      OkForm(mail, m);
      var more := Added(Pawn, c, from, to, Pawn, CapAt(mail, to));
      hide Agree, PieceShape, Added, KingAt, CapAt, ListedPawns, WellFormed;
      if IsPinned(m, kings, c, from, to) {
        hide IsPinned;
        assert moves + [] == moves;
      } else {
        hide IsPinned;
        AddedNoDup(Pawn, c, from, to, Pawn, CapAt(mail, to));
        moves := moves + more;
      }
    }

    method PawnLoop(m: Maps, kings: Kings, mail: Mail, c: Color, ghost k: Sq, target: BMap)
      requires Agree(mail, mail.Keys, m) && kings.At(c) == Some(k) && KingAt(mail, c, k)
      requires OnlyKing(moves, mail) && NoDup(moves)
      modifies this
      ensures ListedPawns(old(moves), moves, mail, c, k, target, m.pawnAtk.At(c) * target)
    {
      ghost var was := moves;
      assert ListedPawns(was, moves, mail, c, k, target, {});
      hide Agree, PieceShape, KingAt, ListedPawns;
      var bm := m.pawnAtk.At(c) * target;
      var rest := bm;
      assert bm - rest == {};
      while rest != {}
        invariant rest <= bm && ListedPawns(was, moves, mail, c, k, target, bm - rest)
        decreases rest
      {
        var to := First(rest);
        AddPawn(m, kings, mail, c, k, target, to, was, bm - rest);
        assert (bm - rest) + {to} == bm - (rest - {to});
        rest := rest - {to};
      }
      assert bm - rest == bm;
    }

    method GenPawn(m: Maps, kings: Kings, mail: Mail, c: Color, ghost k: Sq, target: BMap)
      requires Agree(mail, mail.Keys, m) && kings.At(c) == Some(k) && KingAt(mail, c, k)
      requires OnlyKing(moves, mail) && NoDup(moves)
      modifies this
      ensures ListedPcs(old(moves), moves, mail, c, k, target, {Pawn})
    {
      hide Agree, KingAt, ListedPawns;
      PawnLoop(m, kings, mail, c, k, target);
      PawnsAll(old(moves), moves, mail, m, c, k, target);
    }

    /** One target of the inner loop of gen_nsg and gen_slider. */
    method AddUnlessPinned(m: Maps, kings: Kings, mail: Mail, c: Color, ghost k: Sq, g: Pc, ghost target: BMap,
                           from: Sq, to: Sq,
                           ghost was: seq<Action>, ghost tos: BMap)
      requires Agree(mail, mail.Keys, m) && kings.At(c) == Some(k) && KingAt(mail, c, k) && IsGroup(g)
      requires from in MenFrom(m, g, c) && to in AtkOf(m, g, c, from) * target && to !in tos
      requires Listed(was, moves, mail, c, k, g, target, {from}, tos)
      requires forall a | a in was :: !(a.Move? && a.from == from)
      modifies this
      ensures Listed(was, moves, mail, c, k, g, target, {from}, tos + {to})
    {
      AddedAll(mail, m, kings, c, k, g, target, from, to);
      var more := Added(g, c, from, to, mail[from].pc, CapAt(mail, to));
      hide Agree, AtkOf, MenFrom, GroupMove, Added, KingAt, CapAt, Listed;
      if IsPinned(m, kings, c, from, to) {
        hide IsPinned;
        assert moves + [] == moves;
      } else {
        hide IsPinned;
        AddedNoDup(g, c, from, to, mail[from].pc, CapAt(mail, to));
        moves := moves + more;
      }
    }

    /** The inner loop of gen_nsg and gen_slider: all moves of the piece on from. */
    method GenFrom(m: Maps, kings: Kings, mail: Mail, c: Color, ghost k: Sq, g: Pc, target: BMap, from: Sq)
      requires Agree(mail, mail.Keys, m) && kings.At(c) == Some(k) && KingAt(mail, c, k) && IsGroup(g)
          && from in MenFrom(m, g, c)
      requires NoDup(moves) && forall a | a in moves :: !(a.Move? && a.from == from)
      modifies this
      ensures Listed(old(moves), moves, mail, c, k, g, target, {from}, AtkOf(m, g, c, from) * target)
    {
      ghost var was := moves;
      var bm := AtkOf(m, g, c, from) * target;
      assert Listed(was, moves, mail, c, k, g, target, {from}, {});
      hide Agree, AtkOf, MenFrom, KingAt, Listed;
      var rest := bm;
      assert bm - rest == {};
      while rest != {}
        invariant rest <= bm && Listed(was, moves, mail, c, k, g, target, {from}, bm - rest)
        decreases rest
      {
        var to := First(rest);
        AddUnlessPinned(m, kings, mail, c, k, g, target, from, to, was, bm - rest);
        assert (bm - rest) + {to} == bm - (rest - {to});
        rest := rest - {to};
      }
      assert bm - rest == bm;
    }

    /** gen_nsg and gen_slider */
    method GenFromAll(m: Maps, kings: Kings, mail: Mail, c: Color, ghost k: Sq, g: Pc, target: BMap)
      requires Agree(mail, mail.Keys, m) && WellFormed(m) && kings.At(c) == Some(k) && KingAt(mail, c, k) && IsGroup(g)
      requires NoDup(moves) && forall a | a in moves :: !(a.Move? && a.from in MenFrom(m, g, c))
      modifies this
      ensures ListedFrom(old(moves), moves, mail, c, k, g, target, MenFrom(m, g, c))
    {
      ghost var m0 := moves;
      ListedNone(m0, mail, c, k, g, target);
      hide Agree, MenFrom, KingAt, AtkOf, Listed, ListedFrom, WellFormed;
      var bm := MenFrom(m, g, c);
      var rest := bm;
      assert bm - rest == {};
      while rest != {}
        invariant rest <= bm && ListedFrom(m0, moves, mail, c, k, g, target, bm - rest)
        decreases rest
      {
        var from := First(rest);
        ghost var m1 := moves;
        GenFrom(m, kings, mail, c, k, g, target, from);
        ListedFromMore(m0, m1, moves, mail, m, c, k, g, target, from, bm - rest);
        assert (bm - rest) + {from} == bm - (rest - {from});
        rest := rest - {from};
      }
      assert bm - rest == bm;
    }

    method GenGroup(m: Maps, kings: Kings, mail: Mail, c: Color, ghost k: Sq, g: Pc, target: BMap,
                    ghost was: seq<Action>, ghost pcs: set<Pc>)
      requires Agree(mail, mail.Keys, m) && kings.At(c) == Some(k) && KingAt(mail, c, k) && IsGroup(g)
      requires OnlyKing(was, mail) && pcs !! GroupPcs(g) && ListedPcs(was, moves, mail, c, k, target, pcs)
      modifies this
      ensures ListedPcs(was, moves, mail, c, k, target, pcs + GroupPcs(g))
    {
      OkForm(mail, m);
      hide Agree, MenFrom, KingAt, ListedFrom, GroupPcs, WellFormed;
      GenFromAll(m, kings, mail, c, k, g, target);
    }

    /** The moves of all men but the king to squares of target. */
    method GenPieces(m: Maps, kings: Kings, mail: Mail, c: Color, ghost k: Sq, target: BMap)
      requires Agree(mail, mail.Keys, m) && kings.At(c) == Some(k) && KingAt(mail, c, k)
      requires OnlyKing(moves, mail) && NoDup(moves)
      modifies this
      ensures ListedPcs(old(moves), moves, mail, c, k, target, NotKing())
    {
      ghost var was := moves;
      hide Agree, KingAt, ListedPcs, OnlyKing;
      GenPawn(m, kings, mail, c, k, target);
      GenGroup(m, kings, mail, c, k, Knight, target, was, {Pawn});
      GenGroup(m, kings, mail, c, k, Silver, target, was, {Pawn} + {Knight});
      ghost var pcs := {Pawn} + {Knight} + {Silver};
      GenGroup(m, kings, mail, c, k, Gold, target, was, pcs);
      pcs := pcs + GroupPcs(Gold);
      GenGroup(m, kings, mail, c, k, Lance, target, was, pcs);
      GenGroup(m, kings, mail, c, k, Bishop, target, was, pcs + {Lance});
      GenGroup(m, kings, mail, c, k, Horse, target, was, pcs + {Lance} + {Bishop});
      GenGroup(m, kings, mail, c, k, Rook, target, was, pcs + {Lance} + {Bishop} + {Horse});
      GenGroup(m, kings, mail, c, k, Dragon, target, was, pcs + {Lance} + {Bishop} + {Horse} + {Rook});
      assert pcs + {Lance} + {Bishop} + {Horse} + {Rook} + {Dragon} == NotKing();
    }

    /** King moves, then other men's moves, then drops. */
    method GenRest(b: Board, c: Color, ghost k: Sq, target: BMap, free: BMap)
      requires Standing(b, c, k) && free !! b.mail.Keys && Steps(moves, b.mail, c, k)
      modifies this, b`maps
      ensures b.maps == old(b.maps) && Lists(moves, Pos(b.mail, b.hand, c), k, target, free)
    {
      OkMaps(b.mail, b.maps, b.sqKings, b.hand);
      hide BoardOk, Agree, KingsReal, KingAt, KingMove, PieceShape, DropShape, OnlyKing, PosOk;
      GenPieces(b.maps, b.sqKings, b.mail, c, k, target);
      GenDrop(b, c, free);
    }

    /** gen_all_evation */
    method GenAllEvasion(b: Board, c: Color, k: Sq)
      requires Standing(b, c, k) && InCheck(b.mail, c) && moves == []
      modifies this, b`maps
      ensures b.maps == old(b.maps) && Exactly(moves, Pos(b.mail, b.hand, c))
    {
      ghost var p := Pos(b.mail, b.hand, c);
      var checkers := Checkers(b, c, k);
      hide *;
      GenKing(b, c, k);
      if |checkers| == 2 {
        DoubleCheck(p, k, checkers, moves);
        return;
      }
      GenOneEvasion(b, c, k, First(checkers), checkers);
    }

    /** gen_all_evation, from the only checker on */
    method GenOneEvasion(b: Board, c: Color, k: Sq, checker: Sq, ghost checkers: BMap)
      requires Standing(b, c, k) && Steps(moves, b.mail, c, k)
      requires CheckersAre(Pos(b.mail, b.hand, c), k, checkers) && |checkers| != 2 && checker in checkers
      modifies this, b`maps
      ensures b.maps == old(b.maps) && Exactly(moves, Pos(b.mail, b.hand, c))
    {
      hide *;
      var target, free := ObstacleSet(k, checker) + {checker}, ObstacleSet(k, checker);
      SingleCheck(Pos(b.mail, b.hand, c), k, checkers, checker);
      GenRest(b, c, k, target, free);
      ListsExactly(moves, Pos(b.mail, b.hand, c), k, target, free);
    }

    method Checkers(b: Board, c: Color, k: Sq) returns (checkers: BMap)
      requires Standing(b, c, k) && InCheck(b.mail, c)
      ensures CheckersAre(Pos(b.mail, b.hand, c), k, checkers) && checkers != {}
    {
      ghost var p := Pos(b.mail, b.hand, c);
      OkMaps(b.mail, b.maps, b.sqKings, b.hand);
      AttackersExact(b.mail, b.mail.Keys, b.maps, c, k);
      assert Attacked(b.mail, b.mail.Keys, c.Opp(), k);
      hide BoardOk, KingsReal, KingAt, PosOk, Threat, Agree, WellFormed, InCheck;
      checkers := ToAttacker(b.maps, c, k);
      hide ToAttacker;
      assert checkers != {} by { var e: Sq :| Threat(b.mail, b.mail.Keys, c.Opp(), e, k); assert e in checkers; }
      CheckerCount(p, k, checkers);
    }

    /** The targets out of check: squares without own men, and for drops the empty squares. */
    method FreeTargets(b: Board, c: Color, ghost k: Sq) returns (target: BMap, free: BMap)
      requires Standing(b, c, k) && !InCheck(b.mail, c)
      ensures free !! b.mail.Keys
      ensures AllGenerated(Pos(b.mail, b.hand, c), k, target, free)
    {
      OkMaps(b.mail, b.maps, b.sqKings, b.hand);
      target, free := Board81() - b.maps.color.At(c), Board81() - b.maps.all[RANK];
      NoEvasion(Pos(b.mail, b.hand, c), k);
    }

    /** gen_all_no_evation */
    method GenAllNoEvasion(b: Board, c: Color, k: Sq)
      requires Standing(b, c, k) && !InCheck(b.mail, c) && moves == []
      modifies this, b`maps
      ensures b.maps == old(b.maps) && Exactly(moves, Pos(b.mail, b.hand, c))
    {
      hide Standing, InCheck, Lists, Steps, AllGenerated, KingMove;
      var target, free := FreeTargets(b, c, k);
      GenKing(b, c, k);
      GenRest(b, c, k, target, free);
      ListsExactly(moves, Pos(b.mail, b.hand, c), k, target, free);
    }

    /** gen_all: exactly the legal board actions of the node's position, each once; the node is as before. */
    method GenAll(node: Node)
      requires node.Ok() && node.typ == Interior
      modifies this, node.board`maps
      ensures node.Ok() && node.board.maps == old(node.board.maps) && Exactly(moves, Last(node.hist))
      ensures |moves| < MAXSIZE_MOVES
    {
      ghost var p := Last(node.hist);
      var b, c := node.board, node.turn;
      CheckRecorded(node);
      assert Standing(b, c, b.sqKings.At(c).value);
      hide PosOk, Answers, InCheck, BoardOk, KingsReal, KingAt;
      moves := [];
      var k := b.sqKings.At(c).value;
      if node.IsIncheck() { GenAllEvasion(b, c, k); } else { GenAllNoEvasion(b, c, k); }
      ExactFits(moves, p);
    }
  }

  lemma ExactFits(moves: seq<Action>, p: Pos)
    requires PosOk(p) && Exactly(moves, p)
    ensures |moves| < MAXSIZE_MOVES
  {
    forall a | a in moves ensures Legal(p.mail, p.hand, p.turn, a) { assert Answers(p, a); }
    hide PosOk, Legal;
    LegalFew(moves, p);
  }

  lemma CheckRecorded(node: Node)
    requires node.Recorded()
    ensures node.lenPath + 1 < node.lenIncheck.Length
    ensures node.IsIncheck() <==> InCheck(Last(node.hist).mail, node.turn)
  {
    var checks := Checks(node.hist);
    hide Shows, InCheck;
    assert node.lenIncheck[node.lenPath + 1] == CheckRun(checks, node.lenPath);
  }

  ghost predicate ListedFrom(was: seq<Action>, moves: seq<Action>, mail: Mail, c: Color, k: Sq, g: Pc, target: BMap,
                             froms: BMap) {
    NoDup(moves) && forall a :: a in moves <==> a in was || (GroupMove(mail, c, k, g, target, a) && a.from in froms)
  }

  lemma ListedNone(m0: seq<Action>, mail: Mail, c: Color, k: Sq, g: Pc, target: BMap)
    requires NoDup(m0)
    ensures ListedFrom(m0, m0, mail, c, k, g, target, {})
  {}

  lemma ListedFromMore(was: seq<Action>, m1: seq<Action>, moves: seq<Action>, mail: Mail, m: Maps, c: Color, k: Sq,
                       g: Pc,
                       target: BMap, from: Sq, froms: BMap)
    requires Agree(mail, mail.Keys, m) && IsGroup(g) && ListedFrom(was, m1, mail, c, k, g, target, froms)
    requires Listed(m1, moves, mail, c, k, g, target, {from}, AtkOf(m, g, c, from) * target)
    ensures ListedFrom(was, moves, mail, c, k, g, target, froms + {from})
  {
    GroupEnds(mail, m, c, k, g, target);
    hide GroupMove, Agree, MenFrom, AtkOf;
  }

  lemma AddedNoDup(g: Pc, c: Color, from: Sq, to: Sq, pc: Pc, cap: Option<Pc>)
    ensures NoDup(Added(g, c, from, to, pc, cap))
  {}

  lemma OkFormOcc(mail: Mail, occ: BMap, m: Maps)
    requires Agree(mail, occ, m)
    ensures WellFormed(m)
  {}

  lemma OkForm(mail: Mail, m: Maps)
    requires Agree(mail, mail.Keys, m)
    ensures WellFormed(m)
  {}
}
