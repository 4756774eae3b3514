/** The board queries answered from the bit maps: attackers of a square, pins, check
    (src/common/shogibase.cpp:401-443, src/common/shogibase.hpp:479-513). */
module ShogiQueries {
  import opened ShogiGeometry
  import opened ShogiLegality
  import opened ShogiRules
  import opened ShogiRotation
  import opened ShogiBoardMaps

  // tables tbl_sq_atk and tbl_sq_atk_king as sets
  function LanceSet(c: Color, s: Sq): BMap { set t | t in Board81() && StepLance(c, s, t) }
  function KnightSet(c: Color, s: Sq): BMap { set t | t in Board81() && StepKnight(c, s, t) }
  function SilverSet(c: Color, s: Sq): BMap { set t | t in Board81() && StepSilver(c, s, t) }
  function GoldSet(c: Color, s: Sq): BMap { set t | t in Board81() && StepGold(c, s, t) }
  function KingSet(s: Sq): BMap { set t | t in Board81() && StepKing(s, t) }

  /** Board::to_atk */
  function ToAtk(m: Maps, s: Sq, ray: nat): BMap
    requires |m.all| == 4 && ray < 4
  {
    Lookup(m.all[ray], ray, s)
  }
  function AtkBishop(m: Maps, s: Sq): BMap
    requires |m.all| == 4
  {
    ToAtk(m, s, DIAG1) + ToAtk(m, s, DIAG2)
  }
  function AtkRook(m: Maps, s: Sq): BMap
    requires |m.all| == 4
  {
    ToAtk(m, s, RANK) + ToAtk(m, s, FILE)
  }

  /** Board::to_attacker: enemies of c attacking s, found by moving each kind of piece out of s. */
  function ToAttacker(m: Maps, c: Color, s: Sq): BMap
    requires WellFormed(m)
  {
    var sub, rook := m.sub.At(c.Opp()), AtkRook(m, s);
    assert UnpromoKeys(sub) by { assert SubKeys(sub); }
    sub[Pawn] * PawnSet(c, s) + sub[Lance] * LanceSet(c, s) * rook + sub[Knight] * KnightSet(c, s)
    + sub[Silver] * SilverSet(c, s) + sub[Gold] * GoldSet(c, s) + sub[King] * KingSet(s)
    + sub[Bishop] * AtkBishop(m, s) + sub[Rook] * rook
  }

  /** Board::is_pinned */
  predicate IsPinned(m: Maps, kings: Kings, c: Color, from: Sq, to: Sq)
    requires WellFormed(m)
  {
    assert IsUnpromo(Lance) && IsUnpromo(Bishop) && IsUnpromo(Rook);
    match kings.At(c)
    case None => false
    case Some(k) =>
      var ray := Ray(k, from);
      if ray == NORAY || ray == Ray(k, to) then false
      else
        var line, sub := ToAtk(m, from, ray), m.sub.At(c.Opp());
        assert Lance in sub && Bishop in sub && Rook in sub;
        if k !in line then false
        else if ray == RANK then line * sub[Rook] != {}
        else if ray == FILE then line * (sub[Lance] * LanceSet(c, from) + sub[Rook]) != {}
        else line * sub[Bishop] != {}
  }

  predicate IsInCheck(m: Maps, kings: Kings, c: Color)
    requires WellFormed(m)
  {
    match kings.At(c)
    case None => false
    case Some(k) => ToAttacker(m, c, k) != {}
  }

  /** Each colour's king square holds its king. */
  predicate KingsReal(mail: Mail, kings: Kings) {
    forall c: Color :: kings.At(c).Some? ==> kings.At(c).value in mail && mail[kings.At(c).value] == Man(c, King)
  }

  lemma KingsRealAt(mail: Mail, kings: Kings, c: Color, k: Sq)
    requires Fits(mail) && KingsReal(mail, kings) && kings.At(c) == Some(k)
    ensures KingAt(mail, c, k)
  {}

  lemma InAttacker(m: Maps, c: Color, s: Sq, e: Sq)
    requires WellFormed(m) && UnpromoKeys(m.sub.At(c.Opp()))
    ensures var sub := m.sub.At(c.Opp());
      e in ToAttacker(m, c, s) <==>
        (e in sub[Pawn] && e in PawnSet(c, s)) || (e in sub[Lance] && e in LanceSet(c, s) && e in AtkRook(m, s))
        || (e in sub[Knight] && e in KnightSet(c, s)) || (e in sub[Silver] && e in SilverSet(c, s))
        || (e in sub[Gold] && e in GoldSet(c, s)) || (e in sub[King] && e in KingSet(s))
        || (e in sub[Bishop] && e in AtkBishop(m, s)) || (e in sub[Rook] && e in AtkRook(m, s))
  {
    hide AtkRook, AtkBishop, PawnSet, LanceSet, KnightSet, SilverSet, GoldSet, KingSet, SubKeys;
  }

  lemma InSliders(m: Maps, occ: BMap, s: Sq, e: Sq)
    requires |m.all| == 4 && forall ray | 0 <= ray < 4 :: m.all[ray] == RotMap(ray, occ)
    ensures e in AtkRook(m, s) <==> (Ray(s, e) == RANK || Ray(s, e) == FILE) && Sees(occ, s, e)
    ensures e in AtkBishop(m, s) <==> (Ray(s, e) == DIAG1 || Ray(s, e) == DIAG2) && Sees(occ, s, e)
  {
    LookupSees(occ, RANK, s);
    LookupSees(occ, FILE, s);
    LookupSees(occ, DIAG1, s);
    LookupSees(occ, DIAG2, s);
  }

  predicate UnpromoKeys(sub: SubMaps) {
    Pawn in sub && Lance in sub && Knight in sub && Silver in sub && Gold in sub && Bishop in sub && Rook in sub
        && King in sub
  }

  /** The reverse lookup finds exactly the men that threaten the square. */
  lemma AttackersExact(mail: Mail, occ: BMap, m: Maps, c: Color, s: Sq)
    requires Agree(mail, occ, m)
    ensures forall e: Sq :: e in ToAttacker(m, c, s) <==> Threat(mail, occ, c.Opp(), e, s)
  {
    forall e: Sq ensures e in ToAttacker(m, c, s) <==> Threat(mail, occ, c.Opp(), e, s) {
      AttackerExact(mail, occ, m, c, s, e);
    }
  }

  lemma AttackerExact(mail: Mail, occ: BMap, m: Maps, c: Color, s: Sq, e: Sq)
    requires Agree(mail, occ, m)
    ensures e in ToAttacker(m, c, s) <==> Threat(mail, occ, c.Opp(), e, s)
  {
    var x, sub := c.Opp(), m.sub.At(c.Opp());
    assert SubKeys(sub);
    InAttacker(m, c, s, e);
    InSliders(m, occ, s, e);
    assert forall k: Pc | IsUnpromo(k) :: sub[k] == SubOf(mail, x, k);
    if e in mail && mail[e].c == x { ReverseAttack(mail[e].pc, x, occ, e, s); }
  }

  /** A piece of x on e attacks s exactly when a piece of the other colour moving that way from s meets e. */
  lemma ReverseAttack(pc: Pc, x: Color, occ: BMap, e: Sq, s: Sq)
    ensures Attacks(pc, x, occ, e, s) <==>
            var c := x.Opp(); var see := Sees(occ, s, e); var ray := Ray(s, e);
            (SubMobil(pc, Pawn) && StepPawn(c, s, e))
            || (SubMobil(pc, Lance) && StepLance(c, s, e) && see)
            || (SubMobil(pc, Knight) && StepKnight(c, s, e)) || (SubMobil(pc, Silver) && StepSilver(c, s, e))
            || (SubMobil(pc, Gold) && StepGold(c, s, e)) || (SubMobil(pc, King) && StepKing(s, e))
            || (SubMobil(pc, Bishop) && (ray == DIAG1 || ray == DIAG2) && see)
            || (SubMobil(pc, Rook) && (ray == RANK || ray == FILE) && see)
  {}

  lemma CheckExact(mail: Mail, m: Maps, kings: Kings, hand: Hands, c: Color)
    requires BoardOk(mail, mail.Keys, m, kings, hand) && KingsReal(mail, kings)
    ensures IsInCheck(m, kings, c) <==> InCheck(mail, c)
  {
    if kings.At(c).Some? {
      var k := kings.At(c).value;
      AttackersExact(mail, mail.Keys, m, c, k);
      KingsRealAt(mail, kings, c, k);
      if ToAttacker(m, c, k) != {} {
        var e: Sq :| e in ToAttacker(m, c, k);
        assert Threat(mail, mail.Keys, c.Opp(), e, k);
      }
    }
  }

  // ----- pins -----

  /** A slider of x that, standing on e and looking along the line through from, attacks towards from. */
  lemma LineKind(mail: Mail, occ: BMap, m: Maps, c: Color, k: Sq, from: Sq, e: Sq)
    requires Agree(mail, occ, m) && Between(k, e, from)
    ensures var sub, ray := m.sub.At(c.Opp()), Ray(k, from);
            SubKeys(sub) && ray != NORAY && Rook in sub && Bishop in sub && Lance in sub &&
            ((e in mail && mail[e].c == c.Opp() && LineOf(mail[e].pc, c.Opp(), e, k)) <==>
              if ray == RANK then e in sub[Rook]
              else if ray == FILE then e in sub[Rook] || (e in sub[Lance] && StepLance(c, from, e))
              else e in sub[Bishop])
  {}

  lemma PinExact(mail: Mail, m: Maps, kings: Kings, c: Color, k: Sq, from: Sq, to: Sq)
    requires Agree(mail, mail.Keys, m) && kings.At(c) == Some(k) && KingAt(mail, c, k)
    requires from in mail && mail[from].c == c
    ensures IsPinned(m, kings, c, from, to) <==> Pinned(mail, c.Opp(), k, from, to)
  {
    if Ray(k, from) != NORAY && Ray(k, from) != Ray(k, to) && IsPinned(m, kings, c, from, to) {
      var e := PinWitness(mail, m, kings, c, k, from, to);
    }
    if Pinned(mail, c.Opp(), k, from, to) {
      var e: Sq :| PinnedBy(mail, c.Opp(), k, from, to, e);
      PinFound(mail, m, kings, c, k, from, to, e);
    }
  }

  lemma PinFound(mail: Mail, m: Maps, kings: Kings, c: Color, k: Sq, from: Sq, to: Sq, e: Sq)
    requires Agree(mail, mail.Keys, m) && kings.At(c) == Some(k) && k in mail
    requires PinnedBy(mail, c.Opp(), k, from, to, e)
    ensures IsPinned(m, kings, c, from, to)
  {
    var ray := Ray(k, from);
    LookupSees(mail.Keys, ray, from);
    LineKind(mail, mail.Keys, m, c, k, from, e);
    var line, sub := ToAtk(m, from, ray), m.sub.At(c.Opp());
    assert e in line && k in line;
    if ray == RANK { assert e in line * sub[Rook]; }
    else if ray == FILE { assert e in line * (sub[Lance] * LanceSet(c, from) + sub[Rook]); }
    else { assert e in line * sub[Bishop]; }
  }

  lemma PinWitness(mail: Mail, m: Maps, kings: Kings, c: Color, k: Sq, from: Sq, to: Sq) returns (e: Sq)
    requires Agree(mail, mail.Keys, m) && kings.At(c) == Some(k) && KingAt(mail, c, k)
    requires from in mail && mail[from].c == c
    requires Ray(k, from) != NORAY && Ray(k, from) != Ray(k, to) && IsPinned(m, kings, c, from, to)
    ensures PinnedBy(mail, c.Opp(), k, from, to, e)
  {
    var ray, occ, sub := Ray(k, from), mail.Keys, m.sub.At(c.Opp());
    LookupSees(occ, ray, from);
    var line := ToAtk(m, from, ray);
    assert SubKeys(sub) && IsUnpromo(Lance) && IsUnpromo(Bishop) && IsUnpromo(Rook);
    if ray == RANK { e :| e in line * sub[Rook]; }
    else if ray == FILE { e :| e in line * (sub[Lance] * LanceSet(c, from) + sub[Rook]); }
    else { e :| e in line * sub[Bishop]; }
    assert e in mail && e != k;
    if !Between(k, e, from) { FirstBlockerUnique(occ, from, e, k); }
    LineKind(mail, occ, m, c, k, from, e);
  }

  // ----- the cheap legality test -----

  function ObstacleSet(a: Sq, b: Sq): BMap { set x | x in Board81() && Between(a, b, x) }

  /** Board::action_ok_easy, from the maps. */
  predicate ActionOkEasy(mail: Mail, m: Maps, hand: Hands, c: Color, a: Action)
    requires WellFormed(m)
  {
    match a
    case Drop(to, pc) =>
      && HandOk(pc) && CanExist(c, to, pc) && to !in mail && Held(hand, c, pc) > 0
      && (pc == Pawn ==> m.pawnFile.At(c)[to.f] == 0)
    case Move(from, to, pc, cap, promote) =>
      && from in mail && mail[from] == Man(c, pc)
      && (match cap case Some(p) => to in mail && mail[to] == Man(c.Opp(), p) case None => to !in mail)
      && (if promote then ZonePromote(c, from, to) else CanExist(c, to, pc))
      && (IsSlider(pc) ==> ObstacleSet(from, to) * m.all[RANK] == {})
    case Resign => true
    case WinDecl => true
    case Bad => false
  }

  lemma EasyExact(mail: Mail, m: Maps, hand: Hands, c: Color, a: Action)
    requires Agree(mail, mail.Keys, m)
    ensures ActionOkEasy(mail, m, hand, c, a) <==> EasyOk(mail, hand, c, a)
  {
    if a.Drop? {
      assert m.pawnFile.At(c)[a.to.f] == FileFlag(mail, c, a.to.f);
    } else if a.Move? {
      assert m.all[RANK] == mail.Keys by {
        forall q: Sq ensures q in m.all[RANK] <==> q in mail.Keys {}
      }
      assert ObstacleSet(a.from, a.to) * m.all[RANK] == {} <==> forall x | x in mail :: !Between(a.from, a.to, x) by {
        forall x | x in mail && Between(a.from, a.to, x) ensures x in ObstacleSet(a.from, a.to) * m.all[RANK] {}
      }
    }
  }

  // ----- captures of a dropped pawn -----

  /** The men of c.Opp(), other than the king on k, pawns and lances, that attack to (is_mate_by_drop_pawn). */
  function Takers(m: Maps, c: Color, k: Sq, to: Sq): BMap
    requires WellFormed(m)
  {
    var sub := m.sub.At(c.Opp());
    assert UnpromoKeys(sub) by { assert SubKeys(sub); }
    sub[Knight] * KnightSet(c, to) + sub[Silver] * SilverSet(c, to) + sub[Gold] * GoldSet(c, to)
    + sub[Bishop] * AtkBishop(m, to) + sub[Rook] * AtkRook(m, to) + (sub[King] - {k}) * KingSet(to)
  }

  lemma InTakers(m: Maps, c: Color, k: Sq, to: Sq, e: Sq)
    requires WellFormed(m) && UnpromoKeys(m.sub.At(c.Opp()))
    ensures var sub := m.sub.At(c.Opp());
      e in Takers(m, c, k, to) <==>
        (e in sub[Knight] && e in KnightSet(c, to)) || (e in sub[Silver] && e in SilverSet(c, to))
        || (e in sub[Gold] && e in GoldSet(c, to)) || (e in sub[Bishop] && e in AtkBishop(m, to))
        || (e in sub[Rook] && e in AtkRook(m, to)) || (e in sub[King] && e != k && e in KingSet(to))
  {}

  lemma TakersExact(mail: Mail, m: Maps, c: Color, k: Sq, to: Sq, e: Sq)
    requires Agree(mail, mail.Keys, m) && KingAt(mail, c.Opp(), k)
    ensures e in Takers(m, c, k, to) <==> CanTakePawn(mail, c.Opp(), k, to, e)
  {
    var x, sub := c.Opp(), m.sub.At(c.Opp());
    assert SubKeys(sub);
    InTakers(m, c, k, to, e);
    InSliders(m, mail.Keys, to, e);
    assert forall q: Pc | IsUnpromo(q) :: sub[q] == SubOf(mail, x, q);
    if e in mail && mail[e].c == x { ReverseAttack(mail[e].pc, x, mail.Keys, e, to); }
  }

  lemma NoCaptureExact(mail: Mail, m: Maps, kings: Kings, c: Color, k: Sq, to: Sq)
    requires Agree(mail, mail.Keys, m) && kings.At(c.Opp()) == Some(k) && KingAt(mail, c.Opp(), k)
    ensures (forall e | e in Takers(m, c, k, to) :: IsPinned(m, kings, c.Opp(), e, to)) <==> NoCapture(mail, c, k, to)
  {
    forall e: Sq ensures (e in Takers(m, c, k, to) ==> IsPinned(m, kings, c.Opp(), e, to)) <==>
                         (CanTakePawn(mail, c.Opp(), k, to, e) ==> Pinned(mail, c, k, e, to)) {
      TakersExact(mail, m, c, k, to, e);
      if e in mail && mail[e].c == c.Opp() { PinExact(mail, m, kings, c.Opp(), k, e, to); }
    }
    hide Takers, IsPinned, CanTakePawn, Pinned;
  }

  lemma AttackedExact(mail: Mail, occ: BMap, m: Maps, c: Color, s: Sq)
    requires Agree(mail, occ, m)
    ensures ToAttacker(m, c, s) != {} <==> Attacked(mail, occ, c.Opp(), s)
  {
    AttackersExact(mail, occ, m, c, s);
    hide ToAttacker, Threat;
    if ToAttacker(m, c, s) != {} {
      var e: Sq :| e in ToAttacker(m, c, s);
      assert Threat(mail, occ, c.Opp(), e, s);
    }
  }

  lemma NoEscapeExact(mail: Mail, m: Maps, c: Color, k: Sq, to: Sq)
    requires Agree(mail, mail.Keys + {to}, m)
    ensures (forall t | t in KingSet(k) - m.color.At(c.Opp()) :: ToAttacker(m, c.Opp(), t) != {})
        <==> NoEscape(mail, c, k, to)
  {
    forall t: Sq ensures ToAttacker(m, c.Opp(), t) != {} <==> Attacked(mail, mail.Keys + {to}, c, t) {
      AttackedExact(mail, mail.Keys + {to}, m, c.Opp(), t);
    }
    assert m.color.At(c.Opp()) == ColorOf(mail, c.Opp());
    hide ToAttacker, Attacked;
    assert forall t: Sq ::
      t in KingSet(k) - m.color.At(c.Opp()) <==> StepKing(k, t) && !(t in mail && mail[t].c == c.Opp());
  }
}
