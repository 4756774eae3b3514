/** The redundant maps of a board (src/common/shogibase.hpp:448-459) and what putting one man on or taking
    one off does to each of them (src/common/shogibase.cpp:449-501). */
module ShogiBoardMaps {
  import opened ShogiGeometry
  import opened ShogiLegality
  import opened ShogiRules
  import opened ShogiRotation

  datatype Two<T> = Two(b: T, w: T) {
    function At(c: Color): T { if c == Black then b else w }
    function Put(c: Color, v: T): Two<T> { if c == Black then Two(v, w) else Two(b, v) }
  }

  /** _sq_kings and _hand_color. */
  datatype Kings = Kings(b: Option<Sq>, w: Option<Sq>) {
    function At(c: Color): Option<Sq> { if c == Black then b else w }
    function Put(c: Color, v: Option<Sq>): Kings { if c == Black then Kings(v, w) else Kings(b, v) }
  }
  datatype Totals = Totals(b: nat, w: nat) {
    function At(c: Color): nat { if c == Black then b else w }
    function Put(c: Color, v: nat): Totals { if c == Black then Totals(v, w) else Totals(b, v) }
  }

  /** A 64-bit key, as the set of its one bits; XOR is symmetric difference. */
  type Key = set<nat>
  function Xor(a: Key, b: Key): Key { (a - b) + (b - a) }

  /** The random keys of tbl_zkey.inc (keys not tabled count as zero); nothing depends on their values. */
  datatype ZTable = ZTable(turn: Key, sqs: map<(Man, Sq), Key>, hands: map<(Man, nat), Key>) {
    function sq(c: Color, pc: Pc, s: Sq): Key { if (Man(c, pc), s) in sqs then sqs[(Man(c, pc), s)] else {} }
    function hand(c: Color, pc: Pc, n: nat): Key { if (Man(c, pc), n) in hands then hands[(Man(c, pc), n)] else {} }
  }

  function Flip(a: BMap, b: BMap): BMap { (a - b) + (b - a) }

  // ----- what each redundant map should hold -----

  /** Sets of squares are kept by the way a piece moves; horse and dragon also count as kings. */
  predicate SubMobil(pc: Pc, k: Pc) {
    if IsUnpromo(pc) then pc == k
    else if pc == Horse then k == King || k == Bishop
    else if pc == Dragon then k == King || k == Rook
    else k == Gold
  }

  function SubOf(mail: Mail, c: Color, k: Pc): BMap { set s | s in mail && mail[s].c == c && SubMobil(mail[s].pc, k) }
  function ColorOf(mail: Mail, c: Color): BMap { set s | s in mail && mail[s].c == c }
  function MenOf(mail: Mail, man: Man): BMap { set s | s in mail && mail[s] == man }
  function PawnSet(c: Color, s: Sq): BMap { set t | t in Board81() && StepPawn(c, s, t) }
  function PawnAtkOf(mail: Mail, c: Color): BMap {
    set t | t in Board81() && exists s | s in mail :: mail[s] == Man(c, Pawn) && StepPawn(c, s, t)
  }
  function FileFlag(mail: Mail, c: Color, f: int): nat { if OwnPawnOnFile(mail, c, f) then 1 else 0 }

  /** Every man can exist where it stands, no colour has two pawns on a file or two kings. */
  ghost predicate Fits(mail: Mail) {
    && (forall s | s in mail :: CanExist(mail[s].c, s, mail[s].pc))
    && (forall s, t | s in mail && t in mail && mail[s] == mail[t] ::
          (mail[s].pc == Pawn && s.f == t.f) || mail[s].pc == King ==> s == t)
  }

  // ----- one man put on or taken off: effect on each map -----

  lemma PutSub(mail: Mail, s: Sq, man: Man, c: Color, k: Pc)
    requires s !in mail
    ensures SubOf(mail[s := man], c, k) ==
            if man.c == c && SubMobil(man.pc, k) then Flip(SubOf(mail, c, k), {s}) else SubOf(mail, c, k)
  {}

  lemma PutColor(mail: Mail, s: Sq, man: Man, c: Color)
    requires s !in mail
    ensures ColorOf(mail[s := man], c) == if man.c == c then Flip(ColorOf(mail, c), {s}) else ColorOf(mail, c)
  {}

  lemma PutMen(mail: Mail, s: Sq, man: Man, who: Man)
    requires s !in mail
    ensures MenOf(mail[s := man], who) == if man == who then Flip(MenOf(mail, who), {s}) else MenOf(mail, who)
  {}

  lemma PutPawnAtk(mail: Mail, s: Sq, man: Man, c: Color)
    requires s !in mail && Fits(mail[s := man])
    ensures PawnAtkOf(mail[s := man], c) ==
            if man == Man(c, Pawn) then Flip(PawnAtkOf(mail, c), PawnSet(c, s)) else PawnAtkOf(mail, c)
  {}

  lemma FitsLess(mail: Mail, s: Sq)
    requires Fits(mail)
    ensures Fits(mail - {s})
  {}

  lemma PutAll(ray: nat, occ: BMap, s: Sq)
    ensures Flip(RotMap(ray, occ), {Rot(ray, s)}) == RotMap(ray, Flip(occ, {s}))
  {}

  lemma FlipBack()
    ensures forall a: BMap, b: BMap :: Flip(Flip(a, b), b) == a
  {}

  // ----- all the maps together -----

  type SubMaps = map<Pc, BMap>

  /** The board maps of class Board: _bm_pawn_atk, _bm_sub_mobil, _bm_horse, _bm_dragon, _bm_color, _bm_all
      and _pawn_file. */
  datatype Maps = Maps(pawnAtk: Two<BMap>, sub: Two<SubMaps>, horse: Two<BMap>, dragon: Two<BMap>,
                       color: Two<BMap>, all: seq<BMap>, pawnFile: Two<seq<nat>>)

  ghost predicate SubKeys(sub: SubMaps) { forall k: Pc :: k in sub <==> IsUnpromo(k) }

  ghost predicate SubAgree(mail: Mail, sub: Two<SubMaps>) {
    forall c: Color :: SubKeys(sub.At(c)) && forall k: Pc | IsUnpromo(k) :: sub.At(c)[k] == SubOf(mail, c, k)
  }

  ghost predicate FlagsAgree(mail: Mail, p: Two<seq<nat>>) {
    forall c: Color :: |p.At(c)| == 9 && forall f | 0 <= f < 9 :: p.At(c)[f] == FileFlag(mail, c, f)
  }

  ghost predicate WellFormed(a: Maps) {
    && (forall c: Color :: SubKeys(a.sub.At(c)))
    && |a.all| == 4 && forall c: Color :: |a.pawnFile.At(c)| == 9
  }

  ghost predicate Agree(mail: Mail, occ: BMap, a: Maps) {
    && WellFormed(a)
    && SubAgree(mail, a.sub)
    && (forall c: Color :: a.pawnAtk.At(c) == PawnAtkOf(mail, c))
    && (forall c: Color :: a.horse.At(c) == MenOf(mail, Man(c, Horse)))
    && (forall c: Color :: a.dragon.At(c) == MenOf(mail, Man(c, Dragon)))
    && (forall c: Color :: a.color.At(c) == ColorOf(mail, c))
    && (forall ray | 0 <= ray < 4 :: a.all[ray] == RotMap(ray, occ))
    && FlagsAgree(mail, a.pawnFile)
  }

  /** toggle_ray_penetrate */
  function ToggleAll(all: seq<BMap>, s: Sq): seq<BMap>
  {
    seq(|all|, ray requires 0 <= ray < |all| => Flip(all[ray], {Rot(ray, s)}))
  }

  function ToggleSub(sub: SubMaps, k: Pc, s: Sq): SubMaps
    requires k in sub
  {
    sub[k := Flip(sub[k], {s})]
  }

  /** The branches that place_sq and remove_sq share: toggle a man's square in the maps by way of moving. */
  function ToggleMobil(sub: SubMaps, pc: Pc, s: Sq): SubMaps
    requires SubKeys(sub)
  {
    assert IsUnpromo(King) && IsUnpromo(Bishop) && IsUnpromo(Rook) && IsUnpromo(Gold);
    if IsUnpromo(pc) then ToggleSub(sub, pc, s)
    else if pc == Horse then ToggleSub(ToggleSub(sub, King, s), Bishop, s)
    else if pc == Dragon then ToggleSub(ToggleSub(sub, King, s), Rook, s)
    else ToggleSub(sub, Gold, s)
  }

  /** The map updates of place_sq (flag 1) and remove_sq (flag 0). */
  function Toggle(a: Maps, c: Color, pc: Pc, s: Sq, flag: nat): Maps
    requires WellFormed(a)
  {
    Maps(if pc == Pawn then a.pawnAtk.Put(c, Flip(a.pawnAtk.At(c), PawnSet(c, s))) else a.pawnAtk,
         a.sub.Put(c, ToggleMobil(a.sub.At(c), pc, s)),
         if pc == Horse then a.horse.Put(c, Flip(a.horse.At(c), {s})) else a.horse,
         if pc == Dragon then a.dragon.Put(c, Flip(a.dragon.At(c), {s})) else a.dragon,
         a.color.Put(c, Flip(a.color.At(c), {s})),
         ToggleAll(a.all, s),
         ToggleFlag(a.pawnFile, c, pc, s, flag))
  }

  function ToggleFlag(p: Two<seq<nat>>, c: Color, pc: Pc, s: Sq, flag: nat): (q: Two<seq<nat>>)
    requires forall c: Color :: |p.At(c)| == 9
    ensures forall c: Color :: |q.At(c)| == 9
  {
    assert p.At(Black) == p.b && p.At(White) == p.w;
    if pc == Pawn then p.Put(c, p.At(c)[s.f := flag]) else p
  }

  lemma ToggleMobilAt(sub: SubMaps, pc: Pc, s: Sq)
    requires SubKeys(sub)
    ensures SubKeys(ToggleMobil(sub, pc, s))
    ensures forall k: Pc | IsUnpromo(k) :: ToggleMobil(sub, pc, s)[k] == if SubMobil(pc, k) then Flip(sub[k], {s})
        else sub[k]
  {}

  lemma SubPut(mail: Mail, s: Sq, man: Man, sub: Two<SubMaps>)
    requires s !in mail && SubAgree(mail, sub)
    ensures SubAgree(mail[s := man], sub.Put(man.c, ToggleMobil(sub.At(man.c), man.pc, s)))
  {
    var t := sub.Put(man.c, ToggleMobil(sub.At(man.c), man.pc, s));
    ToggleMobilAt(sub.At(man.c), man.pc, s);
    forall c: Color ensures SubKeys(t.At(c)) &&
          forall k: Pc | IsUnpromo(k) :: t.At(c)[k] == SubOf(mail[s := man], c, k) {
      assert SubKeys(sub.At(c));
      forall k: Pc { PutSub(mail, s, man, c, k); }
    }
  }

  lemma SubRemove(mail: Mail, s: Sq, sub: Two<SubMaps>)
    requires s in mail && SubAgree(mail, sub)
    ensures SubAgree(mail - {s}, sub.Put(mail[s].c, ToggleMobil(sub.At(mail[s].c), mail[s].pc, s)))
  {
    var m, man := mail - {s}, mail[s];
    assert m[s := man] == mail;
    var t := sub.Put(man.c, ToggleMobil(sub.At(man.c), man.pc, s));
    ToggleMobilAt(sub.At(man.c), man.pc, s);
    forall c: Color ensures SubKeys(t.At(c)) && forall k: Pc | IsUnpromo(k) :: t.At(c)[k] == SubOf(m, c, k) {
      assert SubKeys(sub.At(c));
      forall k: Pc | IsUnpromo(k) ensures t.At(c)[k] == SubOf(m, c, k) { PutSub(m, s, man, c, k); }
    }
  }

  lemma FlagsPut(mail: Mail, s: Sq, man: Man, p: Two<seq<nat>>)
    requires s !in mail && Fits(mail[s := man]) && FlagsAgree(mail, p)
    ensures FlagsAgree(mail[s := man], if man.pc == Pawn then p.Put(man.c, p.At(man.c)[s.f := 1]) else p)
  {
    var q := if man.pc == Pawn then p.Put(man.c, p.At(man.c)[s.f := 1]) else p;
    forall c: Color ensures |q.At(c)| == 9 && forall f | 0 <= f < 9 :: q.At(c)[f] == FileFlag(mail[s := man], c, f) {
      assert |p.At(c)| == 9;
    }
  }

  lemma FlagsRemove(mail: Mail, s: Sq, p: Two<seq<nat>>)
    requires s in mail && Fits(mail) && FlagsAgree(mail, p)
    ensures FlagsAgree(mail - {s}, if mail[s].pc == Pawn then p.Put(mail[s].c, p.At(mail[s].c)[s.f := 0]) else p)
  {
    var m, man := mail - {s}, mail[s];
    assert m[s := man] == mail;
    var q := if man.pc == Pawn then p.Put(man.c, p.At(man.c)[s.f := 0]) else p;
    forall c: Color ensures |q.At(c)| == 9 && forall f | 0 <= f < 9 :: q.At(c)[f] == FileFlag(m, c, f) {
      assert |p.At(c)| == 9;
      forall f | 0 <= f < 9 ensures q.At(c)[f] == FileFlag(m, c, f) {}
    }
  }

  lemma AgreePut(mail: Mail, occ: BMap, s: Sq, man: Man, a: Maps)
    requires s !in mail && Fits(mail[s := man]) && Agree(mail, occ, a)
    ensures Agree(mail[s := man], Flip(occ, {s}), Toggle(a, man.c, man.pc, s, 1))
  {
    var m, b := mail[s := man], Toggle(a, man.c, man.pc, s, 1);
    SubPut(mail, s, man, a.sub);
    forall c: Color ensures b.pawnAtk.At(c) == PawnAtkOf(m, c) && b.color.At(c) == ColorOf(m, c) {
      PutPawnAtk(mail, s, man, c);
      PutColor(mail, s, man, c);
    }
    forall c: Color ensures b.horse.At(c) == MenOf(m, Man(c, Horse)) && b.dragon.At(c) == MenOf(m, Man(c, Dragon)) {
      PutMen(mail, s, man, Man(c, Horse));
      PutMen(mail, s, man, Man(c, Dragon));
    }
    forall ray | 0 <= ray < 4 ensures b.all[ray] == RotMap(ray, Flip(occ, {s})) { PutAll(ray, occ, s); }
    FlagsPut(mail, s, man, a.pawnFile);
  }

  lemma AgreeRemove(mail: Mail, occ: BMap, s: Sq, a: Maps)
    requires s in mail && Fits(mail) && Agree(mail, occ, a)
    ensures Agree(mail - {s}, Flip(occ, {s}), Toggle(a, mail[s].c, mail[s].pc, s, 0))
  {
    var m, man := mail - {s}, mail[s];
    var b := Toggle(a, man.c, man.pc, s, 0);
    assert m[s := man] == mail;
    FlipBack();
    SubRemove(mail, s, a.sub);
    forall c: Color ensures b.pawnAtk.At(c) == PawnAtkOf(m, c) && b.color.At(c) == ColorOf(m, c) {
      PutPawnAtk(m, s, man, c);
      PutColor(m, s, man, c);
    }
    forall c: Color ensures b.horse.At(c) == MenOf(m, Man(c, Horse)) && b.dragon.At(c) == MenOf(m, Man(c, Dragon)) {
      PutMen(m, s, man, Man(c, Horse));
      PutMen(m, s, man, Man(c, Dragon));
    }
    forall ray | 0 <= ray < 4 ensures b.all[ray] == RotMap(ray, Flip(occ, {s})) { PutAll(ray, occ, s); }
    FlagsRemove(mail, s, a.pawnFile);
  }

  /** The whole board agrees with its mailbox; occ is what the occupancy maps hold. */
  ghost predicate BoardOk(mail: Mail, occ: BMap, maps: Maps, kings: Kings, hand: Hands) {
    && Fits(mail) && Agree(mail, occ, maps)
    && (forall s | s in mail && mail[s].pc == King :: kings.At(mail[s].c) == Some(s))
    && (forall c: Color, k: Pc :: (c, k) in hand <==> HandOk(k))
  }

  function KingPut(kings: Kings, man: Man, s: Sq): Kings {
    if man.pc == King then kings.Put(man.c, Some(s)) else kings
  }

  lemma OkToggle(mail: Mail, occ: BMap, maps: Maps, kings: Kings, hand: Hands, s: Sq)
    requires BoardOk(mail, occ, maps, kings, hand)
    ensures BoardOk(mail, Flip(occ, {s}), maps.(all := ToggleAll(maps.all, s)), kings, hand)
  {
    forall ray | 0 <= ray < 4
      ensures ToggleAll(maps.all, s)[ray] == RotMap(ray, Flip(occ, {s}))
    {
      PutAll(ray, occ, s);
    }
  }

  lemma OkPut(mail: Mail, maps: Maps, kings: Kings, hand: Hands, s: Sq, man: Man)
    requires BoardOk(mail, mail.Keys, maps, kings, hand) && s !in mail && Fits(mail[s := man])
    ensures WellFormed(maps)
    ensures var m := mail[s := man]; BoardOk(m, m.Keys, Toggle(maps, man.c, man.pc, s, 1), KingPut(kings, man, s), hand)
  {
    var m := mail[s := man];
    AgreePut(mail, mail.Keys, s, man, maps);
    forall q | q in m && m[q].pc == King ensures KingPut(kings, man, s).At(m[q].c) == Some(q) {
      if q != s && man.pc == King { assert m[q] != m[s]; }
    }
  }

  lemma OkRemove(mail: Mail, maps: Maps, kings: Kings, hand: Hands, s: Sq)
    requires BoardOk(mail, mail.Keys, maps, kings, hand) && s in mail
    ensures WellFormed(maps)
    ensures var m := mail - {s}; BoardOk(m, m.Keys, Toggle(maps, mail[s].c, mail[s].pc, s, 0), kings, hand)
  {
    AgreeRemove(mail, mail.Keys, s, maps);
  }

  lemma OkHand(mail: Mail, maps: Maps, kings: Kings, hand: Hands, c: Color, pc: Pc, n: nat)
    requires BoardOk(mail, mail.Keys, maps, kings, hand) && HandOk(pc)
    ensures BoardOk(mail, mail.Keys, maps, kings, hand[(c, pc) := n])
  {}

  // ----- the cleared board -----

  function EmptySubs(): SubMaps {
    map[Pawn := {}, Lance := {}, Knight := {}, Silver := {}, Gold := {}, Bishop := {}, Rook := {}, King := {}]
  }
  function EmptyMaps(): Maps {
    var none := Two({}, {});
    Maps(none, Two(EmptySubs(), EmptySubs()), none, none, none, [{}, {}, {}, {}],
         Two([0, 0, 0, 0, 0, 0, 0, 0, 0], [0, 0, 0, 0, 0, 0, 0, 0, 0]))
  }
  function EmptyHands(): (h: Hands)
    ensures forall c: Color, k: Pc :: ((c, k) in h <==> HandOk(k)) && Held(h, c, k) == 0
  {
    map c: Color, k: Pc | HandOk(k) :: (c, k) := 0
  }

  lemma EmptyOk()
    ensures BoardOk(map[], {}, EmptyMaps(), Kings(None, None), EmptyHands())
  {
    var m: Mail, a := map[], EmptyMaps();
    assert forall k: Pc :: k in EmptySubs() <==> IsUnpromo(k);
    assert forall c: Color :: a.sub.At(c) == EmptySubs() && SubKeys(a.sub.At(c));
    assert forall c: Color, k: Pc | IsUnpromo(k) :: EmptySubs()[k] == SubOf(m, c, k);
    assert SubAgree(m, a.sub);
  }

  /** The mailbox and the occupancy determine every map. */
  lemma AgreeUnique(mail: Mail, occ: BMap, a: Maps, b: Maps)
    requires Agree(mail, occ, a) && Agree(mail, occ, b)
    ensures a == b
  {
    forall c: Color ensures a.sub.At(c) == b.sub.At(c) && a.pawnAtk.At(c) == b.pawnAtk.At(c)
        && a.horse.At(c) == b.horse.At(c)
                         && a.dragon.At(c) == b.dragon.At(c) && a.color.At(c) == b.color.At(c)
                         && a.pawnFile.At(c) == b.pawnFile.At(c) {
      assert SubKeys(a.sub.At(c)) && SubKeys(b.sub.At(c));
    }
    TwoEqual(a.sub, b.sub);
    TwoEqual(a.pawnAtk, b.pawnAtk);
    TwoEqual(a.horse, b.horse);
    TwoEqual(a.dragon, b.dragon);
    TwoEqual(a.color, b.color);
    TwoEqual(a.pawnFile, b.pawnFile);
    assert a.all == b.all;
  }

  lemma TwoEqual<T>(a: Two<T>, b: Two<T>)
    requires a.At(Black) == b.At(Black) && a.At(White) == b.At(White)
    ensures a == b
  {}
}
