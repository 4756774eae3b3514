/** The board object and its updates (class Board, src/common/shogibase.hpp:436-532 and
    src/common/shogibase.cpp:348-399, 445-559). */
module ShogiBoard {
  import opened ShogiGeometry
  import opened ShogiLegality
  import opened ShogiRules
  import opened ShogiRotation
  import opened ShogiBoardMaps
  import opened ShogiQueries

  /** pop_f: the square of lowest index. */
  function First(bm: BMap): (s: Sq)
    requires bm != {}
    ensures s in bm && forall t | t in bm :: Idx(s) <= Idx(t)
  {
    FirstFrom(bm, 0)
  }
  function FirstFrom(bm: BMap, u: nat): (s: Sq)
    requires bm != {} && u <= 81 && forall t | t in bm :: u <= Idx(t)
    ensures s in bm && forall t | t in bm :: Idx(s) <= Idx(t)
    decreases 81 - u
  {
    if u < 81 && SqAt(u) in bm then SqAt(u)
    else
      assert u < 81 by { var t: Sq :| t in bm; assert Idx(t) <= 80; }
      assert forall t | t in bm :: Idx(t) == u ==> t == SqAt(u);
      FirstFrom(bm, u + 1)
  }

  /** The square's index as colour c counts it. */
  function RelIdx(c: Color, s: Sq): nat { if c == Black then Idx(s) else 80 - Idx(s) }

  // ----- what an action does to hands, hand totals and key -----

  /** Pc::num_array: how many pieces of a kind a full set holds. */
  function NumArray(pc: Pc): nat { if pc == Pawn then 18 else if pc == Bishop || pc == Rook then 2 else 4 }

  function AfterHand(hand: Hands, c: Color, a: Action): Hands
    requires a.IsMove()
  {
    if a.Drop? then (if Held(hand, c, a.pc) > 0 then hand[(c, a.pc) := Held(hand, c, a.pc) - 1] else hand)
    else if a.cap.Some? then hand[(c, ToUnpro(a.cap.value)) := Held(hand, c, ToUnpro(a.cap.value)) + 1]
    else hand
  }

  function AfterTotals(t: Totals, c: Color, a: Action): Totals
    requires a.IsMove()
  {
    if a.Drop? then (if t.At(c) > 0 then t.Put(c, t.At(c) - 1) else t)
    else if a.cap.Some? then t.Put(c, t.At(c) + 1)
    else t
  }

  /** The keys of men and hands that update XORs, in its order. */
  function MenKey(z: ZTable, key: Key, hand: Hands, c: Color, a: Action): Key
    requires a.IsMove() && a.Ok() && (a.Drop? ==> Held(hand, c, a.pc) > 0)
  {
    if a.Drop? then Xor(Xor(key, z.hand(c, a.pc, Held(hand, c, a.pc) - 1)), z.sq(c, a.pc, a.to))
    else
      var k1 := if a.cap.None? then key
                else Xor(Xor(key, z.hand(c, ToUnpro(a.cap.value), Held(hand, c, ToUnpro(a.cap.value)))),
                         z.sq(c.Opp(), a.cap.value, a.to));
      Xor(Xor(k1, z.sq(c, a.pc, a.from)), z.sq(c, Placed(c, a).pc, a.to))
  }

  function AfterKey(z: ZTable, key: Key, hand: Hands, c: Color, a: Action): Key
    requires a.IsMove() && a.Ok() && (a.Drop? ==> Held(hand, c, a.pc) > 0)
  {
    Xor(MenKey(z, key, hand, c, a), z.turn)
  }

  lemma XorSelf()
    ensures forall x: Key, y: Key :: Xor(Xor(x, y), y) == x
  {}

  /** Yes or no, or an assertion of update that fails. */
  datatype Answer = Yes | No | Abort

  /** What update and undo assert of their arguments. */
  ghost predicate UpdateOk(mail: Mail, hand: Hands, c: Color, a: Action) {
    && a.IsMove() && a.Ok() && Fits(After(mail, c, a))
    && (a.Drop? ==> a.to !in mail && Held(hand, c, a.pc) > 0)
    && (a.Move? ==> a.from in mail && mail[a.from] == Man(c, a.pc))
    && (a.Move? ==> match a.cap
                    case None => a.to !in mail
                    case Some(p) =>
                      a.to in mail && mail[a.to] == Man(c.Opp(), p) && Held(hand, c, ToUnpro(p)) < NumArray(ToUnpro(p)))
  }

  /** A pawn goes to another file, on which c already has one. */
  predicate PawnMisfit(mail: Mail, c: Color, a: Action) {
    a.Move? && a.pc == Pawn && !a.promote && a.to.f != a.from.f && OwnPawnOnFile(mail, c, a.to.f)
  }

  predicate HasRoom(hand: Hands, c: Color, a: Action) {
    a.Move? && a.cap.Some? ==> Held(hand, c, ToUnpro(a.cap.value)) < NumArray(ToUnpro(a.cap.value))
  }

  /** A board action that action_ok_easy admits meets the assertions of update exactly if it captures no king,
      promotes no piece that cannot, puts no second pawn on a file, and there is room in the hand. */
  lemma EasyUpdatesExactly(mail: Mail, hand: Hands, c: Color, a: Action)
    requires Fits(mail) && a.IsMove() && EasyOk(mail, hand, c, a)
    ensures UpdateOk(mail, hand, c, a) <==> a.Ok() && !PawnMisfit(mail, c, a) && HasRoom(hand, c, a)
  {
    if a.Ok() && PawnMisfit(mail, c, a) {
      var m := After(mail, c, a);
      var s: Sq :| s in mail && s.f == a.to.f && mail[s] == Man(c, Pawn);
      assert m[s] == m[a.to] == Man(c, Pawn) && s != a.to;
    } else if a.Ok() && HasRoom(hand, c, a) {
      EasyFits(mail, hand, c, a);
    }
  }

  lemma EasyFits(mail: Mail, hand: Hands, c: Color, a: Action)
    requires Fits(mail) && a.IsMove() && a.Ok() && EasyOk(mail, hand, c, a) && !PawnMisfit(mail, c, a)
    ensures Fits(After(mail, c, a))
  {
    var m := After(mail, c, a);
    forall s, t | s in m && t in m && m[s] == m[t]
        && s != t ensures !((m[s].pc == Pawn && s.f == t.f) || m[s].pc == King) {
      if s != a.to && t != a.to {
        assert mail[s] == mail[t];
      } else {
        var q := if s == a.to then t else s;
        assert m[q] == mail[q] == m[a.to] == Placed(c, a);
        if a.Move? {
          assert a.promote ==> ToPro(a.pc) != Pawn && ToPro(a.pc) != King;
          if m[q].pc == Pawn || m[q].pc == King { assert mail[q] == mail[a.from]; }
        }
      }
    }
  }

  /** Inside the attack set a pawn stays on its file. */
  lemma EasyUpdates(mail: Mail, hand: Hands, c: Color, a: Action)
    requires Fits(mail) && a.IsMove() && a.Ok() && InAttackSet(mail, a) && EasyOk(mail, hand, c, a)
    requires HasRoom(hand, c, a)
    ensures UpdateOk(mail, hand, c, a)
  {
    assert !PawnMisfit(mail, c, a);
    EasyUpdatesExactly(mail, hand, c, a);
    hide Fits;
  }

  /** Two pawns side by side, and one that steps aside to the other's file: no test of the program objects. */
  function TwoPawns(): Mail {
    map[Sq(8, 4) := Man(Black, King), Sq(0, 4) := Man(White, King), Sq(6, 0) := Man(Black, Pawn),
        Sq(6, 1) := Man(Black, Pawn)]
  }

  const ASIDE: Action := Move(Sq(6, 0), Sq(5, 1), Pawn, None, false)

  lemma PawnAside()
    ensures Fits(TwoPawns()) && PawnMisfit(TwoPawns(), Black, ASIDE)
    ensures Accepted(TwoPawns(), map[], Black, ASIDE) && !UpdateOk(TwoPawns(), map[], Black, ASIDE)
    ensures !InAttackSet(TwoPawns(), ASIDE)
  {
    TwoPawnsFit();
    AsideEasy();
    hide Fits, UpdateOk, InCheck, EasyOk, PawnMisfit, TwoPawns;
    EasyUpdatesExactly(TwoPawns(), map[], Black, ASIDE);
    AsideUnchecked();
  }

  const LEAP: Action := Move(Sq(8, 4), Sq(4, 4), King, None, false)

  /** A king that leaps over the board is accepted, and no assertion fails. */
  lemma KingLeaps()
    ensures Accepted(TwoPawns(), map[], Black, LEAP) && UpdateOk(TwoPawns(), map[], Black, LEAP)
    ensures !Legal(TwoPawns(), map[], Black, LEAP)
  {
    TwoPawnsFit();
    LeapEasy();
    hide Fits, UpdateOk, InCheck, EasyOk, InAttackSet, TwoPawns;
    EasyUpdatesExactly(TwoPawns(), map[], Black, LEAP);
    LeapUnchecked();
  }

  lemma LeapEasy()
    ensures EasyOk(TwoPawns(), map[], Black, LEAP) && !InAttackSet(TwoPawns(), LEAP)
  {}

  lemma LeapUnchecked()
    ensures !InCheck(After(TwoPawns(), Black, LEAP), Black)
  {
    var m := After(TwoPawns(), Black, LEAP);
    assert m[Sq(4, 4)] == Man(Black, King);
    assert forall e | e in m && m[e].c == White :: m[e].pc == King && e == Sq(0, 4);
    assert !Attacked(m, m.Keys, White, Sq(4, 4)) by { hide TwoPawns, After; }
    hide Attacked, After, TwoPawns;
  }

  lemma TwoPawnsFit()
    ensures Fits(TwoPawns())
  {}

  lemma AsideEasy()
    ensures EasyOk(TwoPawns(), map[], Black, ASIDE) && PawnMisfit(TwoPawns(), Black, ASIDE)
  {
    assert OwnPawnOnFile(TwoPawns(), Black, 1) by { assert TwoPawns()[Sq(6, 1)] == Man(Black, Pawn); }
  }

  lemma AsideUnchecked()
    ensures !InCheck(After(TwoPawns(), Black, ASIDE), Black)
  {
    var m := After(TwoPawns(), Black, ASIDE);
    assert m[Sq(8, 4)] == Man(Black, King);
    assert forall e | e in m && m[e].c == White :: m[e].pc == King && e == Sq(0, 4);
    assert !Attacked(m, m.Keys, White, Sq(8, 4)) by { hide TwoPawns, After; }
    hide Attacked, After, TwoPawns;
  }

  /** The pawn flags after update, and after undo, of a move, when nothing is asserted. */
  function FlagsThere(p: Two<seq<nat>>, c: Color, a: Action): (q: Two<seq<nat>>)
    requires a.Move? && a.Ok() && forall c: Color :: |p.At(c)| == 9
    ensures forall c: Color :: |q.At(c)| == 9
  {
    var q := if a.cap.Some? then ToggleFlag(p, c.Opp(), a.cap.value, a.to, 0) else p;
    ToggleFlag(ToggleFlag(q, c, a.pc, a.from, 0), c, Placed(c, a).pc, a.to, 1)
  }

  function FlagsBack(p: Two<seq<nat>>, c: Color, a: Action): (q: Two<seq<nat>>)
    requires a.Move? && a.Ok() && forall c: Color :: |p.At(c)| == 9
    ensures forall c: Color :: |q.At(c)| == 9
  {
    var q := ToggleFlag(ToggleFlag(p, c, Placed(c, a).pc, a.to, 0), c, a.pc, a.from, 1);
    if a.cap.Some? then ToggleFlag(q, c.Opp(), a.cap.value, a.to, 1) else q
  }

  /** With the assertions compiled out, testing a move that action_ok_easy admits leaves the pawn flags wrong exactly
      if it puts a pawn on a file that has one: undo then clears the flag of that file. */
  lemma FlagsRestored(mail: Mail, p: Two<seq<nat>>, hand: Hands, c: Color, a: Action)
    requires FlagsAgree(mail, p) && Fits(mail) && a.Move? && a.Ok() && EasyOk(mail, hand, c, a)
    ensures FlagsAgree(mail, FlagsBack(FlagsThere(p, c, a), c, a)) <==> !PawnMisfit(mail, c, a)
  {
    var r := FlagsBack(FlagsThere(p, c, a), c, a);
    if PawnMisfit(mail, c, a) {
      assert r.At(c)[a.to.f] == 0 && FileFlag(mail, c, a.to.f) == 1;
    } else {
      forall x: Color, f | 0 <= f < 9 ensures r.At(x)[f] == p.At(x)[f] { FlagBack(mail, p, hand, c, a, x, f); }
      assert forall x: Color, f | 0 <= f < 9 :: r.At(x)[f] == FileFlag(mail, x, f);
    }
  }

  lemma FlagBack(mail: Mail, p: Two<seq<nat>>, hand: Hands, c: Color, a: Action, x: Color, f: nat)
    requires FlagsAgree(mail, p) && Fits(mail) && a.Move? && a.Ok() && EasyOk(mail, hand, c, a) && f < 9
    requires !PawnMisfit(mail, c, a)
    ensures FlagsBack(FlagsThere(p, c, a), c, a).At(x)[f] == p.At(x)[f]
  {
    assert p.At(x)[f] == FileFlag(mail, x, f);
    assert p.At(c)[a.from.f] == FileFlag(mail, c, a.from.f) && p.At(c)[a.to.f] == FileFlag(mail, c, a.to.f);
    assert p.At(c.Opp())[a.to.f] == FileFlag(mail, c.Opp(), a.to.f);
    assert mail[a.from] == Man(c, a.pc) && (a.cap.Some? ==> mail[a.to] == Man(c.Opp(), a.cap.value));
  }

  /** The keys undo XORs, in its order. */
  function UndoMenKey(z: ZTable, key: Key, hand: Hands, c: Color, a: Action): Key
    requires a.IsMove() && a.Ok() && (a.Drop? ==> Held(hand, c, a.pc) > 0)
  {
    if a.Drop? then Xor(Xor(key, z.sq(c, a.pc, a.to)), z.hand(c, a.pc, Held(hand, c, a.pc) - 1))
    else
      var k1 := Xor(Xor(key, z.sq(c, Placed(c, a).pc, a.to)), z.sq(c, a.pc, a.from));
      if a.cap.None? then k1
      else Xor(Xor(k1, z.sq(c.Opp(), a.cap.value, a.to)),
               z.hand(c, ToUnpro(a.cap.value), Held(hand, c, ToUnpro(a.cap.value))))
  }

  function UndoKey(z: ZTable, key: Key, hand: Hands, c: Color, a: Action): Key
    requires a.IsMove() && a.Ok() && (a.Drop? ==> Held(hand, c, a.pc) > 0)
  {
    UndoMenKey(z, Xor(key, z.turn), hand, c, a)
  }

  lemma KeyRestored(z: ZTable, key: Key, hand: Hands, c: Color, a: Action)
    requires a.IsMove() && a.Ok() && (a.Drop? ==> Held(hand, c, a.pc) > 0)
    ensures UndoKey(z, AfterKey(z, key, hand, c, a), hand, c, a) == key
  {
    XorSelf();
    hide Xor;
  }

  /** The loop over the possible takers of a dropped pawn: is each of them pinned? */
  method AllPinned(m: Maps, kings: Kings, x: Color, to: Sq, bm: BMap) returns (all: bool)
    requires WellFormed(m)
    ensures all <==> forall e | e in bm :: IsPinned(m, kings, x, e, to)
  {
    hide IsPinned;
    var rest := bm;
    while rest != {}
      invariant rest <= bm && forall e | e in bm - rest :: IsPinned(m, kings, x, e, to)
      decreases rest
    {
      var from := First(rest);
      if !IsPinned(m, kings, x, from, to) { return false; }
      rest := rest - {from};
    }
    return true;
  }

  /** The loop over the steps of a king: is each of them attacked? */
  method AllAttacked(m: Maps, x: Color, bm: BMap) returns (all: bool)
    requires WellFormed(m)
    ensures all <==> forall t | t in bm :: ToAttacker(m, x, t) != {}
  {
    hide ToAttacker;
    var rest := bm;
    while rest != {}
      invariant rest <= bm && forall t | t in bm - rest :: ToAttacker(m, x, t) != {}
      decreases rest
    {
      var q := First(rest);
      if ToAttacker(m, x, q) == {} { return false; }
      rest := rest - {q};
    }
    return true;
  }

  lemma OkMaps(mail: Mail, maps: Maps, kings: Kings, hand: Hands)
    requires BoardOk(mail, mail.Keys, maps, kings, hand)
    ensures Agree(mail, mail.Keys, maps) && WellFormed(maps) && Fits(mail)
  {}

  lemma MateTestAt(mail: Mail, c: Color, k: Sq, to: Sq)
    requires KingAt(mail, c.Opp(), k)
    ensures MateTest(mail, c, to) <==> StepPawn(c, to, k) && NoCapture(mail, c, k, to) && NoEscape(mail, c, k, to)
    ensures StepPawn(c, to, k) <==> RelIdx(c.Opp(), k) == RelIdx(c.Opp(), to) + 9
  {}

  /** King squares stay real through an action, and putting the king back restores them. */
  lemma RealAfter(mail: Mail, kings: Kings, c: Color, a: Action)
    requires a.IsMove() && a.Ok() && KingsReal(mail, kings)
    requires a.Drop? ==> a.to !in mail
    requires a.Move? ==> a.from in mail && mail[a.from] == Man(c, a.pc) && a.cap == CapAt(mail, a.to)
    requires forall s | s in mail && mail[s].pc == King :: kings.At(mail[s].c) == Some(s)
    ensures KingsReal(After(mail, c, a), KingPut(kings, Placed(c, a), a.to))
    ensures a.Move? ==> KingPut(KingPut(kings, Placed(c, a), a.to), Man(c, a.pc), a.from) == kings
  {
    var m, ks := After(mail, c, a), KingPut(kings, Placed(c, a), a.to);
    forall c': Color | ks.At(c').Some? ensures ks.At(c').value in m && m[ks.At(c').value] == Man(c', King) {
      if kings.At(c').Some? {
        var k := kings.At(c').value;
        assert k in mail && mail[k] == Man(c', King);
        assert k != a.to;
      }
    }
  }

  // the mailbox after each step of update and undo

  lemma CaptureSteps(mail: Mail, c: Color, a: Action)
    requires a.Move? && a.Ok()
    ensures (mail - {a.to} - {a.from})[a.to := Placed(c, a)] == After(mail, c, a)
  {}

  lemma CaptureReady(mail: Mail, hand: Hands, c: Color, a: Action)
    requires UpdateOk(mail, hand, c, a) && a.Move? && a.cap.Some?
    ensures var m := mail - {a.to};
      a.to in mail && mail[a.to] == Man(c.Opp(), a.cap.value) && a.cap.value != King
      && a.from in m && mail[a.from] == Man(c, a.pc) && a.to !in m && (a.promote ==> CanPromote(a.pc))
      && (m - {a.from})[a.to := Placed(c, a)] == After(mail, c, a) && Fits(After(mail, c, a))
  {}

  lemma UndoSteps(mail: Mail, c: Color, a: Action)
    requires a.Move? && a.Ok() && a.from in mail && mail[a.from] == Man(c, a.pc)
    ensures (After(mail, c, a) - {a.to})[a.from := Man(c, a.pc)] == mail - {a.to}
    ensures if a.to in mail then (mail - {a.to})[a.to := mail[a.to]] == mail else mail - {a.to} == mail
  {}

  lemma UndoReady(mail: Mail, hand: Hands, c: Color, a: Action)
    requires Fits(mail) && UpdateOk(mail, hand, c, a) && a.Move?
    ensures var m := After(mail, c, a);
      a.to in m && m[a.to].c == c && (a.from == a.to || a.from !in m)
      && (m - {a.to})[a.from := Man(c, a.pc)] == mail - {a.to} && Fits(mail - {a.to})
      && m[a.to] == Placed(c, a)
    ensures if a.cap.Some? then a.to in mail && mail[a.to] == Man(c.Opp(), a.cap.value) && a.cap.value != King &&
              (mail - {a.to})[a.to := mail[a.to]] == mail
            else mail - {a.to} == mail
  {
    UndoSteps(mail, c, a);
    FitsLess(mail, a.to);
    hide Fits;
  }

  class Board {
    const tbl: ZTable
    var zkey: Key
    var maps: Maps
    var sqKings: Kings
    var mail: Mail
    var hand: Hands
    var handColor: Totals

    ghost predicate ValidOcc(occ: BMap)
      reads this
    {
      BoardOk(mail, occ, maps, sqKings, hand)
    }

    /** All maps agree with the mailbox. */
    ghost predicate Valid()
      reads this
    {
      ValidOcc(mail.Keys)
    }

    constructor (tbl: ZTable)
      ensures Valid() && this.tbl == tbl && mail == map[] && zkey == {} && sqKings == Kings(None, None)
      ensures handColor == Totals(0, 0) && hand == EmptyHands()
    {
      this.tbl := tbl;
      zkey := {};
      maps := EmptyMaps();
      sqKings := Kings(None, None);
      mail := map[];
      hand := EmptyHands();
      handColor := Totals(0, 0);
      EmptyOk();
    }

    method ToggleRayPenetrate(s: Sq, ghost occ: BMap)
      requires ValidOcc(occ)
      modifies this`maps
      ensures ValidOcc(Flip(occ, {s})) && maps == old(maps).(all := ToggleAll(old(maps).all, s))
    {
      hide BoardOk;
      OkToggle(mail, occ, maps, sqKings, hand, s);
      maps := maps.(all := ToggleAll(maps.all, s));
    }

    method PlaceSq(c: Color, pc: Pc, s: Sq, doAux: bool)
      requires Valid() && s !in mail && Fits(mail[s := Man(c, pc)])
      modifies this`maps, this`sqKings, this`mail, this`zkey
      ensures Valid() && mail == old(mail)[s := Man(c, pc)]
      ensures sqKings == KingPut(old(sqKings), Man(c, pc), s)
      ensures zkey == if doAux then Xor(old(zkey), tbl.sq(c, pc, s)) else old(zkey)
    {
      hide BoardOk, Fits;
      OkPut(mail, maps, sqKings, hand, s, Man(c, pc));
      maps := Toggle(maps, c, pc, s, 1);
      if pc == King { sqKings := sqKings.Put(c, Some(s)); }
      mail := mail[s := Man(c, pc)];
      if doAux { zkey := Xor(zkey, tbl.sq(c, pc, s)); }
    }

    method RemoveSq(s: Sq, doAux: bool)
      requires Valid() && s in mail
      modifies this`maps, this`mail, this`zkey
      ensures Valid() && mail == old(mail) - {s}
      ensures zkey == if doAux then Xor(old(zkey), tbl.sq(old(mail)[s].c, old(mail)[s].pc, s)) else old(zkey)
    {
      hide BoardOk, Fits;
      var c, pc := mail[s].c, mail[s].pc;
      OkRemove(mail, maps, sqKings, hand, s);
      maps := Toggle(maps, c, pc, s, 0);
      if doAux { zkey := Xor(zkey, tbl.sq(c, pc, s)); }
      mail := mail - {s};
    }

    method PlaceHand(c: Color, pc: Pc, doAux: bool)
      requires Valid() && HandOk(pc)
      modifies this`hand, this`zkey, this`handColor
      ensures Valid() && hand == old(hand)[(c, pc) := Held(old(hand), c, pc) + 1]
      ensures zkey == if doAux then Xor(old(zkey), tbl.hand(c, pc, Held(old(hand), c, pc))) else old(zkey)
      ensures handColor == if doAux then old(handColor).Put(c, old(handColor).At(c) + 1) else old(handColor)
    {
      if doAux {
        zkey := Xor(zkey, tbl.hand(c, pc, Held(hand, c, pc)));
        handColor := handColor.Put(c, handColor.At(c) + 1);
      }
      OkHand(mail, maps, sqKings, hand, c, pc, Held(hand, c, pc) + 1);
      hide BoardOk;
      hand := hand[(c, pc) := Held(hand, c, pc) + 1];
    }

    method RemoveHand(c: Color, pc: Pc, doAux: bool)
      requires Valid() && HandOk(pc) && Held(hand, c, pc) > 0 && (doAux ==> handColor.At(c) > 0)
      modifies this`hand, this`zkey, this`handColor
      ensures Valid() && hand == old(hand)[(c, pc) := Held(old(hand), c, pc) - 1]
      ensures zkey == if doAux then Xor(old(zkey), tbl.hand(c, pc, Held(old(hand), c, pc) - 1)) else old(zkey)
      ensures handColor == if doAux then old(handColor).Put(c, old(handColor).At(c) - 1) else old(handColor)
    {
      OkHand(mail, maps, sqKings, hand, c, pc, Held(hand, c, pc) - 1);
      hide BoardOk;
      hand := hand[(c, pc) := Held(hand, c, pc) - 1];
      if doAux {
        zkey := Xor(zkey, tbl.hand(c, pc, Held(hand, c, pc)));
        handColor := handColor.Put(c, handColor.At(c) - 1);
      }
    }

    method NextTurn(doAux: bool)
      modifies this`zkey
      ensures zkey == if doAux then Xor(old(zkey), tbl.turn) else old(zkey)
    {
      if doAux { zkey := Xor(zkey, tbl.turn); }
    }

    /** Take the man on to into the hand of turn. */
    method Capture(turn: Color, to: Sq, cap: Pc, doAux: bool)
      requires Valid() && to in mail && mail[to] == Man(turn.Opp(), cap) && cap != King
      modifies this`maps, this`mail, this`hand, this`zkey, this`handColor
      ensures Valid() && mail == old(mail) - {to}
      ensures hand == old(hand)[(turn, ToUnpro(cap)) := Held(old(hand), turn, ToUnpro(cap)) + 1]
      ensures handColor == if doAux then old(handColor).Put(turn, old(handColor).At(turn) + 1) else old(handColor)
      ensures zkey == if doAux
          then Xor(Xor(old(zkey), tbl.hand(turn, ToUnpro(cap), Held(old(hand), turn, ToUnpro(cap)))),
                                        tbl.sq(turn.Opp(), cap, to))
                      else old(zkey)
    {
      hide BoardOk, Fits, Xor;
      PlaceHand(turn, ToUnpro(cap), doAux);
      RemoveSq(to, doAux);
    }

    /** Take the man off from and put (turn, pc) on to. */
    method Shift(turn: Color, from: Sq, to: Sq, pc: Pc, doAux: bool)
      requires Valid() && from in mail && mail[from].c == turn && (to == from || to !in mail)
      requires Fits((mail - {from})[to := Man(turn, pc)])
      modifies this`maps, this`sqKings, this`mail, this`zkey
      ensures Valid() && mail == (old(mail) - {from})[to := Man(turn, pc)]
      ensures sqKings == KingPut(old(sqKings), Man(turn, pc), to)
      ensures zkey == if doAux then Xor(Xor(old(zkey), tbl.sq(turn, old(mail)[from].pc, from)), tbl.sq(turn, pc, to))
          else old(zkey)
    {
      hide BoardOk, Fits, Xor;
      RemoveSq(from, doAux);
      PlaceSq(turn, pc, to, doAux);
    }

    method UpdateDrop(turn: Color, a: Action, doAux: bool)
      requires Valid() && UpdateOk(mail, hand, turn, a) && a.Drop? && (doAux ==> handColor.At(turn) > 0)
      modifies this
      ensures Valid() && mail == After(old(mail), turn, a) && hand == AfterHand(old(hand), turn, a)
      ensures sqKings == old(sqKings)
      ensures zkey == if doAux then MenKey(tbl, old(zkey), old(hand), turn, a) else old(zkey)
      ensures handColor == if doAux then AfterTotals(old(handColor), turn, a) else old(handColor)
    {
      hide BoardOk, Fits, Xor;
      RemoveHand(turn, a.pc, doAux);
      PlaceSq(turn, a.pc, a.to, doAux);
    }

    method UpdateCapture(turn: Color, a: Action, doAux: bool)
      requires Valid() && UpdateOk(mail, hand, turn, a) && a.Move? && a.cap.Some?
      modifies this`maps, this`sqKings, this`mail, this`hand, this`zkey, this`handColor
      ensures Valid() && mail == After(old(mail), turn, a) && hand == AfterHand(old(hand), turn, a)
      ensures sqKings == KingPut(old(sqKings), Placed(turn, a), a.to)
      ensures zkey == if doAux then MenKey(tbl, old(zkey), old(hand), turn, a) else old(zkey)
      ensures handColor == if doAux then AfterTotals(old(handColor), turn, a) else old(handColor)
    {
      CaptureReady(mail, hand, turn, a);
      hide BoardOk, Fits, Xor, UpdateOk;
      CaptureShift(turn, a.from, a.to, a.pc, if a.promote then ToPro(a.pc) else a.pc, a.cap.value, doAux);
    }

    method CaptureShift(turn: Color, from: Sq, to: Sq, ghost pc0: Pc, pc: Pc, cap: Pc, doAux: bool)
      requires Valid() && to in mail && mail[to] == Man(turn.Opp(), cap) && cap != King && from != to
      requires from in mail && mail[from] == Man(turn, pc0) && Fits((mail - {to} - {from})[to := Man(turn, pc)])
      modifies this`maps, this`sqKings, this`mail, this`hand, this`zkey, this`handColor
      ensures Valid() && mail == (old(mail) - {to} - {from})[to := Man(turn, pc)]
      ensures hand == old(hand)[(turn, ToUnpro(cap)) := Held(old(hand), turn, ToUnpro(cap)) + 1]
      ensures sqKings == KingPut(old(sqKings), Man(turn, pc), to)
      ensures handColor == if doAux then old(handColor).Put(turn, old(handColor).At(turn) + 1) else old(handColor)
      ensures zkey == if doAux
        then Xor(Xor(Xor(Xor(old(zkey), tbl.hand(turn, ToUnpro(cap), Held(old(hand), turn, ToUnpro(cap)))),
                         tbl.sq(turn.Opp(), cap, to)),
                     tbl.sq(turn, pc0, from)), tbl.sq(turn, pc, to))
        else old(zkey)
    {
      hide BoardOk, Fits, Xor, Held;
      Capture(turn, to, cap, doAux);
      Shift(turn, from, to, pc, doAux);
    }

    method UpdateMove(turn: Color, a: Action, doAux: bool)
      requires Valid() && UpdateOk(mail, hand, turn, a) && a.Move?
      modifies this
      ensures Valid() && mail == After(old(mail), turn, a) && hand == AfterHand(old(hand), turn, a)
      ensures sqKings == KingPut(old(sqKings), Placed(turn, a), a.to)
      ensures zkey == if doAux then MenKey(tbl, old(zkey), old(hand), turn, a) else old(zkey)
      ensures handColor == if doAux then AfterTotals(old(handColor), turn, a) else old(handColor)
    {
      hide BoardOk, Fits, Xor;
      if a.cap.Some? {
        UpdateCapture(turn, a, doAux);
      } else {
        Shift(turn, a.from, a.to, if a.promote then ToPro(a.pc) else a.pc, doAux);
      }
    }

    method Update(turn: Color, a: Action, doAux: bool)
      requires Valid() && UpdateOk(mail, hand, turn, a) && (doAux && a.Drop? ==> handColor.At(turn) > 0)
      modifies this
      ensures Valid() && mail == After(old(mail), turn, a) && hand == AfterHand(old(hand), turn, a)
      ensures sqKings == KingPut(old(sqKings), Placed(turn, a), a.to)
      ensures zkey == if doAux then AfterKey(tbl, old(zkey), old(hand), turn, a) else old(zkey)
      ensures handColor == if doAux then AfterTotals(old(handColor), turn, a) else old(handColor)
    {
      hide BoardOk, Fits, Xor, After, AfterHand, MenKey, AfterTotals;
      if a.Drop? { UpdateDrop(turn, a, doAux); } else { UpdateMove(turn, a, doAux); }
      NextTurn(doAux);
    }

    method UndoDrop(turn: Color, a: Action, doAux: bool, ghost m0: Mail, ghost h0: Hands, ghost t0: Totals)
      requires Valid() && Fits(m0) && UpdateOk(m0, h0, turn, a) && a.Drop?
      requires mail == After(m0, turn, a) && hand == AfterHand(h0, turn, a) &&
            forall c: Color, k: Pc :: (c, k) in h0 <==> HandOk(k)
      requires doAux ==> handColor == AfterTotals(t0, turn, a) && t0.At(turn) > 0
      modifies this
      ensures Valid() && mail == m0 && hand == h0 && sqKings == old(sqKings)
      ensures zkey == if doAux then UndoMenKey(tbl, old(zkey), h0, turn, a) else old(zkey)
      ensures handColor == if doAux then t0 else old(handColor)
    {
      hide BoardOk, Fits, Xor;
      RemoveSq(a.to, doAux);
      PlaceHand(turn, a.pc, doAux);
    }

    /** Put the captured man back on to and take it out of the hand. */
    method Uncapture(turn: Color, to: Sq, cap: Pc, doAux: bool)
      requires Valid() && to !in mail && cap != King && Fits(mail[to := Man(turn.Opp(), cap)])
      requires Held(hand, turn, ToUnpro(cap)) > 0 && (doAux ==> handColor.At(turn) > 0)
      modifies this`maps, this`sqKings, this`mail, this`hand, this`zkey, this`handColor
      ensures Valid() && mail == old(mail)[to := Man(turn.Opp(), cap)] && sqKings == old(sqKings)
      ensures hand == old(hand)[(turn, ToUnpro(cap)) := Held(old(hand), turn, ToUnpro(cap)) - 1]
      ensures handColor == if doAux then old(handColor).Put(turn, old(handColor).At(turn) - 1) else old(handColor)
      ensures zkey == if doAux then Xor(Xor(old(zkey), tbl.sq(turn.Opp(), cap, to)),
                                        tbl.hand(turn, ToUnpro(cap), Held(old(hand), turn, ToUnpro(cap)) - 1))
                      else old(zkey)
    {
      hide BoardOk, Fits, Xor;
      PlaceSq(turn.Opp(), cap, to, doAux);
      RemoveHand(turn, ToUnpro(cap), doAux);
    }

    method UndoMove(turn: Color, a: Action, doAux: bool, ghost m0: Mail, ghost h0: Hands, ghost t0: Totals)
      requires Valid() && Fits(m0) && UpdateOk(m0, h0, turn, a) && a.Move?
      requires mail == After(m0, turn, a) && hand == AfterHand(h0, turn, a) &&
            forall c: Color, k: Pc :: (c, k) in h0 <==> HandOk(k)
      requires doAux ==> handColor == AfterTotals(t0, turn, a)
      modifies this
      ensures Valid() && mail == m0 && hand == h0 && sqKings == KingPut(old(sqKings), Man(turn, a.pc), a.from)
      ensures zkey == if doAux then UndoMenKey(tbl, old(zkey), h0, turn, a) else old(zkey)
      ensures handColor == if doAux then t0 else old(handColor)
    {
      UndoReady(m0, h0, turn, a);
      hide BoardOk, Fits, Xor, UpdateOk, After;
      if a.cap.Some? {
        ShiftUncapture(turn, a.to, a.from, Placed(turn, a).pc, a.pc, a.cap.value, doAux);
      } else {
        Shift(turn, a.to, a.from, a.pc, doAux);
      }
    }

    method ShiftUncapture(turn: Color, from: Sq, to: Sq, ghost pc0: Pc, pc: Pc, cap: Pc, doAux: bool)
      requires Valid() && from in mail && mail[from] == Man(turn, pc0) && to !in mail && cap != King
      requires (var m := (mail - {from})[to := Man(turn, pc)];
                Fits(m) && Fits(m[from := Man(turn.Opp(), cap)])
                && from !in m)
      requires Held(hand, turn, ToUnpro(cap)) > 0 && (doAux ==> handColor.At(turn) > 0)
      modifies this`maps, this`sqKings, this`mail, this`hand, this`zkey, this`handColor
      ensures Valid() && mail == (old(mail) - {from})[to := Man(turn, pc)][from := Man(turn.Opp(), cap)]
      ensures hand == old(hand)[(turn, ToUnpro(cap)) := Held(old(hand), turn, ToUnpro(cap)) - 1]
      ensures sqKings == KingPut(old(sqKings), Man(turn, pc), to)
      ensures handColor == if doAux then old(handColor).Put(turn, old(handColor).At(turn) - 1) else old(handColor)
      ensures zkey == if doAux
        then Xor(Xor(Xor(Xor(old(zkey), tbl.sq(turn, pc0, from)), tbl.sq(turn, pc, to)), tbl.sq(turn.Opp(), cap, from)),
                 tbl.hand(turn, ToUnpro(cap), Held(old(hand), turn, ToUnpro(cap)) - 1))
        else old(zkey)
    {
      hide BoardOk, Fits, Xor, Held;
      Shift(turn, from, to, pc, doAux);
      Uncapture(turn, from, cap, doAux);
    }

    /** m0, h0, t0: the mailbox, hands and hand totals the action was played on. */
    method Undo(turn: Color, a: Action, doAux: bool, ghost m0: Mail, ghost h0: Hands, ghost t0: Totals)
      requires Valid() && Fits(m0) && UpdateOk(m0, h0, turn, a)
      requires mail == After(m0, turn, a) && hand == AfterHand(h0, turn, a) &&
            forall c: Color, k: Pc :: (c, k) in h0 <==> HandOk(k)
      requires doAux ==> handColor == AfterTotals(t0, turn, a) && (a.Drop? ==> t0.At(turn) > 0)
      modifies this
      ensures Valid() && mail == m0 && hand == h0
      ensures sqKings == if a.Move? then KingPut(old(sqKings), Man(turn, a.pc), a.from) else old(sqKings)
      ensures zkey == if doAux then UndoKey(tbl, old(zkey), h0, turn, a) else old(zkey)
      ensures handColor == if doAux then t0 else old(handColor)
    {
      hide BoardOk, Fits, Xor, After, AfterHand, UndoMenKey, AfterTotals;
      NextTurn(doAux);
      if a.Drop? { UndoDrop(turn, a, doAux, m0, h0, t0); } else { UndoMove(turn, a, doAux, m0, h0, t0); }
    }

    /** update followed by undo restores every field of the board. */
    method UpdateUndo(turn: Color, a: Action, doAux: bool) returns (inCheck: bool)
      requires Valid() && UpdateOk(mail, hand, turn, a) && KingsReal(mail, sqKings)
      requires doAux && a.Drop? ==> handColor.At(turn) > 0
      modifies this
      ensures Valid() && mail == old(mail) && hand == old(hand) && maps == old(maps)
      ensures zkey == old(zkey) && sqKings == old(sqKings) && handColor == old(handColor)
      ensures inCheck <==> InCheck(After(old(mail), turn, a), turn)
    {
      ghost var m0, h0, t0, k0 := mail, hand, handColor, sqKings;
      KeyRestored(tbl, zkey, hand, turn, a);
      Update(turn, a, doAux);
      RealAfter(m0, k0, turn, a);
      OkMaps(mail, maps, sqKings, hand);
      CheckExact(mail, maps, sqKings, hand, turn);
      inCheck := IsInCheck(maps, sqKings, turn);
      Undo(turn, a, doAux, m0, h0, t0);
      OkMaps(m0, maps, sqKings, hand);
      OkMaps(m0, old(maps), k0, h0);
      AgreeUnique(m0, m0.Keys, maps, old(maps));
    }

    method KingTrapped(c: Color, k: Sq, to: Sq) returns (trapped: bool)
      requires Valid() && to !in mail
      modifies this`maps
      ensures maps == old(maps)
      ensures trapped <==> NoEscape(mail, c, k, to)
    {
      ghost var occ := mail.Keys + {to};
      assert Flip(mail.Keys, {to}) == occ && Flip(occ, {to}) == mail.Keys;
      ToggleRayPenetrate(to, mail.Keys);
      trapped := AllAttacked(maps, c.Opp(), KingSet(k) - maps.color.At(c.Opp()));
      NoEscapeExact(mail, maps, c, k, to);
      ToggleRayPenetrate(to, occ);
      OkMaps(mail, maps, sqKings, hand);
      OkMaps(mail, old(maps), sqKings, hand);
      AgreeUnique(mail, mail.Keys, maps, old(maps));
    }

    /** The pawn on to checks the king of the other side on k: can neither capture nor flight answer? */
    method PawnMates(c: Color, k: Sq, to: Sq) returns (mate: bool)
      requires Valid() && to !in mail && sqKings.At(c.Opp()) == Some(k) && KingAt(mail, c.Opp(), k)
      modifies this`maps
      ensures maps == old(maps) && (mate <==> NoCapture(mail, c, k, to) && NoEscape(mail, c, k, to))
    {
      OkMaps(mail, maps, sqKings, hand);
      NoCaptureExact(mail, maps, sqKings, c, k, to);
      hide Agree, BoardOk, NoCapture, NoEscape, Takers, IsPinned, KingAt;
      var pinned := AllPinned(maps, sqKings, c.Opp(), to, Takers(maps, c, k, to));
      if !pinned { return false; }
      mate := KingTrapped(c, k, to);
    }

    method IsMateByDropPawn(turn: Color, a: Action) returns (mate: bool)
      requires Valid() && KingsReal(mail, sqKings) && a.Ok() && (a.Drop? ==> a.to !in mail)
      modifies this`maps
      ensures maps == old(maps) && (mate <==> IsMatingDrop(mail, turn, a))
    {
      if !a.Drop? || a.pc != Pawn { return false; }
      var tx, to := turn.Opp(), a.to;
      OkMaps(mail, maps, sqKings, hand);
      if sqKings.At(tx).None? { return false; }
      var k := sqKings.At(tx).value;
      KingsRealAt(mail, sqKings, tx, k);
      MateTestAt(mail, turn, k, to);
      hide MateTest, Agree, BoardOk, NoCapture, NoEscape, KingAt;
      if RelIdx(tx, k) != RelIdx(tx, to) + 9 { return false; }
      mate := PawnMates(turn, k, to);
    }

    /** action_ok_full; declares is what is_nyugyoku would say. */
    method ActionOkFull(turn: Color, a: Action, declares: bool) returns (r: Answer)
      requires Valid() && KingsReal(mail, sqKings)
      modifies this
      ensures Valid() && mail == old(mail) && hand == old(hand) && maps == old(maps)
      ensures zkey == old(zkey) && sqKings == old(sqKings) && handColor == old(handColor)
      ensures r == Abort <==> a.IsMove() && EasyOk(mail, hand, turn, a)
                              && !(a.Ok() && !PawnMisfit(mail, turn, a) && HasRoom(hand, turn, a))
      ensures r == Yes <==> a.Resign? || (a.WinDecl? && declares)
                            || (Accepted(mail, hand, turn, a) && !PawnMisfit(mail, turn, a) && HasRoom(hand, turn, a))
      ensures r == Yes && a.IsMove() ==> (Legal(mail, hand, turn, a) <==> InAttackSet(mail, a))
    {
      OkMaps(mail, maps, sqKings, hand);
      EasyExact(mail, maps, hand, turn, a);
      if !ActionOkEasy(mail, maps, hand, turn, a) { return No; }
      if a.Resign? { return Yes; }
      if a.WinDecl? { return if declares then Yes else No; }
      EasyUpdatesExactly(mail, hand, turn, a);
      if !a.Ok() || PawnMisfit(mail, turn, a) || !HasRoom(hand, turn, a) { return Abort; }
      var inCheck := UpdateUndo(turn, a, false);
      if inCheck { return No; }
      var mate := IsMateByDropPawn(turn, a);
      return if mate then No else Yes;
    }
  }
}
