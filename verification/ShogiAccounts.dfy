/** What a board keeps in running accounts: the Zobrist key, the hand totals and the number of pieces of each
    kind (src/common/shogibase.cpp:154-167, 256-279, 449-559). */
module ShogiAccounts {
  import opened ShogiGeometry
  import opened ShogiLegality
  import opened ShogiRules
  import opened ShogiRotation
  import opened ShogiBoardMaps
  import opened ShogiBoard

  // ----- the key of a position -----

  lemma XorMid(x: Key, y: Key, w: Key)
    ensures Xor(Xor(x, y), w) == Xor(Xor(x, w), y) && Xor(Xor(x, y), w) == Xor(x, Xor(y, w))
  {}
  function SquareKey(z: ZTable, mail: Mail, s: Sq): Key { if s in mail then z.sq(mail[s].c, mail[s].pc, s) else {} }
  function SquaresKey(z: ZTable, mail: Mail, n: nat): Key
    requires n <= 81
  {
    if n == 0 then {} else Xor(SquaresKey(z, mail, n - 1), SquareKey(z, mail, SqAt(n - 1)))
  }
  /** n pieces of one kind in one hand. */
  function PileKey(z: ZTable, c: Color, pc: Pc, n: nat): Key {
    if n == 0 then {} else Xor(PileKey(z, c, pc, n - 1), z.hand(c, pc, n - 1))
  }
  function PileAt(i: nat): (Color, Pc)
    requires i < 14
  {
    (if i < 7 then Black else White, i % 7)
  }
  function PilesKey(z: ZTable, hand: Hands, i: nat): Key
    requires i <= 14
  {
    if i == 0 then {}
    else
      var p := PileAt(i - 1);
      Xor(PilesKey(z, hand, i - 1), PileKey(z, p.0, p.1, Held(hand, p.0, p.1)))
  }
  function KeyOf(z: ZTable, mail: Mail, hand: Hands, turn: Color): Key {
    Xor(Xor(if turn == White then z.turn else {}, PilesKey(z, hand, 14)), SquaresKey(z, mail, 81))
  }

  /** Board::make_zkey */
  method MakeZkey(z: ZTable, mail: Mail, hand: Hands, turn: Color) returns (key: Key)
    ensures key == KeyOf(z, mail, hand, turn)
  {
    key := {};
    if turn == White { key := z.turn; }
    ghost var start := key;
    for i := 0 to 14
      invariant key == Xor(start, PilesKey(z, hand, i))
    {
      var (c, pc) := PileAt(i);
      ghost var before := key;
      for u := 0 to Held(hand, c, pc)
        invariant key == Xor(before, PileKey(z, c, pc, u))
      {
        XorMid(before, PileKey(z, c, pc, u), z.hand(c, pc, u));
        key := Xor(key, z.hand(c, pc, u));
      }
      XorMid(start, PilesKey(z, hand, i), PileKey(z, c, pc, Held(hand, c, pc)));
    }
    ghost var mid := key;
    for u := 0 to 81
      invariant key == Xor(mid, SquaresKey(z, mail, u))
    {
      var s := SqAt(u);
      XorMid(mid, SquaresKey(z, mail, u), SquareKey(z, mail, s));
      if s in mail { key := Xor(key, z.sq(mail[s].c, mail[s].pc, s)); }
    }
  }

  lemma SqAtIdx(s: Sq, u: nat)
    requires u < 81
    ensures SqAt(u) == s <==> Idx(s) == u
  {}

  lemma {:induction false} SquaresKeyPut(z: ZTable, mail: Mail, s: Sq, man: Man, n: nat)
    requires s !in mail && n <= 81
    ensures SquaresKey(z, mail[s := man], n) ==
            if Idx(s) < n then Xor(SquaresKey(z, mail, n), z.sq(man.c, man.pc, s)) else SquaresKey(z, mail, n)
  {
    if n > 0 {
      SquaresKeyPut(z, mail, s, man, n - 1);
      var q, m := SqAt(n - 1), mail[s := man];
      XorMid(SquaresKey(z, mail, n - 1), SquareKey(z, mail, q), z.sq(man.c, man.pc, s));
      SqAtIdx(s, n - 1);
      assert SquareKey(z, m, q) == if q == s then z.sq(man.c, man.pc, s) else SquareKey(z, mail, q);
      assert q == s ==> SquareKey(z, mail, q) == {};
      hide Xor, SqAt, Idx, SquareKey;
    }
  }

  function PileIdx(c: Color, pc: Pc): nat { if c == Black then pc else pc + 7 }

  lemma {:induction false} PilesKeyPut(z: ZTable, hand: Hands, c: Color, pc: Pc, i: nat)
    requires HandOk(pc) && i <= 14
    ensures var h := Held(hand, c, pc);
            PilesKey(z, hand[(c, pc) := h + 1], i) ==
            if PileIdx(c, pc) < i then Xor(PilesKey(z, hand, i), z.hand(c, pc, h)) else PilesKey(z, hand, i)
  {
    if i > 0 {
      PilesKeyPut(z, hand, c, pc, i - 1);
      var p, h := PileAt(i - 1), Held(hand, c, pc);
      var pile := PileKey(z, p.0, p.1, Held(hand, p.0, p.1));
      XorMid(PilesKey(z, hand, i - 1), pile, z.hand(c, pc, h));
      assert p == (c, pc) <==> PileIdx(c, pc) == i - 1;
      hide Xor, PileKey, Held;
    }
  }

  lemma KeyPlace(z: ZTable, mail: Mail, hand: Hands, turn: Color, s: Sq, man: Man)
    requires s !in mail
    ensures KeyOf(z, mail[s := man], hand, turn) == Xor(KeyOf(z, mail, hand, turn), z.sq(man.c, man.pc, s))
  {
    SquaresKeyPut(z, mail, s, man, 81);
    XorMid(Xor(if turn == White then z.turn else {}, PilesKey(z, hand, 14)), SquaresKey(z, mail, 81),
           z.sq(man.c, man.pc, s));
    hide Xor, SquaresKey, PilesKey;
  }

  lemma KeyLift(z: ZTable, mail: Mail, hand: Hands, turn: Color, s: Sq)
    requires s in mail
    ensures KeyOf(z, mail - {s}, hand, turn) == Xor(KeyOf(z, mail, hand, turn), z.sq(mail[s].c, mail[s].pc, s))
  {
    assert (mail - {s})[s := mail[s]] == mail;
    KeyPlace(z, mail - {s}, hand, turn, s, mail[s]);
    hide Xor, KeyOf;
  }

  lemma KeyTake(z: ZTable, mail: Mail, hand: Hands, turn: Color, c: Color, pc: Pc)
    requires HandOk(pc)
    ensures KeyOf(z, mail, hand[(c, pc) := Held(hand, c, pc) + 1], turn) ==
            Xor(KeyOf(z, mail, hand, turn), z.hand(c, pc, Held(hand, c, pc)))
  {
    PilesKeyPut(z, hand, c, pc, 14);
    var t, k := if turn == White then z.turn else {}, z.hand(c, pc, Held(hand, c, pc));
    XorMid(t, PilesKey(z, hand, 14), k);
    XorMid(Xor(t, PilesKey(z, hand, 14)), SquaresKey(z, mail, 81), k);
    hide Xor, SquaresKey, PilesKey;
  }

  lemma KeySpend(z: ZTable, mail: Mail, hand: Hands, turn: Color, c: Color, pc: Pc)
    requires HandOk(pc) && Held(hand, c, pc) > 0
    ensures KeyOf(z, mail, hand[(c, pc) := Held(hand, c, pc) - 1], turn) ==
            Xor(KeyOf(z, mail, hand, turn), z.hand(c, pc, Held(hand, c, pc) - 1))
  {
    var h := hand[(c, pc) := Held(hand, c, pc) - 1];
    assert h[(c, pc) := Held(hand, c, pc)] == hand;
    KeyTake(z, mail, h, turn, c, pc);
    hide Xor, KeyOf;
  }

  lemma KeyTurn(z: ZTable, mail: Mail, hand: Hands, turn: Color)
    ensures KeyOf(z, mail, hand, turn.Opp()) == Xor(KeyOf(z, mail, hand, turn), z.turn)
  {}

  /** The keys XORed by update lead from the key of the position to the key of the next one; t is the side the
      key counts as moving. */
  lemma KeyFollows(z: ZTable, mail: Mail, hand: Hands, t: Color, c: Color, a: Action)
    requires UpdateOk(mail, hand, c, a)
    ensures AfterKey(z, KeyOf(z, mail, hand, t), hand, c, a)
        == KeyOf(z, After(mail, c, a), AfterHand(hand, c, a), t.Opp())
  {
    KeyTurn(z, After(mail, c, a), AfterHand(hand, c, a), t);
    if a.Drop? { DropKeyFollows(z, mail, hand, t, c, a); } else { MoveKeyFollows(z, mail, hand, t, c, a); }
    hide Xor, KeyOf, MenKey, After, AfterHand;
  }

  lemma DropKeyFollows(z: ZTable, mail: Mail, hand: Hands, t: Color, c: Color, a: Action)
    requires UpdateOk(mail, hand, c, a) && a.Drop?
    ensures MenKey(z, KeyOf(z, mail, hand, t), hand, c, a) == KeyOf(z, After(mail, c, a), AfterHand(hand, c, a), t)
  {
    KeySpend(z, mail, hand, t, c, a.pc);
    KeyPlace(z, mail, AfterHand(hand, c, a), t, a.to, Placed(c, a));
    hide Xor, KeyOf;
  }

  /** The part of a move after the capture. */
  lemma ShiftKeyFollows(z: ZTable, mail: Mail, hand: Hands, t: Color, c: Color, a: Action)
    requires a.Move? && a.Ok() && a.from in mail && mail[a.from] == Man(c, a.pc) && a.to !in mail
    ensures Xor(Xor(KeyOf(z, mail, hand, t), z.sq(c, a.pc, a.from)), z.sq(c, Placed(c, a).pc, a.to))
            == KeyOf(z, (mail - {a.from})[a.to := Placed(c, a)], hand, t)
  {
    KeyLift(z, mail, hand, t, a.from);
    KeyPlace(z, mail - {a.from}, hand, t, a.to, Placed(c, a));
    hide Xor, KeyOf;
  }

  lemma TakeKeyFollows(z: ZTable, mail: Mail, hand: Hands, t: Color, c: Color, a: Action)
    requires UpdateOk(mail, hand, c, a) && a.Move? && a.cap.Some?
    ensures Xor(Xor(KeyOf(z, mail, hand, t), z.hand(c, ToUnpro(a.cap.value), Held(hand, c, ToUnpro(a.cap.value)))),
                z.sq(c.Opp(), a.cap.value, a.to))
            == KeyOf(z, mail - {a.to}, AfterHand(hand, c, a), t)
  {
    KeyTake(z, mail, hand, t, c, ToUnpro(a.cap.value));
    KeyLift(z, mail, AfterHand(hand, c, a), t, a.to);
    hide Xor, KeyOf;
  }

  lemma MoveKeyFollows(z: ZTable, mail: Mail, hand: Hands, t: Color, c: Color, a: Action)
    requires UpdateOk(mail, hand, c, a) && a.Move?
    ensures MenKey(z, KeyOf(z, mail, hand, t), hand, c, a) == KeyOf(z, After(mail, c, a), AfterHand(hand, c, a), t)
  {
    CaptureSteps(mail, c, a);
    ShiftKeyFollows(z, mail - {a.to}, AfterHand(hand, c, a), t, c, a);
    if a.cap.Some? { TakeKeyFollows(z, mail, hand, t, c, a); } else { assert mail - {a.to} == mail; }
    hide Xor, KeyOf;
  }

  // ----- pieces are conserved -----

  function CountKind(mail: Mail, k: Pc, n: nat): nat
    requires n <= 81
  {
    if n == 0 then 0
    else CountKind(mail, k, n - 1) + (if SqAt(n - 1) in mail && ToUnpro(mail[SqAt(n - 1)].pc) == k then 1 else 0)
  }

  /** All pieces of kind k, promoted or not, on the board and in both hands. */
  function Total(mail: Mail, hand: Hands, k: Pc): nat
  {
    CountKind(mail, k, 81) + Held(hand, Black, k) + Held(hand, White, k)
  }

  lemma {:induction false} CountPut(mail: Mail, k: Pc, s: Sq, man: Man, n: nat)
    requires s !in mail && n <= 81
    ensures CountKind(mail[s := man], k, n) == CountKind(mail, k, n) + if Idx(s) < n
        && ToUnpro(man.pc) == k then 1 else 0
  {
    if n > 0 {
      SqAtIdx(s, n - 1);
      hide SqAt, Idx, ToUnpro;
      CountPut(mail, k, s, man, n - 1);
    }
  }

  lemma CountLift(mail: Mail, k: Pc, s: Sq)
    requires s in mail
    ensures CountKind(mail, k, 81) == CountKind(mail - {s}, k, 81) + if ToUnpro(mail[s].pc) == k then 1 else 0
  {
    assert (mail - {s})[s := mail[s]] == mail;
    CountPut(mail - {s}, k, s, mail[s], 81);
  }

  lemma MoveConserves(mail: Mail, hand: Hands, c: Color, a: Action, k: Pc)
    requires UpdateOk(mail, hand, c, a) && a.Move?
    ensures CountKind(After(mail, c, a), k, 81) + (if a.cap.Some? && ToUnpro(a.cap.value) == k then 1 else 0)
        == CountKind(mail, k, 81)
  {
    if a.cap.Some? { CountLift(mail, k, a.to); } else { assert mail - {a.to} == mail; }
    CountLift(mail - {a.to}, k, a.from);
    CaptureSteps(mail, c, a);
    CountPut(mail - {a.to} - {a.from}, k, a.to, Placed(c, a), 81);
    hide CountKind;
  }

  /** No action makes or loses a piece of any kind, from whatever set of pieces the game began with. */
  lemma PiecesConserved(mail: Mail, hand: Hands, c: Color, a: Action, k: Pc)
    requires UpdateOk(mail, hand, c, a)
    ensures Total(After(mail, c, a), AfterHand(hand, c, a), k) == Total(mail, hand, k)
  {
    if a.Drop? { CountPut(mail, k, a.to, Placed(c, a), 81); } else { MoveConserves(mail, hand, c, a, k); }
    hide CountKind;
  }

  // ----- hand totals -----

  function HandTotal(hand: Hands, c: Color, n: nat): nat
    requires n <= 7
  {
    if n == 0 then 0 else HandTotal(hand, c, n - 1) + Held(hand, c, n - 1)
  }

  lemma {:induction false} HandTotalPut(hand: Hands, c: Color, c': Color, pc: Pc, h: nat, n: nat)
    requires n <= 7 && HandOk(pc)
    ensures HandTotal(hand[(c', pc) := h], c, n) + (if c == c' && pc < n then Held(hand, c, pc) else 0) ==
            HandTotal(hand, c, n) + if c == c' && pc < n then h else 0
  {
    if n > 0 { HandTotalPut(hand, c, c', pc, h, n - 1); }
  }

  ghost predicate TotalsOk(hand: Hands, t: Totals) { forall c: Color :: t.At(c) == HandTotal(hand, c, 7) }

  lemma {:induction false} HandTotalCovers(hand: Hands, c: Color, pc: Pc, n: nat)
    requires pc < n <= 7
    ensures HandTotal(hand, c, n) >= Held(hand, c, pc)
  {
    if pc < n - 1 { HandTotalCovers(hand, c, pc, n - 1); }
  }

  lemma TotalsFollow(mail: Mail, hand: Hands, t: Totals, c: Color, a: Action)
    requires UpdateOk(mail, hand, c, a) && TotalsOk(hand, t)
    ensures a.Drop? ==> t.At(c) > 0
    ensures TotalsOk(AfterHand(hand, c, a), AfterTotals(t, c, a))
  {
    if a.Drop? { HandTotalCovers(hand, c, a.pc, 7); }
    forall d: Color ensures AfterTotals(t, c, a).At(d) == HandTotal(AfterHand(hand, c, a), d, 7) {
      if a.Drop? {
        HandTotalPut(hand, d, c, a.pc, Held(hand, c, a.pc) - 1, 7);
      } else if a.cap.Some? {
        HandTotalPut(hand, d, c, ToUnpro(a.cap.value), Held(hand, c, ToUnpro(a.cap.value)) + 1, 7);
      }
    }
  }

  // ----- the empty board -----

  lemma {:induction false} NoSquaresKey(z: ZTable, n: nat)
    requires n <= 81
    ensures SquaresKey(z, map[], n) == {}
  {
    if n > 0 { NoSquaresKey(z, n - 1); }
  }
  lemma {:induction false} NoPilesKey(z: ZTable, i: nat)
    requires i <= 14
    ensures PilesKey(z, EmptyHands(), i) == {}
  {
    if i > 0 { NoPilesKey(z, i - 1); }
  }
  lemma EmptyKey(z: ZTable)
    ensures KeyOf(z, map[], EmptyHands(), Black) == {}
  {
    NoSquaresKey(z, 81);
    NoPilesKey(z, 14);
  }
}
