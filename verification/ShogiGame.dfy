/** Whole games: which positions can arise, repetition and perpetual check (template class Node,
    src/common/shogibase.cpp:586-666), stated on the list of positions of a game. */
module ShogiGame {
  import opened ShogiGeometry
  import opened ShogiLegality
  import opened ShogiRules
  import opened ShogiBoardMaps
  import opened ShogiBoard
  import opened ShogiAccounts

  datatype Pos = Pos(mail: Mail, hand: Hands, turn: Color)

  // ----- what every position of a game satisfies -----

  ghost predicate HasKing(mail: Mail, c: Color) { exists k: Sq :: KingAt(mail, c, k) }

  ghost predicate AtMostTwoChecks(mail: Mail, c: Color) {
    forall k: Sq, e1: Sq, e2: Sq, e3: Sq ::
      (KingAt(mail, c, k) && Threat(mail, mail.Keys, c.Opp(), e1, k) && Threat(mail, mail.Keys, c.Opp(), e2, k)
       && Threat(mail, mail.Keys, c.Opp(), e3, k)) ==> e1 == e2 || e2 == e3 || e1 == e3
  }

  ghost predicate FullSet(mail: Mail, hand: Hands) { forall k: Pc | HandOk(k) :: Total(mail, hand, k) <= NumArray(k) }

  /** Men stand where they may, both kings are there, the side that just moved is not in check, at most two
      men give check, and no kind of piece is more numerous than in a full set. */
  ghost predicate PosOk(p: Pos) {
    && Fits(p.mail) && HasKing(p.mail, Black) && HasKing(p.mail, White)
    && !InCheck(p.mail, p.turn.Opp()) && AtMostTwoChecks(p.mail, p.turn) && FullSet(p.mail, p.hand)
  }

  function Next(p: Pos, a: Action): Pos
    requires a.IsMove() && a.Ok()
  {
    Pos(After(p.mail, p.turn, a), AfterHand(p.hand, p.turn, a), p.turn.Opp())
  }

  lemma RoomInHand(mail: Mail, hand: Hands, c: Color, s: Sq)
    requires FullSet(mail, hand) && s in mail && mail[s].pc != King
    ensures Held(hand, c, ToUnpro(mail[s].pc)) < NumArray(ToUnpro(mail[s].pc))
  {
    var k := ToUnpro(mail[s].pc);
    CountLift(mail, k, s);
    assert Total(mail, hand, k) <= NumArray(k);
  }

  lemma LegalUpdates(p: Pos, a: Action)
    requires PosOk(p) && Legal(p.mail, p.hand, p.turn, a)
    ensures UpdateOk(p.mail, p.hand, p.turn, a)
  {
    if a.Move? && a.cap.Some? { RoomInHand(p.mail, p.hand, p.turn, a.to); }
    EasyUpdates(p.mail, p.hand, p.turn, a);
  }

  /** Legal actions never take a king: the opponent is not in check. */
  lemma KingNotTaken(p: Pos, a: Action, k: Sq)
    requires a.IsMove() && a.Ok() && EasyOk(p.mail, p.hand, p.turn, a) && KingAt(p.mail, p.turn.Opp(), k)
    ensures a.to != k && KingAt(After(p.mail, p.turn, a), p.turn.Opp(), k)
  {}

  lemma OwnKingAfter(p: Pos, a: Action, k: Sq)
    requires a.IsMove() && a.Ok() && EasyOk(p.mail, p.hand, p.turn, a) && InAttackSet(p.mail, a)
        && KingAt(p.mail, p.turn, k)
    ensures HasKing(After(p.mail, p.turn, a), p.turn)
  {
    if a.Move? && a.from == k {
      KingMoves(p.mail, p.hand, p.turn, a, k);
    } else {
      KingStays(p.mail, p.hand, p.turn, a, k);
    }
  }

  /** Every legal action leads from a good position to a good position. */
  lemma PosKept(p: Pos, a: Action)
    requires PosOk(p) && Legal(p.mail, p.hand, p.turn, a)
    ensures PosOk(Next(p, a))
  {
    var c, x, m := p.turn, p.turn.Opp(), After(p.mail, p.turn, a);
    LegalUpdates(p, a);
    var kx: Sq :| KingAt(p.mail, x, kx);
    var kc: Sq :| KingAt(p.mail, c, kc);
    KingNotTaken(p, a, kx);
    OwnKingAfter(p, a, kc);
    assert !Attacked(p.mail, p.mail.Keys, c, kx);
    forall k: Sq, e1: Sq, e2: Sq, e3: Sq |
      KingAt(m, x, k) && Threat(m, m.Keys, c, e1, k) && Threat(m, m.Keys, c, e2, k) && Threat(m, m.Keys, c, e3, k)
      ensures e1 == e2 || e2 == e3 || e1 == e3 {
      AtMostTwoCheckers(p.mail, c, a, kx, e1, e2, e3);
    }
    forall k: Pc | HandOk(k) ensures Total(m, AfterHand(p.hand, c, a), k) <= NumArray(k) {
      PiecesConserved(p.mail, p.hand, c, a, k);
      assert Total(p.mail, p.hand, k) <= NumArray(k);
    }
  }

  // ----- repetition -----

  /** Occurrences of key at index i, i - 2, i - 4, ... (the turns of one side). */
  function Count(keys: seq<Key>, i: nat, key: Key): nat
    requires i < |keys|
  {
    (if keys[i] == key then 1 else 0) + if i >= 2 then Count(keys, i - 2, key) else 0
  }

  /** Index of the first of those occurrences. */
  function FirstOcc(keys: seq<Key>, i: nat, key: Key): (j: nat)
    requires i < |keys|
    ensures j <= i
  {
    if i >= 2 && Count(keys, i - 2, key) > 0 then FirstOcc(keys, i - 2, key) else i
  }

  /** The side to move at index i was in check at i and at each of its turns after index first. */
  ghost predicate CheckedSince(checks: seq<bool>, first: nat, i: int) {
    forall j :: first < j <= i < |checks| && (i - j) % 2 == 0 ==> checks[j]
  }

  datatype NodeType = Interior | Resigned | WinDeclared | Repeated | IllegalWin(winner: Color) | MaxlenTerm

  /** The verdict on the last position: the fourth occurrence of its key ends the game, in favour of a side
      that was in check on all its turns since the first occurrence. */
  ghost function Verdict(keys: seq<Key>, checks: seq<bool>, turn: Color): NodeType
    requires 0 < |keys| == |checks|
  {
    var n := |keys| - 1;
    if Count(keys, n, keys[n]) < 4 then Interior
    else
      var first := FirstOcc(keys, n, keys[n]);
      if CheckedSince(checks, first, n) then IllegalWin(turn)
      else if CheckedSince(checks, first, n - 1) then IllegalWin(turn.Opp())
      else Repeated
  }

  /** Keys that agree at the same places give the same counts and the same verdict. */
  ghost predicate SamePattern(a: seq<Key>, b: seq<Key>) {
    |a| == |b| && forall i, j | 0 <= i < |a| && 0 <= j < |a| :: a[i] == a[j] <==> b[i] == b[j]
  }

  lemma {:induction false} SameCount(a: seq<Key>, b: seq<Key>, i: nat, n: nat)
    requires SamePattern(a, b) && i < |a| && n < |a|
    ensures Count(a, i, a[n]) == Count(b, i, b[n]) && FirstOcc(a, i, a[n]) == FirstOcc(b, i, b[n])
  {
    if i >= 2 { SameCount(a, b, i - 2, n); }
  }

  lemma SameVerdict(a: seq<Key>, b: seq<Key>, checks: seq<bool>, turn: Color)
    requires SamePattern(a, b) && 0 < |a| == |checks|
    ensures Verdict(a, checks, turn) == Verdict(b, checks, turn)
  {
    SameCount(a, b, |a| - 1, |a| - 1);
  }

  datatype Game = Game(even: bool, hist: seq<Pos>, typ: NodeType)

  /** The key the board carries in position p.  clear() starts every game from the same zero key, also when White
      moves first; in a handicap game the key is therefore that of the position with the other side to move. */
  function CarriedKey(z: ZTable, even: bool, p: Pos): Key
  {
    KeyOf(z, p.mail, p.hand, if even then p.turn else p.turn.Opp())
  }

  /** The carried key is the one made afresh from the position exactly in even games, unless the key of the turn is
      zero: Board::ok compares the two. */
  lemma CarriedKeyIsMade(z: ZTable, even: bool, p: Pos)
    ensures CarriedKey(z, even, p) == KeyOf(z, p.mail, p.hand, p.turn) <==> even || z.turn == {}
  {
    KeyTurn(z, p.mail, p.hand, p.turn);
    hide KeyOf;
  }

  /** Carried keys agree exactly when the keys made afresh do. */
  lemma CarriedKeysAgree(z: ZTable, even: bool, p: Pos, q: Pos)
    ensures CarriedKey(z, even, p) == CarriedKey(z, even, q)
       <==> KeyOf(z, p.mail, p.hand, p.turn) == KeyOf(z, q.mail, q.hand, q.turn)
  {
    KeyTurn(z, p.mail, p.hand, p.turn);
    KeyTurn(z, q.mail, q.hand, q.turn);
    XorSelf();
    var k, l := KeyOf(z, p.mail, p.hand, p.turn), KeyOf(z, q.mail, q.hand, q.turn);
    assert Xor(Xor(k, z.turn), z.turn) == k && Xor(Xor(l, z.turn), z.turn) == l;
    hide KeyOf, Xor;
  }

  function Keys(z: ZTable, even: bool, hist: seq<Pos>): seq<Key>
  {
    seq(|hist|, i requires 0 <= i < |hist| => CarriedKey(z, even, hist[i]))
  }
  ghost function Checks(hist: seq<Pos>): seq<bool>
  {
    seq(|hist|, i requires 0 <= i < |hist| => InCheck(hist[i].mail, hist[i].turn))
  }

  function Last(hist: seq<Pos>): Pos
    requires |hist| > 0
  {
    hist[|hist| - 1]
  }

  ghost predicate Playable(g: Game, a: Action) {
    |g.hist| > 0 && g.typ == Interior && a.Ok() &&
    (a.IsMove() ==> Legal(Last(g.hist).mail, Last(g.hist).hand, Last(g.hist).turn, a))
  }

  /** take_action on the list of positions; a game of path length N - 1 ends with the next board action. */
  ghost function Step(z: ZTable, N: nat, g: Game, a: Action): Game
    requires Playable(g, a)
  {
    if a.Resign? then g.(typ := Resigned)
    else if a.WinDecl? then g.(typ := WinDeclared)
    else if |g.hist| == N then g.(typ := MaxlenTerm)
    else
      var hist := g.hist + [Next(Last(g.hist), a)];
      Game(g.even, hist, Verdict(Keys(z, g.even, hist), Checks(hist), Last(hist).turn))
  }

  /** Repetition does not depend on whether the carried keys are those of the positions. */
  lemma RepetitionKept(z: ZTable, even: bool, hist: seq<Pos>)
    requires hist != []
    ensures Verdict(Keys(z, even, hist), Checks(hist), Last(hist).turn)
         == Verdict(Keys(z, true, hist), Checks(hist), Last(hist).turn)
  {
    var a, b := Keys(z, even, hist), Keys(z, true, hist);
    forall i, j | 0 <= i < |a| && 0 <= j < |a| ensures a[i] == a[j] <==> b[i] == b[j] {
      CarriedKeysAgree(z, even, hist[i], hist[j]);
      hide KeyOf;
    }
    SameVerdict(a, b, Checks(hist), Last(hist).turn);
    hide Verdict;
  }

  // ----- all runs -----

  /** None of the first n keys is the fourth occurrence of its kind. */
  ghost predicate AtMostThree(keys: seq<Key>, n: int)
  {
    forall i | 0 <= i < n <= |keys| :: Count(keys, i, keys[i]) <= 3
  }

  ghost predicate GoodGame(z: ZTable, N: nat, g: Game) {
    match g
    case Game(even, hist, typ) =>
      && 0 < |hist| <= N
      && (forall i | 0 <= i < |hist| :: PosOk(hist[i]))
      && AtMostThree(Keys(z, even, hist), if typ == Interior then |hist| else |hist| - 1)
  }

  lemma {:induction false} CountPrefix(keys: seq<Key>, more: seq<Key>, i: nat, key: Key)
    requires i < |keys|
    ensures Count(keys + more, i, key) == Count(keys, i, key)
  {
    if i >= 2 { CountPrefix(keys, more, i - 2, key); }
  }

  lemma KeysSnoc(z: ZTable, even: bool, hist: seq<Pos>, p: Pos)
    ensures Keys(z, even, hist + [p]) == Keys(z, even, hist) + [CarriedKey(z, even, p)]
    ensures Checks(hist + [p]) == Checks(hist) + [InCheck(p.mail, p.turn)]
  {}

  lemma AtMostThreeSnoc(keys: seq<Key>, key: Key)
    requires AtMostThree(keys, |keys|)
    ensures AtMostThree(keys + [key], |keys|)
  {
    forall i | 0 <= i < |keys|
      ensures Count(keys + [key], i, (keys + [key])[i]) <= 3
    {
      CountPrefix(keys, [key], i, keys[i]);
    }
  }

  lemma GoodSnoc(z: ZTable, N: nat, g: Game, p: Pos)
    requires GoodGame(z, N, g) && g.typ == Interior && PosOk(p) && |g.hist| < N
    ensures var hist := g.hist
        + [p]; GoodGame(z, N, Game(g.even, hist, Verdict(Keys(z, g.even, hist), Checks(hist), p.turn)))
  {
    var hist := g.hist + [p];
    KeysSnoc(z, g.even, g.hist, p);
    AtMostThreeSnoc(Keys(z, g.even, g.hist), CarriedKey(z, g.even, p));
    hide CarriedKey, PosOk, Verdict, AtMostThree, Checks, Keys;
  }

  lemma StepKeepsGood(z: ZTable, N: nat, g: Game, a: Action)
    requires GoodGame(z, N, g) && Playable(g, a)
    ensures GoodGame(z, N, Step(z, N, g, a))
    ensures Step(z, N, g, a).typ == Interior ==> |Step(z, N, g, a).hist| == |g.hist| + 1
  {
    if a.IsMove() && |g.hist| < N {
      PosKept(Last(g.hist), a);
      GoodSnoc(z, N, g, Next(Last(g.hist), a));
      hide CarriedKey, PosOk, Legal, Verdict, AtMostThree, Keys, Checks, Next;
    }
  }

  ghost predicate IsRun(z: ZTable, N: nat, g: Game, acts: seq<Action>)
    decreases |acts|
  {
    acts == [] || (Playable(g, acts[0]) && IsRun(z, N, Step(z, N, g, acts[0]), acts[1..]))
  }

  ghost function Outcome(z: ZTable, N: nat, g: Game, acts: seq<Action>): Game
    requires IsRun(z, N, g, acts)
    decreases |acts|
  {
    if acts == [] then g else Outcome(z, N, Step(z, N, g, acts[0]), acts[1..])
  }

  /** In every run, as long as the game is interior no key has occurred four times on one side's turns, and a
      run that is still interior is as long as its path. */
  lemma {:induction false} RunsStayGood(z: ZTable, N: nat, g: Game, acts: seq<Action>)
    requires GoodGame(z, N, g) && IsRun(z, N, g, acts)
    ensures var h := Outcome(z, N, g, acts); GoodGame(z, N, h) && (h.typ == Interior ==> |h.hist| == |g.hist| + |acts|)
    decreases |acts|
  {
    if acts != [] {
      StepKeepsGood(z, N, g, acts[0]);
      RunsStayGood(z, N, Step(z, N, g, acts[0]), acts[1..]);
      if acts[1..] != [] { assert Step(z, N, g, acts[0]).typ == Interior; }
    }
  }

  /** Every game from a single position is over after N actions at the latest. */
  lemma GamesEnd(z: ZTable, N: nat, even: bool, p: Pos, acts: seq<Action>)
    requires N > 0 && PosOk(p) && IsRun(z, N, Game(even, [p], Interior), acts)
    ensures |acts| <= N && (|acts| == N ==> Outcome(z, N, Game(even, [p], Interior), acts).typ != Interior)
  {
    var g := Game(even, [p], Interior);
    RunsStayGood(z, N, g, acts);
    if |acts| > N {
      RunSplit(z, N, g, acts, N);
      RunsStayGood(z, N, g, acts[..N]);
      assert false;
    }
  }

  lemma {:induction false} RunSplit(z: ZTable, N: nat, g: Game, acts: seq<Action>, n: nat)
    requires IsRun(z, N, g, acts) && n <= |acts|
    ensures IsRun(z, N, g, acts[..n]) && IsRun(z, N, Outcome(z, N, g, acts[..n]), acts[n..])
    decreases n
  {
    if n > 0 {
      RunSplit(z, N, Step(z, N, g, acts[0]), acts[1..], n - 1);
      assert acts[..n][1..] == acts[1..][..n - 1] && acts[1..][n - 1..] == acts[n..];
    } else {
      assert acts[0..] == acts;
    }
  }
}
