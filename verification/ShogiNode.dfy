/** The game node: a board, the path of keys and the runs of checks, kept in place (template class Node,
    src/common/shogibase.hpp:564-596, src/common/shogibase.cpp:586-666). */
module ShogiNode {
  import opened ShogiGeometry
  import opened ShogiLegality
  import opened ShogiRules
  import opened ShogiBoardMaps
  import opened ShogiQueries
  import opened ShogiBoard
  import opened ShogiAccounts
  import opened ShogiGame
  import opened ShogiStart

  /** Number of consecutive turns, ending at index i, on which the side to move at i was in check. */
  ghost function CheckRun(checks: seq<bool>, i: nat): nat
    requires i < |checks|
  {
    if !checks[i] then 0 else 1 + if i >= 2 then CheckRun(checks, i - 2) else 0
  }

  lemma {:induction false} CheckRunPrefix(checks: seq<bool>, more: seq<bool>, i: nat)
    requires i < |checks|
    ensures CheckRun(checks + more, i) == CheckRun(checks, i)
  {
    if i >= 2 { CheckRunPrefix(checks, more, i - 2); }
  }

  /** The run ending at i covers all turns of that side after index first exactly when the side was in check on
      each of them. */
  lemma {:induction false} RunIsSince(checks: seq<bool>, i: nat, first: nat)
    requires first <= i < |checks|
    ensures (i + 1 - first) / 2 <= CheckRun(checks, i) <==> CheckedSince(checks, first, i)
  {
    if i > first {
      if i - 2 >= first { RunIsSince(checks, i - 2, first); }
    }
  }

  /** The backward scan of take_action over the positions of one side. */
  method Judge(path: array<Key>, lenIncheck: array<nat>, lenPath: nat, t1: Color, ghost checks: seq<bool>)
    returns (countRepeat: nat, typ: NodeType)
    requires lenPath < path.Length && lenPath + 1 < lenIncheck.Length && |checks| == lenPath + 1
    requires forall i | 0 <= i <= lenPath :: lenIncheck[i + 1] == CheckRun(checks, i)
    requires AtMostThree(path[..lenPath + 1], lenPath)
    ensures typ == Verdict(path[..lenPath + 1], checks, t1)
    ensures countRepeat == Count(path[..lenPath + 1], lenPath, path[lenPath]) - 1
  {
    ghost var keys := path[..lenPath + 1];
    ghost var key := keys[lenPath];
    countRepeat := 0;
    var len := lenPath;
    while 2 <= len
      invariant len <= lenPath && (lenPath - len) % 2 == 0 && countRepeat <= 2
      invariant Count(keys, lenPath, key) == 1 + countRepeat + if len >= 2 then Count(keys, len - 2, key) else 0
      invariant len >= 2 && Count(keys, len - 2, key) > 0
          ==> FirstOcc(keys, lenPath, key) == FirstOcc(keys, len - 2, key)
      decreases len
    {
      len := len - 2;
      if path[len] != path[lenPath] { continue; }
      countRepeat := countRepeat + 1;
      if countRepeat < 3 { continue; }
      AtMostThreeAt(keys, len, lenPath, key);
      assert FirstOcc(keys, lenPath, key) == len;
      var nmove := (lenPath - len) / 2;
      RunIsSince(checks, lenPath, len);
      RunIsSince(checks, lenPath - 1, len);
      if nmove <= lenIncheck[lenPath + 1] { typ := IllegalWin(t1); }
      else if nmove <= lenIncheck[lenPath] { typ := IllegalWin(t1.Opp()); }
      else { typ := Repeated; }
      return;
    }
    typ := Interior;
  }

  /** The third earlier occurrence met by the scan is the first of all. */
  lemma {:induction false} AtMostThreeAt(keys: seq<Key>, len: nat, last: nat, key: Key)
    requires len + 2 <= last < |keys| && AtMostThree(keys, last) && keys[len] == key && keys[last] == key
        && (last - len) % 2 == 0
    requires Count(keys, last, key) == 4 + (if len >= 2 then Count(keys, len - 2, key) else 0)
    ensures len >= 2 ==> Count(keys, len - 2, key) == 0
  {
    LatestBefore(keys, last - 2, key);
    var p := Latest(keys, last - 2, key);
    assert Count(keys, last - 2, key) >= 3;
    assert Count(keys, p, keys[p]) <= 3;
  }

  function Latest(keys: seq<Key>, i: nat, key: Key): (p: nat)
    requires i < |keys|
    ensures p <= i
  {
    if keys[i] == key || i < 2 then i else Latest(keys, i - 2, key)
  }

  lemma {:induction false} LatestBefore(keys: seq<Key>, i: nat, key: Key)
    requires i < |keys| && Count(keys, i, key) > 0
    ensures keys[Latest(keys, i, key)] == key && Count(keys, Latest(keys, i, key), key) == Count(keys, i, key)
  {
    if keys[i] != key { LatestBefore(keys, i - 2, key); }
  }

  // ----- the board along a game -----

  /** The board shows position p: all maps agree, accounts included. */
  ghost predicate Shows(b: Board, even: bool, p: Pos)
    reads b
  {
    match p
    case Pos(mail, hand, turn) =>
      && b.Valid() && KingsReal(mail, b.sqKings) && TotalsOk(hand, b.handColor)
      && b.mail == mail && b.hand == hand && b.zkey == CarriedKey(b.tbl, even, p)
  }

  /** Every legal update takes a board that shows a position to one that shows the next. */
  method Play(b: Board, ghost even: bool, ghost p: Pos, turn: Color, a: Action)
    requires turn == p.turn && Shows(b, even, p) && PosOk(p) && Legal(p.mail, p.hand, p.turn, a)
    modifies b
    ensures Shows(b, even, Next(p, a))
  {
    LegalUpdates(p, a);
    TotalsFollow(p.mail, p.hand, b.handColor, p.turn, a);
    KeyFollows(b.tbl, p.mail, p.hand, if even then p.turn else p.turn.Opp(), p.turn, a);
    RealAfter(p.mail, b.sqKings, p.turn, a);
    hide BoardOk, KingsReal, TotalsOk, KeyOf, AfterKey, After, AfterHand, AfterTotals, Legal, UpdateOk;
    b.Update(turn, a, true);
  }

  // ----- the records along a game -----

  /** lenIncheck[i + 1] is the length of the run of checks that ends at position i. */
  ghost predicate RunsOk(runs: seq<nat>, checks: seq<bool>) {
    |checks| < |runs| && runs[0] == 0 && forall i | 0 <= i < |checks| :: runs[i + 1] == CheckRun(checks, i)
  }

  lemma RunsSnoc(runs: seq<nat>, checks: seq<bool>, check: bool)
    requires RunsOk(runs, checks) && 0 < |checks| && |checks| + 1 < |runs|
    ensures var n := |checks|; RunsOk(runs[n + 1 := if check then runs[n - 1] + 1 else 0], checks + [check])
  {
    var n := |checks|;
    forall i | 0 <= i < n { CheckRunPrefix(checks, [check], i); }
  }

  class Node {
    const N: nat
    /** No handicap was given. */
    const even: bool
    const board: Board
    const path: array<Key>
    const lenIncheck: array<nat>
    var lenPath: nat
    var countRepeat: nat
    var turn: Color
    var typ: NodeType
    /** The positions of the game so far. */
    ghost var hist: seq<Pos>

    ghost function TheGame(): Game
      reads this
    {
      Game(even, hist, typ)
    }

    /** Board, keys and check runs are those of the positions so far. */
    ghost predicate Ok()
      reads this, board, path, lenIncheck
    {
      GoodGame(board.tbl, N, TheGame()) && Recorded()
    }

    ghost predicate Recorded()
      reads this`lenPath, this`hist, this`turn, board, path, lenIncheck
    {
      Records() && Last(hist).turn == turn && Shows(board, even, Last(hist))
    }

    /** The arrays hold the keys and the check runs of all positions so far. */
    ghost predicate Records()
      reads this`lenPath, this`hist, path, lenIncheck
    {
      && 0 < N == path.Length && lenIncheck.Length == N + 1 && |hist| == lenPath + 1 <= N
      && path[..lenPath + 1] == Keys(board.tbl, even, hist) && RunsOk(lenIncheck[..], Checks(hist))
    }

    /** A fresh game with handicap numD. */
    constructor (n: nat, tbl: ZTable, numD: nat)
      requires 0 < n && numD <= 6
      ensures Ok() && N == n && board.tbl == tbl && TheGame() == Game(numD == 0, [StartPos(numD)], Interior)
      ensures fresh(board) && fresh(path) && fresh(lenIncheck)
    {
      N, even := n, numD == 0;
      var b := new Board(tbl);
      board := b;
      path := new Key[n];
      lenIncheck := new nat[n + 1];
      lenPath, countRepeat, turn, typ := 0, 0, StartTurn(numD), Interior;
      hist := [StartPos(numD)];
      new;
      GoodStart(tbl, n, numD);
      Clear(numD);
    }

    /** The part of clear that fills in the board and the first records. */
    method Clear(numD: nat)
      requires 0 < N == path.Length && lenIncheck.Length == N + 1 && numD <= 6 && even == (numD == 0)
      requires lenPath == 0 && turn == StartTurn(numD) && hist == [StartPos(numD)]
      requires board.Valid() && board.mail == map[] && board.hand == EmptyHands() && board.handColor == Totals(0, 0)
      requires board.zkey == {} && board.sqKings == Kings(None, None)
      modifies board, path, lenIncheck
      ensures Recorded()
    {
      hide Shows, CarriedKey, RunsOk;
      SetUp(board, numD);
      var check := ShowsCheck(board, even, StartPos(numD), turn);
      ShowsKey(board, even, StartPos(numD));
      path[0] := board.zkey;
      lenIncheck[0] := 0;
      lenIncheck[1] := if check then 1 else 0;
      FirstRecords(board.tbl, even, StartPos(numD), path[..], lenIncheck[..], check);
      assert path[..][..1] == path[..1];
    }

    predicate IsIncheck()
      requires lenPath + 1 < lenIncheck.Length
      reads this, lenIncheck
    {
      lenIncheck[lenPath + 1] > 0
    }

    /** Note the key and the check of the new position p. */
    method Record(key: Key, check: bool, ghost p: Pos)
      requires Records() && lenPath + 1 < N && key == CarriedKey(board.tbl, even, p) && check == InCheck(p.mail, p.turn)
      modifies this`lenPath, this`hist, path, lenIncheck
      ensures Records() && hist == old(hist) + [p] && lenPath == old(lenPath) + 1
    {
      ghost var h0, runs := hist, lenIncheck[..];
      KeysSnoc(board.tbl, even, h0, p);
      RunsSnoc(runs, Checks(h0), check);
      hide CarriedKey, RunsOk, CheckRun;
      lenPath := lenPath + 1;
      path[lenPath] := key;
      lenIncheck[lenPath + 1] := if check then lenIncheck[lenPath - 1] + 1 else 0;
      hist := h0 + [p];
      assert lenIncheck[..] == runs[lenPath + 1 := if check then runs[lenPath - 1] + 1 else 0];
      assert path[..lenPath + 1] == path[..lenPath] + [key];
    }

    /** The board part of take_action: play a and record key and check. */
    method Advance(a: Action)
      requires Recorded() && a.IsMove() && lenPath + 1 < N && PosOk(Last(hist))
      requires a.Ok() && Legal(Last(hist).mail, Last(hist).hand, Last(hist).turn, a)
      modifies this, board, path, lenIncheck
      ensures hist == old(hist) + [Next(Last(old(hist)), a)] && Recorded() && typ == old(typ)
    {
      hide Shows, PosOk, Legal, CarriedKey, RunsOk;
      ghost var p := Next(Last(hist), a);
      Play(board, even, Last(hist), turn, a);
      turn := turn.Opp();
      var check := ShowsCheck(board, even, p, turn);
      ShowsKey(board, even, p);
      Record(board.zkey, check, p);
    }

    /** A board action that does not exceed the path: play it and judge the new position. */
    method MoveOn(a: Action)
      requires Recorded() && a.IsMove() && lenPath + 1 < N && GoodGame(board.tbl, N, TheGame())
          && Playable(TheGame(), a)
      modifies this, board, path, lenIncheck
      ensures Recorded() && hist == old(hist) + [Next(Last(old(hist)), a)]
      ensures typ == Verdict(Keys(board.tbl, even, hist), Checks(hist), turn)
    {
      hide GoodGame, Shows, PosOk, Legal, CarriedKey, Next, CheckRun, Checks, Keys, Verdict, RunsOk, Step, Playable,
          Recorded;
      AdvanceGood(a);
      JudgeLast();
    }

    method AdvanceGood(a: Action)
      requires Recorded() && a.IsMove() && lenPath + 1 < N && GoodGame(board.tbl, N, TheGame())
          && Playable(TheGame(), a)
      modifies this, board, path, lenIncheck
      ensures Recorded() && hist == old(hist) + [Next(Last(old(hist)), a)]
      ensures AtMostThree(Keys(board.tbl, even, hist), lenPath)
    {
      GoodNext(board.tbl, N, TheGame(), a);
      hide GoodGame, Shows, PosOk, Legal, CarriedKey, Next, CheckRun, Checks, Keys, Verdict, RunsOk, Step, Playable,
          Recorded, AtMostThree;
      Advance(a);
    }

    method JudgeLast()
      requires Recorded() && AtMostThree(Keys(board.tbl, even, hist), lenPath)
      modifies this`countRepeat, this`typ
      ensures typ == Verdict(Keys(board.tbl, even, hist), Checks(hist), turn)
    {
      hide Shows, Verdict, CarriedKey;
      countRepeat, typ := Judge(path, lenIncheck, lenPath, turn, Checks(hist));
    }

    method TakeAction(a: Action)
      requires Ok() && Playable(TheGame(), a)
      modifies this, board, path, lenIncheck
      ensures Ok() && TheGame() == Step(board.tbl, N, old(TheGame()), a)
    {
      StepKeepsGood(board.tbl, N, TheGame(), a);
      if a.IsMove() && lenPath + 1 < N {
        hide *;
        MoveOn(a);
      } else {
        hide Step, GoodGame, Shows, PosOk, Legal, CarriedKey, Next, CheckRun, Checks, Keys, Verdict, RunsOk, Playable;
        typ := if a.Resign? then Resigned else if a.WinDecl? then WinDeclared else MaxlenTerm;
      }
    }
  }

  lemma ShowsKey(b: Board, even: bool, p: Pos)
    requires Shows(b, even, p)
    ensures b.zkey == CarriedKey(b.tbl, even, p)
  {}

  lemma FirstRecords(z: ZTable, even: bool, p: Pos, path: seq<Key>, runs: seq<nat>, check: bool)
    requires check == InCheck(p.mail, p.turn) && |path| > 0 && path[0] == CarriedKey(z, even, p)
    requires |runs| > 1 && runs[0] == 0 && runs[1] == if check then 1 else 0
    ensures path[..1] == Keys(z, even, [p]) && RunsOk(runs, Checks([p]))
  {}

  lemma GoodStart(z: ZTable, N: nat, numD: nat)
    requires N > 0
    ensures GoodGame(z, N, Game(numD == 0, [StartPos(numD)], Interior))
  {
    StartIsGood(numD);
  }

  /** Is the side to move in check? */
  method ShowsCheck(b: Board, ghost even: bool, ghost p: Pos, turn: Color) returns (check: bool)
    requires Shows(b, even, p) && turn == p.turn
    ensures check == InCheck(p.mail, p.turn)
  {
    OkMaps(b.mail, b.maps, b.sqKings, b.hand);
    CheckExact(b.mail, b.maps, b.sqKings, b.hand, turn);
    check := IsInCheck(b.maps, b.sqKings, turn);
  }

  method SetUp(b: Board, numD: nat)
    requires numD <= 6 && b.Valid() && b.mail == map[] && b.hand == EmptyHands() && b.handColor == Totals(0, 0)
    requires b.zkey == {} && b.sqKings == Kings(None, None)
    modifies b
    ensures Shows(b, numD == 0, StartPos(numD))
  {
    EmptyKey(b.tbl);
    PlaceAll(b, numD);
  }

  lemma GoodNext(z: ZTable, N: nat, g: Game, a: Action)
    requires GoodGame(z, N, g) && Playable(g, a) && a.IsMove()
    ensures PosOk(Last(g.hist)) && Legal(Last(g.hist).mail, Last(g.hist).hand, Last(g.hist).turn, a)
    ensures AtMostThree(Keys(z, g.even, g.hist + [Next(Last(g.hist), a)]), |g.hist|)
  {
    GoodPrefix(z, N, g, g.hist + [Next(Last(g.hist), a)]);
  }

  lemma GoodPrefix(z: ZTable, N: nat, g: Game, hist: seq<Pos>)
    requires GoodGame(z, N, g) && g.typ == Interior && |hist| == |g.hist| + 1 && hist[..|g.hist|] == g.hist
    ensures AtMostThree(Keys(z, g.even, hist), |g.hist|)
  {
    var p := Last(hist);
    assert hist == g.hist + [p];
    KeysSnoc(z, g.even, g.hist, p);
    AtMostThreeSnoc(Keys(z, g.even, g.hist), CarriedKey(z, g.even, p));
  }
}
