/** Actions, legality, and what the program's shortcuts (pins, evasion targets, the mating-pawn test)
    have to do with it (src/common/shogibase.cpp). */
module ShogiRules {
  import opened ShogiGeometry
  import opened ShogiLegality

  datatype Option<+T> = None | Some(value: T)

  datatype Action =
    | Move(from: Sq, to: Sq, pc: Pc, cap: Option<Pc>, promote: bool)
    | Drop(to: Sq, pc: Pc)
    | Resign
    | WinDecl
    | Bad
  {
    /** Action::ok */
    predicate Ok() {
      match this
      case Move(from, to, pc, cap, promote) => cap != Some(King) && from != to && (promote ==> CanPromote(pc))
      case Drop(_, pc) => HandOk(pc)
      case Resign => true
      case WinDecl => true
      case Bad => false
    }
    predicate IsMove() { Move? || Drop? }
  }

  type Hands = map<(Color, Pc), nat>
  function Held(h: Hands, c: Color, pc: Pc): nat { if (c, pc) in h then h[(c, pc)] else 0 }

  function CapAt(mail: Mail, s: Sq): Option<Pc> { if s in mail then Some(mail[s].pc) else None }

  predicate OwnPawnOnFile(mail: Mail, c: Color, f: int) {
    exists s | s in mail :: s.f == f && mail[s] == Man(c, Pawn)
  }

  ghost predicate KingAt(mail: Mail, c: Color, k: Sq) {
    k in mail && mail[k] == Man(c, King) && forall s | s in mail && mail[s] == Man(c, King) :: s == k
  }

  ghost predicate InCheck(mail: Mail, c: Color) {
    exists k: Sq :: KingAt(mail, c, k) && Attacked(mail, mail.Keys, c.Opp(), k)
  }

  /** action_ok_easy, read off the mailbox and the hands. */
  predicate EasyOk(mail: Mail, hand: Hands, c: Color, a: Action) {
    match a
    case Drop(to, pc) =>
      && HandOk(pc) && CanExist(c, to, pc) && to !in mail && Held(hand, c, pc) > 0
      && (pc == Pawn ==> !OwnPawnOnFile(mail, c, to.f))
    case Move(from, to, pc, cap, promote) =>
      && from in mail && mail[from] == Man(c, pc)
      && (match cap case Some(p) => to in mail && mail[to] == Man(c.Opp(), p) case None => to !in mail)
      && (if promote then ZonePromote(c, from, to) else CanExist(c, to, pc))
      && (IsSlider(pc) ==> forall x | x in mail :: !Between(from, to, x))
    case Resign => true
    case WinDecl => true
    case Bad => false
  }

  /** The moving piece really moves that way.  Generated moves do; the program's own tests never ask. */
  ghost predicate InAttackSet(mail: Mail, a: Action) {
    a.Move? ==> a.from in mail && Attacks(mail[a.from].pc, mail[a.from].c, mail.Keys, a.from, a.to)
  }

  function Placed(c: Color, a: Action): Man
    requires a.IsMove() && a.Ok()
  {
    Man(c, if a.Move? && a.promote then ToPro(a.pc) else a.pc)
  }

  function After(mail: Mail, c: Color, a: Action): Mail
    requires a.IsMove() && a.Ok()
  {
    if a.Drop? then mail[a.to := Placed(c, a)] else MoveMail(mail, a.from, a.to, Placed(c, a))
  }

  /** A well-formed board action of c, inside the attack set, that does not leave c's own king attacked. */
  ghost predicate Safe(mail: Mail, hand: Hands, c: Color, a: Action) {
    a.IsMove() && a.Ok() && InAttackSet(mail, a) && EasyOk(mail, hand, c, a) && !InCheck(After(mail, c, a), c)
  }

  /** is_mate_by_drop_pawn, read off the mailbox. */
  ghost predicate MateTest(mail: Mail, c: Color, to: Sq) {
    exists k: Sq :: KingAt(mail, c.Opp(), k) && StepPawn(c, to, k) && NoCapture(mail, c, k, to)
        && NoEscape(mail, c, k, to)
  }

  ghost predicate NoCapture(mail: Mail, c: Color, k: Sq, to: Sq) {
    forall e: Sq :: CanTakePawn(mail, c.Opp(), k, to, e) ==> Pinned(mail, c, k, e, to)
  }

  /** With to occupied, every step of the king on k meets an own man or an attacked square. */
  ghost predicate NoEscape(mail: Mail, c: Color, k: Sq, to: Sq) {
    forall t: Sq :: StepKing(k, t) && !(t in mail && mail[t].c == c.Opp()) ==> Attacked(mail, mail.Keys + {to}, c, t)
  }

  /** e holds a piece of colour x, other than its king, a pawn or a lance, that attacks to. */
  ghost predicate CanTakePawn(mail: Mail, x: Color, k: Sq, to: Sq, e: Sq) {
    e in mail && mail[e].c == x && e != k && mail[e].pc != Pawn && mail[e].pc != Lance
    && Attacks(mail[e].pc, x, mail.Keys, e, to)
  }

  ghost predicate IsMatingDrop(mail: Mail, c: Color, a: Action) {
    a.Drop? && a.pc == Pawn && MateTest(mail, c, a.to)
  }

  /** action_ok_full for an action inside the attack set. */
  ghost predicate Legal(mail: Mail, hand: Hands, c: Color, a: Action) {
    Safe(mail, hand, c, a) && !IsMatingDrop(mail, c, a)
  }

  /** What action_ok_full makes of a board action whose updates meet their assertions. */
  ghost predicate Accepted(mail: Mail, hand: Hands, c: Color, a: Action) {
    a.IsMove() && a.Ok() && EasyOk(mail, hand, c, a) && !InCheck(After(mail, c, a), c) && !IsMatingDrop(mail, c, a)
  }

  /** action_ok_easy: an action that Action::ok rejects is admitted exactly if it captures a king, or promotes a piece
      that cannot promote, and is in order otherwise. */
  lemma EasyButNotOk(mail: Mail, hand: Hands, c: Color, a: Action)
    requires EasyOk(mail, hand, c, a)
    ensures a.Ok() <==> !(a.Move? && (a.cap == Some(King) || (a.promote && !CanPromote(a.pc))))
  {}

  /** A gold beside the king of the other side: taking it is in order for action_ok_easy, but not for Action::ok. */
  lemma KingTaken()
    ensures var mail := map[Sq(8, 4) := Man(Black, King), Sq(0, 4) := Man(White, King), Sq(1, 4) := Man(Black, Gold)];
            var a := Move(Sq(1, 4), Sq(0, 4), Gold, Some(King), false);
            EasyOk(mail, map[], Black, a) && InAttackSet(mail, a) && !a.Ok()
  {}

  // ----- what a safe action looks like -----

  lemma KingStays(mail: Mail, hand: Hands, c: Color, a: Action, k: Sq)
    requires a.IsMove() && a.Ok() && EasyOk(mail, hand, c, a) && InAttackSet(mail, a)
    requires KingAt(mail, c, k) && (a.Move? ==> a.from != k)
    ensures a.to != k && KingAt(After(mail, c, a), c, k)
  {}

  lemma KingMoves(mail: Mail, hand: Hands, c: Color, a: Action, k: Sq)
    requires a.Move? && a.Ok() && EasyOk(mail, hand, c, a) && KingAt(mail, c, k) && a.from == k
    ensures !a.promote && KingAt(After(mail, c, a), c, a.to)
  {}

  /** Board actions other than king moves. */
  lemma NonKingSafe(mail: Mail, hand: Hands, c: Color, a: Action, k: Sq)
    requires a.IsMove() && a.Ok() && EasyOk(mail, hand, c, a) && InAttackSet(mail, a)
    requires KingAt(mail, c, k) && (a.Move? ==> a.from != k)
    ensures Safe(mail, hand, c, a) <==>
            (a.Move? ==> !Pinned(mail, c.Opp(), k, a.from, a.to)) &&
            forall e: Sq :: Threat(mail, mail.Keys, c.Opp(), e, k) ==> e == a.to || Between(k, e, a.to)
  {
    var x, m := c.Opp(), After(mail, c, a);
    KingStays(mail, hand, c, a, k);
    assert InCheck(m, c) <==> Attacked(m, m.Keys, x, k);
    assert (exists e: Sq :: Unanswered(mail, x, k, a.to, e)) <==>
      !(forall e: Sq :: Threat(mail, mail.Keys, x, e, k) ==> e == a.to || Between(k, e, a.to)) by {
      if e: Sq :| Threat(mail, mail.Keys, x, e, k) && !(e == a.to || Between(k, e, a.to)) {
        assert Unanswered(mail, x, k, a.to, e);
      }
    }
    if a.Drop? {
      DropSafety(mail, x, k, a.to, Placed(c, a));
    } else {
      MoveSafety(mail, x, k, a.from, a.to, Placed(c, a));
    }
  }

  lemma KingSafe(mail: Mail, hand: Hands, c: Color, a: Action, k: Sq)
    requires a.Move? && a.Ok() && EasyOk(mail, hand, c, a) && InAttackSet(mail, a)
    requires KingAt(mail, c, k) && a.from == k
    ensures Safe(mail, hand, c, a) <==> !Attacked(mail, mail.Keys - {k}, c.Opp(), a.to)
  {
    var m := After(mail, c, a);
    KingMoves(mail, hand, c, a, k);
    assert InCheck(m, c) <==> Attacked(m, m.Keys, c.Opp(), a.to);
    KingSafety(mail, c.Opp(), k, a.to, Placed(c, a));
  }

  // ----- checkers -----

  /** With two checkers no capture and no block answers both. */
  lemma TwoCheckersNeedKing(mail: Mail, x: Color, k: Sq, e1: Sq, e2: Sq, to: Sq)
    requires k in mail && mail[k].c != x && e1 != e2
    requires Threat(mail, mail.Keys, x, e1, k) && Threat(mail, mail.Keys, x, e2, k)
    ensures !((to == e1 || Between(k, e1, to)) && (to == e2 || Between(k, e2, to)))
  {
    BetweenSym(k, e1, to);
    BetweenSym(k, e2, to);
    BetweenSym(k, e1, e2);
    BetweenSym(k, e2, e1);
    if StepOf(mail[e1].pc, x, e1, k) { StepClear(mail[e1].pc, x, e1, k, to); StepClear(mail[e1].pc, x, e1, k, e2); }
    if StepOf(mail[e2].pc, x, e2, k) { StepClear(mail[e2].pc, x, e2, k, to); StepClear(mail[e2].pc, x, e2, k, e1); }
    assert (to == e1 || Between(k, e1, to)) && (to == e2 || Between(k, e2, to)) ==>
      Between(k, e1, e2) || Between(k, e2, e1);
  }

  /** A man checking after c's action either stands on its target or was uncovered from its source square. */
  lemma CheckerOrigin(mail: Mail, c: Color, a: Action, k: Sq, e: Sq)
    requires a.IsMove() && a.Ok() && (a.Move? ==> a.from in mail && mail[a.from].c == c)
    requires k in mail && mail[k].c != c && a.to != k && !Attacked(mail, mail.Keys, c, k)
    requires var m := After(mail, c, a); Threat(m, m.Keys, c, e, k)
    ensures e == a.to || (a.Move? && Between(k, e, a.from))
  {
    var m := After(mail, c, a);
    assert !Threat(mail, mail.Keys, c, e, k);
    if e != a.to && !(a.Move? && Between(k, e, a.from)) {
      assert !StepOf(mail[e].pc, c, e, k);
      forall q: Sq | Between(e, k, q) ensures q !in mail.Keys {
        BetweenSym(k, e, q);
      }
      assert false;
    }
  }

  /** From a position where the opponent is not in check, one action gives at most two checks. */
  lemma AtMostTwoCheckers(mail: Mail, c: Color, a: Action, k: Sq, e1: Sq, e2: Sq, e3: Sq)
    requires a.IsMove() && a.Ok() && (a.Move? ==> a.from in mail && mail[a.from].c == c)
    requires k in mail && mail[k].c != c && a.to != k && !Attacked(mail, mail.Keys, c, k)
    requires var m := After(mail, c, a);
             Threat(m, m.Keys, c, e1, k) && Threat(m, m.Keys, c, e2, k) && Threat(m, m.Keys, c, e3, k)
    ensures e1 == e2 || e2 == e3 || e1 == e3
  {
    var m := After(mail, c, a);
    CheckerOrigin(mail, c, a, k, e1);
    CheckerOrigin(mail, c, a, k, e2);
    CheckerOrigin(mail, c, a, k, e3);
    if e1 != a.to && e2 != a.to { UncoveredOnce(m, c, k, e1, e2, a.from); }
    if e2 != a.to && e3 != a.to { UncoveredOnce(m, c, k, e2, e3, a.from); }
    if e1 != a.to && e3 != a.to { UncoveredOnce(m, c, k, e1, e3, a.from); }
  }

  lemma UncoveredOnce(m: Mail, c: Color, k: Sq, e1: Sq, e2: Sq, from: Sq)
    requires Threat(m, m.Keys, c, e1, k) && Threat(m, m.Keys, c, e2, k)
    requires Between(k, e1, from) && Between(k, e2, from)
    ensures e1 == e2
  {}
}
