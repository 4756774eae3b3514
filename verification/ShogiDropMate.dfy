/** is_mate_by_drop_pawn decides mate: the dropped pawn checks and no legal action answers
    (src/common/shogibase.cpp:362-399). */
module ShogiDropMate {
  import opened ShogiGeometry
  import opened ShogiLegality
  import opened ShogiRules

  ghost predicate HasAnswer(mail: Mail, hand: Hands, c: Color) {
    exists a :: Legal(mail, hand, c, a)
  }

  /** Before the drop: the target is free and the side to be mated, which has a king, is not in check. */
  ghost predicate DropSetting(mail: Mail, c: Color, k: Sq, to: Sq) {
    KingAt(mail, c.Opp(), k) && to !in mail && !Attacked(mail, mail.Keys, c, k)
  }

  /** The dropped pawn is the only checker. */
  lemma PawnIsOnlyChecker(mail: Mail, c: Color, k: Sq, to: Sq)
    requires DropSetting(mail, c, k, to)
    ensures var m := mail[to := Man(c, Pawn)];
            (forall e: Sq :: Threat(m, m.Keys, c, e, k) ==> e == to) &&
            (Attacked(m, m.Keys, c, k) <==> StepPawn(c, to, k)) && KingAt(m, c.Opp(), k)
  {
    var m := mail[to := Man(c, Pawn)];
    forall e: Sq | Threat(m, m.Keys, c, e, k) ensures e == to {
      CheckerOrigin(mail, c, Drop(to, Pawn), k, e);
    }
    assert StepPawn(c, to, k) ==> Threat(m, m.Keys, c, to, k);
  }

  /** No drop answers an adjacent check. */
  lemma DropsDoNotAnswer(m: Mail, hand: Hands, x: Color, k: Sq, to: Sq, a: Action)
    requires KingAt(m, x, k) && to in m && m[to] == Man(x.Opp(), Pawn) && StepPawn(x.Opp(), to, k) && a.Drop?
    ensures !Safe(m, hand, x, a)
  {
    if Safe(m, hand, x, a) {
      NonKingSafe(m, hand, x, a, k);
      assert Threat(m, m.Keys, x.Opp(), to, k);
      assert false;
    }
  }

  /** Pins read before and after the drop agree for captures of the pawn. */
  lemma PinUnaffected(mail: Mail, c: Color, k: Sq, to: Sq, from: Sq)
    requires DropSetting(mail, c, k, to) && from in mail && mail[from].c == c.Opp() && from != k
    ensures Pinned(mail, c, k, from, to) <==> Pinned(mail[to := Man(c, Pawn)], c, k, from, to)
  {
    var m := mail[to := Man(c, Pawn)];
    forall e: Sq ensures PinnedBy(mail, c, k, from, to, e) <==> PinnedBy(m, c, k, from, to, e) {
      if Between(k, e, from) && Ray(k, to) != Ray(k, from) {
        assert !Between(from, k, to) && !Between(from, e, to);
        assert Sees(m.Keys, from, k) <==> Sees(mail.Keys, from, k);
        assert Sees(m.Keys, from, e) <==> Sees(mail.Keys, from, e);
      }
    }
  }

  /** A capture of the pawn by a man other than the king: safe exactly when it is not pinned, and available
      exactly when the man's attack set holds the pawn's square. */
  lemma CaptureAnswers(mail: Mail, hand: Hands, c: Color, k: Sq, to: Sq, e: Sq)
    requires DropSetting(mail, c, k, to) && StepPawn(c, to, k)
    requires CanTakePawn(mail, c.Opp(), k, to, e) && !Pinned(mail, c, k, e, to)
    ensures HasAnswer(mail[to := Man(c, Pawn)], hand, c.Opp())
  {
    var x, m := c.Opp(), mail[to := Man(c, Pawn)];
    PawnIsOnlyChecker(mail, c, k, to);
    PinUnaffected(mail, c, k, to, e);
    var a := Move(e, to, mail[e].pc, Some(Pawn), !CanExist(x, to, mail[e].pc));
    assert !Between(e, to, to);
    assert mail[e].pc != King;
    assert InAttackSet(m, a);
    assert IsSlider(a.pc) ==> forall q | q in m :: !Between(e, to, q) by {
      if StepOf(a.pc, x, e, to) { forall q | q in m { StepClear(a.pc, x, e, to, q); } }
    }
    NonKingSafe(m, hand, x, a, k);
    assert Legal(m, hand, x, a);
  }

  /** A capture that answers comes from a man the program looks at. */
  lemma AnswerIsSeen(mail: Mail, hand: Hands, c: Color, k: Sq, to: Sq, a: Action)
    requires DropSetting(mail, c, k, to) && StepPawn(c, to, k)
    requires Safe(mail[to := Man(c, Pawn)], hand, c.Opp(), a) && a.Move? && a.from != k
    ensures CanTakePawn(mail, c.Opp(), k, to, a.from) && !Pinned(mail, c, k, a.from, to)
  {
    var x, m := c.Opp(), mail[to := Man(c, Pawn)];
    PawnIsOnlyChecker(mail, c, k, to);
    NonKingSafe(m, hand, x, a, k);
    assert Threat(m, m.Keys, c, to, k);
    assert !Between(k, to, a.to);
    assert a.to == to && !Between(a.from, to, to);
    PinUnaffected(mail, c, k, to, a.from);
    assert Attacks(a.pc, x, mail.Keys, a.from, to);
    assert a.pc == Lance ==> a.from == k || Between(a.from, to, k);
  }

  /** Lifting the king changes nothing: a man attacking through it would already give check. */
  lemma NoXray(mail: Mail, c: Color, k: Sq, to: Sq, t: Sq)
    requires DropSetting(mail, c, k, to) && StepPawn(c, to, k) && StepKing(k, t)
    ensures var m := mail[to := Man(c, Pawn)];
            Attacked(m, m.Keys - {k}, c, t) <==> Attacked(mail, mail.Keys + {to}, c, t)
  {
    var m := mail[to := Man(c, Pawn)];
    forall e: Sq ensures Threat(m, m.Keys - {k}, c, e, t) <==> Threat(mail, m.Keys, c, e, t) {
      if e in mail && mail[e].c == c && LineOf(mail[e].pc, c, e, t) && !StepOf(mail[e].pc, c, e, t) {
        if Between(e, t, k) && Sees(m.Keys - {k}, e, t) {
          forall q: Sq | Between(e, k, q) ensures q !in mail.Keys { assert Between(e, t, q); }
          assert Threat(mail, mail.Keys, c, e, k);
          assert false;
        }
      }
    }
    assert m.Keys == mail.Keys + {to};
  }

  lemma KingStepAnswers(mail: Mail, hand: Hands, c: Color, k: Sq, to: Sq, t: Sq)
    requires DropSetting(mail, c, k, to) && StepPawn(c, to, k)
    requires StepKing(k, t) && !(t in mail && mail[t].c == c.Opp()) && !Attacked(mail, mail.Keys + {to}, c, t)
    ensures HasAnswer(mail[to := Man(c, Pawn)], hand, c.Opp())
  {
    var x, m := c.Opp(), mail[to := Man(c, Pawn)];
    PawnIsOnlyChecker(mail, c, k, to);
    NoXray(mail, c, k, to, t);
    var a := Move(k, t, King, CapAt(m, t), false);
    assert t in mail && mail[t] == Man(c, King) ==> Threat(mail, mail.Keys, c, t, k);
    KingSafe(m, hand, x, a, k);
    assert Legal(m, hand, x, a);
  }

  /** If the opponent is not already in check, the program's test is true exactly when the dropped pawn gives
      check and no legal action of the opponent answers it. */
  lemma DropMateExact(mail: Mail, hand: Hands, c: Color, k: Sq, to: Sq)
    requires DropSetting(mail, c, k, to)
    ensures var m := mail[to := Man(c, Pawn)];
            MateTest(mail, c, to) <==> InCheck(m, c.Opp()) && !HasAnswer(m, hand, c.Opp())
  {
    var x, m := c.Opp(), mail[to := Man(c, Pawn)];
    PawnIsOnlyChecker(mail, c, k, to);
    assert InCheck(m, x) <==> StepPawn(c, to, k);
    if StepPawn(c, to, k) {
      if !MateTest(mail, c, to) {
        if e: Sq :| CanTakePawn(mail, x, k, to, e) && !Pinned(mail, c, k, e, to) {
          CaptureAnswers(mail, hand, c, k, to, e);
        } else {
          var t: Sq :| StepKing(k, t) && !(t in mail && mail[t].c == x) && !Attacked(mail, mail.Keys + {to}, c, t);
          KingStepAnswers(mail, hand, c, k, to, t);
        }
      } else if HasAnswer(m, hand, x) {
        var a :| Legal(m, hand, x, a);
        if a.Drop? {
          DropsDoNotAnswer(m, hand, x, k, to, a);
        } else if a.from == k {
          KingSafe(m, hand, x, a, k);
          NoXray(mail, c, k, to, a.to);
        } else {
          AnswerIsSeen(mail, hand, c, k, to, a);
        }
      }
    }
  }
}
