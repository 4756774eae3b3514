/** Check, pins and evasions on a mailbox: what a move does to the safety of the mover's king. */
module ShogiLegality {
  import opened ShogiGeometry

  datatype Man = Man(c: Color, pc: Pc)
  type Mail = map<Sq, Man>

  /** The piece of colour x on e attacks t when exactly the squares of occ are occupied. */
  ghost predicate Threat(mail: Mail, occ: BMap, x: Color, e: Sq, t: Sq) {
    e in mail && mail[e].c == x && Attacks(mail[e].pc, x, occ, e, t)
  }

  ghost predicate Attacked(mail: Mail, occ: BMap, x: Color, t: Sq) {
    exists e: Sq :: Threat(mail, occ, x, e, t)
  }

  /** The mailbox after the man on from, turned into pc, has gone to to (capturing what stood there). */
  function MoveMail(mail: Mail, from: Sq, to: Sq, man: Man): Mail { (mail - {from})[to := man] }

  /** A slider of colour x stands behind from on the line from king k through from, and to leaves that line. */
  ghost predicate PinnedBy(mail: Mail, x: Color, k: Sq, from: Sq, to: Sq, e: Sq) {
    && e in mail && mail[e].c == x
    && Between(k, e, from) && LineOf(mail[e].pc, x, e, k)
    && Sees(mail.Keys, from, k) && Sees(mail.Keys, from, e)
    && Ray(k, to) != Ray(k, from)
  }

  ghost predicate Pinned(mail: Mail, x: Color, k: Sq, from: Sq, to: Sq) {
    exists e: Sq :: PinnedBy(mail, x, k, from, to, e)
  }

  /** Threat e is neither captured on to nor blocked by it. */
  ghost predicate Unanswered(mail: Mail, x: Color, k: Sq, to: Sq, e: Sq) {
    Threat(mail, mail.Keys, x, e, k) && e != to && !Between(k, e, to)
  }

  lemma ThreatKept(mail: Mail, x: Color, k: Sq, from: Sq, to: Sq, man: Man, e: Sq)
    requires man.c != x && from in mail && mail[from].c != x
    requires Unanswered(mail, x, k, to, e)
    ensures var m := MoveMail(mail, from, to, man); Threat(m, m.Keys, x, e, k)
  {}

  lemma PinExposes(mail: Mail, x: Color, k: Sq, from: Sq, to: Sq, man: Man, e: Sq)
    requires man.c != x && from in mail && mail[from].c != x && k in mail && mail[k].c != x && k != from
    requires to != k && PinnedBy(mail, x, k, from, to, e)
    ensures var m := MoveMail(mail, from, to, man); Threat(m, m.Keys, x, e, k)
  {}

  /** A man never reaches, on its own line through k, the far side of k or of a man behind it. */
  lemma StaysInSegment(pc: Pc, c: Color, occ: BMap, k: Sq, from: Sq, to: Sq, e: Sq)
    requires Attacks(pc, c, occ, from, to) && k in occ && e in occ && k != to && e != to
    requires Between(k, e, from) && Ray(k, to) == Ray(k, from)
    ensures Between(k, e, to)
  {}

  lemma ThreatOrigin(mail: Mail, x: Color, k: Sq, from: Sq, to: Sq, man: Man, e: Sq)
    requires man.c != x && from in mail && mail[from].c != x && k in mail && mail[k].c != x && k != from
    requires to != k && Attacks(mail[from].pc, mail[from].c, mail.Keys, from, to)
    requires var m := MoveMail(mail, from, to, man); Threat(m, m.Keys, x, e, k)
    ensures Unanswered(mail, x, k, to, e) || PinnedBy(mail, x, k, from, to, e)
  {
    var m := MoveMail(mail, from, to, man);
    assert e != to && e != from;
    BetweenSym(k, e, to);
    if StepOf(mail[e].pc, x, e, k) {
      StepClear(mail[e].pc, x, e, k, to);
    } else {
      assert !Between(e, k, to);
      BetweenSym(k, e, from);
      if Between(k, e, from) {
        forall q: Sq | Between(from, k, q) ensures q !in mail.Keys { assert Between(e, k, q); }
        forall q: Sq | Between(from, e, q) ensures q !in mail.Keys { assert Between(e, k, q); }
        if Ray(k, to) == Ray(k, from) {
          StaysInSegment(mail[from].pc, mail[from].c, mail.Keys, k, from, to, e);
        }
      } else {
        forall q: Sq | Between(e, k, q) ensures q !in mail.Keys {}
      }
    }
  }

  /** Where a non-king move inside the piece's attack set leaves its king: attacked exactly when the mover
      was pinned or some checker is neither captured nor blocked. */
  lemma MoveSafety(mail: Mail, x: Color, k: Sq, from: Sq, to: Sq, man: Man)
    requires man.c != x && from in mail && mail[from].c != x && k in mail && mail[k].c != x && k != from
    requires to != k && Attacks(mail[from].pc, mail[from].c, mail.Keys, from, to)
    ensures var m := MoveMail(mail, from, to, man);
            Attacked(m, m.Keys, x, k) <==>
            Pinned(mail, x, k, from, to) || exists e: Sq :: Unanswered(mail, x, k, to, e)
  {
    var m := MoveMail(mail, from, to, man);
    if Attacked(m, m.Keys, x, k) {
      var e: Sq :| Threat(m, m.Keys, x, e, k);
      ThreatOrigin(mail, x, k, from, to, man, e);
    }
    if Pinned(mail, x, k, from, to) {
      var e: Sq :| PinnedBy(mail, x, k, from, to, e);
      PinExposes(mail, x, k, from, to, man, e);
    }
    if e: Sq :| Unanswered(mail, x, k, to, e) {
      ThreatKept(mail, x, k, from, to, man, e);
    }
  }

  lemma DropSafety(mail: Mail, x: Color, k: Sq, to: Sq, man: Man)
    requires man.c != x && to !in mail && k in mail && mail[k].c != x
    ensures var m := mail[to := man];
            Attacked(m, m.Keys, x, k) <==> exists e: Sq :: Unanswered(mail, x, k, to, e)
  {
    var m := mail[to := man];
    if e: Sq :| Threat(m, m.Keys, x, e, k) {
      BetweenSym(k, e, to);
      if StepOf(mail[e].pc, x, e, k) { StepClear(mail[e].pc, x, e, k, to); }
      assert Unanswered(mail, x, k, to, e);
    }
    if e: Sq :| Unanswered(mail, x, k, to, e) {
      BetweenSym(k, e, to);
      assert Threat(m, m.Keys, x, e, k);
    }
  }

  /** A king step is safe exactly when no enemy attacks its target with the king lifted off the board. */
  lemma KingSafety(mail: Mail, x: Color, k: Sq, to: Sq, man: Man)
    requires man.c != x && k in mail && mail[k].c != x && k != to
    ensures var m := MoveMail(mail, k, to, man);
            Attacked(m, m.Keys, x, to) <==> Attacked(mail, mail.Keys - {k}, x, to)
  {
    var m := MoveMail(mail, k, to, man);
    forall e: Sq ensures Threat(m, m.Keys, x, e, to) <==> Threat(mail, mail.Keys - {k}, x, e, to) {
      if e in mail && mail[e].c == x {
        if e == to {
          assert !StepOf(mail[e].pc, x, e, to) && Ray(e, to) == NORAY;
        } else {
          assert !Between(e, to, to);
          assert Sees(m.Keys, e, to) <==> Sees(mail.Keys - {k}, e, to);
        }
      }
    }
  }
}
