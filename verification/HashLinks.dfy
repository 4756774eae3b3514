/** Intrusive doubly linked lists whose back links are pointers to the pointer that points here: the shape of
    the bucket chains and of the recency list in src/common/hashtbl.hpp.  An Entry* is a Ptr, an Entry** a Slot. */
module HashLinks {
  import opened Pigeonhole

  datatype Ptr = Null | To(e: nat)

  /** The address of the head pointer of list i, or of the forward pointer inside entry e. */
  datatype Slot = Head(i: nat) | Next(e: nat)

  /** Several lists over one array of entries: heads, forward pointers, back pointers. */
  datatype Links = Links(heads: seq<Ptr>, nxt: seq<Ptr>, bk: seq<Slot>) {
    predicate Has(s: Slot) { if s.Head? then s.i < |heads| else s.e < |nxt| }

    /** *s */
    function Get(s: Slot): Ptr
      requires Has(s)
    {
      if s.Head? then heads[s.i] else nxt[s.e]
    }

    /** *s = p */
    function Set(s: Slot, p: Ptr): Links
      requires Has(s)
    {
      if s.Head? then Links(heads[s.i := p], nxt, bk) else Links(heads, nxt[s.e := p], bk)
    }
  }

  /** The address of the pointer to the j-th element of list i, and what it holds. */
  function SlotOf(i: nat, l: seq<nat>, j: nat): Slot
    requires j <= |l|
  {
    if j == 0 then Head(i) else Next(l[j - 1])
  }
  function PtrOf(l: seq<nat>, j: nat): Ptr
    requires j <= |l|
  {
    if j < |l| then To(l[j]) else Null
  }

  /** List i has the elements l: every slot holds the next element, every element knows its slot. */
  ghost predicate IsList(k: Links, i: nat, l: seq<nat>) {
    && i < |k.heads| && Distinct(l) && InRange(l, |k.nxt|) && InRange(l, |k.bk|)
    && (forall j | 0 <= j <= |l| :: k.Get(SlotOf(i, l, j)) == PtrOf(l, j))
    && forall j | 0 <= j < |l| :: k.bk[l[j]] == SlotOf(i, l, j)
  }

  ghost predicate Apart(a: seq<nat>, b: seq<nat>) { forall e | e in a :: e !in b }

  ghost predicate AreLists(k: Links, ls: seq<seq<nat>>) {
    && |ls| == |k.heads| && |k.nxt| == |k.bk|
    && (forall i | 0 <= i < |ls| :: IsList(k, i, ls[i]))
    && forall i, j | 0 <= i < |ls| && 0 <= j < |ls| && i != j :: Apart(ls[i], ls[j])
  }

  predicate CanUnlink(k: Links, t: nat) {
    t < |k.nxt| == |k.bk| && k.Has(k.bk[t]) && (k.nxt[t].To? ==> k.nxt[t].e < |k.bk|)
  }

  /** *(t->bfp) = t->f; if (t->f) t->f->bfp = t->bfp; */
  function Unlink(k: Links, t: nat): Links
    requires CanUnlink(k, t)
  {
    var m := k.Set(k.bk[t], k.nxt[t]);
    if k.nxt[t].To? then Links(m.heads, m.nxt, m.bk[k.nxt[t].e := k.bk[t]]) else m
  }

  /** t->f = nullptr; t->bfp = s; *s = t; */
  function Append(k: Links, s: Slot, t: nat): Links
    requires t < |k.nxt| == |k.bk| && k.Has(s)
  {
    Links(k.heads, k.nxt[t := Null], k.bk[t := s]).Set(s, To(t))
  }

  lemma OnList(k: Links, ls: seq<seq<nat>>, i: nat, j: nat)
    requires AreLists(k, ls) && i < |ls| && j < |ls[i]|
    ensures CanUnlink(k, ls[i][j]) && k.bk[ls[i][j]] == SlotOf(i, ls[i], j) && k.nxt[ls[i][j]] == PtrOf(ls[i], j + 1)
  {
    assert ls[i][j] in ls[i] && IsList(k, i, ls[i]);
    assert k.Get(SlotOf(i, ls[i], j + 1)) == PtrOf(ls[i], j + 1);
    if j > 0 { assert ls[i][j - 1] in ls[i]; }
    if j + 1 < |ls[i]| { assert ls[i][j + 1] in ls[i]; }
  }

  lemma UnlinkGet(k: Links, t: nat, s: Slot)
    requires CanUnlink(k, t) && k.Has(s)
    ensures Unlink(k, t).Has(s) && Unlink(k, t).Get(s) == if s == k.bk[t] then k.nxt[t] else k.Get(s)
  {}

  lemma UnlinkBk(k: Links, t: nat, e: nat)
    requires CanUnlink(k, t) && e < |k.bk|
    ensures e < |Unlink(k, t).nxt| && e < |Unlink(k, t).bk|
    ensures Unlink(k, t).bk[e] == if k.nxt[t] == To(e) then k.bk[t] else k.bk[e]
  {}

  /** What IsList says of slot j and of element j, and that slots differ. */
  lemma AtSlot(k: Links, i: nat, l: seq<nat>, j: nat)
    requires IsList(k, i, l) && j <= |l|
    ensures k.Has(SlotOf(i, l, j)) && k.Get(SlotOf(i, l, j)) == PtrOf(l, j)
    ensures j < |l|
          ==> l[j] < |k.nxt| && l[j] < |k.bk| && k.bk[l[j]] == SlotOf(i, l, j) && k.nxt[l[j]] == PtrOf(l, j + 1)
  {
    assert k.Get(SlotOf(i, l, j)) == PtrOf(l, j);
    if j < |l| { assert k.Get(SlotOf(i, l, j + 1)) == PtrOf(l, j + 1); }
  }

  lemma SlotsDiffer(i: nat, l: seq<nat>, a: nat, b: nat)
    requires Distinct(l) && a <= |l| && b <= |l| && a != b
    ensures SlotOf(i, l, a) != SlotOf(i, l, b)
  {}

  lemma PtrsDiffer(l: seq<nat>, j: nat, b: nat)
    requires Distinct(l) && j <= |l| && b < |l|
    ensures PtrOf(l, j) == To(l[b]) <==> b == j
  {}

  lemma WithoutSlot(i: nat, l: seq<nat>, j: nat, a: nat)
    requires j < |l| && a < |l|
    ensures |Without(l, j)| == |l| - 1 && SlotOf(i, Without(l, j), a) == SlotOf(i, l, if a <= j then a else a + 1)
    ensures PtrOf(Without(l, j), a) == PtrOf(l, if a < j then a else a + 1)
  {
    WithoutAt(l, j);
  }

  lemma UnlinkSlot(k: Links, i: nat, l: seq<nat>, j: nat, a: nat)
    requires IsList(k, i, l) && j < |l| && a < |l| && CanUnlink(k, l[j])
    ensures |Without(l, j)| == |l| - 1
    ensures var s := SlotOf(i, Without(l, j), a); var m := Unlink(k, l[j]);
      m.Has(s) && m.Get(s) == PtrOf(Without(l, j), a)
  {
    var b := if a <= j then a else a + 1;
    AtSlot(k, i, l, j);
    AtSlot(k, i, l, b);
    if a != j { SlotsDiffer(i, l, b, j); }
    WithoutSlot(i, l, j, a);
    UnlinkGet(k, l[j], SlotOf(i, l, b));
    hide Unlink, IsList, Without, SlotOf, PtrOf, Distinct, InRange;
  }

  lemma UnlinkBack(k: Links, i: nat, l: seq<nat>, j: nat, a: nat)
    requires IsList(k, i, l) && j < |l| && a < |l| - 1 && CanUnlink(k, l[j])
    ensures |Without(l, j)| == |l| - 1
    ensures var w, m := Without(l, j), Unlink(k, l[j]);
      w[a] < |m.nxt| && w[a] < |m.bk| && m.bk[w[a]] == SlotOf(i, w, a)
  {
    var b := if a < j then a else a + 1;
    hide Unlink, Without, PtrOf, SlotOf, Distinct;
    AtSlot(k, i, l, j);
    AtSlot(k, i, l, b);
    WithoutSlot(i, l, j, a);
    PtrsDiffer(l, j + 1, b);
    WithoutAt(l, j);
    assert Without(l, j)[a] == l[b];
    UnlinkBk(k, l[j], l[b]);
    hide *;
  }

  lemma UnlinkHere(k: Links, ls: seq<seq<nat>>, i: nat, j: nat)
    requires AreLists(k, ls) && i < |ls| && j < |ls[i]| && CanUnlink(k, ls[i][j])
    ensures IsList(Unlink(k, ls[i][j]), i, Without(ls[i], j))
  {
    WithoutAt(ls[i], j);
    assert IsList(k, i, ls[i]);
    forall a | 0 <= a < |ls[i]| { UnlinkSlot(k, i, ls[i], j, a); }
    forall a | 0 <= a < |ls[i]| - 1 { UnlinkBack(k, i, ls[i], j, a); }
    hide Unlink, AreLists, SlotOf, PtrOf, Without, CanUnlink;
  }

  lemma UnlinkThere(k: Links, ls: seq<seq<nat>>, i: nat, j: nat, o: nat)
    requires AreLists(k, ls) && i < |ls| && j < |ls[i]| && o < |ls| && o != i
    requires CanUnlink(k, ls[i][j])
    ensures IsList(Unlink(k, ls[i][j]), o, ls[o])
  {
    var l, t := ls[o], ls[i][j];
    var m := Unlink(k, t);
    OnList(k, ls, i, j);
    assert IsList(k, o, l) && Apart(ls[i], l);
    if j > 0 { assert ls[i][j - 1] in ls[i]; }
    if j + 1 < |ls[i]| { assert ls[i][j + 1] in ls[i]; }
    forall a | 0 <= a <= |l| ensures m.Get(SlotOf(o, l, a)) == PtrOf(l, a) {
      assert k.Get(SlotOf(o, l, a)) == PtrOf(l, a);
      if a > 0 { assert l[a - 1] in l; }
    }
    forall a | 0 <= a < |l| ensures m.bk[l[a]] == SlotOf(o, l, a) { assert l[a] in l; }
  }

  /** Unlinking the j-th element of list i removes it from that list and leaves all others as they are. */
  lemma UnlinkOk(k: Links, ls: seq<seq<nat>>, i: nat, j: nat)
    requires AreLists(k, ls) && i < |ls| && j < |ls[i]|
    ensures CanUnlink(k, ls[i][j]) && AreLists(Unlink(k, ls[i][j]), ls[i := Without(ls[i], j)])
  {
    OnList(k, ls, i, j);
    UnlinkHere(k, ls, i, j);
    forall o | 0 <= o < |ls| && o != i { UnlinkThere(k, ls, i, j, o); }
    forall e | e in Without(ls[i], j) ensures e in ls[i] {}
    hide IsList;
  }

  lemma AppendGet(k: Links, s: Slot, t: nat, r: Slot)
    requires t < |k.nxt| == |k.bk| && k.Has(s) && k.Has(r) && s != Next(t)
    ensures Append(k, s, t).Has(r)
    ensures Append(k, s, t).Get(r) == if r == s then To(t) else if r == Next(t) then Null else k.Get(r)
  {}

  lemma AppendBk(k: Links, s: Slot, t: nat, e: nat)
    requires t < |k.nxt| == |k.bk| && k.Has(s) && e < |k.bk|
    ensures e < |Append(k, s, t).nxt| && e < |Append(k, s, t).bk|
        && Append(k, s, t).bk[e] == if e == t then s else k.bk[e]
  {}

  lemma SnocSlot(i: nat, l: seq<nat>, t: nat, a: nat)
    requires a <= |l| + 1
    ensures SlotOf(i, l + [t], a) == if a <= |l| then SlotOf(i, l, a) else Next(t)
    ensures PtrOf(l + [t], a) == if a < |l| then PtrOf(l, a) else if a == |l| then To(t) else Null
  {}

  lemma NotOwnSlot(i: nat, l: seq<nat>, t: nat, a: nat)
    requires a <= |l| && t !in l
    ensures SlotOf(i, l, a) != Next(t)
  {
    if a > 0 { assert l[a - 1] in l; }
  }

  lemma AppendSlot(k: Links, i: nat, l: seq<nat>, t: nat, a: nat)
    requires IsList(k, i, l) && t < |k.nxt| == |k.bk| && t !in l && k.Has(SlotOf(i, l, |l|)) && a <= |l| + 1
    ensures var s := SlotOf(i, l + [t], a); var m := Append(k, SlotOf(i, l, |l|), t);
      m.Has(s) && m.Get(s) == PtrOf(l + [t], a)
  {
    NotOwnSlot(i, l, t, |l|);
    SnocSlot(i, l, t, a);
    if a <= |l| {
      AtSlot(k, i, l, a);
      NotOwnSlot(i, l, t, a);
      if a < |l| { SlotsDiffer(i, l, a, |l|); }
    }
    AppendGet(k, SlotOf(i, l, |l|), t, if a <= |l| then SlotOf(i, l, a) else Next(t));
    hide Append, IsList, SlotOf, PtrOf, Distinct, InRange;
  }

  lemma AppendBack(k: Links, i: nat, l: seq<nat>, t: nat, a: nat)
    requires IsList(k, i, l) && t < |k.nxt| == |k.bk| && t !in l && k.Has(SlotOf(i, l, |l|)) && a <= |l|
    ensures var w, m := l + [t], Append(k, SlotOf(i, l, |l|), t);
      w[a] < |m.nxt| && w[a] < |m.bk| && m.bk[w[a]] == SlotOf(i, w, a)
  {
    SnocSlot(i, l, t, a);
    AtSlot(k, i, l, a);
    var e := if a < |l| then l[a] else t;
    assert (l + [t])[a] == e && (a < |l| ==> e in l);
    AppendBk(k, SlotOf(i, l, |l|), t, e);
    hide Append, IsList, SlotOf, PtrOf, Distinct, InRange;
  }

  lemma AppendHere(k: Links, i: nat, l: seq<nat>, t: nat)
    requires IsList(k, i, l) && t < |k.nxt| == |k.bk| && t !in l && k.Has(SlotOf(i, l, |l|))
    ensures IsList(Append(k, SlotOf(i, l, |l|), t), i, l + [t])
  {
    forall a | 0 <= a <= |l| + 1 { AppendSlot(k, i, l, t, a); }
    forall a | 0 <= a <= |l| { AppendBack(k, i, l, t, a); }
    assert Distinct(l + [t]);
    hide PtrOf, SlotOf, Append, Distinct;
  }

  lemma AppendThere(k: Links, ls: seq<seq<nat>>, i: nat, t: nat, o: nat)
    requires AreLists(k, ls) && i < |ls| && t < |k.nxt| && k.Has(SlotOf(i, ls[i], |ls[i]|)) && o < |ls| && o != i
        && t !in ls[o]
    ensures IsList(Append(k, SlotOf(i, ls[i], |ls[i]|), t), o, ls[o])
  {
    var l := ls[o];
    var m := Append(k, SlotOf(i, ls[i], |ls[i]|), t);
    assert IsList(k, o, l) && Apart(ls[i], l);
    if ls[i] != [] { assert ls[i][|ls[i]| - 1] in ls[i]; }
    forall a | 0 <= a <= |l| ensures m.Get(SlotOf(o, l, a)) == PtrOf(l, a) {
      assert k.Get(SlotOf(o, l, a)) == PtrOf(l, a);
      if a > 0 { assert l[a - 1] in l; }
    }
    forall a | 0 <= a < |l| ensures m.bk[l[a]] == SlotOf(o, l, a) { assert l[a] in l; }
  }

  /** Appending an entry that is on no list at the end slot of list i. */
  lemma AppendOk(k: Links, ls: seq<seq<nat>>, i: nat, t: nat)
    requires AreLists(k, ls) && i < |ls| && t < |k.nxt| && forall o | 0 <= o < |ls| :: t !in ls[o]
    ensures k.Has(SlotOf(i, ls[i], |ls[i]|)) && AreLists(Append(k, SlotOf(i, ls[i], |ls[i]|), t), ls[i := ls[i] + [t]])
  {
    assert IsList(k, i, ls[i]);
    if ls[i] != [] { assert ls[i][|ls[i]| - 1] in ls[i]; }
    AppendHere(k, i, ls[i], t);
    forall o | 0 <= o < |ls| && o != i { AppendThere(k, ls, i, t, o); }
    hide IsList;
  }

  /** The end slot of list o after unlinking the j-th element of list i: the unlinked element's own slot if the
      end slot was inside it, and otherwise as before. */
  lemma EndAfterUnlink(ls: seq<seq<nat>>, i: nat, j: nat, o: nat)
    requires i < |ls| && j < |ls[i]| && o < |ls|
    requires forall a | 0 <= a < |ls| :: Distinct(ls[a])
    requires forall a, b | 0 <= a < |ls| && 0 <= b < |ls| && a != b :: Apart(ls[a], ls[b])
    ensures var s, w := SlotOf(o, ls[o], |ls[o]|), ls[i := Without(ls[i], j)];
            SlotOf(o, w[o], |w[o]|) == if s == Next(ls[i][j]) then SlotOf(i, ls[i], j) else s
  {
    var s := SlotOf(o, ls[o], |ls[o]|);
    if o != i {
      if s.Next? { assert s.e in ls[o] && ls[i][j] in ls[i]; }
    } else if j != |ls[i]| - 1 {
      assert ls[i][j] != ls[i][|ls[i]| - 1];
      assert Without(ls[i], j)[|ls[i]| - 2] == ls[i][|ls[i]| - 1];
    }
  }

  // a list on its own

  lemma UnlinkSingle(k: Links, l: seq<nat>, j: nat)
    requires AreLists(k, [l]) && j < |l|
    ensures CanUnlink(k, l[j]) && AreLists(Unlink(k, l[j]), [Without(l, j)])
  {
    var ls := [l];
    UnlinkOk(k, ls, 0, j);
    assert ls[0 := Without(l, j)] == [Without(l, j)];
    hide AreLists, Unlink, CanUnlink, Without;
  }

  lemma AppendSingle(k: Links, l: seq<nat>, t: nat)
    requires AreLists(k, [l]) && t < |k.nxt| && t !in l
    ensures k.Has(SlotOf(0, l, |l|)) && AreLists(Append(k, SlotOf(0, l, |l|), t), [l + [t]])
  {
    var ls := [l];
    AppendOk(k, ls, 0, t);
    assert ls[0 := l + [t]] == [l + [t]];
    hide AreLists, Append, SlotOf;
  }

  lemma SingleList(k: Links, l: seq<nat>)
    requires AreLists(k, [l])
    ensures IsList(k, 0, l)
  {
    assert IsList(k, 0, [l][0]);
  }

  /** The end slot stays the end slot when an element before the last goes. */
  lemma EndStays(l: seq<nat>, j: nat)
    requires j + 1 < |l|
    ensures |Without(l, j)| == |l| - 1 && SlotOf(0, Without(l, j), |l| - 1) == SlotOf(0, l, |l|)
  {
    WithoutAt(l, j);
  }
}
