/** Which of the received records are refused as duplicates, over a whole run (RecKeep::transact with its table of
    digests, src/server/datakeep.cpp:637-702). */
module RecordRuns {
  import opened HashTables
  import opened HashLru
  import opened RecordArchive

  /** All keys used so far, each once, in the order of their last uses. */
  function LatestKeys(ks: seq<HKey>): seq<HKey> {
    if ks == [] then [] else Renew(LatestKeys(ks[..|ks| - 1]), ks[|ks| - 1])
  }

  /** The different keys used after the last use of key. */
  function SinceLast(ks: seq<HKey>, key: HKey): set<HKey> {
    if ks == [] || ks[|ks| - 1] == key then {} else SinceLast(ks[..|ks| - 1], key) + {ks[|ks| - 1]}
  }

  function SetOf(ks: seq<HKey>): set<HKey> {
    set k | k in ks
  }

  lemma {:induction false} LatestKeysNoTwice(ks: seq<HKey>)
    ensures NoTwice(LatestKeys(ks))
  {
    if ks != [] {
      LatestKeysNoTwice(ks[..|ks| - 1]);
      RenewNoTwice(LatestKeys(ks[..|ks| - 1]), ks[|ks| - 1]);
    }
  }

  lemma WhereOnly(ks: seq<HKey>, key: HKey, p: nat)
    requires NoTwice(ks) && p < |ks| && ks[p] == key
    ensures Where(ks, key) == p
  {}

  /** Behind key stand the keys used since. */
  predicate StandsBefore(l: seq<HKey>, key: HKey, since: set<HKey>) {
    Where(l, key) < |l| && SetOf(l[Where(l, key) + 1..]) == since
  }

  /** Using another key x. */
  lemma RenewOther(l: seq<HKey>, key: HKey, x: HKey, since: set<HKey>)
    requires NoTwice(l) && StandsBefore(l, key, since) && x != key
    ensures StandsBefore(Renew(l, x), key, since + {x})
  {
    hide NoTwice, SetOf;
    var p, q := Where(l, key), Where(l, x);
    var m, r := Renew(l, x), if q < p then p - 1 else p;
    var cut := if q < |l| then l[..q] + l[q + 1..] else l;
    assert m == cut + [x];
    RenewNoTwice(l, x);
    CutBehind(l, x, p, q, r);
    hide Where, Renew;
    WhereOnly(m, key, r);
    assert m[r + 1..] == cut[r + 1..] + [x];
    SetSnoc(cut[r + 1..], x);
  }

  lemma SetSnoc(ks: seq<HKey>, x: HKey)
    ensures SetOf(ks + [x]) == SetOf(ks) + {x}
  {}

  lemma CutBehind(l: seq<HKey>, x: HKey, p: nat, q: nat, r: nat)
    requires p < |l| && q <= |l| && q != p && r == (if q < p then p - 1 else p) && (q < |l| ==> l[q] == x)
    ensures var cut := if q < |l| then l[..q] + l[q + 1..] else l;
            r + 1 <= |cut| && cut[r] == l[p] && SetOf(cut[r + 1..]) + {x} == SetOf(l[p + 1..]) + {x}
  {
    if q < p {
      assert (l[..q] + l[q + 1..])[r + 1..] == l[p + 1..];
    } else if q < |l| {
      var cut := l[..q] + l[q + 1..];
      assert cut[p + 1..] == l[p + 1..q] + l[q + 1..];
      assert l[p + 1..] == l[p + 1..q] + [x] + l[q + 1..];
    }
  }

  lemma {:induction false} LatestStands(ks: seq<HKey>, key: HKey)
    requires key in ks
    ensures StandsBefore(LatestKeys(ks), key, SinceLast(ks, key))
  {
    var init, x := ks[..|ks| - 1], ks[|ks| - 1];
    LatestKeysNoTwice(init);
    if x == key {
      var l := LatestKeys(ks);
      LatestKeysNoTwice(ks);
      WhereOnly(l, key, |l| - 1);
    } else {
      LatestStands(init, key);
      RenewOther(LatestKeys(init), key, x, SinceLast(init, key));
    }
  }

  lemma {:induction false} LatestOnly(ks: seq<HKey>, key: HKey)
    requires key in LatestKeys(ks)
    ensures key in ks
  {
    if ks != [] && ks[|ks| - 1] != key {
      assert key in LatestKeys(ks[..|ks| - 1]);
      LatestOnly(ks[..|ks| - 1], key);
    }
  }

  lemma {:induction false} SetSize(ks: seq<HKey>)
    requires NoTwice(ks)
    ensures |SetOf(ks)| == |ks|
  {
    if ks != [] {
      SetSize(ks[1..]);
      assert SetOf(ks) == SetOf(ks[1..]) + {ks[0]};
    }
  }

  /** A key is among the newest n exactly if it was used and fewer than n different keys have been used since. */
  lemma AmongNewest(ks: seq<HKey>, key: HKey, n: nat)
    requires 0 < n
    ensures key in Newest(LatestKeys(ks), n) <==> key in ks && |SinceLast(ks, key)| < n
  {
    var l := LatestKeys(ks);
    LatestKeysNoTwice(ks);
    if key in ks {
      LatestStands(ks, key);
      var p := Where(l, key);
      SetSize(l[p + 1..]);
    } else if key in Newest(l, n) {
      LatestOnly(ks, key);
    }
  }

  // ----- runs of transact -----

  /** The bounds of the checks, and the size of the table of digests. */
  datatype Rules = Rules(minlenPlay: nat, minaveChild: real, size: nat)

  predicate Passes(u: Rules, r: Record) {
    r.wellFormed && u.minlenPlay <= r.lenPlay && u.minaveChild <= r.aveChild
  }

  /** The keys that the records that pass the checks put into the table. */
  function Asked(u: Rules, rs: seq<Record>): seq<HKey> {
    if rs == [] then [] else Asked(u, rs[..|rs| - 1]) + AskedBy(u, rs[|rs| - 1])
  }

  function AskedBy(u: Rules, r: Record): seq<HKey> {
    if Passes(u, r) then [KeyOf(r.digest)] else []
  }

  /** Record r, coming after rs, is refused as a duplicate: its digest came before, and since then came fewer different
      digests than the table has entries. */
  predicate Duplicate(u: Rules, rs: seq<Record>, r: Record) {
    var ks, key := Asked(u, rs), KeyOf(r.digest);
    key in ks && |SinceLast(ks, key)| < u.size
  }

  /** The records of a run that are stored. */
  function Kept(u: Rules, rs: seq<Record>): seq<Record> {
    if rs == [] then [] else
      var init, r := rs[..|rs| - 1], rs[|rs| - 1];
      Kept(u, init) + if Passes(u, r) && !Duplicate(u, init, r) then [r] else []
  }

  lemma HoldsIsNewest(u: Rules, rs: seq<Record>, l: Recency<RedunValue>, r: Record)
    requires 0 < u.size && KeysOf(l) == Newest(LatestKeys(Asked(u, rs)), u.size)
    ensures Holds(l, r.digest) <==> Duplicate(u, rs, r)
  {
    var ks, key := Asked(u, rs), KeyOf(r.digest);
    AmongNewest(ks, key, u.size);
    WhereIsPos(l, key);
    assert Where(KeysOf(l), key) < |l| <==> key in KeysOf(l);
  }

  lemma NextKeys(u: Rules, rs: seq<Record>, r: Record)
    requires 0 < u.size
    ensures var now, next := Newest(LatestKeys(Asked(u, rs)), u.size), Newest(LatestKeys(Asked(u, rs + [r])), u.size);
            next == if Passes(u, r) then RenewBounded(now, KeyOf(r.digest), u.size) else now
  {
    var ks, key := Asked(u, rs), KeyOf(r.digest);
    if Passes(u, r) { NewestNext(ks, key, u.size); }
    hide Asked, LatestKeys, RenewBounded, Newest;
    assert ks + [] == ks;
  }

  lemma NewestNext(ks: seq<HKey>, key: HKey, n: nat)
    requires 0 < n
    ensures Newest(LatestKeys(ks + [key]), n) == RenewBounded(Newest(LatestKeys(ks), n), key, n)
  {
    assert (ks + [key])[..|ks|] == ks;
    LatestKeysNoTwice(ks);
    NewestRenew(LatestKeys(ks), key, n);
    hide Renew, RenewBounded, Newest;
  }

  ghost function RulesOf(k: RecKeep): Rules {
    Rules(k.minlenPlay, k.minaveChild, k.table.entry.Length)
  }

  // ----- runs of transact -----

  /** The keeper after the records rs. */
  ghost predicate After(k: RecKeep, u: Rules, rs: seq<Record>)
    reads k, k.table, k.table.head, k.table.entry
  {
    k.Valid() && u == RulesOf(k) && 0 < u.size && k.stored == Kept(u, rs)
    && KeysOf(k.table.Recent()) == Newest(LatestKeys(Asked(u, rs)), u.size)
  }

  method TransactOne(k: RecKeep, r: Record, ghost u: Rules, ghost rs: seq<Record>) returns (ok: bool)
    requires After(k, u, rs)
    modifies k, k.table, k.table.head, k.table.entry
    ensures After(k, u, rs + [r]) && ok == (Passes(u, r) && !Duplicate(u, rs, r))
  {
    HoldsIsNewest(u, rs, k.table.Recent(), r);
    NextKeys(u, rs, r);
    assert (rs + [r])[..|rs|] == rs;
    assert Kept(u, rs + [r]) == Kept(u, rs) + if Passes(u, r) && !Duplicate(u, rs, r) then [r] else [];
    assert k.Admissible(r) == Passes(u, r);
    hide Newest, LatestKeys, Duplicate, KeysOf, RenewBounded, Asked, Kept, Passes, Holds, RecKeep.Valid;
    ok := k.Transact(r);
  }

  /** Over every run from an empty keeper a record is refused as a duplicate exactly if its digest is among the
      newest different digests that the table has room for; the others that pass the checks are stored, in order. */
  method TransactAll(k: RecKeep, rs: seq<Record>) returns (oks: seq<bool>)
    requires k.Valid() && k.stored == [] && k.table.Recent() == []
    modifies k, k.table, k.table.head, k.table.entry
    ensures k.Valid() && k.stored == Kept(RulesOf(k), rs) && |oks| == |rs|
    ensures forall i | 0 <= i < |rs| :: oks[i] == (Passes(RulesOf(k), rs[i]) && !Duplicate(RulesOf(k), rs[..i], rs[i]))
  {
    AfterNone(k, RulesOf(k), []);
    hide *;
    oks := Feed(k, rs, RulesOf(k));
  }

  /** Element i of oks says whether record i was stored. */
  ghost predicate Tells(oks: seq<bool>, u: Rules, rs: seq<Record>) {
    |oks| <= |rs| && forall i | 0 <= i < |oks| :: oks[i] == (Passes(u, rs[i]) && !Duplicate(u, rs[..i], rs[i]))
  }

  lemma TellsNext(oks: seq<bool>, u: Rules, rs: seq<Record>, ok: bool)
    requires Tells(oks, u, rs) && |oks| < |rs|
    requires ok == (Passes(u, rs[|oks|]) && !Duplicate(u, rs[..|oks|], rs[|oks|]))
    ensures Tells(oks + [ok], u, rs) && rs[..|oks| + 1] == rs[..|oks|] + [rs[|oks|]]
  {}

  method Feed(k: RecKeep, rs: seq<Record>, ghost u: Rules) returns (oks: seq<bool>)
    requires After(k, u, [])
    modifies k, k.table, k.table.head, k.table.entry
    ensures After(k, u, rs) && Tells(oks, u, rs) && |oks| == |rs|
  {
    oks := [];
    ghost var before: seq<Record> := [];
    assert Tells(oks, u, rs);
    hide *;
    for i := 0 to |rs|
      invariant After(k, u, before) && |oks| == i && Tells(oks, u, rs) && before == rs[..i]
    {
      var ok := TransactOne(k, rs[i], u, before);
      TellsNext(oks, u, rs, ok);
      before := before + [rs[i]];
      oks := oks + [ok];
    }
    assert rs[..|rs|] == rs;
  }

  lemma AfterNone(k: RecKeep, u: Rules, rs: seq<Record>)
    requires k.Valid() && k.stored == [] && k.table.Recent() == [] && u == RulesOf(k) && rs == []
    ensures After(k, u, rs)
  {}
}
