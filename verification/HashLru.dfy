/** What the bounded map keeps over any sequence of uses: exactly the keys used most recently. */
module HashLru {
  import opened HashTables

  /** table[key], or table[key] = value. */
  datatype Use<V> = Read(key: HKey) | Write(key: HKey, value: V)

  function After<V>(l: Recency<V>, u: Use<V>, n: nat, zero: V): Recency<V> {
    var m := Touch(l, u.key, n, zero);
    if u.Read? then m else m[|m| - 1 := (u.key, u.value)]
  }

  function Run<V>(uses: seq<Use<V>>, n: nat, zero: V): Recency<V> {
    if uses == [] then [] else After(Run(uses[..|uses| - 1], n, zero), uses[|uses| - 1], n, zero)
  }

  function KeysOf<V>(l: Recency<V>): (ks: seq<HKey>)
    ensures |ks| == |l|
  {
    seq(|l|, i requires 0 <= i < |l| => l[i].0)
  }

  /** Index of key in ks, or |ks|. */
  function Where(ks: seq<HKey>, key: HKey): (p: nat)
    ensures p <= |ks| && (p < |ks| ==> ks[p] == key) && forall q | 0 <= q < p :: ks[q] != key
  {
    if ks == [] || ks[0] == key then 0 else 1 + Where(ks[1..], key)
  }

  /** All keys used so far, each once, in the order of their last uses. */
  function Latest<V>(uses: seq<Use<V>>): seq<HKey> {
    if uses == [] then [] else Renew(Latest(uses[..|uses| - 1]), uses[|uses| - 1].key)
  }
  function Renew(ks: seq<HKey>, key: HKey): seq<HKey> {
    var p := Where(ks, key);
    (if p < |ks| then ks[..p] + ks[p + 1..] else ks) + [key]
  }

  function Newest(ks: seq<HKey>, n: nat): seq<HKey> { if |ks| <= n then ks else ks[|ks| - n..] }

  ghost predicate NoTwice(ks: seq<HKey>) { forall a, b | 0 <= a < b < |ks| :: ks[a] != ks[b] }

  lemma RenewNoTwice(ks: seq<HKey>, key: HKey)
    requires NoTwice(ks)
    ensures NoTwice(Renew(ks, key))
  {}

  lemma {:induction false} LatestNoTwice<V>(uses: seq<Use<V>>)
    ensures NoTwice(Latest(uses))
  {
    if uses != [] {
      LatestNoTwice(uses[..|uses| - 1]);
      RenewNoTwice(Latest(uses[..|uses| - 1]), uses[|uses| - 1].key);
    }
  }

  lemma WhereIsPos<V>(l: Recency<V>, key: HKey)
    ensures Where(KeysOf(l), key) == Pos(l, key)
  {
    var w, p := Where(KeysOf(l), key), Pos(l, key);
    assert p < |l| ==> KeysOf(l)[p] == key;
    assert w < |l| ==> l[w].0 == key;
  }

  lemma NewestOf(a: seq<HKey>, x: seq<HKey>, n: nat)
    requires |x| == n || (a == [] && |x| <= n)
    ensures Newest(a + x, n) == x
  {}

  /** Renew within the newest n keys, which may have to give up their oldest. */
  function RenewBounded(ks: seq<HKey>, key: HKey, n: nat): seq<HKey> {
    if Where(ks, key) < |ks| then Renew(ks, key) else (if 0 < |ks| == n then ks[1..] else ks) + [key]
  }

  lemma WhereWithin(ks: seq<HKey>, key: HKey, d: nat)
    requires NoTwice(ks) && d <= |ks| && Where(ks[d..], key) < |ks[d..]|
    ensures Where(ks, key) == d + Where(ks[d..], key)
  {}

  lemma CutJoin<T>(ks: seq<T>, d: nat, q: nat)
    requires d + q < |ks|
    ensures ks[..d + q] + ks[d + q + 1..] == ks[..d] + (ks[d..][..q] + ks[d..][q + 1..])
  {}

  lemma RenewHeld(ks: seq<HKey>, key: HKey, d: nat)
    requires NoTwice(ks) && d <= |ks| && Where(ks[d..], key) < |ks[d..]|
    ensures Renew(ks, key) == ks[..d] + Renew(ks[d..], key)
  {
    var q := Where(ks[d..], key);
    WhereWithin(ks, key, d);
    hide Where, NoTwice;
    CutJoin(ks, d, q);
    var a, b := ks[..d], ks[d..][..q] + ks[d..][q + 1..];
    assert (a + b) + [key] == a + (b + [key]);
  }

  lemma SplitAt<T>(ks: seq<T>, a: nat, d: nat)
    requires a <= d < |ks|
    ensures ks[a..] == ks[a..d] + [ks[d]] + ks[d..][1..]
  {}

  lemma Regroup<T>(x: seq<T>, y: seq<T>, z: seq<T>, w: seq<T>)
    ensures x + (y + z) + w == (x + y) + (z + w)
  {}

  lemma RenewDropped(ks: seq<HKey>, key: HKey, d: nat)
    requires d < |ks| && Where(ks[d..], key) == |ks[d..]| && Where(ks, key) < |ks|
    ensures (var p := Where(ks, key);
             p < d && Renew(ks, key)
             == (ks[..p] + (ks[p + 1..d] + [ks[d]])) + (ks[d..][1..] + [key]))
  {
    hide Where;
    var p := Where(ks, key);
    SplitAt(ks, p + 1, d);
    Regroup(ks[..p], ks[p + 1..d] + [ks[d]], ks[d..][1..], [key]);
  }

  /** The newest n keys can be maintained from themselves alone. */
  lemma NewestRenew(ks: seq<HKey>, key: HKey, n: nat)
    requires NoTwice(ks) && 0 < n
    ensures Newest(Renew(ks, key), n) == RenewBounded(Newest(ks, n), key, n)
  {
    var l := Newest(ks, n);
    var d := |ks| - |l|;
    assert l == ks[d..];
    if Where(l, key) < |l| {
      RenewHeld(ks, key, d);
      NewestOf(ks[..d], Renew(l, key), n);
    } else if |l| == n {
      NewestFull(ks, key, n);
    } else {
      NewestOf([], ks + [key], n);
      assert [] + (ks + [key]) == ks + [key];
    }
  }

  lemma NewestFull(ks: seq<HKey>, key: HKey, n: nat)
    requires 0 < n <= |ks| && Where(ks[|ks| - n..], key) == n
    ensures Newest(Renew(ks, key), n) == ks[|ks| - n..][1..] + [key]
  {
    hide Newest, Where;
    var d, p := |ks| - n, Where(ks, key);
    var x := ks[d..][1..] + [key];
    if p < |ks| {
      hide Renew;
      RenewDropped(ks, key, d);
      NewestOf(ks[..p] + (ks[p + 1..d] + [ks[d]]), x, n);
    } else {
      SplitSnoc(ks, d, key);
      NewestOf(ks[..d] + [ks[d]], x, n);
    }
  }

  lemma SplitSnoc<T>(ks: seq<T>, d: nat, x: T)
    requires d < |ks|
    ensures ks + [x] == (ks[..d] + [ks[d]]) + (ks[d..][1..] + [x])
  {}

  lemma KeysCut<V>(l: Recency<V>, p: nat)
    requires p < |l|
    ensures KeysOf(l[..p] + l[p + 1..] + [l[p]]) == KeysOf(l)[..p] + KeysOf(l)[p + 1..] + [l[p].0]
  {}

  lemma KeysSnoc<V>(l: Recency<V>, x: (HKey, V))
    ensures KeysOf(l + [x]) == KeysOf(l) + [x.0]
    ensures l != [] ==> KeysOf(l[1..] + [x]) == KeysOf(l)[1..] + [x.0]
  {}

  lemma AfterKeys<V>(l: Recency<V>, u: Use<V>, n: nat, zero: V)
    requires 0 < n && |l| <= n
    ensures KeysOf(After(l, u, n, zero)) == RenewBounded(KeysOf(l), u.key, n)
  {
    WhereIsPos(l, u.key);
    var m, p := Touch(l, u.key, n, zero), Pos(l, u.key);
    if p < |l| { KeysCut(l, p); } else { KeysSnoc(l, (u.key, zero)); }
    assert m[|m| - 1].0 == u.key;
    hide KeysOf;
  }

  /** For every sequence of uses the table of n entries holds the n keys last used, oldest first, and no others. */
  lemma {:induction false} KeepsNewest<V>(uses: seq<Use<V>>, n: nat, zero: V)
    requires 0 < n
    ensures KeysOf(Run(uses, n, zero)) == Newest(Latest(uses), n)
  {
    if uses != [] {
      var us, u := uses[..|uses| - 1], uses[|uses| - 1];
      var l := Run(us, n, zero);
      KeepsNewest(us, n, zero);
      LatestNoTwice(us);
      NewestRenew(Latest(us), u.key, n);
      AfterKeys(l, u, n, zero);
    }
  }

  /** Position in the new list of the q-th element of the old one, when it stays and is not the one used. */
  function Shift(p: nat, q: nat, len: nat, n: nat): (r: int) {
    if p < len then (if q < p then q else q - 1) else if len == n then q - 1 else q
  }

  /** Touch keeps every element but the oldest when a new key needs room, and shifts the later ones. */
  lemma TouchShifts<V>(l: Recency<V>, key: HKey, n: nat, zero: V, q: nat)
    requires 0 < n && |l| <= n && q < |l| && q != Pos(l, key)
    ensures var m, r := Touch(l, key, n, zero), Shift(Pos(l, key), q, |l|, n);
      r < |m| - 1 && (0 <= r ==> m[r] == l[q])
  {}

  lemma Shifted<V>(l: Recency<V>, u: Use<V>, n: nat, zero: V, q: nat)
    requires 0 < n && |l| <= n && q < |l| && q != Pos(l, u.key)
    ensures var m, r := After(l, u, n, zero), Shift(Pos(l, u.key), q, |l|, n);
      r < |m| - 1 && (0 <= r ==> m[r] == l[q])
  {
    TouchShifts(l, u.key, n, zero, q);
    hide Touch, Shift;
  }

  lemma PosUnique<V>(l: Recency<V>, key: HKey, q: nat)
    requires NoTwice(KeysOf(l)) && q < |l| && l[q].0 == key
    ensures Pos(l, key) == q
  {
    var ks := KeysOf(l);
    assert ks[q] == l[q].0 && ks[Pos(l, key)] == l[Pos(l, key)].0;
  }

  lemma AfterNoTwice<V>(l: Recency<V>, u: Use<V>, n: nat, zero: V)
    requires NoTwice(KeysOf(l)) && 0 < n && |l| <= n
    ensures NoTwice(KeysOf(After(l, u, n, zero)))
  {
    AfterKeys(l, u, n, zero);
    RenewNoTwice(KeysOf(l), u.key);
    hide KeysOf, After;
  }

  lemma {:induction false} OldestGoes<V>(l: Recency<V>, u: Use<V>, n: nat, zero: V)
    requires NoTwice(KeysOf(l)) && 0 < n == |l| == Pos(l, u.key)
    ensures var m := After(l, u, n, zero); Pos(m, l[0].0) == |m|
  {
    var m, ks := After(l, u, n, zero), KeysOf(l);
    assert |m| == n && ks[0] == l[0].0;
    assert forall a | 0 <= a < n :: m[a].0 == if a < n - 1 then ks[a + 1] else u.key;
  }

  /** Using one key changes the value of no other key that stays; all stay but the oldest, when a new key needs room. */
  lemma OthersKeepValues<V>(l: Recency<V>, u: Use<V>, n: nat, zero: V, q: nat)
    requires NoTwice(KeysOf(l)) && 0 < n && |l| <= n && q < |l| && l[q].0 != u.key
    ensures var m := After(l, u, n, zero); var p := Pos(m, l[q].0);
      if q == 0 && |l| == n && Pos(l, u.key) == |l| then p == |m| else p < |m| && m[p].1 == l[q].1
  {
    var m, r := After(l, u, n, zero), Shift(Pos(l, u.key), q, |l|, n);
    Shifted(l, u, n, zero, q);
    AfterNoTwice(l, u, n, zero);
    if 0 <= r {
      PosUnique(m, l[q].0, r);
    } else {
      OldestGoes(l, u, n, zero);
    }
  }

  /** A key just used holds what was written, or what it held, or the default value if it is new. */
  lemma UsedValue<V>(l: Recency<V>, u: Use<V>, n: nat, zero: V)
    requires NoTwice(KeysOf(l))
    ensures var m := After(l, u, n, zero); var p := Pos(l, u.key);
      |m| > 0 && m[|m| - 1] == (u.key, if u.Write? then u.value else if p < |l| then l[p].1 else zero)
  {}
}
