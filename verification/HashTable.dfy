/** The hash table with least-recently-used eviction (template class HashTable, src/common/hashtbl.hpp). */
module HashTables {
  import opened HashLinks
  import opened Pigeonhole

  /** A key and its value as an unsigned int, from which the bucket is taken. */
  datatype HKey = HKey(id: nat, hash: nat)

  datatype Entry<V> = Entry(f: Ptr, bfp: Slot, usedF: Ptr, usedBfp: Slot, key: HKey, value: V)

  // ----- the bounded least-recently-used map that the table stands for -----

  /** Keys with their values, least recently used first. */
  type Recency<V> = seq<(HKey, V)>

  function Pos<V>(l: Recency<V>, key: HKey): (p: nat)
    ensures p <= |l| && (p < |l| ==> l[p].0 == key) && forall q | 0 <= q < p :: l[q].0 != key
  {
    if l == [] || l[0].0 == key then 0 else 1 + Pos(l[1..], key)
  }

  /** Using key: it becomes the most recent; a new key gets the default value and, when the map is full, drives
      out the least recent one. */
  function Touch<V>(l: Recency<V>, key: HKey, n: nat, zero: V): Recency<V> {
    var p := Pos(l, key);
    if p < |l| then l[..p] + l[p + 1..] + [l[p]]
    else (if 0 < |l| == n then l[1..] else l) + [(key, zero)]
  }

  // ----- the pointers, as values -----

  datatype View<V> = View(chain: Links, used: Links, keys: seq<HKey>, vals: seq<V>, unusedF: Ptr, tail: Slot)

  function Bucket(n: nat, key: HKey): (i: nat)
    requires n > 0
    ensures i < n
  {
    key.hash % n
  }

  /** The unused entries form a list linked forward by used_f. */
  ghost predicate IsFree(nxt: seq<Ptr>, unusedF: Ptr, unused: seq<nat>) {
    && InRange(unused, |nxt|) && Distinct(unused) && unusedF == PtrOf(unused, 0)
    && forall j | 0 <= j < |unused| :: nxt[unused[j]] == PtrOf(unused, j + 1)
  }

  /** Entry e is on chain i exactly if it is in use and its key belongs to bucket i. */
  ghost predicate ChainsHold(keys: seq<HKey>, n: nat, chains: seq<seq<nat>>, used: seq<nat>) {
    && n > 0 && InRange(used, |keys|)
    && forall i, e :: 0 <= i < |chains| ==> (e in chains[i] <==> e in used && e < |keys| && Bucket(n, keys[e]) == i)
  }

  ghost predicate KeysDiffer(keys: seq<HKey>, used: seq<nat>)
    requires InRange(used, |keys|)
  {
    forall a, b | 0 <= a < b < |used| :: keys[used[a]] != keys[used[b]]
  }

  /** Chains, recency list and free list are well linked and apart. */
  ghost predicate Linked<V>(v: View<V>, chains: seq<seq<nat>>, used: seq<nat>, unused: seq<nat>) {
    && |v.chain.heads| > 0 && |v.used.heads| == 1
    && |v.keys| == |v.vals| == |v.chain.nxt| == |v.used.nxt|
    && AreLists(v.chain, chains) && AreLists(v.used, [used]) && v.tail == SlotOf(0, used, |used|)
    && IsFree(v.used.nxt, v.unusedF, unused) && Apart(used, unused)
  }

  ghost predicate Core<V>(v: View<V>, chains: seq<seq<nat>>, used: seq<nat>, unused: seq<nat>) {
    Linked(v, chains, used, unused) && ChainsHold(v.keys, |v.chain.heads|, chains, used) && KeysDiffer(v.keys, used)
  }

  function Contents<V>(v: View<V>, used: seq<nat>): Recency<V>
    requires |v.keys| == |v.vals| && InRange(used, |v.keys|)
  {
    seq(|used|, j requires 0 <= j < |used| => (v.keys[used[j]], v.vals[used[j]]))
  }

  // ----- frames: what the pointer operations leave alone -----

  lemma UnlinkFrame(k: Links, ls: seq<seq<nat>>, i: nat, j: nat, e: nat)
    requires AreLists(k, ls) && i < |ls| && j < |ls[i]| && e < |k.nxt| && e !in ls[i] && CanUnlink(k, ls[i][j])
    ensures |Unlink(k, ls[i][j]).nxt| == |k.nxt| && Unlink(k, ls[i][j]).nxt[e] == k.nxt[e]
  {
    OnList(k, ls, i, j);
  }

  function Rotated(l: seq<nat>, j: nat): seq<nat>
    requires j < |l|
  {
    Without(l, j) + [l[j]]
  }

  // ----- a hit: move the entry to the recent end -----

  function Moved<V>(v: View<V>, t: nat): View<V>
    requires CanUnlink(v.used, t) && Unlink(v.used, t).Has(v.tail)
  {
    v.(used := Append(Unlink(v.used, t), v.tail, t), tail := Next(t))
  }

  lemma MoveOff(k: Links, used: seq<nat>, j: nat)
    requires AreLists(k, [used]) && j + 1 < |used|
    ensures CanUnlink(k, used[j]) && AreLists(Unlink(k, used[j]), [Without(used, j)])
        && used[j] < |Unlink(k, used[j]).nxt|
    ensures used[j] !in Without(used, j) && SlotOf(0, used, |used|) == SlotOf(0, Without(used, j), |Without(used, j)|)
  {
    SingleList(k, used);
    UnlinkSingle(k, used, j);
    EndStays(used, j);
    UnlinkSize(k, used[j]);
  }

  lemma MoveLinks(k: Links, used: seq<nat>, j: nat)
    requires AreLists(k, [used]) && j + 1 < |used|
    ensures var t, s := used[j], SlotOf(0, used, |used|);
            CanUnlink(k, t) && Unlink(k, t).Has(s) && AreLists(Append(Unlink(k, t), s, t), [Rotated(used, j)])
  {
    MoveOff(k, used, j);
    hide AreLists, Unlink, CanUnlink, Without, SlotOf, Append;
    AppendAt(Unlink(k, used[j]), Without(used, j), used[j], SlotOf(0, used, |used|), Rotated(used, j));
  }

  lemma AppendAt(m: Links, w: seq<nat>, t: nat, s: Slot, l: seq<nat>)
    requires AreLists(m, [w]) && t < |m.nxt| && t !in w && s == SlotOf(0, w, |w|) && l == w + [t]
    ensures m.Has(s) && AreLists(Append(m, s, t), [l])
  {
    AppendSingle(m, w, t);
  }

  lemma UnlinkSize(k: Links, t: nat)
    requires CanUnlink(k, t)
    ensures |Unlink(k, t).nxt| == |k.nxt| && |Unlink(k, t).bk| == |k.bk| && |Unlink(k, t).heads| == |k.heads|
  {}

  lemma MoveFrame(k: Links, used: seq<nat>, j: nat, e: nat)
    requires AreLists(k, [used]) && j + 1 < |used| && e < |k.nxt| && e !in used
    requires var t, s := used[j], SlotOf(0, used, |used|); CanUnlink(k, t) && Unlink(k, t).Has(s)
    ensures var t, s := used[j], SlotOf(0, used, |used|); var m := Append(Unlink(k, t), s, t);
            |m.nxt| == |k.nxt| && m.nxt[e] == k.nxt[e]
  {
    UnlinkFrame(k, [used], 0, j, e);
    assert used[|used| - 1] in used;
  }

  lemma ChainsSame(keys: seq<HKey>, n: nat, chains: seq<seq<nat>>, used: seq<nat>, l: seq<nat>)
    requires ChainsHold(keys, n, chains, used) && InRange(l, |keys|) && forall e :: e in l <==> e in used
    ensures ChainsHold(keys, n, chains, l)
  {
    hide Bucket;
    forall i, e | 0 <= i < |chains| ensures e in chains[i] <==> e in l && e < |keys| && Bucket(n, keys[e]) == i {
      assert e in chains[i] <==> e in used && e < |keys| && Bucket(n, keys[e]) == i;
    }
  }

  lemma MoveOk<V>(v: View<V>, chains: seq<seq<nat>>, used: seq<nat>, unused: seq<nat>, j: nat)
    requires Core(v, chains, used, unused) && j + 1 < |used|
    ensures CanUnlink(v.used, used[j]) && Unlink(v.used, used[j]).Has(v.tail)
    ensures Core(Moved(v, used[j]), chains, Rotated(used, j), unused)
  {
    var t := used[j];
    MoveLinks(v.used, used, j);
    forall a | 0 <= a < |unused| ensures Moved(v, t).used.nxt[unused[a]] == v.used.nxt[unused[a]] {
      assert unused[a] in unused;
      MoveFrame(v.used, used, j, unused[a]);
    }
    ChainsSame(v.keys, |v.chain.heads|, chains, used, Rotated(used, j));
    assert Apart(Rotated(used, j), unused);
    hide AreLists, IsFree, KeysDiffer, ChainsHold, Rotated;
  }

  // ----- a full table: drop the least recent entry -----

  function Dropped<V>(v: View<V>, t: nat): View<V>
    requires CanUnlink(v.used, t) && CanUnlink(v.chain, t)
  {
    v.(used := Unlink(v.used, t), chain := Unlink(v.chain, t))
  }

  lemma DropLinked<V>(v: View<V>, chains: seq<seq<nat>>, used: seq<nat>, unused: seq<nat>, i: nat, j: nat)
    requires Linked(v, chains, used, unused) && 2 <= |used| && i < |chains| && j < |chains[i]|
        && chains[i][j] == used[0]
    ensures CanUnlink(v.used, used[0]) && CanUnlink(v.chain, used[0])
    ensures Linked(Dropped(v, used[0]), chains[i := Without(chains[i], j)], used[1..], unused)
    ensures Distinct(chains[i]) && Distinct(used)
  {
    var t := used[0];
    assert Without(used, 0) == used[1..];
    assert IsList(v.chain, i, chains[i]);
    SingleList(v.used, used);
    UnlinkSingle(v.used, used, 0);
    UnlinkOk(v.chain, chains, i, j);
    EndStays(used, 0);
    DropFree(v.used, used, unused, v.unusedF);
    UnlinkSize(v.used, t);
    UnlinkSize(v.chain, t);
    assert Apart(used[1..], unused);
    hide AreLists, IsFree, IsList, Unlink, CanUnlink, SlotOf, Without;
  }

  lemma DropFree(k: Links, used: seq<nat>, unused: seq<nat>, unusedF: Ptr)
    requires AreLists(k, [used]) && used != [] && Apart(used, unused) && IsFree(k.nxt, unusedF, unused)
        && CanUnlink(k, used[0])
    ensures IsFree(Unlink(k, used[0]).nxt, unusedF, unused)
  {
    var m := Unlink(k, used[0]);
    UnlinkSize(k, used[0]);
    forall a | 0 <= a < |unused| ensures m.nxt[unused[a]] == k.nxt[unused[a]] {
      assert unused[a] in unused;
      UnlinkFrame(k, [used], 0, 0, unused[a]);
      hide AreLists, Unlink, CanUnlink;
    }
    hide AreLists, Unlink, CanUnlink, IsFree;
  }

  lemma DropOk<V>(v: View<V>, chains: seq<seq<nat>>, used: seq<nat>, unused: seq<nat>, i: nat, j: nat)
    requires Core(v, chains, used, unused) && 2 <= |used| && i < |chains| && j < |chains[i]| && chains[i][j] == used[0]
    ensures CanUnlink(v.used, used[0]) && CanUnlink(v.chain, used[0])
    ensures Core(Dropped(v, used[0]), chains[i := Without(chains[i], j)], used[1..], unused)
  {
    DropLinked(v, chains, used, unused, i, j);
    DropMembers(v.keys, |v.chain.heads|, chains, used, i, j);
    UnlinkSize(v.chain, used[0]);
    assert KeysDiffer(v.keys, used[1..]);
  }

  lemma DropMembers(keys: seq<HKey>, n: nat, chains: seq<seq<nat>>, used: seq<nat>, i: nat, j: nat)
    requires ChainsHold(keys, n, chains, used) && Distinct(used) && used != []
    requires i < |chains| && j < |chains[i]| && chains[i][j] == used[0] && Distinct(chains[i])
    ensures ChainsHold(keys, n, chains[i := Without(chains[i], j)], used[1..])
  {
    var t, w := used[0], chains[i := Without(chains[i], j)];
    WithoutMembers(chains[i], j);
    WithoutMembers(used, 0);
    var rest := used[1..];
    assert rest == Without(used, 0) && InRange(rest, |keys|);
    assert t in chains[i];
    forall o | 0 <= o < |w| ensures forall e :: e in w[o] <==> e in rest && e < |keys| && Bucket(n, keys[e]) == o {
      assert w[o] == if o == i then Without(chains[i], j) else chains[o];
      assert t in chains[o] <==> t in used && t < |keys| && Bucket(n, keys[t]) == o;
      assert forall e :: e in chains[o] <==> e in used && e < |keys| && Bucket(n, keys[e]) == o;
      hide Bucket, Without, Distinct, InRange;
    }
    hide Bucket, Without, Distinct, InRange;
    assert ChainsHold(keys, n, w, rest);
  }

  // ----- taking an unused entry, and inserting -----

  function Inserted<V>(v: View<V>, s: Slot, t: nat, key: HKey, zero: V): View<V>
    requires t < |v.keys| == |v.vals| && v.chain.Has(s) && v.used.Has(v.tail)
    requires t < |v.chain.nxt| == |v.chain.bk| && t < |v.used.nxt| == |v.used.bk|
  {
    View(Append(v.chain, s, t), Append(v.used, v.tail, t), v.keys[t := key], v.vals[t := zero], v.unusedF, Next(t))
  }

  ghost predicate IsNew<V>(v: View<V>, used: seq<nat>, unused: seq<nat>, t: nat, key: HKey)
    requires InRange(used, |v.keys|)
  {
    t < |v.keys| && t !in used && t !in unused && forall a | 0 <= a < |used| :: v.keys[used[a]] != key
  }

  lemma InsertLinks(k: Links, u: Links, chains: seq<seq<nat>>, used: seq<nat>, i: nat, t: nat)
    requires AreLists(k, chains) && AreLists(u, [used]) && i < |chains| && t < |k.nxt| == |u.nxt| && t !in used
    requires forall o | 0 <= o < |chains| :: t !in chains[o]
    ensures var s, end := SlotOf(i, chains[i], |chains[i]|), SlotOf(0, used, |used|);
            k.Has(s) && u.Has(end) && AreLists(Append(k, s, t), chains[i := chains[i] + [t]])
            && AreLists(Append(u, end, t), [used + [t]])
            && forall e | 0 <= e < |u.nxt| && e !in used && e != t :: Append(u, end, t).nxt[e] == u.nxt[e]
  {
    AppendOk(k, chains, i, t);
    AppendSingle(u, used, t);
    if used != [] { assert used[|used| - 1] in used; }
  }

  lemma InsertLinked<V>(v: View<V>, chains: seq<seq<nat>>, used: seq<nat>, unused: seq<nat>, t: nat, key: HKey, zero: V)
    requires Linked(v, chains, used, unused) && t < |v.keys| && t !in used && t !in unused
    requires forall o | 0 <= o < |chains| :: t !in chains[o]
    ensures var i := Bucket(|v.chain.heads|, key); var s := SlotOf(i, chains[i], |chains[i]|);
            v.chain.Has(s) && v.used.Has(v.tail) &&
            Linked(Inserted(v, s, t, key, zero), chains[i := chains[i] + [t]], used + [t], unused)
  {
    var i := Bucket(|v.chain.heads|, key);
    InsertLinks(v.chain, v.used, chains, used, i, t);
    assert forall a | 0 <= a < |unused| :: unused[a] in unused;
  }

  lemma InsertOk<V>(v: View<V>, chains: seq<seq<nat>>, used: seq<nat>, unused: seq<nat>, t: nat, key: HKey, zero: V)
    requires Core(v, chains, used, unused) && IsNew(v, used, unused, t, key)
    ensures var i := Bucket(|v.chain.heads|, key); var s := SlotOf(i, chains[i], |chains[i]|);
            v.chain.Has(s) && v.used.Has(v.tail) &&
            Core(Inserted(v, s, t, key, zero), chains[i := chains[i] + [t]], used + [t], unused)
  {
    NotChained(v.keys, |v.chain.heads|, chains, used, t);
    hide ChainsHold, KeysDiffer, Append;
    InsertLinked(v, chains, used, unused, t, key, zero);
    InsertMembers(v.keys, |v.chain.heads|, chains, used, t, key);
    hide Linked, Bucket, SlotOf;
  }

  lemma NotChained(keys: seq<HKey>, n: nat, chains: seq<seq<nat>>, used: seq<nat>, t: nat)
    requires ChainsHold(keys, n, chains, used) && t !in used
    ensures forall o | 0 <= o < |chains| :: t !in chains[o]
  {}

  lemma InsertMembers(keys: seq<HKey>, n: nat, chains: seq<seq<nat>>, used: seq<nat>, t: nat, key: HKey)
    requires ChainsHold(keys, n, chains, used) && |chains| == n && t < |keys| && t !in used
    ensures var i := Bucket(n, key); ChainsHold(keys[t := key], n, chains[i := chains[i] + [t]], used + [t])
  {
    var i := Bucket(n, key);
    var u, ch, k2 := used + [t], chains[i := chains[i] + [t]], keys[t := key];
    assert InRange(u, |k2|) && |ch| == |chains|;
    forall o | 0 <= o < |ch| ensures forall e :: e in ch[o] <==> e in u && e < |k2| && Bucket(n, k2[e]) == o {
      assert forall e :: e in chains[o] <==> e in used && e < |keys| && Bucket(n, keys[e]) == o;
      hide Bucket, InRange;
      assert forall e :: e in ch[o] <==> e in chains[o] || (o == i && e == t);
      assert forall e :: e in u <==> e in used || e == t;
    }
    hide Bucket, InRange;
    assert ChainsHold(k2, n, ch, u);
  }

  // ----- what the pointer operations do to the contents -----

  lemma PosAt<V>(v: View<V>, used: seq<nat>, j: nat)
    requires |v.keys| == |v.vals| && InRange(used, |v.keys|) && KeysDiffer(v.keys, used) && j < |used|
    ensures Pos(Contents(v, used), v.keys[used[j]]) == j
  {
    assert Contents(v, used)[j].0 == v.keys[used[j]];
  }

  lemma ContentsCat<V>(v: View<V>, a: seq<nat>, b: seq<nat>)
    requires |v.keys| == |v.vals| && InRange(a, |v.keys|) && InRange(b, |v.keys|)
    ensures InRange(a + b, |v.keys|) && Contents(v, a + b) == Contents(v, a) + Contents(v, b)
  {}

  lemma ContentsSlice<V>(v: View<V>, l: seq<nat>, j: nat)
    requires |v.keys| == |v.vals| && InRange(l, |v.keys|) && j < |l|
    ensures InRange(l[..j], |v.keys|) && Contents(v, l[..j]) == Contents(v, l)[..j]
    ensures InRange(l[j + 1..], |v.keys|) && Contents(v, l[j + 1..]) == Contents(v, l)[j + 1..]
    ensures InRange([l[j]], |v.keys|) && Contents(v, [l[j]]) == [Contents(v, l)[j]]
  {}

  lemma MoveContents<V>(v: View<V>, used: seq<nat>, j: nat, n: nat, zero: V)
    requires |v.keys| == |v.vals| && InRange(used, |v.keys|) && KeysDiffer(v.keys, used) && j < |used|
    requires InRange(Rotated(used, j), |v.keys|)
    ensures Contents(v, Rotated(used, j)) == Touch(Contents(v, used), v.keys[used[j]], n, zero)
    ensures j + 1 == |used| ==> Rotated(used, j) == used
  {
    PosAt(v, used, j);
    hide Contents, KeysDiffer, InRange;
    ContentsSlice(v, used, j);
    ContentsCat(v, used[..j], used[j + 1..]);
    ContentsCat(v, used[..j] + used[j + 1..], [used[j]]);
  }

  /** The key of a used entry is found in the chain of its bucket; a key that no entry of its chain has is new. */
  lemma InItsChain<V>(v: View<V>, chains: seq<seq<nat>>, used: seq<nat>, unused: seq<nat>, key: HKey)
    requires Core(v, chains, used, unused) && |chains| == |v.chain.heads|
    requires forall e | e in chains[Bucket(|v.chain.heads|, key)] && e < |v.keys| :: v.keys[e] != key
    ensures Pos(Contents(v, used), key) == |used|
    ensures forall a | 0 <= a < |used| :: v.keys[used[a]] != key
  {
    var chain := chains[Bucket(|v.chain.heads|, key)];
    forall a | 0 <= a < |used| ensures v.keys[used[a]] != key {
      var e := used[a];
      assert v.keys[e] == key ==> e in chain;
    }
    hide AreLists, IsFree;
  }

  // ----- the entry array seen field by field -----

  function Fs<V>(s: seq<Entry<V>>): seq<Ptr> { seq(|s|, e requires 0 <= e < |s| => s[e].f) }
  function Bfps<V>(s: seq<Entry<V>>): seq<Slot> { seq(|s|, e requires 0 <= e < |s| => s[e].bfp) }
  function UsedFs<V>(s: seq<Entry<V>>): seq<Ptr> { seq(|s|, e requires 0 <= e < |s| => s[e].usedF) }
  function UsedBfps<V>(s: seq<Entry<V>>): seq<Slot> { seq(|s|, e requires 0 <= e < |s| => s[e].usedBfp) }
  function KeysIn<V>(s: seq<Entry<V>>): seq<HKey> { seq(|s|, e requires 0 <= e < |s| => s[e].key) }
  function ValsIn<V>(s: seq<Entry<V>>): seq<V> { seq(|s|, e requires 0 <= e < |s| => s[e].value) }

  function ViewOf<V>(head: seq<Ptr>, s: seq<Entry<V>>, unusedF: Ptr, usedF: Ptr, tail: Slot): View<V> {
    View(Links(head, Fs(s), Bfps(s)), Links([usedF], UsedFs(s), UsedBfps(s)), KeysIn(s), ValsIn(s), unusedF, tail)
  }

  lemma SameUpdate<T>(s: seq<T>, e: nat)
    requires e < |s|
    ensures s[e := s[e]] == s
  {}

  function Pow2(n: nat): (p: nat)
    ensures p > 0
  {
    if n == 0 then 1 else 2 * Pow2(n - 1)
  }

  lemma FreshCore<V>(v: View<V>, chains: seq<seq<nat>>, unused: seq<nat>)
    requires |v.chain.heads| == |chains| > 0 && v.used.heads == [Null] && v.tail == Head(0)
    requires |v.keys| == |v.vals| == |v.chain.nxt| == |v.chain.bk| == |v.used.nxt| == |v.used.bk| == |unused| > 0
    requires forall i | 0 <= i < |chains| :: v.chain.heads[i] == Null && chains[i] == []
    requires v.unusedF == To(0) && forall e | 0 <= e < |unused| :: unused[e] == e
    requires forall e | 0 <= e < |unused| :: v.used.nxt[e] == if e + 1 < |unused| then To(e + 1) else Null
    ensures Core(v, chains, [], unused)
  {
    forall i | 0 <= i < |chains| ensures IsList(v.chain, i, chains[i]) {}
    assert IsList(v.used, 0, [[]][0]);
    assert IsFree(v.used.nxt, v.unusedF, unused);
  }

  /** Slot bfp is the j-th of list c of bucket i, and no earlier entry has the key; the j-th has it exactly if found. */
  ghost predicate StopsAt<V>(v: View<V>, i: nat, c: seq<nat>, key: HKey, bfp: Slot, found: bool, j: nat) {
    && InRange(c, |v.keys|) && j <= |c| && bfp == SlotOf(i, c, j) && v.chain.Has(bfp) && v.chain.Get(bfp) == PtrOf(c, j)
    && (found <==> j < |c|) && (found ==> v.keys[c[j]] == key) && forall a | 0 <= a < j :: v.keys[c[a]] != key
  }

  class HashTable<V(0)> {
    const zero: V
    const head: array<Ptr>
    const entry: array<Entry<V>>
    var unusedF: Ptr
    var usedF: Ptr
    var usedBfp: Slot
    var nused: nat
    ghost var chains: seq<seq<nat>>
    ghost var used: seq<nat>
    ghost var unused: seq<nat>

    /** reset: every bucket empty, every entry unused. */
    constructor (log2Index: nat, nentry: nat, zero: V)
      requires 0 < log2Index < 32 && 1 < nentry
      ensures Valid() && Recent() == [] && entry.Length == nentry && head.Length == Pow2(log2Index) && this.zero == zero
      ensures fresh(head) && fresh(entry)
    {
      this.zero := zero;
      var heads := new Ptr[Pow2(log2Index)];
      forall i | 0 <= i < heads.Length { heads[i] := Null; }
      var cells := new Entry<V>[nentry];
      var u := 0;
      while u < nentry
        invariant 0 <= u <= nentry && fresh(cells) && cells.Length == nentry
        invariant forall i | 0 <= i < heads.Length :: heads[i] == Null
        invariant forall e | 0 <= e < u :: cells[e].usedF == if e + 1 < nentry then To(e + 1) else Null
      {
        cells[u] := cells[u].(usedF := if u + 1 < nentry then To(u + 1) else Null);
        u := u + 1;
      }
      head, entry := heads, cells;
      usedF, usedBfp, unusedF, nused := Null, Head(0), To(0), 0;
      used, chains := [], seq(Pow2(log2Index), i => []);
      unused := seq(nentry, i requires 0 <= i < nentry => i);
      new;
      FreshCore(Seen(), chains, unused);
    }

    ghost function Seen(): View<V>
      reads this, head, entry
    {
      ViewOf(head[..], entry[..], unusedF, usedF, usedBfp)
    }

    ghost predicate Valid()
      reads this, head, entry
    {
      && Core(Seen(), chains, used, unused) && |used| + |unused| == entry.Length && nused == |used| && 2 <= entry.Length
    }

    /** The keys and values held, least recently used first. */
    ghost function Recent(): Recency<V>
      requires Valid()
      reads this, head, entry
    {
      Contents(Seen(), used)
    }

    /** *s = p for a slot of a chain. */
    method SetF(s: Slot, p: Ptr)
      requires Seen().chain.Has(s)
      modifies head, entry
      ensures old(Seen()).chain.Has(s) && Seen() == old(Seen()).(chain := old(Seen()).chain.Set(s, p))
    {
      ghost var h0, e0 := head[..], entry[..];
      if s.Head? {
        head[s.i] := p;
        assert entry[..] == e0 && head[..] == h0[s.i := p];
      } else {
        SameUpdate(Fs(e0), s.e);
        SameUpdate(KeysIn(e0), s.e);
        SameUpdate(ValsIn(e0), s.e);
        entry[s.e] := entry[s.e].(f := p);
        assert entry[..] == e0[s.e := e0[s.e].(f := p)] && head[..] == h0;
      }
    }

    method SetBfp(e: nat, s: Slot)
      requires e < entry.Length
      modifies entry
      ensures Seen()
          == old(Seen()).(chain := Links(old(Seen()).chain.heads, old(Seen()).chain.nxt, old(Seen()).chain.bk[e := s]))
    {
      ghost var e0 := entry[..];
      SameUpdate(Bfps(e0), e);
      SameUpdate(KeysIn(e0), e);
      SameUpdate(ValsIn(e0), e);
      entry[e] := entry[e].(bfp := s);
      assert entry[..] == e0[e := e0[e].(bfp := s)];
    }

    /** *s = p for the head or a forward pointer of the recency list. */
    method SetUsedF(s: Slot, p: Ptr)
      requires if s.Head? then s.i == 0 else s.e < entry.Length
      modifies this`usedF, entry
      ensures old(Seen()).used.Has(s) && Seen() == old(Seen()).(used := old(Seen()).used.Set(s, p))
    {
      ghost var e0 := entry[..];
      if s.Head? {
        usedF := p;
      } else {
        SameUpdate(UsedFs(e0), s.e);
        SameUpdate(KeysIn(e0), s.e);
        SameUpdate(ValsIn(e0), s.e);
        entry[s.e] := entry[s.e].(usedF := p);
        assert entry[..] == e0[s.e := e0[s.e].(usedF := p)];
      }
    }

    method SetUsedBfp(e: nat, s: Slot)
      requires e < entry.Length
      modifies entry
      ensures Seen()
          == old(Seen()).(used := Links(old(Seen()).used.heads, old(Seen()).used.nxt, old(Seen()).used.bk[e := s]))
    {
      ghost var e0 := entry[..];
      SameUpdate(UsedBfps(e0), e);
      SameUpdate(KeysIn(e0), e);
      SameUpdate(ValsIn(e0), e);
      entry[e] := entry[e].(usedBfp := s);
      assert entry[..] == e0[e := e0[e].(usedBfp := s)];
    }

    method SetPair(e: nat, key: HKey, value: V)
      requires e < entry.Length
      modifies entry
      ensures Seen() == old(Seen()).(keys := old(Seen()).keys[e := key], vals := old(Seen()).vals[e := value])
    {
      ghost var e0 := entry[..];
      entry[e] := entry[e].(key := key, value := value);
      assert entry[..] == e0[e := e0[e].(key := key, value := value)];
    }

    /** Take t, which has a successor, out of the recency list. */
    method UnlinkUsed(t: nat)
      requires CanUnlink(Seen().used, t) && entry[t].usedF.To?
      modifies this`usedF, entry
      ensures CanUnlink(old(Seen()).used, t) && Seen() == old(Seen()).(used := Unlink(old(Seen()).used, t))
    {
      ghost var u := Seen().used;
      assert u.bk[t] == entry[t].usedBfp && u.nxt[t] == entry[t].usedF;
      var next, slot := entry[t].usedF, entry[t].usedBfp;
      hide Seen;
      SetUsedBfp(next.e, slot);
      SetUsedF(slot, next);
    }

    /** Take the oldest entry t off the recency list. */
    method RemoveOldest(t: nat)
      requires CanUnlink(Seen().used, t) && entry[t].usedF.To? && entry[t].usedBfp == Head(0)
      modifies this`usedF, entry
      ensures CanUnlink(old(Seen()).used, t) && Seen() == old(Seen()).(used := Unlink(old(Seen()).used, t))
    {
      ghost var u := Seen().used;
      assert u.bk[t] == entry[t].usedBfp && u.nxt[t] == entry[t].usedF;
      hide Seen;
      var next := entry[t].usedF.e;
      SetUsedF(Head(0), To(next));
      SetUsedBfp(next, Head(0));
    }

    /** Put t at the recent end of the recency list. */
    method AppendUsed(t: nat)
      requires t < entry.Length && Seen().used.Has(usedBfp)
      modifies this`usedF, this`usedBfp, entry
      ensures t < |old(Seen()).used.nxt| == |old(Seen()).used.bk| && old(Seen()).used.Has(old(usedBfp))
      ensures Seen() == old(Seen()).(used := Append(old(Seen()).used, old(usedBfp), t), tail := Next(t))
    {
      SetUsedF(Next(t), Null);
      SetUsedBfp(t, usedBfp);
      SetUsedF(usedBfp, To(t));
      usedBfp := Next(t);
    }

    /** Take t out of its chain. */
    method UnlinkChain(t: nat)
      requires CanUnlink(Seen().chain, t)
      modifies head, entry
      ensures CanUnlink(old(Seen()).chain, t) && Seen() == old(Seen()).(chain := Unlink(old(Seen()).chain, t))
    {
      ghost var k := Seen().chain;
      assert k.bk[t] == entry[t].bfp && k.nxt[t] == entry[t].f;
      var next, slot := entry[t].f, entry[t].bfp;
      hide Seen;
      SetF(slot, next);
      if next.To? { SetBfp(next.e, slot); }
    }

    /** Put t at the end slot s of a chain. */
    method AppendChain(s: Slot, t: nat)
      requires t < entry.Length && Seen().chain.Has(s)
      modifies head, entry
      ensures t < |old(Seen()).chain.nxt| == |old(Seen()).chain.bk| && old(Seen()).chain.Has(s)
      ensures Seen() == old(Seen()).(chain := Append(old(Seen()).chain, s, t))
    {
      SetF(Next(t), Null);
      SetBfp(t, s);
      SetF(s, To(t));
    }

    /** *s for a slot of a chain. */
    function Deref(s: Slot): (p: Ptr)
      requires Seen().chain.Has(s)
      reads this, head, entry
      ensures p == Seen().chain.Get(s)
    {
      if s.Head? then head[s.i] else entry[s.e].f
    }

    function KeyAt(e: nat): (key: HKey)
      requires e < |Seen().keys|
      reads this, head, entry
      ensures key == Seen().keys[e]
    {
      entry[e].key
    }

    /** The search loop: the slot of the first entry of the chain with this key, or the chain's end slot. */
    method Walk(index: nat, key: HKey, ghost c: seq<nat>) returns (bfp: Slot, found: bool, ghost j: nat)
      requires IsList(Seen().chain, index, c) && InRange(c, |Seen().keys|)
      ensures StopsAt(Seen(), index, c, key, bfp, found, j)
    {
      ghost var v := Seen();
      hide Seen, IsList, SlotOf;
      ListStep(v.chain, index, c, 0);
      bfp, j := Head(index), 0;
      while true
        invariant j <= |c| && bfp == SlotOf(index, c, j) && forall a | 0 <= a < j :: v.keys[c[a]] != key
        decreases |c| - j
      {
        ListStep(v.chain, index, c, j);
        var p := Deref(bfp);
        if p.Null? { return bfp, false, j; }
        if KeyAt(p.e) == key { return bfp, true, j; }
        ListStep(v.chain, index, c, j + 1);
        bfp, j := Next(p.e), j + 1;
      }
    }

    method Find(key: HKey) returns (bfp: Slot, found: bool, ghost j: nat)
      requires Valid()
      ensures |chains| == |Seen().chain.heads| > 0
      ensures StopsAt(Seen(), Bucket(|Seen().chain.heads|, key), chains[Bucket(|Seen().chain.heads|, key)], key, bfp,
                      found, j)
    {
      var index := key.hash % head.Length;
      hide Core, IsList, StopsAt;
      bfp, found, j := Walk(index, key, chains[index]);
    }

    /** A hit: unless it is the most recent already, move the entry to the recent end. */
    method Hit(t: nat, ghost a: nat)
      requires Valid() && a < |used| && used[a] == t
      modifies this`usedF, this`usedBfp, this`used, entry
      ensures Valid() && used == Rotated(old(used), a)
      ensures Seen().keys == old(Seen()).keys && Seen().vals == old(Seen()).vals
    {
      HitOk(Seen(), chains, used, unused, a);
      hide Core, Seen, Rotated, CanUnlink;
      if entry[t].usedF.To? {
        UnlinkUsed(t);
        AppendUsed(t);
        used := Rotated(used, a);
      }
    }

    /** No unused entry is left: take the least recent one off both its lists.  end is the end slot of chain o
        before, and the returned slot the one after. */
    method Evict(end: Slot, ghost o: nat) returns (t: nat, bfp: Slot)
      requires Valid() && unused == [] && o < |chains| && end == SlotOf(o, chains[o], |chains[o]|)
      modifies this`usedF, this`used, this`chains, head, entry
      ensures Core(Seen(), chains, used, unused) && o < |chains| && bfp == SlotOf(o, chains[o], |chains[o]|)
      ensures old(used) == [t] + used && IsSpare(Seen(), used, unused, t)
      ensures Seen().keys == old(Seen()).keys && Seen().vals == old(Seen()).vals
          && |Seen().chain.heads| == |old(Seen()).chain.heads|
    {
      ghost var i, j := EvictOk(Seen(), chains, used, unused, o);
      ghost var v := Seen();
      assert v.used.heads == [usedF] && |v.used.nxt| == entry.Length;
      hide Core, Seen, KeysDiffer, Without, Unlink, SlotOf, CanUnlink, IsSpare;
      t := usedF.e;
      bfp := if end == Next(t) then entry[t].bfp else end;
      Detach(t);
      chains := chains[i := Without(chains[i], j)];
      used := used[1..];
      hide *;
      assert Seen() == Dropped(v, t);
    }

    /** Take t off both its lists. */
    method Detach(t: nat)
      requires CanUnlink(Seen().used, t) && CanUnlink(Seen().chain, t)
      requires entry[t].usedF.To? && entry[t].usedBfp == Head(0)
      modifies this`usedF, head, entry
      ensures CanUnlink(old(Seen()).used, t) && CanUnlink(old(Seen()).chain, t) && Seen() == Dropped(old(Seen()), t)
    {
      hide Seen, CanUnlink, Unlink;
      RemoveOldest(t);
      UnlinkChain(t);
    }

    /** Take the first unused entry. */
    method Take() returns (t: nat)
      requires Valid() && unused != []
      modifies this`unusedF, this`unused, this`nused
      ensures Core(Seen(), chains, used, unused) && old(unused) == [t] + unused && nused == old(nused) + 1
      ensures IsSpare(Seen(), used, unused, t)
      ensures Seen().keys == old(Seen()).keys && Seen().vals == old(Seen()).vals && Seen().chain == old(Seen()).chain
    {
      assert UsedFs(entry[..])[unused[0]] == entry[unused[0]].usedF;
      hide Core;
      t := unusedF.e;
      unusedF := entry[t].usedF;
      nused := nused + 1;
      unused := unused[1..];
    }

    /** Give entry t the key and the default value and put it at the end of its chain and of the recency list. */
    method Insert(t: nat, bfp: Slot, key: HKey)
      requires Core(Seen(), chains, used, unused) && IsNew(Seen(), used, unused, t, key)
          && |chains| == |Seen().chain.heads|
      requires (var c := chains[Bucket(|Seen().chain.heads|, key)];
                bfp == SlotOf(Bucket(|Seen().chain.heads|, key), c, |c|))
      modifies this`usedF, this`usedBfp, this`used, this`chains, head, entry
      ensures Core(Seen(), chains, used, unused) && used == old(used) + [t]
      ensures Seen().keys == old(Seen()).keys[t := key] && Seen().vals == old(Seen()).vals[t := zero]
    {
      InsertOk(Seen(), chains, used, unused, t, key, zero);
      ghost var i := Bucket(|Seen().chain.heads|, key);
      hide Core, Seen, IsNew, Bucket, SlotOf, Append;
      SetPair(t, key, zero);
      AppendChain(bfp, t);
      AppendUsed(t);
      chains := chains[i := chains[i] + [t]];
      used := used + [t];
    }

    /** An entry for a new key: the oldest one if none is unused. */
    method Spare(end: Slot, ghost o: nat) returns (t: nat, bfp: Slot)
      requires Valid() && o < |chains| && end == SlotOf(o, chains[o], |chains[o]|)
      modifies this, head, entry
      ensures Core(Seen(), chains, used, unused) && o < |chains| && bfp == SlotOf(o, chains[o], |chains[o]|)
      ensures IsSpare(Seen(), used, unused, t) && |used| + 1 + |unused| == entry.Length && nused == |used| + 1
      ensures used == old(used) || old(used) == [t] + used
      ensures |used| == |old(used)| <==> |old(used)| != entry.Length
      ensures Seen().keys == old(Seen()).keys && Seen().vals == old(Seen()).vals
          && |Seen().chain.heads| == |old(Seen()).chain.heads|
    {
      CoreUsed(Seen(), chains, used, unused);
      hide Core, IsSpare, SlotOf;
      bfp := end;
      if unusedF.Null? {
        t, bfp := Evict(end, o);
      } else {
        t := Take();
      }
    }

    /** The part of operator[] behind the search loop. */
    method Miss(end: Slot, key: HKey) returns (t: nat)
      requires Valid() && |chains| == |Seen().chain.heads|
      requires (var c := chains[Bucket(|Seen().chain.heads|, key)];
                end == SlotOf(Bucket(|Seen().chain.heads|, key), c, |c|))
      requires IsAbsent(Seen(), used, key)
      modifies this, head, entry
      ensures Valid() && Replaced(old(Seen()), Seen(), old(used), used, t, key, zero)
      ensures |used| == |old(used)| <==> |old(used)| == entry.Length
    {
      ghost var v, u := Seen(), used;
      var bfp;
      t, bfp := Spare(end, Bucket(|v.chain.heads|, key));
      NewHere(v, Seen(), u, used, unused, t, key);
      CoreUsed(Seen(), chains, used, unused);
      hide Core, IsSpare, Bucket, SlotOf, IsNew, IsAbsent;
      Insert(t, bfp, key);
    }

    method OnHit(bfp: Slot, key: HKey, ghost j: nat) returns (t: nat)
      requires Valid() && |chains| == |Seen().chain.heads| > 0
      requires StopsAt(Seen(), Bucket(|Seen().chain.heads|, key), chains[Bucket(|Seen().chain.heads|, key)], key, bfp,
                       true, j)
      modifies this`usedF, this`usedBfp, this`used, entry
      ensures Valid() && Recent() == Touch(old(Recent()), key, entry.Length, zero)
      ensures used != [] && used[|used| - 1] == t
    {
      ghost var v := Seen();
      ghost var a := UseOf(v, chains, used, Bucket(|v.chain.heads|, key), j);
      var p := Deref(bfp);
      t := p.e;
      CoreUsed(v, chains, used, unused);
      UsedOf(v, chains, used, unused, a);
      MoveContents(v, used, a, entry.Length, zero);
      hide Core, StopsAt, Touch, Contents;
      Hit(t, a);
    }

    method OnMiss(bfp: Slot, key: HKey, ghost j: nat) returns (t: nat)
      requires Valid() && |chains| == |Seen().chain.heads| > 0
      requires StopsAt(Seen(), Bucket(|Seen().chain.heads|, key), chains[Bucket(|Seen().chain.heads|, key)], key, bfp,
                       false, j)
      modifies this, head, entry
      ensures Valid() && Recent() == Touch(old(Recent()), key, entry.Length, zero)
      ensures used != [] && used[|used| - 1] == t
    {
      ghost var v, u := Seen(), used;
      InItsChain(v, chains, used, unused, key);
      CoreUsed(v, chains, used, unused);
      hide Core, StopsAt, Touch, Contents;
      t := Miss(bfp, key);
      ReplacedContents(v, Seen(), u, used, t, key, zero, entry.Length);
    }

    /** operator[]: the entry returned holds the key's value; it is the most recently used. */
    method Access(key: HKey) returns (t: nat)
      requires Valid()
      modifies this, head, entry
      ensures Valid() && Recent() == Touch(old(Recent()), key, entry.Length, zero)
      ensures used != [] && used[|used| - 1] == t
    {
      var bfp, found;
      ghost var j;
      bfp, found, j := Find(key);
      hide Core, StopsAt;
      if found { t := OnHit(bfp, key, j); } else { t := OnMiss(bfp, key, j); }
    }

    /** The value behind the reference that operator[] returned. */
    method Value(t: nat) returns (value: V)
      requires Valid() && used != [] && used[|used| - 1] == t
      ensures value == Recent()[|used| - 1].1 && |Recent()| == |used|
    {
      CoreUsed(Seen(), chains, used, unused);
      value := entry[t].value;
    }

    /** No key is held twice. */
    lemma KeysOnce()
      requires Valid()
      ensures forall a, b | 0 <= a < b < |Recent()| :: Recent()[a].0 != Recent()[b].0
      ensures |Recent()| <= entry.Length
    {
      CoreUsed(Seen(), chains, used, unused);
    }

    /** The caller's assignment through the reference that operator[] returned. */
    method Store(t: nat, value: V)
      requires Valid() && used != [] && used[|used| - 1] == t
      modifies entry
      ensures Valid() && Recent() == old(Recent())[|used| - 1 := (old(Recent())[|used| - 1].0, value)]
    {
      CoreUsed(Seen(), chains, used, unused);
      SameUpdate(Seen().keys, t);
      assert entry[t].key == Seen().keys[t];
      var key := entry[t].key;
      hide Core, Seen;
      SetPair(t, key, value);
    }

    /** at: the value of a key that is held; the program stops on any other. */
    method At(key: HKey) returns (found: bool, value: V)
      requires Valid()
      ensures found <==> Pos(Recent(), key) < |Recent()|
      ensures found ==> value == Recent()[Pos(Recent(), key)].1
    {
      value := zero;
      var bfp;
      ghost var j;
      bfp, found, j := Find(key);
      ghost var v := Seen();
      if found {
        ghost var a := UseOf(v, chains, used, Bucket(|v.chain.heads|, key), j);
        CoreUsed(v, chains, used, unused);
        PosAt(v, used, a);
        var p := Deref(bfp);
        value := entry[p.e].value;
      } else {
        InItsChain(v, chains, used, unused, key);
      }
    }

    /** *s for a slot of the recency list. */
    function DerefUsed(s: Slot): (p: Ptr)
      requires if s.Head? then s.i == 0 else s.e < entry.Length
      reads this, head, entry
      ensures Seen().used.Has(s) && p == Seen().used.Get(s)
    {
      if s.Head? then usedF else entry[s.e].usedF
    }

    function UsedBack(e: nat): (s: Slot)
      requires e < entry.Length
      reads this, head, entry
      ensures e < |Seen().used.bk| && s == Seen().used.bk[e]
    {
      entry[e].usedBfp
    }

    /** The first loop of ok: every entry of the recency list must know its slot and come for the first time. */
    method UsedLoop() returns (ok: bool, flags: seq<nat>, slot: Slot, count: nat, ghost u: seq<nat>)
      requires Shaped(Seen())
      ensures ok ==> UsedPart(Seen(), flags, u) && IsList(Seen().used, 0, u)
      ensures ok ==> slot == SlotOf(0, u, |u|) && count == |u|
      ensures ok ==> (if slot.Head? then slot.i == 0 else slot.e < entry.Length) && DerefUsed(slot) == Null
      ensures !ok ==> forall w :: !IsList(Seen().used, 0, w)
    {
      ghost var v := Seen();
      flags, slot, count, u := NoFlags(entry.Length), Head(0), 0, [];
      UsedStart(v);
      assert |v.keys| == entry.Length;
      hide *;
      while true
        invariant UsedPart(v, flags, u) && slot == SlotOf(0, u, |u|) && count == |u| <= |v.keys|
        decreases |v.keys| - |u|
      {
        UsedStep(v, flags, u);
        var p := DerefUsed(slot);
        if p.Null? { return true, flags, slot, count, u; }
        if entry.Length <= p.e || UsedBack(p.e) != slot || flags[p.e] != 0 { return false, flags, slot, count, u; }
        flags, slot, count, u := flags[p.e := 1], Next(p.e), count + 1, u + [p.e];
      }
    }

    /** The bucket of the key in entry e. */
    function BucketAt(e: nat): (i: nat)
      requires e < |Seen().keys| && |Seen().chain.heads| > 0
      reads this, head, entry
      ensures i == Bucket(|Seen().chain.heads|, Seen().keys[e])
    {
      entry[e].key.hash % head.Length
    }

    function BackAt(e: nat): (s: Slot)
      requires e < |Seen().chain.bk|
      reads this, head, entry
      ensures s == Seen().chain.bk[e]
    {
      entry[e].bfp
    }

    /** The inner second loop of ok: every entry of the chain must know its slot, belong to the bucket and have been met
        in the recency list, and only there.  end is what the end slot of that list holds, at which the program's upper
        range check looks instead of at the entry. */
    method CheckChain(index: nat, end: Ptr, flags0: seq<nat>, ghost u: seq<nat>, ghost cs: seq<seq<nat>>)
      returns (r: Verdict, flags: seq<nat>, ghost c: seq<nat>)
      requires Shaped(Seen()) && IsList(Seen().used, 0, u) && Swept(Seen(), u, cs) && index == |cs| < head.Length
      requires Flagged(flags0, Seen(), u, cs) && end == Null
      ensures r == Good ==> Swept(Seen(), u, cs + [c]) && Flagged(flags, Seen(), u, cs + [c])
      ensures r != Good ==> forall nused :: !IsSound(Seen(), nused)
      ensures r == Stray ==> exists s :: Seen().chain.Has(s) && Beyond(Seen().chain.Get(s), entry.Length)
    {
      ghost var v := Seen();
      var slot := Head(index);
      flags, c := flags0, [];
      ChainStart(v, flags, u, cs);
      assert |v.keys| == entry.Length;
      hide *;
      while true
        invariant ChainPart(v, flags, u, cs, c) && slot == SlotOf(index, c, |c|) && |c| <= |v.keys|
        decreases |v.keys| - |c|
      {
        ChainStep(v, flags, u, cs, c);
        var p := Deref(slot);
        if p.Null? { return Good, flags, c; }
        if Beyond(end, entry.Length) { return Bad, flags, c; }
        if entry.Length <= p.e {
          assert Beyond(p, entry.Length);
          return Stray, flags, c;
        }
        if BackAt(p.e) != slot || index != BucketAt(p.e) || flags[p.e] != 1 { return Bad, flags, c; }
        flags, slot, c := flags[p.e := 2], Next(p.e), c + [p.e];
      }
    }

    /** The second part of ok: every entry in use is on the chain of its bucket, once. */
    method CheckChains(end: Ptr, flags0: seq<nat>, ghost u: seq<nat>)
      returns (r: Verdict, flags: seq<nat>, ghost cs: seq<seq<nat>>)
      requires Shaped(Seen()) && IsList(Seen().used, 0, u) && UsedPart(Seen(), flags0, u) && end == Null
      ensures r == Good ==> |cs| == head.Length && Swept(Seen(), u, cs) && Flagged(flags, Seen(), u, cs)
      ensures r != Good ==> forall nused :: !IsSound(Seen(), nused)
      ensures r == Stray ==> exists s :: Seen().chain.Has(s) && Beyond(Seen().chain.Get(s), entry.Length)
    {
      ghost var c;
      r, flags, cs := Good, flags0, [];
      NothingSwept(Seen(), flags, u);
      hide Seen, Shaped, IsList, Swept, Flagged, UsedPart, IsSound, Beyond;
      for index := 0 to head.Length
        invariant r == Good && |cs| == index && Swept(Seen(), u, cs) && Flagged(flags, Seen(), u, cs)
      {
        r, flags, c := CheckChain(index, end, flags, u, cs);
        if r != Good { return; }
        cs := cs + [c];
      }
    }

    /** The third part of ok: the unused entries are the rest. */
    method CheckUnused(flags0: seq<nat>, ghost u: seq<nat>, ghost cs: seq<seq<nat>>)
      returns (ok: bool, flags: seq<nat>, count: nat, ghost us: seq<nat>)
      requires Shaped(Seen()) && IsList(Seen().used, 0, u) && Flagged(flags0, Seen(), u, cs)
      ensures ok ==> count == |us| && FreePart(Seen(), flags, u, cs, us) && IsFree(Seen().used.nxt, unusedF, us)
      ensures !ok ==> forall nused :: !IsSound(Seen(), nused)
    {
      ghost var v := Seen();
      var f := unusedF;
      flags, count, us := flags0, 0, [];
      FreeStart(v, flags, u, cs);
      assert |v.keys| == entry.Length && v.unusedF == unusedF;
      hide *;
      while f.To?
        invariant FreePart(v, flags, u, cs, us) && f == NextFree(v, us) && count == |us| <= |v.keys|
        decreases |v.keys| - |us|
      {
        FreeStep(v, flags, u, cs, us);
        if entry.Length <= f.e || flags[f.e] != 0 { return false, flags, count, us; }
        flags, count, us := flags[f.e := 3], count + 1, us + [f.e];
        f := NextOf(f.e);
      }
      FreeEnd(v, flags, u, cs, us);
      return true, flags, count, us;
    }

    function NextOf(e: nat): (p: Ptr)
      requires e < entry.Length
      reads this, head, entry
      ensures e < |Seen().used.nxt| && p == Seen().used.nxt[e]
    {
      entry[e].usedF
    }

    /** ok, for a table in any state: true exactly if its lists are in order and share out the entries.  On the way it
        may read an entry behind the array, but then the table is not in order. */
    method Ok() returns (r: Verdict)
      requires 0 < head.Length
      ensures r == Good <==> IsSound(Seen(), nused)
      ensures r == Stray ==> exists s :: Seen().chain.Has(s) && Beyond(Seen().chain.Get(s), entry.Length)
    {
      SeenShaped();
      ghost var v := Seen();
      if entry.Length < nused {
        SoundCounts(v, nused);
        return Bad;
      }
      var ok, flags, slot, count;
      ghost var u, cs, us;
      ok, flags, slot, count, u := UsedLoop();
      if !ok || slot != usedBfp || count != nused {
        UsedNeeded(v, nused, if ok then u else [], ok);
        return Bad;
      }
      r, flags, cs := CheckChains(DerefUsed(slot), flags, u);
      if r != Good { return; }
      ok, flags, count, us := CheckUnused(flags, u, cs);
      if !ok { return Bad; }
      SoundExactly(v, nused, flags, u, cs, us);
      if count + nused != entry.Length { return Bad; }
      return if forall e | 0 <= e < entry.Length :: flags[e] == 2 || flags[e] == 3 then Good else Bad;
    }

    /** ok is true in every state that the operations leave. */
    lemma ValidIsSound()
      requires Valid()
      ensures 0 < head.Length && IsSound(Seen(), nused)
    {
      assert Sound(Seen(), nused, chains, used, unused);
    }

    lemma SeenShaped()
      requires 0 < head.Length
      ensures Shaped(Seen()) && |Seen().keys| == entry.Length && |Seen().chain.heads| == head.Length
      ensures Seen().unusedF == unusedF && Seen().tail == usedBfp
    {}
  }

  // ----- what ok tests -----

  /** True, false, or the entry behind the array that is read. */
  datatype Verdict = Good | Bad | Stray

  /** The pointer leads behind the array. */
  predicate Beyond(p: Ptr, n: nat) { p.To? && n <= p.e }

  /** Lists in order that share out the entries: all that ok tests. */
  ghost predicate Sound<V>(v: View<V>, nused: nat, chains: seq<seq<nat>>, used: seq<nat>, unused: seq<nat>) {
    && Linked(v, chains, used, unused) && ChainsHold(v.keys, |v.chain.heads|, chains, used)
    && nused == |used| && |used| + |unused| == |v.keys|
  }

  ghost predicate IsSound<V>(v: View<V>, nused: nat) {
    exists chains, used, unused :: Sound(v, nused, chains, used, unused)
  }

  ghost predicate Shaped<V>(v: View<V>) {
    && |v.keys| == |v.vals| == |v.chain.nxt| == |v.chain.bk| == |v.used.nxt| == |v.used.bk|
    && |v.used.heads| == 1 && |v.chain.heads| > 0
  }

  /** l starts list i: different elements, linked both ways. */
  ghost predicate Begins(k: Links, i: nat, l: seq<nat>) {
    && i < |k.heads| && Distinct(l) && InRange(l, |k.nxt|) && |k.nxt| == |k.bk|
    && forall j | 0 <= j < |l| :: k.Get(SlotOf(i, l, j)) == To(l[j]) && k.bk[l[j]] == SlotOf(i, l, j)
  }

  lemma {:induction false} BeginsOnly(k: Links, i: nat, l: seq<nat>, w: seq<nat>)
    requires Begins(k, i, l) && IsList(k, i, w)
    ensures |l| <= |w| && l == w[..|l|]
  {
    hide Begins, IsList;
    if l != [] {
      var n := |l| - 1;
      BeginsInit(k, i, l);
      BeginsAt(k, i, l, n);
      BeginsOnly(k, i, l[..n], w);
      ListStep(k, i, w, n);
      assert SlotOf(i, w, n) == SlotOf(i, l, n);
      SameNext(l, w);
    }
  }

  lemma BeginsAt(k: Links, i: nat, l: seq<nat>, j: nat)
    requires Begins(k, i, l) && j < |l|
    ensures k.Has(SlotOf(i, l, j)) && k.Get(SlotOf(i, l, j)) == To(l[j])
    ensures l[j] < |k.nxt| == |k.bk| && k.bk[l[j]] == SlotOf(i, l, j)
  {}

  lemma BeginsInit(k: Links, i: nat, l: seq<nat>)
    requires Begins(k, i, l) && l != []
    ensures Begins(k, i, l[..|l| - 1])
  {
    var m := l[..|l| - 1];
    forall j | 0 <= j < |m| ensures SlotOf(i, m, j) == SlotOf(i, l, j) && m[j] == l[j] {}
  }

  /** A started list may end where its end slot holds null, or go on to a new element that knows its slot. */
  lemma BeginsEnd(k: Links, i: nat, l: seq<nat>)
    requires Begins(k, i, l)
    ensures k.Has(SlotOf(i, l, |l|)) && |l| <= |k.nxt|
    ensures k.Get(SlotOf(i, l, |l|)).Null? ==> IsList(k, i, l)
  {
    TooMany(l, |k.nxt|);
  }

  lemma BeginsMore(k: Links, i: nat, l: seq<nat>, e: nat)
    requires Begins(k, i, l) && e < |k.nxt| && e !in l
    requires k.Has(SlotOf(i, l, |l|)) && k.Get(SlotOf(i, l, |l|)) == To(e) && k.bk[e] == SlotOf(i, l, |l|)
    ensures Begins(k, i, l + [e]) && |l| < |k.nxt| && SlotOf(i, l + [e], |l| + 1) == Next(e)
  {
    SnocRange(l, e, |k.nxt|);
    var m := l + [e];
    assert i < |k.heads| && |k.nxt| == |k.bk|;
    hide Begins, Distinct;
    forall j | 0 <= j < |m|
      ensures k.Has(SlotOf(i, m, j)) && k.Get(SlotOf(i, m, j)) == To(m[j]) && k.bk[m[j]] == SlotOf(i, m, j) {
      assert SlotOf(i, m, j) == SlotOf(i, l, j) && m[j] == if j < |l| then l[j] else e;
      if j < |l| { BeginsAt(k, i, l, j); }
    }
    BeginsBy(k, i, m);
  }

  lemma BeginsBy(k: Links, i: nat, l: seq<nat>)
    requires i < |k.heads| && Distinct(l) && InRange(l, |k.nxt|) && |k.nxt| == |k.bk|
    requires forall j | 0 <= j < |l| ::
               k.Has(SlotOf(i, l, j)) && k.Get(SlotOf(i, l, j)) == To(l[j]) && k.bk[l[j]] == SlotOf(i, l, j)
    ensures Begins(k, i, l)
  {}

  lemma SnocRange(l: seq<nat>, e: nat, n: nat)
    requires Distinct(l) && InRange(l, n) && e < n && e !in l
    ensures Distinct(l + [e]) && InRange(l + [e], n) && |l| < n
  {
    TooMany(l + [e], n);
  }

  /** Every list that starts so goes on as the end slot says. */
  lemma BeginsOnlyNext(k: Links, i: nat, l: seq<nat>, w: seq<nat>)
    requires Begins(k, i, l) && IsList(k, i, w)
    ensures k.Has(SlotOf(i, l, |l|)) && |l| <= |w| && l == w[..|l|] && k.Get(SlotOf(i, l, |l|)) == PtrOf(w, |l|)
    ensures |l| < |w| ==> w[|l|] < |k.nxt| && w[|l|] !in l && k.bk[w[|l|]] == SlotOf(i, l, |l|)
  {
    BeginsOnly(k, i, l, w);
    BeginsEnd(k, i, l);
    assert SlotOf(i, w, |l|) == SlotOf(i, l, |l|);
    ListStep(k, i, w, |l|);
  }

  /** The recency list met so far is u, and its entries are flagged. */
  ghost predicate UsedPart<V>(v: View<V>, flags: seq<nat>, u: seq<nat>) {
    Shaped(v) && Begins(v.used, 0, u) && Marked(flags, |v.keys|, u, 1, 0)
  }

  lemma UsedStart<V>(v: View<V>)
    requires Shaped(v)
    ensures UsedPart(v, NoFlags(|v.keys|), [])
  {}

  lemma UsedStep<V>(v: View<V>, flags: seq<nat>, u: seq<nat>)
    requires UsedPart(v, flags, u)
    ensures v.used.Has(SlotOf(0, u, |u|)) && |v.used.heads| == 1
    ensures |v.used.nxt| == |v.keys| == |flags| == |v.used.bk|
    ensures var p := v.used.Get(SlotOf(0, u, |u|));
      if p.Null? then IsList(v.used, 0, u)
      else if p.e < |v.keys| && v.used.bk[p.e] == SlotOf(0, u, |u|) && flags[p.e] == 0
      then UsedPart(v, flags[p.e := 1], u + [p.e]) && |u| < |v.keys| && SlotOf(0, u + [p.e], |u| + 1) == Next(p.e)
      else forall w :: !IsList(v.used, 0, w)
  {
    BeginsEnd(v.used, 0, u);
    var p := v.used.Get(SlotOf(0, u, |u|));
    hide IsList, Begins;
    if p.To? && p.e < |v.keys| && v.used.bk[p.e] == SlotOf(0, u, |u|) && flags[p.e] == 0 {
      BeginsMore(v.used, 0, u, p.e);
    } else if p.To? {
      forall w ensures !IsList(v.used, 0, w) {
        if IsList(v.used, 0, w) { BeginsOnlyNext(v.used, 0, u, w); }
      }
    }
  }

  lemma OneUsed<V>(v: View<V>, nused: nat, chains: seq<seq<nat>>, used: seq<nat>, unused: seq<nat>, u: seq<nat>)
    requires Sound(v, nused, chains, used, unused)
    ensures IsList(v.used, 0, used)
    ensures IsList(v.used, 0, u) ==> u == used
  {
    assert IsList(v.used, 0, [used][0]);
    if IsList(v.used, 0, u) {
      ListBegins(v.used, 0, u);
      BeginsOnly(v.used, 0, u, used);
      ListBegins(v.used, 0, used);
      BeginsOnly(v.used, 0, used, u);
    }
  }

  lemma ListBegins(k: Links, i: nat, l: seq<nat>)
    requires IsList(k, i, l) && |k.nxt| == |k.bk|
    ensures Begins(k, i, l)
  {}

  lemma SoundCounts<V>(v: View<V>, nused: nat)
    ensures IsSound(v, nused) ==> nused <= |v.keys|
  {}

  /** Without a recency list, or with another end or length, the table is not in order. */
  lemma UsedNeeded<V>(v: View<V>, nused: nat, u: seq<nat>, listed: bool)
    requires if listed then IsList(v.used, 0, u) && (v.tail != SlotOf(0, u, |u|) || |u| != nused)
             else forall w :: !IsList(v.used, 0, w)
    ensures !IsSound(v, nused)
  {
    if chains, used, unused :| Sound(v, nused, chains, used, unused) {
      OneUsed(v, nused, chains, used, unused, u);
      assert false;
    }
  }

  // the chains

  ghost predicate InSome(cs: seq<seq<nat>>, e: nat) { exists i | 0 <= i < |cs| :: e in cs[i] }

  /** The entries of c are in use and belong to bucket i. */
  ghost predicate AtHome<V>(v: View<V>, u: seq<nat>, c: seq<nat>, i: nat) {
    |v.chain.heads| > 0 && InRange(c, |v.keys|)
    && forall j | 0 <= j < |c| :: c[j] in u && Bucket(|v.chain.heads|, v.keys[c[j]]) == i
  }

  /** The first chains are in order. */
  ghost predicate Swept<V>(v: View<V>, u: seq<nat>, cs: seq<seq<nat>>) {
    forall i | 0 <= i < |cs| :: IsList(v.chain, i, cs[i]) && AtHome(v, u, cs[i], i)
  }

  /** Entries in use are flagged 2 if they are on one of the chains, otherwise 1; the others 0. */
  ghost predicate Flagged<V>(flags: seq<nat>, v: View<V>, u: seq<nat>, cs: seq<seq<nat>>) {
    |flags| == |v.keys| && forall e | 0 <= e < |v.keys| :: flags[e] == if e !in u then 0 else if InSome(cs, e) then 2
        else 1
  }

  ghost predicate ChainPart<V>(v: View<V>, flags: seq<nat>, u: seq<nat>, cs: seq<seq<nat>>, c: seq<nat>) {
    && Shaped(v) && IsList(v.used, 0, u) && Swept(v, u, cs) && Begins(v.chain, |cs|, c) && AtHome(v, u, c, |cs|)
    && Flagged(flags, v, u, cs + [c])
  }

  lemma NothingSwept<V>(v: View<V>, flags: seq<nat>, u: seq<nat>)
    requires UsedPart(v, flags, u)
    ensures Swept(v, u, []) && Flagged(flags, v, u, [])
  {}

  lemma ChainStart<V>(v: View<V>, flags: seq<nat>, u: seq<nat>, cs: seq<seq<nat>>)
    requires Shaped(v) && IsList(v.used, 0, u) && Swept(v, u, cs) && |cs| < |v.chain.heads| && Flagged(flags, v, u, cs)
    ensures ChainPart(v, flags, u, cs, [])
  {
    forall e ensures InSome(cs + [[]], e) <==> InSome(cs, e) { SomeSnoc(cs, [], e); }
    hide IsList, AtHome;
  }

  lemma SomeSnoc(cs: seq<seq<nat>>, c: seq<nat>, e: nat)
    ensures InSome(cs + [c], e) <==> InSome(cs, e) || e in c
  {
    assert (cs + [c])[|cs|] == c;
    if i :| 0 <= i < |cs| && e in cs[i] { assert e in (cs + [c])[i]; }
  }

  lemma ChainStep<V>(v: View<V>, flags: seq<nat>, u: seq<nat>, cs: seq<seq<nat>>, c: seq<nat>)
    requires ChainPart(v, flags, u, cs, c)
    ensures v.chain.Has(SlotOf(|cs|, c, |c|)) && |v.chain.heads| > 0 && |flags| == |v.keys| == |v.chain.bk|
    ensures var p := v.chain.Get(SlotOf(|cs|, c, |c|));
      if p.Null? then Swept(v, u, cs + [c]) && Flagged(flags, v, u, cs + [c])
      else if p.e < |v.keys| && v.chain.bk[p.e] == SlotOf(|cs|, c, |c|)
          && Bucket(|v.chain.heads|, v.keys[p.e]) == |cs| && flags[p.e] == 1
      then ChainPart(v, flags[p.e := 2], u, cs, c + [p.e]) && |c| < |v.keys|
        && SlotOf(|cs|, c + [p.e], |c| + 1) == Next(p.e)
      else forall nused :: !IsSound(v, nused)
  {
    var i, s := |cs|, SlotOf(|cs|, c, |c|);
    BeginsEnd(v.chain, i, c);
    var p := v.chain.Get(s);
    assert |v.chain.heads| > 0 && |flags| == |v.keys| == |v.chain.bk|;
    if p.Null? {
      hide IsList, Flagged, Begins, AtHome, Swept;
      SweptMore(v, u, cs, c);
    } else if p.e < |v.keys| && v.chain.bk[p.e] == s && Bucket(|v.chain.heads|, v.keys[p.e]) == i && flags[p.e] == 1 {
      hide *;
      ChainMore(v, flags, u, cs, c, p.e);
    } else {
      hide ChainPart, Sound, Bucket, SlotOf;
      forall nused ensures !IsSound(v, nused) {
        if chains, used, unused :| Sound(v, nused, chains, used, unused) {
          ChainGoesOn(v, flags, u, cs, c, nused, chains, used, unused);
          assert false;
        }
      }
    }
  }

  lemma SweptMore<V>(v: View<V>, u: seq<nat>, cs: seq<seq<nat>>, c: seq<nat>)
    requires Swept(v, u, cs) && IsList(v.chain, |cs|, c) && AtHome(v, u, c, |cs|)
    ensures Swept(v, u, cs + [c])
  {
    assert forall x | 0 <= x < |cs + [c]| :: (cs + [c])[x] == if x < |cs| then cs[x] else c;
    hide IsList, AtHome;
  }

  /** The next entry of a chain. */
  lemma ChainMore<V>(v: View<V>, flags: seq<nat>, u: seq<nat>, cs: seq<seq<nat>>, c: seq<nat>, e: nat)
    requires ChainPart(v, flags, u, cs, c) && v.chain.Has(SlotOf(|cs|, c, |c|))
    requires e < |v.keys| == |v.chain.bk| == |flags|
    requires v.chain.Get(SlotOf(|cs|, c, |c|)) == To(e) && v.chain.bk[e] == SlotOf(|cs|, c, |c|)
    requires |v.chain.heads| > 0 && Bucket(|v.chain.heads|, v.keys[e]) == |cs| && flags[e] == 1
    ensures ChainPart(v, flags[e := 2], u, cs, c + [e]) && |c| < |v.keys|
    ensures SlotOf(|cs|, c + [e], |c| + 1) == Next(e)
  {
    hide IsList, InSome, Bucket, Begins, Swept, Flagged, AtHome, SlotOf;
    FlagMore(v, flags, u, cs, c, e);
    assert |v.keys| == |v.chain.nxt|;
    BeginsMore(v.chain, |cs|, c, e);
    HomeMore(v, u, c, |cs|, e);
  }

  lemma HomeMore<V>(v: View<V>, u: seq<nat>, c: seq<nat>, i: nat, e: nat)
    requires AtHome(v, u, c, i) && e in u && e < |v.keys| && Bucket(|v.chain.heads|, v.keys[e]) == i
    ensures AtHome(v, u, c + [e], i)
  {
    hide Bucket;
  }

  lemma FlagMore<V>(v: View<V>, flags: seq<nat>, u: seq<nat>, cs: seq<seq<nat>>, c: seq<nat>, e: nat)
    requires Flagged(flags, v, u, cs + [c]) && e < |flags| && flags[e] == 1
    ensures e in u && e !in c && Flagged(flags[e := 2], v, u, cs + [c + [e]])
  {
    SomeSnoc(cs, c, e);
    forall x: nat ensures InSome(cs + [c + [e]], x) <==> InSome(cs + [c], x) || x == e {
      SomeSnoc(cs, c, x);
      SomeSnoc(cs, c + [e], x);
    }
    hide InSome;
  }

  /** In a table in order every chain goes on as ok wants it to. */
  lemma ChainGoesOn<V>(v: View<V>, flags: seq<nat>, u: seq<nat>, cs: seq<seq<nat>>, c: seq<nat>, nused: nat,
                       chains: seq<seq<nat>>, used: seq<nat>, unused: seq<nat>)
    requires ChainPart(v, flags, u, cs, c) && Sound(v, nused, chains, used, unused)
    requires v.chain.Has(SlotOf(|cs|, c, |c|)) && v.chain.Get(SlotOf(|cs|, c, |c|)).To?
    ensures var e := v.chain.Get(SlotOf(|cs|, c, |c|)).e;
            |v.chain.heads| > 0 && e < |v.keys| == |v.chain.bk| == |flags| && v.chain.bk[e] == SlotOf(|cs|, c, |c|)
            && Bucket(|v.chain.heads|, v.keys[e]) == |cs| && flags[e] == 1
  {
    var i := |cs|;
    OneUsed(v, nused, chains, used, unused, u);
    OneChain(v, nused, chains, used, unused, i);
    BeginsOnlyNext(v.chain, i, c, chains[i]);
    var e := v.chain.Get(SlotOf(i, c, |c|)).e;
    assert e == chains[i][|c|];
    assert e < |v.keys| && e in used && Bucket(|v.chain.heads|, v.keys[e]) == i;
    hide *;
    NotSweptYet(v, u, cs, c, e);
    FlagOne(v, flags, u, cs + [c], e);
  }

  lemma FlagOne<V>(v: View<V>, flags: seq<nat>, u: seq<nat>, cs: seq<seq<nat>>, e: nat)
    requires Flagged(flags, v, u, cs) && e < |v.keys| && e in u && !InSome(cs, e)
    ensures |flags| == |v.keys| && flags[e] == 1
  {}

  /** A chain of a table in order, and its entries. */
  lemma OneChain<V>(v: View<V>, nused: nat, chains: seq<seq<nat>>, used: seq<nat>, unused: seq<nat>, i: nat)
    requires Sound(v, nused, chains, used, unused) && i < |v.chain.heads|
    ensures i < |chains| && IsList(v.chain, i, chains[i]) && |v.chain.nxt| == |v.chain.bk| == |v.keys|
    ensures forall j | 0 <= j < |chains[i]| :: chains[i][j] in used && chains[i][j] < |v.keys|
                                               && Bucket(|v.chain.heads|, v.keys[chains[i][j]]) == i
  {
    HomeMembers(v.keys, |v.chain.heads|, chains, used, i);
    hide Bucket, ChainsHold;
    assert IsList(v.chain, i, chains[i]);
  }

  lemma HomeMembers(keys: seq<HKey>, n: nat, chains: seq<seq<nat>>, used: seq<nat>, index: nat)
    requires ChainsHold(keys, n, chains, used) && index < |chains|
    ensures forall j | 0 <= j < |chains[index]| ::
      chains[index][j] in used && chains[index][j] < |keys| && Bucket(n, keys[chains[index][j]]) == index
  {
    hide Bucket;
    var c := chains[index];
    forall j | 0 <= j < |c| ensures c[j] in used && c[j] < |keys| && Bucket(n, keys[c[j]]) == index {
      assert c[j] in chains[index];
    }
  }

  lemma NotSweptYet<V>(v: View<V>, u: seq<nat>, cs: seq<seq<nat>>, c: seq<nat>, e: nat)
    requires Swept(v, u, cs) && e !in c && |v.chain.heads| > 0 && e < |v.keys|
        && Bucket(|v.chain.heads|, v.keys[e]) == |cs|
    ensures !InSome(cs + [c], e)
  {
    SomeSnoc(cs, c, e);
    forall x | 0 <= x < |cs| ensures e !in cs[x] { assert AtHome(v, u, cs[x], x); }
    hide IsList, Bucket;
  }

  // the unused entries

  /** The pointer behind the unused entries met so far. */
  function NextFree<V>(v: View<V>, us: seq<nat>): Ptr
    requires InRange(us, |v.used.nxt|)
  {
    if us == [] then v.unusedF else v.used.nxt[us[|us| - 1]]
  }

  ghost predicate FreeBegins<V>(v: View<V>, us: seq<nat>) {
    && Distinct(us) && InRange(us, |v.used.nxt|)
    && forall j | 0 <= j < |us| :: NextFree(v, us[..j]) == To(us[j])
  }

  ghost predicate FreePart<V>(v: View<V>, flags: seq<nat>, u: seq<nat>, cs: seq<seq<nat>>, us: seq<nat>) {
    && Shaped(v) && IsList(v.used, 0, u) && FreeBegins(v, us) && Apart(u, us) && |flags| == |v.keys|
    && forall e | 0 <= e < |v.keys| :: flags[e] == if e in us then 3 else if e !in u then 0 else if InSome(cs, e) then 2
        else 1
  }

  lemma FreeStart<V>(v: View<V>, flags: seq<nat>, u: seq<nat>, cs: seq<seq<nat>>)
    requires Shaped(v) && IsList(v.used, 0, u) && Flagged(flags, v, u, cs)
    ensures FreePart(v, flags, u, cs, []) && NextFree(v, []) == v.unusedF
  {
    hide IsList;
  }

  lemma {:induction false} FreeOnly<V>(v: View<V>, us: seq<nat>, w: seq<nat>)
    requires FreeBegins(v, us) && IsFree(v.used.nxt, v.unusedF, w)
    ensures |us| <= |w| && us == w[..|us|] && NextFree(v, us) == PtrOf(w, |us|)
  {
    if us != [] {
      var n := |us| - 1;
      FreeInit(v, us);
      FreeOnly(v, us[..n], w);
      FreeAt(v.used.nxt, v.unusedF, w, n);
      hide IsFree, FreeBegins;
      SameNext(us, w);
    }
  }

  lemma FreeAt(nxt: seq<Ptr>, unusedF: Ptr, w: seq<nat>, n: nat)
    requires IsFree(nxt, unusedF, w) && n < |w|
    ensures w[n] < |nxt| && nxt[w[n]] == PtrOf(w, n + 1)
  {}

  lemma SameNext(us: seq<nat>, w: seq<nat>)
    requires 0 < |us| <= |w| && us[..|us| - 1] == w[..|us| - 1] && us[|us| - 1] == w[|us| - 1]
    ensures us == w[..|us|]
  {
    var n := |us| - 1;
    assert us == us[..n] + [us[n]] && w[..n + 1] == w[..n] + [w[n]];
  }

  lemma FreeInit<V>(v: View<V>, us: seq<nat>)
    requires FreeBegins(v, us) && us != []
    ensures FreeBegins(v, us[..|us| - 1]) && NextFree(v, us[..|us| - 1]) == To(us[|us| - 1])
  {
    var n := |us| - 1;
    forall j | 0 <= j < n ensures NextFree(v, us[..n][..j]) == To(us[..n][j]) { assert us[..n][..j] == us[..j]; }
    hide NextFree;
  }

  lemma FreeStep<V>(v: View<V>, flags: seq<nat>, u: seq<nat>, cs: seq<seq<nat>>, us: seq<nat>)
    requires FreePart(v, flags, u, cs, us) && NextFree(v, us).To?
    ensures |flags| == |v.keys|
    ensures var e := NextFree(v, us).e;
      if e < |v.keys| && flags[e] == 0
      then FreePart(v, flags[e := 3], u, cs, us + [e]) && |us| < |v.keys| && NextFree(v, us + [e]) == v.used.nxt[e]
      else forall nused :: !IsSound(v, nused)
  {
    var e := NextFree(v, us).e;
    if e < |v.keys| && flags[e] == 0 {
      FreeMore(v, flags, u, cs, us, e);
    } else {
      forall nused ensures !IsSound(v, nused) {
        if chains, used, unused :| Sound(v, nused, chains, used, unused) {
          OneUsed(v, nused, chains, used, unused, u);
          FreeOnly(v, us, unused);
          assert false;
        }
      }
    }
  }

  lemma FreeMore<V>(v: View<V>, flags: seq<nat>, u: seq<nat>, cs: seq<seq<nat>>, us: seq<nat>, e: nat)
    requires FreePart(v, flags, u, cs, us) && NextFree(v, us) == To(e) && e < |v.keys| && flags[e] == 0
    ensures FreePart(v, flags[e := 3], u, cs, us + [e]) && |us| < |v.keys| && NextFree(v, us + [e]) == v.used.nxt[e]
  {
    var l := us + [e];
    assert forall j | 0 <= j <= |us| :: l[..j] == us[..j];
    TooMany(l, |v.keys|);
    hide IsList, InSome;
  }

  lemma FreeEnd<V>(v: View<V>, flags: seq<nat>, u: seq<nat>, cs: seq<seq<nat>>, us: seq<nat>)
    requires FreePart(v, flags, u, cs, us) && NextFree(v, us).Null?
    ensures IsFree(v.used.nxt, v.unusedF, us)
  {
    forall j | 0 <= j < |us| ensures v.used.nxt[us[j]] == PtrOf(us, j + 1) {
      assert NextFree(v, us[..j + 1]) == v.used.nxt[us[j]];
      assert j + 1 == |us| ==> us[..j + 1] == us;
    }
    if us != [] { assert NextFree(v, us[..0]) == To(us[0]); }
    hide IsList;
  }

  // all together

  /** With all lists in order, the last tests of ok decide. */
  lemma SoundExactly<V>(v: View<V>, nused: nat, flags: seq<nat>, u: seq<nat>, cs: seq<seq<nat>>, us: seq<nat>)
    requires Swept(v, u, cs) && |cs| == |v.chain.heads| && v.tail == SlotOf(0, u, |u|) && nused == |u|
    requires FreePart(v, flags, u, cs, us) && IsFree(v.used.nxt, v.unusedF, us)
    ensures IsSound(v, nused)
       <==> |us| + nused == |v.keys| && forall e | 0 <= e < |v.keys| :: flags[e] == 2 || flags[e] == 3
  {
    if |us| + nused == |v.keys| && forall e | 0 <= e < |v.keys| :: flags[e] == 2 || flags[e] == 3 {
      SweptAll(v, flags, u, cs, us);
      assert Sound(v, nused, cs, u, us);
    } else if chains, used, unused :| Sound(v, nused, chains, used, unused) {
      SoundCovers(v, nused, flags, u, cs, us, chains, used, unused);
      assert false;
    }
  }

  lemma SweptAll<V>(v: View<V>, flags: seq<nat>, u: seq<nat>, cs: seq<seq<nat>>, us: seq<nat>)
    requires Swept(v, u, cs) && |cs| == |v.chain.heads| && v.tail == SlotOf(0, u, |u|)
    requires FreePart(v, flags, u, cs, us) && IsFree(v.used.nxt, v.unusedF, us)
    requires forall e | 0 <= e < |v.keys| :: flags[e] == 2 || flags[e] == 3
    ensures Linked(v, cs, u, us) && ChainsHold(v.keys, |v.chain.heads|, cs, u)
  {
    forall i, e: nat | 0 <= i < |cs|
      ensures e in cs[i] <==> e in u && e < |v.keys| && Bucket(|v.chain.heads|, v.keys[e]) == i {
      assert AtHome(v, u, cs[i], i);
      if e in u && e < |v.keys| && Bucket(|v.chain.heads|, v.keys[e]) == i {
        assert InSome(cs, e);
        var x :| 0 <= x < |cs| && e in cs[x];
        assert AtHome(v, u, cs[x], x);
      }
    }
    forall i, j | 0 <= i < |cs| && 0 <= j < |cs| && i != j ensures Apart(cs[i], cs[j]) {
      assert AtHome(v, u, cs[i], i) && AtHome(v, u, cs[j], j);
    }
  }

  lemma SoundCovers<V>(v: View<V>, nused: nat, flags: seq<nat>, u: seq<nat>, cs: seq<seq<nat>>, us: seq<nat>,
                       chains: seq<seq<nat>>, used: seq<nat>, unused: seq<nat>)
    requires Swept(v, u, cs) && |cs| == |v.chain.heads| && nused == |u|
    requires FreePart(v, flags, u, cs, us) && IsFree(v.used.nxt, v.unusedF, us)
    requires Sound(v, nused, chains, used, unused)
    ensures |us| + nused == |v.keys| && forall e | 0 <= e < |v.keys| :: flags[e] == 2 || flags[e] == 3
  {
    OneUsed(v, nused, chains, used, unused, u);
    OneFree(v, us, unused);
    assert InRange(u, |v.keys|) && Distinct(u) && Distinct(us) && InRange(us, |v.keys|) && Apart(u, us);
    hide Sound, IsFree, IsList, InSome, InRange, Distinct, Apart, FreeBegins, Swept;
    SharedOut(u, us, |v.keys|);
    forall e | 0 <= e < |v.keys| ensures flags[e] == 2 || flags[e] == 3 {
      if e in u { UsedSwept(v, nused, u, cs, chains, used, unused, e); }
    }
  }

  lemma OneFree<V>(v: View<V>, us: seq<nat>, w: seq<nat>)
    requires FreeBegins(v, us) && IsFree(v.used.nxt, v.unusedF, us) && IsFree(v.used.nxt, v.unusedF, w)
    ensures us == w
  {
    FreeOnly(v, us, us);
    FreeOnly(v, us, w);
    hide IsFree, FreeBegins, NextFree;
  }

  lemma SharedOut(u: seq<nat>, us: seq<nat>, n: nat)
    requires InRange(u, n) && InRange(us, n) && Distinct(u) && Distinct(us) && Apart(u, us) && |u| + |us| == n
    ensures forall e | 0 <= e < n :: e in u || e in us
  {
    var l := u + us;
    assert forall a | 0 <= a < |us| :: us[a] in us;
    assert forall a | 0 <= a < |u| :: u[a] in u;
    Pigeons(l, n);
    forall e | 0 <= e < n ensures e in u || e in us { assert e in l; }
  }

  lemma UsedSwept<V>(v: View<V>, nused: nat, u: seq<nat>, cs: seq<seq<nat>>, chains: seq<seq<nat>>, used: seq<nat>,
                     unused: seq<nat>, e: nat)
    requires Swept(v, u, cs) && |cs| == |v.chain.heads| && Sound(v, nused, chains, used, unused) && e < |v.keys|
    requires e in used
    ensures InSome(cs, e)
  {
    assert |v.chain.heads| > 0;
    var i := Bucket(|v.chain.heads|, v.keys[e]);
    assert e in chains[i];
    SameChain(v, nused, cs, u, chains, used, unused, i);
    hide Sound, Swept, Bucket;
    assert e in cs[i];
  }

  lemma SameChain<V>(v: View<V>, nused: nat, cs: seq<seq<nat>>, u: seq<nat>, chains: seq<seq<nat>>, used: seq<nat>,
                     unused: seq<nat>, i: nat)
    requires Swept(v, u, cs) && Sound(v, nused, chains, used, unused) && i < |cs| == |v.chain.heads|
    ensures cs[i] == chains[i]
  {
    assert IsList(v.chain, i, cs[i]) && IsList(v.chain, i, chains[i]);
    ListBegins(v.chain, i, cs[i]);
    BeginsOnly(v.chain, i, cs[i], chains[i]);
    ListBegins(v.chain, i, chains[i]);
    BeginsOnly(v.chain, i, chains[i], cs[i]);
  }

  /** The range check of ok in the chains looks at the end slot of the recency list, which holds null: it rejects
      nothing, wherever the chain leads. */
  lemma RangeCheckIdle(k: Links, used: seq<nat>, n: nat)
    requires IsList(k, 0, used)
    ensures !Beyond(k.Get(SlotOf(0, used, |used|)), n)
  {
    ListStep(k, 0, used, |used|);
  }

  /** ok does not compare keys: it is also true for a table that holds a key twice. */
  lemma DoubleKeySound<V>(x: V, key: HKey)
    ensures var l := Links([To(0)], [To(1), Null], [Head(0), Next(0)]);
            var v := View(l, l, [key, key], [x, x], Null, Next(1));
            Sound(v, 2, [[0, 1]], [0, 1], []) && !KeysDiffer(v.keys, [0, 1])
  {
    var l := Links([To(0)], [To(1), Null], [Head(0), Next(0)]);
    var v := View(l, l, [key, key], [x, x], Null, Next(1));
    assert Bucket(1, key) == 0;
    assert IsList(l, 0, [0, 1]);
    assert AreLists(l, [[0, 1]]);
    assert v.keys[[0, 1][0]] == v.keys[[0, 1][1]];
  }

  function NoFlags(n: nat): seq<nat> { seq(n, e => 0) }

  /** flags has value x on the elements of l and y elsewhere. */
  ghost predicate Marked(flags: seq<nat>, n: nat, l: seq<nat>, x: nat, y: nat) {
    |flags| == n && forall e | 0 <= e < n :: flags[e] == if e in l then x else y
  }

  lemma ListStep(k: Links, i: nat, l: seq<nat>, j: nat)
    requires IsList(k, i, l) && j <= |l|
    ensures SlotOf(i, l, j) == if j == 0 then Head(i) else Next(l[j - 1])
    ensures k.Has(SlotOf(i, l, j)) && k.Get(SlotOf(i, l, j)) == if j < |l| then To(l[j]) else Null
    ensures j < |l| ==> l[j] < |k.nxt| && l[j] < |k.bk| && k.bk[l[j]] == SlotOf(i, l, j)
  {
    assert k.Get(SlotOf(i, l, j)) == PtrOf(l, j);
  }

  ghost predicate IsAbsent<V>(v: View<V>, used: seq<nat>, key: HKey)
  {
    InRange(used, |v.keys|) && forall a | 0 <= a < |used| :: v.keys[used[a]] != key
  }

  lemma CoreUsed<V>(v: View<V>, chains: seq<seq<nat>>, used: seq<nat>, unused: seq<nat>)
    requires Core(v, chains, used, unused)
    ensures InRange(used, |v.keys|) && |v.keys| == |v.vals| && (v.unusedF.Null? <==> unused == [])
        && |chains| == |v.chain.heads|
  {}

  lemma NewHere<V>(v: View<V>, w: View<V>, u: seq<nat>, used: seq<nat>, unused: seq<nat>, t: nat, key: HKey)
    requires IsAbsent(v, u, key) && w.keys == v.keys && IsSpare(w, used, unused, t) && (used == u || u == [t] + used)
    ensures InRange(used, |w.keys|) && IsNew(w, used, unused, t, key) && IsNew(v, used, unused, t, key)
  {
    assert u == [t] + used ==> forall a | 0 <= a < |used| :: used[a] == u[a + 1];
  }

  /** Entry t, unused before or the oldest, now is the newest and holds the new key with the default value. */
  ghost predicate Replaced<V>(v: View<V>, w: View<V>, u: seq<nat>, used: seq<nat>, t: nat, key: HKey, zero: V) {
    && (used == u + [t] || (u != [] && u[0] == t && used == u[1..] + [t]))
    && t < |v.keys| == |v.vals| && t !in used[..|used| - 1]
    && w.keys == v.keys[t := key] && w.vals == v.vals[t := zero]
  }

  lemma ReplacedContents<V>(v: View<V>, w: View<V>, u: seq<nat>, used: seq<nat>, t: nat, key: HKey, zero: V, n: nat)
    requires Replaced(v, w, u, used, t, key, zero) && InRange(u, |v.keys|) && 0 < n && |u| <= n
    requires |used| == |u| <==> |u| == n
    requires Pos(Contents(v, u), key) == |u|
    ensures InRange(used, |w.keys|) && Contents(w, used) == Touch(Contents(v, u), key, n, zero)
  {
    var r := used[..|used| - 1];
    assert used == r + [t];
    assert forall a | 0 <= a < |r| :: r[a] in r;
    if used == u + [t] { assert r == u; } else { assert r == u[1..]; }
    var l := Contents(v, u);
    assert Contents(w, used) == (if |u| == n then l[1..] else l) + [(key, zero)];
  }

  lemma UseOf<V>(v: View<V>, chains: seq<seq<nat>>, used: seq<nat>, i: nat, j: nat) returns (a: nat)
    requires ChainsHold(v.keys, |v.chain.heads|, chains, used) && i < |chains| && j < |chains[i]|
    ensures a < |used| && used[a] == chains[i][j]
  {
    var e := chains[i][j];
    assert e in chains[i] && e in used;
    a :| a < |used| && used[a] == e;
  }

  /** t is on no list. */
  ghost predicate IsSpare<V>(v: View<V>, used: seq<nat>, unused: seq<nat>, t: nat) {
    t < |v.keys| && t !in used && t !in unused
  }

  lemma UsedOf<V>(v: View<V>, chains: seq<seq<nat>>, used: seq<nat>, unused: seq<nat>, a: nat)
    requires Core(v, chains, used, unused) && a < |used|
    ensures used[a] < |v.keys| && CanUnlink(v.used, used[a]) && v.used.bk[used[a]] == SlotOf(0, used, a)
    ensures v.used.nxt[used[a]] == PtrOf(used, a + 1) && InRange(Rotated(used, a), |v.keys|)
  {
    OnList(v.used, [used], 0, a);
  }

  /** A used entry moves to the recent end unless it is there. */
  lemma HitOk<V>(v: View<V>, chains: seq<seq<nat>>, used: seq<nat>, unused: seq<nat>, a: nat)
    requires Core(v, chains, used, unused) && a < |used|
    ensures used[a] < |v.keys| == |v.used.nxt| && (v.used.nxt[used[a]].To? <==> a + 1 < |used|)
    ensures a + 1 == |used| ==> Rotated(used, a) == used
    ensures a + 1 < |used| ==> CanUnlink(v.used, used[a]) && Unlink(v.used, used[a]).Has(v.tail)
    ensures a + 1 < |used| ==> Core(Moved(v, used[a]), chains, Rotated(used, a), unused)
    ensures |Rotated(used, a)| == |used|
  {
    UsedOf(v, chains, used, unused, a);
    if a + 1 < |used| { MoveOk(v, chains, used, unused, a); }
    hide AreLists, IsFree, KeysDiffer, ChainsHold, CanUnlink, Unlink, Moved;
  }

  lemma EvictOk<V>(v: View<V>, chains: seq<seq<nat>>, used: seq<nat>, unused: seq<nat>, o: nat) returns (i: nat, j: nat)
    requires Core(v, chains, used, unused) && 2 <= |used| && unused == [] && o < |chains|
    ensures i < |chains| && j < |chains[i]| && chains[i][j] == used[0] && v.used.heads == [To(used[0])]
    ensures CanUnlink(v.used, used[0]) && v.used.bk[used[0]] == Head(0) && v.used.nxt[used[0]].To?
    ensures CanUnlink(v.chain, used[0]) && IsSpare(v, used[1..], unused, used[0])
    ensures Core(Dropped(v, used[0]), chains[i := Without(chains[i], j)], used[1..], unused)
    ensures var s, w := SlotOf(o, chains[o], |chains[o]|), chains[i := Without(chains[i], j)];
            SlotOf(o, w[o], |w[o]|) == if s == Next(used[0]) then v.chain.bk[used[0]] else s
  {
    i, j := HomeOf(v, chains, used, unused);
    UsedOf(v, chains, used, unused, 0);
    assert IsList(v.used, 0, [used][0]);
    assert v.used.Get(SlotOf(0, used, 0)) == PtrOf(used, 0);
    DropOk(v, chains, used, unused, i, j);
    EndAfterDrop(v, chains, used, unused, i, j, o);
  }

  /** The oldest entry sits in the chain of its key's bucket. */
  lemma HomeOf<V>(v: View<V>, chains: seq<seq<nat>>, used: seq<nat>, unused: seq<nat>) returns (i: nat, j: nat)
    requires Core(v, chains, used, unused) && used != []
    ensures i < |chains| && j < |chains[i]| && chains[i][j] == used[0]
  {
    i := Bucket(|v.chain.heads|, v.keys[used[0]]);
    assert used[0] in chains[i];
    j :| j < |chains[i]| && chains[i][j] == used[0];
  }

  lemma EndAfterDrop<V>(v: View<V>, chains: seq<seq<nat>>, used: seq<nat>, unused: seq<nat>, i: nat, j: nat, o: nat)
    requires Core(v, chains, used, unused) && used != [] && i < |chains| && j < |chains[i]| && chains[i][j] == used[0]
        && o < |chains|
    ensures var s, w := SlotOf(o, chains[o], |chains[o]|), chains[i := Without(chains[i], j)];
            used[0] < |v.chain.bk| && SlotOf(o, w[o], |w[o]|) == if s == Next(used[0]) then v.chain.bk[used[0]] else s
  {
    OnList(v.chain, chains, i, j);
    forall a | 0 <= a < |chains| ensures Distinct(chains[a]) { assert IsList(v.chain, a, chains[a]); }
    EndAfterUnlink(chains, i, j, o);
  }
}
