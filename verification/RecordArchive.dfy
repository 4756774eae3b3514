/** Storing incoming records: refusal of duplicates, the pool, and the archive of one cluster after another
    (RecKeep::transact, src/server/datakeep.cpp:421-435, 582-702). */
module RecordArchive {
  import opened HashTables
  import opened HashLru

  /** A received game record, as far as storing depends on it. */
  datatype Record = Record(digest: nat, wellFormed: bool, lenPlay: nat, aveChild: real, text: int)

  /** What the archive encoder is fed with: records and the separator between them. */
  datatype Item = Sepa | Rec(rec: Record)

  datatype RedunValue = RedunValue(no: nat, count: nat)

  const SIZE_CLUSTER: nat := 10000

  /** key = the 64-bit digest; the table takes its low 32 bits as an unsigned int. */
  function KeyOf(digest: nat): HKey { HKey(digest, digest % 0x1_0000_0000) }

  /** An archive of these records, in order, separators between. */
  function Joined(rs: seq<Record>): seq<Item> {
    if rs == [] then [] else if |rs| == 1 then [Rec(rs[0])] else Joined(rs[..|rs| - 1]) + [Sepa, Rec(rs[|rs| - 1])]
  }

  /** The records of an archive can be read back from it. */
  function Records(s: seq<Item>): seq<Record> {
    if s == [] then [] else Records(s[..|s| - 1]) + match s[|s| - 1] case Sepa => [] case Rec(r) => [r]
  }

  lemma {:induction false} JoinedRecords(rs: seq<Record>)
    ensures Records(Joined(rs)) == rs
  {
    if |rs| == 1 {
      assert Joined(rs)[..0] == [];
    } else if |rs| > 1 {
      var s := Joined(rs[..|rs| - 1]);
      JoinedRecords(rs[..|rs| - 1]);
      assert (s + [Sepa, Rec(rs[|rs| - 1])])[..|s| + 1] == s + [Sepa];
      assert (s + [Sepa])[..|s|] == s;
    }
  }

  // ----- the table of digests -----

  /** A digest that is held was stored; its value names the last record stored with it. */
  predicate HeldOk(x: (HKey, RedunValue), stored: seq<Record>) {
    x.0 == KeyOf(x.0.id) && 0 < x.1.count && x.1.no < |stored| && stored[x.1.no].digest == x.0.id
    && forall i | x.1.no < i < |stored| :: stored[i].digest != x.0.id
  }

  ghost predicate AllHeld(l: Recency<RedunValue>, stored: seq<Record>)
  {
    forall j | 0 <= j < |l| :: HeldOk(l[j], stored)
  }

  predicate Holds(l: Recency<RedunValue>, digest: nat) { Pos(l, KeyOf(digest)) < |l| }

  ghost predicate Different(l: Recency<RedunValue>) { forall a, b | 0 <= a < b < |l| :: l[a].0 != l[b].0 }

  /** Using a key: the other entries are entries of before, of other keys. */
  lemma TouchParts(l: Recency<RedunValue>, key: HKey, n: nat, zero: RedunValue)
    requires Different(l) && 0 < n
    ensures (var m := Touch(l, key, n, zero);
             |m| > 0
             && m[|m| - 1] == (key, if Pos(l, key) < |l| then l[Pos(l, key)].1 else zero))
    ensures var m := Touch(l, key, n, zero); forall j | 0 <= j < |m| - 1 :: m[j] in l && m[j].0 != key
  {}

  /** Count the key in the table; a count of one makes it name record id. */
  function Counted(value: RedunValue, id: nat): RedunValue
  {
    RedunValue(if 0 < value.count then value.no else id, value.count + 1)
  }

  method Bump(table: HashTable<RedunValue>, key: HKey, id: nat) returns (dup: bool)
    requires table.Valid()
    modifies table, table.head, table.entry
    ensures table.Valid() && |Touch(old(table.Recent()), key, table.entry.Length, table.zero)| > 0
    ensures var m := Touch(old(table.Recent()), key, table.entry.Length, table.zero); var v := m[|m| - 1].1;
      (dup <==> 0 < v.count) && table.Recent() == m[|m| - 1 := (m[|m| - 1].0, Counted(v, id))]
  {
    hide *;
    var t := table.Access(key);
    var value := table.Value(t);
    dup := 0 < value.count;
    table.Store(t, Counted(value, id));
  }

  lemma ExamineFacts(l: Recency<RedunValue>, r: Record, n: nat, stored: seq<Record>)
    requires Different(l) && 0 < n && |l| <= n && AllHeld(l, stored)
    ensures |Touch(l, KeyOf(r.digest), n, RedunValue(0, 0))| > 0
    ensures var m, dup := Touch(l, KeyOf(r.digest), n, RedunValue(0, 0)), Holds(l, r.digest);
      var v := m[|m| - 1].1; var after := m[|m| - 1 := (m[|m| - 1].0, Counted(v, |stored|))];
      (0 < v.count <==> dup) && AllHeld(after, if dup then stored else stored + [r])
      && KeysOf(after) == RenewBounded(KeysOf(l), KeyOf(r.digest), n)
  {
    var zero := RedunValue(0, 0);
    var m := Touch(l, KeyOf(r.digest), n, zero);
    TouchParts(l, KeyOf(r.digest), n, zero);
    var v := m[|m| - 1].1;
    var u := Write(KeyOf(r.digest), Counted(v, |stored|));
    var after := m[|m| - 1 := (m[|m| - 1].0, Counted(v, |stored|))];
    assert after == After(l, u, n, zero);
    AfterKeys(l, u, n, zero);
    if Holds(l, r.digest) {
      assert HeldOk(l[Pos(l, KeyOf(r.digest))], stored);
    }
    hide Touch, KeysOf, AllHeld, RenewBounded;
  }

  /** Count the digest and note a new record's number. */
  method Examine(table: HashTable<RedunValue>, r: Record, id: nat, ghost stored: seq<Record>) returns (dup: bool)
    requires table.Valid() && AllHeld(table.Recent(), stored) && id == |stored| && table.zero == RedunValue(0, 0)
    modifies table, table.head, table.entry
    ensures table.Valid() && dup == old(Holds(table.Recent(), r.digest))
    ensures AllHeld(table.Recent(), if dup then stored else stored + [r])
    ensures KeysOf(table.Recent()) == RenewBounded(old(KeysOf(table.Recent())), KeyOf(r.digest), table.entry.Length)
  {
    table.KeysOnce();
    ExamineFacts(table.Recent(), r, table.entry.Length, stored);
    assert 0 < table.entry.Length;
    hide *;
    dup := Bump(table, KeyOf(r.digest), id);
  }

  // ----- pool and archives -----

  /** Number of the first record of cluster k. */
  function ClusterStart(k: nat): nat { k * SIZE_CLUSTER }

  /** The records of cluster c. */
  function Cluster(stored: seq<Record>, c: nat): seq<Record>
    requires ClusterStart(c + 1) <= |stored|
  {
    stored[ClusterStart(c)..ClusterStart(c + 1)]
  }

  /** The closed archives: of the first k clusters, each with its records in order, and no others. */
  ghost predicate ArchivesOk(archives: map<nat, seq<Item>>, stored: seq<Record>, k: nat) {
    && ClusterStart(k) <= |stored| && (forall n | n in archives :: n % SIZE_CLUSTER == 0 && n < ClusterStart(k))
    && forall c: nat | c < k :: ClusterStart(c) in archives && archives[ClusterStart(c)] == Joined(Cluster(stored, c))
  }

  /** The pool: the numbers of the records of the open archive, and their files. */
  ghost predicate PoolOk(pool: seq<nat>, files: map<nat, Record>, stored: seq<Record>, start: nat) {
    && start <= |stored| && |pool| == |stored| - start
    && (forall i | 0 <= i < |pool| :: pool[i] == start + i && pool[i] in files)
    && forall n | n in files :: start <= n < |stored| && files[n] == stored[n]
  }

  lemma ArchivesKept(archives: map<nat, seq<Item>>, stored: seq<Record>, k: nat, r: Record)
    requires ArchivesOk(archives, stored, k)
    ensures ArchivesOk(archives, stored + [r], k)
  {
    forall c: nat | c < k ensures ClusterStart(c + 1) <= |stored| && Cluster(stored + [r], c) == Cluster(stored, c) {
      assert ClusterStart(c) in archives;
    }
    hide Cluster;
  }

  lemma ArchiveClosed(archives: map<nat, seq<Item>>, stored: seq<Record>, k: nat)
    requires ArchivesOk(archives, stored, k) && ClusterStart(k + 1) <= |stored|
    ensures ArchivesOk(archives[ClusterStart(k) := Joined(Cluster(stored, k))], stored, k + 1)
  {}

  lemma PoolAdd(pool: seq<nat>, files: map<nat, Record>, stored: seq<Record>, start: nat, r: Record)
    requires PoolOk(pool, files, stored, start)
    ensures PoolOk(pool + [|stored|], files[|stored| := r], stored + [r], start)
  {}

  /** What the open archive holds. */
  ghost predicate OpenOk(archTmp: seq<Item>, first: bool, stored: seq<Record>, start: nat) {
    start <= |stored| && archTmp == Joined(stored[start..]) && (first <==> start == |stored|)
  }

  lemma OpenAppend(archTmp: seq<Item>, first: bool, stored: seq<Record>, start: nat, r: Record)
    requires OpenOk(archTmp, first, stored, start)
    ensures OpenOk(archTmp + (if first then [] else [Sepa]) + [Rec(r)], false, stored + [r], start)
  {
    assert (stored + [r])[start..] == stored[start..] + [r];
  }

  class RecKeep {
    const table: HashTable<RedunValue>
    const minlenPlay: nat
    const minaveChild: real
    var pool: seq<nat>
    var files: map<nat, Record>
    var archTmp: seq<Item>
    var first: bool
    var archives: map<nat, seq<Item>>
    /** All records stored so far, and the number of closed archives. */
    ghost var stored: seq<Record>
    ghost var closed: nat

    /** What the pool and the archives hold. */
    ghost predicate Kept()
      reads this
    {
      && ArchivesOk(archives, stored, closed) && PoolOk(pool, files, stored, ClusterStart(closed))
      && |stored| - ClusterStart(closed) <= SIZE_CLUSTER && (0 < closed ==> ClusterStart(closed) < |stored|)
      && OpenOk(archTmp, first, stored, ClusterStart(closed))
    }

    ghost predicate Valid()
      reads this, table, table.head, table.entry
    {
      Kept() && table.Valid() && table.zero == RedunValue(0, 0) && AllHeld(table.Recent(), stored)
    }

    /** start, with an empty pool. */
    constructor (log2Index: nat, minlenPlay: nat, minaveChild: real)
      requires 0 < log2Index < 31
      ensures Valid() && stored == [] && archives == map[] && archTmp == [] && table.Recent() == []
      ensures fresh(table) && fresh(table.head) && fresh(table.entry) && table.entry.Length == 2 * Pow2(log2Index)
    {
      this.minlenPlay, this.minaveChild := minlenPlay, minaveChild;
      assert Pow2(log2Index) > 0;
      table := new HashTable<RedunValue>(log2Index, 2 * Pow2(log2Index), RedunValue(0, 0));
      pool, files, archTmp, first, archives := [], map[], [], true, map[];
      stored, closed := [], 0;
      new;
    }

    /** The record passes the checks that come before the table is asked. */
    predicate Admissible(r: Record)
      reads this
    {
      r.wellFormed && minlenPlay <= r.lenPlay && minaveChild <= r.aveChild
    }

    /** The archive step: once a record beyond the cluster has come, close the archive and start the next. */
    method CloseCluster(ghost r: Record)
      requires ArchivesOk(archives, stored + [r], closed) && PoolOk(pool, files, stored + [r], ClusterStart(closed))
      requires |stored| - ClusterStart(closed) <= SIZE_CLUSTER && OpenOk(archTmp, first, stored, ClusterStart(closed))
      modifies this`pool, this`files, this`archTmp, this`first, this`archives, this`closed
      ensures ArchivesOk(archives, stored + [r], closed) && PoolOk(pool, files, stored + [r], ClusterStart(closed))
      ensures |stored| - ClusterStart(closed) < SIZE_CLUSTER && OpenOk(archTmp, first, stored, ClusterStart(closed))
    {
      var start := pool[0];
      var end := start + SIZE_CLUSTER;
      if end <= pool[|pool| - 1] {
        ghost var all := stored + [r];
        assert start == ClusterStart(closed) && end == ClusterStart(closed + 1) == |stored|;
        assert Cluster(all, closed) == stored[start..];
        ArchiveClosed(archives, all, closed);
        hide ArchivesOk, PoolOk, Joined, Cluster;
        archives := archives[start := archTmp];
        EraseBelow(start, end, all);
        closed := closed + 1;
        archTmp, first := [], true;
        NothingOpen(stored);
      }
    }

    /** Erase the pool below end. */
    method EraseBelow(start: nat, end: nat, ghost all: seq<Record>)
      requires start <= end < |all| && PoolOk(pool, files, all, start)
      modifies this`pool, this`files
      ensures PoolOk(pool, files, all, end)
    {
      ghost var s: nat := start;
      while pool != [] && pool[0] < end
        invariant s <= end < |all| && PoolOk(pool, files, all, s)
        decreases |pool|
      {
        assert pool[0] == s;
        files := files - {pool[0]};
        pool := pool[1..];
        s := s + 1;
      }
    }

    /** transact: a record that passes the checks and whose digest is not held is stored under the next number and
        archived; any other leaves pool and archives as they are. */
    method Transact(r: Record) returns (ok: bool)
      requires Valid()
      modifies this, table, table.head, table.entry
      ensures Valid() && ok == (Admissible(r) && !old(Holds(table.Recent(), r.digest)))
      ensures stored == if ok then old(stored) + [r] else old(stored)
      ensures KeysOf(table.Recent()) == if Admissible(r)
                then RenewBounded(old(KeysOf(table.Recent())), KeyOf(r.digest), table.entry.Length)
                else old(KeysOf(table.Recent()))
    {
      var id := if pool == [] then 0 else pool[|pool| - 1] + 1;
      assert id == |stored|;
      if !Admissible(r) { return false; }
      var dup := Examine(table, r, id, stored);
      if dup { return false; }
      StoreRecord(r, id);
      return true;
    }

    method StoreRecord(r: Record, id: nat)
      requires Kept() && id == |stored|
      modifies this`pool, this`files, this`archTmp, this`first, this`archives, this`closed, this`stored
      ensures Kept() && stored == old(stored) + [r]
    {
      ArchivesKept(archives, stored, closed, r);
      PoolAdd(pool, files, stored, ClusterStart(closed), r);
      hide ArchivesOk, PoolOk, OpenOk, Joined, ClusterStart;
      files := files[id := r];
      pool := pool + [id];
      CloseCluster(r);
      OpenAppend(archTmp, first, stored, ClusterStart(closed), r);
      archTmp := archTmp + (if first then [] else [Sepa]) + [Rec(r)];
      first := false;
      stored := stored + [r];
    }
  }

  lemma NothingOpen(stored: seq<Record>)
    ensures OpenOk([], true, stored, |stored|)
  {}

  /** The records of the closed archives, archive by archive. */
  function InOrder(archives: map<nat, seq<Item>>, k: nat): seq<Record> {
    if k == 0 then [] else
      InOrder(archives, k - 1) + if ClusterStart(k - 1) in archives then Records(archives[ClusterStart(k - 1)]) else []
  }

  lemma {:induction false} ClosedInOrder(archives: map<nat, seq<Item>>, stored: seq<Record>, k: nat, c: nat)
    requires ArchivesOk(archives, stored, k) && c <= k
    ensures ClusterStart(c) <= |stored| && InOrder(archives, c) == stored[..ClusterStart(c)]
  {
    if c > 0 {
      var d: nat := c - 1;
      ClosedInOrder(archives, stored, k, d);
      assert ClusterStart(c) <= |stored|;
      assert ClusterStart(d) in archives && archives[ClusterStart(d)] == Joined(Cluster(stored, d));
      JoinedRecords(Cluster(stored, d));
      hide Joined, Records, Cluster, ArchivesOk, ClusterStart;
    }
  }

  /** At any time the closed archives followed by the open one hold all stored records in the order of their
      numbers, and every closed archive holds one full cluster. */
  lemma ArchivesAreAll(archives: map<nat, seq<Item>>, archTmp: seq<Item>, first: bool, stored: seq<Record>, k: nat)
    requires ArchivesOk(archives, stored, k) && OpenOk(archTmp, first, stored, ClusterStart(k))
    ensures InOrder(archives, k) + Records(archTmp) == stored
    ensures forall c: nat | c < k :: ClusterStart(c) in archives && |Records(archives[ClusterStart(c)])| == SIZE_CLUSTER
  {
    hide *;
    ClosedInOrder(archives, stored, k, k);
    OpenRecords(archTmp, first, stored, ClusterStart(k));
    forall c: nat | c < k { FullCluster(archives, stored, k, c); }
  }

  lemma OpenRecords(archTmp: seq<Item>, first: bool, stored: seq<Record>, start: nat)
    requires OpenOk(archTmp, first, stored, start)
    ensures start <= |stored| && stored == stored[..start] + Records(archTmp)
  {
    JoinedRecords(stored[start..]);
  }

  lemma FullCluster(archives: map<nat, seq<Item>>, stored: seq<Record>, k: nat, c: nat)
    requires ArchivesOk(archives, stored, k) && c < k
    ensures ClusterStart(c) in archives && |Records(archives[ClusterStart(c)])| == SIZE_CLUSTER
  {
    assert ClusterStart(c) in archives && archives[ClusterStart(c)] == Joined(Cluster(stored, c));
    JoinedRecords(Cluster(stored, c));
    hide Joined, Records;
  }
}
