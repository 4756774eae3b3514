/** The client's side of the download (Client::get_new_wght, src/autousi/client.cpp:133-245): the block files, the
    information file and the weight files survive a broken session, and only whole weights are ever installed. */
module WeightClient {
  import opened WeightDownload

  /** What every weight number stands for. */
  type World = map<nat, Bytes>

  /** The number in the information file; a missing or unreadable one counts as zero. */
  function Told(info: Option<nat>): nat {
    match info case None => 0 case Some(v) => v
  }

  datatype Option<T> = None | Some(value: T)

  /** b is block i of w. */
  ghost predicate IsBlock(w: Bytes, n: nat, i: nat, b: Bytes)
    requires 0 < n
  {
    i < BlockCount(|w|, n) && Start(n, i) <= |w| && b == Block(w, n, i)
  }

  /** The block files hold blocks of w. */
  ghost predicate TempsOf(temps: map<nat, Bytes>, w: Bytes, n: nat)
    requires 0 < n
  {
    forall i | i in temps :: IsBlock(w, n, i, temps[i])
  }

  /** The weight files hold the weights they are named after. */
  ghost predicate FilesOf(files: map<nat, Bytes>, world: World) {
    forall k | k in files :: k in world && files[k] == world[k]
  }

  // ----- the list of block files -----

  predicate Ascending(ids: seq<nat>) {
    forall k | 0 < k < |ids| :: ids[k - 1] < ids[k]
  }

  lemma {:induction false} AscendingFrom(ids: seq<nat>, k: nat)
    requires Ascending(ids) && k < |ids|
    ensures k <= ids[k]
  {
    if k > 0 { AscendingFrom(ids, k - 1); }
  }

  /** n numbers below n in ascending order are all of them: ids.size() == nblock is the test for completeness. */
  lemma {:induction false} AscendingAll(ids: seq<nat>, k: nat)
    requires Ascending(ids) && k < |ids| && forall j | 0 <= j < |ids| :: ids[j] < |ids|
    ensures ids[k] == k
    decreases |ids| - k
  {
    AscendingFrom(ids, k);
    if k < |ids| - 1 { AscendingAll(ids, k + 1); }
  }

  lemma {:induction false} Below(s: set<nat>, x: nat)
    requires x in s
    ensures exists i :: i in s && forall j | j in s :: i <= j
    decreases x
  {
    if y :| y in s && y < x { Below(s, y); }
  }

  function Least(s: set<nat>): (i: nat)
    requires s != {}
    ensures i in s && forall j | j in s :: i <= j
  {
    assert exists i :: i in s && forall j | j in s :: i <= j by {
      var x :| x in s;
      Below(s, x);
    }
    var i :| i in s && forall j | j in s :: i <= j;
    i
  }

  /** ids lists all without rest, and rest lies above it. */
  ghost predicate Listed(ids: seq<nat>, all: set<nat>, rest: set<nat>) {
    && Ascending(ids) && rest <= all && |ids| + |rest| == |all|
    && (forall i :: i in ids <==> i in all && i !in rest)
    && (forall i | i in rest :: ids == [] || ids[|ids| - 1] < i)
  }

  lemma NothingListed(all: set<nat>)
    ensures Listed([], all, all)
  {}

  lemma ListNext(ids: seq<nat>, all: set<nat>, rest: set<nat>, i: nat)
    requires Listed(ids, all, rest) && i in rest && forall j | j in rest :: i <= j
    ensures Listed(ids + [i], all, rest - {i}) && |rest - {i}| < |rest|
  {
    var next := ids + [i];
    assert forall j :: j in next <==> j in ids || j == i;
    assert |rest - {i}| == |rest| - 1;
    assert next[|next| - 1] == i;
    assert Listed(next, all, rest - {i});
  }

  /** Some block files have gone; the others are as they were. */
  ghost predicate Shrunk(now: map<nat, Bytes>, before: map<nat, Bytes>) {
    now.Keys <= before.Keys && forall i | i in now :: now[i] == before[i]
  }

  datatype Outcome = Installed | UpToDate | Broken | Dead

  class Client {
    const lenBlock: nat
    var wghtId: int
    var info: Option<nat>
    /** The block files, by block number. */
    var temps: map<nat, Bytes>
    /** The installed weights, by weight number. */
    var files: map<nat, Bytes>
    /** How many more messages and file operations go well before the session breaks. */
    var left: nat

    ghost predicate Valid(world: World)
      reads this
    {
      && 0 < lenBlock
      && (temps != map[] ==> Told(info) in world && TempsOf(temps, world[Told(info)], lenBlock))
      && FilesOf(files, world)
      && (wghtId >= 0 ==> wghtId in files)
    }

    constructor (lenBlock: nat)
      requires 0 < lenBlock
      ensures this.lenBlock == lenBlock && wghtId == -1 && temps == map[] && files == map[]
    {
      this.lenBlock := lenBlock;
      wghtId, info, temps, files, left := -1, None, map[], map[], 0;
    }

    /** The next message or file operation: false when the session breaks here. */
    method Op() returns (ok: bool)
      modifies this`left
      ensures ok == (old(left) > 0) && left == if ok then old(left) - 1 else 0
    {
      ok := left > 0;
      if ok { left := left - 1; }
    }

    /** The block files in ascending order of their numbers. */
    method GrabFiles() returns (ids: seq<nat>)
      ensures Listed(ids, temps.Keys, {})
    {
      ids := [];
      var rest := temps.Keys;
      NothingListed(rest);
      hide Listed;
      while rest != {}
        invariant Listed(ids, temps.Keys, rest)
        decreases |rest|
      {
        var i := Least(rest);
        ListNext(ids, temps.Keys, rest, i);
        ids := ids + [i];
        rest := rest - {i};
      }
    }

    /** Block files are removed one at a time; what is left are still blocks of the same weight. */
    method RemoveTemps(ids: seq<nat>) returns (ok: bool)
      requires Listed(ids, temps.Keys, {})
      modifies this`temps, this`left
      ensures Shrunk(temps, old(temps)) && left >= old(left) - |ids|
      ensures if ok then temps == map[] else left == 0 && old(left) < |ids|
    {
      var k := 0;
      while k < |ids|
        invariant 0 <= k <= |ids| && left == old(left) - k
        invariant Shrunk(temps, old(temps))
        invariant forall i | i in temps :: i in ids[k..]
      {
        ok := Op();
        if !ok { return; }
        temps := temps - {ids[k]};
        k := k + 1;
      }
      ok := true;
    }

    /** Before anything is fetched: block files of another weight go, and the information file takes the new number. */
    method Prepare(number: nat, nblock: nat, ghost world: World) returns (out: Outcome)
      requires Valid(world) && number in world && nblock == BlockCount(|world[number]|, lenBlock)
      modifies this`temps, this`left, this`info
      ensures Valid(world)
      ensures out.Installed? || (out.Broken? && left == 0 && old(left) <= |old(temps).Keys|)
      ensures out.Installed? ==> Told(info) == number && left >= old(left) - |old(temps).Keys| - 1
      ensures Told(old(info)) == number ==> info == old(info) && temps == old(temps)
    {
      var ids := GrabFiles();
      if Told(info) != number {
        var ok := RemoveTemps(ids);
        if !ok { return Broken; }
        ok := Op();
        if !ok {
          info := None;
          return Broken;
        }
        info := Some(number);
      } else {
        assert ids != [] ==> ids[|ids| - 1] in temps;
        if ids != [] && nblock <= ids[|ids| - 1] { return Dead; }
      }
      return Installed;
    }

    /** Block i is asked for, received behind its length, and written; it is there whole or not at all. */
    method FetchOne(peer: Peer, i: nat, ghost w: Bytes) returns (ok: bool)
      requires peer.lenBlock == lenBlock > 0 && peer.Ready(w)
      requires i < BlockCount(|w|, lenBlock) && i !in temps
      modifies peer, this`temps, this`left
      ensures ok ==> i in temps && IsBlock(w, lenBlock, i, temps[i]) && temps == old(temps)[i := temps[i]]
      ensures ok ==> peer.Ready(w) && left == old(left) - 4
      ensures !ok ==> temps == old(temps) && left == 0 && old(left) < 4
    {
      BlockFits(|w|, lenBlock, i);
      hide Block, Start, BlockCount;
      ok := Op();
      if !ok { return; }
      ok := peer.AskBlock(i);
      var sent := peer.SendBlock();
      ok := Op();
      if !ok { return; }
      var len := sent[0].len;
      ok := Op();
      if !ok { return; }
      var block := DataOf(sent)[..len];
      ok := Op();
      if !ok {
        temps := temps - {i};
        return;
      }
      temps := temps[i := block];
    }

    /** One flag for each block: set when its file is there. */
    method Flags(nblock: nat) returns (flags: array<bool>)
      requires forall i | i in temps :: i < nblock
      ensures fresh(flags) && flags.Length == nblock && forall i | 0 <= i < nblock :: flags[i] <==> i in temps
    {
      var ids := GrabFiles();
      flags := new bool[nblock](_ => false);
      var k := 0;
      while k < |ids|
        invariant 0 <= k <= |ids|
        invariant forall i | 0 <= i < nblock :: flags[i] <==> i in ids[..k]
      {
        assert ids[k] in temps;
        flags[ids[k]] := true;
        k := k + 1;
      }
      assert ids[..k] == ids;
    }

    /** The blocks whose files are missing are asked for, and no other. */
    method FetchMissing(peer: Peer, nblock: nat, ghost w: Bytes) returns (ok: bool, ghost asked: set<nat>)
      requires peer.lenBlock == lenBlock > 0 && peer.Ready(w)
      requires nblock == BlockCount(|w|, lenBlock) && TempsOf(temps, w, lenBlock)
      modifies peer, this`temps, this`left
      ensures Fetched(temps, old(temps), w, lenBlock, if ok then nblock else 0)
      ensures if ok then left >= old(left) - 4 * nblock else left == 0 && old(left) < 4 * nblock
      ensures asked !! old(temps).Keys
    {
      assert forall i | i in temps :: IsBlock(w, lenBlock, i, temps[i]);
      var flags := Flags(nblock);
      asked := {};
      var iblock := 0;
      ghost var missing := flags[..];
      assert Fetching(temps, old(temps), w, lenBlock, missing, 0, asked);
      hide *;
      while iblock < nblock
        invariant iblock <= nblock == flags.Length && flags[..] == missing
        invariant Fetching(temps, old(temps), w, lenBlock, missing, iblock, asked)
        invariant peer.Ready(w) && left >= old(left) - 4 * iblock
      {
        FetchStep(temps, old(temps), w, lenBlock, missing, iblock, asked);
        if !flags[iblock] {
          asked := asked + {iblock};
          ok := FetchOne(peer, iblock, w);
          if !ok { return; }
        }
        iblock := iblock + 1;
      }
      ok := true;
    }

    /** The block files one after the other. */
    method Gather(ids: seq<nat>, ghost w: Bytes) returns (ok: bool, all: Bytes)
      requires 0 < lenBlock && Listed(ids, temps.Keys, {}) && |ids| == BlockCount(|w|, lenBlock)
      requires TempsOf(temps, w, lenBlock)
      modifies this`left
      ensures ok ==> all == w && left == old(left) - |ids|
      ensures !ok ==> left == 0 && old(left) < |ids|
    {
      all := [];
      var k := 0;
      while k < |ids|
        invariant 0 <= k <= |ids| && all == Blocks(w, lenBlock, k) && left == old(left) - k
      {
        assert ids[k] in temps;
        ok := Op();
        if !ok { return; }
        NextBlock(ids, temps, w, lenBlock, k);
        all := all + temps[ids[k]];
        k := k + 1;
      }
      AllBlocks(w, lenBlock);
      ok := true;
    }

    /** Everything after the numbers are known: fetch, gather, rename, clean up. */
    method Download(peer: Peer, number: nat, nblock: nat, ghost world: World)
        returns (out: Outcome, ghost asked: set<nat>)
      requires Valid(world) && number in world && Told(info) == number
      requires peer.lenBlock == lenBlock && peer.Ready(world[number])
      requires nblock == BlockCount(|world[number]|, lenBlock)
      modifies peer, this`temps, this`left, this`files, this`wghtId
      ensures Valid(world)
      ensures out.Installed? || (out.Broken? && left == 0 && old(left) < 6 * nblock + 1)
      ensures out.Installed? ==> wghtId == number && number in files && temps == map[]
      ensures !out.Installed? ==> wghtId == old(wghtId)
      ensures files == old(files) || files == old(files)[number := world[number]]
      ensures number !in files ==> old(temps).Keys <= temps.Keys
      ensures asked !! old(temps).Keys
    {
      hide BlockCount, Block, Start, Listed, Blocks, Ascending;
      ghost var w := world[number];
      var ok;
      ok, asked := FetchMissing(peer, nblock, w);
      if !ok { return Broken, asked; }
      var ids := GrabFiles();
      AllThere(ids, temps, w, lenBlock);
      if |ids| != nblock { return Dead, asked; }
      var all;
      ok, all := Gather(ids, w);
      if !ok { return Broken, asked; }
      ok := Op();
      if !ok { return Broken, asked; }
      files := files[number := all];
      ok := RemoveTemps(ids);
      if !ok { return Broken, asked; }
      wghtId := number;
      return Installed, asked;
    }

    /** A client that starts anew goes by the greatest weight file it finds (Client::start). */
    method Restart()
      modifies this`wghtId
      ensures if files == map[] then wghtId == -1 else wghtId in files && forall k | k in files :: k <= wghtId
    {
      wghtId := -1;
      var rest := files.Keys;
      while rest != {}
        invariant rest <= files.Keys && forall k | k in files :: k in rest || k <= wghtId
        invariant wghtId == -1 || wghtId in files
        decreases |rest|
      {
        var k := Least(rest);
        if wghtId < k { wghtId := k; }
        rest := rest - {k};
      }
    }

    /** One session with a server whose present weight is w, number now. */
    method GetNewWght(peer: Peer, now: nat, w: Bytes, budget: nat, ghost world: World)
      returns (out: Outcome, ghost asked: set<nat>)
      requires Valid(world) && now in world && world[now] == w
      requires peer.lenBlock == lenBlock && peer.stat == DoNothing
      modifies peer, this
      ensures Valid(world)
      ensures out.Installed? ==> wghtId == now && now in files && temps == map[]
      ensures out.UpToDate? ==> old(wghtId) == now && w != []
      ensures out.Dead? ==> w == [] || now < old(wghtId)
      ensures !out.Installed? ==> wghtId == old(wghtId)
      ensures files == old(files) || files == old(files)[now := w]
      ensures Told(old(info)) == now ==> asked !! old(temps).Keys && (now !in files ==> old(temps).Keys <= temps.Keys)
      ensures budget >= 6 * BlockCount(|w|, lenBlock) + |old(temps).Keys| + 4 ==> !out.Broken?
      ensures !out.Broken? && w != [] && now > old(wghtId) ==> out.Installed?
    {
      left, asked := budget, {};
      BlocksCover(|w|, lenBlock);
      var ok := Op();
      if !ok { return Broken, asked; }
      ok := peer.AskInfo(now, w);
      ok := Op();
      if !ok { return Broken, asked; }
      var number, nblock := peer.TellInfo();
      if nblock == 0 || number < 0 { return Dead, asked; }
      if number == wghtId { return UpToDate, asked; }
      if number < wghtId { return Dead, asked; }
      out := Prepare(number, nblock, world);
      if !out.Installed? { return out, asked; }
      out, asked := Download(peer, number, nblock, world);
    }
  }

  /** A session: what the server offers by then, when the session breaks, and whether the client was started anew. */
  datatype Session = Session(now: nat, budget: nat, maxSend: SendSize, restart: bool)

  /** Whatever sessions there were, whatever weights they offered, wherever each of them broke: every installed file
      holds exactly the weight it is named after. */
  method Sessions(lenBlock: nat, script: seq<Session>, world: World) returns (c: Client)
    requires 0 < lenBlock && forall k | 0 <= k < |script| :: script[k].now in world
    ensures fresh(c) && c.Valid(world)
    ensures forall k | k in c.files :: k in world && c.files[k] == world[k]
  {
    c := new Client(lenBlock);
    var k := 0;
    while k < |script|
      invariant 0 <= k <= |script| && fresh(c) && c.Valid(world) && c.lenBlock == lenBlock
    {
      var s := script[k];
      if s.restart { c.Restart(); }
      var peer := new Peer(lenBlock, s.maxSend);
      var out, _ := c.GetNewWght(peer, s.now, world[s.now], s.budget, world);
      k := k + 1;
    }
  }

  /** The files are blocks of w, none of those from before is lost, and the first k are there. */
  ghost predicate Fetched(temps: map<nat, Bytes>, before: map<nat, Bytes>, w: Bytes, n: nat, k: nat)
    requires 0 < n
  {
    TempsOf(temps, w, n) && before.Keys <= temps.Keys && forall i | 0 <= i < k :: i in temps
  }

  /** The loop over the blocks before block k: what was missing at the start is asked for and there. */
  ghost predicate Fetching(temps: map<nat, Bytes>, before: map<nat, Bytes>, w: Bytes, n: nat, flags: seq<bool>, k: nat,
                           asked: set<nat>)
    requires 0 < n
  {
    && Fetched(temps, before, w, n, k) && asked !! before.Keys
    && (forall i | 0 <= i < |flags| :: flags[i] <==> i in before)
    && forall i | k <= i :: i in temps <==> i in before
  }

  lemma FetchStep(temps: map<nat, Bytes>, before: map<nat, Bytes>, w: Bytes, n: nat, flags: seq<bool>, k: nat,
                  asked: set<nat>)
    requires 0 < n && Fetching(temps, before, w, n, flags, k, asked) && k < |flags|
    ensures Fetched(temps, before, w, n, 0) && asked !! before.Keys
    ensures flags[k] ==> Fetching(temps, before, w, n, flags, k + 1, asked)
    ensures !flags[k] ==> k !in temps && asked + {k} !! before.Keys
    ensures forall b | !flags[k]
        && IsBlock(w, n, k, b) :: Fetching(temps[k := b], before, w, n, flags, k + 1, asked + {k})
  {}

  lemma AllThere(ids: seq<nat>, temps: map<nat, Bytes>, w: Bytes, n: nat)
    requires 0 < n && Listed(ids, temps.Keys, {}) && Fetched(temps, temps, w, n, BlockCount(|w|, n))
    ensures |ids| == BlockCount(|w|, n)
  {
    assert temps.Keys == Upto(BlockCount(|w|, n));
  }

  function Upto(n: nat): (s: set<nat>)
    ensures |s| == n && forall i :: i in s <==> 0 <= i < n
  {
    if n == 0 then {} else Upto(n - 1) + {n - 1}
  }

  lemma NextBlock(ids: seq<nat>, temps: map<nat, Bytes>, w: Bytes, n: nat, k: nat)
    requires 0 < n && Listed(ids, temps.Keys, {}) && |ids| == BlockCount(|w|, n) && TempsOf(temps, w, n) && k < |ids|
    ensures ids[k] == k && k in temps && Blocks(w, n, k + 1) == Blocks(w, n, k) + temps[k]
  {
    assert forall j | 0 <= j < |ids| :: ids[j] in temps;
    AscendingAll(ids, k);
    assert ids[k] in temps;
  }
}
