/** The resumable download of a network weight, block by block, over sessions that may break at any point
    (Client::get_new_wght, src/autousi/client.cpp:133-245; Listen::handle_send and handle_recv,
    src/server/listen.cpp:377-440, 485-521). */
module WeightDownload {
  type Bytes = seq<nat>

  // ----- blocks -----

  /** Blocks of n bytes needed for len bytes: the quotient, and one more for a remainder (handle_send). */
  function BlockCount(len: nat, n: nat): nat
    requires 0 < n
  {
    len / n + if len % n < 1 then len % n else 1
  }

  /** Where block i starts. */
  function Start(n: nat, i: nat): nat {
    n * i
  }

  /** Block i of w: n bytes, or what is left. */
  function Block(w: Bytes, n: nat, i: nat): Bytes
    requires Start(n, i) <= |w|
  {
    w[Start(n, i)..Start(n, i) + (if |w| - Start(n, i) < n then |w| - Start(n, i) else n)]
  }

  lemma BlockFits(len: nat, n: nat, i: nat)
    requires 0 < n && i < BlockCount(len, n)
    ensures Start(n, i) < len
  {
    var q, r := len / n, len % n;
    assert len == n * q + r;
    if i < q { TimesGrows(n, i, q); }
  }

  lemma TimesGrows(n: nat, i: nat, q: nat)
    requires i < q
    ensures n * i + n <= n * q
  {
    var d := q - i - 1;
    assert n * q == n * (i + 1 + d) == n * i + n + n * d;
  }

  lemma BlocksCover(len: nat, n: nat)
    requires 0 < n
    ensures len <= n * BlockCount(len, n) < len + n || len == 0
    ensures BlockCount(len, n) == 0 <==> len == 0
  {
    assert len == n * (len / n) + len % n;
  }

  /** A block starts right at the end exactly if the length is a multiple of the block size and it is the one behind
      the last; that block is empty. */
  lemma EndBlock(w: Bytes, n: nat, i: nat)
    requires 0 < n
    ensures Start(n, i) == |w| <==> |w| % n == 0 && i == BlockCount(|w|, n)
    ensures Start(n, i) == |w| ==> Block(w, n, i) == []
  {
    var q, r := |w| / n, |w| % n;
    assert |w| == n * q + r;
    if i < q { TimesGrows(n, i, q); }
    if q < i { TimesGrows(n, q, i); }
  }

  /** The first k blocks, one after the other. */
  function Blocks(w: Bytes, n: nat, k: nat): Bytes
    requires 0 < n && k <= BlockCount(|w|, n)
  {
    if k == 0 then [] else
      BlockFits(|w|, n, k - 1);
      Blocks(w, n, k - 1) + Block(w, n, k - 1)
  }

  lemma {:induction false} BlocksArePrefix(w: Bytes, n: nat, k: nat)
    requires 0 < n && k <= BlockCount(|w|, n)
    ensures Blocks(w, n, k) == if n * k <= |w| then w[..n * k] else w
  {
    if k > 0 {
      var a := n * (k - 1);
      BlockFits(|w|, n, k - 1);
      BlocksArePrefix(w, n, k - 1);
      assert n * k == a + n;
      NextPrefix(w, a, n);
      assert Block(w, n, k - 1) == w[a..a + (if |w| - a < n then |w| - a else n)];
      hide Block, BlockCount;
    }
  }

  lemma BlockSlice(w: Bytes, n: nat, i: nat, a: nat, len: nat)
    requires Start(n, i) <= |w| && a + len <= |Block(w, n, i)|
    ensures |Block(w, n, i)| == (if |w| - Start(n, i) < n then |w| - Start(n, i) else n)
    ensures Start(n, i) + a + len <= |w| && w[Start(n, i) + a..Start(n, i) + a + len] == Block(w, n, i)[a..a + len]
  {
    hide Start;
    SliceOfSlice(w, Start(n, i), |Block(w, n, i)|, a, len);
  }

  lemma SliceOfSlice(w: Bytes, s: nat, m: nat, a: nat, len: nat)
    requires s + m <= |w| && a + len <= m
    ensures s + a + len <= |w| && w[s..s + m][a..a + len] == w[s + a..s + a + len]
  {
    var x, y := w[s..s + m][a..a + len], w[s + a..s + a + len];
    assert forall k | 0 <= k < len :: x[k] == y[k];
  }

  lemma NextPrefix(w: Bytes, a: nat, n: nat)
    requires a < |w|
    ensures w[..a] + w[a..a + (if |w| - a < n then |w| - a else n)] == if a + n <= |w| then w[..a + n] else w
  {}

  /** All blocks together are the weight. */
  lemma AllBlocks(w: Bytes, n: nat)
    requires 0 < n
    ensures Blocks(w, n, BlockCount(|w|, n)) == w
  {
    BlocksArePrefix(w, n, BlockCount(|w|, n));
    BlocksCover(|w|, n);
  }

  // ----- the server's side of one connection -----

  /** What goes over the wire: the length of a block (four bytes), or a stretch of its bytes. */
  datatype Chunk = Length(len: nat) | Data(bytes: Bytes)

  function DataOf(cs: seq<Chunk>): Bytes {
    if cs == [] then [] else DataOf(cs[..|cs| - 1]) + match cs[|cs| - 1] case Length(_) => [] case Data(b) => b
  }

  lemma DataOfTwo(len: nat, b: Bytes)
    ensures DataOf([Length(len), Data(b)]) == b
  {
    var one := [Length(len)];
    assert one[..0] == [] && DataOf(one) == [];
    assert [Length(len), Data(b)][..1] == one;
  }

  datatype StatSend = DoNothing | SendInfo | SendWght

  /** The send sizes that the server admits (src/server/server.cpp:96-97). */
  type SendSize = n: nat | 15 < n witness 16

  class Peer {
    const lenBlock: nat
    const maxSend: SendSize
    /** The weight the peer was told about; it stays the same when the server turns to a new one. */
    var no: int
    var wght: Bytes
    var iblock: nat
    var lenSent: nat
    var stat: StatSend

    constructor (lenBlock: nat, maxSend: SendSize)
      ensures this.lenBlock == lenBlock && this.maxSend == maxSend && no == -1 && stat == DoNothing
    {
      this.lenBlock, this.maxSend := lenBlock, maxSend;
      no, wght, iblock, lenSent, stat := -1, [], 0, 0, DoNothing;
    }

    /** A request for information: from now on the peer gets the present weight. */
    method AskInfo(now: nat, w: Bytes) returns (ok: bool)
      modifies this
      ensures ok == (old(stat) == DoNothing) && (ok ==> no == now && wght == w && stat == SendInfo)
    {
      if stat != DoNothing { return false; }
      no, wght, stat := now, w, SendInfo;
      return true;
    }

    /** Number and block count go out. */
    method TellInfo() returns (number: int, nblock: nat)
      requires stat == SendInfo && 0 < lenBlock
      modifies this`stat
      ensures stat == DoNothing && number == no && nblock == BlockCount(|wght|, lenBlock)
    {
      number, nblock, stat := no, BlockCount(|wght|, lenBlock), DoNothing;
    }

    /** A request for a block is refused while something is being sent, before any information, and beyond the end. */
    method AskBlock(i: nat) returns (ok: bool)
      modifies this`iblock, this`lenSent, this`stat
      ensures ok == (old(stat) == DoNothing && no >= 0 && Start(lenBlock, i) <= |wght|)
      ensures if ok then iblock == i && lenSent == 0 && stat == SendWght else stat == old(stat)
      ensures ok && 0 < lenBlock ==> (Sending() <==> Start(lenBlock, i) < |wght|)
    {
      if stat != DoNothing || no < 0 || |wght| < Start(lenBlock, i) { return false; }
      iblock, lenSent, stat := i, 0, SendWght;
      if 0 < lenBlock { Starts(); }
      return true;
    }

    /** A block is being sent and some of it is left. */
    predicate Sending()
      reads this
    {
      stat == SendWght && Start(lenBlock, iblock) <= |wght| && lenSent < |Block(wght, lenBlock, iblock)|
    }

    /** Told about w, and nothing is being sent. */
    predicate Ready(w: Bytes)
      reads this
    {
      stat == DoNothing && no >= 0 && wght == w
    }

    /** What handle_send asserts of a request that was just accepted holds exactly if the block starts before the end
        of the weight; handle_recv also accepts one that starts right at the end. */
    lemma Starts()
      requires stat == SendWght && 0 < lenBlock && Start(lenBlock, iblock) <= |wght| && lenSent == 0
      ensures Sending() <==> Start(lenBlock, iblock) < |wght|
    {
      hide Start;
    }

    /** The bytes of the block being sent. */
    function Current(): Bytes
      requires Start(lenBlock, iblock) <= |wght|
      reads this
    {
      Block(wght, lenBlock, iblock)
    }

    /** How many bytes the next turn sends. */
    function Turn(): (len: nat)
      requires Sending()
      reads this
      ensures lenSent + len <= |Current()|
    {
      var room := if lenSent == 0 then maxSend - 4 else maxSend;
      if |Current()| - lenSent < room then |Current()| - lenSent else room
    }

    /** One turn of handle_send: at most maxSend bytes, the length among them the first time. */
    method HandleSend() returns (out: seq<Chunk>)
      requires Sending()
      modifies this`lenSent, this`stat
      ensures out == (if old(lenSent) == 0 then [Length(|Current()|)] else [])
          + [Data(Current()[old(lenSent)..old(lenSent) + old(Turn())])]
      ensures if old(lenSent) + old(Turn()) < |Current()| then Sending()
          && lenSent == old(lenSent) + old(Turn()) else stat == DoNothing
    {
      BlockSlice(wght, lenBlock, iblock, lenSent, Turn());
      hide Block, Start;
      var lenStart := Start(lenBlock, iblock);
      var lenRest := |wght| - lenStart;
      var lenSend := if lenRest < lenBlock then lenRest else lenBlock;
      var room: nat := maxSend;
      out := [];
      if lenSent == 0 {
        out := out + [Length(lenSend)];
        room := room - 4;
      }
      var lenBuf := if lenSend - lenSent < room then lenSend - lenSent else room;
      out := out + [Data(wght[lenStart + lenSent..lenStart + lenSent + lenBuf])];
      if lenSent + lenBuf < lenSend { lenSent := lenSent + lenBuf; } else { stat := DoNothing; }
    }

    /** The turns after the first. */
    method SendRest(head: seq<Chunk>) returns (out: seq<Chunk>)
      requires Sending() && 0 < lenSent && DataOf(head) == Current()[..lenSent]
      modifies this`lenSent, this`stat
      ensures |head| <= |out| && out[..|head|] == head && DataOf(out) == Current() && stat == DoNothing
      ensures forall k | |head| <= k < |out| :: out[k].Data?
    {
      hide Block, Start;
      out := head;
      while true
        invariant Sending() && 0 < lenSent && DataOf(out) == Current()[..lenSent]
        invariant |head| <= |out| && out[..|head|] == head && forall k | |head| <= k < |out| :: out[k].Data?
        decreases |Current()| - lenSent
      {
        ghost var a, before := lenSent, out;
        var more := HandleSend();
        out := out + more;
        assert out[..|before|] == before;
        if stat == DoNothing {
          assert Current()[..a] + Current()[a..] == Current();
          return;
        }
        assert Current()[..a] + Current()[a..lenSent] == Current()[..lenSent];
      }
    }

    /** However the send size cuts it, the block goes out whole, once, behind its length. */
    method SendBlock() returns (out: seq<Chunk>)
      requires Sending() && lenSent == 0
      modifies this`lenSent, this`stat
      ensures |out| > 0 && out[0] == Length(|Current()|) && DataOf(out) == Current()
      ensures forall k | 1 <= k < |out| :: out[k].Data?
      ensures stat == DoNothing
    {
      hide Block, Start;
      ghost var t := Turn();
      out := HandleSend();
      DataOfTwo(|Current()|, Current()[..t]);
      assert t == |Current()| ==> Current()[..t] == Current();
      if stat == SendWght {
        ghost var head := out;
        out := SendRest(out);
        assert forall k | 0 <= k < |head| :: out[k] == out[..|head|][k];
      }
    }
  }
}
