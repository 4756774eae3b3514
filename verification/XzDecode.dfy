/** The tokenizer on top of the decompressor (XZDecode, src/common/xzi.hpp:72-87, xzi.cpp:223-312). The decompressor
    is an oracle that cuts its output into chunks as it likes. */
module XzDecode {
  import opened XzFields

  datatype Ret = Ok | StreamEnd | Bad

  /** Found: a field is complete. NoMore: the stream ended and there is none. Broken: the data are bad. Unterminated:
      the stream ended within a field, which the source asserts never happens. */
  datatype Line = Found | NoMore | Broken | Unterminated

  function Concat(cs: seq<seq<Byte>>): seq<Byte> {
    if cs == [] then [] else cs[0] + Concat(cs[1..])
  }

  /** At most limit bytes of w; the rest of it is dropped. */
  function Cut(w: seq<Byte>, limit: nat): seq<Byte> {
    if |w| <= limit then w else w[..limit]
  }

  // ----- one reading of a field, as values -----

  /** Halfway through: of the stream s, the bytes todo are left and word is what is known of the field. */
  ghost predicate Reading(s: seq<Byte>, ds: seq<Byte>, found: bool, word: seq<Byte>, todo: seq<Byte>) {
    if found then word != [] && NoDelim(word, ds) && Skip(s, ds) == word + todo
    else word == [] && Skip(todo, ds) == Skip(s, ds)
  }

  lemma Start(s: seq<Byte>, ds: seq<Byte>)
    ensures Reading(s, ds, false, [], s)
  {}

  lemma DropLeads(s: seq<Byte>, ds: seq<Byte>, buf: seq<Byte>, rest: seq<Byte>, n: nat)
    requires Reading(s, ds, false, [], buf + rest)
    requires n <= |buf| && AllDelims(buf[..n], ds) && (n < |buf| ==> buf[n] !in ds)
    ensures Reading(s, ds, false, [], buf[n..] + rest)
    ensures n < |buf| ==> Skip(s, ds) == buf[n..] + rest
  {
    SkipPrefix(buf[..n], buf[n..] + rest, ds);
    assert buf + rest == buf[..n] + (buf[n..] + rest);
  }

  lemma TakeRun(s: seq<Byte>, ds: seq<Byte>, word: seq<Byte>, buf: seq<Byte>, rest: seq<Byte>, n: nat)
    requires Skip(s, ds) == word + (buf + rest) && NoDelim(word, ds)
    requires n <= |buf| && NoDelim(buf[..n], ds) && word + buf[..n] != []
    ensures Reading(s, ds, true, word + buf[..n], buf[n..] + rest)
  {}

  lemma FieldDone(s: seq<Byte>, ds: seq<Byte>, word: seq<Byte>, todo: seq<Byte>)
    requires Reading(s, ds, true, word, todo) && (todo != [] ==> todo[0] in ds)
    ensures word == Field(s, ds) && todo == After(s, ds)
  {
    RunIs(word, todo, ds);
  }

  lemma NoBytesYet(p: seq<Byte>, ds: seq<Byte>)
    ensures [] + p == p && NoDelim([], ds)
  {}

  class Decoder {
    const outbuf: array<Byte>
    var len: nat
    /** What the decompressor will still emit, how the stream ends, and whether the end is told with the last chunk. */
    var chunks: seq<seq<Byte>>
    const bad: bool
    const joint: bool
    /** The bytes the running CRC has been fed, in order. */
    var fed: seq<Byte>
    var lenOutTot: nat

    predicate Valid()
      reads this
    {
      len <= outbuf.Length && forall k | 0 <= k < |chunks| :: |chunks[k]| <= outbuf.Length
    }

    /** What is decompressed but not yet read, and what is still to be decompressed. */
    function Pending(): seq<Byte>
      requires Valid()
      reads this, outbuf
    {
      outbuf[..len] + Concat(chunks)
    }

    constructor (capacity: nat, chunks: seq<seq<Byte>>, bad: bool, joint: bool)
      requires forall k | 0 <= k < |chunks| :: |chunks[k]| <= capacity
      ensures Valid() && fresh(outbuf) && Pending() == Concat(chunks) && fed == [] && lenOutTot == 0
      ensures this.chunks == chunks && this.bad == bad
    {
      outbuf := new Byte[capacity];
      len, fed, lenOutTot := 0, [], 0;
      this.chunks, this.bad, this.joint := chunks, bad, joint;
    }

    /** The decompressor runs into the empty buffer. */
    method Code() returns (ret: Ret)
      requires Valid() && len == 0
      modifies this`len, this`chunks, outbuf
      ensures Valid() && Pending() == Concat(old(chunks)) && outbuf[..len] + Concat(chunks) == Concat(old(chunks))
      ensures |chunks| < |old(chunks)| || (old(chunks) == [] && len == 0 && chunks == [] && !ret.Ok?)
      ensures ret.StreamEnd? ==> chunks == [] && !bad
      ensures ret.Bad? ==> old(chunks) == [] && bad
    {
      if chunks == [] {
        assert outbuf[..len] == [];
        return if bad then Bad else StreamEnd;
      }
      var c := chunks[0];
      forall i | 0 <= i < |c| { outbuf[i] := c[i]; }
      len, chunks := |c|, chunks[1..];
      assert outbuf[..len] == c;
      ret := if chunks == [] && joint && !bad then StreamEnd else Ok;
    }

    /** The decompressor's turn: its output is fed to the running CRC; a bad stream is given up. */
    method Refill() returns (ret: Ret)
      requires Valid() && len == 0
      modifies this`len, this`chunks, this`fed, outbuf
      ensures Valid() && Pending() == old(Pending()) && Fed() == old(Fed())
      ensures |chunks| < |old(chunks)| || (Ended() && !ret.Ok?)
      ensures ret.StreamEnd? ==> chunks == [] && !bad
      ensures ret.Bad? ==> Ended() && bad
    {
      assert outbuf[..len] == [];
      ret := Code();
      if !ret.Bad? { fed := fed + outbuf[..len]; }
    }

    /** What the running CRC has been fed with, and what it still will be. */
    function Fed(): seq<Byte>
      reads this
    {
      fed + Concat(chunks)
    }

    /** Nothing is left. */
    predicate Ended()
      requires Valid()
      reads this, outbuf
    {
      len == 0 && chunks == [] && Pending() == []
    }

    /** How many delimiters the buffer starts with. */
    method CountLeads(ds: seq<Byte>) returns (n: nat)
      requires Valid()
      ensures n <= len && AllDelims(outbuf[..len][..n], ds) && (n < len ==> outbuf[n] !in ds)
    {
      n := 0;
      while n < len && outbuf[n] in ds
        invariant n <= len && AllDelims(outbuf[..n], ds)
      {
        n := n + 1;
      }
      assert outbuf[..len][..n] == outbuf[..n];
    }

    /** How many bytes the buffer starts with that are no delimiters. */
    method CountRun(ds: seq<Byte>) returns (n: nat)
      requires Valid()
      ensures n <= len && NoDelim(outbuf[..len][..n], ds) && (n < len ==> outbuf[n] in ds)
      ensures 0 < len && outbuf[0] !in ds ==> 0 < n
    {
      n := 0;
      while n < len && outbuf[n] !in ds
        invariant n <= len && NoDelim(outbuf[..n], ds)
      {
        n := n + 1;
      }
      assert outbuf[..len][..n] == outbuf[..n];
    }

    /** The first n bytes leave the buffer; the others move to its front. */
    method Remove(n: nat)
      requires Valid() && n <= len
      modifies this`len, outbuf
      ensures Valid() && len == old(len) - n && outbuf[..len] == old(outbuf[..len])[n..]
    {
      ghost var was := outbuf[..len];
      var i := 0;
      while i < len - n
        invariant 0 <= i <= len - n && len == |was|
        invariant forall k | 0 <= k < i :: outbuf[k] == was[n + k]
        invariant forall k | i <= k < len :: outbuf[k] == was[k]
      {
        outbuf[i] := outbuf[i + n];
        i := i + 1;
      }
      len := len - n;
    }

    /** Before the field is found: leading delimiters go. */
    method SkipLeads(ds: seq<Byte>, ghost s: seq<Byte>) returns (found: bool)
      requires Valid() && Reading(s, ds, false, [], Pending())
      modifies this`len, outbuf
      ensures Valid()
      ensures if found then len > 0 && outbuf[0] !in ds && Skip(s, ds) == Pending()
              else len == 0 && Reading(s, ds, false, [], Pending())
    {
      ghost var buf := outbuf[..len];
      var n := CountLeads(ds);
      DropLeads(s, ds, buf, Concat(chunks), n);
      hide *;
      if 0 < n { Remove(n); }
      found := 0 < len;
    }

    /** Once the field is found: its bytes are copied, as far as the limit goes, and leave the buffer. */
    method CopyRun(limit: nat, ds: seq<Byte>, got: seq<Byte>, ghost word: seq<Byte>, ghost s: seq<Byte>)
      returns (out: seq<Byte>, ghost nowWord: seq<Byte>)
      requires Valid() && Skip(s, ds) == word + Pending() && NoDelim(word, ds) && got == Cut(word, limit)
      requires word != [] || (0 < len && outbuf[0] !in ds)
      modifies this`len, outbuf
      ensures Valid() && Reading(s, ds, true, nowWord, Pending()) && out == Cut(nowWord, limit)
      ensures 0 < len ==> outbuf[0] in ds
    {
      ghost var buf := outbuf[..len];
      var n := CountRun(ds);
      TakeRun(s, ds, word, buf, Concat(chunks), n);
      nowWord := word + buf[..n];
      hide *;
      var cpy := if limit < |got| + n then limit - |got| else n;
      out := got + outbuf[..cpy];
      assert outbuf[..cpy] == buf[..cpy];
      Remove(n);
      assert 0 < len ==> outbuf[0] == outbuf[..len][0] == buf[n];
    }

    /** One time around the loop of getline up to the decompressor's turn. */
    method Scan(limit: nat, ds: seq<Byte>, found: bool, got: seq<Byte>, ghost word: seq<Byte>, ghost s: seq<Byte>)
      returns (nowFound: bool, out: seq<Byte>, ghost nowWord: seq<Byte>)
      requires Valid() && Reading(s, ds, found, word, Pending()) && got == Cut(word, limit)
      modifies this`len, outbuf
      ensures Valid() && Reading(s, ds, nowFound, nowWord, Pending()) && out == Cut(nowWord, limit)
      ensures 0 < len ==> nowFound && outbuf[0] in ds
    {
      hide Concat, Skip, NoDelim, Cut;
      out, nowFound, nowWord := got, found, word;
      if !nowFound {
        nowFound := SkipLeads(ds, s);
        NoBytesYet(Pending(), ds);
      }
      if nowFound { out, nowWord := CopyRun(limit, ds, got, word, s); }
    }

    /** One call: the next field, cut to the limit, however the decompressor splits its output. */
    method GetLine(limit: nat, ds: seq<Byte>) returns (line: seq<Byte>, res: Line)
      requires Valid()
      modifies this`len, this`chunks, this`fed, this`lenOutTot, outbuf
      ensures Valid() && Fed() == old(Fed())
      ensures limit == 0 ==> line == [] && res.Found? && Pending() == old(Pending()) && lenOutTot == old(lenOutTot)
      ensures limit > 0 ==> Pending() == After(old(Pending()), ds)
      ensures limit > 0 ==> line == Cut(Field(old(Pending()), ds), limit) && res == Outcome(old(Pending()), ds, bad)
      ensures limit > 0 && (res.Found? || res.NoMore?) ==> lenOutTot == old(lenOutTot) + |line|
      ensures limit > 0 && !res.Found? ==> chunks == []
    {
      line := [];
      if limit == 0 { return line, Found; }
      hide Skip, Field, After, Reading, NoDelim, Outcome, Run, Concat, Fed;
      ghost var s := Pending();
      Start(s, ds);
      ghost var word := [];
      var found, ret := false, Ok;
      while true
        invariant Valid() && Reading(s, ds, found, word, Pending()) && line == Cut(word, limit)
        invariant Fed() == old(Fed()) && lenOutTot == old(lenOutTot)
        invariant (ret.StreamEnd? ==> chunks == [] && !bad) && !ret.Bad?
        decreases |chunks|, if ret.Ok? then 1 else 0
      {
        found, line, word := Scan(limit, ds, found, line, word, s);
        if found && 0 < len {
          Complete(s, ds, word, Pending(), bad);
          lenOutTot := lenOutTot + |line|;
          return line, Found;
        }
        if ret.StreamEnd? {
          if line != [] { return line, Unterminated; }
          lenOutTot := lenOutTot + |line|;
          return line, NoMore;
        }
        ret := Refill();
        if ret.Bad? {
          return line, Broken;
        }
      }
    }
  }

  /** How a call ends: by the field when a delimiter follows it, else by the end of the stream. */
  function Outcome(s: seq<Byte>, ds: seq<Byte>, bad: bool): Line {
    if Field(s, ds) != [] && After(s, ds) != [] then Found
    else if bad then Broken
    else if Field(s, ds) == [] then NoMore
    else Unterminated
  }

  lemma Complete(s: seq<Byte>, ds: seq<Byte>, word: seq<Byte>, todo: seq<Byte>, bad: bool)
    requires Reading(s, ds, true, word, todo) && todo != [] && todo[0] in ds
    ensures word == Field(s, ds) && todo == After(s, ds) && Outcome(s, ds, bad) == Found
  {
    FieldDone(s, ds, word, todo);
  }

  // ----- reading field after field -----

  /** The stream does not end within a field. */
  predicate Terminated(s: seq<Byte>, ds: seq<Byte>) {
    s == [] || s[|s| - 1] in ds
  }

  /** The fields that a delimiter follows. */
  function Whole(s: seq<Byte>, ds: seq<Byte>): seq<seq<Byte>> {
    var fs := Fields(s, ds);
    if Terminated(s, ds) || fs == [] then fs else fs[..|fs| - 1]
  }

  function CutAll(fs: seq<seq<Byte>>, limit: nat): seq<seq<Byte>> {
    seq(|fs|, k requires 0 <= k < |fs| => Cut(fs[k], limit))
  }

  lemma WholeStep(s: seq<Byte>, ds: seq<Byte>, bad: bool)
    ensures Outcome(s, ds, bad).Found?
          ==> |After(s, ds)| < |s| && Whole(s, ds) == [Field(s, ds)] + Whole(After(s, ds), ds)
    ensures !Outcome(s, ds, bad).Found? ==> Whole(s, ds) == [] && After(s, ds) == []
    ensures Outcome(s, ds, bad).NoMore? ==> !bad && Terminated(s, ds)
    ensures Outcome(s, ds, bad).Unterminated? ==> !bad && !Terminated(s, ds)
    ensures Outcome(s, ds, bad).Broken? ==> bad
    ensures Outcome(s, ds, bad).Found? ==> Terminated(s, ds) == Terminated(After(s, ds), ds)
  {
    FieldOrNone(s, ds);
    hide Skip, Run, Field, After;
    if Field(s, ds) != [] {
      assert Fields(s, ds) == [Field(s, ds)] + Fields(After(s, ds), ds);
      hide Fields, Terminated;
      EndOfRest(s, ds);
      if After(s, ds) != [] && !Terminated(s, ds) { NotAllDelims(After(s, ds), ds); }
    }
  }

  lemma FieldOrNone(s: seq<Byte>, ds: seq<Byte>)
    ensures Field(s, ds) == [] ==> Skip(s, ds) == [] && After(s, ds) == [] && Fields(s, ds) == [] && Terminated(s, ds)
    ensures Field(s, ds) != [] ==> Skip(s, ds) != [] && |After(s, ds)| < |s|
  {
    SkipShrinks(s, ds);
  }

  /** What follows the first field ends as the stream does; a stream that is nothing but its first field is not
      terminated. */
  lemma EndOfRest(s: seq<Byte>, ds: seq<Byte>)
    requires Field(s, ds) != []
    ensures After(s, ds) != [] ==> Terminated(After(s, ds), ds) == Terminated(s, ds)
    ensures After(s, ds) == [] ==> !Terminated(s, ds) && Fields(After(s, ds), ds) == []
  {
    SkipSplits(s, ds);
    var t, w, r := Skip(s, ds), Field(s, ds), After(s, ds);
    assert t == w + r;
    assert t[|t| - 1] == s[|s| - 1];
    if r != [] { assert r[|r| - 1] == t[|t| - 1]; } else { assert w == t; }
  }

  lemma NotAllDelims(r: seq<Byte>, ds: seq<Byte>)
    requires r != [] && !Terminated(r, ds)
    ensures Fields(r, ds) != []
  {
    SkipShrinks(r, ds);
  }

  lemma CutNone(limit: nat)
    ensures CutAll([], limit) == []
  {}

  lemma CutAllStep(w: seq<Byte>, fs: seq<seq<Byte>>, limit: nat)
    ensures CutAll([w] + fs, limit) == [Cut(w, limit)] + CutAll(fs, limit)
  {}

  /** Calls until one finds no field return the maximal runs of bytes that are no delimiters, in order, each cut to the
      limit; the last one only if a delimiter ends it. The running CRC was fed every byte exactly once, in order. */
  method ReadFields(d: Decoder, limit: nat, ds: seq<Byte>) returns (lines: seq<seq<Byte>>, res: Line)
    requires d.Valid() && 0 < limit
    modifies d`len, d`chunks, d`fed, d`lenOutTot, d.outbuf
    ensures d.Valid() && lines == CutAll(Whole(old(d.Pending()), ds), limit)
    ensures d.fed == old(d.Fed()) && d.Pending() == []
    ensures !res.Found? && (res.NoMore? ==> !d.bad && Terminated(old(d.Pending()), ds))
    ensures (res.Unterminated? ==> !d.bad && !Terminated(old(d.Pending()), ds)) && (res.Broken? ==> d.bad)
  {
    hide Field, After, Outcome, Terminated, Whole, CutAll, Cut;
    ghost var s := d.Pending();
    lines := [];
    ghost var todo := CutAll(Whole(s, ds), limit);
    assert [] + todo == todo;
    while true
      invariant d.Valid() && d.Fed() == old(d.Fed()) && Terminated(d.Pending(), ds) == Terminated(s, ds)
      invariant lines + CutAll(Whole(d.Pending(), ds), limit) == CutAll(Whole(s, ds), limit)
      decreases |d.Pending()|
    {
      ghost var now := d.Pending();
      WholeStep(now, ds, d.bad);
      var line;
      line, res := d.GetLine(limit, ds);
      if !res.Found? {
        CutNone(limit);
        assert Concat(d.chunks) == [];
        return;
      }
      CutAllStep(Field(now, ds), Whole(After(now, ds), ds), limit);
      assert lines + [line] + CutAll(Whole(d.Pending(), ds), limit) == lines + CutAll(Whole(now, ds), limit);
      lines := lines + [line];
    }
  }
}
