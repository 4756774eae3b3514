/** The fields of a byte stream: its maximal runs of bytes that are no delimiters (XZDecode::getline reads one at a
    time, src/common/xzi.cpp:223-312). */
module XzFields {
  type Byte = x: int | 0 <= x < 256

  /** s without its leading delimiters. */
  function Skip(s: seq<Byte>, ds: seq<Byte>): seq<Byte> {
    if s == [] || s[0] !in ds then s else Skip(s[1..], ds)
  }

  /** How many bytes at the start of s are no delimiters. */
  function Run(s: seq<Byte>, ds: seq<Byte>): (n: nat)
    ensures n <= |s| && (n < |s| ==> s[n] in ds) && forall k | 0 <= k < n :: s[k] !in ds
  {
    if s == [] || s[0] in ds then 0 else 1 + Run(s[1..], ds)
  }

  /** The first field of s, empty if there is none. */
  function Field(s: seq<Byte>, ds: seq<Byte>): seq<Byte> {
    Skip(s, ds)[..Run(Skip(s, ds), ds)]
  }

  /** What follows the first field. */
  function After(s: seq<Byte>, ds: seq<Byte>): seq<Byte> {
    Skip(s, ds)[Run(Skip(s, ds), ds)..]
  }

  predicate NoDelim(s: seq<Byte>, ds: seq<Byte>) {
    forall k | 0 <= k < |s| :: s[k] !in ds
  }

  predicate AllDelims(s: seq<Byte>, ds: seq<Byte>) {
    forall k | 0 <= k < |s| :: s[k] in ds
  }

  lemma {:induction false} SkipShrinks(s: seq<Byte>, ds: seq<Byte>)
    ensures |Skip(s, ds)| <= |s| && (Skip(s, ds) != [] ==> Skip(s, ds)[0] !in ds)
    ensures Skip(s, ds) == [] <==> AllDelims(s, ds)
  {
    if s != [] && s[0] in ds {
      SkipShrinks(s[1..], ds);
      assert forall k | 0 < k < |s| :: s[k] == s[1..][k - 1];
    }
  }

  function Fields(s: seq<Byte>, ds: seq<Byte>): seq<seq<Byte>>
    decreases |s|
  {
    SkipShrinks(s, ds);
    if Skip(s, ds) == [] then [] else [Field(s, ds)] + Fields(After(s, ds), ds)
  }

  // ----- skipping and splitting -----

  /** Leading delimiters may go in two goes. */
  lemma {:induction false} SkipPrefix(a: seq<Byte>, b: seq<Byte>, ds: seq<Byte>)
    requires AllDelims(a, ds)
    ensures Skip(a + b, ds) == Skip(b, ds)
  {
    if a == [] {
      assert a + b == b;
    } else {
      SkipPrefix(a[1..], b, ds);
      assert (a + b)[1..] == a[1..] + b;
    }
  }

  /** A run of other bytes followed by a delimiter, or by nothing, is the first field. */
  lemma {:induction false} FieldIs(w: seq<Byte>, b: seq<Byte>, ds: seq<Byte>)
    requires w != [] && NoDelim(w, ds) && (b != [] ==> b[0] in ds)
    ensures Skip(w + b, ds) == w + b && Field(w + b, ds) == w && After(w + b, ds) == b
  {
    RunIs(w, b, ds);
    assert (w + b)[0] == w[0];
  }

  lemma {:induction false} RunIs(w: seq<Byte>, b: seq<Byte>, ds: seq<Byte>)
    requires NoDelim(w, ds) && (b != [] ==> b[0] in ds)
    ensures Run(w + b, ds) == |w|
  {
    if w == [] {
      assert w + b == b;
    } else {
      RunIs(w[1..], b, ds);
      assert (w + b)[1..] == w[1..] + b;
    }
  }

  // ----- what the fields are -----

  lemma {:induction false} FieldsOfDelims(s: seq<Byte>, ds: seq<Byte>)
    requires AllDelims(s, ds)
    ensures Fields(s, ds) == []
  {
    SkipShrinks(s, ds);
  }

  lemma FieldsOfRun(w: seq<Byte>, ds: seq<Byte>)
    requires w != [] && NoDelim(w, ds)
    ensures Fields(w, ds) == [w]
  {
    assert w + [] == w;
    FieldIs(w, [], ds);
    FieldsOfDelims([], ds);
  }

  /** A delimiter separates: no field reaches across it, and nothing else of the two sides matters. With the fields of
      a run without delimiters, and of nothing, this says what the fields of any stream are. */
  lemma FieldsSplit(a: seq<Byte>, d: Byte, b: seq<Byte>, ds: seq<Byte>)
    requires d in ds
    ensures Fields(a + [d] + b, ds) == Fields(a, ds) + Fields(b, ds)
  {
    FieldsUpTo(a, [d] + b, ds);
    SkipPrefix([d], b, ds);
    hide Fields;
    assert a + [d] + b == a + ([d] + b);
  }

  lemma {:induction false} FieldsUpTo(a: seq<Byte>, c: seq<Byte>, ds: seq<Byte>)
    requires c != [] && c[0] in ds
    ensures Fields(a + c, ds) == Fields(a, ds) + Fields(c, ds)
    decreases |a|
  {
    SkipShrinks(a, ds);
    LeadsGo(a, c, ds);
    if Skip(a, ds) == [] {
      hide Skip, Run;
      assert [] + c == c;
    } else {
      FirstField(a, c, ds);
      FieldsUpTo(After(a, ds), c, ds);
      hide Skip, Run;
    }
  }

  lemma FirstField(a: seq<Byte>, c: seq<Byte>, ds: seq<Byte>)
    requires c != [] && c[0] in ds && Skip(a, ds) != []
    ensures Fields(Skip(a, ds) + c, ds) == [Field(a, ds)] + Fields(After(a, ds) + c, ds)
  {
    SkipShrinks(a, ds);
    var t, w, r := Skip(a, ds), Field(a, ds), After(a, ds);
    assert t == w + r && w != [] && NoDelim(w, ds);
    assert r != [] ==> r[0] in ds;
    hide Skip, Run, Field, After;
    Regroup(w, r, c);
    assert r + c != [] && (r + c)[0] in ds;
    FieldIs(w, r + c, ds);
  }

  lemma Regroup(u: seq<Byte>, v: seq<Byte>, w: seq<Byte>)
    ensures u + v + w == u + (v + w)
  {}

  lemma LeadsGo(a: seq<Byte>, b: seq<Byte>, ds: seq<Byte>)
    ensures Fields(a + b, ds) == Fields(Skip(a, ds) + b, ds)
  {
    SkipSplits(a, ds);
    var t := Skip(a, ds);
    var lead := a[..|a| - |t|];
    assert a + b == lead + (t + b);
    SkipPrefix(lead, t + b, ds);
  }

  lemma {:induction false} SkipSplits(s: seq<Byte>, ds: seq<Byte>)
    ensures |Skip(s, ds)| <= |s| && s == s[..|s| - |Skip(s, ds)|] + Skip(s, ds)
    ensures AllDelims(s[..|s| - |Skip(s, ds)|], ds)
  {
    if s != [] && s[0] in ds {
      SkipSplits(s[1..], ds);
    }
  }

  /** No field is empty or holds a delimiter. */
  lemma {:induction false} FieldsAreRuns(s: seq<Byte>, ds: seq<Byte>, k: nat)
    requires k < |Fields(s, ds)|
    ensures Fields(s, ds)[k] != [] && NoDelim(Fields(s, ds)[k], ds)
    decreases |s|
  {
    SkipShrinks(s, ds);
    if k > 0 { FieldsAreRuns(After(s, ds), ds, k - 1); }
  }
}
