/** The limiter of connections per address: a ring of the last few times stands for the whole history
    (class IAddrValue and Listen::handle_connect, src/server/listen.cpp:55-89, 266, 309-333). */
module ConnLimit {

  /** Clock ticks; SEC of them are a second. */
  const SEC: nat := 1000000000

  datatype Verdict = Accepted | CutOff | TooManySec | TooManyMin

  function Max(a: nat, b: nat): nat { if a < b then b else a }

  /** maxconn_sec, maxconn_min and cutconn_min of the configuration. */
  datatype Settings = Settings(sec: nat, min: nat, cut: nat) {
    /** _maxconn_len */
    function Len(): nat { Max(Max(sec, min), cut) + 1 }
  }

  /** The settings that the server admits (src/server/server.cpp:88-93). */
  type Limits = l: Settings | 2 <= l.sec && 2 <= l.min && 2 <= l.cut witness Settings(2, 2, 2)

  // ----- what the limits mean on the full list of recorded times -----

  /** The n-th last recorded time lies less than span back. */
  predicate Crowded(times: seq<int>, n: nat, span: nat, now: int)
    requires 0 < n
  {
    n <= |times| && now < times[|times| - n] + span
  }

  /** Recorded times later than from. */
  function CountAfter(times: seq<int>, from: int): nat {
    if times == [] then 0
    else CountAfter(times[..|times| - 1], from) + if times[|times| - 1] > from then 1 else 0
  }

  /** Recorded times in the window [w, w + span). */
  function CountIn(times: seq<int>, w: int, span: nat): nat {
    if times == [] then 0
    else CountIn(times[..|times| - 1], w, span) + if w <= times[|times| - 1] < w + span then 1 else 0
  }

  predicate Ordered(times: seq<int>) { forall i, j | 0 <= i < j < |times| :: times[i] <= times[j] }

  /** The decision, read off the whole history. */
  function Judge(times: seq<int>, l: Limits, now: int): Verdict {
    if Crowded(times, l.cut, 60 * SEC, now) then CutOff
    else if Crowded(times, l.sec, SEC, now) then TooManySec
    else if Crowded(times, l.min, 60 * SEC, now) then TooManyMin
    else Accepted
  }

  /** Crowded means what it says: at least n recorded times lie less than span back. */
  lemma CrowdedCounts(times: seq<int>, n: nat, span: nat, now: int)
    requires 0 < n && Ordered(times)
    ensures Crowded(times, n, span, now) <==> CountAfter(times, now - span) >= n
  {
    LateSuffix(times, now - span);
    var c := CountAfter(times, now - span);
    if n <= |times| {
      assert now < times[|times| - n] + span <==> |times| - n >= |times| - c;
    }
  }

  /** In an ordered list the late times are the last ones. */
  lemma {:induction false} LateSuffix(times: seq<int>, from: int)
    requires Ordered(times)
    ensures CountAfter(times, from) <= |times|
    ensures forall i | 0 <= i < |times| :: times[i] > from <==> i >= |times| - CountAfter(times, from)
  {
    if times != [] {
      var r, x := times[..|times| - 1], times[|times| - 1];
      LateSuffix(r, from);
      if x <= from {
        forall i | 0 <= i < |r| ensures r[i] <= from { assert times[i] <= x; }
        if r != [] { assert r[|r| - 1] <= from; }
      }
    }
  }

  /** n + 1 recorded times are always at least span apart. */
  ghost predicate Spaced(times: seq<int>, n: nat, span: nat) {
    forall k | 0 <= k && k + n < |times| :: times[k + n] >= times[k] + span
  }

  lemma SpacedSnoc(times: seq<int>, n: nat, span: nat, now: int)
    requires 0 < n && Spaced(times, n, span) && !Crowded(times, n, span, now)
    ensures Spaced(times + [now], n, span)
  {}

  /** Spaced times put at most n into any window of that length, wherever it starts. */
  lemma {:induction false} WindowBound(times: seq<int>, n: nat, span: nat, w: int)
    requires 0 < n && Ordered(times) && Spaced(times, n, span)
    ensures CountIn(times, w, span) <= n
    ensures times != [] && times[|times| - 1] < w + span ==> CountIn(times, w, span) == CountAfter(times, w - 1)
  {
    if times != [] {
      var r, x := times[..|times| - 1], times[|times| - 1];
      WindowBound(r, n, span, w);
      if x < w + span {
        if r != [] { assert r[|r| - 1] <= x; }
        LateSuffix(times, w - 1);
        var k := |times| - 1 - n;
        if 0 <= k { assert times[k + n] >= times[k] + span; }
      }
    }
  }

  // ----- histories -----

  /** All three limits as enforced keep recorded times apart. */
  ghost predicate Limited(times: seq<int>, l: Limits) {
    Ordered(times) && Spaced(times, l.sec, SEC) && Spaced(times, l.min, 60 * SEC) && Spaced(times, l.cut, 60 * SEC)
  }

  /** What the table of an address records, while the clock does not go back. */
  ghost predicate IsHistory(times: seq<int>, l: Limits)
    decreases |times|
  {
    times == [] || (var r, now := times[..|times| - 1], times[|times| - 1];
                    IsHistory(r, l) && (r == [] || r[|r| - 1] <= now) && Judge(r, l, now) == Accepted)
  }

  lemma {:induction false} HistoriesAreLimited(times: seq<int>, l: Limits)
    requires IsHistory(times, l)
    ensures Limited(times, l)
    decreases |times|
  {
    if times != [] {
      var r, now := times[..|times| - 1], times[|times| - 1];
      HistoriesAreLimited(r, l);
      assert r + [now] == times;
      SpacedSnoc(r, l.sec, SEC, now);
      SpacedSnoc(r, l.min, 60 * SEC, now);
      SpacedSnoc(r, l.cut, 60 * SEC, now);
    }
  }

  /** In any one-second window at most maxconn_sec connections are recorded, and in any sixty-second window at most
      maxconn_min, and never more than cutconn_min. */
  lemma AnyWindow(times: seq<int>, l: Limits, w: int)
    requires IsHistory(times, l)
    ensures CountIn(times, w, SEC) <= l.sec
    ensures CountIn(times, w, 60 * SEC) <= l.min && CountIn(times, w, 60 * SEC) <= l.cut
  {
    HistoriesAreLimited(times, l);
    WindowBound(times, l.sec, SEC, w);
    WindowBound(times, l.min, 60 * SEC, w);
    WindowBound(times, l.cut, 60 * SEC, w);
  }

  // ----- the ring -----

  /** Place of the k-th time in a ring of n. */
  function Slot(k: nat, n: nat): (s: nat)
    requires 0 < n
    ensures s < n
  {
    k % n
  }

  lemma SmallMultiple(n: int, d: int)
    requires 0 < n && -n < n * d < n
    ensures d == 0
  {}

  lemma SlotSmall(k: nat, n: nat)
    requires k < n
    ensures Slot(k, n) == k
  {}

  lemma SlotsDiffer(a: nat, b: nat, n: nat)
    requires a < b < a + n
    ensures Slot(a, n) != Slot(b, n)
  {
    assert a == n * (a / n) + a % n && b == n * (b / n) + b % n;
    if Slot(a, n) == Slot(b, n) {
      assert b - a == n * (b / n - a / n);
      SmallMultiple(n, b / n - a / n);
    }
  }

  /** One address: the ring of recorded times; len counts them (the source counts in 32 bits). */
  class IAddrValue {
    const limits: Limits
    const ring: array<int>
    var len: nat
    /** All recorded times, and when the entry was set up. */
    ghost var times: seq<int>
    ghost const begun: int

    ghost predicate Valid()
      reads this, ring
    {
      && ring.Length == limits.Len() && len == |times| && Ordered(times)
      && (forall i | 0 <= i < |times| :: begun <= times[i])
      && (forall k | 0 <= k < |times| && |times| - ring.Length <= k :: ring[Slot(k, ring.Length)] == times[k])
      && forall k | |times| <= k < ring.Length :: ring[k] == begun - 3600 * SEC
    }

    /** reset */
    constructor (l: Limits, now: int)
      ensures Valid() && times == [] && limits == l && begun == now && fresh(ring)
    {
      limits := l;
      var r := new int[l.Len()];
      var k := 0;
      while k < r.Length
        invariant 0 <= k <= r.Length && fresh(r) && r.Length == l.Len()
            && forall i | 0 <= i < k :: r[i] == now - 3600 * SEC
      {
        r[k] := now - 3600 * SEC;
        k := k + 1;
      }
      ring, len, times, begun := r, 0, [], now;
    }

    /** The time that the test of limit n looks at decides like the whole history. */
    lemma Looks(n: nat, span: nat, now: int)
      requires Valid() && 0 < n < ring.Length && 0 < span <= 60 * SEC && begun <= now
      ensures n <= len && now < ring[Slot(len - n, ring.Length)] + span <==> Crowded(times, n, span, now)
    {}

    /** The tests of handle_connect, and the entry of the time. */
    method Connect(now: int) returns (v: Verdict)
      requires Valid() && begun <= now && (times == [] || times[|times| - 1] <= now)
      modifies this, ring
      ensures Valid() && v == Judge(old(times), limits, now)
      ensures times == if v == Accepted then old(times) + [now] else old(times)
      ensures old(IsHistory(times, limits)) ==> IsHistory(times, limits)
    {
      Looks(limits.cut, 60 * SEC, now);
      Looks(limits.sec, SEC, now);
      Looks(limits.min, 60 * SEC, now);
      hide Slot, Crowded, IsHistory, Ordered;
      if limits.cut <= len && now < ring[Slot(len - limits.cut, ring.Length)] + 60 * SEC { return CutOff; }
      if limits.sec <= len && now < ring[Slot(len - limits.sec, ring.Length)] + SEC { return TooManySec; }
      if limits.min <= len && now < ring[Slot(len - limits.min, ring.Length)] + 60 * SEC { return TooManyMin; }
      hide *;
      Enter(now);
      return Accepted;
    }

    method Enter(now: int)
      requires Valid() && begun <= now && (times == [] || times[|times| - 1] <= now)
      modifies this, ring
      ensures Valid() && times == old(times) + [now]
    {
      forall k: nat | k < len && len - ring.Length < k ensures Slot(k, ring.Length) != Slot(len, ring.Length) {
        SlotsDiffer(k, len, ring.Length);
      }
      if len < ring.Length { SlotSmall(len, ring.Length); }
      hide Slot;
      ring[Slot(len, ring.Length)] := now;
      len := len + 1;
      times := times + [now];
    }
  }
}
