/** What the invariants of the evaluation service give for all of its runs: own answers, each exactly once and in
    order, no thread stuck, and a bound on the work that is left. */
module NnetServiceRuns {
  import opened Pigeonhole
  import opened NnetService

  // ----- the job list and the threads' own assertions -----

  /** There is never more than one job a client, so the shared job list has room. */
  lemma JobsFit(s: State)
    requires Inv(s)
    ensures |s.jobs| <= |s.clients| <= MAXNUM_NIPC < JOB_SLOTS
  {
    TooMany(Line(s), |s.clients|);
    assert |JobIds(s.jobs)| <= |Line(s)|;
  }

  /** A thread that is not waiting can always take its next step: the service thread that was woken finds a job,
      and every client number it meets is a client's. */
  lemma ThreadsGoOn(s: State)
    requires Inv(s)
    ensures s.srv.Woken? ==> Enabled(s, SrvFetch)
    ensures s.srv.Holding? ==> Enabled(s, SrvServe)
    ensures s.waiter.Giving? ==> Enabled(s, WaiterGive) || Enabled(s, WaiterFinish)
  {
    hide Line, Placed, PushOk, WaitOk, NoLostWakeup, AnswersOk;
  }

  /** A client that gets through its semaphore finds one answer, computed from its own input. */
  lemma OwnAnswer(s: State, i: nat)
    requires Inv(s) && Enabled(s, Collect(i))
    ensures s.semIpc[i] == 1
    ensures s.clients[i].kind == FeedForward ==> s.out[i] == Answer(s.input[i])
  {}

  lemma InputKept(s: State, l: Label, i: nat)
    requires SizesOk(s) && Enabled(s, l) && i < |s.input| && !(l.Submit? && l.i == i)
    ensures i < |Next(s, l).input| && Next(s, l).input[i] == s.input[i]
  {}

  ghost predicate NoSubmit(ls: seq<Label>, i: nat) { forall k | 0 <= k < |ls| :: !(ls[k].Submit? && ls[k].i == i) }

  lemma {:induction false} InputKeptAlong(s: State, ls: seq<Label>, i: nat)
    requires Inv(s) && IsRun(s, ls) && i < |s.input| && NoSubmit(ls, i)
    ensures i < |After(s, ls).input| && After(s, ls).input[i] == s.input[i]
    decreases |ls|
  {
    if ls != [] {
      KeepInv(s, ls[0]);
      InputKept(s, ls[0], i);
      InputKeptAlong(Next(s, ls[0]), ls[1..], i);
    }
  }

  /** Whatever happens between a request and the moment its client goes on, the client then reads the evaluation
      of the input it sent. */
  lemma RequestAnswered(s: State, i: nat, x: Input, ls: seq<Label>)
    requires Inv(s) && Enabled(s, Submit(i, FeedForward, x)) && NoSubmit(ls, i)
    requires IsRun(Next(s, Submit(i, FeedForward, x)), ls)
    requires (var t := After(Next(s, Submit(i, FeedForward, x)), ls);
              Enabled(t, Collect(i))
              && t.clients[i].kind == FeedForward)
    ensures var t := After(Next(s, Submit(i, FeedForward, x)), ls); i < |t.out| && t.out[i] == Answer(x)
  {
    var s1 := Next(s, Submit(i, FeedForward, x));
    KeepInv(s, Submit(i, FeedForward, x));
    RunsKeepInv(s1, ls);
    InputKeptAlong(s1, ls, i);
    OwnAnswer(After(s1, ls), i);
  }

  // ----- each request is answered exactly once, in order -----

  /** The step raises client i's semaphore. */
  predicate Answers(s: State, l: Label, i: nat)
    requires Enabled(s, l)
  {
    (l.WaiterGive? && s.waiter.batch.ids[s.waiter.given] == i) || (l.SrvServe? && s.srv.job == Job(i, Register))
  }

  ghost function AnswerCount(s: State, ls: seq<Label>, i: nat): nat
    requires IsRun(s, ls)
    decreases |ls|
  {
    if ls == [] then 0 else (if Answers(s, ls[0], i) then 1 else 0) + AnswerCount(Next(s, ls[0]), ls[1..], i)
  }

  function SubmitCount(ls: seq<Label>, i: nat): nat {
    if ls == [] then 0 else (if ls[0].Submit? && ls[0].i == i then 1 else 0) + SubmitCount(ls[1..], i)
  }

  lemma LineCount(s: State, l: Label, i: nat)
    requires Placed(s) && Enabled(s, l)
    ensures (if i in Line(Next(s, l)) then 1 else 0) + (if Answers(s, l, i) then 1 else 0)
         == (if i in Line(s) then 1 else 0) + (if l.Submit? && l.i == i then 1 else 0)
  {
    LineStep(s, l);
    if l.Submit? {
      OnePlaceSubmit(Line(s), s.semIpc, s.clients, l.i, l.kind);
      SnocMembers(Line(s), l.i);
      hide Line, Next, OnePlace, Placed;
    } else if l.WaiterGive? {
      GiveCount(s, i);
    } else if l.SrvServe? && s.srv.job.kind == Register {
      RegisterCount(s, i);
    } else {
      hide Line, Next, OnePlace, Placed;
    }
  }

  lemma GiveCount(s: State, i: nat)
    requires Placed(s) && Enabled(s, WaiterGive)
    ensures (if i in Line(Next(s, WaiterGive)) then 1 else 0) + (if Answers(s, WaiterGive, i) then 1 else 0)
         == if i in Line(s) then 1 else 0
  {
    LineGive(s);
    var l, rest := Line(s), Line(Next(s, WaiterGive));
    hide Line, Next, OnePlace;
    TailMembers(l);
    assert l[1..] == rest;
  }

  lemma RegisterCount(s: State, i: nat)
    requires Placed(s) && Enabled(s, SrvServe) && s.srv.job.kind == Register
    ensures (if i in LineAfter(s, SrvServe) then 1 else 0) + (if Answers(s, SrvServe, i) then 1 else 0)
         == if i in Line(s) then 1 else 0
  {
    var p, f := Ungiven(s.waiter) + AllIds(s.wait) + Pushed(s.pusher) + AllIds(s.push), JobIds(s.jobs);
    assert Line(s) == p + [s.srv.job.id] + f && LineAfter(s, SrvServe) == p + f;
    hide Line, LineAfter, OnePlace;
    MiddleMembers(p, s.srv.job.id, f);
  }

  /** In every run, a client's requests and the answers to it differ by the one request it may have in the line. */
  lemma {:induction false} AnsweredOnce(s: State, ls: seq<Label>, i: nat)
    requires Inv(s) && IsRun(s, ls)
    ensures AnswerCount(s, ls, i) + (if i in Line(After(s, ls)) then 1 else 0)
         == SubmitCount(ls, i) + (if i in Line(s) then 1 else 0)
    decreases |ls|
  {
    if ls != [] {
      KeepInv(s, ls[0]);
      LineCount(s, ls[0], i);
      AnsweredOnce(Next(s, ls[0]), ls[1..], i);
      hide Line, Inv, Answers;
    }
  }

  /** No evaluation overtakes another: while i stands before j in the line, no step hands j its evaluation. */
  lemma NoOvertaking(s: State, a: nat, b: nat)
    requires Placed(s) && Enabled(s, WaiterGive) && a < b < |Line(s)|
    ensures !Answers(s, WaiterGive, Line(s)[b])
    ensures b - 1 < |Line(Next(s, WaiterGive))| && Line(Next(s, WaiterGive))[b - 1] == Line(s)[b]
  {
    assert Distinct(Line(s));
    var id := s.waiter.batch.ids[s.waiter.given];
    hide Line, Next, AllIds;
    LineGive(s);
    SecondNotFirst(Line(s), id, Line(Next(s, WaiterGive)), b);
  }

  lemma SecondNotFirst(l: seq<nat>, x: nat, rest: seq<nat>, b: nat)
    requires Distinct(l) && l == [x] + rest && 0 < b < |l|
    ensures l[b] != x && b - 1 < |rest| && rest[b - 1] == l[b]
  {
    assert l[0] == x;
  }

  // ----- no deadlock -----

  predicate Worker(l: Label) { !l.Submit? && !l.SpuriousPush? && !l.SpuriousWait? }

  lemma {:induction false} SomePosted(clients: seq<Client>) returns (i: nat)
    requires PostedCount(clients) > 0
    ensures i < |clients| && clients[i].Posted?
  {
    if clients[0].Posted? { return 0; }
    i := SomePosted(clients[1..]);
    i := i + 1;
  }

  /** The threads' steps are possible when their states call for them. */
  ghost predicate Going(s: State) {
    && NoLostWakeup(s) && (s.srv.Woken? ==> Enabled(s, SrvFetch)) && (s.srv.Holding? ==> Enabled(s, SrvServe))
    && (s.waiter.Giving? ==> Enabled(s, WaiterGive) || Enabled(s, WaiterFinish))
  }

  lemma WaiterNotStuck(s: State) returns (l: Label)
    requires Going(s) && (s.wait != [] || s.waiter.Giving?)
    ensures Worker(l) && Enabled(s, l)
  {
    if s.waiter.Giving? { if Enabled(s, WaiterGive) { return WaiterGive; } return WaiterFinish; }
    if s.waiter.WaitCheck? { return WaiterLook; }
    if s.waiter.WaitAnnounce? { return WaiterNotify; }
    l := PusherNotify;
  }

  /** A blocked pushing thread with batches to push: some other thread can go on. */
  lemma PusherNotStuck(s: State) returns (l: Label)
    requires Going(s) && s.push != [] && s.wait == [] && !s.waiter.Giving?
    ensures Worker(l) && Enabled(s, l)
  {
    if s.pusher.PushCheck? { return PusherLook; }
    if s.pusher.Pushing? { return PusherStart; }
    if s.pusher.PushAnnounce? { return PusherNotify; }
    assert PushReady(s);
    if s.srv.Announcing? { return SrvNotify; }
    l := WaiterNotify;
  }

  lemma SrvNotStuck(s: State) returns (l: Label)
    requires Going(s) && (s.srv.Holding? || s.jobs != []) && (s.srv.Listening? && s.jobs != [] ==> Enabled(s, SrvWake))
    ensures Worker(l) && Enabled(s, l)
  {
    if s.srv.Holding? { return SrvServe; }
    if s.srv.Announcing? { return SrvNotify; }
    if s.srv.Woken? { return SrvFetch; }
    l := SrvWake;
  }

  /** While some client waits, some thread or client can take a step that is not a new request. */
  lemma Progress(s: State, i: nat) returns (l: Label)
    requires Inv(s) && i < |s.clients| && !s.clients[i].Idle?
    ensures Worker(l) && Enabled(s, l)
  {
    if PostedCount(s.clients) > 0 { var j := SomePosted(s.clients); return Raise(j); }
    if !s.clients[i].Waiting? { NotPosted(s.clients, i); }
    if s.semIpc[i] > 0 { return Collect(i); }
    assert i in Line(s);
    l := ThreadStep(s);
  }

  /** While the line is not empty and no client is about to raise the semaphore, some thread can go on. */
  lemma ThreadStep(s: State) returns (l: Label)
    requires Inv(s) && Line(s) != [] && PostedCount(s.clients) == 0
    ensures Worker(l) && Enabled(s, l)
  {
    ThreadsGoOn(s);
    assert Going(s);
    assert s.srv.Listening? && s.jobs != [] ==> Enabled(s, SrvWake);
    hide Line, Going, Enabled, AllIds, PushOk, WaitOk, WorkersOk, JobsOk, AnswersOk, Placed, NoLostWakeup;
    if s.waiter.Giving? || s.wait != [] { l := WaiterNotStuck(s); return; }
    if s.pusher.Pushing? { return PusherStart; }
    if s.push != [] { l := PusherNotStuck(s); return; }
    l := SrvNotStuck(s);
  }

  lemma {:induction false} NotPosted(clients: seq<Client>, i: nat)
    requires PostedCount(clients) == 0 && i < |clients|
    ensures !clients[i].Posted?
  {
    if i > 0 { NotPosted(clients[1..], i - 1); }
  }

  // ----- how much work is left -----

  function SumOf(l: seq<nat>): nat { if l == [] then 0 else l[0] + SumOf(l[1..]) }

  lemma {:induction false} SumChange(l: seq<nat>, i: nat, x: nat)
    requires i < |l|
    ensures SumOf(l[i := x]) + l[i] == SumOf(l) + x
  {
    if i == 0 {
      assert l[0 := x][1..] == l[1..];
    } else {
      SumChange(l[1..], i - 1, x);
      assert l[i := x][1..] == l[1..][i - 1 := x];
    }
  }

  function SrvRank(v: Srv): nat { if v.Holding? then 13 else if v.Announcing? then 2 else 0 }
  function PusherRank(p: Pusher): nat {
    match p
    case PushCheck => 1
    case PushBlocked => 0
    case Pushing(b) => 10 * |b.ids|
    case PushAnnounce => 3
  }
  function WaiterRank(w: Waiter): nat {
    match w
    case WaitCheck => 1
    case WaitBlocked => 0
    case Giving(b, given) => if given <= |b.ids| then 4 + 2 * (|b.ids| - given) else 0
    case WaitAnnounce => 3
  }

  /** The steps left before everybody is idle and every thread has gone to sleep, at most. */
  function Rank(s: State): nat {
    2 * PostedCount(s.clients) + s.sem + 14 * |s.jobs| + SrvRank(s.srv) + 10 * |AllIds(s.push)| + PusherRank(s.pusher)
    + 6 * |AllIds(s.wait)| + WaiterRank(s.waiter) + SumOf(s.semIpc)
  }

  /** What a step may add to the rank. */
  function Fuel(l: Label): nat { if l.Submit? then 17 else if l.SpuriousPush? || l.SpuriousWait? then 2 else 0 }

  lemma RankClient(s: State, l: Label)
    requires Enabled(s, l) && (l.Submit? || l.Raise? || l.Collect?)
    ensures Rank(Next(s, l)) + 1 <= Rank(s) + Fuel(l)
  {
    if l.Submit? { PostedChange(s.clients, l.i, Posted(l.kind)); }
    else if l.Raise? { PostedChange(s.clients, l.i, Waiting(s.clients[l.i].kind)); }
    else { PostedChange(s.clients, l.i, Idle); SumChange(s.semIpc, l.i, s.semIpc[l.i] - 1); }
    hide PostedCount, SumOf, AllIds;
  }

  lemma RankSrv(s: State, l: Label)
    requires Enabled(s, l) && (l.SrvWake? || l.SrvFetch? || l.SrvServe? || l.SrvNotify?)
    ensures Rank(Next(s, l)) + 1 <= Rank(s) + Fuel(l)
  {
    if l.SrvServe? {
      var id := s.srv.job.id;
      if s.srv.job.kind == FeedForward { EnqueueLine(s); } else { SumChange(s.semIpc, id, s.semIpc[id] + 1); }
    }
    hide PostedCount, SumOf, AllIds;
  }

  lemma RankPusher(s: State, l: Label)
    requires BatchesOk(s) && Enabled(s, l) && (l.PusherLook? || l.PusherStart? || l.PusherNotify? || l.SpuriousPush?)
    ensures Rank(Next(s, l)) + 1 <= Rank(s) + Fuel(l)
  {
    if l.PusherStart? { AllIdsSnoc(s.wait, Evaluated(s.pusher.batch)); assert |s.pusher.batch.ids| > 0; }
    hide PostedCount, SumOf, BatchesOk, Evaluated;
  }

  lemma RankWaiter(s: State, l: Label)
    requires BatchesOk(s) && Enabled(s, l)
    requires l.WaiterLook? || l.WaiterGive? || l.WaiterFinish? || l.WaiterNotify? || l.SpuriousWait?
    ensures Rank(Next(s, l)) + 1 <= Rank(s) + Fuel(l)
  {
    if l.WaiterLook? && s.wait != [] { assert FilledOk(s.clients, s.input, s.size, s.wait[0]); }
    if l.WaiterGive? {
      var id := s.waiter.batch.ids[s.waiter.given];
      SumChange(s.semIpc, id, s.semIpc[id] + 1);
    }
    hide PostedCount, SumOf, BatchesOk;
  }

  /** Every step but a new request or a spurious wake-up uses up some of the work left. */
  lemma RankFalls(s: State, l: Label)
    requires Inv(s) && Enabled(s, l)
    ensures Rank(Next(s, l)) + 1 <= Rank(s) + Fuel(l)
  {
    assert BatchesOk(s);
    if l.Submit? || l.Raise? || l.Collect? { RankClient(s, l); }
    else if l.SrvWake? || l.SrvFetch? || l.SrvServe? || l.SrvNotify? { RankSrv(s, l); }
    else if l.PusherLook? || l.PusherStart? || l.PusherNotify? || l.SpuriousPush? { RankPusher(s, l); }
    else { RankWaiter(s, l); }
    hide Rank, Next, BatchesOk;
  }

  function FuelOf(ls: seq<Label>): nat { if ls == [] then 0 else Fuel(ls[0]) + FuelOf(ls[1..]) }

  /** Every run is bounded by the work there was and what new requests and spurious wake-ups brought. */
  lemma {:induction false} RunsEnd(s: State, ls: seq<Label>)
    requires Inv(s) && IsRun(s, ls)
    ensures |ls| + Rank(After(s, ls)) <= Rank(s) + FuelOf(ls)
    decreases |ls|
  {
    if ls != [] {
      KeepInv(s, ls[0]);
      RankFalls(s, ls[0]);
      RunsEnd(Next(s, ls[0]), ls[1..]);
      hide Rank, Inv, Next, Fuel;
    }
  }

  function Requests(ls: seq<Label>): nat {
    if ls == [] then 0 else (if ls[0].Submit? then 1 else 0) + Requests(ls[1..])
  }

  function Spurious(ls: seq<Label>): nat {
    if ls == [] then 0 else (if ls[0].SpuriousPush? || ls[0].SpuriousWait? then 1 else 0) + Spurious(ls[1..])
  }

  lemma {:induction false} FuelIs(ls: seq<Label>)
    ensures FuelOf(ls) == 17 * Requests(ls) + 2 * Spurious(ls)
  {
    if ls != [] { FuelIs(ls[1..]); }
  }

  /** However the steps interleave, a run takes at most Rank(s) steps, 17 for every new request in it and two for every
      spurious wake-up; and where it can only go on with one of these, every client has collected its answer. */
  lemma Drains(s: State, ls: seq<Label>)
    requires Inv(s) && IsRun(s, ls)
    ensures |ls| <= Rank(s) + 17 * Requests(ls) + 2 * Spurious(ls)
    ensures (forall l | Worker(l) :: !Enabled(After(s, ls), l))
        ==> forall i | 0 <= i < |After(s, ls).clients| :: After(s, ls).clients[i] == Idle
  {
    FuelIs(ls);
    RunsEnd(s, ls);
    RunsKeepInv(s, ls);
    var t := After(s, ls);
    if forall l | Worker(l) :: !Enabled(t, l) {
      forall i | 0 <= i < |t.clients| ensures t.clients[i] == Idle {
        if t.clients[i] != Idle { var l := Progress(t, i); }
      }
    }
  }
}
