/** The neural-net evaluation service: clients post requests to a shared job list; a service thread batches them,
    a second thread starts the evaluation of a batch and a third one hands out the results
    (src/common/nnet-srv.cpp:44-262, src/common/nnet-ipc.cpp:33-104).

    Every critical section and every semaphore or notify call is one atomic step; the steps of all threads may
    interleave in any order. */
module NnetService {
  import opened Pigeonhole

  /** The features of one position, and what the net makes of them. */
  type Input = int
  datatype Answer = Answer(of: Input)

  datatype Kind = Register | FeedForward
  datatype Job = Job(id: nat, kind: Kind)

  /** class Entry: rows in order of arrival, and after push_ff one answer a row. */
  datatype Batch = Batch(ids: seq<nat>, inputs: seq<Input>, answers: seq<Answer>)

  /** What a client has done of start or submit_block_child: appended its job, then also raised the service
      semaphore and waits for its own. */
  datatype Client = Idle | Posted(kind: Kind) | Waiting(kind: Kind)

  datatype Srv = Listening | Woken | Holding(job: Job) | Announcing
  datatype Pusher = PushCheck | PushBlocked | Pushing(batch: Batch) | PushAnnounce
  datatype Waiter = WaitCheck | WaitBlocked | Giving(batch: Batch, given: nat) | WaitAnnounce

  /** clients, input, out, semIpc: one cell a client; size: rows of a full batch; free: entries in the pool. */
  datatype State = State(
    size: nat, clients: seq<Client>, input: seq<Input>, out: seq<Answer>, semIpc: seq<nat>,
    jobs: seq<Job>, sem: nat, srv: Srv,
    push: seq<Batch>, pusher: Pusher, wait: seq<Batch>, waiter: Waiter, free: nat)

  const MAXNUM_NIPC: nat := 256
  const JOB_SLOTS: nat := 272

  datatype Label =
    | Submit(i: nat, kind: Kind, x: Input) | Raise(i: nat) | Collect(i: nat)
    | SrvWake | SrvFetch | SrvServe | SrvNotify
    | PusherLook | PusherStart | PusherNotify
    | WaiterLook | WaiterGive | WaiterFinish | WaiterNotify
    | SpuriousPush | SpuriousWait

  // ----- the condition the pushing thread waits for -----

  predicate IsFull(s: State, b: Batch) { |b.ids| == s.size }

  predicate PushReady(s: State) {
    s.push != [] && |s.wait| <= 16 && (s.wait == [] || IsFull(s, s.push[0]))
  }

  // ----- steps -----

  predicate Enabled(s: State, l: Label) {
    match l
    case Submit(i, _, _) => i < |s.clients| && i < |s.input| && s.clients[i].Idle?
    case Raise(i) => i < |s.clients| && s.clients[i].Posted?
    case Collect(i) => i < |s.clients| && i < |s.semIpc| && s.clients[i].Waiting? && s.semIpc[i] > 0
    case SrvWake => s.srv.Listening? && s.sem > 0
    case SrvFetch => s.srv.Woken? && s.jobs != []
    case SrvServe => s.srv.Holding? && s.srv.job.id < |s.semIpc| && s.srv.job.id < |s.input|
    case SrvNotify => s.srv.Announcing?
    case PusherLook => s.pusher.PushCheck?
    case PusherStart => s.pusher.Pushing?
    case PusherNotify => s.pusher.PushAnnounce?
    case WaiterLook => s.waiter.WaitCheck?
    case WaiterGive =>
      s.waiter.Giving? && s.waiter.given < |s.waiter.batch.ids| && s.waiter.given < |s.waiter.batch.answers|
      && s.waiter.batch.ids[s.waiter.given] < |s.semIpc| && s.waiter.batch.ids[s.waiter.given] < |s.out|
    case WaiterFinish => s.waiter.Giving? && s.waiter.given >= |s.waiter.batch.ids|
    case WaiterNotify => s.waiter.WaitAnnounce?
    case SpuriousPush => s.pusher.PushBlocked?
    case SpuriousWait => s.waiter.WaitBlocked?
  }

  /** notify_one on _cv_entries_push and _cv_entries_wait: without a blocked thread the call is lost. */
  function WakePusher(p: Pusher): Pusher { if p.PushBlocked? then PushCheck else p }
  function WakeWaiter(w: Waiter): Waiter { if w.WaitBlocked? then WaitCheck else w }

  /** Entry::add */
  function AddRow(b: Batch, id: nat, x: Input): Batch { Batch(b.ids + [id], b.inputs + [x], b.answers) }

  /** Entry::push_ff: the net evaluates every row. */
  function Evaluated(b: Batch): Batch
  {
    b.(answers := seq(|b.inputs|, u requires 0 <= u < |b.inputs| => Answer(b.inputs[u])))
  }

  const EMPTY: Batch := Batch([], [], [])

  /** The locked section of worker_srv for a feed-forward job. */
  function Enqueue(s: State, id: nat): State
    requires id < |s.input|
  {
    var opens := s.push == [] || IsFull(s, s.push[|s.push| - 1]);
    var q := if opens then s.push + [EMPTY] else s.push;
    var r := q[|q| - 1 := AddRow(q[|q| - 1], id, s.input[id])];
    var tell := s.push == [] || (|r| == 1 && IsFull(s, r[0]));
    s.(push := r, free := if opens && s.free > 0 then s.free - 1 else s.free,
       srv := if tell then Announcing else Listening)
  }

  function Next(s: State, l: Label): State
    requires Enabled(s, l)
  {
    match l
    case Submit(i, kind, x) =>
      s.(clients := s.clients[i := Posted(kind)], input := s.input[i := x],
         jobs := s.jobs + [Job(i, kind)])
    case Raise(i) => s.(clients := s.clients[i := Waiting(s.clients[i].kind)], sem := s.sem + 1)
    case Collect(i) => s.(clients := s.clients[i := Idle], semIpc := s.semIpc[i := s.semIpc[i] - 1])
    case SrvWake => s.(srv := Woken, sem := s.sem - 1)
    case SrvFetch => s.(srv := Holding(s.jobs[0]), jobs := s.jobs[1..])
    case SrvServe =>
      var j := s.srv.job;
      if j.kind == Register then s.(srv := Listening, semIpc := s.semIpc[j.id := s.semIpc[j.id] + 1])
      else Enqueue(s, j.id)
    case SrvNotify => s.(srv := Listening, pusher := WakePusher(s.pusher))
    case PusherLook =>
      if PushReady(s) then s.(pusher := Pushing(s.push[0]), push := s.push[1..]) else s.(pusher := PushBlocked)
    case PusherStart => s.(pusher := PushAnnounce, wait := s.wait + [Evaluated(s.pusher.batch)])
    case PusherNotify => s.(pusher := PushCheck, waiter := WakeWaiter(s.waiter))
    case WaiterLook =>
      if s.wait != [] then s.(waiter := Giving(s.wait[0], 0), wait := s.wait[1..]) else s.(waiter := WaitBlocked)
    case WaiterGive =>
      var b, u := s.waiter.batch, s.waiter.given;
      s.(out := s.out[b.ids[u] := b.answers[u]], semIpc := s.semIpc[b.ids[u] := s.semIpc[b.ids[u]] + 1],
         waiter := Giving(b, u + 1))
    case WaiterFinish => s.(waiter := WaitAnnounce, free := s.free + 1)
    case WaiterNotify => s.(waiter := WaitCheck, pusher := WakePusher(s.pusher))
    case SpuriousPush => s.(pusher := PushCheck)
    case SpuriousWait => s.(waiter := WaitCheck)
  }

  ghost predicate IsStart(s: State) {
    && 0 < |s.clients| <= MAXNUM_NIPC && |s.input| == |s.out| == |s.semIpc| == |s.clients| && 0 < s.size
    && (forall i | 0 <= i < |s.clients| :: s.clients[i] == Idle && s.semIpc[i] == 0)
    && s.jobs == [] && s.sem == 0 && s.srv == Listening && s.push == [] && s.pusher == PushCheck
    && s.wait == [] && s.waiter == WaitCheck && s.free == 0
  }

  // ----- where the unanswered requests are -----

  function AllIds(bs: seq<Batch>): seq<nat> { if bs == [] then [] else bs[0].ids + AllIds(bs[1..]) }
  function JobIds(jobs: seq<Job>): (l: seq<nat>)
    ensures |l| == |jobs|
  {
    seq(|jobs|, u requires 0 <= u < |jobs| => jobs[u].id)
  }

  function Ungiven(w: Waiter): seq<nat> { if w.Giving? && w.given <= |w.batch.ids| then w.batch.ids[w.given..] else [] }
  function Pushed(p: Pusher): seq<nat> { if p.Pushing? then p.batch.ids else [] }
  function Held(v: Srv): seq<nat> { if v.Holding? then [v.job.id] else [] }

  /** The requests that are not answered yet, in the order in which the threads will get to them. */
  function Line(s: State): seq<nat> {
    Ungiven(s.waiter) + AllIds(s.wait) + Pushed(s.pusher) + AllIds(s.push) + Held(s.srv) + JobIds(s.jobs)
  }

  lemma {:induction false} AllIdsSnoc(bs: seq<Batch>, b: Batch)
    ensures AllIds(bs + [b]) == AllIds(bs) + b.ids
  {
    if bs == [] {
      assert [] + [b] == [b] && [b][1..] == [];
    } else {
      AllIdsSnoc(bs[1..], b);
      assert (bs + [b])[1..] == bs[1..] + [b];
    }
  }

  lemma AllIdsRow(bs: seq<Batch>, id: nat, x: Input)
    requires bs != []
    ensures AllIds(bs[|bs| - 1 := AddRow(bs[|bs| - 1], id, x)]) == AllIds(bs) + [id]
  {
    var n := |bs| - 1;
    var c := AddRow(bs[n], id, x);
    assert bs == bs[..n] + [bs[n]] && bs[n := c] == bs[..n] + [c];
    AllIdsSnoc(bs[..n], bs[n]);
    AllIdsSnoc(bs[..n], c);
  }

  lemma JobIdsSnoc(jobs: seq<Job>, j: Job)
    ensures JobIds(jobs + [j]) == JobIds(jobs) + [j.id]
  {}

  lemma JobIdsPop(jobs: seq<Job>)
    requires jobs != []
    ensures JobIds(jobs) == [jobs[0].id] + JobIds(jobs[1..])
  {}

  /** The line as its six parts. */
  function Six(a: seq<nat>, b: seq<nat>, c: seq<nat>, d: seq<nat>, e: seq<nat>, f: seq<nat>): seq<nat>
  {
    a + b + c + d + e + f
  }

  lemma SixMoves(a: seq<nat>, b: seq<nat>, c: seq<nat>, d: seq<nat>, e: seq<nat>, f: seq<nat>, x: seq<nat>)
    ensures Six(x + a, b, c, d, e, f) == x + Six(a, b, c, d, e, f)
    ensures Six(a, b, c, d, e, f + x) == Six(a, b, c, d, e, f) + x
    ensures a == [] ==> Six(a, x + b, c, d, e, f) == Six(x, b, c, d, e, f)
    ensures c == [] ==> Six(a, b, c, x + d, e, f) == Six(a, b, x, d, e, f)
    ensures c == [] ==> Six(a, b + x, c, d, e, f) == Six(a, b, x, d, e, f)
    ensures e == [] ==> Six(a, b, c, d, e, x + f) == Six(a, b, c, d, x, f)
    ensures e == [] ==> Six(a, b, c, d + x, e, f) == Six(a, b, c, d, x, f)
  {}

  /** The answer step takes the first of the line, a served registration leaves from its middle, a new request
      joins at the end; no other step changes the line. */
  function LineAfter(s: State, l: Label): seq<nat>
    requires Enabled(s, l)
  {
    if l.Submit? then Line(s) + [l.i]
    else if l.WaiterGive? then if Line(s) == [] then [] else Line(s)[1..]
    else if l.SrvServe? && s.srv.job.kind == Register then
      Six(Ungiven(s.waiter), AllIds(s.wait), Pushed(s.pusher), AllIds(s.push), [], JobIds(s.jobs))
    else Line(s)
  }

  lemma LineClient(s: State, l: Label)
    requires Enabled(s, l) && (l.Submit? || l.Raise? || l.Collect?)
    ensures Line(Next(s, l)) == LineAfter(s, l)
  {
    if l.Submit? {
      JobIdsSnoc(s.jobs, Job(l.i, l.kind));
      SixMoves(Ungiven(s.waiter), AllIds(s.wait), Pushed(s.pusher), AllIds(s.push), Held(s.srv), JobIds(s.jobs), [l.i]);
    }
  }

  lemma LineSrv(s: State, l: Label)
    requires Enabled(s, l) && (l.SrvWake? || l.SrvFetch? || l.SrvServe? || l.SrvNotify?)
    ensures Line(Next(s, l)) == LineAfter(s, l)
  {
    var a, b, c, d, e, f := Ungiven(s.waiter), AllIds(s.wait), Pushed(s.pusher), AllIds(s.push), Held(s.srv),
        JobIds(s.jobs);
    if l.SrvFetch? {
      JobIdsPop(s.jobs);
      SixMoves(a, b, c, d, [], JobIds(s.jobs[1..]), [s.jobs[0].id]);
    } else if l.SrvServe? && s.srv.job.kind == FeedForward {
      EnqueueLine(s);
      SixMoves(a, b, c, d, [], f, e);
    }
  }

  lemma LinePusher(s: State, l: Label)
    requires Enabled(s, l) && (l.PusherLook? || l.PusherStart? || l.PusherNotify? || l.SpuriousPush?)
    ensures Line(Next(s, l)) == LineAfter(s, l)
  {
    var a, b, c, d, e, f := Ungiven(s.waiter), AllIds(s.wait), Pushed(s.pusher), AllIds(s.push), Held(s.srv),
        JobIds(s.jobs);
    if l.PusherLook? && PushReady(s) {
      SixMoves(a, b, [], AllIds(s.push[1..]), e, f, s.push[0].ids);
    } else if l.PusherStart? {
      AllIdsSnoc(s.wait, Evaluated(s.pusher.batch));
      SixMoves(a, b, [], d, e, f, c);
    }
  }

  lemma LineGive(s: State)
    requires Enabled(s, WaiterGive)
    ensures Line(s) == [s.waiter.batch.ids[s.waiter.given]] + Line(Next(s, WaiterGive))
  {
    var ids, u := s.waiter.batch.ids, s.waiter.given;
    assert ids[u..] == [ids[u]] + ids[u + 1..];
    SixMoves(ids[u + 1..], AllIds(s.wait), Pushed(s.pusher), AllIds(s.push), Held(s.srv), JobIds(s.jobs), [ids[u]]);
    hide AllIds, JobIds;
  }

  lemma LineWaiter(s: State, l: Label)
    requires Enabled(s, l) && (l.WaiterLook? || l.WaiterGive? || l.WaiterFinish? || l.WaiterNotify? || l.SpuriousWait?)
    ensures Line(Next(s, l)) == LineAfter(s, l)
  {
    if l.WaiterLook? && s.wait != [] {
      assert s.wait[0].ids[0..] == s.wait[0].ids;
      SixMoves([], AllIds(s.wait[1..]), Pushed(s.pusher), AllIds(s.push), Held(s.srv), JobIds(s.jobs), s.wait[0].ids);
    } else if l.WaiterGive? {
      LineGive(s);
    } else if l.WaiterFinish? {
      assert Ungiven(s.waiter) == [];
    }
  }

  lemma LineStep(s: State, l: Label)
    requires Enabled(s, l)
    ensures Line(Next(s, l)) == LineAfter(s, l)
  {
    if l.Submit? || l.Raise? || l.Collect? { LineClient(s, l); }
    else if l.SrvWake? || l.SrvFetch? || l.SrvServe? || l.SrvNotify? { LineSrv(s, l); }
    else if l.PusherLook? || l.PusherStart? || l.PusherNotify? || l.SpuriousPush? { LinePusher(s, l); }
    else { LineWaiter(s, l); }
    hide Line, LineAfter, Next;
  }

  lemma EnqueueLine(s: State)
    requires Enabled(s, SrvServe) && s.srv.job.kind == FeedForward
    ensures AllIds(Next(s, SrvServe).push) == AllIds(s.push) + [s.srv.job.id] && Held(Next(s, SrvServe).srv) == []
  {
    var opens := s.push == [] || IsFull(s, s.push[|s.push| - 1]);
    var q := if opens then s.push + [EMPTY] else s.push;
    if opens { AllIdsSnoc(s.push, EMPTY); }
    AllIdsRow(q, s.srv.job.id, s.input[s.srv.job.id]);
  }

  // ----- invariants -----

  ghost predicate SizesOk(s: State) {
    0 < |s.clients| <= MAXNUM_NIPC && |s.input| == |s.out| == |s.semIpc| == |s.clients| && 0 < s.size
  }

  /** Every client that is not idle has its request in the line exactly once or an answer waiting, never both. */
  ghost predicate OnePlace(line: seq<nat>, semIpc: seq<nat>, clients: seq<Client>) {
    && |semIpc| == |clients| && Distinct(line) && InRange(line, |clients|)
    && forall i | 0 <= i < |clients| ::
         (i in line ==> clients[i] != Idle && semIpc[i] == 0)
         && (i !in line ==> semIpc[i] == if clients[i] == Idle then 0 else 1)
  }

  predicate Asked(c: Client, kind: Kind) { !c.Idle? && c.kind == kind }

  /** From row u0 on, the rows hold the inputs of clients that asked for an evaluation. */
  ghost predicate RowsOk(clients: seq<Client>, input: seq<Input>, b: Batch, u0: nat) {
    && |b.ids| == |b.inputs| && |input| == |clients|
    && (forall u | u0 <= u < |b.ids| ::
        b.ids[u] < |clients| && Asked(clients[b.ids[u]], FeedForward)
        && b.inputs[u] == input[b.ids[u]])
  }

  ghost predicate FilledOk(clients: seq<Client>, input: seq<Input>, size: nat, b: Batch) {
    RowsOk(clients, input, b, 0) && 0 < |b.ids| <= size
  }

  ghost predicate AnsweredOk(b: Batch) {
    |b.answers| == |b.inputs| && forall u | 0 <= u < |b.inputs| :: b.answers[u] == Answer(b.inputs[u])
  }

  ghost predicate AllFilled(clients: seq<Client>, input: seq<Input>, size: nat, bs: seq<Batch>) {
    forall k | 0 <= k < |bs| :: FilledOk(clients, input, size, bs[k])
  }

  ghost predicate PushOk(s: State) {
    AllFilled(s.clients, s.input, s.size, s.push) && forall k | 0 <= k < |s.push| - 1 :: IsFull(s, s.push[k])
  }

  ghost predicate WaitOk(s: State) {
    AllFilled(s.clients, s.input, s.size, s.wait) && forall k | 0 <= k < |s.wait| :: AnsweredOk(s.wait[k])
  }

  ghost predicate WorkersOk(s: State) {
    && (s.pusher.Pushing? ==> FilledOk(s.clients, s.input, s.size, s.pusher.batch))
    && (s.waiter.Giving? ==> RowsOk(s.clients, s.input, s.waiter.batch, s.waiter.given) && AnsweredOk(s.waiter.batch)
                             && s.waiter.given <= |s.waiter.batch.ids|)
  }

  ghost predicate JobsOk(s: State) {
    && (forall u | 0 <= u < |s.jobs| :: s.jobs[u].id < |s.clients| && Asked(s.clients[s.jobs[u].id], s.jobs[u].kind))
    && (s.srv.Holding? ==> s.srv.job.id < |s.clients| && Asked(s.clients[s.srv.job.id], s.srv.job.kind))
  }

  /** An answer that waits for its client was computed from that client's own input. */
  ghost predicate AnswersOk(s: State) {
    && SizesOk(s)
    && forall i | 0 <= i < |s.clients| ::
         s.semIpc[i] > 0 && Asked(s.clients[i], FeedForward) ==> s.out[i] == Answer(s.input[i])
  }

  function PostedCount(clients: seq<Client>): nat {
    if clients == [] then 0 else (if clients[0].Posted? then 1 else 0) + PostedCount(clients[1..])
  }

  /** The service semaphore counts the jobs whose clients have raised it and that nobody has woken up for. */
  ghost predicate SemOk(s: State) { |s.jobs| == s.sem + PostedCount(s.clients) + if s.srv.Woken? then 1 else 0 }

  /** A blocked thread has nothing to do, or a notify for it is still to come. */
  ghost predicate NoLostWakeup(s: State) {
    && (s.pusher.PushBlocked? && PushReady(s) ==> s.srv.Announcing? || s.waiter.Giving? || s.waiter.WaitAnnounce?)
    && (s.waiter.WaitBlocked? && s.wait != [] ==> s.pusher.PushAnnounce?)
  }

  ghost predicate Inv(s: State) {
    && SizesOk(s) && Placed(s) && PushOk(s) && WaitOk(s) && WorkersOk(s) && JobsOk(s)
    && AnswersOk(s) && SemOk(s) && NoLostWakeup(s)
  }

  // ----- each invariant is kept -----

  lemma TailMembers(l: seq<nat>)
    requires l != [] && Distinct(l)
    ensures Distinct(l[1..]) && l[0] !in l[1..] && forall i :: i in l <==> i == l[0] || i in l[1..]
  {
    assert l == [l[0]] + l[1..];
  }

  lemma SnocMembers(l: seq<nat>, i: nat)
    requires Distinct(l) && i !in l
    ensures Distinct(l + [i]) && forall j :: j in l + [i] <==> j in l || j == i
  {
    assert forall a | 0 <= a < |l| :: l[a] in l;
  }

  lemma OnePlaceSubmit(line: seq<nat>, semIpc: seq<nat>, clients: seq<Client>, i: nat, kind: Kind)
    requires OnePlace(line, semIpc, clients) && i < |clients| && clients[i].Idle?
    ensures i !in line && semIpc[i] == 0 && OnePlace(line + [i], semIpc, clients[i := Posted(kind)])
  {
    assert i !in line;
    SnocMembers(line, i);
  }

  /** An entry leaves the line for its own semaphore. */
  lemma OnePlaceAnswer(line: seq<nat>, rest: seq<nat>, semIpc: seq<nat>, clients: seq<Client>, i: nat)
    requires OnePlace(line, semIpc, clients) && Distinct(rest) && i in line && i !in rest
    requires forall j :: j in line <==> j == i || j in rest
    ensures i < |clients| && OnePlace(rest, semIpc[i := semIpc[i] + 1], clients)
  {
    var a :| 0 <= a < |line| && line[a] == i;
    forall b | 0 <= b < |rest| ensures rest[b] < |clients| {
      assert rest[b] in line;
      var c :| 0 <= c < |line| && line[c] == rest[b];
    }
  }

  lemma OnePlaceCollect(line: seq<nat>, semIpc: seq<nat>, clients: seq<Client>, i: nat)
    requires OnePlace(line, semIpc, clients) && i < |clients| && semIpc[i] > 0
    ensures i !in line && OnePlace(line, semIpc[i := semIpc[i] - 1], clients[i := Idle])
  {
    assert i !in line;
  }

  /** Taking one element out of the middle of a list of different numbers. */
  lemma MiddleMembers(a: seq<nat>, i: nat, b: seq<nat>)
    requires Distinct(a + [i] + b)
    ensures Distinct(a + b) && i !in a + b && forall j :: j in a + [i] + b <==> j == i || j in a + b
  {
    var l, m := a + [i] + b, a + b;
    forall x, y | 0 <= x < y < |m| ensures m[x] != m[y] {
      var x', y' := if x < |a| then x else x + 1, if y < |a| then y else y + 1;
      assert m[x] == l[x'] && m[y] == l[y'];
    }
    assert l[|a|] == i;
    forall x | 0 <= x < |m| ensures m[x] != i { assert m[x] == l[if x < |a| then x else x + 1]; }
  }

  ghost predicate Placed(s: State) { OnePlace(Line(s), s.semIpc, s.clients) }

  lemma PlacedGive(s: State)
    requires Placed(s) && Enabled(s, WaiterGive)
    ensures OnePlace(LineAfter(s, WaiterGive), Next(s, WaiterGive).semIpc, Next(s, WaiterGive).clients)
  {
    LineGive(s);
    TailMembers(Line(s));
    OnePlaceAnswer(Line(s), Line(s)[1..], s.semIpc, s.clients, Line(s)[0]);
    hide Line, OnePlace;
  }

  lemma PlacedRegister(s: State)
    requires Placed(s) && Enabled(s, SrvServe) && s.srv.job.kind == Register
    ensures OnePlace(LineAfter(s, SrvServe), Next(s, SrvServe).semIpc, Next(s, SrvServe).clients)
  {
    var p, f := Ungiven(s.waiter) + AllIds(s.wait) + Pushed(s.pusher) + AllIds(s.push), JobIds(s.jobs);
    var i := s.srv.job.id;
    assert Line(s) == p + [i] + f;
    assert LineAfter(s, SrvServe) == p + f;
    MiddleMembers(p, i, f);
    OnePlaceAnswer(p + [i] + f, p + f, s.semIpc, s.clients, i);
    hide Line, OnePlace, LineAfter;
  }

  lemma KeepPlaced(s: State, l: Label)
    requires Placed(s) && Enabled(s, l)
    ensures Placed(Next(s, l))
  {
    LineStep(s, l);
    if l.Submit? {
      OnePlaceSubmit(Line(s), s.semIpc, s.clients, l.i, l.kind);
    } else if l.Collect? {
      OnePlaceCollect(Line(s), s.semIpc, s.clients, l.i);
    } else if l.WaiterGive? {
      PlacedGive(s);
    } else if l.SrvServe? && s.srv.job.kind == Register {
      PlacedRegister(s);
    } else {
      PlacedSame(s, l);
    }
    hide Line, LineAfter, OnePlace, Next;
  }

  lemma PlacedSame(s: State, l: Label)
    requires Placed(s) && Enabled(s, l) && !l.Submit? && !l.Collect? && !l.WaiterGive?
    requires !(l.SrvServe? && s.srv.job.kind == Register)
    ensures OnePlace(LineAfter(s, l), Next(s, l).semIpc, Next(s, l).clients)
  {
    hide Line;
    if l.Raise? {
      assert forall i | 0 <= i < |s.clients| :: Next(s, l).clients[i] == Idle <==> s.clients[i] == Idle;
    } else {
      assert Next(s, l).semIpc == s.semIpc && Next(s, l).clients == s.clients;
    }
  }

  lemma {:induction false} AllIdsHas(bs: seq<Batch>, k: nat, u: nat)
    requires k < |bs| && u < |bs[k].ids|
    ensures bs[k].ids[u] in AllIds(bs)
  {
    if k == 0 {
      assert (bs[0].ids + AllIds(bs[1..]))[u] == bs[0].ids[u];
    } else {
      AllIdsHas(bs[1..], k - 1, u);
    }
  }

  /** No row that is still to be answered belongs to client i. */
  ghost predicate NoRows(bs: seq<Batch>, i: nat)
  {
    forall k, u | 0 <= k < |bs| && 0 <= u < |bs[k].ids| :: bs[k].ids[u] != i
  }

  lemma OffTheLine(s: State, i: nat)
    requires i !in Line(s)
    ensures NoRows(s.push, i) && NoRows(s.wait, i)
    ensures s.pusher.Pushing? ==> forall u | 0 <= u < |s.pusher.batch.ids| :: s.pusher.batch.ids[u] != i
    ensures s.waiter.Giving? ==> forall u | s.waiter.given <= u < |s.waiter.batch.ids| :: s.waiter.batch.ids[u] != i
    ensures forall u | 0 <= u < |s.jobs| :: s.jobs[u].id != i
    ensures s.srv.Holding? ==> s.srv.job.id != i
  {
    InSix(Ungiven(s.waiter), AllIds(s.wait), Pushed(s.pusher), AllIds(s.push), Held(s.srv), JobIds(s.jobs), i);
    assert Line(s)
        == Six(Ungiven(s.waiter), AllIds(s.wait), Pushed(s.pusher), AllIds(s.push), Held(s.srv), JobIds(s.jobs));
    hide Line, Six, AllIds;
    forall k, u | 0 <= k < |s.push| && 0 <= u < |s.push[k].ids|
      ensures s.push[k].ids[u] != i
    {
      AllIdsHas(s.push, k, u);
    }
    forall k, u | 0 <= k < |s.wait| && 0 <= u < |s.wait[k].ids|
      ensures s.wait[k].ids[u] != i
    {
      AllIdsHas(s.wait, k, u);
    }
    forall u | 0 <= u < |s.jobs| ensures s.jobs[u].id != i { assert JobIds(s.jobs)[u] == s.jobs[u].id; }
    if s.waiter.Giving? {
      var ids, g := s.waiter.batch.ids, s.waiter.given;
      forall u | g <= u < |ids| ensures ids[u] != i { assert ids[g..][u - g] == ids[u]; }
    }
  }

  lemma InSix(a: seq<nat>, b: seq<nat>, c: seq<nat>, d: seq<nat>, e: seq<nat>, f: seq<nat>, i: nat)
    ensures i in Six(a, b, c, d, e, f) <==> i in a || i in b || i in c || i in d || i in e || i in f
  {}

  /** One client's cell changes: rows of other clients stay right, and so do its own if it still asks the same. */
  lemma FilledFrame(clients: seq<Client>, input: seq<Input>, size: nat, bs: seq<Batch>, i: nat, c: Client, x: Input)
    requires AllFilled(clients, input, size, bs) && i < |clients| == |input|
    requires NoRows(bs, i) || (Asked(c, FeedForward) && x == input[i])
    ensures AllFilled(clients[i := c], input[i := x], size, bs)
  {
    forall k | 0 <= k < |bs| ensures FilledOk(clients[i := c], input[i := x], size, bs[k]) {
      RowsFrame(clients, input, bs[k], 0, i, c, x);
    }
  }

  lemma RowsFrame(clients: seq<Client>, input: seq<Input>, b: Batch, u0: nat, i: nat, c: Client, x: Input)
    requires RowsOk(clients, input, b, u0) && i < |clients|
    requires (Asked(c, FeedForward) && x == input[i]) || forall u | u0 <= u < |b.ids| :: b.ids[u] != i
    ensures RowsOk(clients[i := c], input[i := x], b, u0)
  {}

  /** All the batches, and all the jobs. */
  ghost predicate BatchesOk(s: State) { SizesOk(s) && PushOk(s) && WaitOk(s) && WorkersOk(s) }

  /** A client's step: its own cell changes, no batch does. */
  lemma ClientKeepsBatches(s: State, t: State, i: nat, c: Client, x: Input)
    requires BatchesOk(s) && i < |s.clients|
    requires t.size == s.size && t.clients == s.clients[i := c] && t.input == s.input[i := x]
        && |t.semIpc| == |s.semIpc|
    requires t.push == s.push && t.wait == s.wait && t.pusher == s.pusher && t.waiter == s.waiter && t.out == s.out
    requires (Asked(c, FeedForward) && x == s.input[i]) || i !in Line(s)
    ensures BatchesOk(t)
  {
    if !(Asked(c, FeedForward) && x == s.input[i]) { OffTheLine(s, i); }
    hide Line, Asked;
    FilledFrame(s.clients, s.input, s.size, s.push, i, c, x);
    FilledFrame(s.clients, s.input, s.size, s.wait, i, c, x);
    if s.pusher.Pushing? { RowsFrame(s.clients, s.input, s.pusher.batch, 0, i, c, x); }
    if s.waiter.Giving? { RowsFrame(s.clients, s.input, s.waiter.batch, s.waiter.given, i, c, x); }
    hide AllFilled, RowsOk, AnsweredOk, NoRows;
  }

  /** Entry::add on the last open entry, or on a fresh one. */
  lemma EnqueueFilled(s: State, id: nat)
    requires SizesOk(s) && PushOk(s) && id < |s.clients| && Asked(s.clients[id], FeedForward)
    ensures PushOk(Enqueue(s, id))
  {
    var opens := s.push == [] || IsFull(s, s.push[|s.push| - 1]);
    var q := if opens then s.push + [EMPTY] else s.push;
    var t, n := Enqueue(s, id), |q| - 1;
    hide RowsOk, Asked;
    forall k | 0 <= k < n ensures FilledOk(s.clients, s.input, s.size, t.push[k]) && IsFull(s, t.push[k]) {
      assert t.push[k] == s.push[k];
    }
    assert FilledOk(s.clients, s.input, s.size, t.push[n]) by { RowAdded(s.clients, s.input, q[n], id, opens); }
  }

  lemma RowAdded(clients: seq<Client>, input: seq<Input>, b: Batch, id: nat, isNew: bool)
    requires id < |clients| == |input| && Asked(clients[id], FeedForward)
    requires if isNew then b == EMPTY else RowsOk(clients, input, b, 0)
    ensures RowsOk(clients, input, AddRow(b, id, input[id]), 0)
  {}

  lemma SrvKeepsBatches(s: State, l: Label)
    requires BatchesOk(s) && JobsOk(s) && Enabled(s, l) && (l.SrvWake? || l.SrvFetch? || l.SrvServe? || l.SrvNotify?)
    ensures BatchesOk(Next(s, l))
  {
    if l.SrvServe? && s.srv.job.kind == FeedForward {
      EnqueueFilled(s, s.srv.job.id);
      hide AllFilled, RowsOk, AnsweredOk, FilledOk;
      assert PushOk(Next(s, l));
    } else {
      hide AllFilled, RowsOk, AnsweredOk, FilledOk;
      assert forall k | 0 <= k < |s.push| - 1 :: IsFull(Next(s, l), s.push[k]);
    }
  }

  lemma PusherKeepsBatches(s: State, l: Label)
    requires BatchesOk(s) && Enabled(s, l) && (l.PusherLook? || l.PusherStart? || l.PusherNotify? || l.SpuriousPush?)
    ensures BatchesOk(Next(s, l))
  {
    var t := Next(s, l);
    if l.PusherLook? && PushReady(s) {
      assert FilledOk(s.clients, s.input, s.size, s.push[0]);
      forall k | 0 <= k < |t.push| ensures FilledOk(s.clients, s.input, s.size, t.push[k])
          && (k < |t.push| - 1 ==> IsFull(t, t.push[k])) {
        assert t.push[k] == s.push[k + 1] && (k < |t.push| - 1 ==> IsFull(s, s.push[k + 1]));
      }
    } else if l.PusherStart? {
      var b := Evaluated(s.pusher.batch);
      assert FilledOk(s.clients, s.input, s.size, b) && AnsweredOk(b);
    }
    hide RowsOk, AnsweredOk, FilledOk;
    assert forall k | 0 <= k < |t.push| - 1 :: IsFull(t, t.push[k]) <==> IsFull(s, t.push[k]);
  }

  lemma WaiterKeepsBatches(s: State, l: Label)
    requires BatchesOk(s) && Enabled(s, l)
    requires l.WaiterLook? || l.WaiterGive? || l.WaiterFinish? || l.WaiterNotify? || l.SpuriousWait?
    ensures BatchesOk(Next(s, l))
  {
    var t := Next(s, l);
    if l.WaiterLook? && s.wait != [] {
      assert FilledOk(s.clients, s.input, s.size, s.wait[0]) && AnsweredOk(s.wait[0]);
      forall k | 0 <= k < |t.wait| ensures FilledOk(s.clients, s.input, s.size, t.wait[k]) && AnsweredOk(t.wait[k]) {
        assert t.wait[k] == s.wait[k + 1] && AnsweredOk(s.wait[k + 1]);
      }
    } else if l.WaiterGive? {
      assert RowsOk(t.clients, t.input, t.waiter.batch, t.waiter.given);
    }
    hide RowsOk, AnsweredOk, FilledOk;
    assert forall k | 0 <= k < |t.push| - 1 :: IsFull(t, t.push[k]) <==> IsFull(s, t.push[k]);
  }

  lemma KeepBatches(s: State, l: Label)
    requires BatchesOk(s) && Placed(s) && JobsOk(s) && Enabled(s, l)
    ensures BatchesOk(Next(s, l))
  {
    if l.Submit? {
      OnePlaceSubmit(Line(s), s.semIpc, s.clients, l.i, l.kind);
      ClientKeepsBatches(s, Next(s, l), l.i, Posted(l.kind), l.x);
    } else if l.Raise? {
      RaiseKeepsBatches(s, l);
    } else if l.Collect? {
      OnePlaceCollect(Line(s), s.semIpc, s.clients, l.i);
      assert s.input[l.i := s.input[l.i]] == s.input;
      ClientKeepsBatches(s, Next(s, l), l.i, Idle, s.input[l.i]);
    } else if l.SrvWake? || l.SrvFetch? || l.SrvServe? || l.SrvNotify? { SrvKeepsBatches(s, l); }
    else if l.PusherLook? || l.PusherStart? || l.PusherNotify? || l.SpuriousPush? { PusherKeepsBatches(s, l); }
    else { WaiterKeepsBatches(s, l); }
    hide BatchesOk, Next;
  }

  /** Raising the semaphore leaves the client asking for the same thing. */
  lemma RaiseKeepsBatches(s: State, l: Label)
    requires BatchesOk(s) && Enabled(s, l) && l.Raise?
    ensures BatchesOk(Next(s, l))
  {
    var t := Next(s, l);
    forall b: Batch, u0: nat | RowsOk(s.clients, s.input, b, u0) ensures RowsOk(t.clients, t.input, b, u0) {}
    hide RowsOk, AnsweredOk;
    assert forall k | 0 <= k < |t.push| - 1 :: IsFull(t, t.push[k]) <==> IsFull(s, t.push[k]);
  }

  lemma KeepJobs(s: State, l: Label)
    requires JobsOk(s) && Placed(s) && SizesOk(s) && Enabled(s, l)
    ensures JobsOk(Next(s, l))
  {
    if l.Submit? { JobsAfterSubmit(s, l.i, l.kind, l.x); }
    else if l.Collect? { JobsAfterCollect(s, l.i); }
    else { JobsOtherwise(s, l); }
    hide *;
  }

  lemma JobsOtherwise(s: State, l: Label)
    requires JobsOk(s) && Enabled(s, l) && !l.Submit? && !l.Collect?
    ensures JobsOk(Next(s, l))
  {
    hide Evaluated, WakePusher, WakeWaiter, PushReady;
    var t := Next(s, l);
    if l.SrvFetch? { assert forall u | 0 <= u < |t.jobs| :: t.jobs[u] == s.jobs[u + 1]; }
    else { assert t.jobs == s.jobs; }
  }

  lemma JobsAfterSubmit(s: State, i: nat, kind: Kind, x: Input)
    requires JobsOk(s) && Placed(s) && SizesOk(s) && Enabled(s, Submit(i, kind, x))
    ensures JobsOk(Next(s, Submit(i, kind, x)))
  {
    OnePlaceSubmit(Line(s), s.semIpc, s.clients, i, kind);
    OffTheLine(s, i);
    hide Line, OnePlace, NoRows;
  }

  lemma JobsAfterCollect(s: State, i: nat)
    requires JobsOk(s) && Placed(s) && SizesOk(s) && Enabled(s, Collect(i))
    ensures JobsOk(Next(s, Collect(i)))
  {
    OnePlaceCollect(Line(s), s.semIpc, s.clients, i);
    OffTheLine(s, i);
    hide Line, OnePlace, NoRows;
  }

  lemma KeepAnswers(s: State, l: Label)
    requires AnswersOk(s) && Placed(s) && WorkersOk(s) && JobsOk(s) && Enabled(s, l)
    ensures AnswersOk(Next(s, l))
  {
    if l.Submit? { OnePlaceSubmit(Line(s), s.semIpc, s.clients, l.i, l.kind); AnswersAfterSubmit(s, l.i, l.kind, l.x); }
    else if l.WaiterGive? { AnswersAfterGive(s); }
    else { AnswersOtherwise(s, l); }
    hide *;
  }

  lemma AnswersAfterSubmit(s: State, i: nat, kind: Kind, x: Input)
    requires AnswersOk(s) && Enabled(s, Submit(i, kind, x)) && s.semIpc[i] == 0
    ensures AnswersOk(Next(s, Submit(i, kind, x)))
  {}

  lemma AnswersAfterGive(s: State)
    requires AnswersOk(s) && WorkersOk(s) && Enabled(s, WaiterGive)
    ensures AnswersOk(Next(s, WaiterGive))
  {
    hide Evaluated, WakePusher, WakeWaiter, PushReady;
    var b, u := s.waiter.batch, s.waiter.given;
    assert b.answers[u] == Answer(b.inputs[u]) && b.inputs[u] == s.input[b.ids[u]];
  }

  lemma AnswersOtherwise(s: State, l: Label)
    requires AnswersOk(s) && JobsOk(s) && Enabled(s, l) && !l.Submit? && !l.WaiterGive?
    ensures AnswersOk(Next(s, l))
  {
    hide Evaluated, WakePusher, WakeWaiter, PushReady;
  }

  lemma {:induction false} PostedChange(clients: seq<Client>, i: nat, c: Client)
    requires i < |clients|
    ensures PostedCount(clients[i := c]) + (if clients[i].Posted? then 1 else 0)
        == PostedCount(clients) + if c.Posted? then 1 else 0
  {
    if i == 0 {
      assert clients[0 := c][1..] == clients[1..];
    } else {
      PostedChange(clients[1..], i - 1, c);
      assert clients[i := c][1..] == clients[1..][i - 1 := c];
    }
  }

  lemma KeepSem(s: State, l: Label)
    requires SemOk(s) && Enabled(s, l)
    ensures SemOk(Next(s, l))
  {
    if l.Submit? { PostedChange(s.clients, l.i, Posted(l.kind)); }
    if l.Raise? { PostedChange(s.clients, l.i, Waiting(s.clients[l.i].kind)); }
    if l.Collect? { PostedChange(s.clients, l.i, Idle); }
    hide PostedCount;
  }

  /** A row added in silence gives a blocked pushing thread nothing it did not have before. */
  lemma SilentRow(s: State, id: nat)
    requires id < |s.input| && PushReady(Enqueue(s, id)) && Enqueue(s, id).srv != Announcing
    ensures PushReady(s)
  {
    var t := Enqueue(s, id);
    assert s.push != [];
    if |t.push| > 1 { assert t.push[0] == s.push[0]; }
  }

  lemma KeepWakeups(s: State, l: Label)
    requires NoLostWakeup(s) && Enabled(s, l)
    ensures NoLostWakeup(Next(s, l))
  {
    var t := Next(s, l);
    if l.SrvServe? && s.srv.job.kind == FeedForward {
      if PushReady(t) && t.srv != Announcing { SilentRow(s, s.srv.job.id); }
    }
  }

  /** Every step of every thread keeps every invariant. */
  lemma KeepInv(s: State, l: Label)
    requires Inv(s) && Enabled(s, l)
    ensures Inv(Next(s, l))
  {
    KeepPlaced(s, l);
    KeepBatches(s, l);
    KeepJobs(s, l);
    KeepAnswers(s, l);
    KeepSem(s, l);
    KeepWakeups(s, l);
    hide Next, Placed, PushOk, WaitOk, WorkersOk, JobsOk, AnswersOk, SemOk, NoLostWakeup, SizesOk;
  }

  lemma {:induction false} NobodyPosted(clients: seq<Client>)
    requires forall i | 0 <= i < |clients| :: clients[i] == Idle
    ensures PostedCount(clients) == 0
  {
    if clients != [] { NobodyPosted(clients[1..]); }
  }

  lemma StartInv(s: State)
    requires IsStart(s)
    ensures Inv(s)
  {
    assert Line(s) == [];
    NobodyPosted(s.clients);
  }

  // ----- runs -----

  ghost predicate IsRun(s: State, ls: seq<Label>)
    decreases |ls|
  {
    ls == [] || (Enabled(s, ls[0]) && IsRun(Next(s, ls[0]), ls[1..]))
  }

  ghost function After(s: State, ls: seq<Label>): State
    requires IsRun(s, ls)
    decreases |ls|
  {
    if ls == [] then s else After(Next(s, ls[0]), ls[1..])
  }

  lemma {:induction false} RunsKeepInv(s: State, ls: seq<Label>)
    requires Inv(s) && IsRun(s, ls)
    ensures Inv(After(s, ls))
    decreases |ls|
  {
    if ls != [] {
      KeepInv(s, ls[0]);
      RunsKeepInv(Next(s, ls[0]), ls[1..]);
    }
  }
}
