/** A whole SendUp and a whole retry pass, run without interruption, as runs of the
    tree machine: the counterparts there of the node's methods. */
module UpstreamCalls {
  import opened Wrappers
  import opened Topology
  import opened Tokens
  import opened Upstream
  import opened UpstreamConservation
  import opened UpstreamProgress
  import opened Retry

  /** Where ForwardUp leaves an envelope: answer is that of SendUpstream, None
      without a parent. */
  function Destination(answer: Option<bool>): Place {
    match answer
    case None => Absorbed
    case Some(true) => Wire
    case Some(false) => Pending
  }

  // The same buffers everywhere, but for x at the end of the one at q.
  ghost predicate OneMoreAt(s: State, s': State, q: Spot, x: nat) {
    forall p: Spot :: At(s'.pool, p) == At(s.pool, p) + if p == q then [x] else []
  }

  function AnswerScript(s: State, n: nat, answer: Option<bool>): seq<Action> {
    var j := |Held(s, n, Forwarding)|;
    match answer
    case None => [Absorb(n, j)] + []
    case Some(true) => [SendOk(n, j)] + []
    case Some(false) => [SendErr(n, j)] + ([Push(n, |Held(s, n, Failed)|)] + [])
  }

  function CallScript(s: State, n: nat, answer: Option<bool>): seq<Action> {
    [SendUp(n)] + ([RunHandlers(n, |Held(s, n, Arrived)|)] + AnswerScript(s, n, answer))
  }

  lemma LastMoves(s: State, s1: State, p: Spot, q: Spot, x: nat)
    requires OneMoreAt(s, s1, p, x) && p != q
    ensures |At(s.pool, p)| < |At(s1.pool, p)| && At(s1.pool, p)[|At(s.pool, p)|] == x
    ensures OneMoreAt(s, Shift(s1, p, |At(s.pool, p)|, q), q, x)
  {
    assert At(s1.pool, p) == At(s.pool, p) + [x];
    var s2 := Shift(s1, p, |At(s.pool, p)|, q);
    forall r: Spot
      ensures At(s2.pool, r) == At(s.pool, r) + if r == q then [x] else []
    {
      assert At(s1.pool, r) == At(s.pool, r) + if r == p then [x] else [];
    }
  }

  lemma ResumeOne(t: Tree, s: State, a: Action, rest: seq<Action>)
    ensures Resume(t, s, [a] + rest) == Resume(t, Next(t, s, a), rest)
  {
    assert ([a] + rest)[1..] == rest;
  }

  lemma {:induction false} ResumeMore(t: Tree, s: State, first: seq<Action>, second: seq<Action>)
    ensures Resume(t, s, first + second) == Resume(t, Resume(t, s, first), second)
    decreases |first|
  {
    if first == [] {
      assert first + second == second;
    } else {
      var a, rest := first[0], first[1..];
      assert first == [a] + rest && first + second == [a] + (rest + second);
      ResumeOne(t, s, a, rest);
      ResumeOne(t, s, a, rest + second);
      ResumeMore(t, Next(t, s, a), rest, second);
    }
  }

  // What an answer leaves alone.
  ghost predicate SameHistory(s: State, s': State) {
    s'.origins == s.origins && s'.ran == s.ran && s'.loop == s.loop && s'.cancelled == s.cancelled
  }

  lemma SendOkStep(t: Tree, s: State, s2: State, n: nat)
    requires n < |t| && t[n].Some? && OneMoreAt(s, s2, Spot(n, Forwarding), |s.origins|)
    ensures var s3 := Next(t, s2, SendOk(n, |Held(s, n, Forwarding)|));
            && OneMoreAt(s, s3, Spot(n, Wire), |s.origins|) && SameHistory(s2, s3)
            && s3.sentOk == Put(s2.sentOk, n, |s.origins|)
  {
    LastMoves(s, s2, Spot(n, Forwarding), Spot(n, Wire), |s.origins|);
  }

  lemma AbsorbStep(t: Tree, s: State, s2: State, n: nat)
    requires n < |t| && t[n].None? && OneMoreAt(s, s2, Spot(n, Forwarding), |s.origins|)
    ensures var s3 := Next(t, s2, Absorb(n, |Held(s, n, Forwarding)|));
            OneMoreAt(s, s3, Spot(n, Absorbed), |s.origins|) && SameHistory(s2, s3) && s3.sentOk == s2.sentOk
  {
    LastMoves(s, s2, Spot(n, Forwarding), Spot(n, Absorbed), |s.origins|);
  }

  lemma SendErrStep(t: Tree, s: State, s2: State, n: nat)
    requires n < |t| && t[n].Some? && OneMoreAt(s, s2, Spot(n, Forwarding), |s.origins|)
    ensures var s3 := Next(t, s2, SendErr(n, |Held(s, n, Forwarding)|));
            OneMoreAt(s, s3, Spot(n, Failed), |s.origins|) && SameHistory(s2, s3) && s3.sentOk == s2.sentOk
  {
    LastMoves(s, s2, Spot(n, Forwarding), Spot(n, Failed), |s.origins|);
  }

  lemma PushStep(t: Tree, s: State, s3: State, n: nat)
    requires n < |t| && OneMoreAt(s, s3, Spot(n, Failed), |s.origins|)
    ensures var s4 := Next(t, s3, Push(n, |Held(s, n, Failed)|));
            OneMoreAt(s, s4, Spot(n, Pending), |s.origins|) && SameHistory(s3, s4) && s4.sentOk == s3.sentOk
  {
    LastMoves(s, s3, Spot(n, Failed), Spot(n, Pending), |s.origins|);
  }

  lemma FailureRuns(t: Tree, s: State, s2: State, n: nat)
    requires n < |t| && t[n].Some? && OneMoreAt(s, s2, Spot(n, Forwarding), |s.origins|)
    ensures var s' := Resume(t, s2, AnswerScript(s, n, Some(false)));
            OneMoreAt(s, s', Spot(n, Pending), |s.origins|) && SameHistory(s2, s') && s'.sentOk == s2.sentOk
  {
    var j, k := |Held(s, n, Forwarding)|, |Held(s, n, Failed)|;
    SendErrStep(t, s, s2, n);
    var s3 := Next(t, s2, SendErr(n, j));
    PushStep(t, s, s3, n);
    ResumeOne(t, s2, SendErr(n, j), [Push(n, k)] + []);
    ResumeOne(t, s3, Push(n, k), []);
  }

  lemma AnswerRuns(t: Tree, s: State, s2: State, n: nat, answer: Option<bool>)
    requires n < |t| && (answer.None? <==> t[n].None?)
    requires OneMoreAt(s, s2, Spot(n, Forwarding), |s.origins|)
    ensures var s' := Resume(t, s2, AnswerScript(s, n, answer));
            && OneMoreAt(s, s', Spot(n, Destination(answer)), |s.origins|) && SameHistory(s2, s')
            && s'.sentOk == if answer == Some(true) then Put(s2.sentOk, n, |s.origins|) else s2.sentOk
  {
    if answer.None? {
      AbsorbStep(t, s, s2, n);
      ResumeOne(t, s2, Absorb(n, |Held(s, n, Forwarding)|), []);
    } else if answer.value {
      SendOkStep(t, s, s2, n);
      ResumeOne(t, s2, SendOk(n, |Held(s, n, Forwarding)|), []);
    } else {
      FailureRuns(t, s, s2, n);
    }
  }

  /** SendUp of a new event runs the node's handlers for it once, and puts it on
      the link, at the end of the queue, or to rest, as SendUpstream answers. */
  lemma SendUpRuns(t: Tree, s: State, n: nat, answer: Option<bool>)
    requires n < |t| && (answer.None? <==> t[n].None?)
    ensures var s', e := Resume(t, s, CallScript(s, n, answer)), |s.origins|;
            && OneMoreAt(s, s', Spot(n, Destination(answer)), e)
            && s'.origins == s.origins + [n] && s'.ran == Put(s.ran, n, e)
            && s'.sentOk == (if answer == Some(true) then Put(s.sentOk, n, e) else s.sentOk)
            && s'.loop == s.loop && s'.cancelled == s.cancelled
  {
    var e := |s.origins|;
    var i := |Held(s, n, Arrived)|;
    var s1 := Next(t, s, SendUp(n));
    assert OneMoreAt(s, s1, Spot(n, Arrived), e);
    LastMoves(s, s1, Spot(n, Arrived), Spot(n, Forwarding), e);
    var s2 := Next(t, s1, RunHandlers(n, i));
    var rest := AnswerScript(s, n, answer);
    ResumeOne(t, s, SendUp(n), [RunHandlers(n, i)] + rest);
    ResumeOne(t, s1, RunHandlers(n, i), rest);
    AnswerRuns(t, s, s2, n, answer);
  }

  /** What fails once retryLoop has returned is pushed all the same, and stuck. */
  lemma FailsAfterTheLoop(t: Tree, run: seq<Action>, n: nat)
    requires n < |t| && t[n].Some? && LoopOf(Exec(t, run), n) == Exited
    ensures var s, more := Exec(t, run), CallScript(Exec(t, run), n, Some(false));
            Held(Exec(t, run + more), n, Pending) == Held(s, n, Pending) + [|s.origins|]
            && Stuck(Exec(t, run + more), |s.origins|)
  {
    var s := Exec(t, run);
    var more := CallScript(s, n, Some(false));
    SendUpRuns(t, s, n, Some(false));
    ResumeIsExec(t, run, more);
    var s' := Exec(t, run + more);
    assert At(s'.pool, Spot(n, Pending)) == At(s.pool, Spot(n, Pending)) + [|s.origins|];
    assert Terminal(s', Spot(n, Pending));
  }

  // ---------------------------------------------------------------------------
  // A retry pass
  // ---------------------------------------------------------------------------

  // A pass: its batch and world, and what it finds on the link, with the
  // forwarders about to push, and abandoned earlier.
  datatype Pass = Pass(batch: seq<nat>, w: World<nat>, linked: seq<nat>, waiting: seq<nat>, left: seq<nat>)

  /** Node n after k attempts, and after j of the pushes that others make before the
      next one: the queue and the link are those of the method, and what the others
      push is what their forwarders were about to. */
  ghost predicate MidPass(s: State, n: nat, p: Pass, k: nat, j: nat)
    requires k <= |p.batch| && j <= |p.w.Arrivals(k)|
  {
    && Held(s, n, Batch) == p.batch[k..] && Held(s, n, Refailed) == []
    && Held(s, n, Pending) == Requeued(p.batch, p.w, k) + p.w.Arrivals(k)[..j]
    && Held(s, n, Wire) == p.linked + Successes(p.batch, p.w, k)
    && Pushed(p.w, k) + p.w.Arrivals(k)[..j] + Held(s, n, Failed) == p.waiting
    && Held(s, n, Abandoned) == p.left
  }

  lemma NextWaiting(before: seq<nat>, arrivals: seq<nat>, j: nat, failed: seq<nat>, waiting: seq<nat>)
    requires j < |arrivals| && before + arrivals[..j] + failed == waiting && before + arrivals <= waiting
    ensures failed != [] && failed[0] == arrivals[j]
    ensures before + arrivals[..j + 1] + failed[1..] == waiting
  {
    assert waiting[|before| + j] == (before + arrivals)[|before| + j] == arrivals[j];
    assert failed == [arrivals[j]] + failed[1..];
    assert arrivals[..j + 1] == arrivals[..j] + [arrivals[j]];
  }

  lemma PushMoves(t: Tree, s: State, n: nat)
    requires n < |t| && Held(s, n, Failed) != []
    ensures var s', x := Next(t, s, Push(n, 0)), Held(s, n, Failed)[0];
            && Held(s', n, Failed) == Held(s, n, Failed)[1..] && Held(s', n, Pending) == Held(s, n, Pending) + [x]
            && (forall q :: q in {Batch, Refailed, Wire, Abandoned} ==> Held(s', n, q) == Held(s, n, q))
            && s'.loop == s.loop
  {
    assert Held(s, n, Failed)[..0] + Held(s, n, Failed)[1..] == Held(s, n, Failed)[1..];
  }

  lemma OnePush(t: Tree, s: State, n: nat, p: Pass, k: nat, j: nat)
    requires n < |t| && k <= |p.batch| && j < |p.w.Arrivals(k)| && MidPass(s, n, p, k, j)
    requires Pushed(p.w, k + 1) <= p.waiting
    ensures MidPass(Next(t, s, Push(n, 0)), n, p, k, j + 1) && Next(t, s, Push(n, 0)).loop == s.loop
  {
    var arrivals := p.w.Arrivals(k);
    NextWaiting(Pushed(p.w, k), arrivals, j, Held(s, n, Failed), p.waiting);
    PushMoves(t, s, n);
    assert arrivals[..j + 1] == arrivals[..j] + [arrivals[j]];
  }

  lemma {:induction false} PushesRun(t: Tree, s: State, n: nat, p: Pass, k: nat, j: nat) returns (run: seq<Action>)
    requires n < |t| && k <= |p.batch| && j <= |p.w.Arrivals(k)| && MidPass(s, n, p, k, j)
    requires Pushed(p.w, k + 1) <= p.waiting
    ensures MidPass(Resume(t, s, run), n, p, k, |p.w.Arrivals(k)|) && Resume(t, s, run).loop == s.loop
    decreases |p.w.Arrivals(k)| - j
  {
    run := [];
    if j < |p.w.Arrivals(k)| {
      OnePush(t, s, n, p, k, j);
      var rest := PushesRun(t, Next(t, s, Push(n, 0)), n, p, k, j + 1);
      ResumeOne(t, s, Push(n, 0), rest);
      run := [Push(n, 0)] + rest;
    }
  }

  lemma RetryOkStep(t: Tree, s: State, n: nat, p: Pass, k: nat)
    requires n < |t| && t[n].Some? && k < |p.batch| && p.w.Succeeds(k) && LoopOf(s, n) == Trying
    requires MidPass(s, n, p, k, |p.w.Arrivals(k)|)
    ensures var s' := Next(t, s, RetryOk(n)); MidPass(s', n, p, k + 1, 0) && LoopOf(s', n) == Pacing
  {
    assert p.w.Arrivals(k)[..|p.w.Arrivals(k)|] == p.w.Arrivals(k) && p.w.Arrivals(k + 1)[..0] == [];
    assert p.batch[k..][1..] == p.batch[k + 1..];
    var before := Successes(p.batch, p.w, k);
    assert p.linked + before + [p.batch[k]] == p.linked + (before + [p.batch[k]]);
  }

  lemma RetryErrStep(t: Tree, s: State, n: nat, p: Pass, k: nat)
    requires n < |t| && t[n].Some? && k < |p.batch| && LoopOf(s, n) == Trying && MidPass(s, n, p, k, |p.w.Arrivals(k)|)
    ensures var s' := Next(t, s, RetryErr(n));
            && Held(s', n, Batch) == p.batch[k + 1..] && Held(s', n, Refailed) == [p.batch[k]]
            && LoopOf(s', n) == Repushing
            && forall q :: q in {Pending, Wire, Failed, Abandoned} ==> Held(s', n, q) == Held(s, n, q)
  {
    assert p.batch[k..][1..] == p.batch[k + 1..];
  }

  lemma RepushStep(t: Tree, s: State, n: nat)
    requires n < |t| && |Held(s, n, Refailed)| == 1 && LoopOf(s, n) == Repushing
    ensures var s' := Next(t, s, Repush(n));
            && Held(s', n, Pending) == Held(s, n, Pending) + Held(s, n, Refailed) && Held(s', n, Refailed) == []
            && LoopOf(s', n) == Pacing
            && forall q :: q in {Batch, Wire, Failed, Abandoned} ==> Held(s', n, q) == Held(s, n, q)
  {
  }

  lemma RetryErrSteps(t: Tree, s: State, n: nat, p: Pass, k: nat)
    requires n < |t| && t[n].Some? && k < |p.batch| && !p.w.Succeeds(k) && LoopOf(s, n) == Trying
    requires MidPass(s, n, p, k, |p.w.Arrivals(k)|)
    ensures var s' := Next(t, Next(t, s, RetryErr(n)), Repush(n));
            MidPass(s', n, p, k + 1, 0) && LoopOf(s', n) == Pacing
  {
    assert p.w.Arrivals(k)[..|p.w.Arrivals(k)|] == p.w.Arrivals(k) && p.w.Arrivals(k + 1)[..0] == [];
    RetryErrStep(t, s, n, p, k);
    RepushStep(t, Next(t, s, RetryErr(n)), n);
  }

  lemma AttemptRuns(t: Tree, s: State, n: nat, p: Pass, k: nat) returns (run: seq<Action>)
    requires n < |t| && t[n].Some? && k < |p.batch| && MidPass(s, n, p, k, 0) && LoopOf(s, n) == Trying
    requires Pushed(p.w, k + 1) <= p.waiting
    ensures var s' := Resume(t, s, run); MidPass(s', n, p, k + 1, 0) && LoopOf(s', n) == Pacing
  {
    run := PushesRun(t, s, n, p, k, 0);
    var s1 := Resume(t, s, run);
    if p.w.Succeeds(k) {
      RetryOkStep(t, s1, n, p, k);
      ResumeOne(t, s1, RetryOk(n), []);
      ResumeMore(t, s, run, [RetryOk(n)] + []);
      run := run + ([RetryOk(n)] + []);
    } else {
      RetryErrSteps(t, s1, n, p, k);
      ResumeOne(t, s1, RetryErr(n), [Repush(n)] + []);
      ResumeOne(t, Next(t, s1, RetryErr(n)), Repush(n), []);
      ResumeMore(t, s, run, [RetryErr(n)] + ([Repush(n)] + []));
      run := run + ([RetryErr(n)] + ([Repush(n)] + []));
    }
  }

  /** Where a pass ends: after all its attempts, or after the first that finds the
      context done, leaving the rest of the batch behind for good. */
  ghost predicate Passed(s: State, n: nat, p: Pass) {
    var m := Attempts(|p.batch|, p.w);
    && Held(s, n, Pending) == Requeued(p.batch, p.w, m)
    && Held(s, n, Wire) == p.linked + Successes(p.batch, p.w, m)
    && Pushed(p.w, m) + Held(s, n, Failed) == p.waiting
    && Held(s, n, Batch) == []
    && Held(s, n, Abandoned) == p.left + p.batch[m..]
    && (m < |p.batch| ==> Stopped(m, p.w))
    && LoopOf(s, n) == if Stopped(m, p.w) then Exited else Idle
  }

  lemma QuitStep(t: Tree, s: State, n: nat)
    requires n < |t| && LoopOf(s, n) == Pacing
    ensures var s' := Next(t, Next(t, s, Cancel(n)), Quit(n));
            && Held(s', n, Batch) == [] && Held(s', n, Abandoned) == Held(s, n, Abandoned) + Held(s, n, Batch)
            && LoopOf(s', n) == Exited
            && forall q :: q in {Pending, Wire, Failed} ==> Held(s', n, q) == Held(s, n, q)
  {
  }

  lemma QuitEnds(t: Tree, s: State, n: nat, p: Pass, m: nat)
    requires m == Attempts(|p.batch|, p.w) && n < |t| && Stopped(m, p.w)
    requires MidPass(s, n, p, m, 0) && LoopOf(s, n) == Pacing
    ensures Passed(Next(t, Next(t, s, Cancel(n)), Quit(n)), n, p)
  {
    QuitStep(t, s, n);
    assert p.w.Arrivals(m)[..0] == [];
    assert Requeued(p.batch, p.w, m) + [] == Requeued(p.batch, p.w, m) && Pushed(p.w, m) + [] == Pushed(p.w, m);
  }

  lemma PaceEnds(t: Tree, s: State, n: nat, p: Pass, m: nat)
    requires m == Attempts(|p.batch|, p.w) && n < |t| && m > 0 && !Stopped(m, p.w)
    requires MidPass(s, n, p, m, 0) && LoopOf(s, n) == Pacing
    ensures Passed(Next(t, s, Pace(n)), n, p)
  {
    assert p.w.Arrivals(m)[..0] == [];
    assert Requeued(p.batch, p.w, m) + [] == Requeued(p.batch, p.w, m) && Pushed(p.w, m) + [] == Pushed(p.w, m);
    assert p.batch[m..] == [] && p.left + [] == p.left;
  }

  // The last attempt of the pass is over.
  lemma PassEnds(t: Tree, s: State, n: nat, p: Pass, m: nat) returns (run: seq<Action>)
    requires m == Attempts(|p.batch|, p.w) && n < |t| && m > 0 && MidPass(s, n, p, m, 0) && LoopOf(s, n) == Pacing
    ensures Passed(Resume(t, s, run), n, p)
  {
    if Stopped(m, p.w) {
      QuitEnds(t, s, n, p, m);
      ResumeOne(t, s, Cancel(n), [Quit(n)] + []);
      ResumeOne(t, Next(t, s, Cancel(n)), Quit(n), []);
      run := [Cancel(n)] + ([Quit(n)] + []);
    } else {
      PaceEnds(t, s, n, p, m);
      ResumeOne(t, s, Pace(n), []);
      run := [Pace(n)] + [];
    }
  }

  lemma {:induction false} PushedGrows(w: World<nat>, k: nat, m: nat)
    requires k <= m
    ensures Pushed(w, k) <= Pushed(w, m)
  {
    if k < m {
      PushedGrows(w, k, m - 1);
    }
  }

  lemma {:induction false} AttemptsRun(t: Tree, s: State, n: nat, p: Pass, k: nat) returns (run: seq<Action>)
    requires n < |t| && t[n].Some? && k < Attempts(|p.batch|, p.w) && LoopOf(s, n) == Trying && MidPass(s, n, p, k, 0)
    requires Pushed(p.w, Attempts(|p.batch|, p.w)) <= p.waiting
    ensures Passed(Resume(t, s, run), n, p)
    decreases |p.batch| - k
  {
    PushedGrows(p.w, k + 1, Attempts(|p.batch|, p.w));
    run := AttemptRuns(t, s, n, p, k);
    var s1, rest := Resume(t, s, run), [];
    if k + 1 == Attempts(|p.batch|, p.w) {
      rest := PassEnds(t, s1, n, p, k + 1);
    } else {
      rest := AttemptsRun(t, Next(t, s1, Pace(n)), n, p, k + 1);
      ResumeOne(t, s1, Pace(n), rest);
      rest := [Pace(n)] + rest;
    }
    ResumeMore(t, s, run, rest);
    run := run + rest;
  }

  /** A pass of retryLoop, whatever its sends answer, whatever the forwarders that
      are about to push do push during it, and wherever it finds the context done,
      is a run of the machine that leaves queue, link and abandoned tail as the
      method does. */
  lemma RetryPassRuns(t: Tree, s: State, n: nat, w: World<nat>) returns (run: seq<Action>)
    requires n < |t| && t[n].Some? && LoopInv(s, n) && LoopOf(s, n) == Idle && Held(s, n, Pending) != []
    requires Retry.Pushed(w, Attempts(|Held(s, n, Pending)|, w)) <= Held(s, n, Failed)
    ensures Passed(Resume(t, s, run), n,
                   Pass(Held(s, n, Pending), w, Held(s, n, Wire), Held(s, n, Failed), Held(s, n, Abandoned)))
  {
    var p := Pass(Held(s, n, Pending), w, Held(s, n, Wire), Held(s, n, Failed), Held(s, n, Abandoned));
    var s1 := Next(t, s, Drain(n));
    assert p.batch[0..] == p.batch && p.linked + [] == p.linked && [] + p.waiting == p.waiting;
    var rest := AttemptsRun(t, s1, n, p, 0);
    ResumeOne(t, s, Drain(n), rest);
    run := [Drain(n)] + rest;
  }
}
