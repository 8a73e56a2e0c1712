/** What each method of the client makes of its fields, and the proof that a call of
    it, run without interruption, is a run of the state machine that does the same.

    What the network does is given: whether a dial, the open of a stream after it,
    and a Send succeed. */
module ClientRefinement {
  import opened Wrappers
  import opened ClientMachine

  datatype Attempt = Attempt(dials: bool, opens: bool)

  datatype Fields = Fields(closed: bool, up: Half, down: Half, cancel: Option<nat>, cancelled: set<nat>)

  function FieldsOf(s: State): Fields {
    Fields(s.closed, s.up, s.down, s.cancel, s.cancelled)
  }

  predicate Works(f: Fields, a: Attempt) {
    !f.closed && a.dials && a.opens
  }

  /** One side after an attempt to give it a new connection and stream. */
  function Redialled(h: Half, a: Attempt): Half {
    if !a.dials then h
    else if !a.opens then h.(fates := h.fates + [Closed])
    else InstallOn(h.(fates := h.fates + [Closed]), |h.fates|)
  }

  function UpReopened(f: Fields, a: Attempt): Fields {
    if f.closed then f else f.(up := Redialled(f.up, a))
  }

  /** The previous stream's context is cancelled whatever comes of the attempt. */
  function DownReopened(f: Fields, a: Attempt): Fields {
    if f.closed then f
    else f.(down := Redialled(f.down, a), cancelled := f.cancelled + AsSet(f.cancel),
            cancel := if Works(f, a) then Some(|f.down.fates|) else f.cancel)
  }

  /** Whether sendUpstream gets as far as Send. */
  predicate Reaches(f: Fields, first: Attempt) {
    f.up.stream.Some? || Works(f, first)
  }

  function AfterFirst(f: Fields, first: Attempt): Fields {
    if f.up.stream.Some? then f else UpReopened(f, first)
  }

  function AfterSendUp(f: Fields, first: Attempt, ok: bool, second: Attempt): Fields {
    if Reaches(f, first) && !ok then UpReopened(AfterFirst(f, first), second) else AfterFirst(f, first)
  }

  function Shut(f: Fields): Fields {
    f.(closed := true, cancelled := f.cancelled + AsSet(f.cancel),
       up := CloseConn(f.up, f.up.conn), down := CloseConn(f.down, f.down.conn))
  }

  /** A tick of reconnectLoop: what is needed is decided before anything is dialled. */
  function AfterTick(f: Fields, up: Attempt, down: Attempt): Fields {
    var f1 := if f.up.stream.None? then UpReopened(f, up) else f;
    if f.down.stream.None? then DownReopened(f1, down) else f1
  }

  // s, with goroutine t at pc.
  predicate Stands(s: State, t: nat, pc: Pc) {
    t < |s.threads| && s.threads[t].pc == pc
  }

  // Every goroutine of s is in s' as it was, but for t.
  predicate OthersStay(s: State, s': State, t: nat) {
    |s.threads| <= |s'.threads| && forall u :: 0 <= u < |s.threads| && u != t ==> s'.threads[u] == s.threads[u]
  }

  predicate SameThread(s: State, u: State, t: nat) {
    t < |s.threads| && |u.threads| == |s.threads| && u.threads == s.threads[t := u.threads[t]]
    && u.threads[t] == s.threads[t].(pc := u.threads[t].pc)
  }

  // What comes of a reopen depends on its goroutine only by the call it made.
  lemma ReturnForgets(s: State, u: State, t: nat, side: Side, k: Caller, ok: bool)
    requires SameThread(s, u, t) && u == s.(threads := u.threads)
    ensures Return(u, t, side, k, ok) == Return(s, t, side, k, ok)
  {
    forall pc
      ensures Goto(u, t, pc) == Goto(s, t, pc)
    {
      assert u.threads[t := u.threads[t].(pc := pc)] == s.threads[t := s.threads[t].(pc := pc)];
    }
    var failed := Thread(Finished, s.threads[t].sends, Some(false));
    assert u.threads[t := failed] == s.threads[t := failed];
  }

  lemma Step(s: State, t: nat, ok: bool, rest: seq<Action>)
    requires t < |s.threads|
    ensures Resume(s, [Act(t, ok)] + rest) == Resume(Next(s, Act(t, ok)), rest)
  {
    ResumeFirst(s, Act(t, ok), rest);
  }

  lemma OpenUpRuns(s: State, s2: State, t: nat, k: Caller, a: Attempt) returns (run: seq<Action>)
    requires !s.closed && t < |s.threads| && a.dials
    requires s2 == Goto(s, t, Open(Up, k, |s.up.fates|)).(up := s.up.(fates := s.up.fates + [Held(t)]))
    ensures var f := FieldsOf(s);
            Resume(s2, run) == Return(s.(up := UpReopened(f, a).up), t, Up, k, Works(f, a))
  {
    var c, after := |s.up.fates|, s.(up := Redialled(s.up, a));
    if !a.opens {
      ResumeFirst(s2, Act(t, false), []);
      var u := s2.(up := CloseConn(s2.up, Some(c)));
      assert u.up == after.up;
      ReturnForgets(after, u, t, Up, k, false);
      run := [Act(t, false)];
    } else {
      var s3 := Goto(s2, t, Install(Up, k, c));
      var u := s3.(up := InstallOn(s3.up, c));
      assert InstallOn(s3.up, c) == after.up;
      ReturnForgets(after, u, t, Up, k, true);
      Step(s2, t, true, [Act(t, true)]);
      ResumeFirst(s3, Act(t, true), []);
      run := [Act(t, true)] + [Act(t, true)];
    }
  }

  lemma DialUpRuns(s: State, s1: State, t: nat, k: Caller, a: Attempt) returns (run: seq<Action>)
    requires !s.closed && t < |s.threads| && s1 == Goto(s, t, Dial(Up, k))
    ensures var f := FieldsOf(s);
            Resume(s1, run) == Return(s.(up := UpReopened(f, a).up), t, Up, k, Works(f, a))
  {
    if !a.dials {
      ResumeFirst(s1, Act(t, false), []);
      ReturnForgets(s, s1, t, Up, k, false);
      run := [Act(t, false)];
    } else {
      var c := |s.up.fates|;
      var h := s.up.(fates := s.up.fates + [Held(t)]);
      var s2 := Goto(s, t, Open(Up, k, c)).(up := h);
      assert Next(s1, Act(t, true)) == s2;
      var rest := OpenUpRuns(s, s2, t, k, a);
      run := [Act(t, true)] + rest;
      Step(s1, t, true, rest);
    }
  }

  /** reopenUpstream, by goroutine t for caller k. */
  lemma ReopenUpRuns(s: State, t: nat, k: Caller, a: Attempt) returns (run: seq<Action>)
    requires Stands(s, t, Entry(Up, k))
    ensures var f := FieldsOf(s);
            Resume(s, run) == Return(s.(up := UpReopened(f, a).up), t, Up, k, Works(f, a))
  {
    if s.closed {
      ResumeFirst(s, Act(t, true), []);
      run := [Act(t, true)];
    } else {
      var s1 := Goto(s, t, Dial(Up, k));
      var rest := DialUpRuns(s, s1, t, k, a);
      run := [Act(t, true)] + rest;
      Step(s, t, true, rest);
    }
  }

  /** The state a reopenDownstream leaves behind, its caller apart. */
  function DownDone(s: State, a: Attempt): State {
    var f := DownReopened(FieldsOf(s), a);
    var s' := s.(down := f.down, cancel := f.cancel, cancelled := f.cancelled);
    if Works(FieldsOf(s), a) then Spawn(s', Recv(|s.down.fates|)) else s'
  }

  lemma OpenDownRuns(s: State, s3: State, t: nat, k: Caller, a: Attempt) returns (run: seq<Action>)
    requires !s.closed && t < |s.threads| && a.dials
    requires s3 == Goto(s, t, Open(Down, k, |s.down.fates|))
                     .(cancelled := s.cancelled + AsSet(s.cancel), down := s.down.(fates := s.down.fates + [Held(t)]))
    ensures Resume(s3, run) == Return(DownDone(s, a), t, Down, k, Works(FieldsOf(s), a))
  {
    var c, after := |s.down.fates|, DownDone(s, a);
    if !a.opens {
      ResumeFirst(s3, Act(t, false), []);
      var u := s3.(down := CloseConn(s3.down, Some(c)));
      assert u.down == after.down;
      ReturnForgets(after, u, t, Down, k, false);
      run := [Act(t, false)];
    } else {
      var s4 := Goto(s3, t, Install(Down, k, c));
      var s5 := Goto(s4, t, SpawnRecv(k, c)).(down := InstallOn(s3.down, c), cancel := Some(c));
      assert s5.down == after.down;
      assert Next(s4, Act(t, true)) == s5;
      ReturnForgets(after, Spawn(s5, Recv(c)), t, Down, k, true);
      ResumeFirst(s5, Act(t, true), []);
      Step(s4, t, true, [Act(t, true)]);
      Step(s3, t, true, [Act(t, true)] + [Act(t, true)]);
      run := [Act(t, true)] + ([Act(t, true)] + [Act(t, true)]);
    }
  }

  lemma DialDownRuns(s: State, s2: State, t: nat, k: Caller, a: Attempt) returns (run: seq<Action>)
    requires !s.closed && t < |s.threads|
    requires s2 == Goto(s, t, Dial(Down, k)).(cancelled := s.cancelled + AsSet(s.cancel))
    ensures Resume(s2, run) == Return(DownDone(s, a), t, Down, k, Works(FieldsOf(s), a))
  {
    var now := s.(cancelled := s.cancelled + AsSet(s.cancel));
    if !a.dials {
      ResumeFirst(s2, Act(t, false), []);
      ReturnForgets(now, s2, t, Down, k, false);
      run := [Act(t, false)];
    } else {
      var c := |s.down.fates|;
      var s3 := Goto(s2, t, Open(Down, k, c)).(down := s.down.(fates := s.down.fates + [Held(t)]));
      assert Next(s2, Act(t, true)) == s3;
      var rest := OpenDownRuns(s, s3, t, k, a);
      run := [Act(t, true)] + rest;
      Step(s2, t, true, rest);
    }
  }

  /** reopenDownstream; on success a recvLoop for the new stream is started. */
  lemma ReopenDownRuns(s: State, t: nat, k: Caller, a: Attempt) returns (run: seq<Action>)
    requires Stands(s, t, Entry(Down, k))
    ensures Resume(s, run) == Return(DownDone(s, a), t, Down, k, Works(FieldsOf(s), a))
  {
    if s.closed {
      ResumeFirst(s, Act(t, true), []);
      run := [Act(t, true)];
    } else {
      var s1 := Goto(s, t, CancelPrev(k, s.cancel));
      var s2 := Goto(s1, t, Dial(Down, k)).(cancelled := s.cancelled + AsSet(s.cancel));
      var rest := DialDownRuns(s, s2, t, k, a);
      Step(s1, t, true, rest);
      run := [Act(t, true)] + ([Act(t, true)] + rest);
      Step(s, t, true, [Act(t, true)] + rest);
    }
  }

  /** Connect leaves reconnectLoop behind, at its select. */
  lemma ConnectRuns(s: State, t: nat, up: Attempt, down: Attempt) returns (run: seq<Action>)
    requires Stands(s, t, Entry(Up, FromConnect))
    ensures var s' := Resume(s, run);
            && FieldsOf(s') == DownReopened(UpReopened(FieldsOf(s), up), down)
            && Stands(s', t, Finished) && Stands(s', |s'.threads| - 1, LoopSelect)
            && (Works(UpReopened(FieldsOf(s), up), down) ==> Stands(s', |s.threads|, Recv(|s.down.fates|)))
            && s'.sendMu == s.sendMu && OthersStay(s, s', t)
  {
    var first := ReopenUpRuns(s, t, FromConnect, up);
    var s1 := Resume(s, first);
    var second := ReopenDownRuns(s1, t, FromConnect, down);
    run := first + second;
    ResumeMore(s, first, second);
  }

  /** A tick of reconnectLoop, of a client that is not closed. */
  lemma TickRuns(s: State, t: nat, up: Attempt, down: Attempt) returns (run: seq<Action>)
    requires Stands(s, t, LoopSelect) && !s.closed
    ensures var s' := Resume(s, run);
            && FieldsOf(s') == AfterTick(FieldsOf(s), up, down) && Stands(s', t, LoopSelect)
            && (s.down.stream.None? && Works(FieldsOf(s), down) ==> Stands(s', |s.threads|, Recv(|s.down.fates|)))
            && s'.sendMu == s.sendMu && OthersStay(s, s', t)
  {
    var s1 := Next(s, Act(t, true));
    ResumeFirst(s, Act(t, true), []);
    run := [Act(t, true)];
    if s.up.stream.None? {
      var more := ReopenUpRuns(s1, t, FromLoop(s.down.stream.None?), up);
      ResumeMore(s, run, more);
      run := run + more;
    }
    if s.down.stream.None? {
      var s2 := Resume(s, run);
      var more := ReopenDownRuns(s2, t, FromLoop(false), down);
      ResumeMore(s, run, more);
      run := run + more;
    }
  }

  lemma SendCallRuns(s: State, s1: State, t: nat, ok: bool, second: Attempt) returns (run: seq<Action>)
    requires t < |s.threads| && s.sendMu.None? && s.up.stream.Some?
    requires s1 == s.(sendMu := Some(t), threads := s.threads[t := Thread(SendCall(s.up.stream), [], None)])
    ensures var s' := Resume(s1, run);
            && FieldsOf(s') == (if ok then FieldsOf(s) else UpReopened(FieldsOf(s), second)) && s'.sendMu.None?
            && s'.threads == s.threads[t := Thread(Finished, [ok], Some(ok))]
  {
    ResumeFirst(s1, Act(t, ok), []);
    assert s1.threads[t].sends + [ok] == [ok];
    run := [Act(t, ok)];
    if !ok {
      var s2 := Next(s1, Act(t, false));
      assert s2.threads == s.threads[t := Thread(Entry(Up, AfterFailedSend), [false], None)];
      var more := ReopenUpRuns(s2, t, AfterFailedSend, second);
      ResumeMore(s1, run, more);
      run := run + more;
    }
  }

  /** The current stream is on a connection dialled last, newer than any before. */
  predicate HasNewStream(before: Half, after: Half) {
    && after.stream == after.conn == Some(|after.fates| - 1) && |after.fates| > |before.fates|
    && after.fates[|after.fates| - 1] == Installed
  }

  lemma FailedSendRenews(f: Fields, first: Attempt, second: Attempt)
    requires Reaches(f, first) && Works(f, second)
    ensures HasNewStream(f.up, AfterSendUp(f, first, false, second).up)
  {
  }

  /** s' is s after goroutine t has made a whole sendUpstream call. */
  predicate SentAs(s: State, s': State, t: nat, first: Attempt, ok: bool, second: Attempt)
    requires t < |s.threads|
  {
    var f := FieldsOf(s);
    && FieldsOf(s') == AfterSendUp(f, first, ok, second) && s'.sendMu.None?
    && s'.threads == s.threads[t := Thread(Finished, if Reaches(f, first) then [ok] else [],
                                           Some(Reaches(f, first) && ok))]
  }

  // sendUpstream under sendMu, with a stream.
  lemma SendNow(s: State, s1: State, t: nat, ok: bool, second: Attempt) returns (run: seq<Action>)
    requires Stands(s, t, SendLock) && s.sendMu.None? && s.threads[t] == Thread(SendLock, [], None)
    requires s1 == Goto(s, t, SendRead).(sendMu := Some(t)) && s.up.stream.Some?
    ensures SentAs(s, Resume(s1, run), t, Attempt(false, false), ok, second)
  {
    var s2 := Goto(s1, t, SendCall(s.up.stream));
    ResumeFirst(s1, Act(t, true), []);
    run := [Act(t, true)];
    assert s2.threads == s.threads[t := Thread(SendCall(s.up.stream), [], None)];
    var more := SendCallRuns(s, s2, t, ok, second);
    ResumeMore(s1, run, more);
    run := run + more;
  }

  // And without one.
  lemma OpenAndSend(s: State, s1: State, t: nat, first: Attempt, ok: bool, second: Attempt) returns (run: seq<Action>)
    requires Stands(s, t, SendLock) && s.sendMu.None? && s.threads[t] == Thread(SendLock, [], None)
    requires s1 == Goto(s, t, SendRead).(sendMu := Some(t)) && s.up.stream.None?
    ensures SentAs(s, Resume(s1, run), t, first, ok, second)
  {
    var s2 := Goto(s1, t, Entry(Up, FirstSend));
    ResumeFirst(s1, Act(t, true), []);
    var opening := ReopenUpRuns(s2, t, FirstSend, first);
    run := [Act(t, true)] + opening;
    Step(s1, t, true, opening);
    if Works(FieldsOf(s), first) {
      var after := s.(up := UpReopened(FieldsOf(s), first).up);
      var s3 := Resume(s1, run);
      assert s3 == Goto(s2.(up := after.up), t, SendReread);
      var s4 := Goto(s3, t, SendCall(after.up.stream));
      assert s4.threads == after.threads[t := Thread(SendCall(after.up.stream), [], None)];
      var more := SendCallRuns(after, s4, t, ok, second);
      Step(s3, t, true, more);
      ResumeMore(s1, run, [Act(t, true)] + more);
      run := run + ([Act(t, true)] + more);
    }
  }

  /** sendUpstream, when sendMu is free. */
  lemma SendRuns(s: State, t: nat, first: Attempt, ok: bool, second: Attempt) returns (run: seq<Action>)
    requires Stands(s, t, SendLock) && s.sendMu.None? && s.threads[t] == Thread(SendLock, [], None)
    ensures SentAs(s, Resume(s, run), t, first, ok, second)
    ensures Reaches(FieldsOf(s), first) && !ok && !s.closed && second.dials && second.opens
        ==> HasNewStream(s.up, Resume(s, run).up)
  {
    if Reaches(FieldsOf(s), first) && Works(FieldsOf(s), second) {
      FailedSendRenews(FieldsOf(s), first, second);
    }
    var s1 := Goto(s, t, SendRead).(sendMu := Some(t));
    ResumeFirst(s, Act(t, true), []);
    assert Next(s, Act(t, true)) == s1;
    run := [Act(t, true)];
    var more;
    if s.up.stream.Some? {
      more := SendNow(s, s1, t, ok, second);
    } else {
      more := OpenAndSend(s, s1, t, first, ok, second);
    }
    ResumeMore(s, run, more);
    run := run + more;
  }

  // ---------------------------------------------------------------------------
  // Calls, one after the other
  // ---------------------------------------------------------------------------

  /** The run goes on from run to run', and leaves nobody in the middle of a send. */
  ghost predicate Extends(run: seq<Action>, run': seq<Action>, t: nat) {
    run <= run' && Exec(run').sendMu.None? && OthersStay(Exec(run), Exec(run'), t)
  }

  lemma WholeConnect(s: State, up: Attempt, down: Attempt) returns (all: seq<Action>, loop: nat)
    ensures var s' := Resume(s, all);
            && FieldsOf(s') == DownReopened(UpReopened(FieldsOf(s), up), down)
            && Stands(s', loop, LoopSelect) && s'.sendMu == s.sendMu && OthersStay(s, s', |s.threads|)
            && (Works(UpReopened(FieldsOf(s), up), down) ==> Stands(s', |s.threads| + 1, Recv(|s.down.fates|)))
  {
    var s1 := Next(s, CallConnect);
    var more := ConnectRuns(s1, |s.threads|, up, down);
    ResumeFirst(s, CallConnect, more);
    all := [CallConnect] + more;
    loop := |Resume(s, all).threads| - 1;
  }

  lemma CallingConnect(run: seq<Action>, up: Attempt, down: Attempt) returns (run': seq<Action>, loop: nat)
    requires Exec(run).sendMu.None?
    ensures Extends(run, run', |Exec(run).threads|) && Stands(Exec(run'), loop, LoopSelect)
    ensures Works(UpReopened(FieldsOf(Exec(run)), up), down)
        ==> Stands(Exec(run'), |Exec(run).threads| + 1, Recv(|Exec(run).down.fates|))
    ensures FieldsOf(Exec(run')) == DownReopened(UpReopened(FieldsOf(Exec(run)), up), down)
  {
    var all;
    all, loop := WholeConnect(Exec(run), up, down);
    ResumeIsExec(run, all);
    run' := run + all;
  }

  /** Goroutine t is a sendUpstream call that has returned, nil iff ok. */
  predicate Returned(s: State, t: nat, ok: bool) {
    t < |s.threads| && s.threads[t].pc == Finished && s.threads[t].result == Some(ok)
  }

  lemma WholeSend(s: State, first: Attempt, ok: bool, second: Attempt) returns (all: seq<Action>)
    requires s.sendMu.None?
    ensures var s', f := Resume(s, all), FieldsOf(s);
            && FieldsOf(s') == AfterSendUp(f, first, ok, second) && s'.sendMu.None? && OthersStay(s, s', |s.threads|)
            && Returned(s', |s.threads|, Reaches(f, first) && ok)
            && (Reaches(f, first) && !ok && Works(f, second) ==> HasNewStream(s.up, s'.up))
  {
    var more := SendRuns(Next(s, CallSend), |s.threads|, first, ok, second);
    ResumeFirst(s, CallSend, more);
    all := [CallSend] + more;
  }

  lemma CallingSend(run: seq<Action>, first: Attempt, ok: bool, second: Attempt) returns (run': seq<Action>)
    requires Exec(run).sendMu.None?
    ensures Extends(run, run', |Exec(run).threads|)
    ensures FieldsOf(Exec(run')) == AfterSendUp(FieldsOf(Exec(run)), first, ok, second)
    ensures Returned(Exec(run'), |Exec(run).threads|, Reaches(FieldsOf(Exec(run)), first) && ok)
    ensures Reaches(FieldsOf(Exec(run)), first) && !ok && !Exec(run).closed && second.dials && second.opens
        ==> HasNewStream(Exec(run).up, Exec(run').up)
  {
    var all := WholeSend(Exec(run), first, ok, second);
    ResumeIsExec(run, all);
    run' := run + all;
  }

  lemma CallingClose(run: seq<Action>) returns (run': seq<Action>)
    requires Exec(run).sendMu.None?
    ensures Extends(run, run', |Exec(run).threads|) && FieldsOf(Exec(run')) == Shut(FieldsOf(Exec(run)))
  {
    OneMore(run, CallClose);
    var called := run + [CallClose];
    OneMore(called, Act(|Exec(run).threads|, true));
    run' := called + [Act(|Exec(run).threads|, true)];
  }

  /** A tick of the reconnectLoop that is goroutine l; a closed client ends it. */
  lemma Ticking(run: seq<Action>, l: nat, up: Attempt, down: Attempt) returns (run': seq<Action>)
    requires Exec(run).sendMu.None? && Stands(Exec(run), l, LoopSelect)
    ensures Extends(run, run', l) && Stands(Exec(run'), l, if Exec(run).closed then Finished else LoopSelect)
    ensures var f := FieldsOf(Exec(run));
            && FieldsOf(Exec(run')) == (if f.closed then f else AfterTick(f, up, down))
            && (f.down.stream.None? && Works(f, down)
                ==> Stands(Exec(run'), |Exec(run).threads|, Recv(|f.down.fates|)))
  {
    if Exec(run).closed {
      OneMore(run, Act(l, true));
      run' := run + [Act(l, true)];
    } else {
      var more := TickRuns(Exec(run), l, up, down);
      ResumeIsExec(run, more);
      run' := run + more;
    }
  }

  /** The recvLoop that is goroutine r reads until Recv fails. */
  lemma Receiving(run: seq<Action>, r: nat, x: nat) returns (run': seq<Action>)
    requires Exec(run).sendMu.None? && Stands(Exec(run), r, Recv(x))
    ensures Extends(run, run', r) && Stands(Exec(run'), r, Finished)
    ensures FieldsOf(Exec(run')) == FieldsOf(Exec(run)).(down := ClearOn(Exec(run).down, x))
  {
    OneMore(run, Act(r, false));
    var failed := run + [Act(r, false)];
    OneMore(failed, Act(r, true));
    run' := failed + [Act(r, true)];
  }
}
