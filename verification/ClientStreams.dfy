/** The downstream stream and the recvLoops that read from it. */
module ClientStreams {
  import opened Wrappers
  import opened ClientMachine

  /** The downstream stream a goroutine is opening, about to read, or reading. */
  function Minds(pc: Pc): Option<nat> {
    match pc
    case Open(sd, _, c) => if sd.Down? then Some(c) else None
    case Install(sd, _, c) => if sd.Down? then Some(c) else None
    case SpawnRecv(_, x) => Some(x)
    case Recv(x) => Some(x)
    case RecvFailed(x) => Some(x)
    case _ => None
  }

  /** Its recvLoop is running, or the go statement is next. */
  predicate Serves(pc: Pc, x: nat) {
    pc == Recv(x) || pc == RecvFailed(x) || (pc.SpawnRecv? && pc.stream == x)
  }

  ghost predicate Served(s: State, x: nat) {
    exists t :: 0 <= t < |s.threads| && Serves(s.threads[t].pc, x)
  }

  ghost predicate MindsKnown(s: State, t: nat)
    requires t < |s.threads|
  {
    && (Minds(s.threads[t].pc).Some? ==> Minds(s.threads[t].pc).value < |s.down.fates|)
    && (s.threads[t].pc.RecvFailed? ==> s.threads[t].pc.stream in s.dead)
    && (s.threads[t].pc.CancelPrev? && s.threads[t].pc.prev.Some? ==> s.threads[t].pc.prev.value < |s.down.fates|)
  }

  ghost predicate MindsOwn(s: State, t: nat, u: nat)
    requires t < |s.threads| && u < |s.threads|
  {
    t != u && Minds(s.threads[t].pc).Some? ==> Minds(s.threads[t].pc) != Minds(s.threads[u].pc)
  }

  ghost predicate StreamInv(s: State) {
    && (forall t :: 0 <= t < |s.threads| ==> MindsKnown(s, t))
    && (forall t, u :: 0 <= t < |s.threads| && 0 <= u < |s.threads| ==> MindsOwn(s, t, u))
    && (s.down.stream.Some? ==> Served(s, s.down.stream.value))
    && (forall x :: x in s.dead || x in s.cancelled ==> x < |s.down.fates|)
    && (s.cancel.Some? ==> s.cancel.value < |s.down.fates|)
  }

  // A step of goroutine t that touches no stream and no recvLoop: t keeps the
  // stream it minds, drops it, or opens a new one.
  ghost predicate Neutral(s: State, s': State, t: nat)
    requires t < |s.threads| <= |s'.threads|
  {
    var pc, pc' := s.threads[t].pc, s'.threads[t].pc;
    && (forall u :: 0 <= u < |s.threads| && u != t ==> s'.threads[u].pc == s.threads[u].pc)
    && (forall u :: |s.threads| <= u < |s'.threads| ==> s'.threads[u].pc == LoopSelect)
    && |s.down.fates| <= |s'.down.fates|
    && (|| Minds(pc') == None || Minds(pc') == Minds(pc)
        || (Minds(pc') == Some(|s.down.fates|) && |s.down.fates| < |s'.down.fates|))
    && (pc' == pc || !(pc.SpawnRecv? || pc.Recv? || pc.RecvFailed?))
    && (pc' == pc || !(pc'.SpawnRecv? || pc'.Recv? || pc'.RecvFailed?))
    && (pc'.CancelPrev? ==> pc' == pc || pc'.prev == s.cancel)
    && s'.down.stream == s.down.stream && s'.dead == s.dead && s'.cancel == s.cancel
    && s'.cancelled <= s.cancelled + AsSet(s.cancel) + (if pc.CancelPrev? then AsSet(pc.prev) else {})
  }

  lemma NeutralKeeps(s: State, s': State, t: nat)
    requires StreamInv(s) && t < |s.threads| <= |s'.threads| && Neutral(s, s', t)
    ensures StreamInv(s')
  {
    assert MindsKnown(s, t);
    forall u | 0 <= u < |s'.threads|
      ensures MindsKnown(s', u)
    {
      assert u < |s.threads| ==> MindsKnown(s, u);
    }
    forall u, v | 0 <= u < |s'.threads| && 0 <= v < |s'.threads|
      ensures MindsOwn(s', u, v)
    {
      assert u < |s.threads| ==> MindsKnown(s, u) && MindsOwn(s, t, u);
      assert v < |s.threads| ==> MindsKnown(s, v) && MindsOwn(s, t, v);
      assert u < |s.threads| && v < |s.threads| ==> MindsOwn(s, u, v);
    }
    if s'.down.stream.Some? {
      var u :| 0 <= u < |s.threads| && Serves(s.threads[u].pc, s.down.stream.value);
      assert Serves(s'.threads[u].pc, s.down.stream.value);
    }
  }

  lemma ReturnIsNeutral(s: State, t: nat, side: Side, k: Caller, ok: bool)
    requires t < |s.threads|
    ensures var s' := Return(s, t, side, k, ok);
            && s'.down == s.down && s'.dead == s.dead && s'.cancelled == s.cancelled && s'.cancel == s.cancel
            && |s.threads| <= |s'.threads|
            && (forall u :: 0 <= u < |s.threads| && u != t ==> s'.threads[u] == s.threads[u])
            && (forall u :: |s.threads| <= u < |s'.threads| ==> s'.threads[u].pc == LoopSelect)
            && s'.threads[t].pc
               in {Entry(Down, FromConnect), Entry(Down, FromLoop(false)), Finished, LoopSelect, SendReread}
  {
  }

  lemma ReopenStepsNeutral(s: State, t: nat, ok: bool)
    requires t < |s.threads| && (s.threads[t].pc.Entry? || s.threads[t].pc.CancelPrev? || s.threads[t].pc.Dial?)
    ensures var s' := StepReopen(s, t, ok); |s.threads| <= |s'.threads| && Neutral(s, s', t)
  {
    match s.threads[t].pc
    case Entry(side, k) => ReturnIsNeutral(s, t, side, k, false);
    case CancelPrev(_, _) =>
    case Dial(side, k) => ReturnIsNeutral(s, t, side, k, false);
  }

  lemma OpenStepsNeutral(s: State, t: nat, ok: bool)
    requires t < |s.threads|
    requires s.threads[t].pc.Open? || (s.threads[t].pc.Install? && s.threads[t].pc.side.Up?)
    ensures var s' := StepReopen(s, t, ok); |s.threads| <= |s'.threads| && Neutral(s, s', t)
  {
    match s.threads[t].pc
    case Open(side, k, c) => ReturnIsNeutral(With(s, side, CloseConn(Of(s, side), Some(c))), t, side, k, false);
    case Install(side, k, c) => ReturnIsNeutral(With(s, Up, InstallOn(Of(s, Up), c)), t, Up, k, true);
  }

  lemma SendStepsNeutral(s: State, t: nat, ok: bool)
    requires t < |s.threads|
    requires s.threads[t].pc in {SendLock, SendRead, SendReread} || s.threads[t].pc.SendCall?
    ensures var s' := StepOther(s, t, ok); |s.threads| <= |s'.threads| && Neutral(s, s', t)
  {
    assert |StepOther(s, t, ok).threads| == |s.threads|;
  }

  lemma OtherStepsNeutral(s: State, t: nat, ok: bool)
    requires t < |s.threads| && s.threads[t].pc in {LoopSelect, CloseLock, Finished}
    ensures var s' := StepOther(s, t, ok); |s.threads| <= |s'.threads| && Neutral(s, s', t)
  {
    assert |StepOther(s, t, ok).threads| == |s.threads|;
  }

  // The downstream install: goroutine t's new stream becomes the current one.
  lemma InstallKeeps(s: State, t: nat, ok: bool)
    requires StreamInv(s) && t < |s.threads| && s.threads[t].pc.Install? && s.threads[t].pc.side.Down?
    ensures StreamInv(StepReopen(s, t, ok))
  {
    var s' := StepReopen(s, t, ok);
    assert MindsKnown(s, t);
    forall u | 0 <= u < |s'.threads|
      ensures MindsKnown(s', u)
    {
      assert MindsKnown(s, u);
    }
    forall u, v | 0 <= u < |s'.threads| && 0 <= v < |s'.threads|
      ensures MindsOwn(s', u, v)
    {
      assert MindsOwn(s, u, v);
    }
    assert Serves(s'.threads[t].pc, s.threads[t].pc.conn);
  }

  // Goroutine t leaves the stream it minds to a new one, its recvLoop.
  ghost predicate HandsOver(s: State, s': State, t: nat, x: nat)
    requires t < |s.threads|
  {
    var n := |s.threads|;
    && Minds(s.threads[t].pc) == Some(x) && n < |s'.threads| && s'.threads[n].pc == Recv(x)
    && Minds(s'.threads[t].pc).None? && !s'.threads[t].pc.CancelPrev?
    && (forall u :: 0 <= u < n && u != t ==> s'.threads[u].pc == s.threads[u].pc)
    && (forall u :: n < u < |s'.threads| ==> s'.threads[u].pc == LoopSelect)
    && s'.down == s.down && s'.dead == s.dead && s'.cancelled == s.cancelled && s'.cancel == s.cancel
  }

  lemma HandingOverKeeps(s: State, s': State, t: nat, x: nat)
    requires StreamInv(s) && t < |s.threads| && HandsOver(s, s', t, x)
    ensures StreamInv(s')
  {
    var n := |s.threads|;
    assert MindsKnown(s, t);
    forall u | 0 <= u < |s'.threads|
      ensures MindsKnown(s', u)
    {
      assert u < n ==> MindsKnown(s, u);
    }
    forall u, v | 0 <= u < |s'.threads| && 0 <= v < |s'.threads|
      ensures MindsOwn(s', u, v)
    {
      assert u < n ==> MindsOwn(s, t, u) && MindsOwn(s, u, t);
      assert v < n ==> MindsOwn(s, t, v) && MindsOwn(s, v, t);
      assert u < n && v < n ==> MindsOwn(s, u, v);
    }
    if s'.down.stream.Some? {
      var y := s.down.stream.value;
      var u :| 0 <= u < n && Serves(s.threads[u].pc, y);
      assert Serves(s'.threads[if u == t then n else u].pc, y);
    }
  }

  // The go statement: the new recvLoop takes the stream over.
  lemma SpawnRecvKeeps(s: State, t: nat, ok: bool)
    requires StreamInv(s) && t < |s.threads| && s.threads[t].pc.SpawnRecv?
    ensures StreamInv(StepReopen(s, t, ok))
  {
    var x := s.threads[t].pc.stream;
    ReturnIsNeutral(Spawn(s, Recv(x)), t, Down, s.threads[t].pc.caller, true);
    HandingOverKeeps(s, StepReopen(s, t, ok), t, x);
  }

  // A recvLoop, goroutine t, goes on to pc' with the stream it minds, or is done.
  ghost predicate ReadsOn(s: State, s': State, t: nat)
    requires t < |s.threads| == |s'.threads|
  {
    var pc' := s'.threads[t].pc;
    && s'.threads == s.threads[t := s.threads[t].(pc := pc')]
    && (pc' == Finished || Minds(pc') == Minds(s.threads[t].pc)) && !pc'.CancelPrev?
    && (pc'.RecvFailed? ==> pc'.stream in s'.dead)
    && s.dead <= s'.dead && (forall x :: x in s'.dead ==> x in s.dead || Minds(s.threads[t].pc) == Some(x))
    && s'.down.fates == s.down.fates && s'.cancelled == s.cancelled && s'.cancel == s.cancel
    && (s'.down.stream.Some? ==> s'.down.stream == s.down.stream)
    && (s'.down.stream.Some? && Serves(s.threads[t].pc, s'.down.stream.value) ==> Serves(pc', s'.down.stream.value))
  }

  lemma ReadingOnKeeps(s: State, s': State, t: nat)
    requires StreamInv(s) && t < |s.threads| == |s'.threads| && ReadsOn(s, s', t)
    ensures StreamInv(s')
  {
    assert MindsKnown(s, t);
    forall u | 0 <= u < |s'.threads|
      ensures MindsKnown(s', u)
    {
      assert MindsKnown(s, u);
    }
    forall u, v | 0 <= u < |s'.threads| && 0 <= v < |s'.threads|
      ensures MindsOwn(s', u, v)
    {
      assert MindsOwn(s, u, v);
    }
    if s'.down.stream.Some? {
      var y := s.down.stream.value;
      var u :| 0 <= u < |s.threads| && Serves(s.threads[u].pc, y);
      assert Serves(s'.threads[u].pc, y);
    }
  }

  // Recv fails, or the recvLoop clears its own stream.
  lemma RecvKeeps(s: State, t: nat, ok: bool)
    requires StreamInv(s) && t < |s.threads| && (s.threads[t].pc.Recv? || s.threads[t].pc.RecvFailed?)
    ensures StreamInv(StepOther(s, t, ok))
  {
    var s' := StepOther(s, t, ok);
    if s' != s {
      ReadingOnKeeps(s, s', t);
    }
  }

  lemma SpawnKeepsStreamInv(s: State, a: Action)
    requires StreamInv(s) && !a.Act?
    ensures StreamInv(Next(s, a))
  {
    var s' := Next(s, a);
    forall u | 0 <= u < |s'.threads|
      ensures MindsKnown(s', u)
    {
      assert u < |s.threads| ==> MindsKnown(s, u);
    }
    forall u, v | 0 <= u < |s'.threads| && 0 <= v < |s'.threads|
      ensures MindsOwn(s', u, v)
    {
      assert u < |s.threads| && v < |s.threads| ==> MindsOwn(s, u, v);
    }
    if s'.down.stream.Some? {
      var u :| 0 <= u < |s.threads| && Serves(s.threads[u].pc, s.down.stream.value);
      assert Serves(s'.threads[u].pc, s.down.stream.value);
    }
  }

  lemma NextKeepsStreamInv(s: State, a: Action)
    requires StreamInv(s)
    ensures StreamInv(Next(s, a))
  {
    if !a.Act? {
      SpawnKeepsStreamInv(s, a);
    } else if a.tid < |s.threads| {
      var t, ok := a.tid, a.ok;
      var pc := s.threads[t].pc;
      if pc.Install? && pc.side.Down? {
        InstallKeeps(s, t, ok);
      } else if pc.SpawnRecv? {
        SpawnRecvKeeps(s, t, ok);
      } else if pc.Recv? || pc.RecvFailed? {
        RecvKeeps(s, t, ok);
      } else {
        if pc.Install? || pc.Open? {
          OpenStepsNeutral(s, t, ok);
        } else if Reopening(pc) {
          ReopenStepsNeutral(s, t, ok);
        } else if pc in {LoopSelect, CloseLock, Finished} {
          OtherStepsNeutral(s, t, ok);
        } else {
          SendStepsNeutral(s, t, ok);
        }
        NeutralKeeps(s, Next(s, a), t);
      }
    }
  }

  lemma {:induction false} RunKeepsStreamInv(run: seq<Action>)
    ensures StreamInv(Exec(run))
  {
    if run != [] {
      RunKeepsStreamInv(run[..|run| - 1]);
      NextKeepsStreamInv(Exec(run[..|run| - 1]), run[|run| - 1]);
    }
  }

  /** While downstreamStream is not nil there is exactly one recvLoop for exactly
      that stream, running or about to be started. */
  lemma CurrentStreamIsServed(run: seq<Action>) returns (t: nat)
    requires Exec(run).down.stream.Some?
    ensures var s := Exec(run);
            && t < |s.threads| && Serves(s.threads[t].pc, s.down.stream.value)
            && forall u :: 0 <= u < |s.threads| && Serves(s.threads[u].pc, s.down.stream.value) ==> u == t
  {
    var s := Exec(run);
    RunKeepsStreamInv(run);
    t :| t < |s.threads| && Serves(s.threads[t].pc, s.down.stream.value);
    forall u | 0 <= u < |s.threads| && Serves(s.threads[u].pc, s.down.stream.value)
      ensures u == t
    {
      assert MindsOwn(s, t, u);
    }
  }

  lemma KeepsStream(s: State, t: nat, ok: bool)
    requires t < |s.threads| && Reopening(s.threads[t].pc) && !s.threads[t].pc.Install?
    ensures StepReopen(s, t, ok).down.stream == s.down.stream
  {
  }

  /** A current stream is given up only by the recvLoop of that very stream, after
      its Recv failed, or to a stream being installed. */
  lemma NoStaleClobber(run: seq<Action>, a: Action, x: nat)
    requires Exec(run).down.stream == Some(x) && Next(Exec(run), a).down.stream != Some(x)
    ensures var s, s' := Exec(run), Next(Exec(run), a);
            && a.Act? && a.tid < |s.threads|
            && var pc := s.threads[a.tid].pc;
               if s'.down.stream.None? then pc == RecvFailed(x) && x in s.dead
               else pc.Install? && pc.side.Down? && s'.down.stream == Some(pc.conn)
  {
    var s := Exec(run);
    RunKeepsStreamInv(run);
    assert a.Act? && a.tid < |s.threads|;
    assert MindsKnown(s, a.tid);
    if Reopening(s.threads[a.tid].pc) && !s.threads[a.tid].pc.Install? {
      KeepsStream(s, a.tid, a.ok);
    }
  }

  // ---------------------------------------------------------------------------
  // A dead stream does not stay
  // ---------------------------------------------------------------------------

  // The recvLoop of x notices and clears it.
  lemma RecvLoopClears(s: State, t: nat, x: nat, l: nat) returns (more: seq<Action>)
    requires t < |s.threads| && (s.threads[t].pc == Recv(x) || s.threads[t].pc == RecvFailed(x))
    requires s.down.stream == Some(x) && l < |s.threads| && s.threads[l].pc == LoopSelect
    ensures var s' := Resume(s, more);
            && s'.down.stream == None && s'.closed == s.closed
            && l < |s'.threads| && s'.threads[l].pc == LoopSelect
  {
    more := [Act(t, true)];
    if s.threads[t].pc == Recv(x) {
      var s1 := Next(s, Act(t, false));
      ResumeFirst(s1, Act(t, true), []);
      ResumeFirst(s, Act(t, false), more);
      more := [Act(t, false)] + more;
    } else {
      ResumeFirst(s, Act(t, true), []);
    }
  }

  lemma DeadStreamIsCleared(s: State, t: nat, x: nat, l: nat) returns (more: seq<Action>)
    requires t < |s.threads| && Serves(s.threads[t].pc, x)
    requires s.down.stream == Some(x) && l < |s.threads| && s.threads[l].pc == LoopSelect
    ensures var s' := Resume(s, more);
            && s'.down.stream == None && s'.closed == s.closed
            && l < |s'.threads| && s'.threads[l].pc == LoopSelect
  {
    if s.threads[t].pc.SpawnRecv? {
      var s1 := Next(s, Act(t, true));
      ReturnIsNeutral(Spawn(s, Recv(x)), t, Down, s.threads[t].pc.caller, true);
      assert s1.threads[|s.threads|].pc == Recv(x) && s1.threads[l].pc == LoopSelect;
      KeepsStream(s, t, true);
      var rest := RecvLoopClears(s1, |s.threads|, x, l);
      more := [Act(t, true)] + rest;
      ResumeFirst(s, Act(t, true), rest);
    } else {
      more := RecvLoopClears(s, t, x, l);
    }
  }

  lemma LoopDials(s: State, l: nat) returns (more: seq<Action>)
    requires l < |s.threads| && s.threads[l].pc == Dial(Down, FromLoop(false))
    ensures var s', c := Resume(s, more), |s.down.fates|;
            && s'.down.stream == Some(c) && Served(s', c)
            && s'.dead == s.dead && s'.cancelled == s.cancelled
  {
    var k, c, go := FromLoop(false), |s.down.fates|, Act(l, true);
    var s1 := Next(s, go);
    var s2 := Next(s1, go);
    assert s2.threads[l].pc == Install(Down, k, c);
    var s3 := Next(s2, go);
    assert s3.threads[l].pc == SpawnRecv(k, c) && s3.down.stream == Some(c);
    ResumeFirst(s2, go, []);
    ResumeFirst(s1, go, [go]);
    ResumeFirst(s, go, [go] + [go]);
    more := [go] + ([go] + [go]);
    assert Resume(s, more) == s3 && Serves(s3.threads[l].pc, c);
  }

  // The reconnectLoop, about to reopen downstream, succeeds at every step.
  lemma LoopReopensDown(s: State, l: nat) returns (more: seq<Action>)
    requires !s.closed && l < |s.threads| && s.threads[l].pc == Entry(Down, FromLoop(false))
    ensures var s', c := Resume(s, more), |s.down.fates|;
            && s'.down.stream == Some(c) && Served(s', c)
            && s'.dead == s.dead && s'.cancelled == s.cancelled + AsSet(s.cancel)
  {
    var k, c, go := FromLoop(false), |s.down.fates|, Act(l, true);
    var s1 := Next(s, go);
    var s2 := Next(s1, go);
    assert s2.threads[l].pc == Dial(Down, k) && s2.down == s.down && s2.dead == s.dead;
    assert s2.cancelled == s.cancelled + AsSet(s.cancel);
    more := LoopDials(s2, l);
    ResumeFirst(s1, go, more);
    ResumeFirst(s, go, [go] + more);
    more := [go] + ([go] + more);
  }

  // The reconnectLoop ticks and gets to reopening downstream.
  lemma LoopTicks(s: State, l: nat) returns (more: seq<Action>)
    requires !s.closed && s.down.stream == None && l < |s.threads| && s.threads[l].pc == LoopSelect
    ensures var s' := Resume(s, more);
            && !s'.closed && l < |s'.threads| && s'.threads[l].pc == Entry(Down, FromLoop(false))
            && s'.down == s.down && s'.dead == s.dead && s'.cancelled == s.cancelled && s'.cancel == s.cancel
  {
    var go := Act(l, true);
    var s1 := Next(s, go);
    ResumeFirst(s, go, []);
    more := [go];
    if s.up.stream == None {
      var s2 := Next(s1, go);
      assert s2.threads[l].pc == Dial(Up, FromLoop(true));
      var s3 := Next(s2, Act(l, false));
      ResumeFirst(s2, Act(l, false), []);
      ResumeFirst(s1, go, [Act(l, false)]);
      ResumeFirst(s, go, [go] + [Act(l, false)]);
      more := [go] + ([go] + [Act(l, false)]);
    }
  }

  lemma ReopenGrowsFates(s: State, t: nat, ok: bool)
    requires t < |s.threads| && Reopening(s.threads[t].pc)
    ensures |StepReopen(s, t, ok).down.fates| >= |s.down.fates|
  {
  }

  lemma FatesGrow(s: State, a: Action)
    ensures |Next(s, a).down.fates| >= |s.down.fates|
  {
    if a.Act? && a.tid < |s.threads| && Reopening(s.threads[a.tid].pc) {
      ReopenGrowsFates(s, a.tid, a.ok);
    }
  }

  lemma {:induction false} ResumeKeeps(s: State, more: seq<Action>)
    requires StreamInv(s)
    ensures StreamInv(Resume(s, more)) && |Resume(s, more).down.fates| >= |s.down.fates|
    decreases |more|
  {
    if more != [] {
      NextKeepsStreamInv(s, more[0]);
      FatesGrow(s, more[0]);
      ResumeKeeps(Next(s, more[0]), more[1..]);
    }
  }

  // Streams dialled from now on are neither dead nor cancelled.
  ghost predicate Live(s: State, x: nat) {
    s.down.stream == Some(x) && Served(s, x) && x !in s.dead && x !in s.cancelled
  }

  lemma TickAndReopen(s: State, l: nat) returns (more: seq<Action>)
    requires StreamInv(s) && !s.closed && s.down.stream == None
    requires l < |s.threads| && s.threads[l].pc == LoopSelect
    ensures Live(Resume(s, more), |s.down.fates|)
  {
    var first := LoopTicks(s, l);
    var second := LoopReopensDown(Resume(s, first), l);
    more := first + second;
    ResumeMore(s, first, second);
  }

  lemma Recover(s: State, l: nat) returns (more: seq<Action>, y: nat)
    requires StreamInv(s) && !s.closed && l < |s.threads| && s.threads[l].pc == LoopSelect
    ensures Live(Resume(s, more), y) && y >= |s.down.fates|
  {
    if s.down.stream == None {
      more := TickAndReopen(s, l);
      y := |s.down.fates|;
    } else {
      var t: nat :| t < |s.threads| && Serves(s.threads[t].pc, s.down.stream.value);
      var first := DeadStreamIsCleared(s, t, s.down.stream.value, l);
      ResumeKeeps(s, first);
      var rest := TickAndReopen(Resume(s, first), l);
      y := |Resume(s, first).down.fates|;
      more := first + rest;
      ResumeMore(s, first, rest);
    }
  }

  /** Goroutines that are reconnectLoop, or the Connect that will start it. */
  predicate Reconnecting(pc: Pc) {
    || pc.LoopSelect?
    || match CallerOf(pc) case Some(k) => k.FromConnect? || k.FromLoop? case None => false
  }

  // Steps left to the select, when everything fails that can.
  function StepsLeft(pc: Pc): nat {
    match pc
    case Entry(sd, _) => if sd.Up? then 11 else 7
    case Dial(sd, _) => if sd.Up? then 10 else 4
    case Open(sd, _, _) => if sd.Up? then 9 else 3
    case Install(sd, _, _) => if sd.Up? then 8 else 2
    case CancelPrev(_, _) => 5
    case SpawnRecv(_, _) => 1
    case _ => 0
  }

  lemma OneStepToSelect(s: State, l: nat) returns (l': nat)
    requires !s.closed && l < |s.threads| && Reconnecting(s.threads[l].pc) && !s.threads[l].pc.LoopSelect?
    ensures var s' := Next(s, Act(l, false));
            && !s'.closed && l' < |s'.threads| && Reconnecting(s'.threads[l'].pc)
            && StepsLeft(s'.threads[l'].pc) < StepsLeft(s.threads[l].pc)
  {
    var s' := Next(s, Act(l, false));
    l' := if s'.threads[l].pc.Finished? then |s'.threads| - 1 else l;
  }

  lemma {:induction false} ReachSelect(s: State, l: nat) returns (more: seq<Action>, l': nat)
    requires !s.closed && l < |s.threads| && Reconnecting(s.threads[l].pc)
    ensures var s' := Resume(s, more);
            !s'.closed && l' < |s'.threads| && s'.threads[l'].pc == LoopSelect
    decreases StepsLeft(s.threads[l].pc)
  {
    more, l' := [], l;
    if !s.threads[l].pc.LoopSelect? {
      var l1 := OneStepToSelect(s, l);
      more, l' := ReachSelect(Next(s, Act(l, false)), l1);
      ResumeFirst(s, Act(l, false), more);
      more := [Act(l, false)] + more;
    }
  }

  /** From every reachable state in which the client is not closed and reconnectLoop,
      or the Connect that starts it, is anywhere in its course, there is a
      continuation that leaves the current downstream stream behind, dead or not,
      and ends with a live one that was dialled later and has its recvLoop. */
  lemma DownstreamCanRecover(run: seq<Action>, l: nat) returns (more: seq<Action>, y: nat)
    requires !Exec(run).closed && l < |Exec(run).threads| && Reconnecting(Exec(run).threads[l].pc)
    ensures Live(Exec(run + more), y) && y >= |Exec(run).down.fates|
  {
    RunKeepsStreamInv(run);
    var first, l' := ReachSelect(Exec(run), l);
    ResumeKeeps(Exec(run), first);
    var rest;
    rest, y := Recover(Resume(Exec(run), first), l');
    more := first + rest;
    ResumeMore(Exec(run), first, rest);
    ResumeIsExec(run, more);
  }
}
