/** The client side of the two connections to the parent, as a state machine over
    all its goroutines: callers of Connect, SendUpstream and Close, the
    reconnectLoop and the recvLoops. A step of a goroutine is one region under mu,
    one dial, one stream open, one Send, one Recv, or one go statement. */
module ClientMachine {
  import opened Wrappers

  datatype Side = Up | Down

  // What has become of a connection that was dialled: it is held by the
  // goroutine reopening that side, it is installed and open, or it is closed.
  datatype Fate = Held(holder: nat) | Installed | Closed

  // One side's fields, and the fate of each connection dialled for it so far.
  // Connections are numbered as dialled; a stream is named by its connection.
  datatype Half = Half(conn: Option<nat>, stream: Option<nat>, fates: seq<Fate>)

  // Who called reopenUpstream or reopenDownstream.
  datatype Caller = FromConnect | FromLoop(needsDown: bool) | FirstSend | AfterFailedSend

  datatype Pc =
    // reopenUpstream, reopenDownstream
    | Entry(side: Side, caller: Caller)
    | CancelPrev(caller: Caller, prev: Option<nat>)
    | Dial(side: Side, caller: Caller)
    | Open(side: Side, caller: Caller, conn: nat)
    | Install(side: Side, caller: Caller, conn: nat)
    | SpawnRecv(caller: Caller, stream: nat)
    // reconnectLoop, at its select
    | LoopSelect
    // sendUpstream
    | SendLock
    | SendRead
    | SendReread
    | SendCall(target: Option<nat>)
    // recvLoop
    | Recv(stream: nat)
    | RecvFailed(stream: nat)
    // Close
    | CloseLock
    | Finished

  // sends and result are history: how each stream.Send of a sendUpstream call
  // ended, and whether the call returned nil.
  datatype Thread = Thread(pc: Pc, sends: seq<bool>, result: Option<bool>)

  datatype State = State(
    closed: bool,
    up: Half,
    down: Half,
    cancel: Option<nat>,   // downstreamCancel, by the stream it cancels
    cancelled: set<nat>,   // downstream streams whose context is cancelled
    dead: set<nat>,        // downstream streams whose Recv has failed
    sendMu: Option<nat>,
    threads: seq<Thread>)

  const NOTHING := Half(None, None, [])
  const INITIAL := State(false, NOTHING, NOTHING, None, {}, {}, None, [])

  datatype Action = CallConnect | CallSend | CallClose | Act(tid: nat, ok: bool)

  function CallerOf(pc: Pc): Option<Caller> {
    match pc
    case Entry(_, k) => Some(k)
    case CancelPrev(k, _) => Some(k)
    case Dial(_, k) => Some(k)
    case Open(_, k, _) => Some(k)
    case Install(_, k, _) => Some(k)
    case SpawnRecv(k, _) => Some(k)
    case _ => None
  }

  function SideOf(pc: Pc): Side {
    match pc
    case Entry(sd, _) => sd
    case Dial(sd, _) => sd
    case Open(sd, _, _) => sd
    case Install(sd, _, _) => sd
    case _ => Down
  }

  function Of(s: State, side: Side): Half {
    if side.Up? then s.up else s.down
  }

  function With(s: State, side: Side, h: Half): State {
    if side.Up? then s.(up := h) else s.(down := h)
  }

  function Spawn(s: State, pc: Pc): State {
    s.(threads := s.threads + [Thread(pc, [], None)])
  }

  function Goto(s: State, t: nat, pc: Pc): State
    requires t < |s.threads|
  {
    s.(threads := s.threads[t := s.threads[t].(pc := pc)])
  }

  /** The end of a sendUpstream call: sendMu is released. */
  function ReturnFromSend(s: State, t: nat, sends: seq<bool>, ok: bool): State
    requires t < |s.threads|
  {
    s.(threads := s.threads[t := Thread(Finished, sends, Some(ok))], sendMu := None)
  }

  /** Where a goroutine goes on after its reopen of a side returned. */
  function Return(s: State, t: nat, side: Side, caller: Caller, ok: bool): State
    requires t < |s.threads|
  {
    match caller
    case FromConnect =>
      if side.Up? then Goto(s, t, Entry(Down, FromConnect)) else Spawn(Goto(s, t, Finished), LoopSelect)
    case FromLoop(needsDown) =>
      Goto(s, t, if side.Up? && needsDown then Entry(Down, FromLoop(false)) else LoopSelect)
    case FirstSend =>
      if ok then Goto(s, t, SendReread) else ReturnFromSend(s, t, s.threads[t].sends, false)
    case AfterFailedSend =>
      ReturnFromSend(s, t, s.threads[t].sends, false)
  }

  function CloseConn(h: Half, c: Option<nat>): Half {
    if c.Some? && c.value < |h.fates| then h.(fates := h.fates[c.value := Closed]) else h
  }

  /** The region that installs a freshly opened stream, closing the connection it
      replaces. It does not look at closed. */
  function InstallOn(h: Half, c: nat): Half {
    var h1 := CloseConn(h, h.conn);
    h1.(conn := Some(c), stream := Some(c), fates := if c < |h1.fates| then h1.fates[c := Installed] else h1.fates)
  }

  /** The region of recvLoop after an error: only its own stream is cleared. */
  function ClearOn(h: Half, x: nat): Half {
    if h.stream == Some(x) then h.(stream := None) else h
  }

  function AsSet(c: Option<nat>): set<nat> {
    if c.Some? then {c.value} else {}
  }

  function StepReopen(s: State, t: nat, ok: bool): State
    requires t < |s.threads|
  {
    match s.threads[t].pc
    case Entry(side, caller) =>
      if s.closed then Return(s, t, side, caller, false)
      else Goto(s, t, if side.Up? then Dial(Up, caller) else CancelPrev(caller, s.cancel))
    case CancelPrev(caller, prev) =>
      Goto(s, t, Dial(Down, caller)).(cancelled := s.cancelled + AsSet(prev))
    case Dial(side, caller) =>
      if !ok then Return(s, t, side, caller, false) else
      var h := Of(s, side);
      With(Goto(s, t, Open(side, caller, |h.fates|)), side, h.(fates := h.fates + [Held(t)]))
    case Open(side, caller, c) =>
      if ok then Goto(s, t, Install(side, caller, c))
      else Return(With(s, side, CloseConn(Of(s, side), Some(c))), t, side, caller, false)
    case Install(side, caller, c) =>
      var s1 := With(s, side, InstallOn(Of(s, side), c));
      if side.Up? then Return(s1, t, Up, caller, true)
      else Goto(s1, t, SpawnRecv(caller, c)).(cancel := Some(c))
    case SpawnRecv(caller, x) =>
      Return(Spawn(s, Recv(x)), t, Down, caller, true)
    case _ => s
  }

  function StepOther(s: State, t: nat, ok: bool): State
    requires t < |s.threads|
  {
    match s.threads[t].pc
    case LoopSelect =>
      var needsDown := s.down.stream.None?;
      Goto(s, t, if !ok || s.closed then Finished
                 else if s.up.stream.None? then Entry(Up, FromLoop(needsDown))
                 else if needsDown then Entry(Down, FromLoop(false))
                 else LoopSelect)
    case SendLock =>
      if s.sendMu.Some? then s else Goto(s, t, SendRead).(sendMu := Some(t))
    case SendRead =>
      Goto(s, t, if s.up.stream.None? then Entry(Up, FirstSend) else SendCall(s.up.stream))
    case SendReread =>
      Goto(s, t, SendCall(s.up.stream))
    case SendCall(_) =>
      var sends := s.threads[t].sends + [ok];
      if ok then ReturnFromSend(s, t, sends, true)
      else s.(threads := s.threads[t := s.threads[t].(pc := Entry(Up, AfterFailedSend), sends := sends)])
    case Recv(x) =>
      if ok then s else Goto(s, t, RecvFailed(x)).(dead := s.dead + {x})
    case RecvFailed(x) =>
      Goto(s, t, Finished).(down := ClearOn(s.down, x))
    case CloseLock =>
      Goto(s, t, Finished).(closed := true, cancelled := s.cancelled + AsSet(s.cancel),
                            up := CloseConn(s.up, s.up.conn), down := CloseConn(s.down, s.down.conn))
    case _ => s
  }

  predicate Reopening(pc: Pc) {
    pc.Entry? || pc.CancelPrev? || pc.Dial? || pc.Open? || pc.Install? || pc.SpawnRecv?
  }

  function Next(s: State, a: Action): State {
    match a
    case CallConnect => Spawn(s, Entry(Up, FromConnect))
    case CallSend => Spawn(s, SendLock)
    case CallClose => Spawn(s, CloseLock)
    case Act(t, ok) =>
      if t >= |s.threads| then s
      else if Reopening(s.threads[t].pc) then StepReopen(s, t, ok) else StepOther(s, t, ok)
  }

  function Exec(run: seq<Action>): State {
    if run == [] then INITIAL else Next(Exec(run[..|run| - 1]), run[|run| - 1])
  }

  lemma OneMore(run: seq<Action>, a: Action)
    ensures Exec(run + [a]) == Next(Exec(run), a)
  {
    assert (run + [a])[..|run|] == run;
  }

  /** The state after further actions. */
  function Resume(s: State, more: seq<Action>): State
    decreases |more|
  {
    if more == [] then s else Resume(Next(s, more[0]), more[1..])
  }

  lemma {:induction false} ResumeIsExec(run: seq<Action>, more: seq<Action>)
    ensures Resume(Exec(run), more) == Exec(run + more)
    decreases |more|
  {
    if more == [] {
      assert run + more == run;
    } else {
      var longer := run + [more[0]];
      assert longer + more[1..] == run + more;
      OneMore(run, more[0]);
      ResumeIsExec(longer, more[1..]);
    }
  }

  lemma {:induction false} ResumeMore(s: State, first: seq<Action>, second: seq<Action>)
    ensures Resume(s, first + second) == Resume(Resume(s, first), second)
    decreases |first|
  {
    if first == [] {
      assert first + second == second;
    } else {
      ResumeMore(Next(s, first[0]), first[1..], second);
      assert (first + second)[1..] == first[1..] + second;
    }
  }

  lemma ResumeFirst(s: State, a: Action, rest: seq<Action>)
    ensures Resume(s, [a] + rest) == Resume(Next(s, a), rest)
    ensures Resume(s, [a]) == Next(s, a)
  {
    assert ([a] + rest)[1..] == rest;
    assert [a][1..] == [];
  }
}
