/** Downstream propagation over a whole tree of nodes, as one state machine.

    An event is one call of SendDown or SendToChild. The envelope of an event goes
    to a node as a copy; a copy for node c passes through c's mailbox at its
    parent, the parent's Downstream handler, the stream, c's recvLoop, c's
    handlers and c's own broadcast. A node has at most one registration at its
    parent at a time. As upstream, an action whose guard fails changes nothing. */
module Downstream {
  import opened Wrappers
  import opened Channels
  import opened Topology
  import opened Tokens

  datatype Copy = Copy(event: nat, node: nat)

  datatype Place =
    | Box        // in the child's channel
    | Hand       // popped by the child's Downstream handler, stream.Send to come
    | Wire       // sent, not yet received
    | Received   // taken off the stream by the child's recvLoop
    | Handled    // the child has run its handlers
    | Casting    // the child is broadcasting it to its own children
    | Done       // and has finished
    | Dropped    // refused: the channel was full
    | Discarded  // refused: still in the channel or the handler's hand at disconnect
    | Lost       // refused: the stream died
    | Absent     // refused: the child was not registered

  datatype Spot = Spot(node: nat, place: Place)

  // A BroadcastDownstream holding the lock of a node: what it sends, the children
  // still to be offered it, and whether this is the node's own SendDown.
  datatype Cast = Cast(event: nat, todo: set<nat>, own: bool)

  // origins, targets, homes and ran are history. targets[e] is the child a
  // SendToChild named, None for a SendDown.
  datatype State = State(
    pool: map<Spot, seq<Copy>>,
    locks: map<nat, Cast>,
    registered: set<nat>,
    leaving: set<nat>,
    origins: seq<nat>,
    targets: seq<Option<nat>>,
    homes: map<Copy, Spot>,
    ran: map<nat, seq<nat>>)

  const INITIAL := State(map[], map[], {}, {}, [], [], map[], map[])

  datatype Action =
    | SendDown(n: nat)
    | SendToChild(n: nat, child: nat)
    | Offer(n: nat, child: nat)
    | EndCast(n: nat)
    | Register(n: nat)
    | Pop(n: nat)
    | SendOk(n: nat)
    | SendErr(n: nat)
    | CtxDone(n: nat)
    | Unregister(n: nat)
    | Lose(n: nat, i: nat)
    | Recv(n: nat, i: nat)
    | RunHandlers(n: nat, i: nat)
    | StartCast(n: nat, i: nat)

  function Held(s: State, n: nat, p: Place): seq<Copy> {
    At(s.pool, Spot(n, p))
  }

  function Shift(s: State, n: nat, p: Place, i: nat, q: Place): State
    requires i < |Held(s, n, p)| && p != q
  {
    s.(pool := Move(s.pool, Spot(n, p), i, Spot(n, q)), homes := s.homes[Held(s, n, p)[i] := Spot(n, q)])
  }

  /** Where an envelope offered to child c goes: into the channel if c is
      registered and the channel has room. */
  function Outcome(s: State, c: nat): Place {
    if c !in s.registered then Absent
    else if |Held(s, c, Box)| < CAPACITY then Box
    else Dropped
  }

  function OfferTo(s: State, e: nat, c: nat): State {
    var spot := Spot(c, Outcome(s, c));
    s.(pool := Put(s.pool, spot, Copy(e, c)), homes := s.homes[Copy(e, c) := spot])
  }

  function Next(t: Tree, s: State, a: Action): State {
    var n := a.n;
    if n >= |t| then s else
    match a
    case SendDown(_) =>
      if n in s.locks then s else
      s.(origins := s.origins + [n], targets := s.targets + [None],
         locks := s.locks[n := Cast(|s.origins|, Children(t, n), true)])
    case SendToChild(_, c) =>
      if n in s.locks || c !in Children(t, n) then s else
      OfferTo(s, |s.origins|, c).(origins := s.origins + [n], targets := s.targets + [Some(c)])
    case Offer(_, c) =>
      if n !in s.locks || c !in s.locks[n].todo then s else
      OfferTo(s, s.locks[n].event, c).(locks := s.locks[n := s.locks[n].(todo := s.locks[n].todo - {c})])
    case EndCast(_) =>
      if n !in s.locks || s.locks[n].todo != {} then s else
      var unlocked := s.(locks := s.locks - {n});
      if s.locks[n].own || Held(s, n, Casting) == [] then unlocked else Shift(unlocked, n, Casting, 0, Done)
    case Register(_) =>
      if n in s.registered || t[n].None? || t[n].value in s.locks then s else
      s.(registered := s.registered + {n})
    case Pop(_) =>
      if n !in s.registered || n in s.leaving || Held(s, n, Hand) != [] || Held(s, n, Box) == [] then s else
      Shift(s, n, Box, 0, Hand)
    case SendOk(_) =>
      if Held(s, n, Hand) == [] then s else Shift(s, n, Hand, 0, Wire)
    case SendErr(_) =>
      if Held(s, n, Hand) == [] then s else
      Shift(s, n, Hand, 0, Discarded).(leaving := s.leaving + {n})
    case CtxDone(_) =>
      if n !in s.registered || Held(s, n, Hand) != [] then s else s.(leaving := s.leaving + {n})
    case Unregister(_) =>
      if n !in s.leaving || t[n].None? || t[n].value in s.locks then s else
      s.(pool := Pour(s.pool, Spot(n, Box), Spot(n, Discarded)),
         homes := map k | k in s.homes :: if s.homes[k] == Spot(n, Box) then Spot(n, Discarded) else s.homes[k],
         registered := s.registered - {n}, leaving := s.leaving - {n})
    case Lose(_, i) =>
      if i >= |Held(s, n, Wire)| then s else Shift(s, n, Wire, i, Lost)
    case Recv(_, i) =>
      if i >= |Held(s, n, Wire)| then s else Shift(s, n, Wire, i, Received)
    case RunHandlers(_, i) =>
      if i >= |Held(s, n, Received)| then s else
      Shift(s, n, Received, i, Handled).(ran := Put(s.ran, n, Held(s, n, Received)[i].event))
    case StartCast(_, i) =>
      if i >= |Held(s, n, Handled)| || n in s.locks then s else
      Shift(s, n, Handled, i, Casting)
        .(locks := s.locks[n := Cast(Held(s, n, Handled)[i].event, Children(t, n), false)])
  }

  function Exec(t: Tree, run: seq<Action>): State {
    if run == [] then INITIAL else Next(t, Exec(t, run[..|run| - 1]), run[|run| - 1])
  }

  lemma OneMore(t: Tree, run: seq<Action>, a: Action)
    ensures Exec(t, run + [a]) == Next(t, Exec(t, run), a)
  {
    assert (run + [a])[..|run|] == run;
  }

  /** The state after further actions. */
  function Resume(t: Tree, s: State, more: seq<Action>): State
    decreases |more|
  {
    if more == [] then s else Resume(t, Next(t, s, more[0]), more[1..])
  }

  lemma {:induction false} ResumeIsExec(t: Tree, run: seq<Action>, more: seq<Action>)
    ensures Resume(t, Exec(t, run), more) == Exec(t, run + more)
    decreases |more|
  {
    if more == [] {
      assert run + more == run;
    } else {
      OneMore(t, run, more[0]);
      ResumeIsExec(t, run + [more[0]], more[1..]);
      assert run + [more[0]] + more[1..] == run + more;
    }
  }
}
