/** Upstream store-and-forward over a whole tree of nodes, as one state machine.

    An event is one call of SendUp; events are numbered in call order. At every
    moment each event's envelope is held somewhere: by a goroutine, in a pending
    queue, in the batch a retryLoop has drained, on a link, or in one of the
    places it never leaves. Each action is one atomic step of one goroutine; an
    action whose guard fails changes nothing, so every sequence of actions is an
    interleaving. */
module Upstream {
  import opened Topology
  import opened Tokens

  datatype Place =
    | Arrived      // held by the goroutine that received or made it, handlers not run
    | Forwarding   // handlers run, SendUpstream not yet answered
    | Failed       // SendUpstream returned an error, push still to come
    | Pending      // in pendingQueue.items
    | Batch        // drained by retryLoop, not yet attempted
    | Refailed     // retryLoop's attempt failed, push still to come
    | Wire         // accepted by stream.Send, not yet received by the parent
    | Lost         // was on a stream that died
    | Abandoned    // left in the batch when retryLoop returned
    | Absorbed     // at a node without a parent

  datatype Spot = Spot(node: nat, place: Place)

  // Where a node's retryLoop goroutine stands.
  datatype Loop = Idle | Trying | Repushing | Pacing | Exited

  /** pool, loop and cancelled are the running system; the rest is history:
      origins[e] is where event e was sent, homes[e] where its envelope is now,
      hops[e] how many links it has crossed, ran[n] the events node n has run its
      handlers for, and sentOk[n] those a SendUpstream call of n succeeded for. */
  datatype State = State(
    pool: map<Spot, seq<nat>>,
    loop: map<nat, Loop>,
    cancelled: set<nat>,
    origins: seq<nat>,
    homes: map<nat, Spot>,
    hops: seq<nat>,
    ran: map<nat, seq<nat>>,
    sentOk: map<nat, seq<nat>>)

  const INITIAL := State(map[], map[], {}, [], map[], [], map[], map[])

  datatype Action =
    | SendUp(n: nat)
    | RunHandlers(n: nat, i: nat)
    | Absorb(n: nat, i: nat)
    | SendOk(n: nat, i: nat)
    | SendErr(n: nat, i: nat)
    | Push(n: nat, i: nat)
    | Drain(n: nat)
    | RetryOk(n: nat)
    | RetryErr(n: nat)
    | Repush(n: nat)
    | Pace(n: nat)
    | Cancel(n: nat)
    | Quit(n: nat)
    | Deliver(n: nat, i: nat)
    | Lose(n: nat, i: nat)

  function Held(s: State, n: nat, p: Place): seq<nat> {
    At(s.pool, Spot(n, p))
  }

  function LoopOf(s: State, n: nat): Loop {
    if n in s.loop then s.loop[n] else Idle
  }

  function Shift(s: State, p: Spot, i: nat, q: Spot): State
    requires i < |At(s.pool, p)| && p != q
  {
    s.(pool := Move(s.pool, p, i, q), homes := s.homes[At(s.pool, p)[i] := q])
  }

  function PourAll(s: State, p: Spot, q: Spot): State
    requires p != q
  {
    s.(pool := Pour(s.pool, p, q),
       homes := map e | e in s.homes :: if s.homes[e] == p then q else s.homes[e])
  }

  /** One action. Nodes without a parent have no client and no retryLoop. */
  function Next(t: Tree, s: State, a: Action): State {
    if a.n >= |t| then s else
    match a
    case SendUp(n) =>
      var e := |s.origins|;
      s.(pool := Put(s.pool, Spot(n, Arrived), e), homes := s.homes[e := Spot(n, Arrived)],
         origins := s.origins + [n], hops := s.hops + [0])
    case RunHandlers(n, i) =>
      if i >= |Held(s, n, Arrived)| then s else
      Shift(s, Spot(n, Arrived), i, Spot(n, Forwarding)).(ran := Put(s.ran, n, Held(s, n, Arrived)[i]))
    case Absorb(n, i) =>
      if i >= |Held(s, n, Forwarding)| || t[n].Some? then s else
      Shift(s, Spot(n, Forwarding), i, Spot(n, Absorbed))
    case SendOk(n, i) =>
      if i >= |Held(s, n, Forwarding)| || t[n].None? then s else
      Shift(s, Spot(n, Forwarding), i, Spot(n, Wire))
        .(sentOk := Put(s.sentOk, n, Held(s, n, Forwarding)[i]))
    case SendErr(n, i) =>
      if i >= |Held(s, n, Forwarding)| || t[n].None? then s else
      Shift(s, Spot(n, Forwarding), i, Spot(n, Failed))
    case Push(n, i) =>
      if i >= |Held(s, n, Failed)| then s else
      Shift(s, Spot(n, Failed), i, Spot(n, Pending))
    case Drain(n) =>
      if LoopOf(s, n) != Idle || t[n].None? || Held(s, n, Pending) == [] then s else
      PourAll(s, Spot(n, Pending), Spot(n, Batch)).(loop := s.loop[n := Trying])
    case RetryOk(n) =>
      if LoopOf(s, n) != Trying || t[n].None? || Held(s, n, Batch) == [] then s else
      Shift(s, Spot(n, Batch), 0, Spot(n, Wire))
        .(sentOk := Put(s.sentOk, n, Held(s, n, Batch)[0]), loop := s.loop[n := Pacing])
    case RetryErr(n) =>
      if LoopOf(s, n) != Trying || Held(s, n, Batch) == [] then s else
      Shift(s, Spot(n, Batch), 0, Spot(n, Refailed)).(loop := s.loop[n := Repushing])
    case Repush(n) =>
      if LoopOf(s, n) != Repushing || Held(s, n, Refailed) == [] then s else
      Shift(s, Spot(n, Refailed), 0, Spot(n, Pending)).(loop := s.loop[n := Pacing])
    case Pace(n) =>
      if LoopOf(s, n) != Pacing then s else
      s.(loop := s.loop[n := if Held(s, n, Batch) == [] then Idle else Trying])
    case Cancel(n) =>
      s.(cancelled := s.cancelled + {n})
    case Quit(n) =>
      if n !in s.cancelled || (LoopOf(s, n) != Idle && LoopOf(s, n) != Pacing) then s else
      PourAll(s, Spot(n, Batch), Spot(n, Abandoned)).(loop := s.loop[n := Exited])
    case Deliver(n, i) =>
      if i >= |Held(s, n, Wire)| || t[n].None? then s else
      var e := Held(s, n, Wire)[i];
      Shift(s, Spot(n, Wire), i, Spot(t[n].value, Arrived))
        .(hops := if e < |s.hops| then s.hops[e := s.hops[e] + 1] else s.hops)
    case Lose(n, i) =>
      if i >= |Held(s, n, Wire)| then s else
      Shift(s, Spot(n, Wire), i, Spot(n, Lost))
  }

  /** The state after any run: actions from the initial state. */
  function Exec(t: Tree, run: seq<Action>): State {
    if run == [] then INITIAL else Next(t, Exec(t, run[..|run| - 1]), run[|run| - 1])
  }

  // ---------------------------------------------------------------------------
  // The frontier: where each event is, and whose handlers have seen it
  // ---------------------------------------------------------------------------

  /** How many nodes of its path have run their handlers for event e. */
  ghost function Reached(s: State, e: nat): nat
    requires e in s.homes && e < |s.hops|
  {
    s.hops[e] + if s.homes[e].place == Arrived then 0 else 1
  }

  /** The places only a node with a parent uses. */
  predicate NeedsParent(p: Place) {
    match p
    case Arrived | Forwarding | Absorbed => false
    case _ => true
  }

  ghost predicate OnPath(t: Tree, s: State, e: nat)
    requires e < |s.origins|
  {
    && e in s.homes && e < |s.hops| && s.origins[e] < |t|
    && s.hops[e] < |Path(t, s.origins[e])|
    && s.homes[e].node == Path(t, s.origins[e])[s.hops[e]]
    && s.homes[e].node < |t|
    && (s.homes[e].place == Absorbed ==> t[s.homes[e].node].None?)
    && (NeedsParent(s.homes[e].place) ==> t[s.homes[e].node].Some?)
  }

  ghost predicate RanWhereItPassed(t: Tree, s: State, n: nat, e: nat) {
    multiset(At(s.ran, n))[e]
    == if e < |s.origins| && OnPath(t, s, e) && n in Path(t, s.origins[e])[..Reached(s, e)] then 1 else 0
  }

  ghost predicate Inv(t: Tree, s: State) {
    && Located(s.pool, s.homes)
    && |s.hops| == |s.origins|
    && (forall e :: e in s.homes ==> e < |s.origins|)
    && (forall e :: 0 <= e < |s.origins| ==> OnPath(t, s, e))
    && (forall n: nat, e: nat :: RanWhereItPassed(t, s, n, e))
  }

  // A step within one node that leaves the handler log alone.
  lemma ShiftKeepsInv(t: Tree, s: State, n: nat, p: Place, i: nat, q: Place)
    requires Inv(t, s) && i < |Held(s, n, p)| && p != q && p != Arrived && q != Arrived && n < |t|
    requires if q == Absorbed then t[n].None? else NeedsParent(p) || t[n].Some?
    ensures Inv(t, Shift(s, Spot(n, p), i, Spot(n, q)))
  {
    var s' := Shift(s, Spot(n, p), i, Spot(n, q));
    MoveKeepsLocated(s.pool, s.homes, Spot(n, p), i, Spot(n, q));
    forall e | 0 <= e < |s.origins|
      ensures OnPath(t, s', e) && Reached(s', e) == Reached(s, e)
    {
      assert OnPath(t, s, e);
    }
    forall m: nat, e: nat
      ensures RanWhereItPassed(t, s', m, e)
    {
      assert RanWhereItPassed(t, s, m, e);
    }
  }

  lemma PourKeepsInv(t: Tree, s: State, n: nat, p: Place, q: Place)
    requires Inv(t, s) && p != q && NeedsParent(p) && NeedsParent(q)
    ensures Inv(t, PourAll(s, Spot(n, p), Spot(n, q)))
  {
    var s' := PourAll(s, Spot(n, p), Spot(n, q));
    PourKeepsLocated(s.pool, s.homes, Spot(n, p), Spot(n, q));
    assert s'.homes == Rehome(s.homes, Spot(n, p), Spot(n, q));
    forall e | 0 <= e < |s.origins|
      ensures OnPath(t, s', e) && Reached(s', e) == Reached(s, e)
    {
      assert OnPath(t, s, e);
    }
    forall m: nat, e: nat
      ensures RanWhereItPassed(t, s', m, e)
    {
      assert RanWhereItPassed(t, s, m, e);
    }
  }

  lemma SendUpKeepsInv(t: Tree, s: State, n: nat)
    requires Inv(t, s) && n < |t|
    ensures Inv(t, Next(t, s, SendUp(n)))
  {
    var s' := Next(t, s, SendUp(n));
    var e: nat := |s.origins|;
    PutKeepsLocated(s.pool, s.homes, Spot(n, Arrived), e);
    forall x | 0 <= x < |s'.origins|
      ensures OnPath(t, s', x) && Reached(s', x) == if x == e then 0 else Reached(s, x)
    {
      assert x < e ==> OnPath(t, s, x);
    }
    forall m: nat, x: nat
      ensures RanWhereItPassed(t, s', m, x)
    {
      assert RanWhereItPassed(t, s, m, x);
    }
  }

  // The envelope that handlers run for is taken one node further on its path.
  lemma RunHandlersReaches(t: Tree, s: State, n: nat, i: nat, x: nat)
    requires Inv(t, s) && n < |t| && i < |Held(s, n, Arrived)| && x < |s.origins|
    ensures var s', e := Next(t, s, RunHandlers(n, i)), Held(s, n, Arrived)[i];
            OnPath(t, s, x) && OnPath(t, s', x) && Reached(s', x) == Reached(s, x) + if x == e then 1 else 0
  {
    assert OnPath(t, s, x);
    HeldMeansHome(s.pool, s.homes, Spot(n, Arrived), i);
  }

  // That node, n, has not run its handlers for it before.
  lemma RunHandlersIsFirst(t: Tree, s: State, n: nat, e: nat)
    requires e < |s.origins| && OnPath(t, s, e) && s.homes[e] == Spot(n, Arrived)
    ensures var path, k := Path(t, s.origins[e]), s.hops[e];
            n !in path[..k] && path[..k + 1] == path[..k] + [n]
  {
    PathDescends(t, s.origins[e]);
  }

  lemma RunHandlersCounts(t: Tree, s: State, n: nat, i: nat, m: nat, x: nat)
    requires Inv(t, s) && n < |t| && i < |Held(s, n, Arrived)|
    ensures RanWhereItPassed(t, Next(t, s, RunHandlers(n, i)), m, x)
  {
    var e := Held(s, n, Arrived)[i];
    assert RanWhereItPassed(t, s, m, x);
    PutCounts(s.ran, n, e, m, x);
    HeldMeansHome(s.pool, s.homes, Spot(n, Arrived), i);
    if x < |s.origins| {
      RunHandlersReaches(t, s, n, i, x);
      if x == e {
        RunHandlersIsFirst(t, s, n, e);
      }
    }
  }

  lemma RunHandlersKeepsInv(t: Tree, s: State, n: nat, i: nat)
    requires Inv(t, s) && n < |t| && i < |Held(s, n, Arrived)|
    ensures Inv(t, Next(t, s, RunHandlers(n, i)))
  {
    var s', e := Next(t, s, RunHandlers(n, i)), Held(s, n, Arrived)[i];
    MoveKeepsLocated(s.pool, s.homes, Spot(n, Arrived), i, Spot(n, Forwarding));
    forall x: nat | x < |s.origins|
      ensures OnPath(t, s', x)
    {
      RunHandlersReaches(t, s, n, i, x);
    }
    forall m: nat, x: nat
      ensures RanWhereItPassed(t, s', m, x)
    {
      RunHandlersCounts(t, s, n, i, m, x);
    }
  }

  lemma DeliverKeepsInv(t: Tree, s: State, n: nat, i: nat)
    requires Inv(t, s) && n < |t| && t[n].Some? && i < |Held(s, n, Wire)|
    ensures Inv(t, Next(t, s, Deliver(n, i)))
  {
    var s', e := Next(t, s, Deliver(n, i)), Held(s, n, Wire)[i];
    MoveKeepsLocated(s.pool, s.homes, Spot(n, Wire), i, Spot(t[n].value, Arrived));
    assert OnPath(t, s, e);
    PathClimbs(t, s.origins[e], s.hops[e]);
    forall x | 0 <= x < |s.origins|
      ensures OnPath(t, s', x) && Reached(s', x) == Reached(s, x)
    {
      assert OnPath(t, s, x);
    }
    forall m: nat, x: nat
      ensures RanWhereItPassed(t, s', m, x)
    {
      assert RanWhereItPassed(t, s, m, x);
    }
  }

  lemma LoopChangeKeepsInv(t: Tree, s: State, loop: map<nat, Loop>, cancelled: set<nat>, sentOk: map<nat, seq<nat>>)
    requires Inv(t, s)
    ensures Inv(t, s.(loop := loop, cancelled := cancelled, sentOk := sentOk))
  {
    var s' := s.(loop := loop, cancelled := cancelled, sentOk := sentOk);
    forall e | 0 <= e < |s.origins|
      ensures OnPath(t, s', e) && Reached(s', e) == Reached(s, e)
    {
      assert OnPath(t, s, e);
    }
    forall m: nat, x: nat
      ensures RanWhereItPassed(t, s', m, x)
    {
      assert RanWhereItPassed(t, s, m, x);
    }
  }

  lemma NextKeepsInv(t: Tree, s: State, a: Action)
    requires Inv(t, s)
    ensures Inv(t, Next(t, s, a))
  {
    var s', n := Next(t, s, a), a.n;
    if n < |t| && s' != s {
      match a
      case SendUp(_) => SendUpKeepsInv(t, s, n);
      case RunHandlers(_, i) => RunHandlersKeepsInv(t, s, n, i);
      case Absorb(_, i) => ShiftKeepsInv(t, s, n, Forwarding, i, Absorbed);
      case SendOk(_, i) => ShiftKeepsInv(t, s, n, Forwarding, i, Wire);
        LoopChangeKeepsInv(t, Shift(s, Spot(n, Forwarding), i, Spot(n, Wire)), s'.loop, s'.cancelled, s'.sentOk);
      case SendErr(_, i) => ShiftKeepsInv(t, s, n, Forwarding, i, Failed);
      case Push(_, i) => ShiftKeepsInv(t, s, n, Failed, i, Pending);
      case Drain(_) => PourKeepsInv(t, s, n, Pending, Batch);
        LoopChangeKeepsInv(t, PourAll(s, Spot(n, Pending), Spot(n, Batch)), s'.loop, s'.cancelled, s'.sentOk);
      case RetryOk(_) => ShiftKeepsInv(t, s, n, Batch, 0, Wire);
        LoopChangeKeepsInv(t, Shift(s, Spot(n, Batch), 0, Spot(n, Wire)), s'.loop, s'.cancelled, s'.sentOk);
      case RetryErr(_) => ShiftKeepsInv(t, s, n, Batch, 0, Refailed);
        LoopChangeKeepsInv(t, Shift(s, Spot(n, Batch), 0, Spot(n, Refailed)), s'.loop, s'.cancelled, s'.sentOk);
      case Repush(_) => ShiftKeepsInv(t, s, n, Refailed, 0, Pending);
        LoopChangeKeepsInv(t, Shift(s, Spot(n, Refailed), 0, Spot(n, Pending)), s'.loop, s'.cancelled, s'.sentOk);
      case Pace(_) => LoopChangeKeepsInv(t, s, s'.loop, s'.cancelled, s'.sentOk);
      case Cancel(_) => LoopChangeKeepsInv(t, s, s'.loop, s'.cancelled, s'.sentOk);
      case Quit(_) => PourKeepsInv(t, s, n, Batch, Abandoned);
        LoopChangeKeepsInv(t, PourAll(s, Spot(n, Batch), Spot(n, Abandoned)), s'.loop, s'.cancelled, s'.sentOk);
      case Deliver(_, i) => DeliverKeepsInv(t, s, n, i);
      case Lose(_, i) => ShiftKeepsInv(t, s, n, Wire, i, Lost);
    }
  }

  lemma {:induction false} RunKeepsInv(t: Tree, run: seq<Action>)
    ensures Inv(t, Exec(t, run))
  {
    if run == [] {
      assert forall p: Spot, e: nat :: Count(INITIAL.pool, p, e) == 0;
      assert forall n: nat, e: nat :: RanWhereItPassed(t, INITIAL, n, e);
    } else {
      RunKeepsInv(t, run[..|run| - 1]);
      NextKeepsInv(t, Exec(t, run[..|run| - 1]), run[|run| - 1]);
    }
  }

  /** In every reachable state each event has one copy, at a spot on its way up
      from its origin, and the nodes that have run their handlers for it are
      exactly those from the origin up to that spot, once each. */
  lemma Frontier(t: Tree, run: seq<Action>, e: nat) returns (spot: Spot, hop: nat)
    requires e < |Exec(t, run).origins|
    ensures var s := Exec(t, run);
            && s.origins[e] < |t|
            && hop < |Path(t, s.origins[e])| && spot.node == Path(t, s.origins[e])[hop]
            && Count(s.pool, spot, e) == 1
            && (forall q :: q != spot ==> e !in At(s.pool, q))
            && (forall n: nat :: multiset(At(s.ran, n))[e]
                 == if n in Path(t, s.origins[e])[..if spot.place == Arrived then hop else hop + 1] then 1 else 0)
  {
    var s := Exec(t, run);
    RunKeepsInv(t, run);
    assert OnPath(t, s, e);
    spot, hop := s.homes[e], s.hops[e];
    HomeMeansHeld(s.pool, s.homes, e);
    forall n: nat
      ensures multiset(At(s.ran, n))[e]
           == if n in Path(t, s.origins[e])[..if spot.place == Arrived then hop else hop + 1] then 1 else 0
    {
      assert RanWhereItPassed(t, s, n, e);
    }
  }

  /** No node ever runs its handlers twice for an event, and only the origin and
      its ancestors run them at all. */
  lemma AtMostOnce(t: Tree, run: seq<Action>, e: nat, n: nat)
    requires e < |Exec(t, run).origins|
    ensures multiset(At(Exec(t, run).ran, n))[e] <= 1
    ensures e in At(Exec(t, run).ran, n) ==> Under(t, n, Exec(t, run).origins[e])
  {
    var spot, hop := Frontier(t, run, e);
    assert e in At(Exec(t, run).ran, n) ==> e in multiset(At(Exec(t, run).ran, n));
  }

  /** An event absorbed at a root was handled once by every node of its path. */
  lemma AbsorbedWasSeenByAll(t: Tree, run: seq<Action>, e: nat, r: nat)
    requires e < |Exec(t, run).origins| && e in Held(Exec(t, run), r, Absorbed)
    ensures Exec(t, run).origins[e] < |t|
    ensures forall n: nat :: multiset(At(Exec(t, run).ran, n))[e]
              == if Under(t, n, Exec(t, run).origins[e]) then 1 else 0
  {
    var s := Exec(t, run);
    RunKeepsInv(t, run);
    var spot, hop := Frontier(t, run, e);
    assert spot == Spot(r, Absorbed);
    assert OnPath(t, s, e);
    HomeMeansHeld(s.pool, s.homes, e);
    PathClimbs(t, s.origins[e], hop);
    PathDescends(t, s.origins[e]);
    assert hop == s.hops[e];
    assert Path(t, s.origins[e])[..hop + 1] == Path(t, s.origins[e]);
  }
}
