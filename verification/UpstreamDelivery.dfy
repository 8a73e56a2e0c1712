/** Which upstream envelopes can arrive when a done context ends a client's sends.

    The context of Start is also the one the client's streams are opened with, so at
    a node whose context is done no Send is to succeed any more. */
module UpstreamDelivery {
  import opened Topology
  import opened Tokens
  import opened Upstream
  import opened UpstreamConservation
  import opened UpstreamProgress

  // ---------------------------------------------------------------------------
  // What is in the way
  // ---------------------------------------------------------------------------

  /** The nodes that have yet to send, or keep, an envelope at this spot. */
  function Rest(t: Tree, q: Spot): seq<nat> {
    if q.node >= |t| then []
    else if q.place != Wire then Path(t, q.node)
    else if t[q.node].Some? then Path(t, t[q.node].value)
    else []
  }

  /** A node that has a parent, and a done context. */
  predicate CutOff(t: Tree, s: State, m: nat) {
    m < |t| && t[m].Some? && m in s.cancelled
  }

  ghost predicate BlockedAt(t: Tree, s: State, q: Spot) {
    q.place == Lost || exists m :: m in Rest(t, q) && CutOff(t, s, m)
  }

  /** Event e is lost, or a node it has yet to be sent from is cut off. */
  ghost predicate Blocked(t: Tree, s: State, e: nat) {
    exists q: Spot :: e in At(s.pool, q) && BlockedAt(t, s, q)
  }

  lemma BlockedAtHome(t: Tree, s: State, e: nat)
    requires Located(s.pool, s.homes) && e in s.homes
    ensures Blocked(t, s, e) <==> BlockedAt(t, s, s.homes[e])
  {
    HomeMeansHeld(s.pool, s.homes, e);
  }

  /** No send succeeds at a node whose context is done. */
  predicate Legal(s: State, a: Action) {
    a.SendOk? || a.RetryOk? ==> a.n !in s.cancelled
  }

  ghost predicate AllLegal(t: Tree, s: State, more: seq<Action>)
    decreases |more|
  {
    more == [] || (Legal(s, more[0]) && AllLegal(t, Next(t, s, more[0]), more[1..]))
  }

  // ---------------------------------------------------------------------------
  // What is blocked stays so
  // ---------------------------------------------------------------------------

  // One step of an envelope on its way: it stays at its node and off the link, is
  // lost on the link, is sent, or is delivered.
  ghost predicate MovesOn(t: Tree, s: State, a: Action, h: Spot, h': Spot) {
    || h' == h
    || (h'.node == h.node && h.place != Wire && h.place != Lost && h'.place != Wire && h'.place != Lost)
    || (h.place == Wire && h' == Spot(h.node, Lost) && a.Lose?)
    || (h' == Spot(h.node, Wire) && h.place != Wire && h.place != Lost && a.n == h.node && (a.SendOk? || a.RetryOk?))
    || (h.place == Wire && h.node < |t| && t[h.node].Some? && h' == Spot(t[h.node].value, Arrived))
  }

  lemma LoopMovesOn(t: Tree, s: State, a: Action, e: nat)
    requires Located(s.pool, s.homes) && e in s.homes && OfTheLoop(a)
    ensures e in Next(t, s, a).homes && MovesOn(t, s, a, s.homes[e], Next(t, s, a).homes[e])
  {
    if Next(t, s, a) != s {
      match a
      case RetryOk(n) => HeldMeansHome(s.pool, s.homes, Spot(n, Batch), 0);
      case RetryErr(n) => HeldMeansHome(s.pool, s.homes, Spot(n, Batch), 0);
      case Repush(n) => HeldMeansHome(s.pool, s.homes, Spot(n, Refailed), 0);
      case Drain(_) => case Pace(_) => case Quit(_) =>
    }
  }

  lemma EachMovesOn(t: Tree, s: State, a: Action, e: nat)
    requires Located(s.pool, s.homes) && e in s.homes && e < |s.origins|
    ensures e in Next(t, s, a).homes && MovesOn(t, s, a, s.homes[e], Next(t, s, a).homes[e])
  {
    if OfTheLoop(a) {
      LoopMovesOn(t, s, a, e);
    } else if Next(t, s, a) != s {
      match a
      case RunHandlers(n, i) => HeldMeansHome(s.pool, s.homes, Spot(n, Arrived), i);
      case Absorb(n, i) => HeldMeansHome(s.pool, s.homes, Spot(n, Forwarding), i);
      case SendOk(n, i) => HeldMeansHome(s.pool, s.homes, Spot(n, Forwarding), i);
      case SendErr(n, i) => HeldMeansHome(s.pool, s.homes, Spot(n, Forwarding), i);
      case Push(n, i) => HeldMeansHome(s.pool, s.homes, Spot(n, Failed), i);
      case Deliver(n, i) => HeldMeansHome(s.pool, s.homes, Spot(n, Wire), i);
      case Lose(n, i) => HeldMeansHome(s.pool, s.homes, Spot(n, Wire), i);
      case SendUp(_) => case Cancel(_) =>
    }
  }

  lemma CancelledGrows(t: Tree, s: State, a: Action)
    ensures s.cancelled <= Next(t, s, a).cancelled
    ensures !a.Cancel? ==> Next(t, s, a).cancelled == s.cancelled
  {
  }

  lemma StaysBlockedAt(t: Tree, s: State, s': State, a: Action, h: Spot, h': Spot)
    requires BlockedAt(t, s, h) && MovesOn(t, s, a, h, h') && Legal(s, a) && s.cancelled <= s'.cancelled
    ensures BlockedAt(t, s', h')
  {
    if h.place != Lost {
      var m :| m in Rest(t, h) && CutOff(t, s, m);
      assert CutOff(t, s', m);
      if h' == Spot(h.node, Wire) && h.place != Wire {
        assert m != h.node;
        assert Path(t, h.node) == [h.node] + if t[h.node].Some? then Path(t, t[h.node].value) else [];
      }
    }
  }

  lemma OriginsGrow(t: Tree, s: State, a: Action)
    ensures |s.origins| <= |Next(t, s, a).origins|
    ensures !a.SendUp? ==> Next(t, s, a).origins == s.origins
  {
  }

  lemma NextKeepsBlocked(t: Tree, s: State, a: Action, e: nat)
    requires Inv(t, s) && e < |s.origins| && Blocked(t, s, e) && Legal(s, a)
    ensures var s' := Next(t, s, a); Inv(t, s') && e < |s'.origins| && Blocked(t, s', e)
  {
    assert OnPath(t, s, e);
    var s' := Next(t, s, a);
    NextKeepsInv(t, s, a);
    EachMovesOn(t, s, a, e);
    CancelledGrows(t, s, a);
    BlockedAtHome(t, s, e);
    StaysBlockedAt(t, s, s', a, s.homes[e], s'.homes[e]);
    BlockedAtHome(t, s', e);
    OriginsGrow(t, s, a);
  }

  lemma {:induction false} BlockedForever(t: Tree, s: State, more: seq<Action>, e: nat)
    requires Inv(t, s) && e < |s.origins| && Blocked(t, s, e) && AllLegal(t, s, more)
    ensures var s' := Resume(t, s, more); Inv(t, s') && e < |s'.origins| && Blocked(t, s', e)
    decreases |more|
  {
    if more != [] {
      NextKeepsBlocked(t, s, more[0], e);
      BlockedForever(t, Next(t, s, more[0]), more[1..], e);
    }
  }

  lemma BlockedIsNotAbsorbed(t: Tree, s: State, e: nat, r: nat)
    requires Inv(t, s) && e < |s.origins| && Blocked(t, s, e)
    ensures e !in Held(s, r, Absorbed)
  {
    assert OnPath(t, s, e);
    BlockedAtHome(t, s, e);
    HomeMeansHeld(s.pool, s.homes, e);
    var h := s.homes[e];
    if h.place == Absorbed {
      assert Path(t, h.node) == [h.node];
    }
  }

  // ---------------------------------------------------------------------------
  // What is not blocked arrives
  // ---------------------------------------------------------------------------

  /** Node p is done with the envelopes it has received or made. */
  predicate HandsFree(s: State, p: nat) {
    Held(s, p, Arrived) == [] && Held(s, p, Forwarding) == [] && Held(s, p, Failed) == []
  }

  /** No new envelope, nothing lost, and no failure but of the sends that a done
      context ends; links keep their order, and a node is done with one envelope
      before it takes the next. */
  predicate Proper(t: Tree, s: State, a: Action) {
    match a
    case SendOk(n, _) => n !in s.cancelled
    case RetryOk(n) => n !in s.cancelled
    case SendErr(n, _) => n in s.cancelled
    case Deliver(n, i) => i == 0 && n < |t| && t[n].Some? && HandsFree(s, t[n].value)
    case RunHandlers(_, _) => true
    case Absorb(_, _) => true
    case Push(_, _) => true
    case Drain(_) => true
    case Repush(_) => true
    case Pace(_) => true
    case _ => false
  }

  ghost predicate Orderly(t: Tree, s: State, more: seq<Action>)
    decreases |more|
  {
    more == [] || (Proper(t, s, more[0]) && Orderly(t, Next(t, s, more[0]), more[1..]))
  }

  // Stages left at a node; a node that is cut off only queues what it has in hand.
  function StagesAt(place: Place, cut: bool): nat {
    match place
    case Refailed => if cut then 0 else 6
    case Failed => if cut then 1 else 5
    case Pending => if cut then 0 else 4
    case Batch => if cut then 0 else 3
    case Arrived => if cut then 3 else 2
    case Forwarding => if cut then 2 else 1
    case _ => 0
  }

  function Level(t: Tree, s: State, q: Spot): nat {
    10 * q.node + StagesAt(q.place, CutOff(t, s, q.node))
  }

  ghost function LevelOf(t: Tree, s: State, e: nat): nat {
    if e in s.homes then Level(t, s, s.homes[e]) else 0
  }

  ghost function Steps(t: Tree, s: State): set<(nat, nat)> {
    set e: nat, r: nat | e < |s.origins| && r < LevelOf(t, s, e) :: (e, r)
  }

  ghost function Waits(t: Tree, s: State): set<nat> {
    set n: nat | n < |t| && LoopOf(s, n) == Pacing
  }

  /** From s to s' no envelope is further from rest, and one is nearer, or a
      retryLoop has waited for its pacer. */
  ghost predicate Nearer(t: Tree, s: State, s': State) {
    && s'.origins == s.origins
    && (Steps(t, s') < Steps(t, s) || (Steps(t, s') == Steps(t, s) && Waits(t, s') < Waits(t, s)))
  }

  lemma LowersSteps(t: Tree, s: State, s': State, x: nat)
    requires s'.origins == s.origins && x < |s.origins| && LevelOf(t, s', x) < LevelOf(t, s, x)
    requires forall e: nat {:trigger LevelOf(t, s', e)} :: e < |s.origins| ==> LevelOf(t, s', e) <= LevelOf(t, s, e)
    ensures Nearer(t, s, s')
  {
    assert (x, LevelOf(t, s', x)) in Steps(t, s) && (x, LevelOf(t, s', x)) !in Steps(t, s');
  }

  // A step that moves the i-th envelope at a place down to another level.
  lemma MoveIsNearer(t: Tree, s: State, n: nat, p: Place, i: nat, q: Spot, s': State)
    requires Inv(t, s) && i < |Held(s, n, p)| && Spot(n, p) != q && Level(t, s, q) < Level(t, s, Spot(n, p))
    requires s'.homes == Shift(s, Spot(n, p), i, q).homes && s'.origins == s.origins && s'.cancelled == s.cancelled
    ensures Nearer(t, s, s')
  {
    var x := Held(s, n, p)[i];
    HeldMeansHome(s.pool, s.homes, Spot(n, p), i);
    LowersSteps(t, s, s', x);
  }

  lemma DrainIsNearer(t: Tree, s: State, n: nat)
    requires Inv(t, s) && n < |t| && t[n].Some? && !CutOff(t, s, n) && LoopOf(s, n) == Idle && Held(s, n, Pending) != []
    ensures Nearer(t, s, Next(t, s, Drain(n)))
  {
    HeldMeansHome(s.pool, s.homes, Spot(n, Pending), 0);
    LowersSteps(t, s, Next(t, s, Drain(n)), Held(s, n, Pending)[0]);
  }

  lemma PaceIsNearer(t: Tree, s: State, n: nat)
    requires n < |t| && LoopOf(s, n) == Pacing
    ensures Nearer(t, s, Next(t, s, Pace(n)))
  {
    var s' := Next(t, s, Pace(n));
    assert forall e: nat :: LevelOf(t, s', e) == LevelOf(t, s, e);
    assert Steps(t, s') == Steps(t, s);
    assert n in Waits(t, s) && n !in Waits(t, s');
  }

  ghost predicate Lawful(t: Tree, s: State) {
    Inv(t, s) && forall n: nat {:trigger LoopInv(s, n)} :: LoopInv(s, n)
  }

  /** An envelope here has gone as far as it will. */
  predicate Resting(t: Tree, s: State, q: Spot) {
    || q.place == Absorbed || q.place == Lost || q.place == Abandoned
    || (CutOff(t, s, q.node) && (q.place == Pending || q.place == Batch || q.place == Refailed))
  }

  ghost predicate AtRest(t: Tree, s: State) {
    forall e :: e in s.homes ==> Resting(t, s, s.homes[e])
  }

  lemma ForwarderOn(t: Tree, s: State, n: nat) returns (a: Action)
    requires Lawful(t, s) && n < |t| && Held(s, n, Forwarding) != []
    ensures Proper(t, s, a) && Nearer(t, s, Next(t, s, a))
  {
    if t[n].None? {
      a := Absorb(n, 0);
      MoveIsNearer(t, s, n, Forwarding, 0, Spot(n, Absorbed), Next(t, s, a));
    } else if n in s.cancelled {
      a := SendErr(n, 0);
      MoveIsNearer(t, s, n, Forwarding, 0, Spot(n, Failed), Next(t, s, a));
    } else {
      a := SendOk(n, 0);
      MoveIsNearer(t, s, n, Forwarding, 0, Spot(n, Wire), Next(t, s, a));
    }
  }

  // A node goes on with what it has in hand.
  lemma HandsOn(t: Tree, s: State, n: nat) returns (a: Action)
    requires Lawful(t, s) && n < |t| && !HandsFree(s, n)
    ensures Proper(t, s, a) && Nearer(t, s, Next(t, s, a))
  {
    if Held(s, n, Failed) != [] {
      a := Push(n, 0);
      MoveIsNearer(t, s, n, Failed, 0, Spot(n, Pending), Next(t, s, a));
    } else if Held(s, n, Forwarding) != [] {
      a := ForwarderOn(t, s, n);
    } else {
      a := RunHandlers(n, 0);
      MoveIsNearer(t, s, n, Arrived, 0, Spot(n, Forwarding), Next(t, s, a));
    }
  }

  // The first envelope on a link is received, once the parent is free for it.
  lemma LinkOn(t: Tree, s: State, n: nat) returns (a: Action)
    requires Lawful(t, s) && n < |t| && t[n].Some? && Held(s, n, Wire) != []
    ensures Proper(t, s, a) && Nearer(t, s, Next(t, s, a))
  {
    var p := t[n].value;
    if HandsFree(s, p) {
      a := Deliver(n, 0);
      MoveIsNearer(t, s, n, Wire, 0, Spot(p, Arrived), Next(t, s, a));
    } else {
      a := HandsOn(t, s, p);
    }
  }

  // A retryLoop goes on.
  lemma LoopOn(t: Tree, s: State, n: nat) returns (a: Action)
    requires Lawful(t, s) && n < |t| && t[n].Some? && !CutOff(t, s, n)
    requires Held(s, n, Pending) != [] || Held(s, n, Batch) != [] || Held(s, n, Refailed) != []
    ensures Proper(t, s, a) && Nearer(t, s, Next(t, s, a))
  {
    assert LoopInv(s, n);
    match LoopOf(s, n)
    case Idle => a := Drain(n); DrainIsNearer(t, s, n);
    case Trying => a := RetryOk(n); MoveIsNearer(t, s, n, Batch, 0, Spot(n, Wire), Next(t, s, a));
    case Repushing => a := Repush(n); MoveIsNearer(t, s, n, Refailed, 0, Spot(n, Pending), Next(t, s, a));
    case Pacing => a := Pace(n); PaceIsNearer(t, s, n);
    case Exited => assert false;
  }

  // As long as not everything is at rest, something proper can be done.
  lemma OneStepOn(t: Tree, s: State) returns (a: Action)
    requires Lawful(t, s) && !AtRest(t, s)
    ensures Proper(t, s, a) && Nearer(t, s, Next(t, s, a))
  {
    var e :| e in s.homes && !Resting(t, s, s.homes[e]);
    var n, p := s.homes[e].node, s.homes[e].place;
    assert OnPath(t, s, e);
    HomeMeansHeld(s.pool, s.homes, e);
    if p == Arrived || p == Forwarding || p == Failed {
      a := HandsOn(t, s, n);
    } else if p == Wire {
      a := LinkOn(t, s, n);
    } else {
      a := LoopOn(t, s, n);
    }
  }

  // ---------------------------------------------------------------------------
  // Together
  // ---------------------------------------------------------------------------

  lemma NextIsLawful(t: Tree, s: State, a: Action)
    requires Lawful(t, s)
    ensures Lawful(t, Next(t, s, a))
  {
    NextKeepsInv(t, s, a);
    forall n: nat
      ensures LoopInv(Next(t, s, a), n)
    {
      assert LoopInv(s, n);
      NextKeepsLoopInv(t, s, a, n);
    }
  }

  /** Nothing comes to be blocked. */
  ghost predicate BlocksNothing(t: Tree, s: State, s': State) {
    s'.origins == s.origins && forall e: nat :: e < |s.origins| && Blocked(t, s', e) ==> Blocked(t, s, e)
  }

  lemma StaysClearAt(t: Tree, s: State, s': State, a: Action, h: Spot, h': Spot)
    requires BlockedAt(t, s', h') && MovesOn(t, s, a, h, h') && !a.Lose? && s'.cancelled == s.cancelled
    ensures BlockedAt(t, s, h)
  {
    if h'.place != Lost {
      var m :| m in Rest(t, h') && CutOff(t, s', m);
      assert m in Rest(t, h) && CutOff(t, s, m);
    }
  }

  lemma ProperBlocksNothing(t: Tree, s: State, a: Action)
    requires Inv(t, s) && Proper(t, s, a)
    ensures BlocksNothing(t, s, Next(t, s, a))
  {
    var s' := Next(t, s, a);
    NextKeepsInv(t, s, a);
    OriginsGrow(t, s, a);
    CancelledGrows(t, s, a);
    forall e: nat | e < |s.origins| && Blocked(t, s', e)
      ensures Blocked(t, s, e)
    {
      assert OnPath(t, s, e);
      EachMovesOn(t, s, a, e);
      BlockedAtHome(t, s, e);
      BlockedAtHome(t, s', e);
      StaysClearAt(t, s, s', a, s.homes[e], s'.homes[e]);
    }
  }

  lemma OrderlyFrom(t: Tree, s: State, a: Action, rest: seq<Action>)
    requires Proper(t, s, a) && Orderly(t, Next(t, s, a), rest)
    ensures Orderly(t, s, [a] + rest) && Resume(t, s, [a] + rest) == Resume(t, Next(t, s, a), rest)
  {
    assert ([a] + rest)[1..] == rest;
  }

  lemma {:induction false} ComesToRest(t: Tree, s: State) returns (more: seq<Action>)
    requires Lawful(t, s)
    ensures Orderly(t, s, more)
    ensures var s' := Resume(t, s, more); Lawful(t, s') && AtRest(t, s') && BlocksNothing(t, s, s')
    decreases Steps(t, s), Waits(t, s)
  {
    more := [];
    if !AtRest(t, s) {
      var a := OneStepOn(t, s);
      NextIsLawful(t, s, a);
      ProperBlocksNothing(t, s, a);
      var rest := ComesToRest(t, Next(t, s, a));
      OrderlyFrom(t, s, a, rest);
      more := [a] + rest;
    }
  }

  lemma RestingIsAbsorbed(t: Tree, s: State, e: nat)
    requires Lawful(t, s) && AtRest(t, s) && e < |s.origins| && !Blocked(t, s, e)
    ensures e in s.homes && e in Held(s, s.homes[e].node, Absorbed)
  {
    assert OnPath(t, s, e);
    BlockedAtHome(t, s, e);
    HomeMeansHeld(s.pool, s.homes, e);
    var h := s.homes[e];
    assert LoopInv(s, h.node);
    assert h.node in Path(t, h.node);
    assert Resting(t, s, h);
    assert CutOff(t, s, h.node) && h.place != Wire ==> h.node in Rest(t, h);
  }

  /** Event e is at rest at a root. */
  ghost predicate Arrives(s: State, e: nat) {
    exists r: nat :: e in Held(s, r, Absorbed)
  }

  /** From every reachable state there is one continuation in which every event that
      is not blocked arrives, though no send succeeds where the context is done, links
      keep their order, and no node takes up two envelopes at once. */
  lemma AllClearArrive(t: Tree, run: seq<Action>) returns (more: seq<Action>)
    ensures Orderly(t, Exec(t, run), more)
    ensures forall e: nat :: e < |Exec(t, run).origins| && !Blocked(t, Exec(t, run), e)
              ==> Arrives(Exec(t, run + more), e)
  {
    var s := Exec(t, run);
    ReachableIsLawful(t, run);
    more := ComesToRest(t, s);
    ResumeIsExec(t, run, more);
    forall e: nat | e < |s.origins| && !Blocked(t, s, e)
      ensures Arrives(Exec(t, run + more), e)
    {
      RestingIsAbsorbed(t, Resume(t, s, more), e);
    }
  }

  lemma {:induction false} OrderlyIsLegal(t: Tree, s: State, more: seq<Action>)
    requires Orderly(t, s, more)
    ensures AllLegal(t, s, more)
    decreases |more|
  {
    if more != [] {
      OrderlyIsLegal(t, Next(t, s, more[0]), more[1..]);
    }
  }

  lemma BlockedNeverArrives(t: Tree, run: seq<Action>, more: seq<Action>, e: nat)
    requires e < |Exec(t, run).origins| && Blocked(t, Exec(t, run), e) && AllLegal(t, Exec(t, run), more)
    ensures !Arrives(Exec(t, run + more), e)
  {
    RunKeepsInv(t, run);
    BlockedForever(t, Exec(t, run), more, e);
    ResumeIsExec(t, run, more);
    forall r: nat
      ensures e !in Held(Exec(t, run + more), r, Absorbed)
    {
      BlockedIsNotAbsorbed(t, Resume(t, Exec(t, run), more), e, r);
    }
  }

  /** In every reachable state, when no send succeeds where the context is done, an
      event can still arrive iff it is not lost and no node that it has yet to be
      sent from is cut off. */
  lemma ArrivesIffClear(t: Tree, run: seq<Action>, e: nat)
    requires e < |Exec(t, run).origins|
    ensures (exists more :: AllLegal(t, Exec(t, run), more) && Arrives(Exec(t, run + more), e))
       <==> !Blocked(t, Exec(t, run), e)
  {
    if !Blocked(t, Exec(t, run), e) {
      var more := AllClearArrive(t, run);
      OrderlyIsLegal(t, Exec(t, run), more);
    } else {
      forall more | AllLegal(t, Exec(t, run), more)
        ensures !Arrives(Exec(t, run + more), e)
      {
        BlockedNeverArrives(t, run, more, e);
      }
    }
  }
}
