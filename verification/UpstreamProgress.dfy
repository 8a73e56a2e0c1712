/** Exactly which envelopes of the upstream machine can still reach their root. */
module UpstreamProgress {
  import opened Topology
  import opened Tokens
  import opened Upstream
  import opened UpstreamConservation

  /** What is here stays here, or in the queue, for good: it is off a dead stream or
      left behind by a retryLoop that returned, or it is queued, or about to be,
      where no retryLoop will ever drain the queue again. */
  predicate Terminal(s: State, q: Spot) {
    || q.place == Lost || q.place == Abandoned
    || ((q.place == Failed || q.place == Pending) && LoopOf(s, q.node) == Exited)
  }

  ghost predicate Stuck(s: State, e: nat) {
    exists q: Spot :: e in At(s.pool, q) && Terminal(s, q)
  }

  ghost predicate Deliverable(t: Tree, s: State, e: nat) {
    && Inv(t, s) && (forall n: nat :: LoopInv(s, n))
    && e < |s.origins| && OnPath(t, s, e) && !Terminal(s, s.homes[e])
  }

  // The actions that bring envelopes on.
  predicate Helpful(a: Action) {
    || a.RunHandlers? || a.Absorb? || a.SendOk? || a.Push? || a.Drain?
    || a.RetryOk? || a.Repush? || a.Pace? || a.Deliver?
  }

  // What is left to do, most significant first: links to cross, stages to pass
  // at this node, envelopes ahead in the batch, steps of the loop.
  function Rank(p: Place): nat {
    match p
    case Refailed => 6 case Failed => 5 case Pending => 4 case Batch => 3
    case Arrived => 2 case Forwarding => 1 case _ => 0
  }

  function LoopRank(l: Loop): nat {
    match l case Repushing => 2 case Pacing => 1 case _ => 0
  }

  ghost predicate Closer(s': State, s: State, e: nat)
    requires e in s'.homes && e in s.homes
  {
    var h', h := s'.homes[e], s.homes[e];
    || h'.node < h.node
    || (h'.node == h.node && Rank(h'.place) < Rank(h.place))
    || (h' == h && |Held(s', h.node, Batch)| < |Held(s, h.node, Batch)|)
    || (h' == h && |Held(s', h.node, Batch)| == |Held(s, h.node, Batch)|
        && LoopRank(LoopOf(s', h.node)) < LoopRank(LoopOf(s, h.node)))
  }

  lemma HelpfulEndsNoLoop(t: Tree, s: State, a: Action)
    requires Helpful(a)
    ensures forall n: nat :: LoopOf(Next(t, s, a), n) == Exited ==> LoopOf(s, n) == Exited
  {
  }

  lemma HelpfulKeepsFree(t: Tree, s: State, a: Action, e: nat)
    requires e in s.homes && !Terminal(s, s.homes[e]) && Helpful(a) && Located(s.pool, s.homes)
    requires forall n: nat :: LoopInv(s, n)
    ensures var s' := Next(t, s, a); e in s'.homes && !Terminal(s', s'.homes[e])
  {
    HelpfulEndsNoLoop(t, s, a);
    if a.Push? && a.i < |Held(s, a.n, Failed)| {
      HeldMeansHome(s.pool, s.homes, Spot(a.n, Failed), a.i);
    } else if a.Repush? {
      assert LoopInv(s, a.n);
    }
  }

  lemma HelpfulKeepsDeliverable(t: Tree, s: State, a: Action, e: nat)
    requires Deliverable(t, s, e) && Helpful(a)
    ensures Deliverable(t, Next(t, s, a), e)
    ensures Next(t, s, a).origins[e] == s.origins[e]
  {
    NextKeepsInv(t, s, a);
    forall n: nat
      ensures LoopInv(Next(t, s, a), n)
    {
      assert LoopInv(s, n);
      NextKeepsLoopInv(t, s, a, n);
    }
    assert OnPath(t, Next(t, s, a), e);
    HelpfulKeepsFree(t, s, a, e);
  }

  // The envelope is with a goroutine of its own, or on a link.
  lemma OwnStepOn(t: Tree, s: State, e: nat, i: nat) returns (a: Action)
    requires Deliverable(t, s, e) && s.homes[e].place in {Arrived, Forwarding, Failed, Wire}
    requires i < |At(s.pool, s.homes[e])| && At(s.pool, s.homes[e])[i] == e
    ensures Helpful(a) && e in Next(t, s, a).homes && Closer(Next(t, s, a), s, e)
  {
    var n, p := s.homes[e].node, s.homes[e].place;
    a := if p == Arrived then RunHandlers(n, i)
         else if p == Failed then Push(n, i)
         else if p == Wire then Deliver(n, i)
         else if t[n].Some? then SendOk(n, i) else Absorb(n, i);
  }

  lemma RetryingIsCloser(t: Tree, s: State, e: nat)
    requires Deliverable(t, s, e) && s.homes[e].place in {Pending, Batch, Refailed}
    requires LoopOf(s, s.homes[e].node) == Trying
    ensures var s' := Next(t, s, RetryOk(s.homes[e].node)); e in s'.homes && Closer(s', s, e)
  {
    var n := s.homes[e].node;
    assert LoopInv(s, n);
    var x := Held(s, n, Batch)[0];
    HeldMeansHome(s.pool, s.homes, Spot(n, Batch), 0);
  }

  lemma RepushIsCloser(t: Tree, s: State, e: nat)
    requires Deliverable(t, s, e) && s.homes[e].place in {Pending, Batch, Refailed}
    requires LoopOf(s, s.homes[e].node) == Repushing
    ensures var s' := Next(t, s, Repush(s.homes[e].node)); e in s'.homes && Closer(s', s, e)
  {
    var n := s.homes[e].node;
    assert LoopInv(s, n);
    HeldMeansHome(s.pool, s.homes, Spot(n, Refailed), 0);
  }

  // The envelope is in the queue or with the retryLoop.
  lemma LoopStepOn(t: Tree, s: State, e: nat) returns (a: Action)
    requires Deliverable(t, s, e) && s.homes[e].place in {Pending, Batch, Refailed}
    requires e in At(s.pool, s.homes[e])
    ensures Helpful(a) && e in Next(t, s, a).homes && Closer(Next(t, s, a), s, e)
  {
    var n := s.homes[e].node;
    assert LoopInv(s, n);
    match LoopOf(s, n)
    case Idle => a := Drain(n);
    case Trying => a := RetryOk(n); RetryingIsCloser(t, s, e);
    case Repushing => a := Repush(n); RepushIsCloser(t, s, e);
    case Pacing => a := Pace(n);
    case Exited => assert false;
  }

  // Some action brings event e, or a retry pass standing in its way, one step on.
  lemma OneStepOn(t: Tree, s: State, e: nat) returns (a: Action)
    requires Deliverable(t, s, e) && s.homes[e].place != Absorbed
    ensures Helpful(a) && e in Next(t, s, a).homes && Closer(Next(t, s, a), s, e)
  {
    HomeMeansHeld(s.pool, s.homes, e);
    if s.homes[e].place in {Pending, Batch, Refailed} {
      a := LoopStepOn(t, s, e);
    } else {
      assert LoopInv(s, s.homes[e].node);
      var i: nat :| i < |At(s.pool, s.homes[e])| && At(s.pool, s.homes[e])[i] == e;
      a := OwnStepOn(t, s, e, i);
    }
  }

  /** The state after further actions. */
  function Resume(t: Tree, s: State, more: seq<Action>): State
    decreases |more|
  {
    if more == [] then s else Resume(t, Next(t, s, more[0]), more[1..])
  }

  lemma {:induction false} BringHome(t: Tree, s: State, e: nat) returns (more: seq<Action>)
    requires Deliverable(t, s, e)
    ensures e in Resume(t, s, more).homes && Resume(t, s, more).homes[e].place == Absorbed
    ensures Inv(t, Resume(t, s, more))
    decreases s.homes[e].node, Rank(s.homes[e].place), |Held(s, s.homes[e].node, Batch)|,
              LoopRank(LoopOf(s, s.homes[e].node))
  {
    if s.homes[e].place == Absorbed {
      more := [];
    } else {
      var a := OneStepOn(t, s, e);
      HelpfulKeepsDeliverable(t, s, a, e);
      var rest := BringHome(t, Next(t, s, a), e);
      more := [a] + rest;
    }
  }

  lemma {:induction false} ResumeIsExec(t: Tree, run: seq<Action>, more: seq<Action>)
    ensures Resume(t, Exec(t, run), more) == Exec(t, run + more)
    decreases |more|
  {
    if more == [] {
      assert run + more == run;
    } else {
      assert (run + [more[0]])[..|run|] == run;
      ResumeIsExec(t, run + [more[0]], more[1..]);
      assert run + [more[0]] + more[1..] == run + more;
    }
  }

  lemma StuckAtHome(s: State, e: nat)
    requires Located(s.pool, s.homes) && e in s.homes
    ensures Stuck(s, e) <==> Terminal(s, s.homes[e])
  {
    HomeMeansHeld(s.pool, s.homes, e);
  }

  lemma ReachableIsLawful(t: Tree, run: seq<Action>)
    ensures Inv(t, Exec(t, run)) && forall n: nat :: LoopInv(Exec(t, run), n)
  {
    RunKeepsInv(t, run);
    forall n: nat
      ensures LoopInv(Exec(t, run), n)
    {
      RunKeepsLoopInv(t, run, n);
    }
  }

  /** From any reachable state an event that is not stuck has a continuation of the
      run that absorbs it at a root. */
  lemma NothingIsStranded(t: Tree, run: seq<Action>, e: nat) returns (more: seq<Action>, r: nat)
    requires e < |Exec(t, run).origins| && !Stuck(Exec(t, run), e)
    ensures e in Held(Exec(t, run + more), r, Absorbed)
  {
    var s := Exec(t, run);
    ReachableIsLawful(t, run);
    assert OnPath(t, s, e);
    StuckAtHome(s, e);
    more := BringHome(t, s, e);
    ResumeIsExec(t, run, more);
    var s' := Exec(t, run + more);
    r := s'.homes[e].node;
    HomeMeansHeld(s'.pool, s'.homes, e);
  }

  // The loop that has returned stays so, and a token in Lost or Abandoned stays put.
  lemma ExitedStays(t: Tree, s: State, a: Action, n: nat)
    requires LoopOf(s, n) == Exited
    ensures LoopOf(Next(t, s, a), n) == Exited
  {
  }

  lemma TerminalStaysPut(t: Tree, s: State, a: Action, e: nat)
    requires Located(s.pool, s.homes) && e in s.homes && e < |s.origins| && Terminal(s, s.homes[e])
    requires !a.Push? && !OfTheLoop(a)
    ensures e in Next(t, s, a).homes && Next(t, s, a).homes[e] == s.homes[e]
  {
    var n := a.n;
    if Next(t, s, a) != s {
      match a
      case RunHandlers(_, i) => HeldMeansHome(s.pool, s.homes, Spot(n, Arrived), i);
      case Absorb(_, i) => HeldMeansHome(s.pool, s.homes, Spot(n, Forwarding), i);
      case SendOk(_, i) => HeldMeansHome(s.pool, s.homes, Spot(n, Forwarding), i);
      case SendErr(_, i) => HeldMeansHome(s.pool, s.homes, Spot(n, Forwarding), i);
      case Deliver(_, i) => HeldMeansHome(s.pool, s.homes, Spot(n, Wire), i);
      case Lose(_, i) => HeldMeansHome(s.pool, s.homes, Spot(n, Wire), i);
      case SendUp(_) => case Cancel(_) =>
    }
  }

  lemma LoopLeavesTerminal(t: Tree, s: State, a: Action, e: nat)
    requires Located(s.pool, s.homes) && e in s.homes && Terminal(s, s.homes[e]) && OfTheLoop(a)
    ensures e in Next(t, s, a).homes && Next(t, s, a).homes[e] == s.homes[e]
  {
    var n := a.n;
    if Next(t, s, a) != s {
      match a
      case RetryOk(_) => HeldMeansHome(s.pool, s.homes, Spot(n, Batch), 0);
      case RetryErr(_) => HeldMeansHome(s.pool, s.homes, Spot(n, Batch), 0);
      case Repush(_) => HeldMeansHome(s.pool, s.homes, Spot(n, Refailed), 0);
      case Drain(_) => case Pace(_) => case Quit(_) =>
    }
  }

  lemma NextKeepsStuck(t: Tree, s: State, a: Action, e: nat)
    requires Located(s.pool, s.homes) && e in s.homes && e < |s.origins| && Terminal(s, s.homes[e])
    ensures var s' := Next(t, s, a); e in s'.homes && Terminal(s', s'.homes[e])
  {
    if LoopOf(s, s.homes[e].node) == Exited {
      ExitedStays(t, s, a, s.homes[e].node);
    }
    if Next(t, s, a) == s {
    } else if a.Push? {
      HeldMeansHome(s.pool, s.homes, Spot(a.n, Failed), a.i);
    } else if OfTheLoop(a) {
      LoopLeavesTerminal(t, s, a, e);
    } else {
      TerminalStaysPut(t, s, a, e);
    }
  }

  lemma StillStuck(t: Tree, run: seq<Action>, a: Action, e: nat)
    requires e < |Exec(t, run).origins| && Stuck(Exec(t, run), e)
    ensures var s' := Next(t, Exec(t, run), a); e < |s'.origins| && Stuck(s', e)
  {
    var s := Exec(t, run);
    RunKeepsInv(t, run);
    assert OnPath(t, s, e);
    StuckAtHome(s, e);
    NextKeepsInv(t, s, a);
    NextKeepsStuck(t, s, a, e);
    StuckAtHome(Next(t, s, a), e);
  }

  lemma {:induction false} StuckForever(t: Tree, run: seq<Action>, more: seq<Action>, e: nat)
    requires e < |Exec(t, run).origins| && Stuck(Exec(t, run), e)
    ensures e < |Exec(t, run + more).origins| && Stuck(Exec(t, run + more), e)
    decreases |more|
  {
    if more == [] {
      assert run + more == run;
    } else {
      var front, a := more[..|more| - 1], more[|more| - 1];
      StuckForever(t, run, front, e);
      assert (run + more)[..|run + more| - 1] == run + front;
      var s := Exec(t, run + front);
      StillStuck(t, run + front, a, e);
      assert Exec(t, run + more) == Next(t, s, a);
    }
  }

  lemma StuckIsNotAbsorbed(t: Tree, run: seq<Action>, more: seq<Action>, e: nat, r: nat)
    requires e < |Exec(t, run).origins| && Stuck(Exec(t, run), e)
    ensures e !in Held(Exec(t, run + more), r, Absorbed)
  {
    var s := Exec(t, run + more);
    StuckForever(t, run, more, e);
    RunKeepsInv(t, run + more);
    assert OnPath(t, s, e);
    StuckAtHome(s, e);
    HomeMeansHeld(s.pool, s.homes, e);
  }

  /** In every reachable state, whichever contexts are cancelled, an event can still
      come to rest at a root iff it is not stuck. */
  lemma CanArriveIffNotStuck(t: Tree, run: seq<Action>, e: nat)
    requires e < |Exec(t, run).origins|
    ensures (exists more, r: nat :: e in Held(Exec(t, run + more), r, Absorbed)) <==> !Stuck(Exec(t, run), e)
  {
    if !Stuck(Exec(t, run), e) {
      var more, r := NothingIsStranded(t, run, e);
    } else if exists more, r: nat :: e in Held(Exec(t, run + more), r, Absorbed) {
      var more, r: nat :| e in Held(Exec(t, run + more), r, Absorbed);
      StuckIsNotAbsorbed(t, run, more, e, r);
    }
  }

  // An envelope on a link is lost with its stream.
  lemma DiesWithStream(t: Tree, s: State, e: nat) returns (i: nat)
    requires Inv(t, s) && e < |s.origins| && e in s.homes && s.homes[e].place == Wire
    ensures var n := s.homes[e].node; Next(t, s, Lose(n, i)).homes == s.homes[e := Spot(n, Lost)]
  {
    assert OnPath(t, s, e);
    HomeMeansHeld(s.pool, s.homes, e);
    i :| i < |At(s.pool, s.homes[e])| && At(s.pool, s.homes[e])[i] == e;
  }

  /** Acceptance by stream.Send is no delivery: an envelope on a link can be lost at
      any moment, and then never comes to a root. */
  lemma AnyLinkMayLose(t: Tree, run: seq<Action>, e: nat) returns (more: seq<Action>)
    requires e in Exec(t, run).homes && Exec(t, run).homes[e].place == Wire
    ensures forall after, r: nat :: e !in Held(Exec(t, run + more + after), r, Absorbed)
  {
    var s := Exec(t, run);
    RunKeepsInv(t, run);
    var i := DiesWithStream(t, s, e);
    var a := Lose(s.homes[e].node, i);
    more := [a];
    assert (run + more)[..|run|] == run;
    assert Exec(t, run + more) == Next(t, s, a);
    RunKeepsInv(t, run + more);
    StuckAtHome(Next(t, s, a), e);
    forall after, r: nat
      ensures e !in Held(Exec(t, run + more + after), r, Absorbed)
    {
      StuckIsNotAbsorbed(t, run + more, after, e, r);
    }
  }
}
