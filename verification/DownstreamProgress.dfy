/** A downstream event always can, and without faults does, run its course. */
module DownstreamProgress {
  import opened Wrappers
  import opened Topology
  import opened Tokens
  import opened Downstream
  import opened DownstreamInvariant
  import opened DownstreamReach

  /** What the nodes do about envelopes under way: no new event, no fault, and no
      connection that ends, other than the Unregister of a handler on its way out. */
  predicate Helpful(a: Action) {
    || a.Offer? || a.EndCast? || a.Pop? || a.SendOk? || a.Recv? || a.RunHandlers? || a.StartCast? || a.Unregister?
  }

  /** The recvLoop of n has nothing in hand. */
  predicate RecvLoopFree(s: State, n: nat) {
    Held(s, n, Received) == [] && Held(s, n, Handled) == [] && Held(s, n, Casting) == []
  }

  /** A helpful action such that links keep their order and a recvLoop is done with
      one envelope, its broadcast included, before it takes the next. */
  predicate Proper(s: State, a: Action) {
    Helpful(a) && (a.Recv? ==> a.i == 0 && RecvLoopFree(s, a.n))
  }

  ghost predicate Orderly(t: Tree, s: State, more: seq<Action>)
    decreases |more|
  {
    more == [] || (Proper(s, more[0]) && Orderly(t, Next(t, s, more[0]), more[1..]))
  }

  // ---------------------------------------------------------------------------
  // Channels belong to registered children
  // ---------------------------------------------------------------------------

  ghost predicate Attended(s: State, n: nat) {
    Held(s, n, Box) != [] ==> n in s.registered
  }

  lemma NextKeepsAttended(t: Tree, s: State, a: Action, n: nat)
    requires Attended(s, n)
    ensures Attended(Next(t, s, a), n)
  {
  }

  lemma {:induction false} RunKeepsAttended(t: Tree, run: seq<Action>, n: nat)
    ensures Attended(Exec(t, run), n)
  {
    if run != [] {
      RunKeepsAttended(t, run[..|run| - 1], n);
      NextKeepsAttended(t, Exec(t, run[..|run| - 1]), run[|run| - 1], n);
    }
  }

  // ---------------------------------------------------------------------------
  // What is left to do
  // ---------------------------------------------------------------------------

  datatype Task = Stage(copy: Copy, left: nat) | Unlock(node: nat)

  /** The stages a copy has ahead of it; the most for one not yet offered. */
  function StagesOf(p: Place): nat {
    match p
    case Box => 7 case Hand => 6 case Wire => 5 case Received => 4 case Handled => 3 case Casting => 2 case _ => 0
  }

  function Stages(s: State, k: Copy): nat {
    if k in s.homes then StagesOf(s.homes[k].place) else 8
  }

  ghost function Tasks(t: Tree, s: State): set<Task> {
    (set e: nat, d: nat, r: nat | e < |s.origins| && d < |t| && r < 8 && r < Stages(s, Copy(e, d))
       :: Stage(Copy(e, d), r))
    + (set n: nat | n < |t| && n in s.locks && s.locks[n].own :: Unlock(n))
  }

  /** From s to s' nothing is further from done, and something is nearer. */
  ghost predicate Nearer(t: Tree, s: State, s': State) {
    && s'.origins == s.origins
    && (forall e: nat, d: nat {:trigger Copy(e, d)} ::
          e < |s.origins| && d < |t| ==> Stages(s', Copy(e, d)) <= Stages(s, Copy(e, d)))
    && (forall n :: n in s'.locks && s'.locks[n].own ==> n in s.locks && s.locks[n].own)
    && (|| (exists e: nat, d: nat :: e < |s.origins| && d < |t| && Stages(s', Copy(e, d)) < Stages(s, Copy(e, d)))
        || (exists n :: 0 <= n < |t| && n in s.locks && s.locks[n].own && n !in s'.locks))
  }

  lemma NearerIsLess(t: Tree, s: State, s': State)
    requires Nearer(t, s, s')
    ensures Tasks(t, s') < Tasks(t, s)
  {
    forall x | x in Tasks(t, s')
      ensures x in Tasks(t, s)
    {
      if x.Stage? {
        assert Stages(s', x.copy) <= Stages(s, x.copy) by { assert Copy(x.copy.event, x.copy.node) == x.copy; }
      }
    }
    if exists e: nat, d: nat :: e < |s.origins| && d < |t| && Stages(s', Copy(e, d)) < Stages(s, Copy(e, d)) {
      var e: nat, d: nat :| e < |s.origins| && d < |t| && Stages(s', Copy(e, d)) < Stages(s, Copy(e, d));
      var x := Stage(Copy(e, d), Stages(s', Copy(e, d)));
      assert x in Tasks(t, s) && x !in Tasks(t, s');
    } else {
      var n: nat :| n < |t| && n in s.locks && s.locks[n].own && n !in s'.locks;
      assert Unlock(n) in Tasks(t, s) && Unlock(n) !in Tasks(t, s');
    }
  }

  // A step that moves the i-th copy at a place to one with fewer stages ahead.
  lemma MoveIsNearer(t: Tree, s: State, n: nat, p: Place, i: nat, q: Place, s': State)
    requires Inv(t, s) && i < |Held(s, n, p)| && p != q && StagesOf(q) < StagesOf(p)
    requires s'.homes == Shift(s, n, p, i, q).homes && s'.origins == s.origins
    requires forall m :: m in s'.locks && s'.locks[m].own ==> m in s.locks && s.locks[m].own
    ensures Nearer(t, s, s')
  {
    var k := Held(s, n, p)[i];
    HeldMeansHome(s.pool, s.homes, Spot(n, p), i);
    assert CopyOk(t, s, k);
    assert Stages(s', Copy(k.event, k.node)) < Stages(s, Copy(k.event, k.node));
  }

  lemma OfferIsNearer(t: Tree, s: State, n: nat, c: nat)
    requires Inv(t, s) && n < |t| && n in s.locks && c in s.locks[n].todo
    ensures Nearer(t, s, Next(t, s, Offer(n, c)))
  {
    assert CastOk(t, s, n);
    var e := s.locks[n].event;
    assert Stages(Next(t, s, Offer(n, c)), Copy(e, c)) < Stages(s, Copy(e, c));
  }

  lemma EndCastIsNearer(t: Tree, s: State, n: nat)
    requires Inv(t, s) && n < |t| && n in s.locks && s.locks[n].todo == {}
    ensures Nearer(t, s, Next(t, s, EndCast(n)))
  {
    var s' := Next(t, s, EndCast(n));
    assert CastOk(t, s, n);
    if !s.locks[n].own {
      HomeMeansHeld(s.pool, s.homes, Copy(s.locks[n].event, n));
      MoveIsNearer(t, s, n, Casting, 0, Done, s');
    }
  }

  lemma UnregisterIsNearer(t: Tree, s: State, n: nat)
    requires Inv(t, s) && n < |t| && n in s.leaving && t[n].Some? && t[n].value !in s.locks && Held(s, n, Box) != []
    ensures Nearer(t, s, Next(t, s, Unregister(n)))
  {
    var s', k := Next(t, s, Unregister(n)), Held(s, n, Box)[0];
    HeldMeansHome(s.pool, s.homes, Spot(n, Box), 0);
    assert CopyOk(t, s, k);
    assert Stages(s', Copy(k.event, k.node)) < Stages(s, Copy(k.event, k.node));
  }

  /** Every copy has run its course, and no broadcast is running. */
  ghost predicate Quiescent(s: State) {
    && s.locks == map[]
    && forall k :: k in s.homes ==> s.homes[k].place == Done || Refusal(s.homes[k].place)
  }

  lemma CasterOn(t: Tree, s: State, n: nat) returns (a: Action)
    requires Inv(t, s) && n in s.locks
    ensures Proper(s, a) && Nearer(t, s, Next(t, s, a))
  {
    assert CastOk(t, s, n);
    if !s.locks[n].own {
      assert CopyOk(t, s, Copy(s.locks[n].event, n));
    }
    if s.locks[n].todo == {} {
      a := EndCast(n);
      EndCastIsNearer(t, s, n);
    } else {
      var c :| c in s.locks[n].todo;
      a := Offer(n, c);
      OfferIsNearer(t, s, n, c);
    }
  }

  // A copy in the channel or the hand of its child's handler.
  lemma HandlerOn(t: Tree, s: State, n: nat) returns (a: Action)
    requires Inv(t, s) && Attended(s, n) && s.locks == map[] && n < |t| && t[n].Some?
    requires Held(s, n, Box) != [] || Held(s, n, Hand) != []
    ensures Proper(s, a) && Nearer(t, s, Next(t, s, a))
  {
    if Held(s, n, Hand) != [] {
      a := SendOk(n);
      MoveIsNearer(t, s, n, Hand, 0, Wire, Next(t, s, a));
    } else if n in s.leaving {
      a := Unregister(n);
      UnregisterIsNearer(t, s, n);
    } else {
      a := Pop(n);
      MoveIsNearer(t, s, n, Box, 0, Hand, Next(t, s, a));
    }
  }

  // The recvLoop of n has a copy in hand.
  lemma RecvLoopOn(t: Tree, s: State, n: nat) returns (a: Action)
    requires Inv(t, s) && s.locks == map[] && n < |t| && (Held(s, n, Received) != [] || Held(s, n, Handled) != [])
    ensures Proper(s, a) && Nearer(t, s, Next(t, s, a))
  {
    if Held(s, n, Handled) != [] {
      a := StartCast(n, 0);
      MoveIsNearer(t, s, n, Handled, 0, Casting, Next(t, s, a));
    } else {
      a := RunHandlers(n, 0);
      MoveIsNearer(t, s, n, Received, 0, Handled, Next(t, s, a));
    }
  }

  lemma NobodyCasts(t: Tree, s: State, n: nat)
    requires Inv(t, s) && s.locks == map[]
    ensures Held(s, n, Casting) == []
  {
    forall k | k in s.homes
      ensures s.homes[k].place != Casting
    {
      assert CopyOk(t, s, k);
    }
    if Held(s, n, Casting) != [] {
      HeldMeansHome(s.pool, s.homes, Spot(n, Casting), 0);
    }
  }

  // A copy past its stream.
  lemma ReceiverOn(t: Tree, s: State, n: nat, p: Place) returns (a: Action)
    requires Inv(t, s) && s.locks == map[] && n < |t| && Held(s, n, p) != [] && p in {Wire, Received, Handled}
    ensures Proper(s, a) && Nearer(t, s, Next(t, s, a))
  {
    if Held(s, n, Received) != [] || Held(s, n, Handled) != [] {
      a := RecvLoopOn(t, s, n);
    } else {
      NobodyCasts(t, s, n);
      a := Recv(n, 0);
      MoveIsNearer(t, s, n, Wire, 0, Received, Next(t, s, a));
    }
  }

  // As long as not everything is done, something helpful can be done.
  lemma OneStepOn(t: Tree, s: State) returns (a: Action)
    requires Inv(t, s) && !Quiescent(s) && forall n: nat :: Attended(s, n)
    ensures Proper(s, a) && Nearer(t, s, Next(t, s, a))
  {
    if s.locks != map[] {
      var n :| n in s.locks;
      a := CasterOn(t, s, n);
    } else {
      var k :| k in s.homes && s.homes[k].place != Done && !Refusal(s.homes[k].place);
      var n, p := s.homes[k].node, s.homes[k].place;
      assert CopyOk(t, s, k);
      HomeMeansHeld(s.pool, s.homes, k);
      assert Attended(s, n);
      if p == Box || p == Hand {
        a := HandlerOn(t, s, n);
      } else {
        a := ReceiverOn(t, s, n, p);
      }
    }
  }

  lemma HelpfulAddsNoEvent(t: Tree, s: State, a: Action)
    requires Helpful(a)
    ensures Next(t, s, a).origins == s.origins && Next(t, s, a).targets == s.targets
  {
  }

  // What is known of every reachable state.
  ghost predicate Lawful(t: Tree, s: State) {
    Inv(t, s) && forall n: nat {:trigger Attended(s, n)} :: Attended(s, n)
  }

  lemma ReachableIsLawful(t: Tree, run: seq<Action>)
    ensures Lawful(t, Exec(t, run))
  {
    RunKeepsInv(t, run);
    forall n: nat
      ensures Attended(Exec(t, run), n)
    {
      RunKeepsAttended(t, run, n);
    }
  }

  lemma NextIsLawful(t: Tree, s: State, a: Action)
    requires Lawful(t, s)
    ensures Lawful(t, Next(t, s, a))
  {
    NextKeepsInv(t, s, a);
    forall n: nat
      ensures Attended(Next(t, s, a), n)
    {
      assert Attended(s, n);
      NextKeepsAttended(t, s, a, n);
    }
  }

  lemma HelpsOn(t: Tree, s: State) returns (a: Action)
    requires Lawful(t, s) && !Quiescent(s)
    ensures Proper(s, a) && Lawful(t, Next(t, s, a)) && Tasks(t, Next(t, s, a)) < Tasks(t, s)
    ensures Next(t, s, a).origins == s.origins && Next(t, s, a).targets == s.targets
  {
    a := OneStepOn(t, s);
    NearerIsLess(t, s, Next(t, s, a));
    HelpfulAddsNoEvent(t, s, a);
    NextIsLawful(t, s, a);
  }

  lemma OrderlyFrom(t: Tree, s: State, a: Action, rest: seq<Action>)
    requires Proper(s, a) && Orderly(t, Next(t, s, a), rest)
    ensures Orderly(t, s, [a] + rest) && Resume(t, s, [a] + rest) == Resume(t, Next(t, s, a), rest)
  {
    assert ([a] + rest)[1..] == rest;
  }

  lemma {:induction false} SettlesFrom(t: Tree, s: State) returns (more: seq<Action>)
    requires Lawful(t, s)
    ensures Orderly(t, s, more) && Quiescent(Resume(t, s, more))
    ensures Resume(t, s, more).origins == s.origins && Resume(t, s, more).targets == s.targets
    decreases Tasks(t, s)
  {
    more := [];
    if !Quiescent(s) {
      var a := HelpsOn(t, s);
      var rest := SettlesFrom(t, Next(t, s, a));
      OrderlyFrom(t, s, a, rest);
      more := [a] + rest;
    }
  }

  /** From every reachable state, without one more failure, disconnect or event, and
      with links and recvLoops in order, all events under way run their course: there
      is no deadlock, whatever channels are full and whoever waits for whose lock. */
  lemma EverythingSettles(t: Tree, run: seq<Action>) returns (more: seq<Action>)
    ensures Orderly(t, Exec(t, run), more) && Quiescent(Exec(t, run + more))
    ensures Exec(t, run + more).origins == Exec(t, run).origins
    ensures Exec(t, run + more).targets == Exec(t, run).targets
  {
    ReachableIsLawful(t, run);
    more := SettlesFrom(t, Exec(t, run));
    ResumeIsExec(t, run, more);
  }

  /** In particular each event settles. */
  lemma EventsSettle(t: Tree, run: seq<Action>) returns (more: seq<Action>)
    ensures Orderly(t, Exec(t, run), more) && Exec(t, run + more).origins == Exec(t, run).origins
    ensures forall e: nat :: e < |Exec(t, run).origins| ==> Settled(Exec(t, run + more), e)
  {
    more := EverythingSettles(t, run);
  }

  // ---------------------------------------------------------------------------
  // Without faults an event reaches everyone it is addressed to
  // ---------------------------------------------------------------------------

  /** One event has been sent; every child is registered to stay, and nobody has
      refused the event. */
  ghost predicate Clear(t: Tree, s: State) {
    && |s.origins| == 1 && s.leaving == {}
    && (forall n: nat :: n < |t| && t[n].Some? ==> n in s.registered)
    && (forall k :: k in s.homes ==> !Refusal(s.homes[k].place))
  }

  lemma {:induction false} AllTheSame<T>(xs: seq<T>, x: T)
    requires forall i :: 0 <= i < |xs| ==> xs[i] == x
    ensures multiset(xs)[x] == |xs|
  {
    if xs != [] {
      AllTheSame(xs[1..], x);
      assert xs == [xs[0]] + xs[1..];
    }
  }

  lemma OneCopyInBox(t: Tree, s: State, c: nat)
    requires Inv(t, s) && |s.origins| == 1
    ensures |Held(s, c, Box)| <= 1
  {
    var box := Held(s, c, Box);
    forall i | 0 <= i < |box|
      ensures box[i] == Copy(0, c)
    {
      HeldMeansHome(s.pool, s.homes, Spot(c, Box), i);
      assert CopyOk(t, s, box[i]);
    }
    AllTheSame(box, Copy(0, c));
    assert Count(s.pool, Spot(c, Box), Copy(0, c)) <= 1;
  }

  lemma HelpfulKeepsClear(t: Tree, s: State, a: Action)
    requires Inv(t, s) && Clear(t, s) && Helpful(a)
    ensures Clear(t, Next(t, s, a))
  {
    if a.Offer? && a.n in s.locks && a.child in s.locks[a.n].todo {
      assert CastOk(t, s, a.n);
      OneCopyInBox(t, s, a.child);
    }
  }

  lemma {:induction false} ClearFrom(t: Tree, s: State, more: seq<Action>)
    requires Lawful(t, s) && Clear(t, s) && Orderly(t, s, more)
    ensures Clear(t, Resume(t, s, more))
    decreases |more|
  {
    if more != [] {
      HelpfulKeepsClear(t, s, more[0]);
      NextIsLawful(t, s, more[0]);
      ClearFrom(t, Next(t, s, more[0]), more[1..]);
    }
  }

  lemma ClearRuns(t: Tree, run: seq<Action>, more: seq<Action>)
    requires Clear(t, Exec(t, run)) && Orderly(t, Exec(t, run), more)
    ensures Clear(t, Exec(t, run + more))
  {
    ReachableIsLawful(t, run);
    ClearFrom(t, Exec(t, run), more);
    ResumeIsExec(t, run, more);
  }

  lemma {:induction false} EveryoneRegisters(t: Tree, n: nat) returns (run: seq<Action>)
    requires n <= |t|
    ensures var s := Exec(t, run);
            s == INITIAL.(registered := s.registered) && forall m: nat :: m < n && t[m].Some? ==> m in s.registered
  {
    run := [];
    if n > 0 {
      run := EveryoneRegisters(t, n - 1);
      OneMore(t, run, Register(n - 1));
      run := run + [Register(n - 1)];
    }
  }

  lemma ClearReaches(t: Tree, run: seq<Action>, d: nat)
    requires Clear(t, Exec(t, run)) && Quiescent(Exec(t, run))
    requires |Exec(t, run).targets| == 1 && Addressed(t, Exec(t, run), 0, d)
    ensures Ran(Exec(t, run), d, 0)
  {
    SettledReach(t, run, 0, d);
  }

  // What is below c is below its parent.
  lemma BelowParent(t: Tree, c: nat, d: nat)
    requires c < |t| && t[c].Some? && Under(t, c, d)
    ensures StrictlyUnder(t, t[c].value, d)
  {
    var i: nat :| i < |Path(t, d)| && Path(t, d)[i] == c;
    PathClimbs(t, d, i);
    PathDescends(t, d);
    assert Path(t, d)[i + 1] == t[c].value;
  }

  /** SendToChild does propagate below the child it names: in every tree there is a
      run in which every node below that child runs its handlers for the event. */
  lemma TargetedReachesSubtree(t: Tree, c: nat) returns (run: seq<Action>)
    requires c < |t| && t[c].Some?
    ensures Exec(t, run).origins == [t[c].value] && Exec(t, run).targets == [Some(c)]
    ensures forall d: nat :: Under(t, c, d) ==> Ran(Exec(t, run), d, 0)
  {
    var before := EveryoneRegisters(t, |t|);
    var send := SendToChild(t[c].value, c);
    OneMore(t, before, send);
    assert Held(Exec(t, before), c, Box) == [];
    var more := EverythingSettles(t, before + [send]);
    ClearRuns(t, before + [send], more);
    run := before + [send] + more;
    forall d: nat | Under(t, c, d)
      ensures Ran(Exec(t, run), d, 0)
    {
      BelowParent(t, c, d);
      ClearReaches(t, run, d);
    }
  }

  /** And SendDown reaches every node below the sender. */
  lemma BroadcastReachesSubtree(t: Tree, p: nat) returns (run: seq<Action>)
    requires p < |t|
    ensures Exec(t, run).origins == [p] && Exec(t, run).targets == [None]
    ensures forall d: nat :: StrictlyUnder(t, p, d) ==> Ran(Exec(t, run), d, 0)
  {
    var before := EveryoneRegisters(t, |t|);
    OneMore(t, before, SendDown(p));
    var more := EverythingSettles(t, before + [SendDown(p)]);
    ClearRuns(t, before + [SendDown(p)], more);
    run := before + [SendDown(p)] + more;
    forall d: nat | StrictlyUnder(t, p, d)
      ensures Ran(Exec(t, run), d, 0)
    {
      ClearReaches(t, run, d);
    }
  }

  lemma OnlyChildless(t: Tree, c: nat, d: nat)
    requires Under(t, c, d) && d != c
    ensures Children(t, c) != {}
  {
    var i: nat :| i < |Path(t, d)| && Path(t, d)[i] == c;
    PathClimbs(t, d, i - 1);
    PathClimbs(t, d, i);
    assert Path(t, d)[i - 1] in Children(t, c);
  }

  lemma ChildIsUnder(t: Tree, c: nat, d: nat)
    requires d in Children(t, c)
    ensures Under(t, c, d) && d != c
  {
    assert t[d] == Some(c);
    assert Path(t, d) == [d] + Path(t, c);
    assert Path(t, c)[0] == c;
    assert c in Path(t, d) by { assert Path(t, d)[1] == c; }
  }

  /** Only child c has run handlers for any event that a SendToChild sent to it. */
  ghost predicate StopsAtTarget(t: Tree, s: State, c: nat) {
    forall e: nat, d: nat ::
      e < |s.origins| == |s.targets| && s.targets[e] == Some(c) && Ran(s, d, e) ==> d == c
  }

  lemma StaysWithChildless(t: Tree, c: nat, run: seq<Action>)
    requires Children(t, c) == {}
    ensures StopsAtTarget(t, Exec(t, run), c)
  {
    var s := Exec(t, run);
    forall e: nat, d: nat | e < |s.origins| == |s.targets| && s.targets[e] == Some(c) && Ran(s, d, e)
      ensures d == c
    {
      OnlyTheAddressed(t, run, e, d);
      if d != c {
        OnlyChildless(t, c, d);
      }
    }
  }

  /** SendToChild does what its comment says, and goes no further than the child it
      names, iff that child has no children of its own. */
  lemma StaysIffChildless(t: Tree, c: nat)
    requires c < |t| && t[c].Some?
    ensures (forall run :: StopsAtTarget(t, Exec(t, run), c)) <==> Children(t, c) == {}
  {
    if Children(t, c) == {} {
      forall run
        ensures StopsAtTarget(t, Exec(t, run), c)
      {
        StaysWithChildless(t, c, run);
      }
    } else {
      var d :| d in Children(t, c);
      var run := TargetedReachesSubtree(t, c);
      ChildIsUnder(t, c, d);
      assert Ran(Exec(t, run), d, 0) && !StopsAtTarget(t, Exec(t, run), c);
    }
  }
}
