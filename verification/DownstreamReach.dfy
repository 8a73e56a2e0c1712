/** Who receives a downstream event. */
module DownstreamReach {
  import opened Wrappers
  import opened Channels
  import opened Topology
  import opened Tokens
  import opened Downstream
  import opened DownstreamInvariant

  /** Node d has run its handlers for event e. */
  ghost predicate Ran(s: State, d: nat, e: nat) {
    e in At(s.ran, d)
  }

  lemma RanMeans(t: Tree, s: State, d: nat, e: nat)
    requires Inv(t, s)
    ensures Ran(s, d, e) <==> Copy(e, d) in s.homes && HasRun(s.homes[Copy(e, d)].place)
    ensures multiset(At(s.ran, d))[e] <= 1
  {
    assert RanOk(s, d, e);
    assert e in At(s.ran, d) <==> e in multiset(At(s.ran, d));
  }

  /** The nodes that run handlers for an event are strict descendants of its
      origin, of the named child for a SendToChild, each once; and with a node
      its parent has too, unless the parent is the origin. */
  lemma OnlyTheAddressed(t: Tree, run: seq<Action>, e: nat, d: nat)
    requires e < |Exec(t, run).origins| && Ran(Exec(t, run), d, e)
    ensures |Exec(t, run).origins| == |Exec(t, run).targets|
    ensures var s := Exec(t, run);
            && Addressed(t, s, e, d)
            && multiset(At(s.ran, d))[e] == 1
            && t[d].Some?
            && (t[d].value != s.origins[e] ==> Ran(s, t[d].value, e))
  {
    var s := Exec(t, run);
    RunKeepsInv(t, run);
    RanMeans(t, s, d, e);
    assert CopyOk(t, s, Copy(e, d));
    RanMeans(t, s, t[d].value, e);
    assert e in multiset(At(s.ran, d));
  }

  /** Nothing more will happen to event e by itself: no copy is on its way and no
      broadcast of it is running. */
  ghost predicate Settled(s: State, e: nat)
    requires e < |s.origins|
  {
    && (forall d: nat :: Copy(e, d) in s.homes
          ==> s.homes[Copy(e, d)].place == Done || Refusal(s.homes[Copy(e, d)].place))
    && !Locks(s, s.origins[e], e)
  }

  /** The copy of e for d was refused: its channel was full, its connection ended
      first, its stream died, or it was not registered. */
  ghost predicate Refused(s: State, e: nat, d: nat) {
    Copy(e, d) in s.homes && Refusal(s.homes[Copy(e, d)].place)
  }

  /** No node from d up to below the origin refused e. */
  ghost predicate PathAccepts(t: Tree, s: State, e: nat, d: nat)
    requires e < |s.origins| && d < |t|
  {
    forall x :: x in Path(t, d) && StrictlyUnder(t, s.origins[e], x) ==> !Refused(s, e, x)
  }

  lemma TargetIsChild(t: Tree, s: State, e: nat, c: nat)
    requires Inv(t, s) && e < |s.origins| && s.targets[e] == Some(c)
    ensures Copy(e, c) in s.homes && c < |t| && t[c] == Some(s.origins[e])
  {
    assert CopyOk(t, s, Copy(e, c));
    var p := t[c].value;
    if Copy(e, p) in s.homes {
      assert CopyOk(t, s, Copy(e, p));
      PathDescends(t, p);
    }
  }

  // What is below a is so through its parent, unless it is a itself.
  lemma UnderParent(t: Tree, a: nat, d: nat)
    requires StrictlyUnder(t, a, d)
    ensures t[d].Some? && Under(t, a, t[d].value)
  {
    assert Path(t, d) == [d] + if t[d].Some? then Path(t, t[d].value) else [];
  }

  // A child of the origin that is below the named child is the named child.
  lemma NoTargetBetween(t: Tree, s: State, e: nat, d: nat)
    requires Inv(t, s) && e < |s.origins| && Addressed(t, s, e, d) && t[d] == Some(s.origins[e])
    ensures s.targets[e].Some? ==> s.targets[e] == Some(d)
  {
    if s.targets[e].Some? && s.targets[e] != Some(d) {
      TargetIsChild(t, s, e, s.targets[e].value);
      UnderParent(t, s.targets[e].value, d);
      PathDescends(t, s.origins[e]);
    }
  }

  lemma {:induction false} AcceptedMeansRan(t: Tree, s: State, e: nat, d: nat)
    requires Inv(t, s) && e < |s.origins| && Settled(s, e) && Addressed(t, s, e, d)
    requires PathAccepts(t, s, e, d)
    ensures Copy(e, d) in s.homes && s.homes[Copy(e, d)].place == Done
    decreases d
  {
    UnderParent(t, s.origins[e], d);
    var p := t[d].value;
    assert Path(t, d) == [d] + Path(t, p);
    if s.targets[e].Some? {
      TargetIsChild(t, s, e, s.targets[e].value);
    }
    if s.targets[e] != Some(d) {
      if p == s.origins[e] {
        NoTargetBetween(t, s, e, d);
      } else {
        if s.targets[e].Some? {
          UnderParent(t, s.targets[e].value, d);
        }
        AcceptedMeansRan(t, s, e, p);
      }
      assert Complete(t, s, e, p) && WasOffered(t, s, e, p);
    }
    assert Path(t, d)[0] == d;
    assert !Refused(s, e, d);
  }

  lemma {:induction false} RanMeansAccepted(t: Tree, s: State, e: nat, d: nat)
    requires Inv(t, s) && e < |s.origins| && Copy(e, d) in s.homes && HasRun(s.homes[Copy(e, d)].place)
    ensures d < |t| && PathAccepts(t, s, e, d)
    decreases d
  {
    assert CopyOk(t, s, Copy(e, d));
    var p := t[d].value;
    assert Path(t, d) == [d] + Path(t, p);
    if s.origins[e] == p {
      forall x | x in Path(t, d) && StrictlyUnder(t, s.origins[e], x)
        ensures x == d
      {
        PathDescends(t, p);
        PathDescends(t, x);
      }
    } else {
      RanMeansAccepted(t, s, e, p);
    }
  }

  /** Once an event has settled, a node it is addressed to has run its handlers
      for it iff no mailbox and no link from below the origin down to it refused.
      For a SendToChild these are all the nodes below the named child. */
  lemma SettledReach(t: Tree, run: seq<Action>, e: nat, d: nat)
    requires e < |Exec(t, run).origins| == |Exec(t, run).targets|
    requires Settled(Exec(t, run), e) && Addressed(t, Exec(t, run), e, d)
    ensures Ran(Exec(t, run), d, e) <==> PathAccepts(t, Exec(t, run), e, d)
  {
    var s := Exec(t, run);
    RunKeepsInv(t, run);
    RanMeans(t, s, d, e);
    if Ran(s, d, e) {
      RanMeansAccepted(t, s, e, d);
    }
    if PathAccepts(t, s, e, d) {
      AcceptedMeansRan(t, s, e, d);
    }
  }

  /** SendToChild reaches nobody in the subtree of a sibling. */
  lemma SiblingsGetNothing(t: Tree, run: seq<Action>, e: nat, c: nat, sibling: nat, d: nat)
    requires e < |Exec(t, run).origins| == |Exec(t, run).targets| && Exec(t, run).targets[e] == Some(c)
    requires c < |t| && sibling < |t| && sibling != c && t[sibling] == t[c] && Under(t, sibling, d)
    ensures !Ran(Exec(t, run), d, e)
  {
    if Ran(Exec(t, run), d, e) {
      OnlyTheAddressed(t, run, e, d);
      var path := Path(t, d);
      var i: nat :| i < |path| && path[i] == c;
      var j: nat :| j < |path| && path[j] == sibling;
      RunKeepsInv(t, run);
      TargetIsChild(t, Exec(t, run), e, c);
      PathClimbs(t, d, i);
      PathClimbs(t, d, j);
      PathDescends(t, d);
    }
  }

  // ---------------------------------------------------------------------------
  // What a refusal means
  // ---------------------------------------------------------------------------

  /** Where a copy goes at first: into the channel iff the child is registered and
      its channel holds fewer than 16 envelopes; else it is refused for the one
      reason or the other. */
  ghost predicate FirstPlace(s: State, c: nat, p: Place) {
    && (p == Box <==> c in s.registered && |Held(s, c, Box)| < 16)
    && (p == Dropped <==> c in s.registered && |Held(s, c, Box)| == 16)
    && (p == Absent <==> c !in s.registered)
  }

  lemma NoNewCopies(t: Tree, s: State, a: Action)
    requires Located(s.pool, s.homes) && !a.Offer? && !a.SendToChild?
    ensures Next(t, s, a).homes.Keys == s.homes.Keys
  {
    var s' := Next(t, s, a);
    if s' != s {
      match a
      case Pop(n) => HeldMeansHome(s.pool, s.homes, Spot(n, Box), 0);
      case SendOk(n) => HeldMeansHome(s.pool, s.homes, Spot(n, Hand), 0);
      case SendErr(n) => HeldMeansHome(s.pool, s.homes, Spot(n, Hand), 0);
      case Lose(n, i) => HeldMeansHome(s.pool, s.homes, Spot(n, Wire), i);
      case Recv(n, i) => HeldMeansHome(s.pool, s.homes, Spot(n, Wire), i);
      case RunHandlers(n, i) => HeldMeansHome(s.pool, s.homes, Spot(n, Received), i);
      case StartCast(n, i) => HeldMeansHome(s.pool, s.homes, Spot(n, Handled), i);
      case EndCast(n) =>
        if !s.locks[n].own && Held(s, n, Casting) != [] {
          HeldMeansHome(s.pool, s.homes, Spot(n, Casting), 0);
        }
      case SendDown(_) => case Register(_) => case CtxDone(_) => case Unregister(_) =>
    }
  }

  lemma NewCopy(t: Tree, run: seq<Action>, a: Action, k: Copy)
    requires k !in Exec(t, run).homes && k in Next(t, Exec(t, run), a).homes
    ensures var s, home := Exec(t, run), Next(t, Exec(t, run), a).homes[k];
            home.node == k.node && FirstPlace(s, k.node, home.place)
  {
    var s := Exec(t, run);
    RunKeepsInv(t, run);
    assert |Held(s, k.node, Box)| <= CAPACITY;
    if !a.Offer? && !a.SendToChild? {
      NoNewCopies(t, s, a);
    }
  }

  lemma NotYetOffered(t: Tree, s: State, n: nat)
    requires Inv(t, s) && n in s.locks
    ensures forall c :: c in s.locks[n].todo ==> Copy(s.locks[n].event, c) !in s.homes
  {
    assert CastOk(t, s, n);
  }

  /** A copy once accepted is refused only by a stream that dies, or at a failed
      Send or the disconnect of its child's handler. */
  lemma RefusedLater(t: Tree, run: seq<Action>, a: Action, k: Copy)
    requires k in Exec(t, run).homes && !Refused(Exec(t, run), k.event, k.node)
    requires Refused(Next(t, Exec(t, run), a), k.event, k.node)
    ensures var home, home' := Exec(t, run).homes[k], Next(t, Exec(t, run), a).homes[k];
            || (home.place == Wire && home'.place == Lost && a.Lose? && a.n == k.node)
            || (home.place == Hand && home'.place == Discarded && a == SendErr(k.node))
            || (home.place == Box && home'.place == Discarded && a == Unregister(k.node))
  {
    var s := Exec(t, run);
    RunKeepsInv(t, run);
    assert CopyOk(t, s, k);
    if a.Lose? {
      HeldMeansHome(s.pool, s.homes, Spot(a.n, Wire), a.i);
    } else if a.SendErr? {
      HeldMeansHome(s.pool, s.homes, Spot(a.n, Hand), 0);
    } else if a.Offer? && a.n in s.locks {
      NotYetOffered(t, s, a.n);
    }
  }

  // A handler sends what it popped before it pops again.
  lemma NextKeepsOneInHand(t: Tree, s: State, a: Action, n: nat)
    requires |Held(s, n, Hand)| <= 1
    ensures |Held(Next(t, s, a), n, Hand)| <= 1
  {
  }

  lemma {:induction false} OneInHand(t: Tree, run: seq<Action>, n: nat)
    ensures |Held(Exec(t, run), n, Hand)| <= 1
  {
    if run != [] {
      OneInHand(t, run[..|run| - 1], n);
      NextKeepsOneInHand(t, Exec(t, run[..|run| - 1]), run[|run| - 1], n);
    }
  }

  // The i-th copy in a buffer of its node.
  ghost predicate InBuffer(t: Tree, s: State, k: Copy, p: Place, i: nat) {
    && k.node < |t| && t[k.node].Some? && k in s.homes && s.homes[k] == Spot(k.node, p)
    && i < |Held(s, k.node, p)| && Held(s, k.node, p)[i] == k
  }

  lemma DiesWithStream(t: Tree, s: State, k: Copy, i: nat)
    requires InBuffer(t, s, k, Wire, i)
    ensures Refused(Next(t, s, Lose(k.node, i)), k.event, k.node)
  {
  }

  lemma FailsToBeSent(t: Tree, s: State, k: Copy)
    requires InBuffer(t, s, k, Hand, 0)
    ensures var s' := Next(t, s, SendErr(k.node)); Refused(s', k.event, k.node) && k.node in s'.leaving
  {
  }

  lemma LeftInChannel(t: Tree, s: State, k: Copy, i: nat)
    requires InBuffer(t, s, k, Box, i) && k.node in s.leaving && t[k.node].value !in s.locks
    ensures Refused(Next(t, s, Unregister(k.node)), k.event, k.node)
  {
  }

  lemma WhereItIs(t: Tree, run: seq<Action>, k: Copy) returns (i: nat)
    requires k in Exec(t, run).homes
    ensures InBuffer(t, Exec(t, run), k, Exec(t, run).homes[k].place, i)
    ensures Exec(t, run).homes[k].place == Hand ==> i == 0
  {
    var s := Exec(t, run);
    RunKeepsInv(t, run);
    assert CopyOk(t, s, k);
    HomeMeansHeld(s.pool, s.homes, k);
    i :| i < |At(s.pool, s.homes[k])| && At(s.pool, s.homes[k])[i] == k;
    OneInHand(t, run, k.node);
  }

  /** And each of these can happen: on the link at any moment; in the handler's hand at
      any moment, after which the handler is leaving; in the channel as soon as the
      handler is leaving and the parent is not broadcasting. A handler with nothing in
      hand can come to leave at any moment. */
  lemma EachRefusalHappens(t: Tree, run: seq<Action>, k: Copy)
    requires k in Exec(t, run).homes
    ensures k.node < |t| && t[k.node].Some?
    ensures var s, n := Exec(t, run), k.node;
            && (s.homes[k].place == Wire ==> exists i: nat :: Refused(Next(t, s, Lose(n, i)), k.event, n))
            && (s.homes[k].place == Hand ==>
                  Refused(Next(t, s, SendErr(n)), k.event, n) && n in Next(t, s, SendErr(n)).leaving)
            && (s.homes[k].place == Box && n in s.leaving && t[n].value !in s.locks ==>
                  Refused(Next(t, s, Unregister(n)), k.event, n))
            && (n in s.registered && Held(s, n, Hand) == [] ==> n in Next(t, s, CtxDone(n)).leaving)
  {
    var s := Exec(t, run);
    var i := WhereItIs(t, run, k);
    var place := s.homes[k].place;
    if place == Wire {
      DiesWithStream(t, s, k, i);
    } else if place == Hand {
      FailsToBeSent(t, s, k);
    } else if place == Box && k.node in s.leaving && t[k.node].value !in s.locks {
      LeftInChannel(t, s, k, i);
    }
  }
}
