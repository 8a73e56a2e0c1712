/** What every run of the downstream machine keeps. */
module DownstreamInvariant {
  import opened Wrappers
  import opened Channels
  import opened Topology
  import opened Tokens
  import opened Downstream

  predicate HasRun(p: Place) {
    p.Handled? || p.Casting? || p.Done?
  }

  predicate HasCast(p: Place) {
    p.Casting? || p.Done?
  }

  predicate Refusal(p: Place) {
    p.Dropped? || p.Discarded? || p.Lost? || p.Absent?
  }

  /** Node p offers, or has offered, event e to its child c. */
  ghost predicate Feeds(s: State, e: nat, p: nat, c: nat)
    requires e < |s.origins| == |s.targets|
  {
    || (s.origins[e] == p && (s.targets[e].None? || s.targets[e] == Some(c)))
    || (Copy(e, p) in s.homes && HasCast(s.homes[Copy(e, p)].place))
  }

  /** e may go to node d: d is below its origin, and below the child it names. */
  ghost predicate Addressed(t: Tree, s: State, e: nat, d: nat)
    requires e < |s.origins| == |s.targets|
  {
    && StrictlyUnder(t, s.origins[e], d)
    && (s.targets[e].Some? ==> Under(t, s.targets[e].value, d))
  }

  ghost predicate CopyOk(t: Tree, s: State, k: Copy)
    requires |s.origins| == |s.targets| && k in s.homes
  {
    && s.homes[k].node == k.node
    && k.event < |s.origins| && k.node < |t| && t[k.node].Some?
    && Feeds(s, k.event, t[k.node].value, k.node)
    && Addressed(t, s, k.event, k.node)
    && (s.homes[k].place == Casting ==> k.node in s.locks && s.locks[k.node].event == k.event && !s.locks[k.node].own)
  }

  ghost predicate CastOk(t: Tree, s: State, p: nat)
    requires |s.origins| == |s.targets| && p in s.locks
  {
    var cast := s.locks[p];
    && cast.event < |s.origins| && cast.todo <= Children(t, p)
    && (forall c :: c in cast.todo ==> Copy(cast.event, c) !in s.homes)
    && (forall c :: c in Children(t, p) - cast.todo ==> Copy(cast.event, c) in s.homes)
    && if cast.own then s.origins[cast.event] == p && s.targets[cast.event].None?
       else Copy(cast.event, p) in s.homes && s.homes[Copy(cast.event, p)] == Spot(p, Casting)
  }

  ghost predicate Locks(s: State, p: nat, e: nat) {
    p in s.locks && s.locks[p].event == e
  }

  ghost predicate WasOffered(t: Tree, s: State, e: nat, p: nat) {
    forall c :: c in Children(t, p) ==> Copy(e, c) in s.homes
  }

  /** Everything that has been broadcast was offered to every child. */
  ghost predicate Complete(t: Tree, s: State, e: nat, p: nat)
    requires e < |s.origins| == |s.targets|
  {
    (|| (s.origins[e] == p && s.targets[e].None? && !Locks(s, p, e))
     || (Copy(e, p) in s.homes && s.homes[Copy(e, p)].place == Done))
    ==> WasOffered(t, s, e, p)
  }

  ghost predicate RanOk(s: State, c: nat, e: nat) {
    multiset(At(s.ran, c))[e] == if Copy(e, c) in s.homes && HasRun(s.homes[Copy(e, c)].place) then 1 else 0
  }

  ghost predicate Structure(t: Tree, s: State) {
    && |s.origins| == |s.targets|
    && (forall k {:trigger CopyOk(t, s, k)} :: k in s.homes ==> CopyOk(t, s, k))
    && (forall p {:trigger CastOk(t, s, p)} :: p in s.locks ==> CastOk(t, s, p))
    && (forall e: nat, p: nat {:trigger Complete(t, s, e, p)} :: e < |s.origins| ==> Complete(t, s, e, p))
    && (forall e: nat :: e < |s.origins| && s.targets[e].Some? ==> Copy(e, s.targets[e].value) in s.homes)
    && (forall e: nat :: e < |s.origins| ==> s.origins[e] < |t|)
  }

  ghost predicate RanInv(s: State) {
    forall c: nat, e: nat :: RanOk(s, c, e)
  }

  ghost predicate BoxInv(s: State) {
    forall c: nat :: |Held(s, c, Box)| <= CAPACITY
  }

  ghost predicate Inv(t: Tree, s: State) {
    Structure(t, s) && RanInv(s) && BoxInv(s) && Located(s.pool, s.homes)
  }

  // ---------------------------------------------------------------------------
  // Every action keeps it
  // ---------------------------------------------------------------------------

  /** s' differs from s in nothing the structure speaks of. */
  ghost predicate Similar(s: State, s': State) {
    && s'.origins == s.origins && s'.targets == s.targets && s'.locks == s.locks
    && s'.homes.Keys == s.homes.Keys
    && forall k :: k in s.homes ==>
         && s'.homes[k].node == s.homes[k].node
         && (s'.homes[k].place == Casting <==> s.homes[k].place == Casting)
         && (s'.homes[k].place == Done <==> s.homes[k].place == Done)
  }

  lemma SimilarCopy(t: Tree, s: State, s': State, k: Copy)
    requires |s.origins| == |s.targets| && Similar(s, s') && k in s.homes && CopyOk(t, s, k)
    ensures CopyOk(t, s', k)
  {
  }

  lemma SimilarCast(t: Tree, s: State, s': State, p: nat)
    requires |s.origins| == |s.targets| && Similar(s, s') && p in s.locks && CastOk(t, s, p)
    ensures CastOk(t, s', p)
  {
  }

  lemma SimilarComplete(t: Tree, s: State, s': State, e: nat, p: nat)
    requires e < |s.origins| == |s.targets| && Similar(s, s') && Complete(t, s, e, p)
    ensures Complete(t, s', e, p)
  {
  }

  lemma SimilarKeepsStructure(t: Tree, s: State, s': State)
    requires Structure(t, s) && Similar(s, s')
    ensures Structure(t, s')
  {
    forall x | x in s'.homes
      ensures CopyOk(t, s', x)
    {
      SimilarCopy(t, s, s', x);
    }
    forall m | m in s'.locks
      ensures CastOk(t, s', m)
    {
      SimilarCast(t, s, s', m);
    }
    forall e: nat, m: nat | e < |s.origins|
      ensures Complete(t, s', e, m)
    {
      SimilarComplete(t, s, s', e, m);
    }
  }

  // The handler log and the mailboxes, one entry at a time.
  lemma SameRan(s: State, s': State, c: nat, e: nat)
    requires RanOk(s, c, e) && At(s'.ran, c) == At(s.ran, c)
    requires Copy(e, c) in s.homes <==> Copy(e, c) in s'.homes
    requires Copy(e, c) in s.homes ==> HasRun(s.homes[Copy(e, c)].place) == HasRun(s'.homes[Copy(e, c)].place)
    ensures RanOk(s', c, e)
  {
  }

  lemma ShiftBoxes(s: State, n: nat, p: Place, i: nat, q: Place, c: nat)
    requires i < |Held(s, n, p)| && p != q && q != Box
    ensures |Held(Shift(s, n, p, i, q), c, Box)| <= |Held(s, c, Box)|
  {
  }

  lemma ShiftIsSimilar(t: Tree, s: State, n: nat, p: Place, i: nat, q: Place)
    requires Inv(t, s) && i < |Held(s, n, p)| && p != q && !HasCast(p) && !HasCast(q)
    ensures var k := Held(s, n, p)[i];
            k in s.homes && s.homes[k] == Spot(n, p) && k.node == n && Similar(s, Shift(s, n, p, i, q))
  {
    var k := Held(s, n, p)[i];
    HeldMeansHome(s.pool, s.homes, Spot(n, p), i);
    assert CopyOk(t, s, k);
  }

  // A copy for node n moves on without being cast or starting to count as run.
  lemma ShiftKeepsInv(t: Tree, s: State, n: nat, p: Place, i: nat, q: Place)
    requires Inv(t, s) && i < |Held(s, n, p)| && p != q
    requires q != Box && !HasRun(p) && !HasRun(q)
    ensures Inv(t, Shift(s, n, p, i, q))
  {
    var s' := Shift(s, n, p, i, q);
    MoveKeepsLocated(s.pool, s.homes, Spot(n, p), i, Spot(n, q));
    ShiftIsSimilar(t, s, n, p, i, q);
    SimilarKeepsStructure(t, s, s');
    forall c: nat, e: nat
      ensures RanOk(s', c, e)
    {
      assert RanOk(s, c, e);
      SameRan(s, s', c, e);
    }
    forall c: nat
      ensures |Held(s', c, Box)| <= CAPACITY
    {
      ShiftBoxes(s, n, p, i, q, c);
    }
  }

  lemma IdleKeepsInv(t: Tree, s: State, registered: set<nat>, leaving: set<nat>)
    requires Inv(t, s)
    ensures Inv(t, s.(registered := registered, leaving := leaving))
  {
    var s' := s.(registered := registered, leaving := leaving);
    SimilarKeepsStructure(t, s, s');
    forall c: nat, e: nat
      ensures RanOk(s', c, e)
    {
      assert RanOk(s, c, e);
      SameRan(s, s', c, e);
    }
    assert forall c: nat :: Held(s', c, Box) == Held(s, c, Box);
  }

  lemma UnregisterKeepsInv(t: Tree, s: State, n: nat)
    requires Inv(t, s) && n < |t|
    ensures Inv(t, Next(t, s, Unregister(n)))
  {
    var s' := Next(t, s, Unregister(n));
    if s' != s {
      PourKeepsLocated(s.pool, s.homes, Spot(n, Box), Spot(n, Discarded));
      assert s'.homes == Rehome(s.homes, Spot(n, Box), Spot(n, Discarded));
      SimilarKeepsStructure(t, s, s');
      forall c: nat, e: nat
        ensures RanOk(s', c, e)
      {
        assert RanOk(s, c, e);
        SameRan(s, s', c, e);
      }
      assert forall c: nat :: |Held(s', c, Box)| <= |Held(s, c, Box)|;
    }
  }

  lemma RunHandlersKeepsInv(t: Tree, s: State, n: nat, i: nat)
    requires Inv(t, s) && n < |t| && i < |Held(s, n, Received)|
    ensures Inv(t, Next(t, s, RunHandlers(n, i)))
  {
    var s', k := Next(t, s, RunHandlers(n, i)), Held(s, n, Received)[i];
    MoveKeepsLocated(s.pool, s.homes, Spot(n, Received), i, Spot(n, Handled));
    ShiftIsSimilar(t, s, n, Received, i, Handled);
    SimilarKeepsStructure(t, s, s');
    forall c: nat, e: nat
      ensures RanOk(s', c, e)
    {
      assert RanOk(s, c, e);
      if Copy(e, c) == k {
        PutCounts(s.ran, n, k.event, c, e);
      } else {
        PutCounts(s.ran, n, k.event, c, e);
      }
    }
    forall c: nat
      ensures |Held(s', c, Box)| <= CAPACITY
    {
      ShiftBoxes(s, n, Received, i, Handled, c);
    }
  }

  // No child of p has a copy of an event that p has a copy of but has not cast.
  lemma NotYetFed(t: Tree, s: State, e: nat, p: nat, c: nat)
    requires Structure(t, s) && Copy(e, p) in s.homes && !HasCast(s.homes[Copy(e, p)].place) && c in Children(t, p)
    ensures Copy(e, c) !in s.homes
  {
    assert CopyOk(t, s, Copy(e, p));
    assert Copy(e, c) in s.homes ==> CopyOk(t, s, Copy(e, c));
  }

  /** s' goes on from s: more events, more copies, more of them cast. */
  ghost predicate Extends(s: State, s': State) {
    && |s.origins| == |s.targets| && |s'.origins| == |s'.targets|
    && s.origins <= s'.origins && s.targets <= s'.targets
    && forall k :: k in s.homes ==>
         && k in s'.homes && s'.homes[k].node == s.homes[k].node
         && (HasCast(s.homes[k].place) ==> HasCast(s'.homes[k].place))
  }

  lemma CopyExtends(t: Tree, s: State, s': State, k: Copy)
    requires Extends(s, s') && k in s.homes && CopyOk(t, s, k)
    requires s'.homes[k].place == Casting
         ==> k.node in s'.locks && s'.locks[k.node].event == k.event && !s'.locks[k.node].own
    ensures CopyOk(t, s', k)
  {
  }

  lemma CastExtends(t: Tree, s: State, s': State, p: nat)
    requires Extends(s, s') && p in s.locks && p in s'.locks && s'.locks[p] == s.locks[p] && CastOk(t, s, p)
    requires forall c :: c in s.locks[p].todo ==> Copy(s.locks[p].event, c) !in s'.homes
    requires !s.locks[p].own ==> var k := Copy(s.locks[p].event, p); k in s'.homes && s'.homes[k] == Spot(p, Casting)
    ensures CastOk(t, s', p)
  {
  }

  lemma CompleteExtends(t: Tree, s: State, s': State, e: nat, p: nat)
    requires Extends(s, s') && e < |s.origins| && Complete(t, s, e, p)
    requires s.origins[e] == p && s.targets[e].None? && Locks(s, p, e) ==> Locks(s', p, e) || WasOffered(t, s', e, p)
    requires Copy(e, p) in s'.homes && s'.homes[Copy(e, p)].place == Done
         ==> (Copy(e, p) in s.homes && s.homes[Copy(e, p)].place == Done) || WasOffered(t, s', e, p)
    ensures Complete(t, s', e, p)
  {
  }

  /** No broadcast ends between s and s'. */
  ghost predicate NothingEnds(s: State, s': State) {
    && (forall p :: p in s.locks ==> p in s'.locks && s'.locks[p].event == s.locks[p].event)
    && (forall k :: k in s'.homes && s'.homes[k].place == Done ==> k in s.homes && s.homes[k].place == Done)
  }

  lemma CompleteStays(t: Tree, s: State, s': State, e: nat, p: nat)
    requires Extends(s, s') && NothingEnds(s, s') && e < |s.origins| && Complete(t, s, e, p)
    ensures Complete(t, s', e, p)
  {
    CompleteExtends(t, s, s', e, p);
  }

  lemma AllCopiesStay(t: Tree, s: State, s': State)
    requires Structure(t, s) && Extends(s, s')
    requires forall k :: k in s.homes && s'.homes[k].place == Casting
               ==> k.node in s'.locks && s'.locks[k.node].event == k.event && !s'.locks[k.node].own
    ensures forall k {:trigger CopyOk(t, s', k)} :: k in s.homes ==> CopyOk(t, s', k)
  {
    forall k | k in s.homes
      ensures CopyOk(t, s', k)
    {
      assert CopyOk(t, s, k);
      CopyExtends(t, s, s', k);
    }
  }

  // The casts of nodes other than n, when only copies for children of n are new.
  lemma OtherCastsStay(t: Tree, s: State, s': State, n: nat)
    requires Structure(t, s) && Extends(s, s')
    requires forall k :: k in s'.homes && k !in s.homes ==> k.node in Children(t, n)
    requires forall k :: k in s.homes && k.node != n ==> s'.homes[k] == s.homes[k]
    requires forall m :: m in s.locks && m != n ==> m in s'.locks && s'.locks[m] == s.locks[m]
    ensures forall m {:trigger CastOk(t, s', m)} :: m in s.locks && m != n ==> CastOk(t, s', m)
  {
    forall m | m in s.locks && m != n
      ensures CastOk(t, s', m)
    {
      assert CastOk(t, s, m);
      CastExtends(t, s, s', m);
    }
  }

  lemma AllCompleteStay(t: Tree, s: State, s': State)
    requires Structure(t, s) && Extends(s, s') && NothingEnds(s, s')
    ensures forall e: nat, p: nat {:trigger Complete(t, s', e, p)} :: e < |s.origins| ==> Complete(t, s', e, p)
  {
    forall e: nat, p: nat | e < |s.origins|
      ensures Complete(t, s', e, p)
    {
      assert Complete(t, s, e, p);
      CompleteStays(t, s, s', e, p);
    }
  }

  /** s' has the same events as s. */
  ghost predicate SameEvents(s: State, s': State) {
    s'.origins == s.origins && s'.targets == s.targets
  }

  lemma StartedCast(t: Tree, s: State, s': State, n: nat, k: Copy)
    requires Structure(t, s) && k in s.homes && s.homes[k] == Spot(n, Handled) && k.node == n
    requires SameEvents(s, s') && s'.homes == s.homes[k := Spot(n, Casting)]
    requires n in s'.locks && s'.locks[n] == Cast(k.event, Children(t, n), false)
    ensures CastOk(t, s', n)
  {
    assert CopyOk(t, s, k);
    forall c | c in Children(t, n)
      ensures Copy(k.event, c) !in s.homes
    {
      NotYetFed(t, s, k.event, n, c);
    }
  }

  lemma StartCastKeepsStructure(t: Tree, s: State, s': State, n: nat, k: Copy)
    requires Structure(t, s) && n !in s.locks && k in s.homes && s.homes[k] == Spot(n, Handled) && k.node == n
    requires SameEvents(s, s') && s'.homes == s.homes[k := Spot(n, Casting)]
    requires s'.locks == s.locks[n := Cast(k.event, Children(t, n), false)]
    ensures Structure(t, s')
  {
    assert CopyOk(t, s, k);
    assert Extends(s, s') && NothingEnds(s, s');
    forall x | x in s.homes && s'.homes[x].place == Casting
      ensures x.node in s'.locks && s'.locks[x.node].event == x.event && !s'.locks[x.node].own
    {
      assert CopyOk(t, s, x);
    }
    AllCopiesStay(t, s, s');
    OtherCastsStay(t, s, s', n);
    StartedCast(t, s, s', n, k);
    AllCompleteStay(t, s, s');
  }

  lemma StartCastKeepsInv(t: Tree, s: State, n: nat, i: nat)
    requires Inv(t, s) && n < |t| && i < |Held(s, n, Handled)| && n !in s.locks
    ensures Inv(t, Next(t, s, StartCast(n, i)))
  {
    var s', k := Next(t, s, StartCast(n, i)), Held(s, n, Handled)[i];
    HeldMeansHome(s.pool, s.homes, Spot(n, Handled), i);
    assert CopyOk(t, s, k);
    StartCastKeepsStructure(t, s, s', n, k);
    MoveKeepsLocated(s.pool, s.homes, Spot(n, Handled), i, Spot(n, Casting));
    forall c: nat, e: nat
      ensures RanOk(s', c, e)
    {
      assert RanOk(s, c, e);
      SameRan(s, s', c, e);
    }
    forall c: nat
      ensures |Held(s', c, Box)| <= CAPACITY
    {
      ShiftBoxes(s, n, Handled, i, Casting, c);
    }
  }

  // The copy an EndCast is about.
  lemma CastIsHeld(t: Tree, s: State, n: nat)
    requires Inv(t, s) && n in s.locks && !s.locks[n].own
    ensures Held(s, n, Casting) != [] && Held(s, n, Casting)[0] == Copy(s.locks[n].event, n)
  {
    assert CastOk(t, s, n);
    HomeMeansHeld(s.pool, s.homes, Copy(s.locks[n].event, n));
    var k := Held(s, n, Casting)[0];
    HeldMeansHome(s.pool, s.homes, Spot(n, Casting), 0);
    assert CopyOk(t, s, k);
  }

  lemma EndCastCompletes(t: Tree, s: State, s': State, n: nat, e: nat, p: nat)
    requires Extends(s, s') && n in s.locks && e < |s.origins| && Complete(t, s, e, p)
    requires s'.locks == s.locks - {n} && WasOffered(t, s', s.locks[n].event, n)
    requires s'.homes == s.homes || s'.homes == s.homes[Copy(s.locks[n].event, n) := Spot(n, Done)]
    ensures Complete(t, s', e, p)
  {
    CompleteExtends(t, s, s', e, p);
  }

  lemma EndCastKeepsStructure(t: Tree, s: State, s': State, n: nat)
    requires Structure(t, s) && n in s.locks && s.locks[n].todo == {}
    requires SameEvents(s, s') && s'.locks == s.locks - {n}
    requires s'.homes == if s.locks[n].own then s.homes else s.homes[Copy(s.locks[n].event, n) := Spot(n, Done)]
    ensures Structure(t, s')
  {
    var cast := s.locks[n];
    assert CastOk(t, s, n);
    assert Extends(s, s') && WasOffered(t, s', cast.event, n);
    forall x | x in s.homes && s'.homes[x].place == Casting
      ensures x.node in s'.locks && s'.locks[x.node].event == x.event && !s'.locks[x.node].own
    {
      assert CopyOk(t, s, x);
    }
    AllCopiesStay(t, s, s');
    OtherCastsStay(t, s, s', n);
    forall e: nat, p: nat | e < |s.origins|
      ensures Complete(t, s', e, p)
    {
      assert Complete(t, s, e, p);
      EndCastCompletes(t, s, s', n, e, p);
    }
  }

  lemma EndCastKeepsInv(t: Tree, s: State, n: nat)
    requires Inv(t, s) && n < |t| && n in s.locks && s.locks[n].todo == {}
    ensures Inv(t, Next(t, s, EndCast(n)))
  {
    var s', cast := Next(t, s, EndCast(n)), s.locks[n];
    if !cast.own {
      CastIsHeld(t, s, n);
    }
    EndCastKeepsStructure(t, s, s', n);
    if !cast.own {
      MoveKeepsLocated(s.pool, s.homes, Spot(n, Casting), 0, Spot(n, Done));
    }
    forall c: nat, e: nat
      ensures RanOk(s', c, e)
    {
      assert RanOk(s, c, e);
      SameRan(s, s', c, e);
    }
    forall c: nat
      ensures |Held(s', c, Box)| <= CAPACITY
    {
      if !cast.own {
        var unlocked := s.(locks := s.locks - {n});
        assert Held(unlocked, n, Casting) == Held(s, n, Casting) && Held(unlocked, c, Box) == Held(s, c, Box);
        ShiftBoxes(unlocked, n, Casting, 0, Done, c);
      } else {
        assert Held(s', c, Box) == Held(s, c, Box);
      }
    }
  }

  lemma SendDownKeepsInv(t: Tree, s: State, n: nat)
    requires Inv(t, s) && n < |t| && n !in s.locks
    ensures Inv(t, Next(t, s, SendDown(n)))
  {
    var s' := Next(t, s, SendDown(n));
    var event: nat := |s.origins|;
    assert Extends(s, s');
    forall x | x in s'.homes
      ensures CopyOk(t, s', x) && x.event != event
    {
      assert CopyOk(t, s, x);
      CopyExtends(t, s, s', x);
    }
    forall m | m in s'.locks
      ensures CastOk(t, s', m)
    {
      if m != n {
        assert CastOk(t, s, m);
        CastExtends(t, s, s', m);
      }
    }
    assert NothingEnds(s, s');
    AllCompleteStay(t, s, s');
    forall e: nat, p: nat | e < |s'.origins|
      ensures Complete(t, s', e, p)
    {
      assert e == event ==> s'.origins[e] == n && Locks(s', n, e);
    }
    forall c: nat, e: nat
      ensures RanOk(s', c, e)
    {
      assert RanOk(s, c, e);
      SameRan(s, s', c, e);
    }
    assert forall c: nat :: Held(s', c, Box) == Held(s, c, Box);
  }

  // c is below whatever its parent p is below.
  lemma ChildUnder(t: Tree, a: nat, p: nat, c: nat)
    requires c in Children(t, p) && Under(t, a, p)
    ensures StrictlyUnder(t, a, c)
  {
    PathDescends(t, p);
    assert Path(t, c) == [c] + Path(t, p);
    var i :| 0 <= i < |Path(t, p)| && Path(t, p)[i] == a;
    assert Path(t, c)[i + 1] == a;
  }

  // Adding the copy of an event for a child that had none.
  lemma OfferLedger(t: Tree, s: State, s': State, e: nat, c: nat)
    requires Inv(t, s) && Copy(e, c) !in s.homes
    requires s'.pool == OfferTo(s, e, c).pool && s'.homes == OfferTo(s, e, c).homes && s'.ran == s.ran
    ensures RanInv(s') && BoxInv(s') && Located(s'.pool, s'.homes)
  {
    PutKeepsLocated(s.pool, s.homes, Spot(c, Outcome(s, c)), Copy(e, c));
    forall d: nat, x: nat
      ensures RanOk(s', d, x)
    {
      assert RanOk(s, d, x);
      if d == c && x == e {
        assert multiset(At(s.ran, d))[x] == 0;
      } else {
        SameRan(s, s', d, x);
      }
    }
    forall d: nat
      ensures |Held(s', d, Box)| <= CAPACITY
    {
      assert |Held(s, d, Box)| <= CAPACITY;
    }
  }

  lemma OfferedIsAddressed(t: Tree, s: State, n: nat, c: nat)
    requires Structure(t, s) && n < |t| && n in s.locks && c in Children(t, n)
    ensures s.locks[n].event < |s.origins|
    ensures Addressed(t, s, s.locks[n].event, c) && Feeds(s, s.locks[n].event, n, c)
  {
    assert CastOk(t, s, n);
    var cast := s.locks[n];
    if cast.own {
      assert Path(t, n)[0] == n;
      ChildUnder(t, n, n, c);
    } else {
      assert CopyOk(t, s, Copy(cast.event, n));
      ChildUnder(t, s.origins[cast.event], n, c);
      if s.targets[cast.event].Some? {
        ChildUnder(t, s.targets[cast.event].value, n, c);
      }
    }
  }

  lemma OfferedCast(t: Tree, s: State, s': State, n: nat, c: nat, spot: Spot)
    requires Structure(t, s) && n < |t| && n in s.locks && c in s.locks[n].todo
    requires SameEvents(s, s') && s'.homes == s.homes[Copy(s.locks[n].event, c) := spot]
    requires n in s'.locks && s'.locks[n] == s.locks[n].(todo := s.locks[n].todo - {c})
    ensures CastOk(t, s', n)
  {
    assert CastOk(t, s, n);
  }

  lemma OfferKeepsStructure(t: Tree, s: State, s': State, n: nat, c: nat, spot: Spot)
    requires Structure(t, s) && n < |t| && n in s.locks && c in s.locks[n].todo
    requires spot.node == c && !HasCast(spot.place)
    requires SameEvents(s, s') && s'.homes == s.homes[Copy(s.locks[n].event, c) := spot]
    requires s'.locks == s.locks[n := s.locks[n].(todo := s.locks[n].todo - {c})]
    ensures Structure(t, s')
  {
    var e := s.locks[n].event;
    assert CastOk(t, s, n);
    assert Extends(s, s') && NothingEnds(s, s');
    forall x | x in s.homes && s'.homes[x].place == Casting
      ensures x.node in s'.locks && s'.locks[x.node].event == x.event && !s'.locks[x.node].own
    {
      assert CopyOk(t, s, x);
    }
    AllCopiesStay(t, s, s');
    OfferedIsAddressed(t, s, n, c);
    OtherCastsStay(t, s, s', n);
    OfferedCast(t, s, s', n, c, spot);
    AllCompleteStay(t, s, s');
  }

  lemma SendToChildKeepsStructure(t: Tree, s: State, s': State, n: nat, c: nat, spot: Spot)
    requires Structure(t, s) && n < |t| && n !in s.locks && c in Children(t, n)
    requires spot.node == c && !HasCast(spot.place)
    requires s'.origins == s.origins + [n] && s'.targets == s.targets + [Some(c)] && s'.locks == s.locks
    requires s'.homes == s.homes[Copy(|s.origins|, c) := spot]
    ensures Structure(t, s')
  {
    var event: nat := |s.origins|;
    assert Path(t, n)[0] == n && Path(t, c)[0] == c;
    ChildUnder(t, n, n, c);
    assert Copy(event, c) in s.homes ==> CopyOk(t, s, Copy(event, c));
    assert Extends(s, s') && NothingEnds(s, s');
    forall x | x in s.homes && s'.homes[x].place == Casting
      ensures x.node in s'.locks && s'.locks[x.node].event == x.event && !s'.locks[x.node].own
    {
      assert CopyOk(t, s, x);
    }
    AllCopiesStay(t, s, s');
    OtherCastsStay(t, s, s', n);
    AllCompleteStay(t, s, s');
    forall e: nat, p: nat | e < |s'.origins|
      ensures Complete(t, s', e, p)
    {
      assert e == event && Copy(e, p) in s.homes ==> CopyOk(t, s, Copy(e, p));
    }
  }

  lemma SendToChildKeepsInv(t: Tree, s: State, n: nat, c: nat)
    requires Inv(t, s) && n < |t| && n !in s.locks && c in Children(t, n)
    ensures Inv(t, Next(t, s, SendToChild(n, c)))
  {
    var s' := Next(t, s, SendToChild(n, c));
    assert Copy(|s.origins|, c) in s.homes ==> CopyOk(t, s, Copy(|s.origins|, c));
    SendToChildKeepsStructure(t, s, s', n, c, Spot(c, Outcome(s, c)));
    OfferLedger(t, s, s', |s.origins|, c);
  }

  lemma OfferKeepsInv(t: Tree, s: State, n: nat, c: nat)
    requires Inv(t, s) && n < |t| && n in s.locks && c in s.locks[n].todo
    ensures Inv(t, Next(t, s, Offer(n, c)))
  {
    var s' := Next(t, s, Offer(n, c));
    assert CastOk(t, s, n);
    OfferKeepsStructure(t, s, s', n, c, Spot(c, Outcome(s, c)));
    OfferLedger(t, s, s', s.locks[n].event, c);
  }

  lemma NextKeepsInv(t: Tree, s: State, a: Action)
    requires Inv(t, s)
    ensures Inv(t, Next(t, s, a))
  {
    var s', n := Next(t, s, a), a.n;
    if n < |t| && s' != s {
      match a
      case SendDown(_) => SendDownKeepsInv(t, s, n);
      case SendToChild(_, c) => SendToChildKeepsInv(t, s, n, c);
      case Offer(_, c) => OfferKeepsInv(t, s, n, c);
      case EndCast(_) => EndCastKeepsInv(t, s, n);
      case Register(_) => IdleKeepsInv(t, s, s'.registered, s'.leaving);
      case Pop(_) => ShiftKeepsInv(t, s, n, Box, 0, Hand);
      case SendOk(_) => ShiftKeepsInv(t, s, n, Hand, 0, Wire);
      case SendErr(_) =>
        ShiftKeepsInv(t, s, n, Hand, 0, Discarded);
        IdleKeepsInv(t, Shift(s, n, Hand, 0, Discarded), s'.registered, s'.leaving);
      case CtxDone(_) => IdleKeepsInv(t, s, s'.registered, s'.leaving);
      case Unregister(_) => UnregisterKeepsInv(t, s, n);
      case Lose(_, i) => ShiftKeepsInv(t, s, n, Wire, i, Lost);
      case Recv(_, i) => ShiftKeepsInv(t, s, n, Wire, i, Received);
      case RunHandlers(_, i) => RunHandlersKeepsInv(t, s, n, i);
      case StartCast(_, i) => StartCastKeepsInv(t, s, n, i);
    }
  }

  lemma {:induction false} RunKeepsInv(t: Tree, run: seq<Action>)
    ensures Inv(t, Exec(t, run))
  {
    if run == [] {
      assert forall p: Spot, k: Copy :: Count(INITIAL.pool, p, k) == 0;
      assert forall c: nat, e: nat :: RanOk(INITIAL, c, e);
    } else {
      RunKeepsInv(t, run[..|run| - 1]);
      NextKeepsInv(t, Exec(t, run[..|run| - 1]), run[|run| - 1]);
    }
  }
}
