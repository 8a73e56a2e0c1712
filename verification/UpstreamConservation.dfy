/** Conservation of envelopes within one node of the upstream machine. */
module UpstreamConservation {
  import opened Wrappers
  import opened Topology
  import opened Tokens
  import opened Upstream

  /** What node n has taken on for forwarding: every envelope its handlers ran for. */
  ghost function Accepted(s: State, n: nat): multiset<nat> {
    multiset(At(s.ran, n))
  }

  /** The places within a node that hold envelopes it has taken on: with a
      forwarder (three), in the queue, in the drained batch, in the tail of a
      batch its retryLoop left behind, or, at a root, for good. */
  const KEPT := [Forwarding, Failed, Refailed, Pending, Batch, Abandoned, Absorbed]

  ghost function Gather(s: State, n: nat, places: seq<Place>): multiset<nat> {
    if places == [] then multiset{} else multiset(Held(s, n, places[0])) + Gather(s, n, places[1..])
  }

  /** Where the envelopes of n are accounted for: sent on, or kept. */
  ghost function Accounted(s: State, n: nat): multiset<nat> {
    multiset(At(s.sentOk, n)) + Gather(s, n, KEPT)
  }

  ghost predicate LoopInv(s: State, n: nat) {
    && (LoopOf(s, n) in {Idle, Exited} ==> Held(s, n, Batch) == [])
    && (LoopOf(s, n) == Trying ==> Held(s, n, Batch) != [])
    && |Held(s, n, Refailed)| == (if LoopOf(s, n) == Repushing then 1 else 0)
    && (LoopOf(s, n) == Exited || Held(s, n, Abandoned) != [] ==> n in s.cancelled)
  }

  // 1 if x is e and was at one of the places within n.
  ghost function One(p: Spot, n: nat, places: seq<Place>, x: nat, e: nat): nat {
    if p.node == n && p.place in places && x == e then 1 else 0
  }

  lemma OneSplits(p: Spot, n: nat, places: seq<Place>, x: nat, e: nat)
    requires places != [] && Distinct(places)
    ensures One(p, n, places, x, e) == One(p, n, places[1..], x, e) + if p == Spot(n, places[0]) && x == e then 1 else 0
  {
    assert places == [places[0]] + places[1..] && places[0] !in places[1..];
  }

  lemma ShiftCounts(s: State, p: Spot, i: nat, q: Spot, r: Spot, e: nat)
    requires i < |At(s.pool, p)| && p != q
    ensures var x := At(s.pool, p)[i];
            multiset(At(Shift(s, p, i, q).pool, r))[e] + (if r == p && x == e then 1 else 0)
            == multiset(At(s.pool, r))[e] + if r == q && x == e then 1 else 0
  {
    MoveCounts(s.pool, p, i, q, r, e);
  }

  lemma {:induction false} ShiftGathers(s: State, p: Spot, i: nat, q: Spot, n: nat, places: seq<Place>, e: nat)
    requires i < |At(s.pool, p)| && p != q && Distinct(places)
    ensures var x := At(s.pool, p)[i];
            Gather(Shift(s, p, i, q), n, places)[e] + One(p, n, places, x, e)
            == Gather(s, n, places)[e] + One(q, n, places, x, e)
  {
    if places != [] {
      var x := At(s.pool, p)[i];
      OneSplits(p, n, places, x, e);
      OneSplits(q, n, places, x, e);
      ShiftCounts(s, p, i, q, Spot(n, places[0]), e);
      ShiftGathers(s, p, i, q, n, places[1..], e);
    }
  }

  lemma {:induction false} PourGathers(s: State, p: Spot, q: Spot, n: nat, places: seq<Place>, e: nat)
    requires p != q && p.node == q.node && Distinct(places)
    ensures Gather(PourAll(s, p, q), n, places)[e]
            + (if p.node == n && p.place in places then Count(s.pool, p, e) else 0)
            == Gather(s, n, places)[e] + (if q.node == n && q.place in places then Count(s.pool, p, e) else 0)
  {
    if places != [] {
      PourGathers(s, p, q, n, places[1..], e);
    }
  }

  lemma {:induction false} PutGathers(s: State, s': State, m: nat, x: nat, n: nat, places: seq<Place>)
    requires s'.pool == Put(s.pool, Spot(m, Arrived), x) && Arrived !in places
    ensures Gather(s', n, places) == Gather(s, n, places)
  {
    if places != [] {
      PutGathers(s, s', m, x, n, places[1..]);
    }
  }

  lemma {:induction false} GatherReadsPool(s: State, s': State, n: nat, places: seq<Place>)
    requires s.pool == s'.pool
    ensures Gather(s, n, places) == Gather(s', n, places)
  {
    if places != [] {
      GatherReadsPool(s, s', n, places[1..]);
    }
  }

  // Conservation, one envelope at a time.
  ghost predicate Balanced(kept: seq<Place>, s: State, n: nat, e: nat) {
    Count(s.ran, n, e) == Count(s.sentOk, n, e) + Gather(s, n, kept)[e]
  }

  ghost predicate IsKept(kept: seq<Place>) {
    && Distinct(kept)
    && (forall p :: p in kept <==> p !in {Arrived, Wire, Lost})
  }

  lemma KeptIsKept()
    ensures IsKept(KEPT)
  {
    assert |KEPT| == 7;
    assert KEPT[0] == Forwarding && KEPT[1] == Failed && KEPT[2] == Refailed && KEPT[3] == Pending;
    assert KEPT[4] == Batch && KEPT[5] == Abandoned && KEPT[6] == Absorbed;
    forall p: Place
      ensures p in KEPT <==> p !in {Arrived, Wire, Lost}
    {
      match p
      case Arrived => case Forwarding => case Failed => case Pending => case Batch =>
      case Refailed => case Wire => case Lost => case Abandoned => case Absorbed =>
    }
  }

  // A step that writes to neither log: it stays inside kept or outside.
  lemma QuietShiftBalances(kept: seq<Place>, s: State, p: Spot, i: nat, q: Spot, s': State, n: nat, e: nat)
    requires i < |At(s.pool, p)| && p != q && s'.pool == Move(s.pool, p, i, q)
    requires s'.ran == s.ran && s'.sentOk == s.sentOk
    requires if p.place in kept then q.place in kept && p.node == q.node else q.place !in kept
    requires IsKept(kept) && Balanced(kept, s, n, e)
    ensures Balanced(kept, s', n, e)
  {
    ShiftGathers(s, p, i, q, n, kept, e);
    GatherReadsPool(Shift(s, p, i, q), s', n, kept);
  }

  // A successful SendUpstream, first attempt or retry.
  lemma SendBalances(kept: seq<Place>, s: State, m: nat, p: Place, i: nat, s': State, n: nat, e: nat)
    requires i < |Held(s, m, p)| && p in kept && p != Wire && s'.pool == Move(s.pool, Spot(m, p), i, Spot(m, Wire))
    requires s'.ran == s.ran && s'.sentOk == Put(s.sentOk, m, Held(s, m, p)[i])
    requires IsKept(kept) && Balanced(kept, s, n, e)
    ensures Balanced(kept, s', n, e)
  {
    ShiftGathers(s, Spot(m, p), i, Spot(m, Wire), n, kept, e);
    GatherReadsPool(Shift(s, Spot(m, p), i, Spot(m, Wire)), s', n, kept);
    PutCounts(s.sentOk, m, Held(s, m, p)[i], n, e);
  }

  lemma RunHandlersBalances(kept: seq<Place>, t: Tree, s: State, m: nat, i: nat, n: nat, e: nat)
    requires m < |t| && i < |Held(s, m, Arrived)| && IsKept(kept) && Balanced(kept, s, n, e)
    ensures Balanced(kept, Next(t, s, RunHandlers(m, i)), n, e)
  {
    var s' := Next(t, s, RunHandlers(m, i));
    ShiftGathers(s, Spot(m, Arrived), i, Spot(m, Forwarding), n, kept, e);
    GatherReadsPool(Shift(s, Spot(m, Arrived), i, Spot(m, Forwarding)), s', n, kept);
    PutCounts(s.ran, m, Held(s, m, Arrived)[i], n, e);
  }

  lemma PourBalances(kept: seq<Place>, s: State, p: Spot, q: Spot, s': State, n: nat, e: nat)
    requires p.node == q.node && p.place in kept && q.place in kept && p != q && s'.pool == Pour(s.pool, p, q)
    requires s'.ran == s.ran && s'.sentOk == s.sentOk && IsKept(kept) && Balanced(kept, s, n, e)
    ensures Balanced(kept, s', n, e)
  {
    PourGathers(s, p, q, n, kept, e);
    GatherReadsPool(PourAll(s, p, q), s', n, kept);
  }

  predicate OfTheLoop(a: Action) {
    a.Drain? || a.RetryOk? || a.RetryErr? || a.Repush? || a.Pace? || a.Quit?
  }

  lemma LoopBalances(kept: seq<Place>, t: Tree, s: State, a: Action, n: nat, e: nat)
    requires OfTheLoop(a) && IsKept(kept) && Balanced(kept, s, n, e)
    ensures Balanced(kept, Next(t, s, a), n, e)
  {
    var s', m := Next(t, s, a), a.n;
    if s' != s {
      match a
      case Drain(_) => PourBalances(kept, s, Spot(m, Pending), Spot(m, Batch), s', n, e);
      case RetryOk(_) => SendBalances(kept, s, m, Batch, 0, s', n, e);
      case RetryErr(_) => QuietShiftBalances(kept, s, Spot(m, Batch), 0, Spot(m, Refailed), s', n, e);
      case Repush(_) => QuietShiftBalances(kept, s, Spot(m, Refailed), 0, Spot(m, Pending), s', n, e);
      case Quit(_) => PourBalances(kept, s, Spot(m, Batch), Spot(m, Abandoned), s', n, e);
      case Pace(_) => GatherReadsPool(s, s', n, kept);
    }
  }

  lemma NextBalances(kept: seq<Place>, t: Tree, s: State, a: Action, n: nat, e: nat)
    requires IsKept(kept) && Balanced(kept, s, n, e)
    ensures Balanced(kept, Next(t, s, a), n, e)
  {
    var s', m := Next(t, s, a), a.n;
    if OfTheLoop(a) {
      LoopBalances(kept, t, s, a, n, e);
    } else if s' != s {
      match a
      case SendUp(_) => PutGathers(s, s', m, |s.origins|, n, kept);
      case RunHandlers(_, i) => RunHandlersBalances(kept, t, s, m, i, n, e);
      case Absorb(_, i) => QuietShiftBalances(kept, s, Spot(m, Forwarding), i, Spot(m, Absorbed), s', n, e);
      case SendOk(_, i) => SendBalances(kept, s, m, Forwarding, i, s', n, e);
      case SendErr(_, i) => QuietShiftBalances(kept, s, Spot(m, Forwarding), i, Spot(m, Failed), s', n, e);
      case Push(_, i) => QuietShiftBalances(kept, s, Spot(m, Failed), i, Spot(m, Pending), s', n, e);
      case Deliver(_, i) => QuietShiftBalances(kept, s, Spot(m, Wire), i, Spot(t[m].value, Arrived), s', n, e);
      case Lose(_, i) => QuietShiftBalances(kept, s, Spot(m, Wire), i, Spot(m, Lost), s', n, e);
      case Cancel(_) => GatherReadsPool(s, s', n, kept);
    }
  }

  ghost predicate LoopUntouched(s: State, s': State, n: nat) {
    && LoopOf(s', n) == LoopOf(s, n) && s.cancelled <= s'.cancelled
    && (forall p :: p in {Batch, Refailed, Abandoned} ==> Held(s', n, p) == Held(s, n, p))
  }

  lemma RetriesLeaveOtherLoopsAlone(t: Tree, s: State, a: Action, n: nat)
    requires (a.RetryOk? || a.RetryErr? || a.Repush?) && a.n != n
    ensures LoopUntouched(s, Next(t, s, a), n)
  {
  }

  lemma OtherNodesLeaveTheLoopAlone(t: Tree, s: State, a: Action, n: nat)
    requires OfTheLoop(a) && a.n != n
    ensures LoopUntouched(s, Next(t, s, a), n)
  {
    if a.RetryOk? || a.RetryErr? || a.Repush? {
      RetriesLeaveOtherLoopsAlone(t, s, a, n);
    }
  }

  lemma ForwardersLeaveTheLoopAlone(t: Tree, s: State, a: Action, n: nat)
    requires a.Absorb? || a.SendOk? || a.SendErr? || a.Push?
    ensures LoopUntouched(s, Next(t, s, a), n)
  {
  }

  lemma OthersLeaveTheLoopAlone(t: Tree, s: State, a: Action, n: nat)
    requires !OfTheLoop(a)
    ensures LoopUntouched(s, Next(t, s, a), n)
  {
    if a.Absorb? || a.SendOk? || a.SendErr? || a.Push? {
      ForwardersLeaveTheLoopAlone(t, s, a, n);
    }
  }

  lemma LoopKeepsItsInv(t: Tree, s: State, a: Action)
    requires LoopInv(s, a.n) && OfTheLoop(a)
    ensures LoopInv(Next(t, s, a), a.n)
  {
    var s' := Next(t, s, a);
    if s' != s {
      assert !(a.Drain? || a.Pace?) || Held(s', a.n, Abandoned) == Held(s, a.n, Abandoned);
    }
  }

  lemma NextKeepsLoopInv(t: Tree, s: State, a: Action, n: nat)
    requires LoopInv(s, n)
    ensures LoopInv(Next(t, s, a), n)
  {
    if !OfTheLoop(a) {
      OthersLeaveTheLoopAlone(t, s, a, n);
    } else if a.n != n {
      OtherNodesLeaveTheLoopAlone(t, s, a, n);
    } else {
      LoopKeepsItsInv(t, s, a);
    }
  }

  lemma NothingToGather(n: nat, places: seq<Place>)
    ensures Gather(INITIAL, n, places) == multiset{}
  {
  }

  lemma {:induction false} RunBalances(kept: seq<Place>, t: Tree, run: seq<Action>, n: nat, e: nat)
    requires IsKept(kept)
    ensures Balanced(kept, Exec(t, run), n, e)
  {
    if run == [] {
      NothingToGather(n, kept);
    } else {
      RunBalances(kept, t, run[..|run| - 1], n, e);
      NextBalances(kept, t, Exec(t, run[..|run| - 1]), run[|run| - 1], n, e);
    }
  }

  lemma {:induction false} RunKeepsLoopInv(t: Tree, run: seq<Action>, n: nat)
    ensures LoopInv(Exec(t, run), n)
  {
    if run != [] {
      RunKeepsLoopInv(t, run[..|run| - 1], n);
      NextKeepsLoopInv(t, Exec(t, run[..|run| - 1]), run[|run| - 1], n);
    }
  }

  /** Nothing a node took on is ever unaccounted for, and as long as its context
      is live nothing has been abandoned. */
  lemma Conservation(t: Tree, run: seq<Action>, n: nat)
    ensures Accepted(Exec(t, run), n) == Accounted(Exec(t, run), n)
    ensures n !in Exec(t, run).cancelled ==> Held(Exec(t, run), n, Abandoned) == []
  {
    var s := Exec(t, run);
    RunKeepsLoopInv(t, run, n);
    KeptIsKept();
    forall e: nat
      ensures Accepted(s, n)[e] == Accounted(s, n)[e]
    {
      RunBalances(KEPT, t, run, n, e);
    }
    assert forall e :: Accepted(s, n)[e] == Accounted(s, n)[e];
  }
}
