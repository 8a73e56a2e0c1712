/** Who owns the client's connections, in every interleaving. */
module ClientOwnership {
  import opened Wrappers
  import opened ClientMachine

  /** The connection a goroutine holds while reopening a side. */
  function Holding(pc: Pc, side: Side): Option<nat> {
    match pc
    case Open(sd, _, c) => if sd == side then Some(c) else None
    case Install(sd, _, c) => if sd == side then Some(c) else None
    case _ => None
  }

  ghost predicate HeldByItsHolder(s: State, side: Side, t: nat)
    requires t < |s.threads|
  {
    var c := Holding(s.threads[t].pc, side);
    c.Some? ==> c.value < |Of(s, side).fates| && Of(s, side).fates[c.value] == Held(t)
  }

  ghost predicate FateIsTrue(s: State, side: Side, c: nat)
    requires c < |Of(s, side).fates|
  {
    var h := Of(s, side);
    match h.fates[c]
    case Held(t) => t < |s.threads| && Holding(s.threads[t].pc, side) == Some(c)
    case Installed => h.conn == Some(c)
    case Closed => true
  }

  ghost predicate Owned(s: State, side: Side) {
    var h := Of(s, side);
    && (forall t :: 0 <= t < |s.threads| ==> HeldByItsHolder(s, side, t))
    && (forall c :: 0 <= c < |h.fates| ==> FateIsTrue(s, side, c))
    && (h.conn.Some? ==> h.conn.value < |h.fates| && !h.fates[h.conn.value].Held?)
    && (h.conn.Some? && !s.closed ==> h.fates[h.conn.value] == Installed)
    && (h.stream.Some? ==> h.stream == h.conn)
    && (side.Up? ==> h.stream == h.conn)
  }

  // From s to s' goroutine t comes to hold c, new goroutines hold nothing, and
  // no other goroutine's hold changes.
  ghost predicate HoldsNow(s: State, s': State, side: Side, t: nat, c: Option<nat>)
    requires t < |s.threads|
  {
    && |s.threads| <= |s'.threads|
    && (forall u :: 0 <= u < |s.threads| && u != t
          ==> Holding(s'.threads[u].pc, side) == Holding(s.threads[u].pc, side))
    && (forall u :: |s.threads| <= u < |s'.threads| ==> Holding(s'.threads[u].pc, side).None?)
    && Holding(s'.threads[t].pc, side) == c
  }

  lemma ReturnHoldsNothing(s: State, t: nat, sd: Side, caller: Caller, ok: bool, side: Side)
    requires t < |s.threads|
    ensures var s' := Return(s, t, sd, caller, ok);
            s'.up == s.up && s'.down == s.down && s'.closed == s.closed && HoldsNow(s, s', side, t, None)
  {
  }

  lemma QuietKeepsOwned(s: State, s': State, side: Side, t: nat)
    requires Owned(s, side) && t < |s.threads|
    requires HoldsNow(s, s', side, t, Holding(s.threads[t].pc, side))
    requires Of(s', side) == Of(s, side) && s'.closed == s.closed
    ensures Owned(s', side)
  {
    forall u | 0 <= u < |s'.threads|
      ensures HeldByItsHolder(s', side, u)
    {
      assert u < |s.threads| ==> HeldByItsHolder(s, side, u);
    }
    forall c | 0 <= c < |Of(s', side).fates|
      ensures FateIsTrue(s', side, c)
    {
      assert FateIsTrue(s, side, c);
    }
  }

  lemma DialKeepsOwned(s: State, s': State, side: Side, t: nat)
    requires Owned(s, side) && t < |s.threads| && Holding(s.threads[t].pc, side).None?
    requires var h := Of(s, side); Of(s', side) == h.(fates := h.fates + [Held(t)])
    requires HoldsNow(s, s', side, t, Some(|Of(s, side).fates|)) && s'.closed == s.closed
    ensures Owned(s', side)
  {
    forall u | 0 <= u < |s'.threads|
      ensures HeldByItsHolder(s', side, u)
    {
      assert u < |s.threads| ==> HeldByItsHolder(s, side, u);
    }
    forall c | 0 <= c < |Of(s', side).fates|
      ensures FateIsTrue(s', side, c)
    {
      assert c < |Of(s, side).fates| ==> FateIsTrue(s, side, c);
    }
  }

  // The holder lets go of c: it closes it, or installs it.
  lemma LetGoKeepsOwned(s: State, s': State, side: Side, t: nat, c: nat)
    requires Owned(s, side) && t < |s.threads| && Holding(s.threads[t].pc, side) == Some(c)
    requires Of(s', side) == CloseConn(Of(s, side), Some(c)) || Of(s', side) == InstallOn(Of(s, side), c)
    requires HoldsNow(s, s', side, t, None) && s'.closed == s.closed
    ensures Owned(s', side)
  {
    assert HeldByItsHolder(s, side, t);
    var h, h' := Of(s, side), Of(s', side);
    forall u | 0 <= u < |s'.threads|
      ensures HeldByItsHolder(s', side, u)
    {
      assert u < |s.threads| ==> HeldByItsHolder(s, side, u);
    }
    forall x | 0 <= x < |h'.fates|
      ensures FateIsTrue(s', side, x)
    {
      assert FateIsTrue(s, side, x);
    }
  }

  // Close closes the installed connection; recvLoop clears a stream.
  lemma ShutKeepsOwned(s: State, s': State, side: Side, t: nat)
    requires Owned(s, side) && t < |s.threads|
    requires HoldsNow(s, s', side, t, Holding(s.threads[t].pc, side))
    requires || (Of(s', side) == CloseConn(Of(s, side), Of(s, side).conn) && s'.closed)
             || (Of(s', side) == Of(s, side).(stream := None) && side.Down? && s'.closed == s.closed)
    ensures Owned(s', side)
  {
    forall u | 0 <= u < |s'.threads|
      ensures HeldByItsHolder(s', side, u)
    {
      assert u < |s.threads| ==> HeldByItsHolder(s, side, u);
    }
    forall x | 0 <= x < |Of(s', side).fates|
      ensures FateIsTrue(s', side, x)
    {
      assert FateIsTrue(s, side, x);
    }
  }

  lemma DialStepKeepsOwned(s: State, t: nat, ok: bool, side: Side)
    requires Owned(s, side) && t < |s.threads| && s.threads[t].pc.Dial?
    ensures Owned(StepReopen(s, t, ok), side)
  {
    var s', sd, caller := StepReopen(s, t, ok), s.threads[t].pc.side, s.threads[t].pc.caller;
    ReturnHoldsNothing(s, t, sd, caller, false, side);
    if ok && sd == side {
      DialKeepsOwned(s, s', side, t);
    } else {
      QuietKeepsOwned(s, s', side, t);
    }
  }

  lemma OpenStepKeepsOwned(s: State, t: nat, ok: bool, side: Side)
    requires Owned(s, side) && t < |s.threads| && s.threads[t].pc.Open?
    ensures Owned(StepReopen(s, t, ok), side)
  {
    var s', pc := StepReopen(s, t, ok), s.threads[t].pc;
    var s1 := With(s, pc.side, CloseConn(Of(s, pc.side), Some(pc.conn)));
    ReturnHoldsNothing(s1, t, pc.side, pc.caller, false, side);
    if !ok && pc.side == side {
      LetGoKeepsOwned(s, s', side, t, pc.conn);
    } else {
      QuietKeepsOwned(s, s', side, t);
    }
  }

  lemma InstallStepKeepsOwned(s: State, t: nat, ok: bool, side: Side)
    requires Owned(s, side) && t < |s.threads| && s.threads[t].pc.Install?
    ensures Owned(StepReopen(s, t, ok), side)
  {
    var s', pc := StepReopen(s, t, ok), s.threads[t].pc;
    var s1 := With(s, pc.side, InstallOn(Of(s, pc.side), pc.conn));
    ReturnHoldsNothing(s1, t, Up, pc.caller, true, side);
    if pc.side == side {
      LetGoKeepsOwned(s, s', side, t, pc.conn);
    } else {
      QuietKeepsOwned(s, s', side, t);
    }
  }

  lemma StepReopenKeepsOwned(s: State, t: nat, ok: bool, side: Side)
    requires Owned(s, side) && t < |s.threads| && Reopening(s.threads[t].pc)
    ensures Owned(StepReopen(s, t, ok), side)
  {
    match s.threads[t].pc
    case Dial(_, _) => DialStepKeepsOwned(s, t, ok, side);
    case Open(_, _, _) => OpenStepKeepsOwned(s, t, ok, side);
    case Install(_, _, _) => InstallStepKeepsOwned(s, t, ok, side);
    case Entry(sd, caller) =>
      ReturnHoldsNothing(s, t, sd, caller, false, side);
      QuietKeepsOwned(s, StepReopen(s, t, ok), side, t);
    case CancelPrev(_, _) =>
      QuietKeepsOwned(s, StepReopen(s, t, ok), side, t);
    case SpawnRecv(caller, x) =>
      ReturnHoldsNothing(Spawn(s, Recv(x)), t, Down, caller, true, side);
      QuietKeepsOwned(s, StepReopen(s, t, ok), side, t);
  }

  lemma SendStepHoldsStill(s: State, t: nat, ok: bool, side: Side)
    requires t < |s.threads|
    requires var pc := s.threads[t].pc; pc.SendLock? || pc.SendRead? || pc.SendReread? || pc.SendCall?
    ensures HoldsNow(s, StepOther(s, t, ok), side, t, None)
  {
  }

  lemma StepOtherHoldsStill(s: State, t: nat, ok: bool, side: Side)
    requires t < |s.threads| && !Reopening(s.threads[t].pc)
    ensures HoldsNow(s, StepOther(s, t, ok), side, t, None)
  {
    var pc := s.threads[t].pc;
    if pc.SendLock? || pc.SendRead? || pc.SendReread? || pc.SendCall? {
      SendStepHoldsStill(s, t, ok, side);
    }
  }

  lemma StepOtherShuts(s: State, t: nat, ok: bool, side: Side)
    requires t < |s.threads| && !Reopening(s.threads[t].pc)
    ensures var s', h, h' := StepOther(s, t, ok), Of(s, side), Of(StepOther(s, t, ok), side);
            if s.threads[t].pc.CloseLock? then s'.closed && h' == CloseConn(h, h.conn)
            else s'.closed == s.closed && (h' == h || (side.Down? && h' == h.(stream := None)))
  {
  }

  lemma SpawnKeepsOwned(s: State, a: Action, side: Side)
    requires Owned(s, side) && (a.Act? ==> a.tid >= |s.threads|)
    ensures Owned(Next(s, a), side)
  {
    var s' := Next(s, a);
    forall u | 0 <= u < |s'.threads|
      ensures HeldByItsHolder(s', side, u)
    {
      assert u < |s.threads| ==> HeldByItsHolder(s, side, u);
    }
    forall x | 0 <= x < |Of(s', side).fates|
      ensures FateIsTrue(s', side, x)
    {
      assert FateIsTrue(s, side, x);
    }
  }

  lemma NextKeepsOwned(s: State, a: Action, side: Side)
    requires Owned(s, side)
    ensures Owned(Next(s, a), side)
  {
    if a.Act? && a.tid < |s.threads| {
      var s' := Next(s, a);
      if Reopening(s.threads[a.tid].pc) {
        StepReopenKeepsOwned(s, a.tid, a.ok, side);
      } else {
        StepOtherHoldsStill(s, a.tid, a.ok, side);
        StepOtherShuts(s, a.tid, a.ok, side);
        if Of(s', side) == Of(s, side) && s'.closed == s.closed {
          QuietKeepsOwned(s, s', side, a.tid);
        } else {
          ShutKeepsOwned(s, s', side, a.tid);
        }
      }
    } else {
      SpawnKeepsOwned(s, a, side);
    }
  }

  lemma {:induction false} RunKeepsOwned(run: seq<Action>, side: Side)
    ensures Owned(Exec(run), side)
  {
    if run != [] {
      RunKeepsOwned(run[..|run| - 1], side);
      NextKeepsOwned(Exec(run[..|run| - 1]), run[|run| - 1], side);
    }
  }

  // ---------------------------------------------------------------------------
  // Every connection has one owner
  // ---------------------------------------------------------------------------

  ghost predicate HeldBy(s: State, side: Side, t: int, c: nat) {
    0 <= t < |s.threads| && Holding(s.threads[t].pc, side) == Some(c)
  }

  /** A connection is held by exactly one goroutine, or it is the installed one
      and open, or it is closed; and never two of these. */
  lemma OneOwner(run: seq<Action>, side: Side, c: nat)
    requires c < |Of(Exec(run), side).fates|
    ensures var s, h := Exec(run), Of(Exec(run), side);
            match h.fates[c]
            case Held(t) => h.conn != Some(c) && forall u :: HeldBy(s, side, u, c) <==> u == t
            case Installed => h.conn == Some(c) && forall u :: !HeldBy(s, side, u, c)
            case Closed => forall u :: !HeldBy(s, side, u, c)
  {
    RunKeepsOwned(run, side);
    var s := Exec(run);
    assert FateIsTrue(s, side, c);
    forall u | HeldBy(s, side, u, c)
      ensures Of(s, side).fates[c] == Held(u)
    {
      assert HeldByItsHolder(s, side, u);
    }
  }

  ghost function OpenConns(h: Half): set<nat> {
    set c: nat | c < |h.fates| && h.fates[c] != Closed
  }

  ghost function HeldConns(h: Half): set<nat> {
    set c: nat | c < |h.fates| && h.fates[c].Held?
  }

  ghost function Holders(s: State, side: Side): set<nat> {
    set t: nat | t < |s.threads| && Holding(s.threads[t].pc, side).Some?
  }

  /** Past the check of closed and not yet done with the connection. */
  predicate Committed(pc: Pc, side: Side) {
    match pc
    case CancelPrev(_, _) => side.Down?
    case Dial(sd, _) => sd == side
    case Open(sd, _, _) => sd == side
    case Install(sd, _, _) => sd == side
    case _ => false
  }

  ghost function InFlight(s: State, side: Side): set<nat> {
    set t: nat | t < |s.threads| && Committed(s.threads[t].pc, side)
  }

  ghost function InstalledOpen(h: Half): nat {
    if h.conn.Some? && h.conn.value < |h.fates| && h.fates[h.conn.value] == Installed then 1 else 0
  }

  lemma {:induction false} SameSize(a: set<nat>, b: set<nat>, f: map<nat, nat>)
    requires f.Keys == a && f.Values == b
    requires forall x, y :: x in a && y in a && x != y ==> f[x] != f[y]
    ensures |a| == |b|
  {
    if a == {} {
      assert b == {};
    } else {
      var x :| x in a;
      var g := map y | y in f && y != x :: f[y];
      assert g.Keys == a - {x};
      forall v | v in b - {f[x]}
        ensures v in g.Values
      {
        var y :| y in f && f[y] == v;
        assert g[y] == v;
      }
      assert g.Values == b - {f[x]};
      SameSize(a - {x}, b - {f[x]}, g);
    }
  }

  lemma HoldersAndHeld(s: State, side: Side)
    requires Owned(s, side)
    ensures |Holders(s, side)| == |HeldConns(Of(s, side))|
  {
    var h := Of(s, side);
    var f := map t | t in Holders(s, side) :: Holding(s.threads[t].pc, side).value;
    forall t | t in f
      ensures f[t] in HeldConns(h) && h.fates[f[t]] == Held(t)
    {
      assert HeldByItsHolder(s, side, t);
    }
    forall c | c in HeldConns(h)
      ensures c in f.Values
    {
      assert FateIsTrue(s, side, c);
      assert h.fates[c].holder in f && f[h.fates[c].holder] == c;
    }
    assert f.Values == HeldConns(h);
    SameSize(Holders(s, side), HeldConns(h), f);
  }

  lemma {:induction false} Within(a: set<nat>, b: set<nat>)
    requires a <= b
    ensures |a| <= |b|
  {
    if a != {} {
      var x :| x in a;
      Within(a - {x}, b - {x});
    }
  }

  /** On either side the open connections are those held by goroutines still
      reopening, one each, and the installed one unless it was closed. */
  lemma OpenConnections(run: seq<Action>, side: Side)
    ensures var s, h := Exec(run), Of(Exec(run), side);
            && |OpenConns(h)| == |Holders(s, side)| + InstalledOpen(h)
            && |OpenConns(h)| <= 1 + |InFlight(s, side)|
  {
    var s, h := Exec(run), Of(Exec(run), side);
    RunKeepsOwned(run, side);
    HoldersAndHeld(s, side);
    forall c | c in OpenConns(h)
      ensures c in HeldConns(h) || h.conn == Some(c)
    {
      assert FateIsTrue(s, side, c);
    }
    if InstalledOpen(h) == 1 {
      assert OpenConns(h) == HeldConns(h) + {h.conn.value};
    } else {
      assert OpenConns(h) == HeldConns(h);
    }
    Within(Holders(s, side), InFlight(s, side));
  }
}
