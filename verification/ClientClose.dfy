/** What Close leaves open, in every interleaving. */
module ClientClose {
  import opened Wrappers
  import opened ClientMachine
  import opened ClientOwnership

  lemma ReturnCommitsNobody(s: State, t: nat, sd: Side, caller: Caller, ok: bool, side: Side, u: nat)
    requires t < |s.threads|
    ensures var s' := Return(s, t, sd, caller, ok);
            s'.closed == s.closed
            && (u < |s'.threads| && Committed(s'.threads[u].pc, side)
                ==> u < |s.threads| && s'.threads[u].pc == s.threads[u].pc)
  {
  }

  lemma NextAfterClose(s: State, a: Action, side: Side, u: nat)
    requires s.closed
    ensures Next(s, a).closed
    ensures u < |Next(s, a).threads| && Committed(Next(s, a).threads[u].pc, side)
        ==> u < |s.threads| && Committed(s.threads[u].pc, side)
  {
    if a.Act? && a.tid < |s.threads| && Reopening(s.threads[a.tid].pc) {
      var t := a.tid;
      match s.threads[t].pc
      case Entry(sd, caller) => ReturnCommitsNobody(s, t, sd, caller, false, side, u);
      case CancelPrev(_, _) =>
      case Dial(sd, caller) => ReturnCommitsNobody(s, t, sd, caller, false, side, u);
      case Open(sd, caller, c) =>
        ReturnCommitsNobody(With(s, sd, CloseConn(Of(s, sd), Some(c))), t, sd, caller, false, side, u);
      case Install(sd, caller, c) =>
        ReturnCommitsNobody(With(s, sd, InstallOn(Of(s, sd), c)), t, Up, caller, true, side, u);
      case SpawnRecv(caller, x) => ReturnCommitsNobody(Spawn(s, Recv(x)), t, Down, caller, true, side, u);
    }
  }

  lemma UncommittedLeavesTheSide(s: State, t: nat, ok: bool, side: Side)
    requires t < |s.threads| && Reopening(s.threads[t].pc) && !Committed(s.threads[t].pc, side)
    ensures Of(StepReopen(s, t, ok), side) == Of(s, side)
  {
  }

  lemma NextWhenNoneInFlight(s: State, a: Action, side: Side)
    requires s.closed && Owned(s, side) && InFlight(s, side) == {}
    ensures var h, h' := Of(s, side), Of(Next(s, a), side);
            h'.conn == h.conn && OpenConns(h') <= OpenConns(h)
  {
    if a.Act? && a.tid < |s.threads| {
      assert a.tid !in InFlight(s, side);
      if Reopening(s.threads[a.tid].pc) {
        UncommittedLeavesTheSide(s, a.tid, a.ok, side);
      } else {
        StepOtherShuts(s, a.tid, a.ok, side);
      }
    }
  }

  lemma HeldIsInFlight(s: State, side: Side, c: nat)
    requires Owned(s, side) && c < |Of(s, side).fates|
    ensures Of(s, side).fates[c].Held? ==> Of(s, side).fates[c].holder in InFlight(s, side)
  {
    assert FateIsTrue(s, side, c);
  }

  lemma OpenIsInstalled(s: State, side: Side)
    requires Owned(s, side)
    ensures InFlight(s, side) == {} ==> OpenConns(Of(s, side)) <= AsSet(Of(s, side).conn)
  {
    if InFlight(s, side) == {} {
      forall c | c in OpenConns(Of(s, side))
        ensures c in AsSet(Of(s, side).conn)
      {
        HeldIsInFlight(s, side, c);
        assert FateIsTrue(s, side, c);
      }
    }
  }

  /** From s to a later s' of a closed client: nobody comes to be in flight, and with
      nobody in flight no connection is installed or comes to be open. */
  ghost predicate WindsDown(s: State, s': State, side: Side) {
    && s'.closed && InFlight(s', side) <= InFlight(s, side)
    && (InFlight(s, side) == {} ==>
          && Of(s', side).conn == Of(s, side).conn
          && OpenConns(Of(s', side)) <= OpenConns(Of(s, side)))
  }

  lemma StepWindsDown(s: State, s1: State, a: Action, side: Side)
    requires Owned(s1, side) && s1.closed && WindsDown(s, s1, side)
    ensures WindsDown(s, Next(s1, a), side)
  {
    forall u | u in InFlight(Next(s1, a), side)
      ensures u in InFlight(s1, side)
    {
      NextAfterClose(s1, a, side, u);
    }
    NextAfterClose(s1, a, side, 0);
    if InFlight(s, side) == {} {
      NextWhenNoneInFlight(s1, a, side);
    }
  }

  /** Once Close has run, no reopen that had not yet passed its check will ever
      dial or install: the goroutines in flight can only become fewer. When there
      are none, the installed connection is final, and at most it is open. */
  lemma {:induction false} AfterClose(run: seq<Action>, more: seq<Action>, side: Side)
    requires Exec(run).closed
    ensures WindsDown(Exec(run), Exec(run + more), side)
    ensures InFlight(Exec(run), side) == {} ==> OpenConns(Of(Exec(run), side)) <= AsSet(Of(Exec(run), side).conn)
    decreases |more|
  {
    RunKeepsOwned(run, side);
    OpenIsInstalled(Exec(run), side);
    if more == [] {
      assert run + more == run;
    } else {
      var front, last := more[..|more| - 1], more[|more| - 1];
      AfterClose(run, front, side);
      assert run + more == run + front + [last];
      OneMore(run + front, last);
      RunKeepsOwned(run + front, side);
      StepWindsDown(Exec(run), Exec(run + front), last, side);
    }
  }

  // ---------------------------------------------------------------------------
  // Exactly when nothing is left
  // ---------------------------------------------------------------------------

  // A step of one goroutine leaves another where it is.
  lemma StepsAlone(s: State, v: nat, u: nat)
    requires v < |s.threads| && u < |s.threads| && u != v && Reopening(s.threads[v].pc)
    ensures var s' := Next(s, Act(v, false)); u < |s'.threads| && s'.threads[u] == s.threads[u]
  {
  }

  lemma FailedIsOut(s: State, v: nat, side: Side)
    requires s.closed && v in InFlight(s, side)
    ensures var s' := Next(s, Act(v, false));
            && v < |s'.threads|
            && if s.threads[v].pc.CancelPrev? then s'.threads[v].pc.Dial? && v in InFlight(s', side)
               else v !in InFlight(s', side)
  {
  }

  // A goroutine in flight fails what it does next, if that can fail.
  lemma OneFails(s: State, v: nat, side: Side)
    requires s.closed && v in InFlight(s, side)
    ensures var s' := Next(s, Act(v, false));
            && s'.closed
            && InFlight(s', side) == InFlight(s, side) - (if s.threads[v].pc.CancelPrev? then {} else {v})
            && (s.threads[v].pc.CancelPrev? ==> s'.threads[v].pc.Dial?)
  {
    var s' := Next(s, Act(v, false));
    forall u: nat
      ensures u in InFlight(s', side) ==> u in InFlight(s, side)
      ensures u != v && u in InFlight(s, side) ==> u in InFlight(s', side)
    {
      NextAfterClose(s, Act(v, false), side, u);
      if u < |s.threads| && u != v {
        StepsAlone(s, v, u);
      }
    }
    FailedIsOut(s, v, side);
  }

  // All the goroutines in flight but one fail.
  lemma {:induction false} OthersFail(s: State, u: nat, side: Side) returns (more: seq<Action>)
    requires s.closed && u in InFlight(s, side)
    ensures Resume(s, more).closed && InFlight(Resume(s, more), side) == {u}
    decreases InFlight(s, side), 1
  {
    if InFlight(s, side) == {u} {
      more := [];
    } else {
      assert InFlight(s, side) == {u} + (InFlight(s, side) - {u});
      var v :| v in InFlight(s, side) - {u};
      more := OneLess(s, u, v, side);
    }
  }

  lemma {:induction false} OneLess(s: State, u: nat, v: nat, side: Side) returns (more: seq<Action>)
    requires s.closed && u in InFlight(s, side) && v in InFlight(s, side) && u != v
    ensures Resume(s, more).closed && InFlight(Resume(s, more), side) == {u}
    decreases InFlight(s, side), 0, if s.threads[v].pc.CancelPrev? then 1 else 0
  {
    var a := Act(v, false);
    OneFails(s, v, side);
    var rest;
    if s.threads[v].pc.CancelPrev? {
      rest := OneLess(Next(s, a), u, v, side);
    } else {
      rest := OthersFail(Next(s, a), u, side);
    }
    ResumeFirst(s, a, rest);
    more := [a] + rest;
  }

  lemma InstallOpens(s: State, u: nat, side: Side)
    requires u in InFlight(s, side) && s.threads[u].pc.Install? && Owned(s, side)
    ensures var s1 := Next(s, Act(u, true));
            u !in InFlight(s1, side) && s.threads[u].pc.conn in OpenConns(Of(s1, side))
  {
    assert HeldByItsHolder(s, side, u);
  }

  // The last goroutine in flight succeeds: its connection is open for good.
  lemma {:induction false} LastInstalls(s: State, u: nat, side: Side) returns (more: seq<Action>)
    requires s.closed && InFlight(s, side) == {u} && Owned(s, side)
    ensures InFlight(Resume(s, more), side) == {} && OpenConns(Of(Resume(s, more), side)) != {}
    decreases match s.threads[u].pc case CancelPrev(_, _) => 3 case Dial(_, _) => 2 case Open(_, _, _) => 1 case _ => 0
  {
    var a := Act(u, true);
    var s1 := Next(s, a);
    NextKeepsOwned(s, a, side);
    forall v: nat
      ensures v in InFlight(s1, side) ==> v == u
    {
      NextAfterClose(s, a, side, v);
      assert v in InFlight(s1, side) ==> v in InFlight(s, side);
    }
    if s.threads[u].pc.Install? {
      InstallOpens(s, u, side);
      ResumeFirst(s, a, []);
      more := [a];
    } else {
      NextAfterClose(s, a, side, u);
      assert u in InFlight(s1, side);
      var rest := LastInstalls(s1, u, side);
      ResumeFirst(s, a, rest);
      more := [a] + rest;
    }
  }

  /** Whenever no reopen of the side is in flight any more, nothing of it is open. */
  ghost predicate LeavesNothing(run: seq<Action>, side: Side) {
    forall more :: InFlight(Exec(run + more), side) == {} ==> OpenConns(Of(Exec(run + more), side)) == {}
  }

  lemma CloseStep(s: State, t: nat, ok: bool, side: Side)
    requires t < |s.threads| && s.threads[t].pc == CloseLock && Owned(s, side)
    ensures var s' := Next(s, Act(t, ok));
            && s'.closed && InFlight(s', side) == InFlight(s, side)
            && (InFlight(s, side) == {} ==> OpenConns(Of(s', side)) == {})
  {
    var s' := Next(s, Act(t, ok));
    forall u: nat
      ensures u in InFlight(s', side) <==> u in InFlight(s, side)
    {
    }
    OpenIsInstalled(s, side);
    forall c | c in OpenConns(Of(s', side))
      ensures c in OpenConns(Of(s, side)) && Of(s, side).conn != Some(c)
    {
    }
  }

  lemma NothingEverOpen(closing: seq<Action>, side: Side)
    requires var s := Exec(closing); s.closed && InFlight(s, side) == {} && OpenConns(Of(s, side)) == {}
    ensures forall more :: OpenConns(Of(Exec(closing + more), side)) == {}
  {
    forall more
      ensures OpenConns(Of(Exec(closing + more), side)) == {}
    {
      AfterClose(closing, more, side);
    }
  }

  lemma {:induction false} ResumeKeepsOwned(s: State, more: seq<Action>, side: Side)
    requires Owned(s, side)
    ensures Owned(Resume(s, more), side)
    decreases |more|
  {
    if more != [] {
      NextKeepsOwned(s, more[0], side);
      ResumeKeepsOwned(Next(s, more[0]), more[1..], side);
    }
  }

  lemma SomethingStays(s: State, u: nat, side: Side) returns (more: seq<Action>)
    requires s.closed && u in InFlight(s, side) && Owned(s, side)
    ensures InFlight(Resume(s, more), side) == {} && OpenConns(Of(Resume(s, more), side)) != {}
  {
    var first := OthersFail(s, u, side);
    ResumeKeepsOwned(s, first, side);
    var second := LastInstalls(Resume(s, first), u, side);
    ResumeMore(s, first, second);
    more := first + second;
  }

  /** Close leaves nothing open on a side iff no reopen of that side is past its
      check of closed when Close runs; and then nothing is ever open again, without
      waiting for anything to finish. */
  lemma NothingOpenIff(run: seq<Action>, t: nat, ok: bool, side: Side)
    requires t < |Exec(run).threads| && Exec(run).threads[t].pc == CloseLock
    ensures LeavesNothing(run + [Act(t, ok)], side) <==> InFlight(Exec(run), side) == {}
    ensures InFlight(Exec(run), side) == {}
        ==> forall more :: OpenConns(Of(Exec(run + [Act(t, ok)] + more), side)) == {}
  {
    OneMore(run, Act(t, ok));
    RunKeepsOwned(run, side);
    CloseStep(Exec(run), t, ok, side);
    if InFlight(Exec(run), side) == {} {
      NothingEverOpen(run + [Act(t, ok)], side);
    } else {
      var u :| u in InFlight(Exec(run), side);
      NextKeepsOwned(Exec(run), Act(t, ok), side);
      var more := SomethingStays(Exec(run + [Act(t, ok)]), u, side);
      ResumeIsExec(run + [Act(t, ok)], more);
    }
  }

  // A Connect past its dial, and a Close that runs now.
  lemma CloseWhileDialling() returns (run: seq<Action>)
    ensures Exec(run) == State(true, Half(None, None, [Held(0)]), NOTHING, None, {}, {}, None,
                               [Thread(Open(Up, FromConnect, 0), [], None), Thread(Finished, [], None)])
  {
    OneMore([], CallConnect);
    run := [] + [CallConnect];
    assert Exec(run) == INITIAL.(threads := [Thread(Entry(Up, FromConnect), [], None)]);
    OneMore(run, Act(0, true));
    run := run + [Act(0, true)];
    assert Exec(run) == INITIAL.(threads := [Thread(Dial(Up, FromConnect), [], None)]);
    OneMore(run, Act(0, true));
    run := run + [Act(0, true)];
    assert Exec(run) == INITIAL.(up := Half(None, None, [Held(0)]),
                                 threads := [Thread(Open(Up, FromConnect, 0), [], None)]);
    OneMore(run, CallClose);
    run := run + [CallClose];
    OneMore(run, Act(1, true));
    run := run + [Act(1, true)];
  }

  /** It can indeed be open: a reopen past its check when Close runs still
      installs its connection, and nothing closes that one. */
  lemma LateInstallStaysOpen() returns (run: seq<Action>)
    ensures Exec(run).closed && InFlight(Exec(run), Up) == {} && OpenConns(Exec(run).up) == {0}
  {
    run := CloseWhileDialling();
    OneMore(run, Act(0, true));
    run := run + [Act(0, true)];
    OneMore(run, Act(0, true));
    run := run + [Act(0, true)];
    var s := Exec(run);
    assert s.up.fates == [Installed];
    assert s.threads == [Thread(Entry(Down, FromConnect), [], None), Thread(Finished, [], None)];
  }
}
