/** What a SendUpstream call does to the stream, in every interleaving. */
module ClientSends {
  import opened Wrappers
  import opened ClientMachine

  predicate Sending(k: Option<Caller>) {
    k == Some(FirstSend) || k == Some(AfterFailedSend)
  }

  /** Between sendMu.Lock and its release. */
  predicate InCritical(pc: Pc) {
    pc.SendRead? || pc.SendReread? || pc.SendCall? || Sending(CallerOf(pc))
  }

  /** The Send calls a goroutine has made, by where it is. */
  predicate SentSoFar(th: Thread) {
    if th.pc.Finished? then
      th.sends == (if th.result == Some(true) then [true] else []) || (th.result == Some(false) && th.sends == [false])
    else
      th.result == None && th.sends == if CallerOf(th.pc) == Some(AfterFailedSend) then [false] else []
  }

  predicate HasStream(s: State, pc: Pc) {
    && (pc.SendReread? ==> s.up.stream.Some?)
    && (pc.SendCall? ==> pc.target.Some?)
  }

  ghost predicate Behaves(s: State, t: nat)
    requires t < |s.threads|
  {
    var th := s.threads[t];
    && (InCritical(th.pc) <==> s.sendMu == Some(t))
    && (Sending(CallerOf(th.pc)) ==> SideOf(th.pc).Up?)
    && SentSoFar(th) && HasStream(s, th.pc)
  }

  ghost predicate SendInv(s: State) {
    && (forall t :: 0 <= t < |s.threads| ==> Behaves(s, t))
    && (s.sendMu.Some? ==> s.sendMu.value < |s.threads|)
  }

  // What a step of goroutine t leaves the others with.
  ghost predicate Others(s: State, s': State, t: nat)
    requires t < |s.threads|
  {
    && |s.threads| <= |s'.threads|
    && (forall u :: 0 <= u < |s.threads| && u != t ==> s'.threads[u] == s.threads[u])
    && (forall u :: |s.threads| <= u < |s'.threads| ==> s'.threads[u].pc in {LoopSelect} || s'.threads[u].pc.Recv?)
    && (forall u :: |s.threads| <= u < |s'.threads| ==> s'.threads[u].sends == [] && s'.threads[u].result == None)
    && (|| s'.sendMu == s.sendMu
        || (s.sendMu == None && s'.sendMu == Some(t))
        || (s.sendMu == Some(t) && s'.sendMu == None))
    && (s.up.stream.Some? ==> s'.up.stream.Some?)
  }

  lemma ReturnBehaves(s: State, t: nat, side: Side, k: Caller, ok: bool)
    requires t < |s.threads| && (Sending(Some(k)) <==> s.sendMu == Some(t))
    requires Sending(Some(k)) ==> side.Up?
    requires k.FirstSend? && ok ==> s.up.stream.Some?
    requires s.threads[t].result == None
    requires s.threads[t].sends == if k.AfterFailedSend? then [false] else []
    ensures var s' := Return(s, t, side, k, ok); Others(s, s', t) && Behaves(s', t)
  {
  }

  lemma CancelPrevBehaves(s: State, t: nat, ok: bool)
    requires t < |s.threads| && Behaves(s, t) && s.threads[t].pc.CancelPrev?
    ensures var s' := StepReopen(s, t, ok); Others(s, s', t) && Behaves(s', t)
  {
  }

  lemma DialBehaves(s: State, t: nat, ok: bool)
    requires t < |s.threads| && Behaves(s, t) && s.threads[t].pc.Dial?
    ensures var s' := StepReopen(s, t, ok); Others(s, s', t) && Behaves(s', t)
  {
    if !ok {
      ReturnBehaves(s, t, s.threads[t].pc.side, s.threads[t].pc.caller, false);
    }
  }

  lemma OpenBehaves(s: State, t: nat, ok: bool)
    requires t < |s.threads| && Behaves(s, t) && s.threads[t].pc.Open?
    ensures var s' := StepReopen(s, t, ok); Others(s, s', t) && Behaves(s', t)
  {
    var side, k, c := s.threads[t].pc.side, s.threads[t].pc.caller, s.threads[t].pc.conn;
    if !ok {
      var s1 := With(s, side, CloseConn(Of(s, side), Some(c)));
      assert s1.threads == s.threads && s1.sendMu == s.sendMu && s1.up.stream == s.up.stream;
      ReturnBehaves(s1, t, side, k, false);
    }
  }

  lemma InstallBehaves(s: State, t: nat, ok: bool)
    requires t < |s.threads| && Behaves(s, t) && s.threads[t].pc.Install?
    ensures var s' := StepReopen(s, t, ok); Others(s, s', t) && Behaves(s', t)
  {
    var side, k, c := s.threads[t].pc.side, s.threads[t].pc.caller, s.threads[t].pc.conn;
    if side.Up? {
      var s1 := s.(up := InstallOn(s.up, c));
      assert s1.up.stream == Some(c);
      ReturnBehaves(s1, t, Up, k, true);
    }
  }

  lemma StepReopenBehaves(s: State, t: nat, ok: bool)
    requires t < |s.threads| && Behaves(s, t) && Reopening(s.threads[t].pc)
    ensures var s' := StepReopen(s, t, ok); Others(s, s', t) && Behaves(s', t)
  {
    match s.threads[t].pc
    case Entry(side, k) => ReturnBehaves(s, t, side, k, false);
    case CancelPrev(_, _) => CancelPrevBehaves(s, t, ok);
    case Dial(_, _) => DialBehaves(s, t, ok);
    case Open(_, _, _) => OpenBehaves(s, t, ok);
    case Install(_, _, _) => InstallBehaves(s, t, ok);
    case SpawnRecv(k, x) => ReturnBehaves(Spawn(s, Recv(x)), t, Down, k, true);
  }

  lemma SendStepBehaves(s: State, t: nat, ok: bool)
    requires t < |s.threads| && Behaves(s, t)
    requires var pc := s.threads[t].pc; pc.SendLock? || pc.SendRead? || pc.SendReread? || pc.SendCall?
    ensures var s' := StepOther(s, t, ok); Others(s, s', t) && Behaves(s', t)
  {
  }

  lemma StepOtherBehaves(s: State, t: nat, ok: bool)
    requires t < |s.threads| && Behaves(s, t) && !Reopening(s.threads[t].pc)
    ensures var s' := StepOther(s, t, ok); Others(s, s', t) && Behaves(s', t)
  {
    var pc := s.threads[t].pc;
    if pc.SendLock? || pc.SendRead? || pc.SendReread? || pc.SendCall? {
      SendStepBehaves(s, t, ok);
    }
  }

  lemma OthersKeepSendInv(s: State, s': State, t: nat)
    requires SendInv(s) && t < |s.threads| && Others(s, s', t) && Behaves(s', t)
    ensures SendInv(s')
  {
    assert Behaves(s, t);
    forall u | 0 <= u < |s'.threads|
      ensures Behaves(s', u)
    {
      assert u < |s.threads| ==> Behaves(s, u);
    }
  }

  lemma NextKeepsSendInv(s: State, a: Action)
    requires SendInv(s)
    ensures SendInv(Next(s, a))
    ensures s.up.stream.Some? ==> Next(s, a).up.stream.Some?
  {
    var s' := Next(s, a);
    if a.Act? && a.tid < |s.threads| {
      var t := a.tid;
      assert Behaves(s, t);
      if Reopening(s.threads[t].pc) {
        StepReopenBehaves(s, t, a.ok);
      } else {
        StepOtherBehaves(s, t, a.ok);
      }
      OthersKeepSendInv(s, s', t);
    } else {
      forall u | 0 <= u < |s'.threads|
        ensures Behaves(s', u)
      {
        assert u < |s.threads| ==> Behaves(s, u);
      }
    }
  }

  lemma {:induction false} RunKeepsSendInv(run: seq<Action>)
    ensures SendInv(Exec(run))
  {
    if run != [] {
      RunKeepsSendInv(run[..|run| - 1]);
      NextKeepsSendInv(Exec(run[..|run| - 1]), run[|run| - 1]);
    }
  }

  /** No call ever sends on a nil stream. */
  lemma NeverSendsOnNil(run: seq<Action>, t: nat)
    requires t < |Exec(run).threads| && Exec(run).threads[t].pc.SendCall?
    ensures Exec(run).threads[t].pc.target.Some?
  {
    RunKeepsSendInv(run);
    assert Behaves(Exec(run), t);
  }

  /** Two goroutines are never in Send, or anywhere under sendMu, at once. */
  lemma SendsExclude(run: seq<Action>, t: nat, u: nat)
    requires t < |Exec(run).threads| && InCritical(Exec(run).threads[t].pc)
    requires u < |Exec(run).threads| && InCritical(Exec(run).threads[u].pc)
    ensures t == u
  {
    RunKeepsSendInv(run);
    assert Behaves(Exec(run), t) && Behaves(Exec(run), u);
  }

  /** A call sends at most once, and it returns nil iff it did and that Send
      succeeded, whatever reopens ran meanwhile. */
  lemma SendOutcome(run: seq<Action>, t: nat)
    requires t < |Exec(run).threads|
    ensures var th := Exec(run).threads[t];
            && |th.sends| <= 1
            && (th.result == Some(true) <==> th.sends == [true])
            && (th.result.Some? && !th.result.value ==> th.sends == [] || th.sends == [false])
  {
    RunKeepsSendInv(run);
    assert Behaves(Exec(run), t);
  }

  /** upstreamStream goes from nil to non-nil and never back. */
  lemma {:induction false} StreamStaysNonNil(run: seq<Action>, more: seq<Action>)
    requires Exec(run).up.stream.Some?
    ensures Exec(run + more).up.stream.Some?
    decreases |more|
  {
    if more == [] {
      assert run + more == run;
    } else {
      var front, a := more[..|more| - 1], more[|more| - 1];
      StreamStaysNonNil(run, front);
      assert run + more == run + front + [a];
      OneMore(run + front, a);
      RunKeepsSendInv(run + front);
      NextKeepsSendInv(Exec(run + front), a);
    }
  }
}
