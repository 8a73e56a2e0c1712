/** The upstream stream is replaced by the sends that find it dead. */
module ClientRecovery {
  import opened Wrappers
  import opened ClientMachine
  import opened ClientSends
  import opened ClientRefinement

  // Steps a sendUpstream call has left under sendMu, when everything fails that can.
  function StepsLeft(pc: Pc): nat {
    match pc
    case SendRead => 12
    case SendReread => 7
    case SendCall(_) => 6
    case Entry(_, k) => if k.FirstSend? then 11 else 5
    case Dial(_, k) => if k.FirstSend? then 10 else 4
    case Open(_, k, _) => if k.FirstSend? then 9 else 3
    case Install(_, k, _) => if k.FirstSend? then 8 else 2
    case _ => 0
  }

  lemma OneStepOut(s: State, t: nat)
    requires SendInv(s) && !s.closed && s.sendMu == Some(t)
    ensures t < |s.threads|
    ensures var s' := Next(s, Act(t, false));
            && !s'.closed && |s'.up.fates| >= |s.up.fates|
            && (s'.sendMu.None? || (s'.sendMu == Some(t) && t < |s'.threads|
                                    && StepsLeft(s'.threads[t].pc) < StepsLeft(s.threads[t].pc)))
  {
    assert Behaves(s, t);
  }

  // The call that holds sendMu comes to its end.
  lemma {:induction false} ReachFree(s: State, t: nat) returns (more: seq<Action>)
    requires SendInv(s) && !s.closed && s.sendMu == Some(t) && t < |s.threads|
    ensures var s' := Resume(s, more); s'.sendMu.None? && !s'.closed && |s'.up.fates| >= |s.up.fates|
    decreases StepsLeft(s.threads[t].pc)
  {
    var a := Act(t, false);
    OneStepOut(s, t);
    NextKeepsSendInv(s, a);
    more := [];
    if Next(s, a).sendMu.Some? {
      more := ReachFree(Next(s, a), t);
    }
    ResumeFirst(s, a, more);
    more := [a] + more;
  }

  // A new call, whose Send fails and whose dials succeed.
  lemma FailedSendReopens(s: State) returns (more: seq<Action>)
    requires s.sendMu.None? && !s.closed
    ensures HasNewStream(s.up, Resume(s, more).up)
  {
    more := WholeSend(s, Attempt(true, true), false, Attempt(true, true));
  }

  lemma Recovers(s: State) returns (more: seq<Action>)
    requires SendInv(s) && !s.closed && (s.sendMu.Some? ==> s.sendMu.value < |s.threads|)
    ensures HasNewStream(s.up, Resume(s, more).up)
  {
    var first := [];
    if s.sendMu.Some? {
      first := ReachFree(s, s.sendMu.value);
    }
    var rest := FailedSendReopens(Resume(s, first));
    more := first + rest;
    ResumeMore(s, first, rest);
  }

  /** From every reachable state of a client that is not closed, whatever its
      goroutines are at, some continuation has an open upstream connection and a
      stream on it newer than any before: a Send that fails brings them about. */
  lemma UpstreamCanRecover(run: seq<Action>) returns (more: seq<Action>, y: nat)
    requires !Exec(run).closed
    ensures var h, h' := Exec(run).up, Exec(run + more).up;
            && h'.stream == h'.conn == Some(y) && |h.fates| <= y < |h'.fates| && h'.fates[y] == Installed
  {
    RunKeepsSendInv(run);
    if Exec(run).sendMu.Some? {
      OneStepOut(Exec(run), Exec(run).sendMu.value);
    }
    more := Recovers(Exec(run));
    ResumeIsExec(run, more);
    y := |Exec(run + more).up.fates| - 1;
  }
}
