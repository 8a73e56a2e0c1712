/** The downstream counters over whole runs. */
module RegistryCounters {
  import opened PendingQueue
  import opened Registry
  import opened RegistryMailboxes

  /** Envelopes that entered a channel, over all sessions. */
  ghost function AcceptedByAll(sessions: seq<Session>): nat {
    if sessions == [] then 0
    else AcceptedByAll(sessions[..|sessions| - 1]) + |sessions[|sessions| - 1].accepted|
  }

  /** Where an accepted envelope is: sent, in hand, queued or discarded. */
  ghost function KeptByAll(sessions: seq<Session>): nat {
    if sessions == [] then 0
    else
      var x := sessions[|sessions| - 1];
      KeptByAll(sessions[..|sessions| - 1]) + |x.sent| + |HandSeq(x.hand)| + |x.queue| + |x.discarded|
  }

  /** Children that the logged operations set out to send to. */
  ghost function Attempts(log: seq<Entry>): nat {
    if log == [] then 0 else Attempts(log[..|log| - 1]) + log[|log| - 1].offers
  }

  ghost function StillToOffer(s: State): nat {
    if s.cast.Some? then |s.cast.value.todo| else 0
  }

  ghost predicate Counted(s: State) {
    && s.sentCount == AcceptedByAll(s.sessions)
    && s.sentCount + s.droppedCount + StillToOffer(s) == Attempts(s.log)
  }

  lemma {:induction false} UpdateOne(sessions: seq<Session>, i: nat, x: Session)
    requires i < |sessions|
    ensures AcceptedByAll(sessions[i := x]) + |sessions[i].accepted| == AcceptedByAll(sessions) + |x.accepted|
  {
    var n := |sessions| - 1;
    if i == n {
      assert sessions[i := x][..n] == sessions[..n];
    } else {
      UpdateOne(sessions[..n], i, x);
      assert sessions[i := x][..n] == sessions[..n][i := x];
    }
  }

  lemma PushCounts(s: State, key: string, env: Envelope, pos: nat)
    ensures var s' := Push(s, key, env, pos);
            && s'.sentCount + s'.droppedCount == s.sentCount + s.droppedCount + 1
            && s'.log == s.log && s'.cast == s.cast
            && s'.sentCount + AcceptedByAll(s.sessions) == s.sentCount + AcceptedByAll(s'.sessions)
  {
    if HasRoom(s, key) {
      UpdateOne(s.sessions, s.children[key], Push(s, key, env, pos).sessions[s.children[key]]);
    }
  }

  lemma LogCounts(log: seq<Entry>, entry: Entry)
    ensures Attempts(log + [entry]) == Attempts(log) + entry.offers
  {
    assert (log + [entry])[..|log|] == log;
  }

  lemma OfferKeepsCounted(s: State, key: string)
    requires Counted(s) && s.cast.Some? && key in s.cast.value.todo && s.cast.value.pos < |s.log|
    ensures Counted(DoOffer(s, key))
  {
    PushCounts(s, key, s.log[s.cast.value.pos].env, s.cast.value.pos);
  }

  lemma SendToKeepsCounted(s: State, key: string, env: Envelope)
    requires Counted(s) && s.cast.None?
    ensures Counted(DoSendTo(s, key, env))
  {
    if key in s.children {
      LogCounts(s.log, Entry(env, 1));
      PushCounts(s.(log := s.log + [Entry(env, 1)]), key, env, |s.log|);
    }
  }

  lemma NextKeepsCounted(s: State, a: Action)
    requires Counted(s)
    ensures Counted(Next(s, a))
  {
    var s' := Next(s, a);
    if s' != s {
      match a
      case Register(_) => assert s'.sessions[..|s.sessions|] == s.sessions;
      case Unregister(i) => UpdateOne(s.sessions, i, s'.sessions[i]);
      case Begin(env) =>
        LogCounts(s.log, Entry(env, |s.children|));
        assert |s.children| == |s.children.Keys|;
      case Offer(key) => OfferKeepsCounted(s, key);
      case End =>
      case SendTo(key, env) => SendToKeepsCounted(s, key, env);
      case Pop(i) => UpdateOne(s.sessions, i, s'.sessions[i]);
      case SendOk(i) => UpdateOne(s.sessions, i, s'.sessions[i]);
      case SendErr(i) => UpdateOne(s.sessions, i, s'.sessions[i]);
      case CtxDone(i) => UpdateOne(s.sessions, i, s'.sessions[i]);
    }
  }

  lemma {:induction false} AcceptedIsKept(log: seq<Entry>, sessions: seq<Session>)
    requires forall i :: 0 <= i < |sessions| ==> MailboxOk(log, sessions[i])
    ensures AcceptedByAll(sessions) == KeptByAll(sessions)
  {
    if sessions != [] {
      var n := |sessions| - 1;
      AcceptedIsKept(log, sessions[..n]);
      assert MailboxOk(log, sessions[n]);
      var x := sessions[n];
      assert |Picked(log, x.accepted)| == |x.sent + HandSeq(x.hand) + x.queue + x.discarded|;
    }
  }

  lemma {:induction false} RunKeepsCounted(run: seq<Action>)
    ensures Counted(Exec(run))
  {
    if run != [] {
      RunKeepsCounted(run[..|run| - 1]);
      NextKeepsCounted(Exec(run[..|run| - 1]), run[|run| - 1]);
    }
  }

  /** The sent counter is the number of envelopes that some session has sent on its
      stream, has in hand, has queued, or discarded when it disconnected. */
  lemma SentCounter(run: seq<Action>)
    ensures Exec(run).sentCount == KeptByAll(Exec(run).sessions)
  {
    var s := Exec(run);
    RunKeepsCounted(run);
    RunKeepsInv(run);
    forall i | 0 <= i < |s.sessions|
      ensures MailboxOk(s.log, s.sessions[i])
    {
      var x := s.sessions[i];
    }
    AcceptedIsKept(s.log, s.sessions);
  }

  /** Whenever no broadcast is under way, sent and dropped together are all the
      sends attempted: one for each child registered when a broadcast began, and
      one for each targeted send that found its child. */
  lemma SentAndDropped(run: seq<Action>)
    requires Exec(run).cast.None?
    ensures Exec(run).sentCount + Exec(run).droppedCount == Attempts(Exec(run).log)
  {
    RunKeepsCounted(run);
  }
}
