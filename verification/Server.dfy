/** transport.Server as an object. A method that takes mu is written from the
    moment it has it; each is proved to be steps of the registry's state machine,
    whose theorems therefore hold of the object after any sequence of calls. */
module TransportServer {
  import opened Wrappers
  import opened Channels
  import opened Naming
  import opened PendingQueue
  import opened Registry
  import opened RegistryMailboxes
  import opened RegistryBroadcasts
  import opened Rejections
  import opened Policy

  datatype BroadcastResult = BroadcastResult(delivered: nat, dropped: seq<string>)

  datatype SendResult = Sent | NoSuchChild | BufferFull

  // An AuthorizeChild hook is a number: what it answers is given with each call.
  type Hook = nat

  /** The steps a Downstream handler takes without mu. */
  predicate Lockless(a: Action) {
    a.Pop? || a.SendOk? || a.SendErr? || a.CtxDone?
  }

  predicate AllLockless(steps: seq<Action>) {
    forall a :: a in steps ==> Lockless(a)
  }

  ghost predicate HandlersOnly(meanwhile: seq<seq<Action>>) {
    forall k :: 0 <= k < |meanwhile| ==> AllLockless(meanwhile[k])
  }

  /** None of the steps is taken by the handler of session i. */
  predicate Spares(steps: seq<Action>, i: nat) {
    forall a :: a in steps && Lockless(a) ==> a.i != i
  }

  /** All a session's handler knows of itself is the same; more may have entered its
      channel, behind what was there. */
  predicate SameHandler(x: Session, y: Session) {
    && y.claimed == x.claimed && y.key == x.key && y.phase == x.phase
    && y.hand == x.hand && y.sent == x.sent && y.discarded == x.discarded
    && x.queue <= y.queue && x.accepted <= y.accepted
  }

  ghost predicate Untouched(before: seq<Session>, after: seq<Session>, steps: seq<Action>) {
    && |before| == |after|
    && forall i: nat {:trigger Spares(steps, i)} :: i < |before| && Spares(steps, i) ==> after[i] == before[i]
  }

  /** The same, but for the envelope of operation pos, which may have entered. */
  predicate Grown(x: Session, y: Session, env: Envelope, pos: nat) {
    && SameHandler(x, y)
    && (|| (y.queue == x.queue && y.accepted == x.accepted)
        || (pos !in x.accepted && y.queue == x.queue + [env] && y.accepted == x.accepted + [pos]))
  }

  ghost predicate GrownOutside(before: seq<Session>, after: seq<Session>, steps: seq<Action>,
                               env: Envelope, pos: nat) {
    && |before| == |after|
    && forall i: nat {:trigger Spares(steps, i)} ::
         i < |before| && Spares(steps, i) ==> Grown(before[i], after[i], env, pos)
  }

  ghost predicate AllGrown(before: seq<Session>, after: seq<Session>, env: Envelope, pos: nat) {
    |before| == |after| && forall i :: 0 <= i < |before| ==> Grown(before[i], after[i], env, pos)
  }

  // One thing another goroutine does, whole.
  datatype Other =
    | Registers(claimed: string)
    | Unregisters(i: nat)
    | Targets(key: string, env: Envelope)
    | Broadcasts(env: Envelope, meanwhile: seq<seq<Action>>)
    | Handles(a: Action)

  // What precedes a select of a Downstream handler, whether it then finds the
  // context done, and, if it takes an envelope, whether its stream.Send succeeds.
  datatype Round = Round(others: seq<Other>, done: bool, sendOk: bool)

  ghost predicate WellFormed(o: Other) {
    (o.Broadcasts? ==> HandlersOnly(o.meanwhile)) && (o.Handles? ==> Lockless(o.a))
  }

  function Flat(steps: seq<seq<Action>>): seq<Action> {
    if steps == [] then [] else steps[0] + Flat(steps[1..])
  }

  /** It is not done by the handler of session i. */
  ghost predicate Leaves(o: Other, i: nat) {
    && (o.Unregisters? ==> o.i != i)
    && (o.Broadcasts? ==> Spares(Flat(o.meanwhile), i))
    && (o.Handles? ==> Spares([o.a], i))
  }

  /** What it makes of the registry; the rest of what a broadcast does,
      BroadcastDownstream says. */
  ghost predicate Did(s: State, o: Other, s': State) {
    match o
    case Registers(claimed) => s' == DoRegister(s, claimed)
    case Unregisters(i) => s' == Next(s, Unregister(i))
    case Targets(key, env) => s' == DoSendTo(s, key, env)
    case Broadcasts(env, _) => s'.children == s.children && s'.log == s.log + [Entry(env, |s.children|)]
    case Handles(a) => s' == Next(s, a)
  }

  /** Since position from the log has had every broadcast among these. */
  ghost predicate Logs(log: seq<Entry>, from: nat, others: seq<Other>) {
    forall o :: o in others && o.Broadcasts? ==> exists p :: from <= p < |log| && log[p].env == o.env
  }

  lemma LogsStay(log: seq<Entry>, log': seq<Entry>, from: nat, from': nat, others: seq<Other>)
    requires Logs(log, from, others) && log <= log' && from' <= from
    ensures Logs(log', from', others)
  {
    forall o | o in others && o.Broadcasts?
      ensures exists p :: from' <= p < |log'| && log'[p].env == o.env
    {
      var p :| from <= p < |log| && log[p].env == o.env;
      assert log'[p].env == o.env;
    }
  }

  lemma OneMoreLogged(s: State, o: Other, s': State, from: nat, others: seq<Other>)
    requires Did(s, o, s') && Logs(s.log, from, others) && from <= |s.log|
    ensures s.log <= s'.log && Logs(s'.log, from, others + [o])
  {
    assert s.log <= s'.log;
    LogsStay(s.log, s'.log, from, from, others);
    if o.Broadcasts? {
      assert s'.log[|s.log|].env == o.env;
    }
  }

  ghost predicate AllLeave(others: seq<Other>, i: nat) {
    forall o :: o in others ==> WellFormed(o) && Leaves(o, i)
  }

  ghost predicate RoundsLeave(rounds: seq<Round>, i: nat) {
    forall r :: r in rounds ==> AllLeave(r.others, i)
  }

  function Rest(queue: seq<Envelope>): seq<Envelope> {
    if queue == [] then [] else queue[1..]
  }

  /** No context is done, no Send fails, and after all else come 16 rounds in which
      nobody else does anything. */
  ghost predicate Drains(rounds: seq<Round>) {
    && |rounds| >= 16 && (forall k :: 0 <= k < |rounds| ==> !rounds[k].done && rounds[k].sendOk)
    && forall k :: |rounds| - 16 <= k < |rounds| ==> rounds[k].others == []
  }

  // One more round is over.
  lemma RoundIsLogged(rounds: seq<Round>, k: nat, from: nat, before: seq<Entry>, log: seq<Entry>)
    requires k < |rounds| && before <= log && Logs(log, |before|, rounds[k].others) && from <= |before|
    requires forall j :: 0 <= j < k ==> Logs(before, from, rounds[j].others)
    ensures forall j :: 0 <= j <= k ==> Logs(log, from, rounds[j].others)
  {
    LogsStay(log, log, |before|, from, rounds[k].others);
    forall j | 0 <= j < k
      ensures Logs(log, from, rounds[j].others)
    {
      LogsStay(before, log, from, from, rounds[j].others);
    }
  }

  // A handler in its loop: it has sent what it took, but for a failed last one.
  ghost predicate Handling(x: Session, nodeId: string, sent: seq<Envelope>) {
    x.claimed == nodeId && x.sent == sent && (if x.phase.Serving? then x.hand.None? else x.phase.Leaving?)
  }

  lemma OneMoreDecision(h: seq<Decision>, d: Decision)
    ensures Fold(h + [d]) == Apply(Fold(h), d)
  {
    assert (h + [d])[..|h|] == h;
  }

  /** The same broadcast, though handlers may have popped. */
  ghost predicate SameCast(before: Option<Cast>, after: Option<Cast>) {
    && before.Some? == after.Some?
    && (before.Some? ==> after.value == before.value.(popped := after.value.popped))
  }

  lemma {:induction false} FlatSpares(steps: seq<seq<Action>>, k: nat)
    requires k < |steps|
    ensures forall i: nat :: Spares(Flat(steps), i) ==> Spares(steps[k], i)
  {
    forall i: nat | Spares(Flat(steps), i)
      ensures Spares(steps[k], i)
    {
      if k > 0 {
        FlatSpares(steps[1..], k - 1);
        assert Spares(Flat(steps[1..]), i);
      }
    }
  }

  lemma TurnIsLocal(a: seq<Session>, b: seq<Session>, c: seq<Session>, meanwhile: seq<seq<Action>>, k: nat,
                    env: Envelope, pos: nat)
    requires GrownOutside(a, b, Flat(meanwhile), env, pos)
    requires GrownOutside(b, c, if k < |meanwhile| then meanwhile[k] else [], env, pos)
    ensures GrownOutside(a, c, Flat(meanwhile), env, pos)
  {
    if k < |meanwhile| {
      FlatSpares(meanwhile, k);
    }
    forall i: nat | i < |a| && Spares(Flat(meanwhile), i)
      ensures Grown(a[i], c[i], env, pos)
    {
      assert Spares(if k < |meanwhile| then meanwhile[k] else [], i);
    }
  }

  /** A broadcast of env that began in state s0 has come to s, with these children
      still to range over and this result. */
  ghost predicate Ranging(s0: State, s: State, env: Envelope, todo: set<string>, r: BroadcastResult) {
    && s.children == s0.children && s.anonSeq == s0.anonSeq && s.log == s0.log + [Entry(env, |s0.children|)]
    && todo <= s.children.Keys && s.cast.Some? && r == BroadcastResult(s.cast.value.delivered, s.cast.value.dropped)
    && s.cast.value.pos == |s0.log| && s.cast.value.todo == todo && s.cast.value.full == FullKeys(s0)
    && s.sentCount == s0.sentCount + r.delivered && s.droppedCount == s0.droppedCount + |r.dropped|
  }

  /** An envelope nobody had is at the end of the channel of each child that was not
      dropped. */
  ghost predicate ChannelsGrew(before: seq<Session>, after: seq<Session>, steps: seq<Action>, env: Envelope,
                               children: map<string, nat>, dropped: seq<string>) {
    forall key :: key in children && children[key] < |before| && children[key] < |after| && Spares(steps, children[key])
      ==> after[children[key]].queue == before[children[key]].queue + if key in dropped then [] else [env]
  }

  lemma GrownIsDelivered(s0: State, s: State, steps: seq<Action>, env: Envelope, dropped: seq<string>)
    requires GrownOutside(s0.sessions, s.sessions, steps, env, |s0.log|) && s.children == s0.children
    requires forall i :: 0 <= i < |s0.sessions| ==> |s0.log| !in s0.sessions[i].accepted
    requires forall i :: 0 <= i < |s.sessions| ==> |s.sessions[i].queue| <= 16
    requires forall key :: key in s.children && s.children[key] < |s.sessions|
               ==> (key in dropped <==> |s0.log| !in s.sessions[s.children[key]].accepted)
    ensures ChannelsGrew(s0.sessions, s.sessions, steps, env, s.children, dropped)
    ensures forall key :: HoldsSixteen(s0, key) && Spares(steps, s.children[key]) ==> key in dropped
  {
    forall key | key in s.children && s.children[key] < |s.sessions| && Spares(steps, s.children[key])
      ensures var i := s.children[key];
              && s.sessions[i].queue == s0.sessions[i].queue + (if key in dropped then [] else [env])
              && (|s0.sessions[i].queue| == 16 ==> key in dropped)
    {
      assert Grown(s0.sessions[s.children[key]], s.sessions[s.children[key]], env, |s0.log|);
    }
  }

  // A handler's step changes that handler's session only.
  lemma LocklessIsLocal(s: State, a: Action, steps: seq<Action>)
    requires Lockless(a) && a in steps
    ensures var s' := Next(s, a);
            && Untouched(s.sessions, s'.sessions, steps) && SameCast(s.cast, s'.cast)
  {
    forall i: nat | i < |s.sessions| && Spares(steps, i)
      ensures s.sessions[i] == Next(s, a).sessions[i]
    {
    }
  }

  lemma KeyLeadsToChannel(run: seq<Action>, key: string)
    requires key in Exec(run).children
    ensures ChildOk(Exec(run), key)
  {
    RunKeepsInv(run);
  }

  lemma CastHasNotComeTo(run: seq<Action>, key: string)
    requires Exec(run).cast.Some? && key in Exec(run).cast.value.todo
    ensures Ahead(Exec(run), key) && ChildOk(Exec(run), key)
  {
    RunKeepsInv(run);
  }

  lemma NotYetAccepted(run: seq<Action>)
    ensures forall i :: 0 <= i < |Exec(run).sessions| ==> |Exec(run).log| !in Exec(run).sessions[i].accepted
  {
    forall i | 0 <= i < |Exec(run).sessions|
      ensures |Exec(run).log| !in Exec(run).sessions[i].accepted
    {
      Mailbox(run, i);
    }
  }

  lemma QueuesAreBounded(run: seq<Action>)
    ensures forall i :: 0 <= i < |Exec(run).sessions| ==> |Exec(run).sessions[i].queue| <= 16
  {
    forall i | 0 <= i < |Exec(run).sessions|
      ensures |Exec(run).sessions[i].queue| <= 16
    {
      Mailbox(run, i);
    }
  }

  /** A handler after its stream.Send of the envelope in its hand. */
  function Answered(x: Session, ok: bool): Session
    requires x.hand.Some?
  {
    if ok then x.(hand := None, sent := x.sent + [x.hand.value]) else x.(phase := Leaving)
  }

  /** The session whose channel the operation at the end of the log got into. */
  function Filled(x: Session, env: Envelope, pos: nat): Session {
    x.(queue := x.queue + [env], accepted := x.accepted + [pos])
  }

  // What a turn of a broadcast makes of the registry.
  function Offered(s: State, key: string, env: Envelope): State
    requires s.cast.Some? && key in s.children && s.children[key] < |s.sessions| && s.log != []
  {
    var c, ch := s.cast.value, s.children[key];
    if |s.sessions[ch].queue| < 16 then
      s.(cast := Some(c.(todo := c.todo - {key}, delivered := c.delivered + 1)), sentCount := s.sentCount + 1,
         sessions := s.sessions[ch := Filled(s.sessions[ch], env, |s.log| - 1)])
    else
      s.(cast := Some(c.(todo := c.todo - {key}, dropped := c.dropped + [key])), droppedCount := s.droppedCount + 1)
  }

  lemma TurnIsOffer(s0: State, s: State, key: string, env: Envelope, todo: set<string>, r: BroadcastResult,
                    r': BroadcastResult)
    requires Ranging(s0, s, env, todo, r) && key in todo && Ahead(s, key)
    requires r' == if |s.sessions[s.children[key]].queue| < 16 then r.(delivered := r.delivered + 1)
                   else r.(dropped := r.dropped + [key])
    ensures var s' := Offered(s, key, env);
            && s' == Next(s, Action.Offer(key)) && AllGrown(s.sessions, s'.sessions, env, |s.log| - 1)
            && Ranging(s0, s', env, todo - {key}, r')
  {
  }

  // A send to a child, as a step of the registry.
  lemma SendIsPush(s: State, key: string, env: Envelope, s': State)
    requires key in s.children && s.children[key] < |s.sessions|
    requires var ch := s.children[key];
             s' == if |s.sessions[ch].queue| < 16
                   then s.(log := s.log + [Entry(env, 1)], sentCount := s.sentCount + 1,
                           sessions := s.sessions[ch := Filled(s.sessions[ch], env, |s.log|)])
                   else s.(log := s.log + [Entry(env, 1)], droppedCount := s.droppedCount + 1)
    ensures s' == Next(s, SendTo(key, env)) || s.cast.Some?
  {
  }

  class Server {
    // A channel is named by the number of the session it was made for.
    var children: map<string, nat>
    var anonSeq: nat
    var pending: map<string, PendingChild>
    var authorizeChild: Option<Hook>
    var sentCount: nat
    var droppedCount: nat

    // The variables and channels of the Downstream handlers, with the log of
    // operations that their histories point into.
    var sessions: seq<Session>
    var log: seq<Entry>

    // The broadcast holding mu, and history.
    ghost var cast: Option<Cast>
    ghost var trace: seq<Action>
    ghost var decisions: seq<Decision>

    ghost function View(): State
      reads this`children, this`anonSeq, this`sessions, this`cast, this`log, this`sentCount, this`droppedCount
    {
      State(children, anonSeq, sessions, cast, log, sentCount, droppedCount)
    }

    ghost predicate Valid()
      reads this
    {
      View() == Exec(trace) && pending == Fold(decisions)
    }

    constructor ()
      ensures Valid() && View() == INITIAL && pending == map[] && authorizeChild == None
    {
      children, anonSeq, pending, sentCount, droppedCount, sessions := map[], 0, map[], 0, 0, [];
      cast, log, trace, decisions, authorizeChild := None, [], [], [], None;
    }

    /** None, the nil hook, restores the default. */
    method SetAuthorizeChild(hook: Option<Hook>)
      modifies this`authorizeChild
      ensures authorizeChild == hook
      ensures old(Valid()) ==> Valid()
    {
      authorizeChild := hook;
    }

    // Records a step that the fields have just taken.
    ghost method Took(a: Action)
      requires View() == Next(Exec(trace), a) && pending == Fold(decisions)
      modifies this`trace
      ensures Valid() && trace == old(trace) + [a]
    {
      OneMore(trace, a);
      trace := trace + [a];
    }

    method RegisterChild(nodeId: string) returns (key: string, ch: nat)
      requires Valid() && cast.None?
      modifies this`children, this`anonSeq, this`sessions, this`trace
      ensures Valid() && View() == DoRegister(old(View()), nodeId)
      ensures children == old(children)[key := ch] && ch == |old(sessions)|
      ensures nodeId != "" && nodeId !in old(children) ==> key == nodeId && anonSeq == old(anonSeq)
      ensures nodeId == "" || nodeId in old(children) ==> anonSeq == old(anonSeq) + 1
      ensures nodeId == "" ==> key == AnonKey(anonSeq)
      ensures nodeId != "" && nodeId in old(children) ==> key == DupKey(nodeId, anonSeq)
      ensures sessions == old(sessions) + [Session(nodeId, key, Serving, [], None, [], [], [])]
    {
      key := nodeId;
      if key == "" {
        anonSeq := anonSeq + 1;
        key := AnonKey(anonSeq);
      } else if key in children {
        anonSeq := anonSeq + 1;
        key := DupKey(nodeId, anonSeq);
      }
      ch := |sessions|;
      sessions := sessions + [Session(nodeId, key, Serving, [], None, [], [], [])];
      children := children[key := ch];
      Took(Register(nodeId));
    }

    /** unregisterChild, as the handler of session i leaves. */
    method UnregisterChild(i: nat)
      requires Valid() && cast.None? && i < |sessions| && sessions[i].phase.Leaving?
      modifies this`children, this`sessions, this`trace
      ensures Valid() && View() == DoUnregister(old(View()), i)
      ensures i < |sessions| && sessions[i].phase.Gone? && children == old(children) - {sessions[i].key}
      ensures sessions[i].claimed == old(sessions[i].claimed) && sessions[i].sent == old(sessions[i].sent)
      ensures sessions[i].discarded == HandSeq(old(sessions[i].hand)) + old(sessions[i].queue)
    {
      var x := sessions[i];
      children := children - {x.key};
      sessions := sessions[i := x.(phase := Gone, hand := None, queue := [], discarded := HandSeq(x.hand) + x.queue)];
      Took(Unregister(i));
    }

    /** `ch <- env` with a default branch, by the last operation in the log. */
    method TrySend(ch: nat, env: Envelope) returns (ok: bool)
      requires log != [] && ch < |sessions|
      modifies this`sessions, this`sentCount, this`droppedCount
      ensures ok == (|old(sessions)[ch].queue| < 16)
      ensures if ok then sessions == old(sessions)[ch := Filled(old(sessions)[ch], env, |log| - 1)]
              else sessions == old(sessions)
      ensures sentCount == old(sentCount) + (if ok then 1 else 0)
      ensures droppedCount == old(droppedCount) + (if ok then 0 else 1)
    {
      ok := |sessions[ch].queue| < CAPACITY;
      if ok {
        var x := sessions[ch];
        sessions := sessions[ch := x.(queue := x.queue + [env], accepted := x.accepted + [|log| - 1])];
        sentCount := sentCount + 1;
      } else {
        droppedCount := droppedCount + 1;
      }
    }

    // A targeted send that has found its child's channel.
    method SendToChannel(ch: nat, env: Envelope, ghost key: string) returns (ok: bool)
      requires Valid() && cast.None? && key in children && children[key] == ch && ch < |sessions|
      modifies this`log, this`sessions, this`sentCount, this`droppedCount, this`trace
      ensures Valid() && View() == DoSendTo(old(View()), key, env)
      ensures ok == (|old(sessions)[ch].queue| < 16) && log == old(log) + [Entry(env, 1)]
      ensures sessions == if ok then old(sessions)[ch := Filled(old(sessions)[ch], env, |old(log)|)] else old(sessions)
      ensures sentCount == old(sentCount) + (if ok then 1 else 0)
      ensures droppedCount == old(droppedCount) + (if ok then 0 else 1)
    {
      log := log + [Entry(env, 1)];
      ok := TrySend(ch, env);
      SendIsPush(Exec(trace), key, env, View());
      Took(SendTo(key, env));
    }

    method SendToChild(nodeId: string, env: Envelope) returns (r: SendResult)
      requires Valid() && cast.None?
      modifies this`log, this`sessions, this`sentCount, this`droppedCount, this`trace
      ensures Valid() && View() == DoSendTo(old(View()), nodeId, env)
      ensures r.NoSuchChild? <==> nodeId !in old(children)
      ensures nodeId in old(children) ==>
        var ch := old(children)[nodeId];
        && ch < |old(sessions)| && (r.Sent? <==> |old(sessions)[ch].queue| < 16)
        && (r.BufferFull? <==> |old(sessions)[ch].queue| == 16) && log == old(log) + [Entry(env, 1)]
      ensures r.Sent? ==>
        var ch := old(children)[nodeId];
        var x := old(sessions)[ch];
        && sessions == old(sessions)[ch := x.(queue := x.queue + [env], accepted := x.accepted + [|old(log)|])]
        && sentCount == old(sentCount) + 1
      ensures !r.Sent? ==> sessions == old(sessions) && sentCount == old(sentCount)
      ensures droppedCount == old(droppedCount) + if r.BufferFull? then 1 else 0
    {
      if nodeId !in children {
        r := NoSuchChild;
      } else {
        KeyLeadsToChannel(trace, nodeId);
        QueuesAreBounded(trace);
        var ok := SendToChannel(children[nodeId], env, nodeId);
        r := if ok then Sent else BufferFull;
      }
    }

    // ---------------------------------------------------------------------------
    // The select loop of a Downstream handler, a step at a time
    // ---------------------------------------------------------------------------

    /** `env := <-downstreamCh`; nothing when the channel is empty. */
    method Receive(i: nat) returns (got: Option<Envelope>)
      requires Valid() && i < |sessions| && sessions[i].phase.Serving? && sessions[i].hand.None?
      modifies this`sessions, this`cast, this`trace
      ensures Valid() && View() == Next(old(View()), Pop(i))
      ensures trace == old(trace) + [Pop(i)] && |sessions| == |old(sessions)| && (old(cast).None? ==> cast.None?)
      ensures sessions[i] == old(sessions[i]).(hand := got, queue := sessions[i].queue)
      ensures got == if old(sessions[i].queue) == [] then None else Some(old(sessions[i].queue[0]))
    {
      var x := sessions[i];
      if x.queue == [] {
        got := None;
      } else {
        got := Some(x.queue[0]);
        sessions := sessions[i := x.(hand := got, queue := x.queue[1..])];
        if cast.Some? {
          cast := Some(cast.value.(popped := cast.value.popped + {x.key}));
        }
      }
      Took(Pop(i));
    }

    /** `stream.Send(env)` returned. */
    method Answer(i: nat, ok: bool)
      requires Valid() && i < |sessions| && sessions[i].phase.Serving? && sessions[i].hand.Some?
      modifies this`sessions, this`trace
      ensures Valid() && View() == Next(old(View()), if ok then SendOk(i) else SendErr(i))
      ensures trace == old(trace) + [if ok then SendOk(i) else SendErr(i)]
      ensures sessions == old(sessions)[i := sessions[i]]
      ensures sessions[i] == Answered(old(sessions[i]), ok)
    {
      var x := sessions[i];
      sessions := sessions[i := Answered(x, ok)];
      Took(if ok then SendOk(i) else SendErr(i));
    }

    /** `<-stream.Context().Done()`. */
    method Leave(i: nat)
      requires Valid() && i < |sessions| && sessions[i].phase.Serving? && sessions[i].hand.None?
      modifies this`sessions, this`trace
      ensures Valid() && View() == Next(old(View()), CtxDone(i))
      ensures trace == old(trace) + [CtxDone(i)] && sessions == old(sessions)[i := old(sessions[i]).(phase := Leaving)]
    {
      sessions := sessions[i := sessions[i].(phase := Leaving)];
      Took(CtxDone(i));
    }

    /** A step of some other handler, if it can take it. */
    method HandlerStep(a: Action)
      requires Valid() && Lockless(a)
      modifies this`sessions, this`cast, this`trace
      ensures Valid() && View() == Next(old(View()), a) && trace == old(trace) + [a]
    {
      if a.i < |sessions| && sessions[a.i].phase.Serving? {
        if a.Pop? && sessions[a.i].hand.None? {
          var got := Receive(a.i);
          return;
        } else if (a.SendOk? || a.SendErr?) && sessions[a.i].hand.Some? {
          Answer(a.i, a.SendOk?);
          return;
        } else if a.CtxDone? && sessions[a.i].hand.None? {
          Leave(a.i);
          return;
        }
      }
      Took(a);
    }

    method Handlers(steps: seq<Action>)
      requires Valid() && AllLockless(steps)
      modifies this`sessions, this`cast, this`trace
      ensures Valid() && Untouched(old(sessions), sessions, steps)
      ensures SameCast(old(cast), cast) && (steps == [] ==> cast == old(cast))
    {
      for k := 0 to |steps|
        invariant Valid() && Untouched(old(sessions), sessions, steps)
        invariant SameCast(old(cast), cast) && (steps == [] ==> cast == old(cast))
      {
        LocklessIsLocal(View(), steps[k], steps);
        HandlerStep(steps[k]);
      }
    }

    // ---------------------------------------------------------------------------
    // Broadcast
    // ---------------------------------------------------------------------------

    // The child at key is sent env, or dropped.
    method SendOrDrop(key: string, env: Envelope, r: BroadcastResult) returns (r': BroadcastResult)
      requires Valid() && cast.Some? && r == BroadcastResult(cast.value.delivered, cast.value.dropped) && log != []
      requires key in children && children[key] < |sessions|
      modifies this`sessions, this`sentCount, this`droppedCount, this`cast
      ensures View() == Offered(old(View()), key, env)
      ensures r' == if |old(sessions)[children[key]].queue| < 16 then r.(delivered := r.delivered + 1)
                    else r.(dropped := r.dropped + [key])
    {
      var ok := TrySend(children[key], env);
      if ok {
        r' := r.(delivered := r.delivered + 1);
        cast := Some(cast.value.(todo := cast.value.todo - {key}, delivered := r'.delivered));
      } else {
        r' := r.(dropped := r.dropped + [key]);
        cast := Some(cast.value.(todo := cast.value.todo - {key}, dropped := r'.dropped));
      }
    }

    /** One turn of the loop. */
    method Offer(key: string, env: Envelope, r: BroadcastResult, ghost s0: State, ghost todo: set<string>)
      returns (r': BroadcastResult)
      requires Valid() && Ranging(s0, View(), env, todo, r) && key in todo
      modifies this`sessions, this`sentCount, this`droppedCount, this`cast, this`trace
      ensures Valid() && Ranging(s0, View(), env, todo - {key}, r')
      ensures AllGrown(old(sessions), sessions, env, |log| - 1)
    {
      ghost var s := View();
      CastHasNotComeTo(trace, key);
      r' := SendOrDrop(key, env, r);
      TurnIsOffer(s0, s, key, env, todo, r, r');
      Took(Action.Offer(key));
    }

    method Begin(env: Envelope)
      requires Valid() && cast.None?
      modifies this`log, this`cast, this`trace
      ensures Valid() && Ranging(old(View()), View(), env, children.Keys, BroadcastResult(0, []))
    {
      cast := Some(Cast(|log|, children.Keys, 0, [], children.Keys, FullKeys(View()), {}));
      log := log + [Entry(env, |children|)];
      Took(Action.Begin(env));
    }

    /** The k-th turn of the loop, the handlers' steps before it included. */
    method Turn(key: string, env: Envelope, meanwhile: seq<seq<Action>>, k: nat, r: BroadcastResult, ghost s0: State,
                ghost todo: set<string>)
      returns (r': BroadcastResult)
      requires Valid() && HandlersOnly(meanwhile) && Ranging(s0, View(), env, todo, r) && key in todo
      requires GrownOutside(s0.sessions, sessions, Flat(meanwhile), env, |s0.log|)
      modifies this`sessions, this`sentCount, this`droppedCount, this`cast, this`trace
      ensures Valid() && Ranging(s0, View(), env, todo - {key}, r')
      ensures GrownOutside(s0.sessions, sessions, Flat(meanwhile), env, |s0.log|)
    {
      ghost var before := sessions;
      Handlers(if k < |meanwhile| then meanwhile[k] else []);
      r' := Offer(key, env, r, s0, todo);
      TurnIsLocal(s0.sessions, before, sessions, meanwhile, k, env, |s0.log|);
    }

    method Finish(r: BroadcastResult, env: Envelope, ghost s0: State) returns (failed: bool)
      requires Valid() && Ranging(s0, View(), env, {}, r)
      modifies this`cast, this`trace
      ensures Valid() && cast.None?
      ensures r.delivered + |r.dropped| == |children| && Distinct(r.dropped)
      ensures forall key :: key in r.dropped ==> key in FullKeys(s0)
      ensures forall key :: key in children && children[key] < |sessions|
                ==> (key in r.dropped <==> |s0.log| !in sessions[children[key]].accepted)
      ensures failed <==> r.dropped != []
    {
      BroadcastReport(trace);
      failed := r.dropped != [];
      cast := None;
      Took(End);
    }

    /** Ranges over the children in any order; the k-th time round, the handlers
        first take the steps of meanwhile[k]. */
    method RangeOver(env: Envelope, meanwhile: seq<seq<Action>>, ghost s0: State) returns (r: BroadcastResult)
      requires Valid() && HandlersOnly(meanwhile)
      requires Ranging(s0, View(), env, children.Keys, BroadcastResult(0, [])) && s0.sessions == sessions
      modifies this`sessions, this`sentCount, this`droppedCount, this`cast, this`trace
      ensures Valid() && Ranging(s0, View(), env, {}, r)
      ensures GrownOutside(s0.sessions, sessions, Flat(meanwhile), env, |s0.log|)
    {
      r := BroadcastResult(0, []);
      var todo, k := children.Keys, 0;
      while todo != {}
        invariant Valid() && Ranging(s0, View(), env, todo, r)
        invariant GrownOutside(s0.sessions, sessions, Flat(meanwhile), env, |s0.log|)
        decreases |todo|
      {
        var id :| id in todo;
        r := Turn(id, env, meanwhile, k, r, s0, todo);
        todo, k := todo - {id}, k + 1;
      }
    }

    method BroadcastDownstream(env: Envelope, meanwhile: seq<seq<Action>>) returns (r: BroadcastResult, failed: bool)
      requires Valid() && cast.None? && HandlersOnly(meanwhile)
      modifies this`sessions, this`log, this`sentCount, this`droppedCount, this`cast, this`trace
      ensures Valid() && cast.None? && log == old(log) + [Entry(env, |children|)]
      ensures r.delivered + |r.dropped| == |children| && Distinct(r.dropped)
      ensures failed <==> r.dropped != []
      ensures forall key :: key in r.dropped ==> HoldsSixteen(old(View()), key)
      ensures forall key :: HoldsSixteen(old(View()), key) && Spares(Flat(meanwhile), children[key])
                ==> key in r.dropped
      ensures forall key :: key in children && children[key] < |sessions|
                ==> (key in r.dropped <==> |old(log)| !in sessions[children[key]].accepted)
      ensures GrownOutside(old(sessions), sessions, Flat(meanwhile), env, |old(log)|)
      ensures ChannelsGrew(old(sessions), sessions, Flat(meanwhile), env, children, r.dropped)
      ensures sentCount == old(sentCount) + r.delivered && droppedCount == old(droppedCount) + |r.dropped|
    {
      ghost var s0 := View();
      NotYetAccepted(trace);
      FullMeansSixteen(trace);
      Begin(env);
      r := RangeOver(env, meanwhile, s0);
      failed := Finish(r, env, s0);
      QueuesAreBounded(trace);
      GrownIsDelivered(s0, View(), Flat(meanwhile), env, r.dropped);
    }

    // ---------------------------------------------------------------------------
    // Approval
    // ---------------------------------------------------------------------------

    method RecordRejection(nodeId: string, now: int, reason: Refusal)
      requires Valid()
      modifies this`pending, this`decisions
      ensures Valid() && decisions == old(decisions) + [Rejected(nodeId, now, reason)]
    {
      if nodeId != "" && nodeId !in pending {
        pending := pending[nodeId := PendingChild(nodeId, now, reason)];
      }
      assert pending == Record(old(pending), nodeId, now, reason);
      OneMoreDecision(decisions, Rejected(nodeId, now, reason));
      decisions := decisions + [Rejected(nodeId, now, reason)];
    }

    method ClearRejection(nodeId: string)
      requires Valid()
      modifies this`pending, this`decisions
      ensures Valid() && decisions == old(decisions) + [Approved(nodeId)]
    {
      pending := pending - {nodeId};
      OneMoreDecision(decisions, Approved(nodeId));
      decisions := decisions + [Approved(nodeId)];
    }

    /** authorize, for what the hook answers; every outcome is one decision, so an
        id is pending afterwards as PendingIsRight says. */
    method Authorize(nodeId: string, answer: Option<Refusal>, now: int) returns (err: Option<Refusal>)
      requires Valid()
      modifies this`pending, this`decisions
      ensures Valid()
      ensures authorizeChild.Some? ==> err == answer
      ensures authorizeChild.None? ==> err.None?
      ensures decisions == old(decisions) + [if err.Some? then Rejected(nodeId, now, err.value) else Approved(nodeId)]
      ensures nodeId in pending <==> nodeId != "" && err.Some?
      ensures forall id :: PendingIsRight(decisions, id)
    {
      err := if authorizeChild.None? then None else answer;
      if err.Some? {
        RecordRejection(nodeId, now, err.value);
      } else {
        ClearRejection(nodeId);
      }
      OneMoreDecision(old(decisions), if err.Some? then Rejected(nodeId, now, err.value) else Approved(nodeId));
      forall id {
        PendingMeans(decisions, id);
      }
    }

    /** The pending children in some order, each once. */
    method PendingChildren() returns (out: seq<PendingChild>)
      requires Valid()
      ensures |out| == |pending| && (set p | p in out) == pending.Values
    {
      out := [];
      var todo := pending.Keys;
      while todo != {}
        invariant todo <= pending.Keys && |out| + |todo| == |pending|
        invariant (set p | p in out) == set id | id in pending.Keys - todo :: pending[id]
        decreases |todo|
      {
        var id :| id in todo;
        ghost var shown := set p | p in out;
        todo, out := todo - {id}, out + [pending[id]];
        assert (set p | p in out) == shown + {pending[id]};
        assert pending.Keys - todo == (pending.Keys - (todo + {id})) + {id};
      }
      assert (set p | p in out) == pending.Values;
    }

    // ---------------------------------------------------------------------------
    // The RPCs
    // ---------------------------------------------------------------------------

    /** What another goroutine does with the server meanwhile. */
    method Elsewhere(o: Other)
      requires Valid() && cast.None? && WellFormed(o)
      modifies this
      ensures Valid() && cast.None? && unchanged(`pending, `decisions, `authorizeChild)
      ensures |old(sessions)| <= |sessions|
      ensures forall i: nat {:trigger Leaves(o, i)} ::
                i < |old(sessions)| && Leaves(o, i) ==> SameHandler(old(sessions)[i], sessions[i])
      ensures Did(old(View()), o, View())
    {
      match o
      case Registers(claimed) => var key, ch := RegisterChild(claimed);
      case Unregisters(i) =>
        if i < |sessions| && sessions[i].phase.Leaving? {
          UnregisterChild(i);
        }
      case Targets(key, env) => var r := SendToChild(key, env);
      case Broadcasts(env, meanwhile) => var r, failed := BroadcastDownstream(env, meanwhile);
      case Handles(a) => LocklessIsLocal(View(), a, [a]); HandlerStep(a);
    }

    method AllElsewhere(others: seq<Other>, ghost i: nat)
      requires Valid() && cast.None? && i < |sessions| && AllLeave(others, i)
      modifies this
      ensures Valid() && cast.None? && unchanged(`pending, `decisions, `authorizeChild)
      ensures i < |sessions| && SameHandler(old(sessions[i]), sessions[i])
      ensures others == [] ==> sessions == old(sessions)
      ensures old(log) <= log && Logs(log, |old(log)|, others)
    {
      for k := 0 to |others|
        invariant old(log) <= log && Logs(log, |old(log)|, others[..k])
        invariant Valid() && cast.None? && unchanged(`pending, `decisions, `authorizeChild)
        invariant i < |sessions| && SameHandler(old(sessions[i]), sessions[i])
        invariant k == 0 ==> sessions == old(sessions)
      {
        ghost var s := View();
        Elsewhere(others[k]);
        OneMoreLogged(s, others[k], View(), |old(log)|, others[..k]);
        assert others[..k + 1] == others[..k] + [others[k]];
      }
      assert others[..|others|] == others;
    }

    /** One turn of the handler's loop. */
    method ServeOnce(i: nat, nodeId: string, r: Round, sofar: seq<Envelope>) returns (sent: seq<Envelope>)
      requires Valid() && cast.None? && i < |sessions| && AllLeave(r.others, i)
      requires sessions[i].phase.Serving? && Handling(sessions[i], nodeId, sofar)
      modifies this
      ensures Valid() && cast.None? && unchanged(`pending, `decisions, `authorizeChild)
      ensures i < |sessions| && Handling(sessions[i], nodeId, sent) && (sessions[i].phase.Serving? ==> !r.done)
      ensures r.done ==> sent == sofar
      ensures !r.done && old(sessions[i].queue) != [] ==>
        && sent == (if r.sendOk then sofar + [old(sessions[i].queue[0])] else sofar)
        && (r.sendOk <==> sessions[i].phase.Serving?)
      ensures !r.done && r.sendOk ==> sessions[i].phase.Serving?
      ensures old(log) <= log && Logs(log, |old(log)|, r.others)
      ensures !r.done && r.others == [] ==> sessions[i].queue == Rest(old(sessions[i].queue))
      ensures !r.done && r.others == [] && old(sessions[i].queue) == [] ==> sent == sofar && sessions[i].phase.Serving?
    {
      AllElsewhere(r.others, i);
      sent := sofar;
      if r.done {
        Leave(i);
      } else {
        var got := Receive(i);
        if got.Some? {
          Answer(i, r.sendOk);
          sent := if r.sendOk then sent + [got.value] else sent;
        }
      }
    }

    /** The handler's loop, until it has a reason to leave. */
    method Serve(i: nat, nodeId: string, rounds: seq<Round>) returns (sent: seq<Envelope>)
      requires Valid() && cast.None? && i < |sessions| && RoundsLeave(rounds, i)
      requires sessions[i].phase.Serving? && Handling(sessions[i], nodeId, [])
      modifies this
      ensures Valid() && cast.None? && unchanged(`pending, `decisions, `authorizeChild)
      ensures i < |sessions| && sessions[i].phase.Leaving? && Handling(sessions[i], nodeId, sent)
      ensures Drains(rounds) ==> sessions[i].hand.None? && sessions[i].queue == []
      ensures Drains(rounds) ==> forall k :: 0 <= k < |rounds| ==> Logs(log, |old(log)|, rounds[k].others)
    {
      sent := [];
      var k := 0;
      Mailbox(trace, i);
      while k < |rounds| && sessions[i].phase.Serving?
        invariant Valid() && cast.None? && unchanged(`pending, `decisions, `authorizeChild)
        invariant i < |sessions| && Handling(sessions[i], nodeId, sent) && k <= |rounds|
        invariant |sessions[i].queue| <= 16 && old(log) <= log
        invariant forall j :: 0 <= j < k ==> Logs(log, |old(log)|, rounds[j].others)
        invariant Drains(rounds) ==> sessions[i].phase.Serving?
        invariant Drains(rounds) && |rounds| - 16 <= k ==> |sessions[i].queue| <= |rounds| - k
        decreases |rounds| - k
      {
        ghost var before := log;
        sent := ServeOnce(i, nodeId, rounds[k], sent);
        Mailbox(trace, i);
        RoundIsLogged(rounds, k, |old(log)|, before, log);
        k := k + 1;
      }
      if sessions[i].phase.Serving? {
        Leave(i);
      }
    }

    /** registerChild, the loop, and the deferred unregisterChild. */
    method Attend(nodeId: string, rounds: seq<Round>) returns (sent: seq<Envelope>)
      requires Valid() && cast.None? && RoundsLeave(rounds, |sessions|)
      modifies this
      ensures Valid() && cast.None? && unchanged(`pending, `decisions, `authorizeChild)
      ensures |old(sessions)| < |sessions|
      ensures var x := sessions[|old(sessions)|];
              x.claimed == nodeId && x.phase.Gone? && x.key !in children && x.sent == sent
      ensures Drains(rounds) ==> sessions[|old(sessions)|].discarded == []
      ensures Drains(rounds) ==> forall k :: 0 <= k < |rounds| ==> Logs(log, |old(log)|, rounds[k].others)
    {
      var key, i := RegisterChild(nodeId);
      sent := Serve(i, nodeId, rounds);
      UnregisterChild(i);
    }

    /** The Downstream RPC. A refused call leaves the registry as it was; an
        approved one registers, and when it returns, however it came to, its
        handler has unregistered and all that entered its channel was either sent
        on the stream, in order, or is discarded. */
    method Downstream(nodeId: string, answer: Option<Refusal>, now: int, rounds: seq<Round>)
      returns (err: Option<Refusal>, sent: seq<Envelope>)
      requires Valid() && cast.None? && RoundsLeave(rounds, |sessions|)
      modifies this
      ensures Valid() && cast.None? && unchanged(`authorizeChild)
      ensures authorizeChild.Some? ==> err == answer
      ensures authorizeChild.None? ==> err.None?
      ensures decisions == old(decisions) + [if err.Some? then Rejected(nodeId, now, err.value) else Approved(nodeId)]
      ensures err.Some? ==> View() == old(View()) && sent == []
      ensures err.None? ==> |old(sessions)| < |sessions|
      ensures err.None? ==>
        var x := sessions[|old(sessions)|];
        && x.claimed == nodeId && x.phase.Gone? && x.key !in children && x.sent == sent
        && Increasing(x.accepted, |log|) && Picked(log, x.accepted) == sent + x.discarded
        && (Drains(rounds) ==> x.discarded == [])
      ensures err.None? && Drains(rounds) ==>
        forall k :: 0 <= k < |rounds| ==> Logs(log, |old(log)|, rounds[k].others)
    {
      sent := [];
      err := Authorize(nodeId, answer, now);
      if err.Some? {
        return;
      }
      sent := Attend(nodeId, rounds);
      Mailbox(trace, |old(sessions)|);
      assert sent + [] + [] == sent;
    }

    /** The Upstream RPC: each envelope received goes to the handler once, in order,
        until the stream ends or the handler returns an error. */
    method Upstream(nodeId: string, answer: Option<Refusal>, now: int, received: seq<Envelope>, handlerFails: seq<bool>)
      returns (err: Option<Refusal>, handled: seq<Envelope>)
      requires Valid() && |handlerFails| == |received|
      modifies this`pending, this`decisions
      ensures Valid()
      ensures authorizeChild.Some? ==> err == answer
      ensures authorizeChild.None? ==> err.None?
      ensures decisions == old(decisions) + [if err.Some? then Rejected(nodeId, now, err.value) else Approved(nodeId)]
      ensures err.Some? ==> handled == []
      ensures handled <= received
      ensures forall k :: 0 <= k < |handled| - 1 ==> !handlerFails[k]
      ensures err.None? && handled != received ==> handled != [] && handlerFails[|handled| - 1]
    {
      handled := [];
      err := Authorize(nodeId, answer, now);
      if err.Some? {
        return;
      }
      for k := 0 to |received|
        invariant Valid() && decisions == old(decisions) + [Approved(nodeId)]
        invariant handled == received[..k] && forall j :: 0 <= j < k ==> !handlerFails[j]
      {
        handled := handled + [received[k]];
        if handlerFails[k] {
          return;
        }
      }
    }
  }
}
