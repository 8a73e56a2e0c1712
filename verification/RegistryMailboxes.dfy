/** The mailboxes of the registry, and the order in which they are filled. */
module RegistryMailboxes {
  import opened Wrappers
  import opened Channels
  import opened PendingQueue
  import opened Registry

  ghost predicate Increasing(xs: seq<nat>, bound: nat) {
    && (forall a :: 0 <= a < |xs| ==> xs[a] < bound)
    && (forall a, b :: 0 <= a < b < |xs| ==> xs[a] < xs[b])
  }

  /** The envelopes at the given log positions. */
  ghost function Picked(log: seq<Entry>, positions: seq<nat>): (r: seq<Envelope>)
    requires Increasing(positions, |log|)
    ensures |r| == |positions|
  {
    seq(|positions|, a requires 0 <= a < |positions| => log[positions[a]].env)
  }

  /** What entered the channel is what went out, then what is in the handler's
      hand, then what the channel holds, or else what was discarded. */
  ghost predicate MailboxOk(log: seq<Entry>, x: Session) {
    && Increasing(x.accepted, |log|)
    && Picked(log, x.accepted) == x.sent + HandSeq(x.hand) + x.queue + x.discarded
    && |x.queue| <= CAPACITY
    && (x.phase == Gone ==> x.hand == None && x.queue == [])
    && (x.phase != Gone ==> x.discarded == [])
  }

  /** A key leads to the session it was given to, which has not unregistered. */
  ghost predicate ChildOk(s: State, key: string)
    requires key in s.children
  {
    var i := s.children[key];
    i < |s.sessions| && s.sessions[i].key == key && !s.sessions[i].phase.Gone?
  }

  // A broadcast in progress has not yet got to the child at key.
  ghost predicate Ahead(s: State, key: string)
    requires s.cast.Some?
  {
    && key in s.children && s.children[key] < |s.sessions|
    && s.cast.value.pos !in s.sessions[s.children[key]].accepted
  }

  ghost predicate Inv(s: State) {
    && (forall i {:trigger s.sessions[i]} :: 0 <= i < |s.sessions| ==> MailboxOk(s.log, s.sessions[i]))
    && (forall key {:trigger ChildOk(s, key)} :: key in s.children ==> ChildOk(s, key))
    && (s.cast.Some? ==> s.cast.value.pos == |s.log| - 1)
    && (s.cast.Some? ==> forall key {:trigger Ahead(s, key)} :: key in s.cast.value.todo ==> Ahead(s, key))
  }

  lemma PickedGrows(log: seq<Entry>, entry: Entry, x: Session)
    requires MailboxOk(log, x)
    ensures MailboxOk(log + [entry], x)
  {
    assert Picked(log + [entry], x.accepted) == Picked(log, x.accepted);
  }

  lemma AcceptKeepsMailbox(log: seq<Entry>, x: Session, pos: nat)
    requires MailboxOk(log, x) && x.phase != Gone && |x.queue| < CAPACITY
    requires pos == |log| - 1 && pos !in x.accepted
    ensures MailboxOk(log, x.(queue := x.queue + [log[pos].env], accepted := x.accepted + [pos]))
  {
    var x' := x.(queue := x.queue + [log[pos].env], accepted := x.accepted + [pos]);
    forall a | 0 <= a < |x.accepted|
      ensures x.accepted[a] < pos
    {
      assert x.accepted[a] in x.accepted;
    }
    assert Picked(log, x'.accepted) == Picked(log, x.accepted) + [log[pos].env];
  }

  // Session i changes, the log and the registry do not.
  lemma SessionKeepsInv(s: State, i: nat, x: Session)
    requires Inv(s) && i < |s.sessions| && MailboxOk(s.log, x)
    requires x.key == s.sessions[i].key && x.accepted == s.sessions[i].accepted && x.phase != Gone
    ensures Inv(SetSession(s, i, x))
  {
    var s' := SetSession(s, i, x);
    forall key | key in s'.children
      ensures ChildOk(s', key)
    {
      assert ChildOk(s, key);
    }
    if s.cast.Some? {
      forall key | key in s.cast.value.todo
        ensures Ahead(s', key)
      {
        assert Ahead(s, key);
      }
    }
  }

  lemma RegisterKeepsInv(s: State, claimed: string)
    requires Inv(s) && s.cast.None?
    ensures Inv(DoRegister(s, claimed))
  {
    var s' := DoRegister(s, claimed);
    assert Picked(s.log, []) == [];
    forall key | key in s'.children
      ensures ChildOk(s', key)
    {
      assert key in s.children ==> ChildOk(s, key);
    }
  }

  lemma UnregisterKeepsInv(s: State, i: nat)
    requires Inv(s) && s.cast.None? && i < |s.sessions| && s.sessions[i].phase.Leaving?
    ensures Inv(DoUnregister(s, i))
  {
    var s', x := DoUnregister(s, i), s.sessions[i];
    assert MailboxOk(s.log, x);
    assert x.sent + HandSeq(x.hand) + x.queue + x.discarded == x.sent + (HandSeq(x.hand) + x.queue);
    assert x.sent + [] + [] + (HandSeq(x.hand) + x.queue) == x.sent + (HandSeq(x.hand) + x.queue);
    assert MailboxOk(s.log, s'.sessions[i]);
    forall key | key in s'.children
      ensures ChildOk(s', key)
    {
      assert ChildOk(s, key);
    }
  }

  // The log gets longer.
  lemma LogKeepsInv(s: State, entry: Entry)
    requires Inv(s) && s.cast.None?
    ensures Inv(s.(log := s.log + [entry]))
    ensures forall i :: 0 <= i < |s.sessions| ==> |s.log| !in s.sessions[i].accepted
  {
    var s' := s.(log := s.log + [entry]);
    forall i | 0 <= i < |s.sessions|
      ensures MailboxOk(s'.log, s.sessions[i]) && |s.log| !in s.sessions[i].accepted
    {
      assert MailboxOk(s.log, s.sessions[i]);
      PickedGrows(s.log, entry, s.sessions[i]);
    }
    forall key | key in s'.children
      ensures ChildOk(s', key)
    {
      assert ChildOk(s, key);
    }
  }

  // An offer of the last logged envelope to one child that has not had it.
  lemma PushKeepsInv(s: State, key: string, pos: nat)
    requires Inv(s) && pos == |s.log| - 1 && key in s.children && ChildOk(s, key)
    requires pos !in s.sessions[s.children[key]].accepted
    requires s.cast.Some? ==> key !in s.cast.value.todo
    ensures Inv(Push(s, key, s.log[pos].env, pos))
  {
    var s', i := Push(s, key, s.log[pos].env, pos), s.children[key];
    if HasRoom(s, key) {
      assert MailboxOk(s.log, s.sessions[i]);
      AcceptKeepsMailbox(s.log, s.sessions[i], pos);
    }
    forall k | k in s'.children
      ensures ChildOk(s', k)
    {
      assert ChildOk(s, k);
    }
    if s.cast.Some? {
      forall k | k in s.cast.value.todo
        ensures Ahead(s', k)
      {
        assert Ahead(s, k) && ChildOk(s, k);
      }
    }
  }

  lemma OfferKeepsInv(s: State, key: string)
    requires Inv(s) && s.cast.Some? && key in s.cast.value.todo
    ensures Inv(DoOffer(s, key))
  {
    var c := s.cast.value;
    var s1 := s.(cast := DoOffer(s, key).cast);
    assert Ahead(s, key);
    forall k | k in s1.cast.value.todo
      ensures Ahead(s1, k)
    {
      assert Ahead(s, k);
    }
    forall k | k in s.children
      ensures ChildOk(s1, k)
    {
      assert ChildOk(s, k);
    }
    PushKeepsInv(s1, key, c.pos);
    assert DoOffer(s, key) == Push(s1, key, s.log[c.pos].env, c.pos);
  }

  lemma BeginKeepsInv(s: State, env: Envelope)
    requires Inv(s) && s.cast.None?
    ensures Inv(DoBegin(s, env))
  {
    var s', s1 := DoBegin(s, env), s.(log := s.log + [Entry(env, |s.children|)]);
    LogKeepsInv(s, Entry(env, |s.children|));
    forall k | k in s'.children
      ensures ChildOk(s', k) && Ahead(s', k)
    {
      assert ChildOk(s1, k);
    }
  }

  lemma SendToKeepsInv(s: State, key: string, env: Envelope)
    requires Inv(s) && s.cast.None?
    ensures Inv(DoSendTo(s, key, env))
  {
    if key in s.children {
      var s1 := s.(log := s.log + [Entry(env, 1)]);
      LogKeepsInv(s, Entry(env, 1));
      assert ChildOk(s1, key);
      PushKeepsInv(s1, key, |s.log|);
    }
  }

  lemma PopKeepsInv(s: State, i: nat)
    requires Inv(s) && i < |s.sessions| && s.sessions[i].phase.Serving?
    requires s.sessions[i].hand.None? && s.sessions[i].queue != []
    ensures Inv(DoPop(s, i))
  {
    var x := s.sessions[i];
    assert MailboxOk(s.log, x);
    assert x.queue == [x.queue[0]] + x.queue[1..];
    assert x.sent + [] + x.queue + x.discarded == x.sent + [x.queue[0]] + x.queue[1..] + x.discarded;
    SessionKeepsInv(s, i, x.(hand := Some(x.queue[0]), queue := x.queue[1..]));
    var s1, s' := SetSession(s, i, x.(hand := Some(x.queue[0]), queue := x.queue[1..])), DoPop(s, i);
    forall k | k in s'.children
      ensures ChildOk(s', k)
    {
      assert ChildOk(s1, k);
    }
    if s.cast.Some? {
      forall k | k in s'.cast.value.todo
        ensures Ahead(s', k)
      {
        assert Ahead(s1, k);
      }
    }
  }

  // The envelope in hand has gone out.
  lemma SendOkKeepsMailbox(log: seq<Entry>, x: Session)
    requires MailboxOk(log, x) && x.phase.Serving? && x.hand.Some?
    ensures MailboxOk(log, x.(hand := None, sent := x.sent + [x.hand.value]))
  {
    var now := x.sent + [x.hand.value];
    assert now + x.queue + x.discarded == now + [] + x.queue + x.discarded;
  }

  lemma HandlerKeepsInv(s: State, a: Action)
    requires Inv(s) && (a.SendOk? || a.SendErr? || a.CtxDone?)
    ensures Inv(Next(s, a))
  {
    if Next(s, a) != s {
      var x := s.sessions[a.i];
      assert MailboxOk(s.log, x);
      if a.SendOk? {
        SendOkKeepsMailbox(s.log, x);
        SessionKeepsInv(s, a.i, x.(hand := None, sent := x.sent + [x.hand.value]));
      } else {
        SessionKeepsInv(s, a.i, x.(phase := Leaving));
      }
    }
  }

  lemma EndKeepsInv(s: State)
    requires Inv(s)
    ensures Inv(s.(cast := None))
  {
    forall k | k in s.children
      ensures ChildOk(s.(cast := None), k)
    {
      assert ChildOk(s, k);
    }
  }

  lemma NextKeepsInv(s: State, a: Action)
    requires Inv(s)
    ensures Inv(Next(s, a))
  {
    if Next(s, a) != s {
      match a
      case Register(claimed) => RegisterKeepsInv(s, claimed);
      case Unregister(i) => UnregisterKeepsInv(s, i);
      case Begin(env) => BeginKeepsInv(s, env);
      case Offer(key) => OfferKeepsInv(s, key);
      case End => EndKeepsInv(s);
      case SendTo(key, env) => SendToKeepsInv(s, key, env);
      case Pop(i) => PopKeepsInv(s, i);
      case SendOk(_) => HandlerKeepsInv(s, a);
      case SendErr(_) => HandlerKeepsInv(s, a);
      case CtxDone(_) => HandlerKeepsInv(s, a);
    }
  }

  lemma {:induction false} RunKeepsInv(run: seq<Action>)
    ensures Inv(Exec(run))
  {
    if run != [] {
      RunKeepsInv(run[..|run| - 1]);
      NextKeepsInv(Exec(run[..|run| - 1]), run[|run| - 1]);
    }
  }

  /** In every interleaving of broadcasts, targeted sends and pops, what entered a
      session's channel is, in order, what its handler sent, then what it holds,
      then what the channel holds, which is never more than 16 envelopes. */
  lemma Mailbox(run: seq<Action>, i: nat)
    requires i < |Exec(run).sessions|
    ensures var s, x := Exec(run), Exec(run).sessions[i];
            && Increasing(x.accepted, |s.log|)
            && Picked(s.log, x.accepted) == x.sent + HandSeq(x.hand) + x.queue + x.discarded
            && (if x.phase == Gone then x.hand == None && x.queue == [] else x.discarded == [])
            && |x.queue| <= 16
  {
    RunKeepsInv(run);
    assert MailboxOk(Exec(run).log, Exec(run).sessions[i]);
  }

  lemma IncreasingOrders(xs: seq<nat>, bound: nat, a: nat, b: nat)
    requires Increasing(xs, bound) && a < |xs| && b < |xs|
    ensures xs[a] < xs[b] <==> a < b
  {
    if b < a {
      assert xs[b] < xs[a];
    }
  }

  /** Any two children that both accepted two operations accepted them in the same
      order, the order in which the operations took the lock. */
  lemma CommonOrder(run: seq<Action>, i: nat, j: nat, a: nat, b: nat, c: nat, d: nat)
    requires i < |Exec(run).sessions| && j < |Exec(run).sessions|
    requires var x, y := Exec(run).sessions[i].accepted, Exec(run).sessions[j].accepted;
             a < |x| && b < |x| && c < |y| && d < |y| && x[a] == y[c] && x[b] == y[d]
    ensures a < b <==> c < d
  {
    var s := Exec(run);
    RunKeepsInv(run);
    assert MailboxOk(s.log, s.sessions[i]) && MailboxOk(s.log, s.sessions[j]);
    IncreasingOrders(s.sessions[i].accepted, |s.log|, a, b);
    IncreasingOrders(s.sessions[j].accepted, |s.log|, c, d);
  }

  // ---------------------------------------------------------------------------
  // Draining
  // ---------------------------------------------------------------------------

  // A handler in its loop, from one state to another: all that was in its hand or its
  // channel has gone out.
  ghost predicate Drained(before: State, after: State, i: nat) {
    && i < |before.sessions| && i < |after.sessions|
    && var x, y := before.sessions[i], after.sessions[i];
    && y.phase.Serving? && y.hand.None? && y.queue == [] && y.sent == x.sent + HandSeq(x.hand) + x.queue
    && y.accepted == x.accepted && after.log == before.log && after.children == before.children
  }

  // Steps a handler has left to empty its hand and its channel.
  function Left(x: Session): nat {
    2 * |x.queue| + |HandSeq(x.hand)|
  }

  // One envelope is a step nearer to the stream.
  ghost predicate Nearer(before: State, after: State, i: nat) {
    && |after.sessions| == |before.sessions| && after.log == before.log && after.children == before.children
    && i < |before.sessions|
    && var x, y := before.sessions[i], after.sessions[i];
    && y.phase.Serving? && y.accepted == x.accepted
    && y.sent + HandSeq(y.hand) + y.queue == x.sent + HandSeq(x.hand) + x.queue
    && Left(y) < Left(x)
  }

  lemma DrainStep(s: State, i: nat) returns (a: Action)
    requires i < |s.sessions| && s.sessions[i].phase.Serving?
    requires s.sessions[i].hand.Some? || s.sessions[i].queue != []
    ensures (a == Pop(i) || a == SendOk(i)) && Nearer(s, Next(s, a), i)
  {
    var x := s.sessions[i];
    if x.hand.Some? {
      a := SendOk(i);
      assert x.sent + [x.hand.value] + [] + x.queue == x.sent + [x.hand.value] + x.queue;
    } else {
      a := Pop(i);
      assert x.queue == [x.queue[0]] + x.queue[1..];
      assert x.sent + [x.queue[0]] + x.queue[1..] == x.sent + [] + x.queue;
    }
  }

  lemma OneStepNearer(run: seq<Action>, i: nat) returns (a: Action)
    requires i < |Exec(run).sessions| && Exec(run).sessions[i].phase.Serving? && Left(Exec(run).sessions[i]) > 0
    ensures (a == Pop(i) || a == SendOk(i)) && Nearer(Exec(run), Exec(run + [a]), i)
  {
    a := DrainStep(Exec(run), i);
    OneMore(run, a);
  }

  // These steps, all its own, take the handler of session i there.
  ghost predicate DrainsBy(run: seq<Action>, i: nat, steps: seq<Action>) {
    (forall a :: a in steps ==> a == Pop(i) || a == SendOk(i)) && Drained(Exec(run), Exec(run + steps), i)
  }

  lemma EmptyIsDrained(run: seq<Action>, i: nat)
    requires i < |Exec(run).sessions| && Exec(run).sessions[i].phase.Serving? && Left(Exec(run).sessions[i]) == 0
    ensures DrainsBy(run, i, [])
  {
    assert run + [] == run && Exec(run).sessions[i].sent + [] + [] == Exec(run).sessions[i].sent;
  }

  lemma NearerThenDrained(run: seq<Action>, i: nat, a: Action, rest: seq<Action>)
    requires a == Pop(i) || a == SendOk(i)
    requires Nearer(Exec(run), Exec(run + [a]), i) && DrainsBy(run + [a], i, rest)
    ensures DrainsBy(run, i, [a] + rest)
  {
    assert run + [a] + rest == run + ([a] + rest);
  }

  lemma {:induction false} DrainSteps(run: seq<Action>, i: nat) returns (steps: seq<Action>)
    requires i < |Exec(run).sessions| && Exec(run).sessions[i].phase.Serving?
    ensures DrainsBy(run, i, steps)
    decreases Left(Exec(run).sessions[i])
  {
    if Left(Exec(run).sessions[i]) == 0 {
      steps := [];
      EmptyIsDrained(run, i);
    } else {
      var a := OneStepNearer(run, i);
      var rest := DrainSteps(run + [a], i);
      steps := [a] + rest;
      NearerThenDrained(run, i, a, rest);
    }
  }

  /** From every reachable state in which a handler is in its loop, whoever holds the
      lock, steps of that handler alone can send all that is in its hand and its
      channel, in order. */
  lemma EveryHandlerCanDrain(run: seq<Action>, i: nat)
    requires i < |Exec(run).sessions| && Exec(run).sessions[i].phase.Serving?
    ensures exists steps :: (forall a :: a in steps ==> a == Pop(i) || a == SendOk(i))
                         && Drained(Exec(run), Exec(run + steps), i)
  {
    var steps := DrainSteps(run, i);
    assert DrainsBy(run, i, steps);
  }
}
