/** The server's registry of children and their mailboxes, as a state machine over
    the callers of BroadcastDownstream and SendToChild and the Downstream handlers.

    A step is one region under mu, except that a broadcast, which holds mu while
    it ranges over the children, is one step a child: the handlers pop their
    channels without mu meanwhile. An action whose guard fails changes nothing. */
module Registry {
  import opened Wrappers
  import opened Channels
  import opened Naming
  import opened PendingQueue

  // A Downstream handler is in its select loop, has left it, or has unregistered.
  datatype Phase = Serving | Leaving | Gone

  // One run of the Downstream RPC with its channel; sessions are numbered in the
  // order they register. sent, discarded and accepted are history: what went out
  // on the stream, what was left when the handler unregistered, and the log
  // positions of the envelopes that entered the channel.
  datatype Session = Session(
    claimed: string,
    key: string,
    phase: Phase,
    queue: seq<Envelope>,
    hand: Option<Envelope>,
    sent: seq<Envelope>,
    discarded: seq<Envelope>,
    accepted: seq<nat>)

  // An operation that took mu to send: its envelope, and to how many children.
  datatype Entry = Entry(env: Envelope, offers: nat)

  // A BroadcastDownstream in progress: its log position, the children not yet
  // ranged over, and its result so far. keys, full and popped are history: the
  // keys at entry, those whose channel was full then, and those popped since.
  datatype Cast = Cast(
    pos: nat,
    todo: set<string>,
    delivered: nat,
    dropped: seq<string>,
    keys: set<string>,
    full: set<string>,
    popped: set<string>)

  // sentCount and droppedCount are the downstream EnvelopesSent and
  // EnvelopesDropped counters; log is history.
  datatype State = State(
    children: map<string, nat>,
    anonSeq: nat,
    sessions: seq<Session>,
    cast: Option<Cast>,
    log: seq<Entry>,
    sentCount: nat,
    droppedCount: nat)

  const INITIAL := State(map[], 0, [], None, [], 0, 0)

  datatype Action =
    | Register(claimed: string)
    | Unregister(i: nat)
    | Begin(env: Envelope)
    | Offer(key: string)
    | End
    | SendTo(key: string, env: Envelope)
    | Pop(i: nat)
    | SendOk(i: nat)
    | SendErr(i: nat)
    | CtxDone(i: nat)

  /** The key a registration is given, and the sequence number after it. */
  function KeyFor(s: State, claimed: string): (string, nat) {
    if claimed == "" then (AnonKey(s.anonSeq + 1), s.anonSeq + 1)
    else if claimed in s.children then (DupKey(claimed, s.anonSeq + 1), s.anonSeq + 1)
    else (claimed, s.anonSeq)
  }

  function DoRegister(s: State, claimed: string): State {
    var (key, n) := KeyFor(s, claimed);
    s.(children := s.children[key := |s.sessions|], anonSeq := n,
       sessions := s.sessions + [Session(claimed, key, Serving, [], None, [], [], [])])
  }

  function HandSeq(hand: Option<Envelope>): seq<Envelope> {
    if hand.Some? then [hand.value] else []
  }

  function SetSession(s: State, i: nat, x: Session): State
    requires i < |s.sessions|
  {
    s.(sessions := s.sessions[i := x])
  }

  /** `delete(s.children, key)`, by the handler of session i: whoever is there. */
  function DoUnregister(s: State, i: nat): State
    requires i < |s.sessions|
  {
    var x := s.sessions[i];
    SetSession(s, i, x.(phase := Gone, hand := None, queue := [], discarded := HandSeq(x.hand) + x.queue))
      .(children := s.children - {x.key})
  }

  predicate HasRoom(s: State, key: string) {
    key in s.children && s.children[key] < |s.sessions| && |s.sessions[s.children[key]].queue| < CAPACITY
  }

  /** The select of a send: into the channel if there is room, else dropped. */
  function Push(s: State, key: string, env: Envelope, pos: nat): State {
    if HasRoom(s, key) then
      var x := s.sessions[s.children[key]];
      SetSession(s, s.children[key], x.(queue := x.queue + [env], accepted := x.accepted + [pos]))
        .(sentCount := s.sentCount + 1)
    else
      s.(droppedCount := s.droppedCount + 1)
  }

  function FullKeys(s: State): set<string> {
    set key | key in s.children && !HasRoom(s, key)
  }

  function DoBegin(s: State, env: Envelope): State {
    s.(log := s.log + [Entry(env, |s.children|)],
       cast := Some(Cast(|s.log|, s.children.Keys, 0, [], s.children.Keys, FullKeys(s), {})))
  }

  function DoOffer(s: State, key: string): State
    requires s.cast.Some? && s.cast.value.pos < |s.log|
  {
    var c := s.cast.value;
    var room := HasRoom(s, key);
    Push(s, key, s.log[c.pos].env, c.pos)
      .(cast := Some(c.(todo := c.todo - {key},
                        delivered := if room then c.delivered + 1 else c.delivered,
                        dropped := if room then c.dropped else c.dropped + [key])))
  }

  function DoSendTo(s: State, key: string, env: Envelope): State {
    if key !in s.children then s
    else Push(s.(log := s.log + [Entry(env, 1)]), key, env, |s.log|)
  }

  function DoPop(s: State, i: nat): State
    requires i < |s.sessions| && s.sessions[i].queue != []
  {
    var x := s.sessions[i];
    var s1 := SetSession(s, i, x.(hand := Some(x.queue[0]), queue := x.queue[1..]));
    if s.cast.None? then s1
    else s1.(cast := Some(s.cast.value.(popped := s.cast.value.popped + {x.key})))
  }

  function Next(s: State, a: Action): State {
    match a
    case Register(claimed) =>
      if s.cast.Some? then s else DoRegister(s, claimed)
    case Unregister(i) =>
      if s.cast.Some? || i >= |s.sessions| || !s.sessions[i].phase.Leaving? then s else DoUnregister(s, i)
    case Begin(env) =>
      if s.cast.Some? then s else DoBegin(s, env)
    case Offer(key) =>
      if s.cast.None? || key !in s.cast.value.todo || s.cast.value.pos >= |s.log| then s else DoOffer(s, key)
    case End =>
      if s.cast.None? || s.cast.value.todo != {} then s else s.(cast := None)
    case SendTo(key, env) =>
      if s.cast.Some? then s else DoSendTo(s, key, env)
    case Pop(i) =>
      if i >= |s.sessions| || !s.sessions[i].phase.Serving? then s
      else if s.sessions[i].hand.Some? || s.sessions[i].queue == [] then s
      else DoPop(s, i)
    case SendOk(i) =>
      if i >= |s.sessions| || !s.sessions[i].phase.Serving? || s.sessions[i].hand.None? then s else
      var x := s.sessions[i];
      SetSession(s, i, x.(hand := None, sent := x.sent + [x.hand.value]))
    case SendErr(i) =>
      if i >= |s.sessions| || !s.sessions[i].phase.Serving? || s.sessions[i].hand.None? then s
      else SetSession(s, i, s.sessions[i].(phase := Leaving))
    case CtxDone(i) =>
      if i >= |s.sessions| || !s.sessions[i].phase.Serving? || s.sessions[i].hand.Some? then s
      else SetSession(s, i, s.sessions[i].(phase := Leaving))
  }

  function Exec(run: seq<Action>): State {
    if run == [] then INITIAL else Next(Exec(run[..|run| - 1]), run[|run| - 1])
  }

  lemma OneMore(run: seq<Action>, a: Action)
    ensures Exec(run + [a]) == Next(Exec(run), a)
  {
    assert (run + [a])[..|run|] == run;
  }
}
