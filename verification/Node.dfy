/** node.Node as an object, on top of its server, client and pending queue. */
module FrameworkNode {
  import opened Wrappers
  import opened Naming
  import opened PendingQueue
  import opened RegistryBroadcasts
  import opened Retry
  import opened TransportServer
  import opened ClientRefinement
  import opened TransportClient
  import Registry
  import RetryLoop

  // A handler is a number: what it does is the service's business.
  type Handler = nat

  // What the network does to one SendUpstream call.
  datatype Net = Net(first: Attempt, sends: bool, second: Attempt)

  // Two readings of the clock, in nanoseconds and in seconds.
  datatype Clock = Clock(nanos: int, seconds: int)

  datatype ConfigError = NoId | NoCapability

  function NewEnvelope(nodeId: string, kind: string, payload: seq<bv8>, now: Clock): (env: Envelope) {
    Envelope(EnvelopeId(nodeId, now.nanos), kind, payload, now.seconds)
  }

  /** What the service gave, stamped, under an id that names this node and reads back
      as the clock. */
  ghost predicate Carries(env: Envelope, nodeId: string, kind: string, payload: seq<bv8>, now: Clock) {
    && env.kind == kind && env.payload == payload && env.timestamp == now.seconds
    && Names(env.id, nodeId, now.nanos)
  }

  lemma NewCarries(nodeId: string, kind: string, payload: seq<bv8>, now: Clock)
    ensures Carries(NewEnvelope(nodeId, kind, payload, now), nodeId, kind, payload, now)
  {
    EnvelopeIdReadsBack(nodeId, now.nanos);
  }

  function HandlersFor(table: map<string, seq<Handler>>, kind: string): seq<Handler> {
    if kind in table then table[kind] else []
  }

  /** Each handler has been called once with env, in order. */
  ghost predicate CallsOf(handlers: seq<Handler>, env: Envelope, calls: seq<(Handler, Envelope)>) {
    |calls| == |handlers| && forall k :: 0 <= k < |calls| ==> calls[k] == (handlers[k], env)
  }

  /** Whether SendUpstream returns nil. */
  predicate Succeeds(f: Fields, net: Net) {
    Reaches(f, net.first) && net.sends
  }

  /** What becomes of an envelope handed to ForwardUp: without a parent (None) it
      stays here; else, as SendUpstream succeeds or not, it is sent or joins the
      queue at its end, and never both. */
  predicate Forwarded(answer: Option<bool>, env: Envelope, before: seq<Envelope>, after: seq<Envelope>,
                      sent: seq<Envelope>) {
    match answer
    case None => sent == [] && after == before
    case Some(true) => sent == [env] && after == before
    case Some(false) => sent == [] && after == before + [env]
  }

  /** What a broadcast that found the server in state s has made of it, when the
      handlers took the given steps meanwhile. */
  ghost predicate Broadcasted(server: Server, s: Registry.State, env: Envelope, steps: seq<Registry.Action>,
                              r: BroadcastResult, failed: bool)
    reads server
  {
    && server.children == s.children && server.log == s.log + [Registry.Entry(env, |s.children|)]
    && r.delivered + |r.dropped| == |s.children| && Distinct(r.dropped) && (failed <==> r.dropped != [])
    && (forall key :: key in r.dropped ==> HoldsSixteen(s, key))
    && (forall key :: HoldsSixteen(s, key) && Spares(steps, s.children[key]) ==> key in r.dropped)
    && (forall key :: key in s.children && s.children[key] < |server.sessions|
          ==> (key in r.dropped <==> |s.log| !in server.sessions[s.children[key]].accepted))
    && ChannelsGrew(s.sessions, server.sessions, steps, env, s.children, r.dropped)
    && server.sentCount == s.sentCount + r.delivered && server.droppedCount == s.droppedCount + |r.dropped|
  }

  // ---------------------------------------------------------------------------
  // The answers of a client to the sends of a retry pass
  // ---------------------------------------------------------------------------

  function NetAt(nets: seq<Net>, i: nat): Net {
    if i < |nets| then nets[i] else Net(Attempt(false, false), false, Attempt(false, false))
  }

  /** The client after i sends. */
  function FieldsAfter(f: Fields, nets: seq<Net>, i: nat): Fields {
    if i == 0 then f
    else
      var net := NetAt(nets, i - 1);
      AfterSendUp(FieldsAfter(f, nets, i - 1), net.first, net.sends, net.second)
  }

  function Answers(f: Fields, nets: seq<Net>, n: nat): (r: seq<bool>)
    ensures |r| == n && forall i: nat :: i < n ==> r[i] == Succeeds(FieldsAfter(f, nets, i), NetAt(nets, i))
  {
    if n == 0 then [] else Answers(f, nets, n - 1) + [Succeeds(FieldsAfter(f, nets, n - 1), NetAt(nets, n - 1))]
  }

  // A tick of retryLoop: what was pushed since the last pass, and for each attempt
  // what the network does, what others push first, and whether the context is done
  // after it.
  datatype Tick = Tick(before: seq<Envelope>, nets: seq<Net>, others: seq<seq<Envelope>>, done: seq<bool>)

  /** The world of a pass over n envelopes by a client that starts as f. */
  function WorldOf(f: Fields, tick: Tick, n: nat): World<Envelope> {
    World(Answers(f, tick.nets, n), tick.others, tick.done)
  }

  /** The ticks with the client's answers to them: it comes to each pass as the last
      one left it. */
  function TicksAnswered(f: Fields, queue: seq<Envelope>, ticks: seq<Tick>): seq<RetryLoop.Tick>
    decreases |ticks|
  {
    if ticks == [] then []
    else
      var batch := queue + ticks[0].before;
      var w := WorldOf(f, ticks[0], |batch|);
      var m := Attempts(|batch|, w);
      [RetryLoop.Fires(ticks[0].before, w)]
      + if Stopped(m, w) then []
        else TicksAnswered(FieldsAfter(f, ticks[0].nets, m), Requeued(batch, w, m), ticks[1..])
  }

  /** A whole pass: from f and the queue before to f' and the queue after. */
  ghost predicate PassDone(f: Fields, batch: seq<Envelope>, tick: Tick, f': Fields, queue: seq<Envelope>,
                           sent: seq<Envelope>, tail: seq<Envelope>, stop: bool) {
    var w := WorldOf(f, tick, |batch|);
    var m := Attempts(|batch|, w);
    && queue == Requeued(batch, w, m) && sent == Successes(batch, w, m) && tail == batch[m..]
    && stop == Stopped(m, w) && f' == FieldsAfter(f, tick.nets, m)
  }

  /** The first m attempts of a pass in world w, by a client that was f. */
  ghost predicate MidPass(w: World<Envelope>, f: Fields, batch: seq<Envelope>, tick: Tick, f': Fields,
                          queue: seq<Envelope>, sent: seq<Envelope>, m: nat) {
    && m <= |batch| && queue == Requeued(batch, w, m) && sent == Successes(batch, w, m)
    && f' == FieldsAfter(f, tick.nets, m)
  }

  predicate DoneAfter(tick: Tick, i: nat) {
    i < |tick.done| && tick.done[i]
  }

  function OthersAt(tick: Tick, i: nat): seq<Envelope> {
    if i < |tick.others| then tick.others[i] else []
  }

  // At attempt i, world w is what the tick and a client that was f make it.
  ghost predicate Fits(w: World<Envelope>, f: Fields, tick: Tick, i: nat) {
    && w.Succeeds(i) == Succeeds(FieldsAfter(f, tick.nets, i), NetAt(tick.nets, i))
    && w.Arrivals(i) == OthersAt(tick, i) && w.Cancelled(i) == DoneAfter(tick, i)
  }

  ghost predicate AllFit(w: World<Envelope>, f: Fields, tick: Tick, n: nat) {
    forall i: nat {:trigger Fits(w, f, tick, i)} :: i < n ==> Fits(w, f, tick, i)
  }

  // Of the first m attempts none found the context done, but for the last if stop.
  ghost predicate AttemptedSoFar(w: World<Envelope>, m: nat, stop: bool) {
    stop == Stopped(m, w) && forall j: nat :: j + 1 < m ==> !w.Cancelled(j)
  }

  lemma AttemptedOneMore(w: World<Envelope>, m: nat)
    requires AttemptedSoFar(w, m, false)
    ensures AttemptedSoFar(w, m + 1, w.Cancelled(m))
  {
  }

  lemma AttemptedAll(n: nat, w: World<Envelope>, m: nat, stop: bool)
    requires AttemptedSoFar(w, m, stop) && m <= n && (m < n ==> stop)
    ensures m == Attempts(n, w) && stop == Stopped(m, w)
  {
    AttemptsAre(n, w, m);
  }

  lemma WorldFits(f: Fields, tick: Tick, n: nat)
    ensures AllFit(WorldOf(f, tick, n), f, tick, n)
  {
  }

  // The client goes from one attempt of a tick to the next as SendUpstream leaves it.
  lemma FieldsGoOn(f: Fields, nets: seq<Net>, i: nat)
    requires i < |nets|
    ensures FieldsAfter(f, nets, 0) == f
    ensures FieldsAfter(f, nets, i + 1)
         == AfterSendUp(FieldsAfter(f, nets, i), nets[i].first, nets[i].sends, nets[i].second)
  {
  }

  /** Attempt i sends envelope i iff the network lets that Send succeed and there was a
      stream for it or one could be opened. */
  ghost predicate SentAsAnswered(f: Fields, batch: seq<Envelope>, tick: Tick, sent: seq<Envelope>, i: nat)
    requires i < |batch| <= |tick.nets|
  {
    var g, net := FieldsAfter(f, tick.nets, i), tick.nets[i];
    batch[i] in sent <==> net.sends && (g.up.stream.Some? || (!g.closed && net.first.dials && net.first.opens))
  }

  lemma EachAsAnswered(f: Fields, batch: seq<Envelope>, tick: Tick, m: nat, i: nat)
    requires i < m <= |batch| <= |tick.nets| && Distinct(batch)
    ensures SentAsAnswered(f, batch, tick, Successes(batch, WorldOf(f, tick, |batch|), m), i)
  {
    EachByItsAnswer(batch, WorldOf(f, tick, |batch|), m, i);
  }

  ghost predicate AllAsAnswered(f: Fields, batch: seq<Envelope>, tick: Tick, sent: seq<Envelope>, m: nat)
    requires m <= |batch| <= |tick.nets|
  {
    forall i: nat {:trigger SentAsAnswered(f, batch, tick, sent, i)} ::
      i < m ==> SentAsAnswered(f, batch, tick, sent, i)
  }

  lemma AllSentAsAnswered(f: Fields, batch: seq<Envelope>, tick: Tick, m: nat)
    requires m <= |batch| <= |tick.nets| && Distinct(batch)
    ensures AllAsAnswered(f, batch, tick, Successes(batch, WorldOf(f, tick, |batch|), m), m)
  {
    forall i: nat | i < m
      ensures SentAsAnswered(f, batch, tick, Successes(batch, WorldOf(f, tick, |batch|), m), i)
    {
      EachAsAnswered(f, batch, tick, m, i);
    }
  }

  lemma PassIsOne(f: Fields, batch: seq<Envelope>, tick: Tick, f': Fields, queue: seq<Envelope>,
                  sent: seq<Envelope>, tail: seq<Envelope>, stop: bool) returns (m: nat, failed: seq<Envelope>)
    requires PassDone(f, batch, tick, f', queue, sent, tail, stop)
    requires |batch| <= |tick.others| && |batch| <= |tick.done|
    ensures PassShape(batch, tick.others, tick.done, m, queue, sent, failed, tail, stop)
    ensures m <= |batch| && sent == Successes(batch, WorldOf(f, tick, |batch|), m)
  {
    var w := WorldOf(f, tick, |batch|);
    m := Attempts(|batch|, w);
    failed := Failures(batch, w, m);
    PassHasShape(batch, w);
  }

  /** What a pass has made of its batch: it has the shape of a pass, and each attempt is
      answered by the network. */
  lemma PassMeans(f: Fields, batch: seq<Envelope>, tick: Tick, f': Fields, queue: seq<Envelope>,
                  sent: seq<Envelope>, tail: seq<Envelope>, stop: bool) returns (m: nat, failed: seq<Envelope>)
    requires PassDone(f, batch, tick, f', queue, sent, tail, stop)
    requires |batch| <= |tick.nets| && |batch| <= |tick.others| && |batch| <= |tick.done| && Distinct(batch)
    ensures PassShape(batch, tick.others, tick.done, m, queue, sent, failed, tail, stop)
    ensures m <= |batch| && AllAsAnswered(f, batch, tick, sent, m)
  {
    m, failed := PassIsOne(f, batch, tick, f', queue, sent, tail, stop);
    AllSentAsAnswered(f, batch, tick, m);
  }

  // The outcome of the loop's remaining ticks, after a part that sent and saw this much.
  ghost function LoopFrom(f: Fields, queue: seq<Envelope>, ticks: seq<Tick>,
                          sent: seq<Envelope>, pushed: seq<Envelope>): RetryLoop.Outcome {
    RetryLoop.Before(RetryLoop.Loop(queue, TicksAnswered(f, queue, ticks)), sent, pushed)
  }

  lemma TurnOfLoop(f: Fields, queue: seq<Envelope>, ticks: seq<Tick>, sent: seq<Envelope>, pushed: seq<Envelope>,
                   f': Fields, queue': seq<Envelope>, now: seq<Envelope>, tail: seq<Envelope>, stop: bool)
    returns (pushed': seq<Envelope>)
    requires ticks != [] && PassDone(f, queue + ticks[0].before, ticks[0], f', queue', now, tail, stop)
    ensures LoopFrom(f, queue, ticks, sent, pushed)
         == if stop then RetryLoop.Outcome(queue', sent + now, tail, pushed')
            else LoopFrom(f', queue', ticks[1..], sent + now, pushed')
  {
    var batch := queue + ticks[0].before;
    var w := WorldOf(f, ticks[0], |batch|);
    var answered := TicksAnswered(f, queue, ticks);
    pushed' := pushed + (ticks[0].before + Pushed(w, Attempts(|batch|, w)));
    RetryLoop.LoopTurn(queue, answered, sent, pushed);
    assert answered[0] == RetryLoop.Fires(ticks[0].before, w);
    if !stop {
      assert answered[1..] == TicksAnswered(f', queue', ticks[1..]);
    }
  }

  /** The retry loop over these ticks, by a client that was f on a queue that was
      queue, has come to its end. */
  ghost predicate LoopEndsAs(f: Fields, queue: seq<Envelope>, ticks: seq<Tick>, queue': seq<Envelope>,
                             sent: seq<Envelope>, abandoned: seq<Envelope>) {
    var o := RetryLoop.Loop(queue, TicksAnswered(f, queue, ticks));
    queue' == o.queue && sent == o.sent && abandoned == o.abandoned
  }

  // What a loop makes of its first tick, and leaves to the others.
  datatype FirstTurn = FirstTurn(f: Fields, queue: seq<Envelope>, sent: seq<Envelope>, tail: seq<Envelope>, stop: bool)

  lemma LoopOfNone(f: Fields, queue: seq<Envelope>, queue': seq<Envelope>, sent: seq<Envelope>,
                   abandoned: seq<Envelope>)
    requires LoopEndsAs(f, queue, [], queue', sent, abandoned)
    ensures queue' == queue && sent == [] && abandoned == []
  {
  }

  /** A loop makes a pass at its first tick over the queue and what has been pushed,
      and ends with it if the context is done; else it is a loop over the other ticks
      from where that pass has left the client and the queue. */
  lemma LoopMeans(f: Fields, queue: seq<Envelope>, ticks: seq<Tick>, queue': seq<Envelope>, sent: seq<Envelope>,
                  abandoned: seq<Envelope>) returns (x: FirstTurn, later: seq<Envelope>)
    requires ticks != [] && LoopEndsAs(f, queue, ticks, queue', sent, abandoned)
    ensures PassDone(f, queue + ticks[0].before, ticks[0], x.f, x.queue, x.sent, x.tail, x.stop)
    ensures sent == x.sent + later
    ensures if x.stop then queue' == x.queue && later == [] && abandoned == x.tail
            else LoopEndsAs(x.f, x.queue, ticks[1..], queue', later, abandoned)
  {
    var batch := queue + ticks[0].before;
    var w := WorldOf(f, ticks[0], |batch|);
    var m := Attempts(|batch|, w);
    x := FirstTurn(FieldsAfter(f, ticks[0].nets, m), Requeued(batch, w, m), Successes(batch, w, m), batch[m..],
                   Stopped(m, w));
    var answered := TicksAnswered(f, queue, ticks);
    assert answered[0] == RetryLoop.Fires(ticks[0].before, w);
    if x.stop {
      later := [];
    } else {
      assert answered[1..] == TicksAnswered(x.f, x.queue, ticks[1..]);
      later := RetryLoop.Loop(x.queue, answered[1..]).sent;
    }
  }

  // It has run k ticks, which leave the rest to do.
  ghost predicate LoopGoesOn(f0: Fields, queue0: seq<Envelope>, ticks: seq<Tick>, f: Fields, queue: seq<Envelope>,
                             k: nat, sent: seq<Envelope>, pushed: seq<Envelope>)
    requires k <= |ticks|
  {
    RetryLoop.Loop(queue0, TicksAnswered(f0, queue0, ticks)) == LoopFrom(f, queue, ticks[k..], sent, pushed)
  }

  lemma LoopBegins(f: Fields, queue: seq<Envelope>, ticks: seq<Tick>)
    ensures LoopGoesOn(f, queue, ticks, f, queue, 0, [], [])
  {
    var answered := TicksAnswered(f, queue, ticks);
    assert ticks[0..] == ticks && answered[0..] == answered;
    RetryLoop.LoopStarts(queue, answered);
  }

  lemma LoopTurns(f0: Fields, queue0: seq<Envelope>, ticks: seq<Tick>, k: nat, f: Fields, queue: seq<Envelope>,
                  sent: seq<Envelope>, pushed: seq<Envelope>,
                  f': Fields, queue': seq<Envelope>, now: seq<Envelope>, tail: seq<Envelope>, stop: bool)
    returns (pushed': seq<Envelope>)
    requires k < |ticks| && LoopGoesOn(f0, queue0, ticks, f, queue, k, sent, pushed)
    requires PassDone(f, queue + ticks[k].before, ticks[k], f', queue', now, tail, stop)
    ensures if stop then LoopEndsAs(f0, queue0, ticks, queue', sent + now, tail)
            else LoopGoesOn(f0, queue0, ticks, f', queue', k + 1, sent + now, pushed')
  {
    assert ticks[k..][0] == ticks[k] && ticks[k..][1..] == ticks[k + 1..];
    pushed' := TurnOfLoop(f, queue, ticks[k..], sent, pushed, f', queue', now, tail, stop);
  }

  lemma LoopRunsOut(f0: Fields, queue0: seq<Envelope>, ticks: seq<Tick>, f: Fields, queue: seq<Envelope>,
                    sent: seq<Envelope>, pushed: seq<Envelope>)
    requires LoopGoesOn(f0, queue0, ticks, f, queue, |ticks|, sent, pushed)
    ensures LoopEndsAs(f0, queue0, ticks, queue, sent, [])
  {
    RetryLoop.LoopEnds(queue, TicksAnswered(f, queue, ticks[|ticks|..]), sent, pushed);
  }

  /** A new client that has tried both sides once, whatever came of the first. */
  ghost predicate Opened(client: Client, up: Attempt, down: Attempt)
    reads client
  {
    && !client.closed
    && client.upstream.stream == (if up.dials && up.opens then Some(0) else None)
    && client.downstream.stream == (if down.dials && down.opens then Some(0) else None)
    && |client.upstream.fates| == (if up.dials then 1 else 0)
    && |client.downstream.fates| == (if down.dials then 1 else 0)
  }

  class Node {
    const id: string
    const listens: bool
    const hasParent: bool
    const authorizeChild: Option<Hook>
    // Null until Start, and for good if not configured.
    var server: Server?
    var client: Client?
    var upstreamHandlers: map<string, seq<Handler>>
    var downstreamHandlers: map<string, seq<Handler>>
    const pending: Queue
    // retryLoop has been started, as it is once only.
    var retrying: bool

    ghost predicate Valid()
      reads this, pending, pending.data, server, client
    {
      && pending.Valid() && (server != null ==> listens && server.Valid() && server.cast.None?)
      && (client != null ==> hasParent && client.Valid())
    }

    predicate ConnectedToParent()
      reads this, client
    {
      client != null && client.Connected()
    }

    constructor (id: string, listens: bool, hasParent: bool, authorizeChild: Option<Hook>)
      ensures Valid() && fresh(pending) && pending.contents == [] && pending.data == null
      ensures this.id == id && this.listens == listens && this.hasParent == hasParent
      ensures this.authorizeChild == authorizeChild && !retrying
      ensures server == null && client == null && upstreamHandlers == map[] && downstreamHandlers == map[]
    {
      this.id, this.listens, this.hasParent, this.authorizeChild := id, listens, hasParent, authorizeChild;
      retrying := false;
      server, client, upstreamHandlers, downstreamHandlers := null, null, map[], map[];
      pending := new Queue();
    }

    /** New, for the options given. */
    static method New(id: string, listens: bool, hasParent: bool, authorizeChild: Option<Hook>)
      returns (n: Node?, err: Option<ConfigError>)
      ensures err == (if id == "" then Some(NoId) else if !listens && !hasParent then Some(NoCapability) else None)
      ensures err == None <==> n != null
      ensures n != null ==> fresh(n) && n.Valid() && n.id == id && n.listens == listens && n.hasParent == hasParent
      ensures n != null ==> n.authorizeChild == authorizeChild
    {
      if id == "" {
        return null, Some(NoId);
      }
      if !listens && !hasParent {
        return null, Some(NoCapability);
      }
      n := new Node(id, listens, hasParent, authorizeChild);
      err := None;
    }

    method StartServer()
      requires Valid()
      modifies this`server
      ensures Valid() && (server != null <==> listens)
      ensures server != null ==> fresh(server) && server.View() == Registry.INITIAL
      ensures server != null ==> server.authorizeChild == authorizeChild
    {
      if listens {
        server := new Server();
        if authorizeChild.Some? {
          server.SetAuthorizeChild(authorizeChild);
        }
      }
    }

    method StartClient(up: Attempt, down: Attempt) returns (startsLoop: bool)
      requires Valid()
      modifies this`client, this`retrying
      ensures Valid() && (client != null <==> hasParent) && (client != null ==> fresh(client))
      ensures retrying <==> old(retrying) || hasParent
      ensures startsLoop <==> hasParent && !old(retrying)
      ensures client != null ==> Opened(client, up, down)
      ensures ConnectedToParent() <==> hasParent && up == down == Attempt(true, true)
    {
      startsLoop := hasParent && !retrying;
      if hasParent {
        client := new Client();
        var loop := client.Connect(up, down);
        retrying := retrying || startsLoop;
      }
    }

    /** What a node does follows from what was configured. Another Start replaces the
        server and the client, and starts no second retryLoop. */
    method Start(up: Attempt, down: Attempt) returns (startsLoop: bool)
      requires Valid()
      modifies this`server, this`client, this`retrying
      ensures Valid() && (server != null <==> listens) && (client != null <==> hasParent)
      ensures server != null ==> fresh(server) && server.View() == Registry.INITIAL
      ensures server != null ==> server.authorizeChild == authorizeChild
      ensures client != null ==> fresh(client)
      ensures retrying <==> old(retrying) || hasParent
      ensures startsLoop <==> hasParent && !old(retrying)
      ensures client != null ==> Opened(client, up, down)
      ensures ConnectedToParent() <==> hasParent && up == down == Attempt(true, true)
    {
      StartServer();
      startsLoop := StartClient(up, down);
    }

    method OnUpstream(kind: string, handler: Handler)
      modifies this`upstreamHandlers
      ensures forall k :: HandlersFor(upstreamHandlers, k)
                == HandlersFor(old(upstreamHandlers), k) + if k == kind then [handler] else []
    {
      upstreamHandlers := upstreamHandlers[kind := HandlersFor(upstreamHandlers, kind) + [handler]];
    }

    method OnDownstream(kind: string, handler: Handler)
      modifies this`downstreamHandlers
      ensures forall k :: HandlersFor(downstreamHandlers, k)
                == HandlersFor(old(downstreamHandlers), k) + if k == kind then [handler] else []
    {
      downstreamHandlers := downstreamHandlers[kind := HandlersFor(downstreamHandlers, kind) + [handler]];
    }

    /** Calls the handlers of a copy made under mu, one after the other. */
    static method CallAll(handlers: seq<Handler>, env: Envelope) returns (calls: seq<(Handler, Envelope)>)
      ensures CallsOf(handlers, env, calls)
    {
      calls := [];
      for k := 0 to |handlers|
        invariant |calls| == k && forall j :: 0 <= j < k ==> calls[j] == (handlers[j], env)
      {
        calls := calls + [(handlers[k], env)];
      }
    }

    method RunUpstreamHandlers(env: Envelope) returns (calls: seq<(Handler, Envelope)>)
      ensures CallsOf(HandlersFor(upstreamHandlers, env.kind), env, calls)
    {
      calls := CallAll(HandlersFor(upstreamHandlers, env.kind), env);
    }

    method RunDownstreamHandlers(env: Envelope) returns (calls: seq<(Handler, Envelope)>)
      ensures CallsOf(HandlersFor(downstreamHandlers, env.kind), env, calls)
    {
      calls := CallAll(HandlersFor(downstreamHandlers, env.kind), env);
    }

    /** sent is what went out on the upstream stream. */
    method ForwardUp(env: Envelope, net: Net) returns (sent: seq<Envelope>)
      requires Valid()
      modifies client, pending, pending.data
      ensures Valid()
      ensures client != null ==> client.View() == AfterSendUp(old(client.View()), net.first, net.sends, net.second)
      ensures Forwarded(if client == null then None else Some(Succeeds(old(client.View()), net)), env,
                        old(pending.contents), pending.contents, sent)
    {
      sent := [];
      if client == null {
        return;
      }
      var ok, target := client.SendUpstream(net.first, net.sends, net.second);
      if ok {
        sent := [env];
      } else {
        pending.Push(env);
      }
    }

    method HandleUpstreamFromChild(env: Envelope, net: Net)
      returns (calls: seq<(Handler, Envelope)>, sent: seq<Envelope>)
      requires Valid()
      modifies client, pending, pending.data
      ensures Valid() && CallsOf(HandlersFor(upstreamHandlers, env.kind), env, calls)
      ensures client != null ==> client.View() == AfterSendUp(old(client.View()), net.first, net.sends, net.second)
      ensures Forwarded(if client == null then None else Some(Succeeds(old(client.View()), net)), env,
                        old(pending.contents), pending.contents, sent)
    {
      calls := RunUpstreamHandlers(env);
      sent := ForwardUp(env, net);
    }

    /** The new envelope is named after this node and the clock. */
    method SendUp(kind: string, payload: seq<bv8>, now: Clock, net: Net)
      returns (env: Envelope, calls: seq<(Handler, Envelope)>, sent: seq<Envelope>)
      requires Valid()
      modifies client, pending, pending.data
      ensures Valid() && env == NewEnvelope(id, kind, payload, now)
      ensures env.kind == kind && env.payload == payload && env.timestamp == now.seconds
      ensures Names(env.id, id, now.nanos)
      ensures CallsOf(HandlersFor(upstreamHandlers, kind), env, calls)
      ensures client != null ==> client.View() == AfterSendUp(old(client.View()), net.first, net.sends, net.second)
      ensures Forwarded(if client == null then None else Some(Succeeds(old(client.View()), net)), env,
                        old(pending.contents), pending.contents, sent)
    {
      env := NewEnvelope(id, kind, payload, now);
      NewCarries(id, kind, payload, now);
      calls := RunUpstreamHandlers(env);
      sent := ForwardUp(env, net);
    }

    /** One attempt of a retry pass: others push, the client sends, a failure is
        pushed back. */
    static method Resend(client: Client, pending: Queue, env: Envelope, tick: Tick, m: nat, sofar: seq<Envelope>,
                         ghost w: World<Envelope>, ghost f: Fields, ghost batch: seq<Envelope>)
      returns (sent: seq<Envelope>, stop: bool)
      requires client.Valid() && pending.Valid() && m < |batch| && env == batch[m] && Fits(w, f, tick, m)
      requires MidPass(w, f, batch, tick, client.View(), pending.contents, sofar, m)
      modifies client, pending, pending.data
      ensures client.Valid() && pending.Valid() && (pending.data == old(pending.data) || fresh(pending.data))
      ensures MidPass(w, f, batch, tick, client.View(), pending.contents, sent, m + 1) && stop == w.Cancelled(m)
    {
      var net := NetAt(tick.nets, m);
      var ok, target := client.SendUpstream(net.first, net.sends, net.second);
      sent := RetryOne(pending, env, OthersAt(tick, m), ok, sofar, w, m);
      stop := DoneAfter(tick, m);
    }

    /** The attempts of a pass over a drained slice, up to the first that finds the
        context done. */
    static method RetryAll(client: Client, pending: Queue, envs: array?<Envelope>, n: nat, tick: Tick,
                           ghost w: World<Envelope>, ghost f: Fields, ghost batch: seq<Envelope>)
      returns (m: nat, sent: seq<Envelope>, stop: bool)
      requires client.Valid() && pending.Valid() && pending.data == null && pending.contents == [] && client.View() == f
      requires |batch| == n && (n > 0 ==> envs != null && n <= envs.Length && envs[..n] == batch)
      requires AllFit(w, f, tick, n)
      modifies client, pending
      ensures client.Valid() && pending.Valid() && (pending.data == null || fresh(pending.data))
      ensures MidPass(w, f, batch, tick, client.View(), pending.contents, sent, m)
      ensures m == Attempts(n, w) && stop == Stopped(m, w)
    {
      m, sent, stop := 0, [], false;
      while m < n && !stop
        invariant client.Valid() && pending.Valid() && m <= n && (pending.data == null || fresh(pending.data))
        invariant n > 0 ==> envs[..n] == batch
        invariant MidPass(w, f, batch, tick, client.View(), pending.contents, sent, m)
        invariant AttemptedSoFar(w, m, stop)
        decreases n - m
      {
        var env := envs[m];
        assert env == envs[..n][m] && Fits(w, f, tick, m);
        AttemptedOneMore(w, m);
        sent, stop := Resend(client, pending, env, tick, m, sent, w, f, batch);
        m := m + 1;
      }
      AttemptedAll(n, w, m, stop);
    }

    /** drain, then one attempt an envelope through the client, re-pushing those that
        fail. The slice ranged over is the drained one: nothing pushed meanwhile
        lengthens or overwrites it, so the pass makes an attempt for each envelope of
        it, or stops right after the first one that finds the context done, leaving
        the tail behind. */
    static method RetryPass(client: Client, pending: Queue, tick: Tick)
      returns (sent: seq<Envelope>, abandoned: seq<Envelope>, stop: bool)
      requires client.Valid() && pending.Valid()
      modifies client, pending
      ensures client.Valid() && pending.Valid() && (pending.data == null || fresh(pending.data))
      ensures PassDone(old(client.View()), old(pending.contents), tick,
                       client.View(), pending.contents, sent, abandoned, stop)
    {
      ghost var batch, f := pending.contents, client.View();
      WorldFits(f, tick, |batch|);
      var envs, n := pending.Drain();
      var m;
      m, sent, stop := RetryAll(client, pending, envs, n, tick, WorldOf(f, tick, |batch|), f, batch);
      abandoned := if n > 0 then envs[..n][m..] else [];
    }

    /** A tick: the queue holds what was pushed since the last pass, and a pass is
        made. */
    static method Turn(client: Client, pending: Queue, tick: Tick)
      returns (sent: seq<Envelope>, abandoned: seq<Envelope>, stop: bool)
      requires client.Valid() && pending.Valid()
      modifies client, pending, pending.data
      ensures client.Valid() && pending.Valid() && (pending.data == null || fresh(pending.data))
      ensures PassDone(old(client.View()), old(pending.contents) + tick.before, tick,
                       client.View(), pending.contents, sent, abandoned, stop)
    {
      PushAll(pending, tick.before);
      sent, abandoned, stop := RetryPass(client, pending, tick);
    }

    /** The retry loop, until a pass finds the context done or ticks run out. */
    static method RetryLoopOf(client: Client, pending: Queue, ticks: seq<Tick>)
      returns (sent: seq<Envelope>, abandoned: seq<Envelope>)
      requires client.Valid() && pending.Valid()
      modifies client, pending, pending.data
      ensures client.Valid() && pending.Valid()
      ensures LoopEndsAs(old(client.View()), old(pending.contents), ticks, pending.contents, sent, abandoned)
    {
      sent, abandoned := [], [];
      var k := 0;
      ghost var pushed := [];
      LoopBegins(client.View(), pending.contents, ticks);
      while k < |ticks|
        invariant client.Valid() && pending.Valid() && k <= |ticks| && abandoned == []
        invariant pending.data == null || pending.data == old(pending.data) || fresh(pending.data)
        invariant LoopGoesOn(old(client.View()), old(pending.contents), ticks,
                             client.View(), pending.contents, k, sent, pushed)
        decreases |ticks| - k
      {
        ghost var f, queue := client.View(), pending.contents;
        var now, tail, stop := Turn(client, pending, ticks[k]);
        pushed := LoopTurns(old(client.View()), old(pending.contents), ticks, k, f, queue, sent, pushed,
                            client.View(), pending.contents, now, tail, stop);
        sent := sent + now;
        if stop {
          abandoned := tail;
          return;
        }
        k := k + 1;
      }
      LoopRunsOut(old(client.View()), old(pending.contents), ticks, client.View(), pending.contents, sent, pushed);
    }

    method RunRetryLoop(ticks: seq<Tick>) returns (sent: seq<Envelope>, abandoned: seq<Envelope>)
      requires Valid() && client != null
      modifies client, pending, pending.data
      ensures Valid()
      ensures LoopEndsAs(old(client.View()), old(pending.contents), ticks, pending.contents, sent, abandoned)
    {
      sent, abandoned := RetryLoopOf(client, pending, ticks);
    }

    // ---------------------------------------------------------------------------
    // Downstream
    // ---------------------------------------------------------------------------

    method SendDown(kind: string, payload: seq<bv8>, now: Clock, meanwhile: seq<seq<Registry.Action>>)
      returns (r: BroadcastResult, failed: bool)
      requires Valid() && HandlersOnly(meanwhile)
      modifies server
      ensures Valid()
      ensures server == null ==> r == BroadcastResult(0, []) && !failed
      ensures server != null ==>
        && |server.log| == |old(server.log)| + 1
        && var env := server.log[|old(server.log)|].env;
        && Carries(env, id, kind, payload, now)
        && Broadcasted(server, old(server.View()), env, Flat(meanwhile), r, failed)
    {
      if server == null {
        return BroadcastResult(0, []), false;
      }
      var env := NewEnvelope(id, kind, payload, now);
      NewCarries(id, kind, payload, now);
      r, failed := server.BroadcastDownstream(env, meanwhile);
    }

    /** None is the error of a node without a server. */
    method SendToChild(childId: string, kind: string, payload: seq<bv8>, now: Clock) returns (r: Option<SendResult>)
      requires Valid()
      modifies server
      ensures Valid()
      ensures r.None? <==> server == null
      ensures server != null ==>
        && server.View() == Registry.DoSendTo(old(server.View()), childId, NewEnvelope(id, kind, payload, now))
        && (r == Some(NoSuchChild) <==> childId !in server.children)
        && (r == Some(BufferFull) <==> HoldsSixteen(old(server.View()), childId))
      ensures r == Some(Sent) ==>
        var ch := server.children[childId];
        && |server.log| == |old(server.log)| + 1 && ch < |server.sessions| == |old(server.sessions)|
        && var env := server.log[|old(server.log)|].env;
        && Carries(env, id, kind, payload, now)
        && server.sessions[ch].queue == old(server.sessions)[ch].queue + [env]
    {
      if server == null {
        return None;
      }
      var env := NewEnvelope(id, kind, payload, now);
      NewCarries(id, kind, payload, now);
      var answer := server.SendToChild(childId, env);
      r := Some(answer);
    }

    /** Every envelope from the parent goes on to all children, whoever it was
        sent to: a child reached by SendToChild passes it to its whole subtree. */
    method HandleDownstreamFromParent(env: Envelope, meanwhile: seq<seq<Registry.Action>>)
      returns (calls: seq<(Handler, Envelope)>)
      requires Valid() && HandlersOnly(meanwhile)
      modifies server
      ensures Valid() && CallsOf(HandlersFor(downstreamHandlers, env.kind), env, calls)
      ensures server != null ==>
        exists r, failed :: Broadcasted(server, old(server.View()), env, Flat(meanwhile), r, failed)
    {
      calls := RunDownstreamHandlers(env);
      if server != null {
        var r, failed := server.BroadcastDownstream(env, meanwhile);
        assert Broadcasted(server, old(server.View()), env, Flat(meanwhile), r, failed);
      }
    }
  }
}
