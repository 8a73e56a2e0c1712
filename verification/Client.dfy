/** transport.Client as an object. Its methods run without interruption; each call is
    one more stretch of a run of the client's state machine, so what holds of the
    machine after every run holds of the object after any sequence of calls. */
module TransportClient {
  import opened Wrappers
  import opened ClientMachine
  import opened ClientRefinement
  import opened PendingQueue

  /** A new connection, numbered next, and its stream are current and open, and the
      connection that was current is closed. */
  predicate Replaced(before: Half, after: Half) {
    var c := |before.fates|;
    && after.conn == after.stream == Some(c) && |after.fates| == c + 1 && after.fates[c] == Installed
    && forall d :: 0 <= d < c ==> after.fates[d] == if before.conn == Some(d) then Closed else before.fates[d]
  }

  /** The current connection and stream are as they were; one that was dialled in
      between is closed again. */
  predicate Kept(before: Half, after: Half) {
    && after.conn == before.conn && after.stream == before.stream && before.fates <= after.fates
    && forall d :: |before.fates| <= d < |after.fates| ==> after.fates[d] == Closed
  }

  /** What a sendUpstream sends on: the current stream, or else one it opened. */
  predicate Targeted(closed: bool, before: Half, first: Attempt, target: Option<nat>) {
    if before.stream.Some? then target == before.stream
    else target == if !closed && first.dials && first.opens then Some(|before.fates|) else None
  }

  /** And what it leaves: after a failed Send that reopened, a stream newer than any
      before; else the one it sent on, if it did. */
  predicate Sent(closed: bool, before: Half, after: Half, target: Option<nat>, ok: bool, second: Attempt) {
    if target.Some? && !ok && !closed && second.dials && second.opens
    then HasNewStream(before, after)
    else after.stream == target && (ok && before.stream.Some? ==> after == before)
  }

  /** The current connection is closed, and nothing else has changed. */
  predicate ConnClosed(before: Half, after: Half) {
    && after.conn == before.conn && after.stream == before.stream && |after.fates| == |before.fates|
    && forall d :: 0 <= d < |before.fates|
         ==> after.fates[d] == if before.conn == Some(d) then Closed else before.fates[d]
  }

  class Client {
    var closed: bool
    var upstream: Half
    var downstream: Half
    var downstreamCancel: Option<nat>

    // History: which downstream stream contexts have been cancelled, and the run of
    // the machine that the calls so far amount to.
    var cancelled: set<nat>
    ghost var trace: seq<Action>

    function View(): Fields
      reads this`closed, this`upstream, this`downstream, this`downstreamCancel, this`cancelled
    {
      Fields(closed, upstream, downstream, downstreamCancel, cancelled)
    }

    ghost predicate Valid()
      reads this
    {
      View() == FieldsOf(Exec(trace)) && Exec(trace).sendMu.None?
    }

    constructor ()
      ensures Valid() && trace == []
    {
      closed, upstream, downstream, downstreamCancel, cancelled := false, NOTHING, NOTHING, None, {};
      trace := [];
    }

    predicate Connected()
      reads this
    {
      !closed && upstream.stream.Some? && downstream.stream.Some?
    }

    // ---------------------------------------------------------------------------
    // Parts of a call
    // ---------------------------------------------------------------------------

    method ReopenUpstream(a: Attempt) returns (ok: bool)
      modifies this`upstream
      ensures View() == UpReopened(old(View()), a)
      ensures ok <==> !closed && a.dials && a.opens
      ensures ok ==> Replaced(old(upstream), upstream)
      ensures !ok ==> Kept(old(upstream), upstream)
    {
      if closed {
        return false;
      }
      if !a.dials {
        return false;
      }
      var conn := |upstream.fates|;
      upstream := upstream.(fates := upstream.fates + [Closed]);
      if !a.opens {
        return false;
      }
      upstream := CloseConn(upstream, upstream.conn);
      upstream := upstream.(conn := Some(conn), fates := upstream.fates[conn := Installed]);
      upstream := upstream.(stream := Some(conn));
      return true;
    }

    method ReopenDownstream(a: Attempt) returns (ok: bool)
      modifies this`downstream, this`downstreamCancel, this`cancelled
      ensures View() == DownReopened(old(View()), a)
      ensures ok <==> !closed && a.dials && a.opens
      ensures ok ==> Replaced(old(downstream), downstream) && downstreamCancel == downstream.stream
      ensures !ok ==> Kept(old(downstream), downstream) && downstreamCancel == old(downstreamCancel)
      ensures !closed && old(downstreamCancel).Some? ==> old(downstreamCancel).value in cancelled
    {
      if closed {
        return false;
      }
      var prevCancel := downstreamCancel;
      if prevCancel.Some? {
        cancelled := cancelled + {prevCancel.value};
      }
      if !a.dials {
        return false;
      }
      var conn := |downstream.fates|;
      downstream := downstream.(fates := downstream.fates + [Closed]);
      if !a.opens {
        return false;
      }
      downstream := CloseConn(downstream, downstream.conn);
      downstream := downstream.(conn := Some(conn), fates := downstream.fates[conn := Installed]);
      downstream := downstream.(stream := Some(conn));
      downstreamCancel := Some(conn);
      return true;
    }

    /** sendUpstream, under sendMu. */
    method TrySend(first: Attempt, sends: bool, second: Attempt) returns (ok: bool, target: Option<nat>)
      modifies this`upstream
      ensures View() == AfterSendUp(old(View()), first, sends, second)
      ensures ok <==> target.Some? && sends
      ensures Targeted(closed, old(upstream), first, target)
      ensures Sent(closed, old(upstream), upstream, target, ok, second)
    {
      target := upstream.stream;
      if target == None {
        var got := ReopenUpstream(first);
        if !got {
          return false, None;
        }
        target := upstream.stream;
      }
      if !sends {
        var reopened := ReopenUpstream(second);
        return false, target;
      }
      return true, target;
    }

    /** What Close does under mu. */
    method CloseAll(upFails: bool, downFails: bool) returns (firstErr: Option<Side>)
      modifies this`closed, this`upstream, this`downstream, this`cancelled
      ensures View() == Shut(old(View())) && closed
      ensures ConnClosed(old(upstream), upstream) && ConnClosed(old(downstream), downstream)
      ensures downstreamCancel.Some? ==> downstreamCancel.value in cancelled
      ensures firstErr == Some(Up) <==> upFails && old(upstream).conn.Some?
      ensures firstErr == Some(Down) <==> downFails && old(downstream).conn.Some? && firstErr != Some(Up)
    {
      closed := true;
      if downstreamCancel.Some? {
        cancelled := cancelled + {downstreamCancel.value};
      }
      firstErr := None;
      if upstream.conn.Some? {
        upstream := CloseConn(upstream, upstream.conn);
        if upFails && firstErr.None? {
          firstErr := Some(Up);
        }
      }
      if downstream.conn.Some? {
        downstream := CloseConn(downstream, downstream.conn);
        if downFails && firstErr.None? {
          firstErr := Some(Down);
        }
      }
    }

    // ---------------------------------------------------------------------------
    // Calls
    // ---------------------------------------------------------------------------

    /** Opens what it can and leaves the rest to reconnectLoop, which it starts as
        goroutine loop, after the recvLoop of a downstream stream that it opened. */
    method Connect(up: Attempt, down: Attempt) returns (ghost loop: nat)
      requires Valid()
      modifies this
      ensures Valid() && Extends(old(trace), trace, |Exec(old(trace)).threads|)
      ensures View() == DownReopened(UpReopened(old(View()), up), down)
      ensures Stands(Exec(trace), loop, LoopSelect)
      ensures Works(UpReopened(old(View()), up), down)
          ==> Stands(Exec(trace), |Exec(old(trace)).threads| + 1, Recv(|old(downstream).fates|))
      ensures upstream.stream
           == if !closed && up.dials && up.opens then Some(|old(upstream).fates|) else old(upstream).stream
      ensures downstream.stream
           == if !closed && down.dials && down.opens then Some(|old(downstream).fates|) else old(downstream).stream
      ensures Connected() <==> && !old(closed) && ((up.dials && up.opens) || old(upstream).stream.Some?)
                               && ((down.dials && down.opens) || old(downstream).stream.Some?)
    {
      var upOk := ReopenUpstream(up);
      var downOk := ReopenDownstream(down);
      trace, loop := CallingConnect(trace, up, down);
    }

    /** A tick of reconnectLoop, which is goroutine loop; done when it returns instead
        of waiting for another. A downstream stream it opens gets its recvLoop. */
    method Reconnect(ghost loop: nat, up: Attempt, down: Attempt) returns (done: bool)
      requires Valid() && Stands(Exec(trace), loop, LoopSelect)
      modifies this
      ensures Valid() && Extends(old(trace), trace, loop)
      ensures Stands(Exec(trace), loop, if done then Finished else LoopSelect) && done == old(closed)
      ensures View() == if done then old(View()) else AfterTick(old(View()), up, down)
      ensures old(downstream).stream.None? && Works(old(View()), down)
          ==> Stands(Exec(trace), |Exec(old(trace)).threads|, Recv(|old(downstream).fates|))
      ensures upstream.stream == if !done && old(upstream).stream.None? && up.dials && up.opens
                                 then Some(|old(upstream).fates|) else old(upstream).stream
      ensures downstream.stream == if !done && old(downstream).stream.None? && down.dials && down.opens
                                   then Some(|old(downstream).fates|) else old(downstream).stream
      ensures Connected() <==> && !done && ((up.dials && up.opens) || old(upstream).stream.Some?)
                               && ((down.dials && down.opens) || old(downstream).stream.Some?)
    {
      var needsUpstream, needsDownstream := upstream.stream == None, downstream.stream == None;
      done := closed;
      if !done {
        if needsUpstream {
          var ok := ReopenUpstream(up);
        }
        if needsDownstream {
          var ok := ReopenDownstream(down);
        }
      }
      trace := Ticking(trace, loop, up, down);
    }

    /** Sends at most once, on the current stream or a first one opened for it. */
    method SendUpstream(first: Attempt, sends: bool, second: Attempt) returns (ok: bool, target: Option<nat>)
      requires Valid()
      modifies this
      ensures Valid() && Extends(old(trace), trace, |Exec(old(trace)).threads|)
      ensures View() == AfterSendUp(old(View()), first, sends, second)
      ensures ok <==> target.Some? && sends
      ensures Targeted(closed, old(upstream), first, target)
      ensures Sent(closed, old(upstream), upstream, target, ok, second)
      ensures target.Some? && !sends && !closed && second.dials && second.opens
          ==> upstream.stream == Some(|upstream.fates| - 1) && |upstream.fates| > |old(upstream).fates|
      ensures Returned(Exec(trace), |Exec(old(trace)).threads|, ok)
    {
      ok, target := TrySend(first, sends, second);
      trace := CallingSend(trace, first, sends, second);
    }

    /** Hands each envelope of the stream to the handler, in order, until Recv fails;
        the stream is then cleared if it is still the current one. This recvLoop is
        goroutine r. */
    method RecvLoop(ghost r: nat, stream: nat, incoming: seq<Envelope>) returns (handled: seq<Envelope>)
      requires Valid() && Stands(Exec(trace), r, Recv(stream))
      modifies this`downstream, this`trace
      ensures Valid() && Extends(old(trace), trace, r) && Stands(Exec(trace), r, Finished)
      ensures handled == incoming && downstream == ClearOn(old(downstream), stream)
      ensures downstream.stream != Some(stream)
      ensures old(downstream).stream != Some(stream) ==> downstream == old(downstream)
    {
      handled := [];
      for k := 0 to |incoming|
        invariant handled == incoming[..k] && downstream == old(downstream) && trace == old(trace)
      {
        handled := handled + [incoming[k]];
      }
      if downstream.stream == Some(stream) {
        downstream := downstream.(stream := None);
      }
      trace := Receiving(trace, r, stream);
    }

    /** Closes the connections that are current, and leaves the streams as they are.
        The error returned is that of the first connection there is whose own Close
        fails, upstream before downstream; both are closed in any case. */
    method Close(upFails: bool, downFails: bool) returns (firstErr: Option<Side>)
      requires Valid()
      modifies this
      ensures Valid() && Extends(old(trace), trace, |Exec(old(trace)).threads|)
      ensures View() == Shut(old(View())) && closed && !Connected()
      ensures ConnClosed(old(upstream), upstream) && ConnClosed(old(downstream), downstream)
      ensures downstreamCancel == old(downstreamCancel)
      ensures downstreamCancel.Some? ==> downstreamCancel.value in cancelled
      ensures firstErr == Some(Up) <==> upFails && old(upstream).conn.Some?
      ensures firstErr == Some(Down) <==> downFails && old(downstream).conn.Some? && firstErr != Some(Up)
    {
      firstErr := CloseAll(upFails, downFails);
      trace := CallingClose(trace);
    }
  }
}
