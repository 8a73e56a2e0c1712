/** retryLoop from its start to its return, over any sequence of ticks. */
module RetryLoop {
  import opened PendingQueue
  import opened Retry

  // What the select at the head of the loop finds: the context done, or a tick,
  // with the envelopes pushed since the last pass and the world of this one.
  datatype Tick = Done | Fires(before: seq<Envelope>, w: World<Envelope>)

  /** How a loop has left things: the queue, what it sent, the tail of a batch it
      abandoned, and what others pushed from its start on. */
  datatype Outcome = Outcome(queue: seq<Envelope>, sent: seq<Envelope>, abandoned: seq<Envelope>, pushed: seq<Envelope>)

  function Before(o: Outcome, sent: seq<Envelope>, pushed: seq<Envelope>): Outcome {
    o.(sent := sent + o.sent, pushed := pushed + o.pushed)
  }

  function Loop(queue: seq<Envelope>, ticks: seq<Tick>): Outcome
    decreases |ticks|
  {
    if ticks == [] || ticks[0].Done? then Outcome(queue, [], [], [])
    else
      var batch, w := queue + ticks[0].before, ticks[0].w;
      var n := Attempts(|batch|, w);
      var sent, pushed := Successes(batch, w, n), ticks[0].before + Pushed(w, n);
      if Stopped(n, w) then Outcome(Requeued(batch, w, n), sent, batch[n..], pushed)
      else Before(Loop(Requeued(batch, w, n), ticks[1..]), sent, pushed)
  }

  lemma LoopStarts(queue: seq<Envelope>, ticks: seq<Tick>)
    ensures Before(Loop(queue, ticks[0..]), [], []) == Loop(queue, ticks)
  {
    assert ticks[0..] == ticks;
  }

  lemma LoopEnds(queue: seq<Envelope>, ticks: seq<Tick>, sent: seq<Envelope>, pushed: seq<Envelope>)
    requires ticks == [] || ticks[0].Done?
    ensures Before(Loop(queue, ticks), sent, pushed) == Outcome(queue, sent, [], pushed)
  {
  }

  lemma BeforeTwice(o: Outcome, sent: seq<Envelope>, pushed: seq<Envelope>,
                    sent': seq<Envelope>, pushed': seq<Envelope>)
    ensures Before(Before(o, sent, pushed), sent', pushed') == Before(o, sent' + sent, pushed' + pushed)
  {
    assert sent' + (sent + o.sent) == sent' + sent + o.sent;
    assert pushed' + (pushed + o.pushed) == pushed' + pushed + o.pushed;
  }

  // One turn, after a part of the loop that sent and saw pushed this much.
  lemma LoopTurn(queue: seq<Envelope>, ticks: seq<Tick>, sent: seq<Envelope>, pushed: seq<Envelope>)
    requires ticks != [] && ticks[0].Fires?
    ensures var batch, w := queue + ticks[0].before, ticks[0].w;
            var n := Attempts(|batch|, w);
            var sent', pushed' := sent + Successes(batch, w, n), pushed + (ticks[0].before + Pushed(w, n));
            Before(Loop(queue, ticks), sent, pushed)
            == if Stopped(n, w) then Outcome(Requeued(batch, w, n), sent', batch[n..], pushed')
               else Before(Loop(Requeued(batch, w, n), ticks[1..]), sent', pushed')
  {
    var batch, w := queue + ticks[0].before, ticks[0].w;
    var n := Attempts(|batch|, w);
    if !Stopped(n, w) {
      var now, arrived := Successes(batch, w, n), ticks[0].before + Pushed(w, n);
      BeforeTwice(Loop(Requeued(batch, w, n), ticks[1..]), now, arrived, sent, pushed);
    }
  }

  // A pass that turned queue, before and pushed into sent and next, then o.
  lemma Chain(queue: seq<Envelope>, before: seq<Envelope>, pushed: seq<Envelope>, sent: seq<Envelope>,
              next: seq<Envelope>, o: Outcome)
    requires multiset(queue + before) + multiset(pushed) == multiset(sent) + multiset(next)
    requires multiset(next) + multiset(o.pushed) == multiset(o.sent) + multiset(o.queue) + multiset(o.abandoned)
    ensures var o' := Before(o, sent, before + pushed);
            multiset(queue) + multiset(o'.pushed) == multiset(o'.sent) + multiset(o'.queue) + multiset(o'.abandoned)
  {
    var o' := Before(o, sent, before + pushed);
    var q, b, p := multiset(queue), multiset(before), multiset(pushed);
    var t, x, y := multiset(sent), multiset(next), multiset(o.pushed);
    assert multiset(o'.pushed) == b + p + y && multiset(queue + before) == q + b;
    assert multiset(o'.sent) == t + multiset(o.sent);
    assert q + (b + p + y) == (q + b + p) + y == (t + x) + y == t + (x + y);
  }

  /** Over its whole life the loop loses nothing: what was queued at its start or
      pushed since was sent, is queued, or was abandoned. */
  lemma {:induction false} LoopConserves(queue: seq<Envelope>, ticks: seq<Tick>)
    ensures var o := Loop(queue, ticks);
            multiset(queue) + multiset(o.pushed) == multiset(o.sent) + multiset(o.queue) + multiset(o.abandoned)
    decreases |ticks|
  {
    if ticks != [] && ticks[0].Fires? {
      var batch, w := queue + ticks[0].before, ticks[0].w;
      var n := Attempts(|batch|, w);
      PassConserves(batch, w, n);
      if !Stopped(n, w) {
        LoopConserves(Requeued(batch, w, n), ticks[1..]);
        assert batch[n..] == [];
        Chain(queue, ticks[0].before, Pushed(w, n), Successes(batch, w, n), Requeued(batch, w, n),
              Loop(Requeued(batch, w, n), ticks[1..]));
      }
    }
  }

  /** How a pass that finds the context done leaves things, after what came before:
      the abandoned tail is the rest of its own batch. */
  function Stopping(before: Outcome, tick: Tick): Outcome
    requires tick.Fires?
  {
    var batch := before.queue + tick.before;
    var n := Attempts(|batch|, tick.w);
    Outcome(Requeued(batch, tick.w, n), before.sent + Successes(batch, tick.w, n), batch[n..],
            before.pushed + (tick.before + Pushed(tick.w, n)))
  }

  predicate FindsDone(queue: seq<Envelope>, tick: Tick)
    requires tick.Fires?
  {
    Stopped(Attempts(|queue + tick.before|, tick.w), tick.w)
  }

  // From x, what the ticks before left, the pass of this tick ends the loop as y.
  ghost predicate EndsWith(x: Outcome, y: Outcome, tick: Tick) {
    tick.Fires? && FindsDone(x.queue, tick) && y == Stopping(x, tick)
  }

  /** Tick k is the last: the loop comes to it as the ticks before it leave it, its
      pass finds the context done, and nothing is sent or queued after it. */
  ghost predicate StopsAt(queue: seq<Envelope>, ticks: seq<Tick>, k: nat) {
    k < |ticks| && EndsWith(Loop(queue, ticks[..k]), Loop(queue, ticks), ticks[k])
  }

  ghost predicate Stops(queue: seq<Envelope>, ticks: seq<Tick>) {
    exists k :: StopsAt(queue, ticks, k)
  }

  lemma StopsFirst(queue: seq<Envelope>, ticks: seq<Tick>)
    requires ticks != [] && ticks[0].Fires? && FindsDone(queue, ticks[0])
    ensures StopsAt(queue, ticks, 0)
  {
    assert Loop(queue, ticks[..0]) == Outcome(queue, [], [], []);
  }

  // What comes after a first tick that did not stop the loop.
  lemma AfterFirst(queue: seq<Envelope>, ticks: seq<Tick>)
    requires ticks != [] && ticks[0].Fires? && !FindsDone(queue, ticks[0])
    ensures var o := Stopping(Outcome(queue, [], [], []), ticks[0]);
            Loop(queue, ticks) == Before(Loop(o.queue, ticks[1..]), o.sent, o.pushed)
  {
    var batch, w := queue + ticks[0].before, ticks[0].w;
    var n := Attempts(|batch|, w);
    assert [] + Successes(batch, w, n) == Successes(batch, w, n);
    assert [] + (ticks[0].before + Pushed(w, n)) == ticks[0].before + Pushed(w, n);
  }

  lemma StoppingLater(o: Outcome, tick: Tick, sent: seq<Envelope>, pushed: seq<Envelope>)
    requires tick.Fires?
    ensures Before(Stopping(o, tick), sent, pushed) == Stopping(Before(o, sent, pushed), tick)
  {
    var batch := o.queue + tick.before;
    var n := Attempts(|batch|, tick.w);
    var now, arrived := Successes(batch, tick.w, n), tick.before + Pushed(tick.w, n);
    assert sent + (o.sent + now) == sent + o.sent + now;
    assert pushed + (o.pushed + arrived) == pushed + o.pushed + arrived;
  }

  lemma EndsLater(x: Outcome, y: Outcome, tick: Tick, sent: seq<Envelope>, pushed: seq<Envelope>)
    requires EndsWith(x, y, tick)
    ensures EndsWith(Before(x, sent, pushed), Before(y, sent, pushed), tick)
  {
    StoppingLater(x, tick, sent, pushed);
  }

  lemma StopsLater(queue: seq<Envelope>, ticks: seq<Tick>, k: nat)
    requires ticks != [] && ticks[0].Fires? && !FindsDone(queue, ticks[0])
    requires StopsAt(Stopping(Outcome(queue, [], [], []), ticks[0]).queue, ticks[1..], k)
    ensures StopsAt(queue, ticks, k + 1)
  {
    var o := Stopping(Outcome(queue, [], [], []), ticks[0]);
    var x, y := Loop(o.queue, ticks[1..][..k]), Loop(o.queue, ticks[1..]);
    EndsLater(x, y, ticks[1..][k], o.sent, o.pushed);
    assert Loop(queue, ticks[..k + 1]) == Before(x, o.sent, o.pushed) by {
      assert ticks[..k + 1][1..] == ticks[1..][..k];
      AfterFirst(queue, ticks[..k + 1]);
    }
    assert Loop(queue, ticks) == Before(y, o.sent, o.pushed) by {
      AfterFirst(queue, ticks);
    }
  }

  /** The loop abandons a tail only where it stops because the context is done;
      without such a stop it abandons nothing. */
  lemma {:induction false} AbandonsOnlyWhenDone(queue: seq<Envelope>, ticks: seq<Tick>)
    ensures Loop(queue, ticks).abandoned != [] ==> Stops(queue, ticks)
    decreases |ticks|
  {
    if ticks != [] && ticks[0].Fires? {
      var batch, w := queue + ticks[0].before, ticks[0].w;
      var n := Attempts(|batch|, w);
      if Stopped(n, w) {
        StopsFirst(queue, ticks);
      } else {
        var next := Requeued(batch, w, n);
        AbandonsOnlyWhenDone(next, ticks[1..]);
        if Loop(queue, ticks).abandoned != [] {
          var k :| StopsAt(next, ticks[1..], k);
          StopsLater(queue, ticks, k);
        }
      }
    }
  }

  ghost predicate NobodyPushes(ticks: seq<Tick>) {
    forall k :: 0 <= k < |ticks| && ticks[k].Fires?
      ==> ticks[k].before == [] && forall i: nat :: ticks[k].w.Arrivals(i) == []
  }

  /** Retrying alone never makes the queue longer. */
  lemma {:induction false} QuietLoop(queue: seq<Envelope>, ticks: seq<Tick>)
    requires NobodyPushes(ticks)
    ensures |Loop(queue, ticks).queue| <= |queue|
    decreases |ticks|
  {
    if ticks != [] && ticks[0].Fires? {
      var batch, w := queue + ticks[0].before, ticks[0].w;
      var n := Attempts(|batch|, w);
      QuietPass(batch, w, n);
      assert NobodyPushes(ticks[1..]);
      QuietLoop(Requeued(batch, w, n), ticks[1..]);
    }
  }
}
