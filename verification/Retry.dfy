/** What one pass of retryLoop makes of the pending queue. What happens at each
    attempt is given: whether the i-th SendUpstream succeeds, which envelopes
    other goroutines push between the previous attempt's push and this one's, and
    whether the select after the attempt finds the context done. */
module Retry {
  import opened Wrappers
  import opened PendingQueue

  datatype World<T> = World(answers: seq<bool>, others: seq<seq<T>>, done: seq<bool>) {
    predicate Succeeds(i: nat) {
      i < |answers| && answers[i]
    }

    function Arrivals(i: nat): seq<T> {
      if i < |others| then others[i] else []
    }

    predicate Cancelled(i: nat) {
      i < |done| && done[i]
    }
  }

  // ---------------------------------------------------------------------------
  // What a pass amounts to
  // ---------------------------------------------------------------------------

  function Failures<T>(batch: seq<T>, w: World<T>, n: nat): (r: seq<T>)
    requires n <= |batch|
  {
    if n == 0 then []
    else if w.Succeeds(n - 1) then Failures(batch, w, n - 1)
    else Failures(batch, w, n - 1) + [batch[n - 1]]
  }

  function AfterSend<T>(sent: seq<T>, env: T, w: World<T>, i: nat): seq<T> {
    if w.Succeeds(i) then sent + [env] else sent
  }

  function Successes<T>(batch: seq<T>, w: World<T>, n: nat): (r: seq<T>)
    requires n <= |batch|
  {
    if n == 0 then [] else AfterSend(Successes(batch, w, n - 1), batch[n - 1], w, n - 1)
  }

  function Pushed<T>(w: World<T>, n: nat): (r: seq<T>) {
    if n == 0 then [] else Pushed(w, n - 1) + w.Arrivals(n - 1)
  }

  function AfterAttempt<T>(queue: seq<T>, env: T, w: World<T>, i: nat): seq<T> {
    if w.Succeeds(i) then queue + w.Arrivals(i) else queue + w.Arrivals(i) + [env]
  }

  /** The queue after n attempts on a batch drained from it. */
  function Requeued<T>(batch: seq<T>, w: World<T>, n: nat): (r: seq<T>)
    requires n <= |batch|
  {
    if n == 0 then [] else AfterAttempt(Requeued(batch, w, n - 1), batch[n - 1], w, n - 1)
  }

  /** Attempts of a pass over a batch: up to the first that finds the context done. */
  function Attempts<T>(size: nat, w: World<T>): (n: nat)
    ensures n <= size && (size > 0 ==> n > 0)
    ensures forall j: nat :: j + 1 < n ==> !w.Cancelled(j)
    ensures n < size ==> w.Cancelled(n - 1)
    decreases size
  {
    if size == 0 then 0
    else
      var n := Attempts(size - 1, w);
      if n < size - 1 || (n > 0 && w.Cancelled(n - 1)) then n else size
  }

  predicate Stopped<T>(n: nat, w: World<T>) {
    n > 0 && w.Cancelled(n - 1)
  }

  lemma AttemptsAre<T>(size: nat, w: World<T>, n: nat)
    requires n <= size && (forall j: nat :: j + 1 < n ==> !w.Cancelled(j))
    requires n < size ==> Stopped(n, w)
    ensures n == Attempts(size, w)
  {
  }

  // ---------------------------------------------------------------------------
  // What a pass does to the queue
  // ---------------------------------------------------------------------------

  method PushAll(q: Queue, envs: seq<Envelope>)
    requires q.Valid()
    modifies q, q.data
    ensures q.Valid() && q.contents == old(q.contents) + envs
    ensures q.data == old(q.data) || fresh(q.data)
  {
    for i := 0 to |envs|
      invariant q.Valid() && q.contents == old(q.contents) + envs[..i]
      invariant q.data == old(q.data) || fresh(q.data)
    {
      q.Push(envs[i]);
      assert envs[..i + 1] == envs[..i] + [envs[i]];
    }
    assert envs[..|envs|] == envs;
  }

  /** One attempt: others push, SendUpstream has answered, a failure is pushed back. */
  method RetryOne(q: Queue, env: Envelope, others: seq<Envelope>, ok: bool, sofar: seq<Envelope>,
                  ghost w: World<Envelope>, ghost i: nat)
    returns (sent: seq<Envelope>)
    requires q.Valid() && others == w.Arrivals(i) && ok == w.Succeeds(i)
    modifies q, q.data
    ensures q.Valid() && (q.data == old(q.data) || fresh(q.data))
    ensures sent == AfterSend(sofar, env, w, i)
    ensures q.contents == AfterAttempt(old(q.contents), env, w, i)
  {
    PushAll(q, others);
    if ok {
      sent := sofar + [env];
    } else {
      sent := sofar;
      q.Push(env);
    }
  }

  // ---------------------------------------------------------------------------
  // What that means
  // ---------------------------------------------------------------------------

  /** zs merges xs and ys, keeping the order of each. */
  predicate Interleaves<T(==)>(xs: seq<T>, ys: seq<T>, zs: seq<T>)
    decreases |zs|
  {
    if zs == [] then xs == [] && ys == []
    else
      var last, front := zs[|zs| - 1], zs[..|zs| - 1];
      || (xs != [] && xs[|xs| - 1] == last && Interleaves(xs[..|xs| - 1], ys, front))
      || (ys != [] && ys[|ys| - 1] == last && Interleaves(xs, ys[..|ys| - 1], front))
  }

  lemma {:induction false} InterleavesMore<T>(xs: seq<T>, ys: seq<T>, zs: seq<T>, more: seq<T>)
    requires Interleaves(xs, ys, zs)
    ensures Interleaves(xs, ys + more, zs + more)
    decreases |more|
  {
    if more == [] {
      assert ys + more == ys && zs + more == zs;
    } else {
      var front, last := more[..|more| - 1], more[|more| - 1];
      InterleavesMore(xs, ys, zs, front);
      assert (ys + more)[..|ys + more| - 1] == ys + front;
      assert (zs + more)[..|zs + more| - 1] == zs + front;
    }
  }

  lemma InterleavesOne<T>(xs: seq<T>, ys: seq<T>, zs: seq<T>, x: T)
    requires Interleaves(xs, ys, zs)
    ensures Interleaves(xs + [x], ys, zs + [x])
  {
    assert (xs + [x])[..|xs|] == xs && (zs + [x])[..|zs|] == zs;
  }

  /** The queue after an attempt merges the failures so far, in their original
      order, with what others pushed, in theirs. */
  lemma {:induction false} PassInterleaves(batch: seq<Envelope>, w: World<Envelope>, n: nat)
    requires n <= |batch|
    ensures Interleaves(Failures(batch, w, n), Pushed(w, n), Requeued(batch, w, n))
  {
    if n > 0 {
      PassInterleaves(batch, w, n - 1);
      InterleavesMore(Failures(batch, w, n - 1), Pushed(w, n - 1), Requeued(batch, w, n - 1), w.Arrivals(n - 1));
      if !w.Succeeds(n - 1) {
        var queue := Requeued(batch, w, n - 1) + w.Arrivals(n - 1);
        InterleavesOne(Failures(batch, w, n - 1), Pushed(w, n), queue, batch[n - 1]);
      }
    }
  }

  lemma {:induction false} InterleavesCounts<T>(xs: seq<T>, ys: seq<T>, zs: seq<T>)
    requires Interleaves(xs, ys, zs)
    ensures |zs| == |xs| + |ys| && multiset(zs) == multiset(xs) + multiset(ys)
    decreases |zs|
  {
    if zs != [] {
      var last, front := zs[|zs| - 1], zs[..|zs| - 1];
      assert zs == front + [last];
      if xs != [] && xs[|xs| - 1] == last && Interleaves(xs[..|xs| - 1], ys, front) {
        InterleavesCounts(xs[..|xs| - 1], ys, front);
        assert xs == xs[..|xs| - 1] + [last];
      } else {
        InterleavesCounts(xs, ys[..|ys| - 1], front);
        assert ys == ys[..|ys| - 1] + [last];
      }
    }
  }

  lemma {:induction false} BatchInterleaves(batch: seq<Envelope>, w: World<Envelope>, n: nat)
    requires n <= |batch|
    ensures Interleaves(Successes(batch, w, n), Failures(batch, w, n), batch[..n])
  {
    if n > 0 {
      BatchInterleaves(batch, w, n - 1);
      var ok, bad, b := Successes(batch, w, n - 1), Failures(batch, w, n - 1), batch[n - 1];
      assert batch[..n] == batch[..n - 1] + [b];
      if w.Succeeds(n - 1) {
        InterleavesOne(ok, bad, batch[..n - 1], b);
      } else {
        InterleavesMore(ok, bad, batch[..n - 1], [b]);
      }
    }
  }

  lemma PassSplitsBatch(batch: seq<Envelope>, w: World<Envelope>, n: nat)
    requires n <= |batch|
    ensures multiset(batch[..n]) == multiset(Successes(batch, w, n)) + multiset(Failures(batch, w, n))
    ensures |Successes(batch, w, n)| + |Failures(batch, w, n)| == n
  {
    BatchInterleaves(batch, w, n);
    InterleavesCounts(Successes(batch, w, n), Failures(batch, w, n), batch[..n]);
  }

  /** A pass loses nothing and invents nothing, cancelled or not. */
  lemma PassConserves(batch: seq<Envelope>, w: World<Envelope>, n: nat)
    requires n <= |batch|
    ensures multiset(batch) + multiset(Pushed(w, n))
         == multiset(Successes(batch, w, n)) + multiset(Requeued(batch, w, n)) + multiset(batch[n..])
  {
    PassInterleaves(batch, w, n);
    InterleavesCounts(Failures(batch, w, n), Pushed(w, n), Requeued(batch, w, n));
    PassSplitsBatch(batch, w, n);
    assert batch == batch[..n] + batch[n..];
  }

  /** The backlog after a pass: its failures, plus what was pushed meanwhile. */
  lemma {:induction false} Backlog(batch: seq<Envelope>, w: World<Envelope>, n: nat)
    requires n <= |batch|
    ensures |Requeued(batch, w, n)| == n - |Successes(batch, w, n)| + |Pushed(w, n)|
  {
    PassInterleaves(batch, w, n);
    InterleavesCounts(Failures(batch, w, n), Pushed(w, n), Requeued(batch, w, n));
    PassSplitsBatch(batch, w, n);
  }

  /** With nobody else pushing, the queue is exactly the failures in their
      original order, and so never grows. */
  lemma {:induction false} QuietPass(batch: seq<Envelope>, w: World<Envelope>, n: nat)
    requires n <= |batch| && forall i: nat :: i < n ==> w.Arrivals(i) == []
    ensures Requeued(batch, w, n) == Failures(batch, w, n)
    ensures |Requeued(batch, w, n)| <= n
  {
    if n > 0 {
      QuietPass(batch, w, n - 1);
      assert Requeued(batch, w, n - 1) + w.Arrivals(n - 1) == Requeued(batch, w, n - 1);
    }
  }

  /** Such a pass empties the queue iff every send of it succeeded. */
  lemma {:induction false} NoFailures(batch: seq<Envelope>, w: World<Envelope>, n: nat)
    requires n <= |batch|
    ensures Failures(batch, w, n) == [] <==> forall i: nat :: i < n ==> w.Succeeds(i)
  {
    if n > 0 {
      NoFailures(batch, w, n - 1);
    }
  }

  // ---------------------------------------------------------------------------
  // And what it is, in terms of what was given
  // ---------------------------------------------------------------------------

  function Concat<T>(xss: seq<seq<T>>): seq<T> {
    if xss == [] then [] else Concat(xss[..|xss| - 1]) + xss[|xss| - 1]
  }

  /** What others push during n attempts is all they were given to push, in order. */
  lemma {:induction false} PushedIsOthers(w: World<Envelope>, n: nat)
    ensures Pushed(w, n) == Concat(if n < |w.others| then w.others[..n] else w.others)
  {
    if n > 0 {
      PushedIsOthers(w, n - 1);
      if n <= |w.others| {
        assert w.others[..n][..n - 1] == w.others[..n - 1] && (n == |w.others| ==> w.others[..n] == w.others);
      }
    }
  }

  lemma {:induction false} InBatch(batch: seq<Envelope>, w: World<Envelope>, n: nat)
    requires n <= |batch|
    ensures forall x :: x in Successes(batch, w, n) || x in Failures(batch, w, n) ==> x in batch[..n]
  {
    if n > 0 {
      InBatch(batch, w, n - 1);
      assert batch[..n] == batch[..n - 1] + [batch[n - 1]];
    }
  }

  /** Attempt i decides what becomes of envelope i, and of no other. */
  lemma {:induction false} EachByItsAnswer(batch: seq<Envelope>, w: World<Envelope>, n: nat, i: nat)
    requires i < n <= |batch| && Distinct(batch)
    ensures batch[i] in Successes(batch, w, n) <==> i < |w.answers| && w.answers[i]
    ensures batch[i] in Failures(batch, w, n) <==> !(i < |w.answers| && w.answers[i])
  {
    if i < n - 1 {
      EachByItsAnswer(batch, w, n - 1, i);
    } else {
      InBatch(batch, w, n - 1);
      assert batch[i] !in batch[..n - 1];
    }
  }

  /** A pass goes on while no attempt has found the context done, and no further. */
  lemma PassGoesOn(size: nat, w: World<Envelope>)
    ensures var n := Attempts(size, w);
            && n <= size && (size > 0 ==> n > 0)
            && (forall j: nat :: j + 1 < n && j < |w.done| ==> !w.done[j])
            && (Stopped(n, w) <==> 0 < n <= |w.done| && w.done[n - 1])
            && (n < size ==> Stopped(n, w))
  {
    var n := Attempts(size, w);
    forall j: nat | j + 1 < n && j < |w.done|
      ensures !w.done[j]
    {
      assert !w.Cancelled(j);
    }
  }

  /** A pass, in terms of what was given: after m attempts it is over, or breaks off
      right after the first that finds the context done; sent and failed, each in order,
      are the part attempted, and the queue merges the failed with what others pushed. */
  ghost predicate PassShape(batch: seq<Envelope>, others: seq<seq<Envelope>>, done: seq<bool>, m: nat,
                            queue: seq<Envelope>, sent: seq<Envelope>, failed: seq<Envelope>, tail: seq<Envelope>,
                            stop: bool)
    requires |batch| <= |others| && |batch| <= |done|
  {
    && m <= |batch| && (batch != [] ==> m > 0) && tail == batch[m..]
    && (stop <==> m > 0 && done[m - 1]) && (m < |batch| ==> stop) && (forall j :: 0 <= j < m - 1 ==> !done[j])
    && Interleaves(sent, failed, batch[..m]) && Interleaves(failed, Concat(others[..m]), queue)
  }

  lemma PassHasShape(batch: seq<Envelope>, w: World<Envelope>)
    requires |batch| <= |w.others| && |batch| <= |w.done|
    ensures var m := Attempts(|batch|, w);
            PassShape(batch, w.others, w.done, m, Requeued(batch, w, m), Successes(batch, w, m), Failures(batch, w, m),
                      batch[m..], Stopped(m, w))
  {
    var m := Attempts(|batch|, w);
    PassGoesOn(|batch|, w);
    BatchInterleaves(batch, w, m);
    PassInterleaves(batch, w, m);
    PushedIsOthers(w, m);
    assert m == |w.others| ==> w.others[..m] == w.others;
  }
}
