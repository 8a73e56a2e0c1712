/** What a BroadcastDownstream reports, whatever order it ranges over the children
    in and whatever the handlers pop meanwhile. */
module RegistryBroadcasts {
  import opened Wrappers
  import opened PendingQueue
  import opened Registry
  import opened RegistryMailboxes

  /** The child at key has been given the envelope of the broadcast. */
  ghost predicate Given(s: State, key: string)
    requires s.cast.Some?
  {
    key in s.children && s.children[key] < |s.sessions| && s.cast.value.pos in s.sessions[s.children[key]].accepted
  }

  /** The report is right about the child at key so far. */
  ghost predicate Reported(s: State, key: string)
    requires s.cast.Some?
  {
    var c := s.cast.value;
    && (key in c.todo ==> key !in c.dropped && (!HasRoom(s, key) ==> key in c.full))
    && (key in c.todo && key in c.full && key !in c.popped ==> !HasRoom(s, key))
    && (key in c.dropped ==> key in c.full)
    && (key !in c.todo && key in c.full && key !in c.popped ==> key in c.dropped)
    && (key !in c.todo ==> (Given(s, key) <==> key !in c.dropped))
  }

  ghost predicate CastOk(s: State) {
    s.cast.Some? ==>
      var c := s.cast.value;
      && c.keys == s.children.Keys && c.todo <= c.keys
      && c.delivered + |c.dropped| + |c.todo| == |c.keys|
      && Distinct(c.dropped) && (forall k :: k in c.dropped ==> k in c.keys)
      && (forall key {:trigger Reported(s, key)} :: key in c.keys ==> Reported(s, key))
  }

  lemma BeginIsOk(s: State, env: Envelope)
    requires Inv(s) && s.cast.None?
    ensures CastOk(DoBegin(s, env))
  {
    var s' := DoBegin(s, env);
    assert |s.children| == |s.children.Keys|;
    forall key | key in s'.children
      ensures Reported(s', key)
    {
      assert HasRoom(s', key) <==> HasRoom(s, key);
    }
  }

  lemma OfferIsOk(s: State, key: string)
    requires Inv(s) && CastOk(s) && s.cast.Some? && key in s.cast.value.todo
    ensures CastOk(DoOffer(s, key))
  {
    var s', c := DoOffer(s, key), s.cast.value;
    var i := s.children[key];
    assert ChildOk(s, key) && Reported(s, key) && Ahead(s, key);
    forall k | k in c.keys
      ensures Reported(s', k)
    {
      assert ChildOk(s, k) && Reported(s, k);
      if k != key {
        assert s.children[k] != i;
        assert s'.sessions[s.children[k]] == s.sessions[s.children[k]];
      }
    }
  }

  // A handler step that pops nothing, or pops session i.
  lemma HandlerIsOk(s: State, i: nat, x: Session)
    requires Inv(s) && CastOk(s) && i < |s.sessions|
    requires x.key == s.sessions[i].key && x.accepted == s.sessions[i].accepted && x.queue == s.sessions[i].queue
    ensures CastOk(SetSession(s, i, x))
  {
    if s.cast.Some? {
      forall k | k in s.cast.value.keys
        ensures Reported(SetSession(s, i, x), k)
      {
        assert Reported(s, k);
      }
    }
  }

  lemma PopIsOk(s: State, i: nat)
    requires Inv(s) && CastOk(s) && i < |s.sessions| && s.sessions[i].queue != []
    ensures CastOk(DoPop(s, i))
  {
    if s.cast.Some? {
      var s' := DoPop(s, i);
      forall k | k in s.cast.value.keys
        ensures Reported(s', k)
      {
        assert Reported(s, k) && ChildOk(s, k);
        assert HasRoom(s, k) ==> HasRoom(s', k);
      }
    }
  }

  lemma NextKeepsCastOk(s: State, a: Action)
    requires Inv(s) && CastOk(s)
    ensures CastOk(Next(s, a))
  {
    var s' := Next(s, a);
    if s' != s && s'.cast.Some? {
      match a
      case Begin(env) => BeginIsOk(s, env);
      case Offer(key) => OfferIsOk(s, key);
      case Pop(i) => PopIsOk(s, i);
      case SendOk(i) => HandlerIsOk(s, i, s'.sessions[i]);
      case SendErr(i) => HandlerIsOk(s, i, s'.sessions[i]);
      case CtxDone(i) => HandlerIsOk(s, i, s'.sessions[i]);
      case Register(_) => case Unregister(_) => case End => case SendTo(_, _) =>
    }
  }

  lemma {:induction false} RunKeepsCastOk(run: seq<Action>)
    ensures CastOk(Exec(run))
  {
    if run != [] {
      RunKeepsInv(run[..|run| - 1]);
      RunKeepsCastOk(run[..|run| - 1]);
      NextKeepsCastOk(Exec(run[..|run| - 1]), run[|run| - 1]);
    }
  }

  /** A child whose channel is full. */
  ghost predicate HoldsSixteen(s: State, key: string) {
    key in s.children && s.children[key] < |s.sessions| && |s.sessions[s.children[key]].queue| == 16
  }

  lemma FullMeansSixteen(run: seq<Action>)
    ensures forall key :: key in FullKeys(Exec(run)) <==> HoldsSixteen(Exec(run), key)
  {
    var s := Exec(run);
    RunKeepsInv(run);
    forall key | key in s.children
      ensures key in FullKeys(s) <==> HoldsSixteen(s, key)
    {
      assert ChildOk(s, key) && MailboxOk(s.log, s.sessions[s.children[key]]);
    }
  }

  /** A broadcast that has ranged over all children: it delivered to each child or
      reports it dropped, and not both; the report has no repeats and names only
      children whose channel was full when the broadcast began, and all of those
      that were not popped since. */
  lemma BroadcastReport(run: seq<Action>)
    requires Exec(run).cast.Some? && Exec(run).cast.value.todo == {}
    ensures var s, c := Exec(run), Exec(run).cast.value;
            && c.delivered + |c.dropped| == |s.children|
            && Distinct(c.dropped) && (forall k :: k in c.dropped ==> k in c.full && k in s.children)
            && (forall k :: k in c.full && k in s.children && k !in c.popped ==> k in c.dropped)
            && (forall k :: k in s.children ==> (Given(s, k) <==> k !in c.dropped))
  {
    var s, c := Exec(run), Exec(run).cast.value;
    RunKeepsCastOk(run);
    assert |s.children| == |s.children.Keys|;
    forall k | k in s.children
      ensures Reported(s, k)
    {
    }
  }

  // ---------------------------------------------------------------------------
  // From the moment it took the lock
  // ---------------------------------------------------------------------------

  // A broadcast of env that began in state s0 is under way.
  ghost predicate UnderWay(s0: State, env: Envelope, s: State) {
    && s.children == s0.children && s.log == s0.log + [Entry(env, |s0.children|)] && |s.sessions| == |s0.sessions|
    && s.cast.Some? && s.cast.value.pos == |s0.log| && s.cast.value.full == FullKeys(s0)
  }

  // The child at key, which was full, is so until its turn, and is dropped then.
  ghost predicate StaysFull(s: State, key: string)
    requires s.cast.Some?
  {
    && HoldsSixteen(s, key)
    && (key !in s.cast.value.todo ==> key in s.cast.value.dropped)
  }

  lemma BeginIsUnderWay(s0: State, env: Envelope)
    requires s0.cast.None?
    ensures UnderWay(s0, env, Next(s0, Begin(env)))
    ensures forall key :: HoldsSixteen(s0, key) ==> StaysFull(Next(s0, Begin(env)), key)
  {
  }

  lemma NextKeepsUnderWay(s0: State, env: Envelope, s: State, a: Action)
    requires UnderWay(s0, env, s) && a != End
    ensures UnderWay(s0, env, Next(s, a))
  {
  }

  lemma NextKeepsFull(s: State, a: Action, key: string)
    requires Inv(s) && s.cast.Some? && a != End && StaysFull(s, key) && a != Pop(s.children[key])
    ensures Next(s, a).cast.Some? && StaysFull(Next(s, a), key)
  {
    assert ChildOk(s, key);
    if a.Offer? && a.key in s.cast.value.todo {
      assert Ahead(s, a.key) && ChildOk(s, a.key);
    }
  }

  lemma JustBegun(before: seq<Action>, env: Envelope)
    ensures Exec(before + [Begin(env)] + []) == Next(Exec(before), Begin(env))
  {
    assert before + [Begin(env)] + [] == before + [Begin(env)];
    OneMore(before, Begin(env));
  }

  lemma LastOf(run: seq<Action>, during: seq<Action>)
    requires during != []
    ensures run + during == run + during[..|during| - 1] + [during[|during| - 1]]
  {
  }

  lemma {:induction false} RunKeepsUnderWay(before: seq<Action>, env: Envelope, during: seq<Action>)
    requires Exec(before).cast.None? && End !in during
    ensures UnderWay(Exec(before), env, Exec(before + [Begin(env)] + during))
  {
    if during == [] {
      JustBegun(before, env);
      BeginIsUnderWay(Exec(before), env);
    } else {
      var n := |during| - 1;
      RunKeepsUnderWay(before, env, during[..n]);
      LastOf(before + [Begin(env)], during);
      OneMore(before + [Begin(env)] + during[..n], during[n]);
      NextKeepsUnderWay(Exec(before), env, Exec(before + [Begin(env)] + during[..n]), during[n]);
    }
  }

  lemma {:induction false} RunKeepsFull(before: seq<Action>, env: Envelope, during: seq<Action>, key: string)
    requires Exec(before).cast.None? && End !in during
    requires HoldsSixteen(Exec(before), key) && Pop(Exec(before).children[key]) !in during
    ensures Exec(before + [Begin(env)] + during).cast.Some? && StaysFull(Exec(before + [Begin(env)] + during), key)
  {
    if during == [] {
      JustBegun(before, env);
      BeginIsUnderWay(Exec(before), env);
    } else {
      var n := |during| - 1;
      RunKeepsFull(before, env, during[..n], key);
      RunKeepsUnderWay(before, env, during[..n]);
      LastOf(before + [Begin(env)], during);
      OneMore(before + [Begin(env)] + during[..n], during[n]);
      RunKeepsInv(before + [Begin(env)] + during[..n]);
      NextKeepsFull(Exec(before + [Begin(env)] + during[..n]), during[n], key);
    }
  }

  /** What a broadcast's report says of the moment the broadcast took the lock: of the
      children there were then, it drops only some that had 16 envelopes queued, and
      all of those whose own handler pops nothing until it has ranged over everyone;
      the rest have accepted its envelope. */
  lemma BroadcastFromStart(before: seq<Action>, env: Envelope, during: seq<Action>)
    requires Exec(before).cast.None? && End !in during
    requires Exec(before + [Begin(env)] + during).cast.Some? ==>
               Exec(before + [Begin(env)] + during).cast.value.todo == {}
    ensures Exec(before + [Begin(env)] + during).cast.Some?
    ensures var s0, s := Exec(before), Exec(before + [Begin(env)] + during);
            var dropped := s.cast.value.dropped;
            && s.children == s0.children && s.log == s0.log + [Entry(env, |s0.children|)]
            && (forall key :: key in dropped ==> HoldsSixteen(s0, key))
            && (forall key :: HoldsSixteen(s0, key) && Pop(s0.children[key]) !in during ==> key in dropped)
            && (forall key :: key in s0.children && s0.children[key] < |s.sessions| ==>
                  (key in dropped <==> |s0.log| !in s.sessions[s0.children[key]].accepted))
  {
    var run := before + [Begin(env)] + during;
    RunKeepsUnderWay(before, env, during);
    BroadcastReport(run);
    FullMeansSixteen(before);
    forall key | HoldsSixteen(Exec(before), key) && Pop(Exec(before).children[key]) !in during
      ensures key in Exec(run).cast.value.dropped
    {
      RunKeepsFull(before, env, during, key);
    }
  }
}
