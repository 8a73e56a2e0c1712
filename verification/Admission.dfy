/** The approval policy and the registry together: a state machine over the child
    RPCs a server handles and the edits of the allow list. An RPC is checked, the
    outcome is recorded in the pending map in a separate step, and only then does
    a Downstream RPC register. */
module Admission {
  import opened Naming
  import opened Policy
  import opened Rejections
  import Registry
  import RegistryKeys

  datatype Rpc = Upstream | Downstream

  datatype Stage =
    | Opened
    | Denied(reason: Refusal)    // the hook returned an error, not yet recorded
    | Granted                    // the hook returned nil, not yet cleared
    | Admitted                   // authorize returned nil
    | Registered(session: nat)   // registerChild returned
    | Closed

  // allowedThen is history: the allow list at the moment of the check.
  datatype Call = Call(rpc: Rpc, claimed: string, peer: Peer, stage: Stage, allowedThen: set<string>)

  // decisions, trace and callOf are history: the decisions recorded, the actions
  // of the registry so far, and for each of its sessions the call behind it.
  datatype State = State(
    allowed: set<string>,
    pending: map<string, PendingChild>,
    calls: seq<Call>,
    registry: Registry.State,
    decisions: seq<Decision>,
    trace: seq<Registry.Action>,
    callOf: seq<nat>)

  datatype Action =
    | Add(id: string)
    | Remove(id: string)
    | OpenRpc(rpc: Rpc, claimed: string, peer: Peer)
    | Check(i: nat)
    | Record(i: nat, now: int)
    | Clear(i: nat)
    | Register(i: nat)
    | Elsewhere(step: Registry.Action)   // the registry's own steps

  const INITIAL := State({}, map[], [], Registry.INITIAL, [], [], [])

  function At(s: State, i: nat, stage: Stage): State
    requires i < |s.calls|
  {
    s.(calls := s.calls[i := s.calls[i].(stage := stage)])
  }

  function InRegistry(s: State, a: Registry.Action): State {
    s.(registry := Registry.Next(s.registry, a), trace := s.trace + [a])
  }

  function Decide(s: State, d: Decision): State {
    s.(pending := Apply(s.pending, d), decisions := s.decisions + [d])
  }

  function Next(s: State, a: Action): State {
    match a
    case Add(id) => s.(allowed := s.allowed + {id})
    case Remove(id) => s.(allowed := s.allowed - {id})
    case OpenRpc(rpc, claimed, peer) => s.(calls := s.calls + [Call(rpc, claimed, peer, Opened, {})])
    case Check(i) =>
      if i >= |s.calls| || s.calls[i].stage != Opened then s else
      var c := s.calls[i];
      var err := Verdict(s.allowed, c.claimed, c.peer);
      s.(calls := s.calls[i := c.(stage := if err.Some? then Denied(err.value) else Granted, allowedThen := s.allowed)])
    case Record(i, now) =>
      if i >= |s.calls| || !s.calls[i].stage.Denied? then s else
      Decide(At(s, i, Closed), Rejected(s.calls[i].claimed, now, s.calls[i].stage.reason))
    case Clear(i) =>
      if i >= |s.calls| || s.calls[i].stage != Granted then s else
      Decide(At(s, i, Admitted), Approved(s.calls[i].claimed))
    case Register(i) =>
      if i >= |s.calls| || s.calls[i].stage != Admitted || s.calls[i].rpc != Downstream || s.registry.cast.Some? then s
      else
        InRegistry(At(s, i, Registered(|s.registry.sessions|)), Registry.Register(s.calls[i].claimed))
          .(callOf := s.callOf + [i])
    case Elsewhere(step) =>
      if step.Register? then s else InRegistry(s, step)
  }

  function Exec(run: seq<Action>): State {
    if run == [] then INITIAL else Next(Exec(run[..|run| - 1]), run[|run| - 1])
  }

  /** The check of call c approved it. */
  ghost predicate Passed(c: Call) {
    Entitled(c.allowedThen, c.claimed, c.peer)
  }

  ghost predicate CallOk(c: Call) {
    c.stage.Granted? || c.stage.Admitted? || c.stage.Registered? ==> Passed(c)
  }

  /** Session j was registered by a call that claimed its id and was approved. */
  ghost predicate SessionOk(s: State, j: nat)
    requires j < |s.registry.sessions|
  {
    && j < |s.callOf| && s.callOf[j] < |s.calls|
    && s.calls[s.callOf[j]].stage == Registered(j)
    && s.calls[s.callOf[j]].rpc == Downstream
    && s.calls[s.callOf[j]].claimed == s.registry.sessions[j].claimed
  }

  ghost predicate Inv(s: State) {
    && (forall i {:trigger s.calls[i]} :: 0 <= i < |s.calls| ==> CallOk(s.calls[i]))
    && (forall j {:trigger SessionOk(s, j)} :: 0 <= j < |s.registry.sessions| ==> SessionOk(s, j))
    && |s.callOf| == |s.registry.sessions|
    && s.registry == Registry.Exec(s.trace)
    && s.pending == Fold(s.decisions)
  }

  lemma InRegistryIsExec(s: State, a: Registry.Action)
    requires s.registry == Registry.Exec(s.trace)
    ensures InRegistry(s, a).registry == Registry.Exec(InRegistry(s, a).trace)
  {
    Registry.OneMore(s.trace, a);
  }

  // Only a registration adds sessions, and a session keeps the id it claimed.
  lemma StepKeepsClaims(r: Registry.State, a: Registry.Action)
    ensures var r' := Registry.Next(r, a);
            && |r'.sessions| >= |r.sessions|
            && (!a.Register? ==> |r'.sessions| == |r.sessions|)
            && forall j :: 0 <= j < |r.sessions| ==> r'.sessions[j].claimed == r.sessions[j].claimed
  {
    if !a.Register? && !a.Unregister? {
      RegistryKeys.OthersKeepKeys(r, a);
    }
  }

  lemma DecideIsFold(s: State, d: Decision)
    requires s.pending == Fold(s.decisions)
    ensures Decide(s, d).pending == Fold(Decide(s, d).decisions)
  {
    assert (s.decisions + [d])[..|s.decisions|] == s.decisions;
  }

  lemma RegistryStepKeepsInv(s: State, a: Action)
    requires Inv(s) && Next(s, a) != s && (a.Register? || a.Elsewhere?)
    ensures Inv(Next(s, a))
  {
    var s' := Next(s, a);
    var step := if a.Register? then Registry.Register(s.calls[a.i].claimed) else a.step;
    InRegistryIsExec(s, step);
    StepKeepsClaims(s.registry, step);
    forall i | 0 <= i < |s'.calls|
      ensures CallOk(s'.calls[i])
    {
      assert CallOk(s.calls[i]);
    }
    forall j | 0 <= j < |s'.registry.sessions|
      ensures SessionOk(s', j)
    {
      assert j < |s.registry.sessions| ==> SessionOk(s, j);
    }
  }

  // The stages of the calls, step by step; the registry is not concerned.
  ghost predicate CallsMoveOn(s: State, s': State) {
    && |s.calls| <= |s'.calls| && s'.registry == s.registry && s'.trace == s.trace && s'.callOf == s.callOf
    && (forall i {:trigger s'.calls[i]} :: 0 <= i < |s'.calls| ==> CallOk(s'.calls[i]))
    && (forall i {:trigger s.calls[i]} ::
          0 <= i < |s.calls| && s.calls[i].stage.Registered? ==> s'.calls[i] == s.calls[i])
  }

  lemma CallsMove(s: State, a: Action)
    requires (forall i {:trigger s.calls[i]} :: 0 <= i < |s.calls| ==> CallOk(s.calls[i]))
    requires !a.Register? && !a.Elsewhere?
    ensures CallsMoveOn(s, Next(s, a))
  {
  }

  lemma CallStepKeepsInv(s: State, a: Action)
    requires Inv(s) && Next(s, a) != s && !a.Register? && !a.Elsewhere?
    ensures Inv(Next(s, a))
  {
    var s' := Next(s, a);
    CallsMove(s, a);
    if a.Record? {
      DecideIsFold(At(s, a.i, Closed), Rejected(s.calls[a.i].claimed, a.now, s.calls[a.i].stage.reason));
    } else if a.Clear? {
      DecideIsFold(At(s, a.i, Admitted), Approved(s.calls[a.i].claimed));
    }
    forall j | 0 <= j < |s'.registry.sessions|
      ensures SessionOk(s', j)
    {
      assert SessionOk(s, j);
    }
  }

  lemma NextKeepsInv(s: State, a: Action)
    requires Inv(s)
    ensures Inv(Next(s, a))
  {
    if Next(s, a) == s {
    } else if a.Register? || a.Elsewhere? {
      RegistryStepKeepsInv(s, a);
    } else {
      CallStepKeepsInv(s, a);
    }
  }

  lemma {:induction false} RunKeepsInv(run: seq<Action>)
    ensures Inv(Exec(run))
  {
    if run != [] {
      RunKeepsInv(run[..|run| - 1]);
      NextKeepsInv(Exec(run[..|run| - 1]), run[|run| - 1]);
    }
  }

  /** Every session of the registry claimed a non-empty id that was listed when it
      was checked and that its certificate carries; so registerChild never made up an
      anonymous key for it, and its key is its id or a duplicate key made from it. */
  lemma SessionsAreEntitled(run: seq<Action>, j: nat) returns (i: nat)
    requires j < |Exec(run).registry.sessions|
    ensures var s, x := Exec(run), Exec(run).registry.sessions[j];
            && i < |s.calls| && s.calls[i].stage == Registered(j) && s.calls[i].claimed == x.claimed
            && Entitled(s.calls[i].allowedThen, x.claimed, s.calls[i].peer)
            && (x.key == x.claimed || exists n: nat :: n > 0 && x.key == DupKey(x.claimed, n))
  {
    var s, x := Exec(run), Exec(run).registry.sessions[j];
    RunKeepsInv(run);
    assert SessionOk(s, j);
    i := s.callOf[j];
    assert CallOk(s.calls[i]);
    RegistryKeys.RunKeepsKeysKnown(s.trace);
    assert RegistryKeys.KeyKnown(s.registry, j);
    if x.key != x.claimed {
      var n: nat :| n <= s.registry.anonSeq && RegistryKeys.Makes(x.claimed, n, x.key);
      assert n > 0 && x.key == DupKey(x.claimed, n);
    }
  }

  ghost predicate RejectedFor(c: Call, decisions: seq<Decision>) {
    exists now, reason :: Rejected(c.claimed, now, reason) in decisions
                       && Explains(c.allowedThen, c.claimed, c.peer, reason)
  }

  // What a call has come to is what its check decided, and is on record once it has
  // been recorded.
  ghost predicate OutcomeOk(c: Call, decisions: seq<Decision>) {
    && (c.stage.Granted? || c.stage.Admitted? || c.stage.Registered? ==> Passed(c))
    && (c.stage.Admitted? || c.stage.Registered? ==> Approved(c.claimed) in decisions)
    && (c.stage.Denied? ==> !Passed(c) && Explains(c.allowedThen, c.claimed, c.peer, c.stage.reason))
    && (c.stage.Closed? ==> !Passed(c) && RejectedFor(c, decisions))
  }

  lemma OutcomeStays(c: Call, decisions: seq<Decision>, d: Decision)
    requires OutcomeOk(c, decisions)
    ensures OutcomeOk(c, decisions + [d])
  {
    if c.stage.Closed? {
      var now, reason :| Rejected(c.claimed, now, reason) in decisions
                      && Explains(c.allowedThen, c.claimed, c.peer, reason);
      assert Rejected(c.claimed, now, reason) in decisions + [d];
    }
  }

  // The call that takes a step.
  lemma OwnOutcome(s: State, a: Action, i: nat)
    requires i < |s.calls| && OutcomeOk(s.calls[i], s.decisions)
    requires (a.Check? || a.Record? || a.Clear? || a.Register?) && a.i == i
    ensures OutcomeOk(Next(s, a).calls[i], Next(s, a).decisions)
  {
    var s' := Next(s, a);
    if a.Record? && s.calls[i].stage.Denied? {
      assert Rejected(s.calls[i].claimed, a.now, s.calls[i].stage.reason) in s'.decisions;
    }
  }

  lemma NextKeepsOutcome(s: State, a: Action, i: nat)
    requires i < |Next(s, a).calls| && (i < |s.calls| ==> OutcomeOk(s.calls[i], s.decisions))
    ensures OutcomeOk(Next(s, a).calls[i], Next(s, a).decisions)
  {
    if (a.Check? || a.Record? || a.Clear? || a.Register?) && a.i == i && i < |s.calls| {
      OwnOutcome(s, a, i);
    } else if i < |s.calls| && a.Record? && a.i < |s.calls| {
      OutcomeStays(s.calls[i], s.decisions, Rejected(s.calls[a.i].claimed, a.now, NoNodeId));
      if s.calls[a.i].stage.Denied? {
        OutcomeStays(s.calls[i], s.decisions, Rejected(s.calls[a.i].claimed, a.now, s.calls[a.i].stage.reason));
      }
    } else if i < |s.calls| && a.Clear? && a.i < |s.calls| {
      OutcomeStays(s.calls[i], s.decisions, Approved(s.calls[a.i].claimed));
    }
  }

  /** Whatever happens to the allow list meanwhile, a call is let through iff it was
      entitled when it was checked, and else refused for the first check that failed;
      either is on record as soon as the call goes on or ends. */
  lemma {:induction false} OutcomesAreRecorded(run: seq<Action>, i: nat)
    requires i < |Exec(run).calls|
    ensures var c, decisions := Exec(run).calls[i], Exec(run).decisions;
            && (!c.stage.Opened? ==> (c.stage.Granted? || c.stage.Admitted? || c.stage.Registered? <==> Passed(c)))
            && (c.stage.Admitted? || c.stage.Registered? ==> Approved(c.claimed) in decisions)
            && (c.stage.Denied? ==> Explains(c.allowedThen, c.claimed, c.peer, c.stage.reason))
            && (c.stage.Closed? ==> RejectedFor(c, decisions))
    ensures OutcomeOk(Exec(run).calls[i], Exec(run).decisions)
  {
    if run != [] {
      var before := Exec(run[..|run| - 1]);
      if i < |before.calls| {
        OutcomesAreRecorded(run[..|run| - 1], i);
      }
      NextKeepsOutcome(before, run[|run| - 1], i);
    }
  }

  // In one go, with nobody else in between.
  ghost predicate RegistersIn(s: State, s': State, i: nat)
    requires i < |s.calls|
  {
    var j := |s.registry.sessions|;
    && |s'.registry.sessions| == j + 1 && |s'.calls| == |s.calls| && s'.calls[i].stage == Registered(j)
    && s'.registry.sessions[j].claimed == s.calls[i].claimed && s'.registry.sessions[j].phase.Serving?
    && s.calls[i].claimed !in s'.pending
  }

  lemma GoesThrough(s: State, i: nat)
    requires i < |s.calls| && s.calls[i].stage.Opened? && s.calls[i].rpc.Downstream? && s.registry.cast.None?
    requires Entitled(s.allowed, s.calls[i].claimed, s.calls[i].peer)
    ensures RegistersIn(s, Next(Next(Next(s, Check(i)), Clear(i)), Register(i)), i)
  {
    var s1 := Next(s, Check(i));
    assert s1.calls[i] == s.calls[i].(stage := Granted, allowedThen := s.allowed);
    var s2 := Next(s1, Clear(i));
    assert s2.calls[i] == s1.calls[i].(stage := Admitted) && s.calls[i].claimed !in s2.pending;
  }

  lemma OneMore(run: seq<Action>, a: Action)
    ensures Exec(run + [a]) == Next(Exec(run), a)
  {
    assert (run + [a])[..|run|] == run;
  }

  lemma ThreeMore(run: seq<Action>, a: Action, b: Action, c: Action)
    ensures Exec(run + [a, b, c]) == Next(Next(Next(Exec(run), a), b), c)
  {
    OneMore(run, a);
    OneMore(run + [a], b);
    OneMore(run + [a] + [b], c);
    assert run + [a] + [b] + [c] == run + [a, b, c];
  }

  /** And a call that is entitled can register, as soon as no broadcast holds mu. */
  lemma EntitledCanRegister(run: seq<Action>, i: nat)
    requires i < |Exec(run).calls| && Exec(run).calls[i].stage.Opened? && Exec(run).calls[i].rpc.Downstream?
    requires Entitled(Exec(run).allowed, Exec(run).calls[i].claimed, Exec(run).calls[i].peer)
    requires Exec(run).registry.cast.None?
    ensures RegistersIn(Exec(run), Exec(run + [Check(i), Clear(i), Register(i)]), i)
  {
    GoesThrough(Exec(run), i);
    ThreeMore(run, Check(i), Clear(i), Register(i));
  }

  /** Only ids of these are ever listed. */
  ghost predicate Lists(run: seq<Action>, ids: iset<string>) {
    forall a :: a in run && a.Add? ==> a.id in ids
  }

  ghost function Named(ids: iset<string>): iset<string> {
    iset id | id in ids && id != ""
  }

  ghost predicate Within(allowed: set<string>, ids: iset<string>) {
    forall id :: id in allowed ==> id in ids
  }

  ghost predicate ListInv(s: State, ids: iset<string>) {
    && Within(s.allowed, ids)
    && (forall i {:trigger s.calls[i]} :: 0 <= i < |s.calls| ==> Within(s.calls[i].allowedThen, ids))
    && RegistryKeys.ClaimsFrom(s.trace, Named(ids))
  }

  lemma NextKeepsListInv(s: State, a: Action, ids: iset<string>)
    requires Inv(s) && ListInv(s, ids) && (a.Add? ==> a.id in ids)
    ensures ListInv(Next(s, a), ids)
  {
    var s' := Next(s, a);
    if a.Register? && s' != s {
      assert CallOk(s.calls[a.i]);
      assert Within(s.calls[a.i].allowedThen, ids);
    }
  }

  lemma {:induction false} RunKeepsListInv(run: seq<Action>, ids: iset<string>)
    requires Lists(run, ids)
    ensures ListInv(Exec(run), ids)
  {
    if run != [] {
      var front := run[..|run| - 1];
      assert run == front + [run[|run| - 1]];
      RunKeepsListInv(front, ids);
      RunKeepsInv(front);
      NextKeepsListInv(Exec(front), run[|run| - 1], ids);
    }
  }

  /** Whatever is removed from the list meanwhile, every session that has not
      unregistered has the registry entry of its key, if no listed id is a
      duplicate key that another can be given. */
  lemma SessionsKeepEntries(run: seq<Action>, ids: iset<string>)
    requires Lists(run, ids) && !RegistryKeys.Clash(Named(ids))
    ensures RegistryKeys.AllHaveEntries(Exec(run).registry)
  {
    RunKeepsInv(run);
    RunKeepsListInv(run, ids);
    RegistryKeys.RunKeepsKeyInv(Exec(run).trace, Named(ids));
  }

  // A child on the list, with its certificate, gets itself registered.
  function AdmitScript(s: State, id: string): seq<Action> {
    [Add(id)] + [OpenRpc(Downstream, id, Tls([id]))] + [Check(|s.calls|)] + [Clear(|s.calls|)] + [Register(|s.calls|)]
  }

  lemma Approves(s: State, id: string)
    requires id != "" && s.registry.cast.None?
    ensures var i := |s.calls|;
            var s3 := Next(Next(Next(s, Add(id)), OpenRpc(Downstream, id, Tls([id]))), Check(i));
            i < |s3.calls| && s3.calls[i].stage == Granted && s3.calls[i].claimed == id && s3.calls[i].rpc == Downstream
            && s3.registry == s.registry
  {
  }

  lemma Enters(s: State, i: nat)
    requires i < |s.calls| && s.calls[i].stage == Granted && s.calls[i].rpc == Downstream && s.registry.cast.None?
    ensures Next(Next(s, Clear(i)), Register(i)).registry
         == Registry.Next(s.registry, Registry.Register(s.calls[i].claimed))
  {
  }

  lemma FiveMore(run: seq<Action>, a: Action, b: Action, c: Action, d: Action, e: Action)
    ensures Exec(run + [a] + [b] + [c] + [d] + [e]) == Next(Next(Next(Next(Next(Exec(run), a), b), c), d), e)
  {
    OneMore(run, a);
    OneMore(run + [a], b);
    OneMore(run + [a] + [b], c);
    OneMore(run + [a] + [b] + [c], d);
    OneMore(run + [a] + [b] + [c] + [d], e);
  }

  lemma Admits(run: seq<Action>, id: string)
    requires id != "" && Exec(run).registry.cast.None?
    ensures Exec(run + AdmitScript(Exec(run), id)).registry == Registry.Next(Exec(run).registry, Registry.Register(id))
  {
    var s, i := Exec(run), |Exec(run).calls|;
    var r1 := run + [Add(id)];
    var r2 := r1 + [OpenRpc(Downstream, id, Tls([id]))];
    var r3 := r2 + [Check(i)];
    var r4 := r3 + [Clear(i)];
    Approves(s, id);
    Enters(Next(Next(Next(s, Add(id)), OpenRpc(Downstream, id, Tls([id]))), Check(i)), i);
    assert run + AdmitScript(s, id) == r4 + [Register(i)];
    FiveMore(run, Add(id), OpenRpc(Downstream, id, Tls([id])), Check(i), Clear(i), Register(i));
  }

  lemma {:induction false} Replay(steps: seq<Registry.Action>, ids: iset<string>) returns (run: seq<Action>)
    requires RegistryKeys.OnlyRegisters(steps, Named(ids))
    ensures Lists(run, ids) && Exec(run).registry == Registry.Exec(steps) && Exec(run).registry.cast.None?
  {
    run := [];
    if steps != [] {
      var front, a := steps[..|steps| - 1], steps[|steps| - 1];
      assert steps == front + [a];
      run := Replay(front, ids);
      Admits(run, a.claimed);
      run := run + AdmitScript(Exec(run), a.claimed);
    }
  }

  /** With the policy installed, every run that lists only these ids keeps every
      session's entry iff none of them is a duplicate key that another of them can
      be given. Ids that look anonymous do no harm: nobody is given such a key. */
  lemma SafeIffNoClash(ids: iset<string>)
    ensures (forall run :: Lists(run, ids) ==> RegistryKeys.AllHaveEntries(Exec(run).registry))
       <==> !RegistryKeys.Clash(Named(ids))
  {
    if RegistryKeys.Clash(Named(ids)) {
      var steps := RegistryKeys.ClashTakesKey(Named(ids));
      var run := Replay(steps, ids);
    } else {
      forall run | Lists(run, ids)
        ensures RegistryKeys.AllHaveEntries(Exec(run).registry)
      {
        SessionsKeepEntries(run, ids);
      }
    }
  }

  lemma StepKeepsSession(s: State, a: Action, j: nat)
    requires j < |s.registry.sessions| && !s.registry.sessions[j].phase.Gone? && a != Elsewhere(Registry.Unregister(j))
    ensures var s' := Next(s, a);
            && j < |s'.registry.sessions| && !s'.registry.sessions[j].phase.Gone?
            && s'.registry.sessions[j].claimed == s.registry.sessions[j].claimed
  {
    if a.Elsewhere? && !a.step.Register? && !a.step.Unregister? {
      RegistryKeys.OthersKeepKeys(s.registry, a.step);
    }
  }

  lemma {:induction false} OnlyItsHandlerEnds(run: seq<Action>, more: seq<Action>, j: nat)
    requires j < |Exec(run).registry.sessions| && !Exec(run).registry.sessions[j].phase.Gone?
    requires Elsewhere(Registry.Unregister(j)) !in more
    ensures var r, r' := Exec(run).registry, Exec(run + more).registry;
            j < |r'.sessions| && !r'.sessions[j].phase.Gone? && r'.sessions[j].claimed == r.sessions[j].claimed
    decreases |more|
  {
    if more == [] {
      assert run + more == run;
    } else {
      var front, a := more[..|more| - 1], more[|more| - 1];
      assert more == front + [a] && run + more == run + front + [a];
      OnlyItsHandlerEnds(run, front, j);
      OneMore(run + front, a);
      StepKeepsSession(Exec(run + front), a, j);
    }
  }

  /** Taking an id off the list disconnects nobody: whatever happens next, a session
      goes only when its own handler unregisters it, and until then its key leads to
      its channel, unless listed ids clash. */
  lemma RemoveDisconnectsNobody(run: seq<Action>, id: string, more: seq<Action>, j: nat, ids: iset<string>)
    requires j < |Exec(run).registry.sessions| && !Exec(run).registry.sessions[j].phase.Gone?
    requires Elsewhere(Registry.Unregister(j)) !in more
    ensures var r, r' := Exec(run).registry, Exec(run + ([Remove(id)] + more)).registry;
            && j < |r'.sessions| && !r'.sessions[j].phase.Gone? && r'.sessions[j].claimed == r.sessions[j].claimed
            && (Lists(run + more, ids) && !RegistryKeys.Clash(Named(ids))
                ==> r'.sessions[j].key in r'.children && r'.children[r'.sessions[j].key] == j)
  {
    OnlyItsHandlerEnds(run, [Remove(id)] + more, j);
    if Lists(run + more, ids) && !RegistryKeys.Clash(Named(ids)) {
      var all := run + ([Remove(id)] + more);
      assert forall a :: a in all && a != Remove(id) ==> a in run + more;
      SessionsKeepEntries(all, ids);
      assert RegistryKeys.HasEntry(Exec(all).registry, j);
    }
  }

  /** The call has not been approved. */
  predicate Unapproved(c: Call) {
    c.stage.Opened? || c.stage.Denied? || c.stage.Closed?
  }

  lemma StepKeepsDenied(s: State, a: Action, id: string, i: nat)
    requires id !in s.allowed && a != Add(id)
    requires i < |s.calls| && s.calls[i].claimed == id ==> Unapproved(s.calls[i])
    ensures id !in Next(s, a).allowed
    ensures i < |Next(s, a).calls| && Next(s, a).calls[i].claimed == id ==> Unapproved(Next(s, a).calls[i])
  {
  }

  /** And an RPC for the id that is checked after that is never approved, so never
      registers, until the id is listed again. */
  lemma {:induction false} RemovedIsDenied(run: seq<Action>, id: string, more: seq<Action>, i: nat)
    requires Add(id) !in more
    requires i < |Exec(run).calls| ==> Unapproved(Exec(run).calls[i])
    ensures var s' := Exec(run + [Remove(id)] + more);
            && id !in s'.allowed
            && (i < |s'.calls| && s'.calls[i].claimed == id ==> Unapproved(s'.calls[i]))
    decreases |more|
  {
    if more == [] {
      OneMore(run, Remove(id));
      assert run + [Remove(id)] + more == run + [Remove(id)];
    } else {
      var front, a := more[..|more| - 1], more[|more| - 1];
      assert more == front + [a] && run + [Remove(id)] + more == run + [Remove(id)] + front + [a];
      RemovedIsDenied(run, id, front, i);
      OneMore(run + [Remove(id)] + front, a);
      StepKeepsDenied(Exec(run + [Remove(id)] + front), a, id, i);
    }
  }

  /** The pending map is what the history of recorded decisions makes it. */
  lemma PendingChildren(run: seq<Action>, id: string)
    ensures var s := Exec(run);
            && s.pending == Fold(s.decisions) && PendingIsRight(s.decisions, id)
  {
    RunKeepsInv(run);
    PendingMeans(Exec(run).decisions, id);
  }
}
