/** The keys of the registry: who is registered under what, and when a
    registration takes another child's key. */
module RegistryKeys {
  import opened Naming
  import opened Registry
  import opened RegistryMailboxes

  /** The handler of session i has the registry entry of its key. */
  ghost predicate HasEntry(s: State, i: nat)
    requires i < |s.sessions|
  {
    !s.sessions[i].phase.Gone? ==> s.sessions[i].key in s.children && s.children[s.sessions[i].key] == i
  }

  ghost predicate AllHaveEntries(s: State) {
    forall i {:trigger HasEntry(s, i)} :: 0 <= i < |s.sessions| ==> HasEntry(s, i)
  }

  /** The n-th synthetic key, made for a child claiming p, is id. */
  ghost predicate Makes(p: string, n: nat, id: string) {
    n > 0 && id == if p == "" then AnonKey(n) else DupKey(p, n)
  }

  /** A key is the claimed id, or one of the synthetic keys given out so far. */
  ghost predicate KeyKnown(s: State, i: nat)
    requires i < |s.sessions|
  {
    var x := s.sessions[i];
    || (x.key == x.claimed && x.claimed != "")
    || (exists n: nat :: n <= s.anonSeq && Makes(x.claimed, n, x.key))
  }

  /** One of the ids is a synthetic key that another of them can be given. */
  ghost predicate Clash(ids: iset<string>) {
    exists id, p, n: nat :: id in ids && p in ids && Makes(p, n, id)
  }

  ghost predicate KeyInv(s: State, ids: iset<string>) {
    && AllHaveEntries(s)
    && (forall i {:trigger KeyKnown(s, i)} :: 0 <= i < |s.sessions| ==> KeyKnown(s, i) && s.sessions[i].claimed in ids)
  }

  ghost predicate ClaimsFrom(run: seq<Action>, ids: iset<string>) {
    forall a :: a in run && a.Register? ==> a.claimed in ids
  }

  ghost predicate OnlyRegisters(run: seq<Action>, ids: iset<string>) {
    forall a :: a in run ==> a.Register? && a.claimed in ids
  }

  /** A registration keeps every handler's entry iff its key was free. */
  lemma RegisterKeepsEntries(s: State, claimed: string)
    requires Inv(s) && AllHaveEntries(s)
    ensures AllHaveEntries(DoRegister(s, claimed)) <==> KeyFor(s, claimed).0 !in s.children
  {
    var s', key := DoRegister(s, claimed), KeyFor(s, claimed).0;
    if key in s.children {
      var i := s.children[key];
      assert ChildOk(s, key);
      assert HasEntry(s, i) && !HasEntry(s', i);
    } else {
      forall i | 0 <= i < |s'.sessions|
        ensures HasEntry(s', i)
      {
        assert i < |s.sessions| ==> HasEntry(s, i);
      }
    }
  }

  lemma MakesOnce(p: string, m: nat, q: string, n: nat, key: string)
    requires Makes(p, m, key) && Makes(q, n, key)
    ensures m == n
  {
    AnonKeyInjective(m, n);
    DupKeyInjective(p, m, q, n);
    AnonKeyIsNoDupKey(m, q, n);
    AnonKeyIsNoDupKey(n, p, m);
  }

  lemma FreshKeyIsFree(s: State, claimed: string, ids: iset<string>)
    requires Inv(s) && KeyInv(s, ids) && claimed in ids && !Clash(ids)
    ensures KeyFor(s, claimed).0 !in s.children
  {
    var key, m := KeyFor(s, claimed).0, s.anonSeq + 1;
    if key in s.children && key != claimed {
      assert ChildOk(s, key) && KeyKnown(s, s.children[key]);
      var x := s.sessions[s.children[key]];
      assert Makes(claimed, m, key);
      var n: nat :| n <= s.anonSeq && Makes(x.claimed, n, key);
      MakesOnce(claimed, m, x.claimed, n, key);
    }
  }

  lemma RegisterKeepsKeyInv(s: State, claimed: string, ids: iset<string>)
    requires Inv(s) && KeyInv(s, ids) && claimed in ids && !Clash(ids)
    ensures KeyInv(DoRegister(s, claimed), ids)
  {
    var s' := DoRegister(s, claimed);
    FreshKeyIsFree(s, claimed, ids);
    RegisterKeepsEntries(s, claimed);
    forall i | 0 <= i < |s'.sessions|
      ensures KeyKnown(s', i) && s'.sessions[i].claimed in ids
    {
      if i < |s.sessions| {
        assert KeyKnown(s, i);
      } else if s'.sessions[i].key != claimed {
        assert Makes(claimed, s'.anonSeq, s'.sessions[i].key);
      }
    }
  }

  lemma UnregisterKeepsKeyInv(s: State, i: nat, ids: iset<string>)
    requires KeyInv(s, ids) && i < |s.sessions| && s.sessions[i].phase.Leaving?
    ensures KeyInv(DoUnregister(s, i), ids)
  {
    var s' := DoUnregister(s, i);
    assert HasEntry(s, i);
    forall j | 0 <= j < |s'.sessions|
      ensures KeyKnown(s', j) && HasEntry(s', j) && s'.sessions[j].claimed in ids
    {
      assert KeyKnown(s, j) && HasEntry(s, j);
    }
  }

  // Nothing else touches keys.
  lemma OthersKeepKeys(s: State, a: Action)
    requires !a.Register? && !a.Unregister?
    ensures var s' := Next(s, a);
            && s'.children == s.children && s'.anonSeq == s.anonSeq && |s'.sessions| == |s.sessions|
            && forall i :: 0 <= i < |s.sessions| ==>
                 && s'.sessions[i].key == s.sessions[i].key && s'.sessions[i].claimed == s.sessions[i].claimed
                 && (s'.sessions[i].phase.Gone? <==> s.sessions[i].phase.Gone?)
  {
  }

  lemma NextKeepsKeyInv(s: State, a: Action, ids: iset<string>)
    requires Inv(s) && KeyInv(s, ids) && !Clash(ids) && (a.Register? ==> a.claimed in ids)
    ensures KeyInv(Next(s, a), ids)
  {
    var s' := Next(s, a);
    if s' == s {
    } else if a.Register? {
      RegisterKeepsKeyInv(s, a.claimed, ids);
    } else if a.Unregister? {
      UnregisterKeepsKeyInv(s, a.i, ids);
    } else {
      OthersKeepKeys(s, a);
      forall i | 0 <= i < |s'.sessions|
        ensures KeyKnown(s', i) && HasEntry(s', i) && s'.sessions[i].claimed in ids
      {
        assert KeyKnown(s, i) && HasEntry(s, i);
      }
    }
  }

  lemma {:induction false} RunKeepsKeyInv(run: seq<Action>, ids: iset<string>)
    requires ClaimsFrom(run, ids) && !Clash(ids)
    ensures KeyInv(Exec(run), ids)
  {
    if run != [] {
      RunKeepsInv(run[..|run| - 1]);
      RunKeepsKeyInv(run[..|run| - 1], ids);
      NextKeepsKeyInv(Exec(run[..|run| - 1]), run[|run| - 1], ids);
    }
  }

  /** When the claimed ids do not clash, keys and handlers that have not
      unregistered correspond one to one, each key to its own handler's channel. */
  lemma Bijection(run: seq<Action>, ids: iset<string>)
    requires ClaimsFrom(run, ids) && !Clash(ids)
    ensures var s := Exec(run);
            && (forall i :: 0 <= i < |s.sessions| && !s.sessions[i].phase.Gone?
                  ==> s.sessions[i].key in s.children && s.children[s.sessions[i].key] == i)
            && (forall key :: key in s.children ==> ChildOk(s, key))
  {
    var s := Exec(run);
    RunKeepsInv(run);
    RunKeepsKeyInv(run, ids);
    forall i | 0 <= i < |s.sessions| && !s.sessions[i].phase.Gone?
      ensures s.sessions[i].key in s.children && s.children[s.sessions[i].key] == i
    {
      assert HasEntry(s, i);
    }
    forall key | key in s.children
      ensures ChildOk(s, key)
    {
    }
  }

  /** So an unregister removes its own entry and no other. */
  lemma UnregisterRemovesOwn(run: seq<Action>, ids: iset<string>, i: nat)
    requires ClaimsFrom(run, ids) && !Clash(ids)
    requires var s := Exec(run); i < |s.sessions| && s.sessions[i].phase.Leaving? && s.cast.None?
    ensures var s, s' := Exec(run), Next(Exec(run), Unregister(i));
            && s.sessions[i].key in s.children
            && forall key :: key in s.children ==> (key in s'.children <==> s.children[key] != i)
  {
    Bijection(run, ids);
  }

  /** Ids not of synthetic shape never clash, with each other or with "". */
  lemma PlainIdsDoNotClash(ids: iset<string>)
    requires forall id :: id in ids ==> !Synthetic(id)
    ensures !Clash(ids)
  {
    forall id, p, n: nat | id in ids && p in ids
      ensures !Makes(p, n, id)
    {
      assert Makes(p, n, id) ==> Synthetic(id);
    }
  }

  ghost predicate KeysKnown(s: State) {
    forall i {:trigger KeyKnown(s, i)} :: 0 <= i < |s.sessions| ==> KeyKnown(s, i)
  }

  /** Clash or not, a key is the id its child claimed or was made from it. */
  lemma {:induction false} RunKeepsKeysKnown(run: seq<Action>)
    ensures KeysKnown(Exec(run))
  {
    if run != [] {
      RunKeepsKeysKnown(run[..|run| - 1]);
      var s, a, s' := Exec(run[..|run| - 1]), run[|run| - 1], Exec(run);
      if !a.Register? && !a.Unregister? {
        OthersKeepKeys(s, a);
      }
      forall i | 0 <= i < |s'.sessions|
        ensures KeyKnown(s', i)
      {
        if i < |s.sessions| {
          assert KeyKnown(s, i);
        } else if s'.sessions[i].key != a.claimed || a.claimed == "" {
          assert Makes(a.claimed, s'.anonSeq, s'.sessions[i].key);
        }
      }
    }
  }

  // ---------------------------------------------------------------------------
  // And when they clash, some run takes a key away
  // ---------------------------------------------------------------------------

  function ThenRegisters(first: seq<Action>, p: string, k: nat): seq<Action> {
    if k == 0 then first else ThenRegisters(first, p, k - 1) + [Register(p)]
  }

  // Session 0 waits under key id, and k synthetic keys have been given out.
  ghost predicate Waiting(s: State, id: string, p: string, n: nat, k: nat) {
    && s.cast.None? && s.anonSeq == k && |s.sessions| > 0 && s.sessions[0].key == id && s.sessions[0].phase.Serving?
    && id in s.children && (s.children[id] == 0 <==> k < n) && (p != "" ==> p in s.children)
  }

  lemma WaitsOnce(s: State, id: string, p: string, n: nat, k: nat)
    requires Makes(p, n, id) && k < n && Waiting(s, id, p, n, k)
    ensures Waiting(Next(s, Register(p)), id, p, n, k + 1)
  {
    assert Next(s, Register(p)) == DoRegister(s, p);
    var key := KeyFor(s, p).0;
    assert Makes(p, k + 1, key);
    if key == id {
      MakesOnce(p, k + 1, p, n, id);
    }
  }

  lemma WaitsOnceMore(run: seq<Action>, id: string, p: string, n: nat, k: nat)
    requires Makes(p, n, id) && k < n && Waiting(Exec(run), id, p, n, k)
    ensures Waiting(Exec(run + [Register(p)]), id, p, n, k + 1)
  {
    WaitsOnce(Exec(run), id, p, n, k);
    OneMore(run, Register(p));
  }

  lemma {:induction false} Waits(first: seq<Action>, id: string, p: string, n: nat, k: nat)
    requires Makes(p, n, id) && k <= n && Waiting(Exec(first), id, p, n, 0)
    ensures Waiting(Exec(ThenRegisters(first, p, k)), id, p, n, k)
    decreases k
  {
    if k > 0 {
      var run := ThenRegisters(first, p, k - 1);
      Waits(first, id, p, n, k - 1);
      WaitsOnceMore(run, id, p, n, k - 1);
    }
  }

  lemma {:induction false} RegistersClaim(first: seq<Action>, p: string, k: nat, ids: iset<string>)
    requires p in ids && OnlyRegisters(first, ids)
    ensures OnlyRegisters(ThenRegisters(first, p, k), ids)
    decreases k
  {
    if k > 0 {
      RegistersClaim(first, p, k - 1, ids);
    }
  }

  lemma ClashTakesKey(ids: iset<string>) returns (run: seq<Action>)
    requires Clash(ids)
    ensures OnlyRegisters(run, ids) && !AllHaveEntries(Exec(run))
  {
    var id, p, n: nat :| id in ids && p in ids && Makes(p, n, id);
    var first := [] + [Register(id)];
    OneMore([], Register(id));
    assert id != "" && id != p;
    if p != "" {
      OneMore(first, Register(p));
      first := first + [Register(p)];
    }
    run := ThenRegisters(first, p, n);
    RegistersClaim(first, p, n, ids);
    Waits(first, id, p, n, n);
    assert !HasEntry(Exec(run), 0);
  }

  /** The registry keeps every handler's entry in every run iff no claimed id is a
      synthetic key that another can be given. */
  lemma SafeIffNoClash(ids: iset<string>)
    ensures (forall run :: ClaimsFrom(run, ids) ==> AllHaveEntries(Exec(run))) <==> !Clash(ids)
  {
    if Clash(ids) {
      var run := ClashTakesKey(ids);
      assert ClaimsFrom(run, ids);
    } else {
      forall run | ClaimsFrom(run, ids)
        ensures AllHaveEntries(Exec(run))
      {
        RunKeepsKeyInv(run, ids);
      }
    }
  }

  /** For example a child that claims the id "(anonymous-1)". */
  lemma AnonymousOneClashes()
    ensures Clash(iset{"", "(anonymous-1)"})
  {
    assert AnonKey(1) == "(anonymous-1)";
    assert Makes("", 1, "(anonymous-1)");
  }
}
