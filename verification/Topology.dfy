/** A finite forest of framework nodes. Nodes are numbered so that a parent comes
    before its children, as every finite forest can be; a node without a parent
    is one configured without WithResolver. */
module Topology {
  import opened Wrappers

  ghost predicate WellFormed(t: seq<Option<nat>>) {
    forall n :: 0 <= n < |t| && t[n].Some? ==> t[n].value < n
  }

  type Tree = t: seq<Option<nat>> | WellFormed(t) witness []

  /** The nodes from n up to its root. */
  function Path(t: Tree, n: nat): seq<nat>
    requires n < |t|
    decreases n
  {
    [n] + if t[n].Some? then Path(t, t[n].value) else []
  }

  lemma {:induction false} PathDescends(t: Tree, n: nat)
    requires n < |t|
    ensures forall i :: 0 <= i < |Path(t, n)| ==> Path(t, n)[i] <= n
    ensures forall i, j :: 0 <= i < j < |Path(t, n)| ==> Path(t, n)[j] < Path(t, n)[i]
    decreases n
  {
    if t[n].Some? {
      PathDescends(t, t[n].value);
    }
  }

  lemma {:induction false} PathClimbs(t: Tree, n: nat, i: nat)
    requires n < |t| && i < |Path(t, n)|
    ensures Path(t, n)[i] < |t|
    ensures i + 1 < |Path(t, n)| <==> t[Path(t, n)[i]].Some?
    ensures i + 1 < |Path(t, n)| ==> t[Path(t, n)[i]].value == Path(t, n)[i + 1]
    decreases n
  {
    if i > 0 {
      PathClimbs(t, t[n].value, i - 1);
    }
  }

  /** n is a, or below a. */
  ghost predicate Under(t: Tree, a: nat, n: nat) {
    n < |t| && a in Path(t, n)
  }

  ghost predicate StrictlyUnder(t: Tree, a: nat, n: nat) {
    n != a && Under(t, a, n)
  }

  function Children(t: Tree, p: nat): set<nat> {
    set c: nat | c < |t| && t[c] == Some(p)
  }
}
