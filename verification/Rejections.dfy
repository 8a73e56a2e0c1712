/** Which children are pending approval, as the outcome of a history of decisions. */
module Rejections {
  import opened Policy

  datatype PendingChild = PendingChild(nodeId: string, firstSeen: int, lastReason: Refusal)

  datatype Decision =
    | Rejected(id: string, at: int, reason: Refusal)
    | Approved(id: string)

  /** recordRejection: only the first rejection of an id counts, and none of "". */
  function Record(m: map<string, PendingChild>, id: string, at: int, reason: Refusal): map<string, PendingChild> {
    if id == "" || id in m then m else m[id := PendingChild(id, at, reason)]
  }

  /** clearRejection. */
  function Clear(m: map<string, PendingChild>, id: string): map<string, PendingChild> {
    m - {id}
  }

  function Apply(m: map<string, PendingChild>, d: Decision): map<string, PendingChild> {
    match d
    case Rejected(id, at, reason) => Record(m, id, at, reason)
    case Approved(id) => Clear(m, id)
  }

  /** The pending map after a history, in the order the lock was taken. */
  function Fold(h: seq<Decision>): map<string, PendingChild> {
    if h == [] then map[] else Apply(Fold(h[..|h| - 1]), h[|h| - 1])
  }

  /** h[f] rejects id, and id is not approved after that. */
  ghost predicate Standing(h: seq<Decision>, f: int, id: string) {
    && 0 <= f < |h| && h[f].Rejected? && h[f].id == id
    && forall j :: f < j < |h| ==> h[j] != Approved(id)
  }

  ghost predicate ShownRight(h: seq<Decision>, f: int, id: string) {
    && Standing(h, f, id) && (forall g :: g < f ==> !Standing(h, g, id))
    && id in Fold(h) && Fold(h)[id] == PendingChild(id, h[f].at, h[f].reason)
  }

  /** An id is pending iff some rejection of it came after its last approval, and
      what is shown of it is the first such rejection; "" is never pending. */
  ghost predicate PendingIsRight(h: seq<Decision>, id: string) {
    && (id in Fold(h) <==> id != "" && exists f :: Standing(h, f, id))
    && (id in Fold(h) ==> exists f :: ShownRight(h, f, id))
  }

  lemma StandingBefore(h: seq<Decision>, f: int, id: string)
    requires h != [] && f < |h| - 1
    ensures Standing(h, f, id) <==> Standing(h[..|h| - 1], f, id) && h[|h| - 1] != Approved(id)
  {
    var front := h[..|h| - 1];
    if Standing(h, f, id) {
      assert forall j :: f < j < |front| ==> front[j] == h[j];
    }
    if Standing(front, f, id) {
      assert forall j :: f < j < |front| ==> h[j] == front[j];
    }
  }

  lemma OneDecision(h: seq<Decision>, id: string)
    requires h != [] && PendingIsRight(h[..|h| - 1], id)
    ensures PendingIsRight(h, id)
  {
    var n, front := |h| - 1, h[..|h| - 1];
    forall f | f < n
      ensures Standing(h, f, id) <==> Standing(front, f, id) && h[n] != Approved(id)
    {
      StandingBefore(h, f, id);
    }
    if id in Fold(h) {
      if id in Fold(front) {
        var f :| ShownRight(front, f, id);
        assert Standing(h, f, id) && ShownRight(h, f, id);
      } else {
        assert Standing(h, n, id) && ShownRight(h, n, id);
      }
    }
  }

  lemma {:induction false} PendingMeans(h: seq<Decision>, id: string)
    ensures PendingIsRight(h, id)
  {
    if h != [] {
      PendingMeans(h[..|h| - 1], id);
      OneDecision(h, id);
    }
  }
}
