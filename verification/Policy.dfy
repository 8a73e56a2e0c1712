/** The approval policy of the example node: an editable allow list, checked
    against the certificate of the connection. */
module Policy {
  import opened Wrappers

  // What peer.FromContext finds: nothing, a connection that is not TLS, or the
  // CommonNames of the certificates presented.
  datatype Peer = NoPeer | NotTls | Tls(commonNames: seq<string>)

  // The error of a rejected check; its text is not part of this model.
  datatype Refusal =
    | NoNodeId
    | NotAllowed(id: string)
    | NoPeerInfo
    | NoCertificate
    | NameMismatch(id: string, commonName: string)

  /** Authorize, for a given content of the allow list; None is approval. */
  function Verdict(allowed: set<string>, id: string, peer: Peer): Option<Refusal> {
    if id == "" then Some(NoNodeId)
    else if id !in allowed then Some(NotAllowed(id))
    else if peer.NoPeer? then Some(NoPeerInfo)
    else if peer.NotTls? || peer.commonNames == [] then Some(NoCertificate)
    else if peer.commonNames[0] != id then Some(NameMismatch(id, peer.commonNames[0]))
    else None
  }

  /** Exactly the children with a non-empty, listed id that their certificate
      carries are approved. */
  predicate Entitled(allowed: set<string>, id: string, peer: Peer) {
    id != "" && id in allowed && peer.Tls? && peer.commonNames != [] && peer.commonNames[0] == id
  }

  /** The reason names the first of the checks that fails. */
  predicate Explains(allowed: set<string>, id: string, peer: Peer, reason: Refusal) {
    match reason
    case NoNodeId => id == ""
    case NotAllowed(x) => x == id && id != "" && id !in allowed
    case NoPeerInfo => id != "" && id in allowed && peer.NoPeer?
    case NoCertificate => id != "" && id in allowed && (peer.NotTls? || peer == Tls([]))
    case NameMismatch(x, commonName) =>
      && x == id && id != "" && id in allowed && peer.Tls?
      && peer.commonNames != [] && peer.commonNames[0] == commonName && commonName != id
  }

  class AllowList {
    ghost var ids: set<string>
    var allowed: map<string, bool>

    ghost predicate Valid()
      reads this
    {
      allowed.Keys == ids && forall id :: id in allowed ==> allowed[id]
    }

    constructor (initial: seq<string>)
      ensures Valid() && ids == (set id | id in initial)
    {
      allowed, ids := map[], {};
      new;
      for k := 0 to |initial|
        invariant Valid() && ids == set id | id in initial[..k]
      {
        allowed := allowed[initial[k] := true];
        ids := ids + {initial[k]};
        assert initial[..k + 1] == initial[..k] + [initial[k]];
      }
      assert initial[..|initial|] == initial;
    }

    method Add(id: string)
      requires Valid()
      modifies this
      ensures Valid() && ids == old(ids) + {id}
    {
      allowed, ids := allowed[id := true], ids + {id};
    }

    method Remove(id: string)
      requires Valid()
      modifies this
      ensures Valid() && ids == old(ids) - {id}
    {
      allowed, ids := allowed - {id}, ids - {id};
    }

    /** The ids in some order, each once. */
    method List() returns (r: seq<string>)
      requires Valid()
      ensures (set id | id in r) == ids
      ensures Distinct(r)
    {
      r := [];
      var todo := allowed.Keys;
      while todo != {}
        invariant todo <= ids && forall id :: id in r <==> id in ids - todo
        invariant Distinct(r)
        decreases todo
      {
        var id :| id in todo;
        assert id !in r;
        todo, r := todo - {id}, r + [id];
      }
    }

    /** A missing key reads as false. */
    predicate Contains(id: string)
      reads this
    {
      id in allowed && allowed[id]
    }

    method Authorize(peer: Peer, id: string) returns (err: Option<Refusal>)
      requires Valid()
      ensures err == Verdict(ids, id, peer)
      ensures err == None <==> Entitled(ids, id, peer)
      ensures err.Some? ==> Explains(ids, id, peer, err.value)
    {
      if id == "" {
        return Some(NoNodeId);
      }
      if !Contains(id) {
        return Some(NotAllowed(id));
      }
      match peer
      case NoPeer => return Some(NoPeerInfo);
      case NotTls => return Some(NoCertificate);
      case Tls(names) =>
        if names == [] {
          return Some(NoCertificate);
        }
        if names[0] != id {
          return Some(NameMismatch(id, names[0]));
        }
        return None;
    }
  }
}
