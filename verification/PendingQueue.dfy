/** The in-memory queue of envelopes that could not be forwarded, with Go's
    slices written out: a slice is a backing array and a length. */
module PendingQueue {
  datatype Envelope = Envelope(id: string, kind: string, payload: seq<bv8>, timestamp: int)

  class Queue {
    ghost var contents: seq<Envelope>
    // items, the slice: its backing array (null for the nil slice) and its length.
    var data: array?<Envelope>
    var len: nat

    ghost predicate Valid()
      reads this, data
    {
      && len == |contents|
      && (data == null ==> len == 0)
      && (data != null ==> len <= data.Length && data[..len] == contents)
    }

    constructor ()
      ensures Valid() && contents == [] && data == null
    {
      data, len, contents := null, 0, [];
    }

    /** `append`: in place while the backing array has room, else into a fresh
        array, so that no array but the queue's own is ever written. */
    method Push(env: Envelope)
      requires Valid()
      modifies this, data
      ensures Valid() && contents == old(contents) + [env]
      ensures data != null && (data == old(data) || fresh(data))
    {
      if data != null && len < data.Length {
        data[len] := env;
      } else {
        var grown := new Envelope[2 * len + 1](_ => env);
        for i := 0 to len
          invariant data == old(data) && len == old(len) && contents == old(contents) && Valid() && fresh(grown)
          invariant grown[..i] == contents[..i] && grown[len] == env
        {
          assert data[..len][i] == contents[i];
          grown[i] := data[i];
        }
        data := grown;
      }
      len, contents := len + 1, contents + [env];
    }

    /** Hands the slice over and starts again from nil: the caller's array is
        not the queue's any more. */
    method Drain() returns (slice: array?<Envelope>, n: nat)
      requires Valid()
      modifies this
      ensures Valid() && contents == [] && data == null
      ensures slice == old(data) && n == |old(contents)|
      ensures if slice == null then n == 0 else n <= slice.Length && slice[..n] == old(contents)
    {
      slice, n := data, len;
      data, len, contents := null, 0, [];
    }
  }
}
