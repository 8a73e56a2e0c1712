/** Bookkeeping shared by the tree machines: tokens kept in FIFO buffers, one
    buffer a spot, with a history map saying where every token is. */
module Tokens {
  function At<T, S>(pool: map<S, seq<T>>, p: S): seq<T> {
    if p in pool then pool[p] else []
  }

  /** Appends a token to the buffer at p. */
  function Put<T, S>(pool: map<S, seq<T>>, p: S, x: T): map<S, seq<T>> {
    pool[p := At(pool, p) + [x]]
  }

  /** Takes the i-th token out of the buffer at p and appends it at q. */
  function Move<T, S>(pool: map<S, seq<T>>, p: S, i: nat, q: S): map<S, seq<T>>
    requires i < |At(pool, p)| && p != q
  {
    var xs := At(pool, p);
    pool[p := xs[..i] + xs[i + 1..]][q := At(pool, q) + [xs[i]]]
  }

  /** Empties the buffer at p onto the end of the buffer at q. */
  function Pour<T, S>(pool: map<S, seq<T>>, p: S, q: S): map<S, seq<T>>
    requires p != q
  {
    pool[q := At(pool, q) + At(pool, p)][p := []]
  }

  ghost function Rehome<T, S>(home: map<T, S>, p: S, q: S): map<T, S> {
    map x | x in home :: if home[x] == p then q else home[x]
  }

  ghost function Count<T, S>(pool: map<S, seq<T>>, p: S, x: T): nat {
    multiset(At(pool, p))[x]
  }

  /** Every token that has a home is in the buffer there, once, and nowhere else;
      no buffer holds anything else. */
  ghost predicate Located<T(!new), S(!new)>(pool: map<S, seq<T>>, home: map<T, S>) {
    forall p, x :: Count(pool, p, x) == if x in home && home[x] == p then 1 else 0
  }

  lemma PutKeepsLocated<T(!new), S(!new)>(pool: map<S, seq<T>>, home: map<T, S>, p: S, x: T)
    requires Located(pool, home) && x !in home
    ensures Located(Put(pool, p, x), home[x := p])
  {
    forall q, y
      ensures Count(Put(pool, p, x), q, y) == if y in home[x := p] && home[x := p][y] == q then 1 else 0
    {
      assert Count(pool, q, y) == if y in home && home[y] == q then 1 else 0;
    }
  }

  lemma PutCounts<T(!new), S(!new)>(pool: map<S, seq<T>>, p: S, x: T, q: S, y: T)
    ensures Count(Put(pool, p, x), q, y) == Count(pool, q, y) + if q == p && y == x then 1 else 0
  {
  }

  lemma MoveCounts<T(!new), S(!new)>(pool: map<S, seq<T>>, p: S, i: nat, q: S, r: S, y: T)
    requires i < |At(pool, p)| && p != q
    ensures var x := At(pool, p)[i];
            Count(Move(pool, p, i, q), r, y) + (if r == p && y == x then 1 else 0)
            == Count(pool, r, y) + (if r == q && y == x then 1 else 0)
  {
    var xs := At(pool, p);
    assert xs == xs[..i] + [xs[i]] + xs[i + 1..];
  }

  lemma HeldMeansHome<T(!new), S(!new)>(pool: map<S, seq<T>>, home: map<T, S>, p: S, i: nat)
    requires Located(pool, home) && i < |At(pool, p)|
    ensures At(pool, p)[i] in home && home[At(pool, p)[i]] == p
  {
    var x := At(pool, p)[i];
    assert x in multiset(At(pool, p));
    assert Count(pool, p, x) == if x in home && home[x] == p then 1 else 0;
  }

  lemma MoveKeepsLocated<T(!new), S(!new)>(pool: map<S, seq<T>>, home: map<T, S>, p: S, i: nat, q: S)
    requires Located(pool, home) && i < |At(pool, p)| && p != q
    ensures var x := At(pool, p)[i];
            x in home && home[x] == p && Located(Move(pool, p, i, q), home[x := q])
  {
    var x := At(pool, p)[i];
    HeldMeansHome(pool, home, p, i);
    forall r, y
      ensures Count(Move(pool, p, i, q), r, y) == if y in home[x := q] && home[x := q][y] == r then 1 else 0
    {
      MoveCounts(pool, p, i, q, r, y);
      assert Count(pool, r, y) == if y in home && home[y] == r then 1 else 0;
    }
  }

  lemma PourKeepsLocated<T(!new), S(!new)>(pool: map<S, seq<T>>, home: map<T, S>, p: S, q: S)
    requires Located(pool, home) && p != q
    ensures Located(Pour(pool, p, q), Rehome(home, p, q))
  {
    forall r, y
      ensures Count(Pour(pool, p, q), r, y)
           == if y in Rehome(home, p, q) && Rehome(home, p, q)[y] == r then 1 else 0
    {
      assert Count(pool, r, y) == if y in home && home[y] == r then 1 else 0;
      assert Count(pool, p, y) == if y in home && home[y] == p then 1 else 0;
      assert Count(pool, q, y) == if y in home && home[y] == q then 1 else 0;
    }
  }

  lemma HomeMeansHeld<T(!new), S(!new)>(pool: map<S, seq<T>>, home: map<T, S>, x: T)
    requires Located(pool, home) && x in home
    ensures x in At(pool, home[x])
    ensures forall q :: q != home[x] ==> x !in At(pool, q)
  {
    assert Count(pool, home[x], x) == 1;
    forall q | q != home[x]
      ensures x !in At(pool, q)
    {
      assert Count(pool, q, x) == 0;
    }
  }
}
