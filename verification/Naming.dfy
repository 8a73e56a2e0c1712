/** The strings the framework builds with `fmt.Sprintf`: envelope ids and the
    synthetic registry keys of children without a usable node-id. */
module Naming {
  // ---------------------------------------------------------------------------
  // Decimal printing (the %d verb)
  // ---------------------------------------------------------------------------

  function Digit(d: nat): char
    requires d < 10
  {
    ('0' as int + d) as char
  }

  function Decimal(n: nat): string {
    if n < 10 then [Digit(n)] else Decimal(n / 10) + [Digit(n % 10)]
  }

  function FormatInt(i: int): string {
    if i < 0 then "-" + Decimal(-i) else Decimal(i)
  }

  /** Reads a string of digits back as a number. */
  function ValueOf(s: string): int {
    if s == [] then 0 else 10 * ValueOf(s[..|s| - 1]) + (s[|s| - 1] as int - '0' as int)
  }

  ghost predicate NoDash(s: string) {
    '-' !in s
  }

  /** As %d prints it: digits only, and no leading zero. */
  ghost predicate Canonical(s: string) {
    s != [] && (forall k :: 0 <= k < |s| ==> '0' <= s[k] <= '9') && (s[0] == '0' ==> |s| == 1)
  }

  lemma {:induction false} DecimalRoundTrip(n: nat)
    ensures ValueOf(Decimal(n)) == n
    ensures Decimal(n) != [] && NoDash(Decimal(n))
  {
    if n < 10 {
      assert Decimal(n)[..0] == [];
    } else {
      DecimalRoundTrip(n / 10);
      assert Decimal(n)[..|Decimal(n)| - 1] == Decimal(n / 10);
    }
  }

  lemma {:induction false} DecimalIsCanonical(n: nat)
    ensures Canonical(Decimal(n)) && (Decimal(n)[0] == '0' ==> n == 0)
  {
    if n >= 10 {
      DecimalIsCanonical(n / 10);
    }
  }

  /** Reads back what FormatInt prints. */
  function ReadInt(s: string): int {
    if s != [] && s[0] == '-' then -ValueOf(s[1..]) else ValueOf(s)
  }

  lemma FormatIntRoundTrip(i: int)
    ensures ReadInt(FormatInt(i)) == i && FormatInt(i) != []
    ensures Canonical(if i < 0 then FormatInt(i)[1..] else FormatInt(i))
  {
    DecimalRoundTrip(if i < 0 then -i else i);
    DecimalIsCanonical(if i < 0 then -i else i);
    if i < 0 {
      assert FormatInt(i)[1..] == Decimal(-i);
    } else {
      assert FormatInt(i)[0] in Decimal(i);
    }
  }

  lemma DecimalInjective(m: nat, n: nat)
    ensures Decimal(m) == Decimal(n) <==> m == n
  {
    DecimalRoundTrip(m);
    DecimalRoundTrip(n);
  }

  lemma NothingAfterTheDash(a: string, x: string)
    requires NoDash(x)
    ensures var s := a + "-" + x; s[|a|] == '-' && forall i :: |a| < i < |s| ==> s[i] != '-'
  {
    var s := a + "-" + x;
    assert forall i :: |a| < i < |s| ==> s[i] == x[i - |a| - 1];
  }

  /** A string splits at its last dash in one way only. */
  lemma LastDash(a: string, x: string, b: string, y: string)
    requires NoDash(x) && NoDash(y)
    requires a + "-" + x == b + "-" + y
    ensures a == b && x == y
  {
    var s := a + "-" + x;
    NothingAfterTheDash(a, x);
    NothingAfterTheDash(b, y);
    assert |a| == |b|;
    assert a == s[..|a|] && b == s[..|b|];
    assert x == s[|a| + 1..] && y == s[|b| + 1..];
  }

  // ---------------------------------------------------------------------------
  // Envelope ids
  // ---------------------------------------------------------------------------

  function EnvelopeId(nodeId: string, nanos: int): string {
    nodeId + "-" + FormatInt(nanos)
  }

  /** An id is the node's, a dash, and the clock reading, in its one decimal form. */
  ghost predicate Names(id: string, nodeId: string, nanos: int) {
    && |id| > |nodeId| + 1 && id[..|nodeId| + 1] == nodeId + "-" && ReadInt(id[|nodeId| + 1..]) == nanos
    && Canonical(if nanos < 0 then id[|nodeId| + 2..] else id[|nodeId| + 1..])
  }

  lemma EnvelopeIdReadsBack(nodeId: string, nanos: int)
    ensures Names(EnvelopeId(nodeId, nanos), nodeId, nanos)
  {
    var id := EnvelopeId(nodeId, nanos);
    FormatIntRoundTrip(nanos);
    assert id == (nodeId + "-") + FormatInt(nanos);
    assert id[|nodeId| + 1..] == FormatInt(nanos);
    if nanos < 0 {
      assert id[|nodeId| + 2..] == FormatInt(nanos)[1..];
    }
  }

  /** The one way two different (node id, clock reading) pairs share an id: the
      first clock reads before 1970 and its minus sign is read as the end of the
      second node's id. */
  predicate SignMistakenForDash(a: string, n: int, b: string, m: int) {
    n < 0 && m == -n && b == a + "-"
  }

  function Magnitude(n: int): nat {
    if n < 0 then -n else n
  }

  // All of an envelope id before its last dash.
  function Stem(a: string, n: int): string {
    if n < 0 then a + "-" else a
  }

  lemma EnvelopeIdCollision(a: string, n: int, b: string, m: int)
    ensures EnvelopeId(a, n) == EnvelopeId(b, m)
       <==> (a == b && n == m) || SignMistakenForDash(a, n, b, m) || SignMistakenForDash(b, m, a, n)
  {
    var x, y := Magnitude(n), Magnitude(m);
    DecimalRoundTrip(x);
    DecimalRoundTrip(y);
    assert EnvelopeId(a, n) == Stem(a, n) + "-" + Decimal(x);
    assert EnvelopeId(b, m) == Stem(b, m) + "-" + Decimal(y);
    if EnvelopeId(a, n) == EnvelopeId(b, m) {
      LastDash(Stem(a, n), Decimal(x), Stem(b, m), Decimal(y));
      DecimalInjective(x, y);
      if n < 0 && m < 0 {
        assert a == Stem(a, n)[..|a|] && b == Stem(b, m)[..|b|];
      }
    }
  }

  /** From 1970 on an id names its node and its clock reading, whatever dashes
      the node id contains. */
  lemma EnvelopeIdInjective(a: string, n: nat, b: string, m: nat)
    ensures EnvelopeId(a, n) == EnvelopeId(b, m) <==> a == b && n == m
  {
    EnvelopeIdCollision(a, n, b, m);
  }

  /** Before 1970 it does not: node "a" at -5 and node "a-" at 5. */
  lemma NegativeClockCollides()
    ensures EnvelopeId("a", -5) == EnvelopeId("a-", 5)
  {
    EnvelopeIdCollision("a", -5, "a-", 5);
  }

  // ---------------------------------------------------------------------------
  // Registry keys
  // ---------------------------------------------------------------------------

  function AnonKey(n: nat): string {
    "(anonymous-" + Decimal(n) + ")"
  }

  function DupKey(id: string, n: nat): string {
    id + "(dup-" + Decimal(n) + ")"
  }

  /** An id that some registration could be given as its synthetic key. */
  ghost predicate Synthetic(id: string) {
    || (exists n: nat :: n > 0 && id == AnonKey(n))
    || (exists p, n: nat :: n > 0 && p != "" && id == DupKey(p, n))
  }

  function NumberedKey(stem: string, n: nat): string {
    stem + "-" + Decimal(n) + ")"
  }

  lemma NumberedKeyInjective(a: string, m: nat, b: string, n: nat)
    ensures NumberedKey(a, m) == NumberedKey(b, n) <==> a == b && m == n
  {
    var s, r := NumberedKey(a, m), NumberedKey(b, n);
    if s == r {
      DecimalRoundTrip(m);
      DecimalRoundTrip(n);
      assert s[..|s| - 1] == a + "-" + Decimal(m);
      assert r[..|r| - 1] == b + "-" + Decimal(n);
      LastDash(a, Decimal(m), b, Decimal(n));
      DecimalInjective(m, n);
    }
  }

  lemma AnonKeyInjective(m: nat, n: nat)
    ensures AnonKey(m) == AnonKey(n) <==> m == n
  {
    NumberedKeyInjective("(anonymous", m, "(anonymous", n);
    assert AnonKey(m) == NumberedKey("(anonymous", m);
    assert AnonKey(n) == NumberedKey("(anonymous", n);
  }

  lemma DupKeyInjective(a: string, m: nat, b: string, n: nat)
    ensures DupKey(a, m) == DupKey(b, n) <==> a == b && m == n
  {
    NumberedKeyInjective(a + "(dup", m, b + "(dup", n);
    assert DupKey(a, m) == NumberedKey(a + "(dup", m);
    assert DupKey(b, n) == NumberedKey(b + "(dup", n);
    if a + "(dup" == b + "(dup" {
      assert a == (a + "(dup")[..|a|] && b == (b + "(dup")[..|b|];
    }
  }

  /** The first of each. */
  lemma KeyExamples()
    ensures AnonKey(1) == "(anonymous-1)" && DupKey("a", 10) == "a(dup-10)"
  {
    assert Decimal(10) == Decimal(1) + [Digit(0)];
  }

  lemma AnonKeyIsNoDupKey(m: nat, b: string, n: nat)
    ensures AnonKey(m) != DupKey(b, n)
  {
    NumberedKeyInjective("(anonymous", m, b + "(dup", n);
    assert AnonKey(m) == NumberedKey("(anonymous", m);
    assert DupKey(b, n) == NumberedKey(b + "(dup", n);
    var left, right := "(anonymous", b + "(dup";
    assert left[|left| - 1] == 's' && right[|right| - 1] == 'p';
  }
}
