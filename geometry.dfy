/**
 * Rectangular envelopes as GeoTools' `ReferencedEnvelope` (a JTS `Envelope`) holds them:
 * either the null envelope (the state `setToNull` leaves, "no data") or a box whose
 * minimum corner is below and to the left of its maximum corner.
 */
module Geometry {

  datatype EnvelopeValue =
    | Null
    | Box(minX: real, minY: real, maxX: real, maxY: real)

  /** A JTS envelope is null exactly when it is inverted, so every box is well formed. */
  type Envelope = e: EnvelopeValue | e.Null? || (e.minX <= e.maxX && e.minY <= e.maxY) witness Null

  /** The coordinate accessors; on the null envelope JTS stores minimum 0 and maximum -1. */
  function MinX(e: Envelope): real { if e.Null? then 0.0 else e.minX }
  function MinY(e: Envelope): real { if e.Null? then 0.0 else e.minY }
  function MaxX(e: Envelope): real { if e.Null? then -1.0 else e.maxX }
  function MaxY(e: Envelope): real { if e.Null? then -1.0 else e.maxY }

  /** `outer` covers `inner`; everything covers the null envelope. */
  predicate Encloses(outer: Envelope, inner: Envelope) {
    inner.Null? ||
    (outer.Box? && outer.minX <= inner.minX && inner.maxX <= outer.maxX
                && outer.minY <= inner.minY && inner.maxY <= outer.maxY)
  }

  function Min(a: real, b: real): real { if a <= b then a else b }
  function Max(a: real, b: real): real { if a <= b then b else a }

  /**
   * `acc.expandToInclude(other)`: the result is the smallest envelope enclosing both
   * operands, and a null operand is the identity.
   */
  function ExpandToInclude(acc: Envelope, other: Envelope): (r: Envelope)
    ensures Encloses(r, acc) && Encloses(r, other)
    ensures forall c: Envelope :: Encloses(c, acc) && Encloses(c, other) ==> Encloses(c, r)
    ensures other.Null? ==> r == acc
    ensures acc.Null? ==> r == other
  {
    if other.Null? then acc
    else if acc.Null? then other
    else Box(Min(acc.minX, other.minX), Min(acc.minY, other.minY),
             Max(acc.maxX, other.maxX), Max(acc.maxY, other.maxY))
  }

  /** The fold of `ExpandToInclude` over a list, from the null envelope, in list order. */
  function UnionAll(s: seq<Envelope>): Envelope {
    if |s| == 0 then Null else ExpandToInclude(UnionAll(s[..|s| - 1]), s[|s| - 1])
  }

  lemma EnclosesAntisymmetric(a: Envelope, b: Envelope)
    requires Encloses(a, b) && Encloses(b, a)
    ensures a == b
  {
  }

  lemma EnclosesTransitive(a: Envelope, b: Envelope, c: Envelope)
    requires Encloses(a, b) && Encloses(b, c)
    ensures Encloses(a, c)
  {
  }

  /** One more fold step: the loop that appends to a list and expands an accumulator keeps the two in step. */
  lemma UnionAllAppend(s: seq<Envelope>, e: Envelope)
    ensures UnionAll(s + [e]) == ExpandToInclude(UnionAll(s), e)
  {
    assert (s + [e])[..|s|] == s;
  }

  /** The union encloses every member of the list. */
  lemma {:induction false} UnionAllEncloses(s: seq<Envelope>, i: nat)
    requires i < |s|
    ensures Encloses(UnionAll(s), s[i])
  {
    var init := s[..|s| - 1];
    if i < |s| - 1 {
      UnionAllEncloses(init, i);
      EnclosesTransitive(UnionAll(s), UnionAll(init), init[i]);
    }
  }

  /** Any envelope enclosing every member of the list encloses the union: it is the least one. */
  lemma {:induction false} UnionAllLeast(s: seq<Envelope>, c: Envelope)
    requires forall i :: 0 <= i < |s| ==> Encloses(c, s[i])
    ensures Encloses(c, UnionAll(s))
  {
    if |s| > 0 {
      var init := s[..|s| - 1];
      forall i | 0 <= i < |init| ensures Encloses(c, init[i]) {
        assert init[i] == s[i];
      }
      UnionAllLeast(init, c);
    }
  }

  /** The union of the empty list is null and the union of one envelope is that envelope. */
  lemma UnionAllSmallLists(e: Envelope)
    ensures UnionAll([]) == Null
    ensures UnionAll([e]) == e
  {
    assert [e][..0] == [];
  }

  /** The union depends only on which envelopes are in the list, not on their order or repetition. */
  lemma UnionAllOrderIndependent(a: seq<Envelope>, b: seq<Envelope>)
    requires forall x :: x in a <==> x in b
    ensures UnionAll(a) == UnionAll(b)
  {
    forall i | 0 <= i < |a| ensures Encloses(UnionAll(b), a[i]) {
      assert a[i] in b;
      var j :| 0 <= j < |b| && b[j] == a[i];
      UnionAllEncloses(b, j);
    }
    forall j | 0 <= j < |b| ensures Encloses(UnionAll(a), b[j]) {
      assert b[j] in a;
      var i :| 0 <= i < |a| && a[i] == b[j];
      UnionAllEncloses(a, i);
    }
    UnionAllLeast(a, UnionAll(b));
    UnionAllLeast(b, UnionAll(a));
    EnclosesAntisymmetric(UnionAll(a), UnionAll(b));
  }

  /** Folding in a different order gives the same aggregate: the expansion is commutative and associative. */
  lemma ExpandCommutativeAssociative(a: Envelope, b: Envelope, c: Envelope)
    ensures ExpandToInclude(a, b) == ExpandToInclude(b, a)
    ensures ExpandToInclude(ExpandToInclude(a, b), c) == ExpandToInclude(a, ExpandToInclude(b, c))
  {
    var l := ExpandToInclude(ExpandToInclude(a, b), c);
    var r := ExpandToInclude(a, ExpandToInclude(b, c));
    EnclosesAntisymmetric(ExpandToInclude(a, b), ExpandToInclude(b, a));
    EnclosesTransitive(l, ExpandToInclude(a, b), a);
    EnclosesTransitive(l, ExpandToInclude(a, b), b);
    EnclosesTransitive(r, ExpandToInclude(b, c), b);
    EnclosesTransitive(r, ExpandToInclude(b, c), c);
    EnclosesAntisymmetric(l, r);
  }
}
