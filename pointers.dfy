/**
 * The bookkeeping behind the synthesized pinch: the table of active touch
 * pointers, the adapter that turns it into a touch list, and the dolly anchor
 * whose rise decides the direction of a dolly step.
 */
module Pointers {
  import opened Wrappers

  /** A 2D position in the page (clientX/clientY, pageX/pageY). */
  datatype Point = Point(x: real, y: real)

  /** One touch of a touch list (pageX, pageY). */
  datatype Touch = Touch(pageX: real, pageY: real)

  /**
   * One entry of `#pointers`. The source keys the table by
   * "poinderID" + pointerId, which is injective in the id, so the id itself is
   * the key here.
   */
  datatype PointerEntry = PointerEntry(id: int, at: Point)

  /**
   * `#pointers`: a plain object whose keys are not array indices, so
   * `for ... in` visits them in insertion order. A sequence keeps that order.
   */
  type PointerTable = seq<PointerEntry>

  /** No id appears twice: the table is a dictionary. */
  ghost predicate DistinctIds(t: PointerTable) {
    forall i, j :: 0 <= i < j < |t| ==> t[i].id != t[j].id
  }

  /** The table has an entry for the id. */
  predicate Has(t: PointerTable, id: int) {
    exists i :: 0 <= i < |t| && t[i].id == id
  }

  /** `#pointers[id]`: the last known position of the pointer, if it is active. */
  function Find(t: PointerTable, id: int): (r: Option<Point>)
    ensures r.Some? <==> Has(t, id)
    ensures r.Some? ==> PointerEntry(id, r.value) in t
  {
    if t == [] then None
    else if t[0].id == id then Some(t[0].at)
    else
      var r := Find(t[1..], id);
      assert Has(t, id) ==> Has(t[1..], id) by {
        if Has(t, id) {
          var i :| 0 <= i < |t| && t[i].id == id;
          assert t[1..][i - 1].id == id;
        }
      }
      assert Has(t[1..], id) ==> Has(t, id) by {
        if Has(t[1..], id) {
          var i :| 0 <= i < |t[1..]| && t[1..][i].id == id;
          assert t[i + 1].id == id;
        }
      }
      r
  }

  /** A table with a first entry is a dictionary iff its tail is one without that key. */
  lemma DistinctCons(x: PointerEntry, rest: PointerTable)
    ensures DistinctIds([x] + rest) <==> DistinctIds(rest) && !Has(rest, x.id)
  {
    var t := [x] + rest;
    if DistinctIds(t) {
      forall i, j | 0 <= i < j < |rest| ensures rest[i].id != rest[j].id {
        assert t[i + 1] == rest[i] && t[j + 1] == rest[j];
      }
      forall i | 0 <= i < |rest| ensures rest[i].id != x.id {
        assert t[i + 1] == rest[i] && t[0] == x;
      }
    }
    if DistinctIds(rest) && !Has(rest, x.id) {
      forall i, j | 0 <= i < j < |t| ensures t[i].id != t[j].id {
        if i == 0 {
          assert t[j] == rest[j - 1];
        } else {
          assert t[i] == rest[i - 1] && t[j] == rest[j - 1];
        }
      }
    }
  }

  /**
   * `setPointer`: `#pointers[id] = p`. An existing key keeps its place and
   * takes the new position; a new key is appended.
   */
  function SetPointer(t: PointerTable, id: int, p: Point): (r: PointerTable)
    ensures Find(r, id) == Some(p)
    ensures forall k :: k != id ==> Find(r, k) == Find(t, k)
    ensures |r| == if Has(t, id) then |t| else |t| + 1
    ensures DistinctIds(t) ==> DistinctIds(r)
  {
    if t == [] then [PointerEntry(id, p)]
    else if t[0].id == id then
      DistinctCons(t[0], t[1..]);
      DistinctCons(PointerEntry(id, p), t[1..]);
      assert [t[0]] + t[1..] == t;
      [PointerEntry(id, p)] + t[1..]
    else
      var rest := SetPointer(t[1..], id, p);
      DistinctCons(t[0], t[1..]);
      DistinctCons(t[0], rest);
      assert [t[0]] + t[1..] == t;
      assert Find(rest, t[0].id) == Find(t[1..], t[0].id);
      assert ([t[0]] + rest)[1..] == rest;
      [t[0]] + rest
  }

  /** `delete #pointers[id]`: the entry goes, the others keep their order. */
  function RemovePointer(t: PointerTable, id: int): (r: PointerTable)
    ensures Find(r, id) == None
    ensures forall k :: k != id ==> Find(r, k) == Find(t, k)
    ensures DistinctIds(t) ==> DistinctIds(r)
    ensures DistinctIds(t) ==> |r| == if Has(t, id) then |t| - 1 else |t|
  {
    if t == [] then []
    else
      var rest := RemovePointer(t[1..], id);
      DistinctCons(t[0], t[1..]);
      assert [t[0]] + t[1..] == t;
      if t[0].id == id then
        rest
      else
        DistinctCons(t[0], rest);
        assert Find(rest, t[0].id) == Find(t[1..], t[0].id);
        assert ([t[0]] + rest)[1..] == rest;
        [t[0]] + rest
  }

  /**
   * PointersToTouchAdapter: a touch list with one touch per table entry, in
   * the table's order, whose page coordinates are the pointer's client
   * coordinates.
   */
  class PointersToTouchAdapter {
    var touches: seq<Touch>

    constructor (pointers: PointerTable)
      ensures |touches| == |pointers|
      ensures forall i :: 0 <= i < |pointers| ==>
        touches[i] == Touch(pointers[i].at.x, pointers[i].at.y)
    {
      touches := [];
      new;
      var i := 0;
      while i < |pointers|
        modifies this
        invariant 0 <= i <= |pointers|
        invariant |touches| == i
        invariant forall j :: 0 <= j < i ==> touches[j] == Touch(pointers[j].at.x, pointers[j].at.y)
      {
        var item := pointers[i];
        touches := touches + [Touch(item.at.x, item.at.y)];
        i := i + 1;
      }
    }
  }

  /**
   * The y component of `#dollyStart` / `#dollyEnd`: a mouse coordinate, or a
   * pinch distance, kept as its square so that no square root is taken. Only
   * the sign of the difference of two anchors is ever used.
   */
  datatype Anchor = Coord(y: real) | Pinch(squared: real)

  /** The anchor denotes the real v: v is the coordinate, or the root of the square. */
  ghost predicate Denotes(a: Anchor, v: real) {
    match a
    case Coord(y) => v == y
    case Pinch(d2) => 0.0 <= v && v * v == d2
  }

  /** Sign of a real as -1, 0 or 1. */
  function Sign(x: real): int {
    if x > 0.0 then 1 else if x < 0.0 then -1 else 0
  }

  /** The pinch anchor of two touches: the squared distance between them. */
  function PinchOf(t0: Touch, t1: Touch): (r: Anchor)
    ensures r.Pinch? && r.squared >= 0.0
  {
    var dx := t0.pageX - t1.pageX;
    var dy := t0.pageY - t1.pageY;
    Pinch(dx * dx + dy * dy)
  }

  /**
   * The pinch anchor that a touch adapter over the table yields: from its
   * first two touches, or none when the second touch is missing.
   */
  function TablePinch(t: PointerTable): (r: Option<Anchor>)
    ensures r.Some? <==> |t| >= 2
    ensures r.Some? ==> r.value.Pinch? && r.value.squared >= 0.0
  {
    if |t| < 2 then None
    else Some(PinchOf(Touch(t[0].at.x, t[0].at.y), Touch(t[1].at.x, t[1].at.y)))
  }

  /**
   * The sign of `#dollyDelta.y` = end - start, computed on the anchors without
   * a square root.
   */
  function Rise(from: Anchor, to: Anchor): int {
    match (from, to)
    case (Coord(a), Coord(b)) => Sign(b - a)
    case (Pinch(p), Pinch(q)) => Sign(q - p)
    case (Coord(a), Pinch(q)) => if a < 0.0 then 1 else Sign(q - a * a)
    case (Pinch(p), Coord(b)) => if b < 0.0 then -1 else Sign(b * b - p)
  }

  lemma MulPositive(a: real, b: real)
    requires a > 0.0 && b > 0.0
    ensures a * b > 0.0
  {
  }

  lemma SquareMonotone(u: real, v: real)
    requires 0.0 <= u && 0.0 <= v
    ensures Sign(v * v - u * u) == Sign(v - u)
  {
    assert v * v - u * u == (v - u) * (v + u);
    if v > u {
      MulPositive(v - u, v + u);
    } else if v < u {
      MulPositive(u - v, u + v);
      assert (u - v) * (u + v) == u * u - v * v;
    }
  }

  /**
   * Rise is exactly the sign of the difference of the distances the anchors
   * stand for, so comparing squares decides the dolly direction as the
   * source's comparison of roots does.
   */
  lemma RiseIsSignOfDifference(from: Anchor, to: Anchor, u: real, v: real)
    requires Denotes(from, u) && Denotes(to, v)
    ensures Rise(from, to) == Sign(v - u)
  {
    match (from, to)
    case (Coord(a), Coord(b)) =>
    case (Pinch(p), Pinch(q)) => SquareMonotone(u, v);
    case (Coord(a), Pinch(q)) =>
      if a >= 0.0 { SquareMonotone(a, v); }
    case (Pinch(p), Coord(b)) =>
      if b >= 0.0 { SquareMonotone(u, b); }
  }
}
