/**
 * Suppression of near-duplicate touch points (`check_xy_match`, touch811.py lines 215-236):
 * the first point is kept, and each later point is kept when it moves more than `delta` on
 * either axis away from the most recently kept point. Pressure plays no part.
 */
module Dedup {
  import opened Calibration

  function Abs(n: int): nat
  {
    if n < 0 then -n else n
  }

  /** `b` counts as a new position relative to the reference point `a`. */
  predicate Moved(a: Point, b: Point, delta: int)
  {
    Abs(a.x - b.x) > delta || Abs(a.y - b.y) > delta
  }

  /** The points of `ps` kept when `ref` is the most recently kept point. */
  function KeepFrom(ref: Point, ps: seq<Point>, delta: int): seq<Point>
    decreases |ps|
  {
    if ps == [] then []
    else if Moved(ref, ps[0], delta) then [ps[0]] + KeepFrom(ps[0], ps[1..], delta)
    else KeepFrom(ref, ps[1..], delta)
  }

  /** The deduplicated points; the first point is always kept. */
  function Unique(ps: seq<Point>, delta: int): seq<Point>
  {
    if ps == [] then [] else [ps[0]] + KeepFrom(ps[0], ps[1..], delta)
  }

  /** `sub` is `ps` with some elements left out, order kept. */
  predicate IsSubsequence(sub: seq<Point>, ps: seq<Point>)
    decreases |ps|
  {
    sub == [] || (ps != [] && ((sub[0] == ps[0] && IsSubsequence(sub[1..], ps[1..])) || IsSubsequence(sub, ps[1..])))
  }

  /** Each point of `ps` moved away from its predecessor, the first one from `ref`. */
  predicate Spread(ref: Point, ps: seq<Point>, delta: int)
    decreases |ps|
  {
    ps == [] || (Moved(ref, ps[0], delta) && Spread(ps[0], ps[1..], delta))
  }

  lemma {:induction false} KeepFromIsSubsequence(ref: Point, ps: seq<Point>, delta: int)
    ensures IsSubsequence(KeepFrom(ref, ps, delta), ps)
    ensures |KeepFrom(ref, ps, delta)| <= |ps|
    decreases |ps|
  {
    if ps != [] {
      if Moved(ref, ps[0], delta) {
        KeepFromIsSubsequence(ps[0], ps[1..], delta);
        assert KeepFrom(ref, ps, delta)[1..] == KeepFrom(ps[0], ps[1..], delta);
      } else {
        KeepFromIsSubsequence(ref, ps[1..], delta);
      }
    }
  }

  /**
   * Deduplication keeps the first point and returns an order-preserving subsequence of its
   * input that is never longer than the input.
   */
  lemma UniqueIsSubsequence(ps: seq<Point>, delta: int)
    ensures IsSubsequence(Unique(ps, delta), ps)
    ensures ps != [] ==> 1 <= |Unique(ps, delta)| <= |ps| && Unique(ps, delta)[0] == ps[0]
    ensures ps == [] ==> Unique(ps, delta) == []
  {
    if ps != [] {
      KeepFromIsSubsequence(ps[0], ps[1..], delta);
      assert Unique(ps, delta)[1..] == KeepFrom(ps[0], ps[1..], delta);
    }
  }

  /** Consecutive kept points are always more than `delta` apart on some axis. */
  lemma {:induction false} KeepFromSpread(ref: Point, ps: seq<Point>, delta: int)
    ensures Spread(ref, KeepFrom(ref, ps, delta), delta)
    decreases |ps|
  {
    if ps != [] {
      if Moved(ref, ps[0], delta) {
        KeepFromSpread(ps[0], ps[1..], delta);
        assert KeepFrom(ref, ps, delta)[1..] == KeepFrom(ps[0], ps[1..], delta);
      } else {
        KeepFromSpread(ref, ps[1..], delta);
      }
    }
  }

  /**
   * The converse of KeepFromSpread: a point within `delta` of the most recently kept one is
   * dropped, and that kept point stays the reference for the points after it.
   */
  lemma KeepFromDropped(ref: Point, p: Point, ps: seq<Point>, delta: int)
    requires !Moved(ref, p, delta)
    ensures KeepFrom(ref, [p] + ps, delta) == KeepFrom(ref, ps, delta)
  {
    assert ([p] + ps)[0] == p && ([p] + ps)[1..] == ps;
  }

  /** Points already spread apart are all kept. */
  lemma {:induction false} KeepFromSpreadFixed(ref: Point, ps: seq<Point>, delta: int)
    requires Spread(ref, ps, delta)
    ensures KeepFrom(ref, ps, delta) == ps
    decreases |ps|
  {
    if ps != [] {
      KeepFromSpreadFixed(ps[0], ps[1..], delta);
    }
  }

  /** Deduplicating twice is deduplicating once. */
  lemma UniqueIdempotent(ps: seq<Point>, delta: int)
    ensures Unique(Unique(ps, delta), delta) == Unique(ps, delta)
  {
    if ps != [] {
      var u := Unique(ps, delta);
      KeepFromSpread(ps[0], ps[1..], delta);
      assert u[0] == ps[0] && u[1..] == KeepFrom(ps[0], ps[1..], delta);
      KeepFromSpreadFixed(ps[0], u[1..], delta);
    }
  }

  /** When no point moves more than `delta` from the first, only the first is kept. */
  lemma {:induction false} KeepFromNoneMoved(ref: Point, ps: seq<Point>, delta: int)
    requires forall i :: 0 <= i < |ps| ==> !Moved(ref, ps[i], delta)
    ensures KeepFrom(ref, ps, delta) == []
  {
    if ps != [] {
      KeepFromNoneMoved(ref, ps[1..], delta);
    }
  }

  lemma UniqueCollapses(ps: seq<Point>, delta: int)
    requires ps != []
    requires forall i :: 0 <= i < |ps| ==> !Moved(ps[0], ps[i], delta)
    ensures Unique(ps, delta) == [ps[0]]
  {
    KeepFromNoneMoved(ps[0], ps[1..], delta);
  }

  /** With `delta` 0 a point is dropped exactly when it repeats the reference position. */
  lemma MovedZero(a: Point, b: Point)
    ensures Moved(a, b, 0) <==> (a.x, a.y) != (b.x, b.y)
  {
  }

  /** A point within `delta` of the first is dropped; one far from it is kept. */
  lemma DropsJitter()
    ensures Unique([Point(100, 100, 0.2), Point(102, 101, 0.25), Point(500, 500, 0.05)], 5)
         == [Point(100, 100, 0.2), Point(500, 500, 0.05)]
  {
    var ps := [Point(100, 100, 0.2), Point(102, 101, 0.25), Point(500, 500, 0.05)];
    assert ps[1..][1..] == [Point(500, 500, 0.05)];
  }

  /** The loop of `check_xy_match`; the source indexes the first point, so the list must not be empty. */
  method CheckXyMatch(points: seq<Point>, delta: int) returns (allUnique: seq<Point>)
    requires points != []
    ensures allUnique == Unique(points, delta)
  {
    var uniqueXyz := points[0];
    allUnique := [uniqueXyz];
    for ii := 1 to |points|
      invariant allUnique != [] && allUnique[|allUnique| - 1] == uniqueXyz
      invariant allUnique + KeepFrom(uniqueXyz, points[ii..], delta) == Unique(points, delta)
    {
      var nextXyz := points[ii];
      assert points[ii..][1..] == points[ii + 1..];
      if Abs(uniqueXyz.x - nextXyz.x) > delta || Abs(uniqueXyz.y - nextXyz.y) > delta {
        allUnique := allUnique + [nextXyz];
        uniqueXyz := nextXyz;
      }
    }
    assert points[|points|..] == [];
  }
}
