/**
  The anchor-measurement session of ARCoreController.

  The controller keeps one anchor list per measurement mode (1 distance, 2 accumulated
  distance, 3 angle), the active mode, and the running accumulated distance. Each valid
  touch appends one anchor to the list of the active mode; the new count of that list
  decides whether a measurement is produced. Line renderers join anchor i to anchor i + 1;
  RenderLine walks the lists every frame and refreshes them.

  Anchors are opaque (the type parameter A). The distance and angle between anchors are
  uninterpreted functions fixed when the controller is built; the distance is non-negative.
*/
module ARCore {

  /** What a screen touch amounts to once the UI test and the raycast have been made. */
  datatype Touch<A> =
    | OverUi          // the touch landed on a UI control and is ignored
    | Miss            // the raycast hit nothing tracked
    | BackOfPlane     // the raycast hit a detected plane from behind
    | Hit(anchor: A)  // a valid hit; `anchor` is the game object of the new anchor

  /** What TouchScreen hands to the UI layer for display. */
  datatype Measurement<A> =
    | NoMeasurement
    | Distance(from: A, to: A, centimetres: real)
    | AccDistance(from: A, to: A, total: real)
    | Angle(first: A, vertex: A, last: A, degrees: real)

  ghost predicate NonNegative<A(!new)>(dist: (A, A) -> real) {
    forall a, b :: dist(a, b) >= 0.0
  }

  /** Sum of the distances between consecutive anchors of `s`. */
  function PathLength<A>(dist: (A, A) -> real, s: seq<A>): real
  {
    if |s| < 2 then 0.0 else dist(s[0], s[1]) + PathLength(dist, s[1..])
  }

  /** Appending an anchor adds exactly the distance from the previous last anchor. */
  lemma {:induction false} PathLengthAppend<A>(dist: (A, A) -> real, s: seq<A>, a: A)
    requires |s| >= 1
    ensures PathLength(dist, s + [a]) == PathLength(dist, s) + dist(s[|s| - 1], a)
  {
    if |s| == 1 {
      assert (s + [a])[1..] == [a];
    } else {
      assert (s + [a])[1..] == s[1..] + [a];
      PathLengthAppend(dist, s[1..], a);
    }
  }

  lemma {:induction false} PathLengthNonNegative<A(!new)>(dist: (A, A) -> real, s: seq<A>)
    requires NonNegative(dist)
    ensures PathLength(dist, s) >= 0.0
  {
    if |s| >= 2 {
      PathLengthNonNegative(dist, s[1..]);
    }
  }

  /** Whether anchor i of a distance list of n anchors carries a line renderer (to anchor i + 1). */
  predicate DistanceLine(i: int, n: int) {
    i % 2 == 0 && i + 1 < n
  }

  /** Whether anchor i of an accumulated-distance list of n anchors carries a line renderer. */
  predicate AccDistanceLine(i: int, n: int) {
    i + 1 < n
  }

  /** Whether anchor i of an angle list of n anchors carries a line renderer: the first and
      middle anchor of every complete triple do. */
  predicate AngleLine(i: int, n: int) {
    i % 3 != 2 && i - i % 3 + 2 < n
  }

  /** The index pairs refreshed by RenderLine's loop over the distance list. */
  method DistanceLinePairs(count: nat) returns (pairs: seq<(int, int)>)
    ensures |pairs| == count / 2
    ensures forall k :: 0 <= k < |pairs| ==> pairs[k] == (2 * k, 2 * k + 1)
    ensures forall p :: p in pairs ==> 0 <= p.0 && p.1 == p.0 + 1 && p.1 < count && DistanceLine(p.0, count)
  {
    pairs := [];
    var bound := if count % 2 == 0 then count else count - 1;
    var i := 0;
    while i < bound
      invariant 0 <= i <= bound && i % 2 == 0
      invariant |pairs| == i / 2
      invariant forall k :: 0 <= k < |pairs| ==> pairs[k] == (2 * k, 2 * k + 1)
    {
      pairs := pairs + [(i, i + 1)];
      i := i + 2;
    }
  }

  /** The index pairs refreshed by RenderLine's loop over the accumulated-distance list. */
  method AccDistanceLinePairs(count: nat) returns (pairs: seq<(int, int)>)
    ensures |pairs| == (if count == 0 then 0 else count - 1)
    ensures forall k :: 0 <= k < |pairs| ==> pairs[k] == (k, k + 1)
    ensures forall p :: p in pairs ==> 0 <= p.0 && p.1 == p.0 + 1 && p.1 < count && AccDistanceLine(p.0, count)
  {
    pairs := [];
    var i := 0;
    while i < count - 1
      invariant 0 <= i <= (if count == 0 then 0 else count - 1)
      invariant |pairs| == i
      invariant forall k :: 0 <= k < |pairs| ==> pairs[k] == (k, k + 1)
    {
      pairs := pairs + [(i, i + 1)];
      i := i + 1;
    }
  }

  /** Appending an anchor to the angle list adds lines exactly when it completes a triple, and
      then on the triple's first and middle anchor. */
  lemma AngleLineAfterAppend(j: int, cnt: int)
    requires 0 <= j < cnt
    ensures AngleLine(j, cnt) <==> AngleLine(j, cnt - 1) || (cnt % 3 == 0 && cnt - 3 <= j < cnt - 1)
  {
  }

  /** Pair j of the angle list's lines: the first edge of triple j / 2 for even j, its second
      edge for odd j. */
  function AnglePair(j: int): (int, int)
  {
    (3 * (j / 2) + j % 2, 3 * (j / 2) + j % 2 + 1)
  }

  lemma AnglePairsOfTriple(k: int)
    ensures AnglePair(2 * k) == (3 * k, 3 * k + 1)
    ensures AnglePair(2 * k + 1) == (3 * k + 1, 3 * k + 2)
  {
    assert (2 * k) / 2 == k && (2 * k) % 2 == 0;
    assert (2 * k + 1) / 2 == k && (2 * k + 1) % 2 == 1;
  }

  lemma AnglePairInList(j: int, count: nat)
    requires 0 <= j < 2 * (count / 3)
    ensures 0 <= AnglePair(j).0 && AnglePair(j).1 == AnglePair(j).0 + 1 && AnglePair(j).1 < count
    ensures AngleLine(AnglePair(j).0, count)
  {
    // without these steps the solver's cost varies widely with the seed
    var t, r := j / 2, j % 2;
    assert 3 * t + 3 <= count;
    assert (3 * t + r) % 3 == r;
  }

  /** Every anchor of the angle list that carries a line is the first index of one of the pairs
      the angle loop visits: pair 2 * (i / 3) + i % 3. */
  lemma AngleLineHasPair(i: int, count: nat)
    requires 0 <= i < count && AngleLine(i, count)
    ensures 0 <= 2 * (i / 3) + i % 3 < 2 * (count / 3)
    ensures AnglePair(2 * (i / 3) + i % 3) == (i, i + 1)
  {
    var q, r := i / 3, i % 3;
    assert i == 3 * q + r && (r == 0 || r == 1);
    assert q < count / 3 by {
      assert 3 * q + 2 < count;
    }
    AnglePairsOfTriple(q);
    if r == 0 {
      assert 2 * (i / 3) + i % 3 == 2 * q;
    } else {
      assert 2 * (i / 3) + i % 3 == 2 * q + 1;
    }
  }

  /** The index pairs refreshed by RenderLine's loop over the angle list: two per complete triple. */
  method AngleLinePairs(count: nat) returns (pairs: seq<(int, int)>)
    ensures |pairs| == 2 * (count / 3)
    ensures forall j :: 0 <= j < |pairs| ==> pairs[j] == AnglePair(j)
    ensures forall p :: p in pairs ==> 0 <= p.0 && p.1 == p.0 + 1 && p.1 < count && AngleLine(p.0, count)
  {
    pairs := [];
    var i := 0;
    while i * 3 + 2 < count
      invariant 0 <= i <= count / 3
      invariant |pairs| == 2 * i
      invariant forall j :: 0 <= j < |pairs| ==> pairs[j] == AnglePair(j)
    {
      AnglePairsOfTriple(i);
      pairs := pairs + [(i * 3, i * 3 + 1), (i * 3 + 1, i * 3 + 2)];
      i := i + 1;
    }
    forall p | p in pairs
      ensures 0 <= p.0 && p.1 == p.0 + 1 && p.1 < count && AngleLine(p.0, count)
    {
      var j :| 0 <= j < |pairs| && pairs[j] == p;
      AnglePairInList(j, count);
    }
  }

  class ARCoreController<A(!new)> {
    /** GetDistanceByObject: the magnitude of the difference of two anchor positions, times 100. */
    const dist: (A, A) -> real
    /** GetAngleByObject(a, b, c): the angle at b between the rays to a and to c, in degrees. */
    const angle: (A, A, A) -> real

    var mode: int
    var distanceAnchorList: seq<A>
    var accDistanceAnchorList: seq<A>
    var angleAnchorList: seq<A>
    var accDistance: real

    // lines[i] holds when anchor i of the list carries a LineRenderer drawn to anchor i + 1
    var distanceLines: seq<bool>
    var accDistanceLines: seq<bool>
    var angleLines: seq<bool>

    ghost predicate Valid()
      reads this
    {
      && NonNegative(dist)
      && accDistance == PathLength(dist, accDistanceAnchorList)
      && |distanceLines| == |distanceAnchorList|
      && |accDistanceLines| == |accDistanceAnchorList|
      && |angleLines| == |angleAnchorList|
      && (forall i :: 0 <= i < |distanceLines| ==> distanceLines[i] == DistanceLine(i, |distanceAnchorList|))
      && (forall i :: 0 <= i < |accDistanceLines| ==> accDistanceLines[i] == AccDistanceLine(i, |accDistanceAnchorList|))
      && (forall i :: 0 <= i < |angleLines| ==> angleLines[i] == AngleLine(i, |angleAnchorList|))
    }

    constructor (dist: (A, A) -> real, angle: (A, A, A) -> real)
      requires NonNegative(dist)
      ensures Valid() && this.dist == dist && this.angle == angle
      ensures mode == 1 && accDistance == 0.0
      ensures distanceAnchorList == [] && accDistanceAnchorList == [] && angleAnchorList == []
    {
      this.dist, this.angle := dist, angle;
      mode := 1;
      distanceAnchorList, accDistanceAnchorList, angleAnchorList := [], [], [];
      distanceLines, accDistanceLines, angleLines := [], [], [];
      accDistance := 0.0;
    }

    /** Destroys every anchor (and with it its line renderer) and resets the running total. */
    method ClearAnchorList()
      requires Valid()
      modifies this
      ensures Valid() && mode == old(mode)
      ensures distanceAnchorList == [] && accDistanceAnchorList == [] && angleAnchorList == []
      ensures distanceLines == [] && accDistanceLines == [] && angleLines == []
      ensures accDistance == 0.0
    {
      distanceAnchorList, distanceLines := [], [];
      accDistanceAnchorList, accDistanceLines := [], [];
      accDistance := 0.0;
      angleAnchorList, angleLines := [], [];
    }

    /** The mode buttons of the UI assign the public mode field; nothing else changes. */
    method SetMode(m: int)
      requires Valid()
      modifies this`mode
      ensures Valid() && mode == m
    {
      mode := m;
    }

    /** Handles one touch: a valid hit appends its anchor to the list of the active mode and
        reports the measurement that the new count of that list completes. */
    method TouchScreen(touch: Touch<A>) returns (m: Measurement<A>)
      requires Valid()
      modifies this
      ensures Valid() && mode == old(mode)
      ensures accDistance >= 0.0
      // a UI touch, a miss, a back-of-plane hit or a mode outside 1..3 places nothing
      ensures !touch.Hit? || (mode != 1 && mode != 2 && mode != 3) ==> m == NoMeasurement && unchanged(this)
      ensures touch.Hit? && mode == 1 ==>
        var s, n := distanceAnchorList, |distanceAnchorList|;
        && s == old(distanceAnchorList) + [touch.anchor]
        && accDistanceAnchorList == old(accDistanceAnchorList) && angleAnchorList == old(angleAnchorList)
        && accDistance == old(accDistance)
        && (m != NoMeasurement <==> n % 2 == 0)
        && (n % 2 == 0 ==> m == Distance(s[n - 2], s[n - 1], dist(s[n - 2], s[n - 1])))
      ensures touch.Hit? && mode == 2 ==>
        var s, n := accDistanceAnchorList, |accDistanceAnchorList|;
        && s == old(accDistanceAnchorList) + [touch.anchor]
        && distanceAnchorList == old(distanceAnchorList) && angleAnchorList == old(angleAnchorList)
        && accDistance == old(accDistance) + (if n > 1 then dist(s[n - 2], s[n - 1]) else 0.0)
        && (m != NoMeasurement <==> n > 1)
        && (n > 1 ==> m == AccDistance(s[n - 2], s[n - 1], accDistance))
      ensures touch.Hit? && mode == 3 ==>
        var s, n := angleAnchorList, |angleAnchorList|;
        && s == old(angleAnchorList) + [touch.anchor]
        && distanceAnchorList == old(distanceAnchorList) && accDistanceAnchorList == old(accDistanceAnchorList)
        && accDistance == old(accDistance)
        && (m != NoMeasurement <==> n % 3 == 0)
        && (n % 3 == 0 ==> m == Angle(s[n - 3], s[n - 2], s[n - 1], angle(s[n - 3], s[n - 2], s[n - 1])))
    {
      m := NoMeasurement;
      PathLengthNonNegative(dist, accDistanceAnchorList);
      if !touch.Hit? {
        return;
      }
      if mode == 1 {
        m := AddDistanceAnchor(touch.anchor);
      } else if mode == 2 {
        m := AddAccDistanceAnchor(touch.anchor);
      } else if mode == 3 {
        m := AddAngleAnchor(touch.anchor);
      }
    }

    /** Case 1 of TouchScreen's switch: every second anchor completes a distance, and
        UIManager.DrawDistanceBetweenObject gives the first anchor of the pair its line. */
    method AddDistanceAnchor(anchor: A) returns (m: Measurement<A>)
      requires Valid()
      modifies this`distanceAnchorList, this`distanceLines
      ensures Valid()
      ensures distanceAnchorList == old(distanceAnchorList) + [anchor]
      ensures var s, n := distanceAnchorList, |distanceAnchorList|;
        && (m != NoMeasurement <==> n % 2 == 0)
        && (n % 2 == 0 ==> m == Distance(s[n - 2], s[n - 1], dist(s[n - 2], s[n - 1])))
    {
      m := NoMeasurement;
      distanceAnchorList, distanceLines := distanceAnchorList + [anchor], distanceLines + [false];
      var cnt := |distanceAnchorList|;
      if cnt % 2 == 0 {
        var distance := dist(distanceAnchorList[cnt - 2], distanceAnchorList[cnt - 1]);
        // AddComponent<LineRenderer> on an anchor that has none yet
        assert !distanceLines[cnt - 2];
        distanceLines := distanceLines[cnt - 2 := true];
        m := Distance(distanceAnchorList[cnt - 2], distanceAnchorList[cnt - 1], distance);
      }
    }

    /** Case 2 of TouchScreen's switch: from the second anchor on, each anchor adds the length of
        its segment to accDistance, and the running total is what is displayed. */
    method AddAccDistanceAnchor(anchor: A) returns (m: Measurement<A>)
      requires Valid()
      modifies this`accDistanceAnchorList, this`accDistanceLines, this`accDistance
      ensures Valid()
      ensures accDistanceAnchorList == old(accDistanceAnchorList) + [anchor]
      ensures var s, n := accDistanceAnchorList, |accDistanceAnchorList|;
        && accDistance == old(accDistance) + (if n > 1 then dist(s[n - 2], s[n - 1]) else 0.0)
        && (m != NoMeasurement <==> n > 1)
        && (n > 1 ==> m == AccDistance(s[n - 2], s[n - 1], accDistance))
    {
      m := NoMeasurement;
      var before := accDistanceAnchorList;
      accDistanceAnchorList, accDistanceLines := accDistanceAnchorList + [anchor], accDistanceLines + [false];
      var cnt := |accDistanceAnchorList|;
      if cnt > 1 {
        PathLengthAppend(dist, before, anchor);
        accDistance := accDistance + dist(accDistanceAnchorList[cnt - 2], accDistanceAnchorList[cnt - 1]);
        assert !accDistanceLines[cnt - 2];
        accDistanceLines := accDistanceLines[cnt - 2 := true];
        m := AccDistance(accDistanceAnchorList[cnt - 2], accDistanceAnchorList[cnt - 1], accDistance);
      } else {
        assert accDistanceAnchorList == [anchor];
      }
    }

    /** Case 3 of TouchScreen's switch: every third anchor completes an angle whose vertex is the
        middle anchor of the triple, and the triple is joined by two lines. */
    method AddAngleAnchor(anchor: A) returns (m: Measurement<A>)
      requires Valid()
      modifies this`angleAnchorList, this`angleLines
      ensures Valid()
      ensures angleAnchorList == old(angleAnchorList) + [anchor]
      ensures var s, n := angleAnchorList, |angleAnchorList|;
        && (m != NoMeasurement <==> n % 3 == 0)
        && (n % 3 == 0 ==> m == Angle(s[n - 3], s[n - 2], s[n - 1], angle(s[n - 3], s[n - 2], s[n - 1])))
    {
      m := NoMeasurement;
      angleAnchorList, angleLines := angleAnchorList + [anchor], angleLines + [false];
      var cnt := |angleAnchorList|;
      forall j | 0 <= j < cnt
        ensures AngleLine(j, cnt) <==> AngleLine(j, cnt - 1) || (cnt % 3 == 0 && cnt - 3 <= j < cnt - 1)
      {
        AngleLineAfterAppend(j, cnt);
      }
      if cnt % 3 == 0 {
        var degrees := angle(angleAnchorList[cnt - 3], angleAnchorList[cnt - 2], angleAnchorList[cnt - 1]);
        m := Angle(angleAnchorList[cnt - 3], angleAnchorList[cnt - 2], angleAnchorList[cnt - 1], degrees);
        // the loop over i = -3, -2 gives anchors cnt - 3 and cnt - 2 a line to the next anchor
        var lines := angleLines;
        var i := -3;
        while i < -1
          invariant -3 <= i <= -1
          invariant |lines| == cnt
          invariant forall j :: 0 <= j < cnt ==> lines[j] == (AngleLine(j, cnt - 1) || cnt - 3 <= j < cnt + i)
        {
          assert !lines[cnt + i];
          lines := lines[cnt + i := true];
          i := i + 1;
        }
        angleLines := lines;
      }
    }

    /** The index pairs whose line renderers RenderLine refreshes, one sequence per list.
        Every index it reads lies in its list, and every anchor it asks for a line renderer has one. */
    method RenderLine() returns (distancePairs: seq<(int, int)>, accDistancePairs: seq<(int, int)>, anglePairs: seq<(int, int)>)
      requires Valid()
      // the pairs each loop visits, in order
      ensures |distancePairs| == |distanceAnchorList| / 2
      ensures forall k :: 0 <= k < |distancePairs| ==> distancePairs[k] == (2 * k, 2 * k + 1)
      ensures |accDistancePairs| == (if |accDistanceAnchorList| == 0 then 0 else |accDistanceAnchorList| - 1)
      ensures forall k :: 0 <= k < |accDistancePairs| ==> accDistancePairs[k] == (k, k + 1)
      ensures |anglePairs| == 2 * (|angleAnchorList| / 3)
      ensures forall j :: 0 <= j < |anglePairs| ==> anglePairs[j] == AnglePair(j)
      // every pair is in bounds and asks for a line renderer its anchor has
      ensures forall p :: p in distancePairs ==>
        0 <= p.0 && p.1 == p.0 + 1 && p.1 < |distanceAnchorList| && distanceLines[p.0]
      ensures forall p :: p in accDistancePairs ==>
        0 <= p.0 && p.1 == p.0 + 1 && p.1 < |accDistanceAnchorList| && accDistanceLines[p.0]
      ensures forall p :: p in anglePairs ==>
        0 <= p.0 && p.1 == p.0 + 1 && p.1 < |angleAnchorList| && angleLines[p.0]
      // and every line renderer is refreshed
      ensures forall i :: 0 <= i < |distanceLines| && distanceLines[i] ==> (i, i + 1) in distancePairs
      ensures forall i :: 0 <= i < |accDistanceLines| && accDistanceLines[i] ==> (i, i + 1) in accDistancePairs
      ensures forall i :: 0 <= i < |angleLines| && angleLines[i] ==> (i, i + 1) in anglePairs
    {
      distancePairs := DistanceLinePairs(|distanceAnchorList|);
      accDistancePairs := AccDistanceLinePairs(|accDistanceAnchorList|);
      anglePairs := AngleLinePairs(|angleAnchorList|);
      forall i | 0 <= i < |distanceLines| && distanceLines[i]
        ensures (i, i + 1) in distancePairs
      {
        assert distancePairs[i / 2] == (i, i + 1);
      }
      forall i | 0 <= i < |accDistanceLines| && accDistanceLines[i]
        ensures (i, i + 1) in accDistancePairs
      {
        assert accDistancePairs[i] == (i, i + 1);
      }
      forall i | 0 <= i < |angleLines| && angleLines[i]
        ensures (i, i + 1) in anglePairs
      {
        AngleLineHasPair(i, |angleAnchorList|);
        assert anglePairs[2 * (i / 3) + i % 3] == (i, i + 1);
      }
    }
  }

  /** The UI's clear button followed by the accumulated-distance button and two touches: the
      accumulation starts afresh, so the total shown is the one segment just measured. */
  method AccumulationRestartsAfterClear<A(!new)>(controller: ARCoreController<A>, a: A, b: A)
    returns (first: Measurement<A>, second: Measurement<A>)
    requires controller.Valid()
    modifies controller
    ensures first == NoMeasurement
    ensures second == AccDistance(a, b, controller.dist(a, b))
    ensures controller.accDistanceAnchorList == [a, b] && controller.accDistance == controller.dist(a, b)
  {
    controller.ClearAnchorList();
    controller.SetMode(2);
    first := controller.TouchScreen(Hit(a));
    second := controller.TouchScreen(Hit(b));
  }
}
