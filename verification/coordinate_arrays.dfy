/**
 * The coordinate-array utility of the workbench: flattening a geometry into
 * the ordered list of its line and ring coordinate arrays (optionally
 * normalising polygon ring orientation), and turning coordinate arrays back
 * into lines or points.
 *
 * The JTS orientation test `Orientation.isCCW` is not modelled; every
 * operation that needs it takes it as the parameter `isCCW`, and everything
 * proved here holds for any such test.
 */
module CoordinateArrays {
  import opened Geometry

  datatype Result<T> = Success(value: T) | Failure(error: string)

  // ---------------------------------------------------------------------
  // Lines or points from coordinate arrays
  // ---------------------------------------------------------------------

  /** The coordinates a point carries: none for the empty point. */
  function PointCoordinates(c: Option<Coord>): seq<Coord>
  {
    match c
    case None => []
    case Some(p) => [p]
  }

  /**
   * `toLineOrPoint`: a line over the very same array when there is more than
   * one coordinate, otherwise a point holding the (zero or one) coordinates.
   * The result is never missing and the call never fails.
   */
  function ToLineOrPoint(coords: array<Coord>): (g: Geometry)
    reads coords
    ensures g.LineString? <==> coords.Length > 1
    ensures g.LineString? || g.Point?
    ensures g.LineString? ==> g.points == coords
    ensures g.Point? ==> PointCoordinates(g.coord) == coords[..]
    ensures Dim(g) == if coords.Length > 1 then 1 else 0
  {
    if coords.Length > 1 then LineString(coords)
    else if coords.Length == 1 then Point(Some(coords[0]))
    else Point(None)
  }

  /** `fromCoordinateArrays`: one geometry per array, in the same order. */
  method FromCoordinateArrays(coordArrays: seq<array<Coord>>) returns (geoms: seq<Geometry>)
    ensures |geoms| == |coordArrays|
    ensures forall i :: 0 <= i < |coordArrays| ==> geoms[i] == ToLineOrPoint(coordArrays[i])
  {
    geoms := [];
    for i := 0 to |coordArrays|
      invariant |geoms| == i
      invariant forall j :: 0 <= j < i ==> geoms[j] == ToLineOrPoint(coordArrays[j])
    {
      var geom := ToLineOrPoint(coordArrays[i]);
      geoms := geoms + [geom];
    }
  }

  // ---------------------------------------------------------------------
  // Orientation
  // ---------------------------------------------------------------------

  /** The orientation code the utility derives from the orientation test. */
  function OrientationOf(ring: seq<Coord>, isCCW: seq<Coord> -> bool): (o: int)
    ensures o == CLOCKWISE || o == COUNTERCLOCKWISE
    ensures o == COUNTERCLOCKWISE <==> isCCW(ring)
  {
    if isCCW(ring) then COUNTERCLOCKWISE else CLOCKWISE
  }

  /** A ring is reversed when it is non-empty and its orientation differs from
      the desired one; a desired code other than the two orientations never
      matches, so it reverses every non-empty ring. */
  predicate NeedsReversal(ring: seq<Coord>, desired: int, isCCW: seq<Coord> -> bool): (b: bool)
    ensures desired == CLOCKWISE ==> (b <==> |ring| > 0 && isCCW(ring))
    ensures desired == COUNTERCLOCKWISE ==> (b <==> |ring| > 0 && !isCCW(ring))
  {
    |ring| > 0 && OrientationOf(ring, isCCW) != desired
  }

  /** The coordinates in reverse order. */
  function Reversed(s: seq<Coord>): (r: seq<Coord>)
    ensures |r| == |s|
  {
    if |s| == 0 then [] else [s[|s| - 1]] + Reversed(s[..|s| - 1])
  }

  lemma {:induction false} ReversedAt(s: seq<Coord>, k: int)
    requires 0 <= k < |s|
    ensures Reversed(s)[k] == s[|s| - 1 - k]
  {
    if k > 0 {
      ReversedAt(s[..|s| - 1], k - 1);
    }
  }

  /** Reversing twice gives back the original coordinates. */
  lemma ReversedTwice(s: seq<Coord>)
    ensures Reversed(Reversed(s)) == s
  {
    forall k | 0 <= k < |s|
      ensures Reversed(Reversed(s))[k] == s[k]
    {
      ReversedAt(Reversed(s), k);
      ReversedAt(s, |s| - 1 - k);
    }
  }

  /** Reversal keeps every coordinate, with its multiplicity. */
  lemma {:induction false} ReversedPermutes(s: seq<Coord>)
    ensures multiset(Reversed(s)) == multiset(s)
  {
    if |s| > 0 {
      var init, last := s[..|s| - 1], s[|s| - 1];
      ReversedPermutes(init);
      assert Reversed(s) == [last] + Reversed(init);
      assert multiset(Reversed(s)) == multiset{last} + multiset(Reversed(init));
      assert s == init + [last];
      assert multiset(s) == multiset(init) + multiset{last};
    }
  }

  /** The contents `ensureOrientation` returns. */
  function Oriented(ring: seq<Coord>, desired: int, isCCW: seq<Coord> -> bool): (r: seq<Coord>)
    ensures multiset(r) == multiset(ring)
    ensures |ring| == 0 ==> r == ring
    ensures !NeedsReversal(ring, desired, isCCW) ==> r == ring
    ensures |r| == |ring|
    ensures NeedsReversal(ring, desired, isCCW) ==> forall k :: 0 <= k < |ring| ==> r[k] == ring[|ring| - 1 - k]
  {
    if NeedsReversal(ring, desired, isCCW) then
      ReversedPermutes(ring);
      forall k | 0 <= k < |ring| ensures Reversed(ring)[k] == ring[|ring| - 1 - k] {
        ReversedAt(ring, k);
      }
      Reversed(ring)
    else
      ring
  }

  /** Reverses an array in place, swapping from both ends towards the middle. */
  method Reverse(a: array<Coord>)
    modifies a
    ensures a[..] == Reversed(old(a[..]))
  {
    var lo, hi := 0, a.Length - 1;
    while lo < hi
      invariant 0 <= lo && lo + hi == a.Length - 1 && lo <= hi + 1
      invariant forall k :: 0 <= k < lo ==> a[k] == old(a[a.Length - 1 - k])
      invariant forall k :: hi < k < a.Length ==> a[k] == old(a[a.Length - 1 - k])
      invariant forall k :: lo <= k <= hi ==> a[k] == old(a[k])
    {
      a[lo], a[hi] := a[hi], a[lo];
      lo, hi := lo + 1, hi - 1;
    }
    ghost var was := old(a[..]);
    forall k | 0 <= k < a.Length
      ensures a[..][k] == Reversed(was)[k]
    {
      ReversedAt(was, k);
    }
  }

  /**
   * `ensureOrientation`: the input array itself when it is empty or already
   * has the desired orientation; otherwise a freshly allocated copy with the
   * coordinates in reverse order. The input array is never modified.
   */
  method EnsureOrientation(coord: array<Coord>, desiredOrientation: int, isCCW: seq<Coord> -> bool)
    returns (r: array<Coord>)
    ensures r[..] == Oriented(coord[..], desiredOrientation, isCCW)
    ensures coord.Length == 0 ==> r == coord
    ensures !NeedsReversal(coord[..], desiredOrientation, isCCW) ==> r == coord
    ensures NeedsReversal(coord[..], desiredOrientation, isCCW) ==> fresh(r)
  {
    if coord.Length == 0 {
      return coord;
    }
    var orientation := OrientationOf(coord[..], isCCW);
    if orientation != desiredOrientation {
      var reverse := new Coord[coord.Length](i requires 0 <= i < coord.Length reads coord => coord[i]);
      assert reverse[..] == coord[..];
      Reverse(reverse);
      return reverse;
    }
    return coord;
  }

  /** Under the hypothesis that reversing a ring flips the orientation test,
      the result has the desired orientation. */
  lemma OrientedAchievesDesired(ring: seq<Coord>, desired: int, isCCW: seq<Coord> -> bool)
    requires |ring| > 0
    requires desired == CLOCKWISE || desired == COUNTERCLOCKWISE
    requires isCCW(Reversed(ring)) == !isCCW(ring)
    ensures OrientationOf(Oriented(ring, desired, isCCW), isCCW) == desired
  {
  }

  /** Under the same hypothesis, orienting twice is orienting once. */
  lemma OrientedIdempotent(ring: seq<Coord>, desired: int, isCCW: seq<Coord> -> bool)
    requires desired == CLOCKWISE || desired == COUNTERCLOCKWISE
    requires isCCW(Reversed(ring)) == !isCCW(ring)
    ensures Oriented(Oriented(ring, desired, isCCW), desired, isCCW) == Oriented(ring, desired, isCCW)
  {
  }

  /** Under the same hypothesis, orienting a clockwise-normalised ring
      counter-clockwise reverses it exactly. */
  lemma OrientedOpposite(ring: seq<Coord>, isCCW: seq<Coord> -> bool)
    requires |ring| > 0
    requires isCCW(Reversed(ring)) == !isCCW(ring)
    ensures var cw := Oriented(ring, CLOCKWISE, isCCW);
            Oriented(cw, COUNTERCLOCKWISE, isCCW) == Reversed(cw)
  {
  }

  /** Without that hypothesis orienting is not idempotent: a flat ring, for
      which the test answers "not counter-clockwise" both ways round, is
      reversed by the first call and reversed back by the second. */
  lemma FlatRingNotIdempotent()
    ensures var flat := (s: seq<Coord>) => false;
            var ring := [Coord(0.0, 0.0), Coord(1.0, 0.0)];
            Oriented(ring, COUNTERCLOCKWISE, flat) != ring &&
            Oriented(Oriented(ring, COUNTERCLOCKWISE, flat), COUNTERCLOCKWISE, flat) == ring
  {
    var flat := (s: seq<Coord>) => false;
    var ring := [Coord(0.0, 0.0), Coord(1.0, 0.0)];
    var once := Oriented(ring, COUNTERCLOCKWISE, flat);
    assert once[0] == Coord(1.0, 0.0);
    ReversedTwice(ring);
  }

  // ---------------------------------------------------------------------
  // Extraction
  // ---------------------------------------------------------------------

  /** Where an extracted array comes from: a line, a polygon shell or a hole. */
  datatype Role = Line | Shell | Hole

  /** A stored coordinate array of the geometry and its role. */
  datatype RingRef = RingRef(coords: array<Coord>, role: Role)

  /** The outcome of a traversal: the stored arrays visited, in order, and the
      failure that stopped it, if any. */
  datatype Walk = Walk(rings: seq<RingRef>, failed: Option<string>)

  /** The orientation a polygon ring is normalised to. */
  function Desired(role: Role): int
    requires role != Line
  {
    if role == Shell then CLOCKWISE else COUNTERCLOCKWISE
  }

  /** The message text the utility hands to `Assert.shouldNeverReachHere` for
      an unhandled geometry class. The exception that call throws may word its
      own message differently; the model reports this text as the failure. */
  function UnhandledMessage(className: string): string
  {
    "Geometry of type " + className + " not handled"
  }

  /** One traversal after another; the second only runs if the first did not fail. */
  function Then(first: Walk, rest: Walk): Walk
  {
    if first.failed.Some? then first else Walk(first.rings + rest.rings, rest.failed)
  }

  function HoleRefs(holes: seq<array<Coord>>): seq<RingRef>
  {
    seq(|holes|, i requires 0 <= i < |holes| => RingRef(holes[i], Hole))
  }

  /** The arrays `addCoordinateArrays` visits for `g`, before any reorientation. */
  function Visit(g: Geometry): Walk
    decreases g
  {
    if Dim(g) <= 0 then Walk([], None)
    else
      match g
      case LineString(points) => Walk([RingRef(points, Line)], None)
      case Polygon(shell, holes) => Walk([RingRef(shell, Shell)] + HoleRefs(holes), None)
      case Collection(_, members) => VisitAll(members)
      case Unhandled(className, _) => Walk([], Some(UnhandledMessage(className)))
      case Point(_) => assert false; Walk([], None)
  }

  /** The members of a collection visited in index order. */
  function VisitAll(ms: seq<Geometry>): Walk
    decreases ms
  {
    if |ms| == 0 then Walk([], None) else Then(Visit(ms[0]), VisitAll(ms[1..]))
  }

  /** Visiting a concatenation visits the first part, then (unless it failed)
      the second. */
  lemma {:induction false} VisitAllConcat(a: seq<Geometry>, b: seq<Geometry>)
    ensures VisitAll(a + b) == Then(VisitAll(a), VisitAll(b))
  {
    if |a| == 0 {
      assert a + b == b;
    } else {
      assert (a + b)[1..] == a[1..] + b;
      VisitAllConcat(a[1..], b);
    }
  }

  lemma VisitAllSingle(m: Geometry)
    ensures VisitAll([m]) == Visit(m)
  {
    assert [m][1..] == [];
    assert Visit(m).rings + [] == Visit(m).rings;
  }

  /** Visiting one more member of a prefix that did not fail. */
  lemma VisitPrefixStep(ms: seq<Geometry>, i: int)
    requires 0 <= i < |ms|
    requires VisitAll(ms[..i]).failed == None
    ensures VisitAll(ms[..i + 1]) == Walk(VisitAll(ms[..i]).rings + Visit(ms[i]).rings, Visit(ms[i]).failed)
  {
    var prefix := ms[..i];
    assert ms[..i + 1] == prefix + [ms[i]];
    VisitAllConcat(prefix, [ms[i]]);
    VisitAllSingle(ms[i]);
  }

  /** Once a prefix fails, the members after it are not visited. */
  lemma VisitStopsAtFailure(ms: seq<Geometry>, i: int)
    requires 0 <= i <= |ms|
    requires VisitAll(ms[..i]).failed.Some?
    ensures VisitAll(ms) == VisitAll(ms[..i])
  {
    var prefix, rest := ms[..i], ms[i..];
    assert ms == prefix + rest;
    VisitAllConcat(prefix, rest);
  }

  /** With no failure on the way, a member's arrays come out after those of
      the members before it and before those of the members after it. */
  lemma MembersInIndexOrder(before: seq<Geometry>, m: Geometry, after: seq<Geometry>)
    requires VisitAll(before + [m] + after).failed == None
    ensures VisitAll(before).failed == None && Visit(m).failed == None
    ensures VisitAll(before + [m] + after).rings == VisitAll(before).rings + Visit(m).rings + VisitAll(after).rings
  {
    VisitAllConcat(before + [m], after);
    VisitAllConcat(before, [m]);
    VisitAllSingle(m);
  }

  /** How many arrays a geometry yields, by shape: none for a point, one for a
      line, the shell and each hole of a polygon, the sum over the members of
      a collection. */
  function RingCount(g: Geometry): nat
    decreases g
  {
    match g
    case Point(_) => 0
    case LineString(_) => 1
    case Polygon(_, holes) => 1 + |holes|
    case Collection(_, members) => RingCountAll(members)
    case Unhandled(_, _) => 0
  }

  function RingCountAll(ms: seq<Geometry>): nat
    decreases ms
  {
    if |ms| == 0 then 0 else RingCount(ms[0]) + RingCountAll(ms[1..])
  }

  /** A well-formed geometry of dimension 0 or less holds no line or ring and
      no unhandled geometry that would be reached. */
  lemma {:induction false} FlatHoldsNoRings(g: Geometry)
    requires WellFormed(g) && Dim(g) <= 0
    ensures RingCount(g) == 0 && !HasUnhandled(g)
    decreases g
  {
    match g
    case Collection(kind, members) =>
      assert kind == MultiPoint || kind == Heterogeneous;
      DimAllIsMax(members);
      FlatMembersHoldNoRings(members);
    case _ =>
  }

  lemma {:induction false} FlatMembersHoldNoRings(ms: seq<Geometry>)
    requires forall i :: 0 <= i < |ms| ==> WellFormed(ms[i]) && Dim(ms[i]) <= 0
    ensures RingCountAll(ms) == 0
    ensures forall i :: 0 <= i < |ms| ==> !HasUnhandled(ms[i])
    decreases ms
  {
    if |ms| > 0 {
      FlatHoldsNoRings(ms[0]);
      FlatMembersHoldNoRings(ms[1..]);
      assert forall i :: 1 <= i < |ms| ==> ms[i] == ms[1..][i - 1];
    }
  }

  /** On a well-formed geometry the traversal fails exactly when an unhandled
      geometry of positive dimension is reachable; otherwise it yields as many
      arrays as `RingCount` says. */
  lemma {:induction false} ExtractionCount(g: Geometry)
    requires WellFormed(g)
    ensures Visit(g).failed.Some? <==> HasUnhandled(g)
    ensures !HasUnhandled(g) ==> |Visit(g).rings| == RingCount(g)
    decreases g
  {
    if Dim(g) <= 0 {
      FlatHoldsNoRings(g);
    } else {
      match g
      case Collection(kind, members) =>
        ExtractionCountAll(members);
      case _ =>
    }
  }

  lemma {:induction false} ExtractionCountAll(ms: seq<Geometry>)
    requires forall i :: 0 <= i < |ms| ==> WellFormed(ms[i])
    ensures VisitAll(ms).failed.Some? <==> exists i :: 0 <= i < |ms| && HasUnhandled(ms[i])
    ensures (forall i :: 0 <= i < |ms| ==> !HasUnhandled(ms[i])) ==> |VisitAll(ms).rings| == RingCountAll(ms)
    decreases ms
  {
    if |ms| > 0 {
      ExtractionCount(ms[0]);
      ExtractionCountAll(ms[1..]);
      assert forall i :: 1 <= i < |ms| ==> ms[i] == ms[1..][i - 1];
    }
  }

  /** A collection of a point, a line and a polygon with one hole yields the
      line, then the shell, then the hole. */
  lemma MixedCollectionExample(p: Coord, line: array<Coord>, shell: array<Coord>, hole: array<Coord>)
    ensures Visit(Collection(Heterogeneous, [Point(Some(p)), LineString(line), Polygon(shell, [hole])]))
            == Walk([RingRef(line, Line), RingRef(shell, Shell), RingRef(hole, Hole)], None)
  {
    var poly := Polygon(shell, [hole]);
    var ms := [Point(Some(p)), LineString(line), poly];
    var polyRings := [RingRef(shell, Shell), RingRef(hole, Hole)];
    assert HoleRefs([hole]) == [RingRef(hole, Hole)];
    assert Visit(poly) == Walk(polyRings, None);
    VisitAllSingle(poly);
    assert ms[1..] == [LineString(line)] + [poly];
    VisitAllConcat([LineString(line)], [poly]);
    VisitAllSingle(LineString(line));
    assert VisitAll(ms[1..]) == Walk([RingRef(line, Line)] + polyRings, None);
    assert ms == [Point(Some(p))] + ms[1..];
    VisitAllConcat([Point(Some(p))], ms[1..]);
    VisitAllSingle(Point(Some(p)));
    DimAllIsMax(ms);
    assert DimAll(ms) >= Dim(ms[2]) == 2;
  }

  /** A polygon whose shell winds counter-clockwise and whose hole winds
      clockwise: oriented extraction delivers both reversed, in fresh arrays;
      plain extraction delivers the stored arrays themselves. */
  lemma PolygonOrientationExample(shell: array<Coord>, hole: array<Coord>, isCCW: seq<Coord> -> bool,
                                  orientPolygons: bool, out: seq<array<Coord>>)
    requires shell.Length > 0 && hole.Length > 0
    requires isCCW(shell[..]) && !isCCW(hole[..])
    requires DeliveredAll(Visit(Polygon(shell, [hole])).rings, out, orientPolygons, isCCW)
    ensures |out| == 2
    ensures orientPolygons ==> out[0] != shell && out[0][..] == Reversed(shell[..])
    ensures orientPolygons ==> out[1] != hole && out[1][..] == Reversed(hole[..])
    ensures !orientPolygons ==> out == [shell, hole]
  {
    var refs := [RingRef(shell, Shell), RingRef(hole, Hole)];
    assert HoleRefs([hole]) == [RingRef(hole, Hole)];
    assert Visit(Polygon(shell, [hole])).rings == refs;
    assert Delivered(refs[0], out[0], orientPolygons, isCCW);
    assert Delivered(refs[1], out[1], orientPolygons, isCCW);
  }

  /** A multipolygon of two polygons whose shells both wind counter-clockwise:
      oriented extraction delivers two reversed shells in two different new
      arrays, even when both polygons share one shell array. */
  lemma ReorientedShellsExample(s1: array<Coord>, s2: array<Coord>, isCCW: seq<Coord> -> bool,
                                out: seq<array<Coord>>)
    requires s1.Length > 0 && s2.Length > 0
    requires isCCW(s1[..]) && isCCW(s2[..])
    requires DeliveredAll(Visit(Collection(MultiPolygon, [Polygon(s1, []), Polygon(s2, [])])).rings, out, true, isCCW)
    requires CopiesDistinct(Visit(Collection(MultiPolygon, [Polygon(s1, []), Polygon(s2, [])])).rings, out)
    ensures |out| == 2
    ensures out[0] != s1 && out[0][..] == Reversed(s1[..])
    ensures out[1] != s2 && out[1][..] == Reversed(s2[..])
    ensures out[0] != out[1]
  {
    var ms := [Polygon(s1, []), Polygon(s2, [])];
    assert HoleRefs([]) == [];
    assert Visit(ms[0]) == Walk([RingRef(s1, Shell)], None);
    assert Visit(ms[1]) == Walk([RingRef(s2, Shell)], None);
    assert ms[1..] == [ms[1]];
    VisitAllSingle(ms[1]);
    var refs := [RingRef(s1, Shell), RingRef(s2, Shell)];
    assert Visit(Collection(MultiPolygon, ms)).rings == refs;
    assert Delivered(refs[0], out[0], true, isCCW);
    assert Delivered(refs[1], out[1], true, isCCW);
  }

  /** Re-extracting the geometries made from coordinate arrays gives back,
      in order, exactly the arrays that became lines; single coordinates and
      empty arrays became points and are dropped. */
  function LinesOf(arrays: seq<array<Coord>>): seq<RingRef>
  {
    if |arrays| == 0 then []
    else (if arrays[0].Length > 1 then [RingRef(arrays[0], Line)] else []) + LinesOf(arrays[1..])
  }

  lemma {:induction false} ReextractLinesOrPoints(arrays: seq<array<Coord>>, geoms: seq<Geometry>)
    requires |geoms| == |arrays|
    requires forall i :: 0 <= i < |arrays| ==> geoms[i] == ToLineOrPoint(arrays[i])
    ensures VisitAll(geoms) == Walk(LinesOf(arrays), None)
  {
    if |arrays| > 0 {
      assert geoms[0] == ToLineOrPoint(arrays[0]);
      ReextractLinesOrPoints(arrays[1..], geoms[1..]);
    }
  }

  // ---------------------------------------------------------------------
  // What is delivered for each visited array
  // ---------------------------------------------------------------------

  /** `out` is what the utility delivers for the stored array `ring`: the stored
      array itself, unless polygon rings are being oriented and this ring has
      the wrong orientation, in which case a different array holding the
      coordinates in reverse order. */
  ghost predicate Delivered(ring: RingRef, out: array<Coord>, orientPolygons: bool, isCCW: seq<Coord> -> bool): (b: bool)
    reads ring.coords, out
    ensures b ==> multiset(out[..]) == multiset(ring.coords[..])
    ensures b && out != ring.coords ==> orientPolygons && ring.role != Line
    ensures b && out != ring.coords ==> out[..] == Reversed(ring.coords[..])
  {
    if orientPolygons && ring.role != Line
    then out[..] == Oriented(ring.coords[..], Desired(ring.role), isCCW)
         && (out == ring.coords <==> !NeedsReversal(ring.coords[..], Desired(ring.role), isCCW))
    else out == ring.coords
  }

  function RingArrays(refs: seq<RingRef>): set<array<Coord>>
  {
    set i | 0 <= i < |refs| :: refs[i].coords
  }

  ghost predicate DeliveredAll(refs: seq<RingRef>, out: seq<array<Coord>>, orientPolygons: bool, isCCW: seq<Coord> -> bool)
    reads RingArrays(refs), set i | 0 <= i < |out| :: out[i]
  {
    |refs| == |out| &&
    forall i :: 0 <= i < |refs| ==> Delivered(refs[i], out[i], orientPolygons, isCCW)
  }

  lemma DeliveredAllAppend(refs: seq<RingRef>, out: seq<array<Coord>>, refs': seq<RingRef>, out': seq<array<Coord>>,
                           orientPolygons: bool, isCCW: seq<Coord> -> bool)
    requires DeliveredAll(refs, out, orientPolygons, isCCW)
    requires DeliveredAll(refs', out', orientPolygons, isCCW)
    ensures DeliveredAll(refs + refs', out + out', orientPolygons, isCCW)
  {
    forall i | 0 <= i < |refs + refs'|
      ensures Delivered((refs + refs')[i], (out + out')[i], orientPolygons, isCCW)
    {
      if i >= |refs| {
        assert (refs + refs')[i] == refs'[i - |refs|];
        assert (out + out')[i] == out'[i - |refs|];
      }
    }
  }

  /** The entries of `out` that are not the stored array they stand for (the
      reoriented rings) are pairwise different arrays: every reversal is a
      clone of its own. */
  predicate CopiesDistinct(refs: seq<RingRef>, out: seq<array<Coord>>)
  {
    forall j, k ::
      0 <= j < k < |out| && k < |refs| && out[j] != refs[j].coords && out[k] != refs[k].coords ==>
        out[j] != out[k]
  }

  lemma CopiesDistinctAppend(refs: seq<RingRef>, out: seq<array<Coord>>, refs': seq<RingRef>, out': seq<array<Coord>>)
    requires |refs| == |out| && |refs'| == |out'|
    requires CopiesDistinct(refs, out) && CopiesDistinct(refs', out')
    requires forall j, k ::
      0 <= j < |out| && 0 <= k < |out'| && out[j] != refs[j].coords && out'[k] != refs'[k].coords ==>
        out[j] != out'[k]
    ensures CopiesDistinct(refs + refs', out + out')
  {
    forall j, k | 0 <= j < k < |out + out'| && (out + out')[j] != (refs + refs')[j].coords
                  && (out + out')[k] != (refs + refs')[k].coords
      ensures (out + out')[j] != (out + out')[k]
    {
      if k < |out| {
        assert (out + out')[j] == out[j] && (out + out')[k] == out[k];
        assert (refs + refs')[j] == refs[j] && (refs + refs')[k] == refs[k];
      } else if j < |out| {
        assert (out + out')[j] == out[j] && (refs + refs')[j] == refs[j];
        assert (out + out')[k] == out'[k - |out|] && (refs + refs')[k] == refs'[k - |out|];
      } else {
        assert (out + out')[j] == out'[j - |out|] && (refs + refs')[j] == refs'[j - |out|];
        assert (out + out')[k] == out'[k - |out|] && (refs + refs')[k] == refs'[k - |out|];
      }
    }
  }

  /** Each entry of `out` is the stored array it stands for, or an array
      allocated since the previous state; the allocated ones are all
      different. */
  twostate predicate FreshOrStored(new refs: seq<RingRef>, new out: seq<array<Coord>>)
  {
    && |out| == |refs|
    && (forall j :: 0 <= j < |out| ==> out[j] == refs[j].coords || fresh(out[j]))
    && CopiesDistinct(refs, out)
  }

  /** Arrays that existed in the previous state differ from the copies made
      since then. */
  twostate lemma CopiesAreNew(prev: seq<array<Coord>>, new refs: seq<RingRef>, new out: seq<array<Coord>>)
    requires forall j :: 0 <= j < |prev| ==> old(allocated(prev[j]))
    requires FreshOrStored(refs, out)
    ensures forall j, k :: 0 <= j < |prev| && 0 <= k < |out| && out[k] != refs[k].coords ==> prev[j] != out[k]
  {
  }

  twostate lemma FreshOrStoredAppend(new refs: seq<RingRef>, new out: seq<array<Coord>>,
                                     new refs': seq<RingRef>, new out': seq<array<Coord>>)
    requires FreshOrStored(refs, out) && FreshOrStored(refs', out')
    requires forall j, k ::
      0 <= j < |out| && 0 <= k < |out'| && out[j] != refs[j].coords && out'[k] != refs'[k].coords ==>
        out[j] != out'[k]
    ensures FreshOrStored(refs + refs', out + out')
  {
    CopiesDistinctAppend(refs, out, refs', out');
    forall j | 0 <= j < |out + out'|
      ensures (out + out')[j] == (refs + refs')[j].coords || fresh((out + out')[j])
    {
      if j >= |out| {
        assert (out + out')[j] == out'[j - |out|] && (refs + refs')[j] == refs'[j - |out|];
      }
    }
  }

  /** A growable list of coordinate arrays (`java.util.List<Coordinate[]>`). */
  class CoordArrayList {
    var items: seq<array<Coord>>

    constructor ()
      ensures items == []
    {
      items := [];
    }

    method Add(a: array<Coord>)
      modifies this
      ensures items == old(items) + [a]
    {
      items := items + [a];
    }
  }

  /**
   * `addCoordinateArrays`: appends to `list`, and only appends, one array per
   * visited line or ring, in visiting order: nothing for a geometry of
   * dimension 0 or less, the coordinates of a line, a polygon's shell then its
   * holes in stored order, the members of a collection in index order. With
   * `orientPolygons`, shells are oriented clockwise and holes
   * counter-clockwise; a reoriented ring is a fresh array, every other entry is
   * the geometry's own array. An unhandled geometry class stops the traversal
   * with the assertion message; what was appended before it stays appended.
   */
  method AddCoordinateArrays(g: Geometry, orientPolygons: bool, isCCW: seq<Coord> -> bool, list: CoordArrayList)
    returns (failure: Option<string>)
    modifies list
    decreases g
    ensures failure == Visit(g).failed
    ensures |old(list.items)| <= |list.items| && list.items[..|old(list.items)|] == old(list.items)
    ensures DeliveredAll(Visit(g).rings, list.items[|old(list.items)|..], orientPolygons, isCCW)
    ensures FreshOrStored(Visit(g).rings, list.items[|old(list.items)|..])
  {
    ghost var start := list.items;
    if Dim(g) <= 0 {
      assert list.items[|start|..] == [];
      return None;
    }
    match g
    case LineString(points) =>
      list.Add(points);
      assert list.items[|start|..] == [points];
      failure := None;
    case Polygon(shell, holes) =>
      AddPolygonRings(shell, holes, orientPolygons, isCCW, list);
      failure := None;
    case Collection(_, members) =>
      failure := AddMembers(members, orientPolygons, isCCW, list);
    case Unhandled(className, _) =>
      assert list.items[|start|..] == [];
      failure := Some(UnhandledMessage(className));
    case Point(_) =>
      assert false;
  }

  /** The polygon branch of `addCoordinateArrays`: the shell, then each hole. */
  method AddPolygonRings(shell: array<Coord>, holes: seq<array<Coord>>, orientPolygons: bool,
                         isCCW: seq<Coord> -> bool, list: CoordArrayList)
    modifies list
    ensures |old(list.items)| <= |list.items| && list.items[..|old(list.items)|] == old(list.items)
    ensures DeliveredAll([RingRef(shell, Shell)] + HoleRefs(holes), list.items[|old(list.items)|..], orientPolygons, isCCW)
    ensures FreshOrStored([RingRef(shell, Shell)] + HoleRefs(holes), list.items[|old(list.items)|..])
  {
    ghost var start := list.items;
    var added := AddRing(shell, Shell, orientPolygons, isCCW, list);
    label holes:
    AddHoles(holes, orientPolygons, isCCW, list);
    ghost var rest := list.items[|start| + 1..];
    assert old@holes(Delivered(RingRef(shell, Shell), added, orientPolygons, isCCW));
    assert FreshOrStored@holes(HoleRefs(holes), rest);
    CopiesAreNew@holes([added], HoleRefs(holes), rest);
    assert FreshOrStored([RingRef(shell, Shell)], [added]);
    assert FreshOrStored(HoleRefs(holes), rest);
    FreshOrStoredAppend([RingRef(shell, Shell)], [added], HoleRefs(holes), rest);
    assert list.items[|start|..] == [added] + rest;
    DeliveredAllAppend([RingRef(shell, Shell)], [added], HoleRefs(holes), rest, orientPolygons, isCCW);
  }

  /** The loop over the holes in the polygon branch of `addCoordinateArrays`. */
  method AddHoles(holes: seq<array<Coord>>, orientPolygons: bool, isCCW: seq<Coord> -> bool, list: CoordArrayList)
    modifies list
    ensures |list.items| == |old(list.items)| + |holes| && list.items[..|old(list.items)|] == old(list.items)
    ensures DeliveredAll(HoleRefs(holes), list.items[|old(list.items)|..], orientPolygons, isCCW)
    ensures FreshOrStored(HoleRefs(holes), list.items[|old(list.items)|..])
  {
    ghost var start := list.items;
    ghost var refs := HoleRefs(holes);
    assert list.items[|start|..] == [];
    for i := 0 to |holes|
      invariant |list.items| == |start| + i && list.items[..|start|] == start
      invariant DeliveredAll(refs[..i], list.items[|start|..], orientPolygons, isCCW)
      invariant FreshOrStored(refs[..i], list.items[|start|..])
    {
      ghost var prev := list.items[|start|..];
      label add:
      var hole := AddRing(holes[i], Hole, orientPolygons, isCCW, list);
      forall j | 0 <= j < |prev| ensures Delivered(refs[j], prev[j], orientPolygons, isCCW) {
        assert old@add(Delivered(refs[j], prev[j], orientPolygons, isCCW));
      }
      assert refs[i] == RingRef(holes[i], Hole);
      assert FreshOrStored@add([refs[i]], [hole]);
      CopiesAreNew@add(prev, [refs[i]], [hole]);
      assert FreshOrStored([refs[i]], [hole]);
      FreshOrStoredAppend(refs[..i], prev, [refs[i]], [hole]);
      assert refs[..i + 1] == refs[..i] + [refs[i]];
      assert list.items[|start|..] == prev + [hole];
      DeliveredAllAppend(refs[..i], prev, [refs[i]], [hole], orientPolygons, isCCW);
    }
    assert refs[..|holes|] == refs;
  }

  /** Appends one polygon ring, first oriented as its role demands when
      `orientPolygons` is set. */
  method AddRing(ring: array<Coord>, role: Role, orientPolygons: bool, isCCW: seq<Coord> -> bool, list: CoordArrayList)
    returns (added: array<Coord>)
    requires role != Line
    modifies list
    ensures list.items == old(list.items) + [added]
    ensures Delivered(RingRef(ring, role), added, orientPolygons, isCCW)
    ensures added == ring || fresh(added)
  {
    added := ring;
    if orientPolygons {
      added := EnsureOrientation(ring, Desired(role), isCCW);
    }
    list.Add(added);
  }

  /** The collection branch of `addCoordinateArrays`: each member in index
      order, stopping at the first failure. */
  method AddMembers(members: seq<Geometry>, orientPolygons: bool, isCCW: seq<Coord> -> bool, list: CoordArrayList)
    returns (failure: Option<string>)
    modifies list
    decreases members
    ensures failure == VisitAll(members).failed
    ensures |old(list.items)| <= |list.items| && list.items[..|old(list.items)|] == old(list.items)
    ensures DeliveredAll(VisitAll(members).rings, list.items[|old(list.items)|..], orientPolygons, isCCW)
    ensures FreshOrStored(VisitAll(members).rings, list.items[|old(list.items)|..])
  {
    ghost var start := list.items;
    var i := 0;
    while i < |members|
      invariant 0 <= i <= |members|
      invariant |start| <= |list.items| && list.items[..|start|] == start
      invariant VisitAll(members[..i]).failed == None
      invariant DeliveredAll(VisitAll(members[..i]).rings, list.items[|start|..], orientPolygons, isCCW)
      invariant FreshOrStored(VisitAll(members[..i]).rings, list.items[|start|..])
    {
      ghost var before := list.items;
      ghost var done := VisitAll(members[..i]);
      ghost var prev := before[|start|..];
      label call:
      var f := AddCoordinateArrays(members[i], orientPolygons, isCCW, list);
      forall j | 0 <= j < |prev| ensures Delivered(done.rings[j], prev[j], orientPolygons, isCCW) {
        assert old@call(Delivered(done.rings[j], prev[j], orientPolygons, isCCW));
      }
      ghost var step := Visit(members[i]);
      ghost var added := list.items[|before|..];
      assert FreshOrStored@call(step.rings, added);
      CopiesAreNew@call(prev, step.rings, added);
      assert FreshOrStored(step.rings, added);
      FreshOrStoredAppend(done.rings, prev, step.rings, added);
      assert list.items[|start|..] == prev + added;
      DeliveredAllAppend(done.rings, prev, step.rings, added, orientPolygons, isCCW);
      VisitPrefixStep(members, i);
      if f.Some? {
        VisitStopsAtFailure(members, i + 1);
        return f;
      }
      i := i + 1;
    }
    assert members[..i] == members;
    failure := None;
  }

  /**
   * `toCoordinateArrays`: a new list holding exactly what
   * `addCoordinateArrays` appends for `g`, or the assertion failure.
   */
  method ToCoordinateArrays(g: Geometry, orientPolygons: bool, isCCW: seq<Coord> -> bool)
    returns (result: Result<CoordArrayList>)
    ensures result.Failure? <==> Visit(g).failed.Some?
    ensures result.Failure? ==> Visit(g).failed == Some(result.error)
    ensures result.Success? ==> fresh(result.value)
    ensures result.Success? ==> DeliveredAll(Visit(g).rings, result.value.items, orientPolygons, isCCW)
    ensures result.Success? ==> FreshOrStored(Visit(g).rings, result.value.items)
  {
    var list := new CoordArrayList();
    var failure := AddCoordinateArrays(g, orientPolygons, isCCW, list);
    if failure.Some? {
      return Failure(failure.value);
    }
    assert list.items[0..] == list.items;
    return Success(list);
  }
}
