# Coordinate arrays of OpenJUMP geometries, in Dafny

This project models `com.vividsolutions.jump.util.CoordinateArrays`, the
workbench utility that flattens a JTS geometry into the ordered list of its
coordinate arrays and turns coordinate arrays back into geometries:

- `addCoordinateArrays` / `toCoordinateArrays` walk a geometry depth-first.
  Anything of dimension 0 or less (points, multipoints, empty collections)
  yields nothing. A line yields its coordinate array. A polygon yields its
  shell, then its holes in stored order. A collection yields its members'
  arrays in index order. With `orientPolygons`, shells are made clockwise and
  holes counter-clockwise. Any other geometry class of positive dimension
  fails with the assertion "Geometry of type ... not handled". The dimension
  test comes first, so such a class of dimension 0 or less yields nothing.
- `ensureOrientation` returns the input array itself when it is empty or
  already has the desired orientation. Otherwise it returns a clone with the
  coordinates reversed in place.
- `toLineOrPoint` / `fromCoordinateArrays` make a line (more than one
  coordinate), a point (one) or an empty point (none) from each array.

Files:

- `geometry.dfy` (module `Geometry`) holds the slice of the JTS model the
  utility uses. It has coordinates, the orientation codes (`CLOCKWISE` = -1,
  `COUNTERCLOCKWISE` = 1), the geometry variants and `Dim`. `Dim` follows
  `getDimension`: a general collection reports the largest dimension of its
  members, or -1 when empty, and MultiPoint, MultiLineString and MultiPolygon
  report 0, 1 and 2. Coordinate arrays are Dafny arrays, so "the same array"
  and "a fresh copy" are different things, as they are in Java.
- `coordinate_arrays.dfy` (module `CoordinateArrays`) holds the utility.
  `Visit` is the specification of the traversal: the stored arrays it reaches,
  with their roles (line, shell or hole), and the failure that stops it.
  `Delivered` says what is appended for each one: the stored array itself, or,
  for a polygon ring with the wrong orientation while orienting, a different
  array holding the coordinates reversed. The methods are proved against
  these. The lemmas prove the counts, the order and the round trips.

The JTS orientation test `Orientation.isCCW` is a parameter
`isCCW: seq<Coord> -> bool`, so every result holds for any orientation test.
The Java list passed to `addCoordinateArrays` is the class `CoordArrayList`.
Its only operation is `Add`, which appends. The method's `modifies list`
clause is what states that no coordinate array of the geometry is changed.

## Model

| member | source | states |
|---|---|---|
| Geometry.Dim | src/com/vividsolutions/jump/util/CoordinateArrays.java:110 | The dimension tested first, as `getDimension` reports it. A point is 0, a line 1 and a polygon 2. MultiPoint, MultiLineString and MultiPolygon report 0, 1 and 2. A general collection reports `DimAll` of its members. An unhandled class reports its own dimension. This is a definition with no contract of its own; `DimAllIsMax` states its properties. |
| Geometry.DimAll | src/com/vividsolutions/jump/util/CoordinateArrays.java:110 | The dimension of a general collection: the largest member dimension, starting from -1. This is a definition; `DimAllIsMax` states its properties. |
| Geometry.DimAllIsMax | src/com/vividsolutions/jump/util/CoordinateArrays.java:110 | An empty collection has dimension -1. The dimension is never below -1, every member's dimension is at most it, and when it is above -1 some member has exactly that dimension. |
| CoordinateArrays.ToLineOrPoint | src/com/vividsolutions/jump/util/CoordinateArrays.java:66-77 | The result is a line exactly when there are more than one coordinate, and that line holds the very same array. Otherwise it is a point whose coordinates (one, or none for the empty point) are exactly the array's. The result is never missing. Its dimension is 1 or 0 accordingly. |
| CoordinateArrays.FromCoordinateArrays | src/com/vividsolutions/jump/util/CoordinateArrays.java:89-99 | The output has one geometry per input array, in the same order. Entry i is `ToLineOrPoint` of array i. |
| CoordinateArrays.ReextractLinesOrPoints | src/com/vividsolutions/jump/util/CoordinateArrays.java:89-99 | Extracting again from the geometries made from arrays gives back, in order and without failure, exactly the arrays that became lines. |
| CoordinateArrays.OrientationOf | src/com/vividsolutions/jump/util/CoordinateArrays.java:159-160 | The computed orientation is always CLOCKWISE or COUNTERCLOCKWISE, and it is COUNTERCLOCKWISE exactly when the test says counter-clockwise. |
| CoordinateArrays.NeedsReversal | src/com/vividsolutions/jump/util/CoordinateArrays.java:155-162 | Whether `ensureOrientation` reverses. When clockwise is wanted, a ring is reversed exactly when it is non-empty and the test says counter-clockwise. When counter-clockwise is wanted, exactly when it is non-empty and the test says clockwise. |
| CoordinateArrays.Oriented | src/com/vividsolutions/jump/util/CoordinateArrays.java:154-170 | The contents `ensureOrientation` returns. They are a permutation of the input with the same length. An empty input, or one that needs no reversal, is returned as is. Otherwise element k is input element n-1-k. |
| CoordinateArrays.EnsureOrientation | src/com/vividsolutions/jump/util/CoordinateArrays.java:154-170 | The result holds `Oriented` of the input. When no reversal is needed (empty, or already the desired orientation) it is the input array itself. Otherwise it is freshly allocated. The input is not modified. |
| CoordinateArrays.Reverse | src/com/vividsolutions/jump/util/CoordinateArrays.java:163-164 | The in-place reversal of the clone leaves the array holding `Reversed` of its old contents. |
| CoordinateArrays.ReversedAt | src/com/vividsolutions/jump/util/CoordinateArrays.java:163-164 | Element k of the reversed coordinates is element n-1-k of the input. |
| CoordinateArrays.ReversedTwice | src/com/vividsolutions/jump/util/CoordinateArrays.java:163-164 | Reversing twice gives back the input. |
| CoordinateArrays.ReversedPermutes | src/com/vividsolutions/jump/util/CoordinateArrays.java:163-164 | Reversal keeps every coordinate, with its multiplicity. |
| CoordinateArrays.OrientedAchievesDesired | src/com/vividsolutions/jump/util/CoordinateArrays.java:159-169 | If reversing a non-empty ring flips the orientation test, the result has the desired orientation. |
| CoordinateArrays.OrientedIdempotent | src/com/vividsolutions/jump/util/CoordinateArrays.java:159-169 | If reversing flips the test, orienting twice equals orienting once. |
| CoordinateArrays.OrientedOpposite | src/com/vividsolutions/jump/util/CoordinateArrays.java:159-169 | If reversing flips the test, orienting a clockwise-normalised non-empty ring counter-clockwise reverses it exactly. |
| CoordinateArrays.FlatRingNotIdempotent | src/com/vividsolutions/jump/util/CoordinateArrays.java:159-169 | Take a flat ring that the test calls clockwise both ways round. Orienting it counter-clockwise reverses it, and orienting again restores the original. |
| CoordinateArrays.Visit | src/com/vividsolutions/jump/util/CoordinateArrays.java:108-145 | The specification of the traversal, a definition with no contract of its own. Dimension 0 or less yields nothing. A line yields its array. A polygon yields its shell, then its holes in index order. A collection yields `VisitAll` of its members. Any other class fails with "Geometry of type ... not handled". `ExtractionCount` states what it yields. |
| CoordinateArrays.VisitAll | src/com/vividsolutions/jump/util/CoordinateArrays.java:134-140 | The members of a collection, in index order, each after the previous one unless that one failed. This is a definition; `VisitAllConcat`, `VisitStopsAtFailure` and `ExtractionCountAll` state its properties. |
| CoordinateArrays.Delivered | src/com/vividsolutions/jump/util/CoordinateArrays.java:112-132 | What is appended for one visited array. It always holds the same coordinates as the stored array, with their multiplicities. Only a polygon ring while orienting is ever replaced, and a replacement holds the coordinates reversed. For a polygon ring while orienting, the entry holds `Oriented` of the ring, and is the stored array exactly when no reversal is needed. Otherwise it is the stored array itself. |
| CoordinateArrays.AddCoordinateArrays | src/com/vividsolutions/jump/util/CoordinateArrays.java:108-145 | Only appends: the entries already in the list are unchanged. Appended entry i is `Delivered` for the i-th stored array `Visit` reaches. Each entry is that stored array or a fresh one. The entries that replace their stored array are pairwise different arrays, since each reversal is a clone of its own. The failure returned is the one `Visit` reaches ("Geometry of type ... not handled"). |
| CoordinateArrays.AddPolygonRings | src/com/vividsolutions/jump/util/CoordinateArrays.java:115-133 | Appends the shell (made clockwise when orienting), then each hole in index order (made counter-clockwise when orienting). Earlier entries are left alone. Each entry is the stored ring or a fresh array, and the fresh ones are pairwise different. |
| CoordinateArrays.AddHoles | src/com/vividsolutions/jump/util/CoordinateArrays.java:125-133 | Appends exactly one entry per hole, in index order, each `Delivered` for a hole. Each entry is the stored hole or a fresh array, and the fresh ones are pairwise different. Earlier entries are left alone. |
| CoordinateArrays.AddRing | src/com/vividsolutions/jump/util/CoordinateArrays.java:117-132 | Appends exactly one entry for a ring: the ring itself, or what `ensureOrientation` returns for the ring's desired orientation when orienting. |
| CoordinateArrays.AddMembers | src/com/vividsolutions/jump/util/CoordinateArrays.java:134-140 | Appends the members' arrays in index order and stops at the first failure. The entries appended before the failure stay in the list. Each entry is a stored array or a fresh one, and the fresh ones are pairwise different, across members too. |
| CoordinateArrays.ToCoordinateArrays | src/com/vividsolutions/jump/util/CoordinateArrays.java:180-185 | Fails exactly when the traversal fails, with its message. Otherwise it returns a fresh list holding exactly what `addCoordinateArrays` appends, entry by entry, with every reversed ring in an array of its own. |
| CoordinateArrays.VisitAllConcat | src/com/vividsolutions/jump/util/CoordinateArrays.java:137-140 | Traversing the members `a + b` traverses `a`, then `b` unless `a` failed. |
| CoordinateArrays.VisitStopsAtFailure | src/com/vividsolutions/jump/util/CoordinateArrays.java:137-144 | Once the members visited so far have failed, the members after them are not visited: the traversal of the whole collection equals that of the prefix. |
| CoordinateArrays.MembersInIndexOrder | src/com/vividsolutions/jump/util/CoordinateArrays.java:137-140 | If the traversal does not fail, member i's arrays come after those of the members before it and before those of the members after it. |
| CoordinateArrays.FlatHoldsNoRings | src/com/vividsolutions/jump/util/CoordinateArrays.java:110-111 | A well-formed geometry of dimension 0 or less has ring count 0 and no reachable unhandled geometry. |
| CoordinateArrays.FlatMembersHoldNoRings | src/com/vividsolutions/jump/util/CoordinateArrays.java:110-111 | The same holds for a sequence of such geometries. |
| CoordinateArrays.ExtractionCount | src/com/vividsolutions/jump/util/CoordinateArrays.java:110-144 | On a well-formed geometry, the traversal fails exactly when an unhandled geometry of positive dimension is reachable. Otherwise it yields `RingCount` arrays: 0 for a point, 1 for a line, 1 + holes for a polygon, the sum over the members for a collection. |
| CoordinateArrays.ExtractionCountAll | src/com/vividsolutions/jump/util/CoordinateArrays.java:134-140 | The members of a collection fail exactly when some member holds a reachable unhandled geometry. Otherwise they yield the sum of their counts. |
| CoordinateArrays.MixedCollectionExample | src/com/vividsolutions/jump/util/CoordinateArrays.java:110-140 | A collection [point, line, polygon with one hole] yields three arrays in this order: the line, the shell, the hole. |
| CoordinateArrays.ReorientedShellsExample | src/com/vividsolutions/jump/util/CoordinateArrays.java:134-140 | A multipolygon of two polygons with counter-clockwise shells yields, when orienting, two reversed shells in two different arrays. This holds even when both polygons share one shell array. |
| CoordinateArrays.PolygonOrientationExample | src/com/vividsolutions/jump/util/CoordinateArrays.java:115-133 | Take a counter-clockwise shell and a clockwise hole. When orienting, both come out reversed in new arrays. Without orienting, the stored arrays come out as they are. |

## Left out

- `toCoordinateArray` (lines 55-57) is left out. It is a `List.toArray` call into an array of `Coordinate[]`, with no logic of its own.
- `equals` (lines 79-81) is left out. It only forwards to the JTS `CoordinateArrays.equals`.
- `Orientation.isCCW` is a parameter, not an implementation. Its floating-point algorithm is not modelled. Neither is the exception that older JTS versions throw for rings of fewer than four points. So the model does not say whether a reversed ring really gets the other orientation. The lemmas that need that fact take it as a hypothesis.
- Coordinates are values with `real` x and y. The z ordinate, NaN and floating-point rounding are not modelled. Coordinate object identity is not modelled either, so the fact that the shallow `clone()` shares `Coordinate` objects with the input is not captured.
- The `GeometryFactory` (precision model, SRID, coordinate sequence factory) is not modelled. Lines and points are built directly. `getCoordinates()` is taken to return the stored array, as the default `CoordinateArraySequence` does. Sequence types that return a copy are not modelled.
- Null arguments and the `NullPointerException`s they would cause are not modelled. Dafny references here are non-null.
- `AddPolygonRings`, `AddHoles`, `AddRing` and `AddMembers` are the polygon and collection branches of the one Java method `addCoordinateArrays`, split out to keep each proof small. The order of operations is unchanged.
- On failure, the code leaves the arrays appended before the unhandled geometry in the caller's list. An all-or-nothing failure is not what it does. The model follows the code (`AddMembers`). `toCoordinateArrays` drops its private list on failure, so it is all-or-nothing.
- Orienting is not idempotent in general. A ring that the orientation test calls clockwise both ways round is reversed on every call (`FlatRingNotIdempotent`). Idempotence is proved only under the hypothesis that reversal flips the test (`OrientedIdempotent`).
