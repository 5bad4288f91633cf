/**
 * The slice of the JTS geometry model that the coordinate-array utility
 * works on: coordinates, the geometry variants it dispatches on, and the
 * topological dimension (`Geometry.getDimension`) it branches on first.
 *
 * Coordinate arrays (`Coordinate[]` in Java) are Dafny arrays, so that
 * "the same array" and "a fresh copy" can be told apart.
 */
module Geometry {

  datatype Option<T> = None | Some(value: T)

  /** A planar coordinate; a value, compared component-wise. */
  datatype Coord = Coord(x: real, y: real)

  /** Orientation codes of JTS `Orientation`. */
  const CLOCKWISE: int := -1
  const COUNTERCLOCKWISE: int := 1

  /** The dimension JTS reports for an empty collection (`Dimension.FALSE`). */
  const DIM_FALSE: int := -1

  /** Which `GeometryCollection` subclass a collection is. */
  datatype CollectionKind = MultiPoint | MultiLineString | MultiPolygon | Heterogeneous

  /**
   * A geometry. `LineString` also stands for `LinearRing`. `Unhandled` is a
   * `Geometry` subclass that is none of Point, LineString, Polygon or
   * GeometryCollection: its class name and the dimension it reports.
   */
  datatype Geometry =
    | Point(coord: Option<Coord>)
    | LineString(points: array<Coord>)
    | Polygon(shell: array<Coord>, holes: seq<array<Coord>>)
    | Collection(kind: CollectionKind, members: seq<Geometry>)
    | Unhandled(className: string, dimension: int)

  /** `getDimension`: 0 for points, 1 for lines, 2 for polygons; a collection
      reports the largest dimension of its members, the Multi* kinds a fixed one. */
  function Dim(g: Geometry): int
    decreases g
  {
    match g
    case Point(_) => 0
    case LineString(_) => 1
    case Polygon(_, _) => 2
    case Collection(kind, members) =>
      (match kind
       case MultiPoint => 0
       case MultiLineString => 1
       case MultiPolygon => 2
       case Heterogeneous => DimAll(members))
    case Unhandled(_, d) => d
  }

  /** The largest dimension among `ms`, never below `DIM_FALSE` (the value
      the JTS loop starts from). */
  function DimAll(ms: seq<Geometry>): int
    decreases ms
  {
    if |ms| == 0 then DIM_FALSE
    else
      var rest := DimAll(ms[1..]);
      if Dim(ms[0]) >= rest then Dim(ms[0]) else rest
  }

  /** `DimAll` is the maximum of `DIM_FALSE` and the members' dimensions. */
  lemma {:induction false} DimAllIsMax(ms: seq<Geometry>)
    ensures |ms| == 0 ==> DimAll(ms) == DIM_FALSE
    ensures DIM_FALSE <= DimAll(ms)
    ensures forall i :: 0 <= i < |ms| ==> Dim(ms[i]) <= DimAll(ms)
    ensures DimAll(ms) > DIM_FALSE ==> exists i :: 0 <= i < |ms| && DimAll(ms) == Dim(ms[i])
  {
    if |ms| > 0 {
      DimAllIsMax(ms[1..]);
      assert forall i :: 1 <= i < |ms| ==> ms[i] == ms[1..][i - 1];
    }
  }

  /** The typing JTS enforces on the Multi* collections: a MultiPoint holds
      only points, a MultiLineString only lines, a MultiPolygon only polygons. */
  predicate WellFormed(g: Geometry)
    decreases g
  {
    match g
    case Collection(kind, members) =>
      (match kind
       case MultiPoint => forall i :: 0 <= i < |members| ==> members[i].Point?
       case MultiLineString => forall i :: 0 <= i < |members| ==> members[i].LineString?
       case MultiPolygon => forall i :: 0 <= i < |members| ==> members[i].Polygon?
       case Heterogeneous => forall i :: 0 <= i < |members| ==> WellFormed(members[i]))
    case _ => true
  }

  /** Somewhere in `g` is an unhandled geometry of positive dimension. */
  predicate HasUnhandled(g: Geometry)
    decreases g
  {
    match g
    case Unhandled(_, d) => d > 0
    case Collection(_, members) => exists i :: 0 <= i < |members| && HasUnhandled(members[i])
    case _ => false
  }
}
