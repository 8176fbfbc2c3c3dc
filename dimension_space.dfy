/**
 * Dimension-space points and the ordered point sets built from them.
 */
module DimensionSpace {
  import opened Values

  /** A dimension-space point: dimension name to coordinate. */
  type Point = map<string, string>

  /** The identifier of the workspace dimension. */
  const WorkspaceDimension: string := "_workspace"

  /** The name of the live workspace. */
  const LiveWorkspace: string := "live"

  /** `getCoordinate($dimension)`: the coordinate, if the point has one. */
  function Coordinate(p: Point, dimension: string): (r: Option<string>)
    ensures r.Some? <==> dimension in p
    ensures r.Some? ==> r.value == p[dimension]
  {
    if dimension in p then Some(p[dimension]) else None
  }

  /** The point with its `_workspace` coordinate removed (`unset($coordinates['_workspace'])`). */
  function WithoutWorkspace(p: Point): (r: Point)
    ensures WorkspaceDimension !in r
    ensures r.Keys == p.Keys - {WorkspaceDimension}
    ensures forall d :: d in r ==> r[d] == p[d]
  {
    p - {WorkspaceDimension}
  }

  /** A point's coordinates as the PHP array handed to `setDimensions`. */
  function CoordinatesValue(p: Point): (r: Value)
    ensures r.VMap? && r.entries.Keys == p.Keys
    ensures forall d :: d in p ==> r.entries[d] == VString(p[d])
  {
    VMap(map d | d in p :: VString(p[d]))
  }

  /** No point occurs twice: the shape of a `DimensionSpacePointSet`. */
  predicate NoDuplicates(s: seq<Point>) {
    forall i, j :: 0 <= i < j < |s| ==> s[i] != s[j]
  }

  /** The points of a sequence, as a set. */
  function Elems(s: seq<Point>): (r: set<Point>)
    ensures forall p :: p in r <==> p in s
  {
    set p | p in s
  }

  /**
   * `getUnion(new DimensionSpacePointSet([p]))` guarded by `contains(p)`:
   * the point set keyed by hash keeps the first position of every point,
   * so a point is appended only when it is not there yet.
   */
  function AddPoint(s: seq<Point>, p: Point): (r: seq<Point>)
    ensures s <= r
    ensures Elems(r) == Elems(s) + {p}
    ensures NoDuplicates(s) ==> NoDuplicates(r)
  {
    if p in s then s else s + [p]
  }
}
