/** The gridded forecast: cells, coordinate maps, DataArrays and Datasets.

    A forecast holds quintile probabilities laid out as (quintile, latitude,
    longitude), the order the submission docstrings state. Coordinates live in a map
    from name to values, as in xarray's `.coords`, and are found by searching an
    ordered list of accepted names.
 */
module Grids {
  import opened Errors

  /** One probability: a number, or NaN for a missing or masked cell. */
  datatype Cell = Val(v: real) | NaN

  /** A three-dimensional array, indexed `[quintile][latitude][longitude]`. */
  type Values = seq<seq<seq<Cell>>>

  /** Coordinate name to coordinate values. */
  type Coords = map<string, seq<real>>

  /** An xarray DataArray: one array and its coordinates. */
  datatype Grid = Grid(coords: Coords, values: Values)

  /** One data variable of an xarray Dataset. */
  datatype DataVar = DataVar(name: string, values: Values)

  /** An xarray Dataset: coordinates shared by data variables kept in insertion order. */
  datatype Dataset = Dataset(coords: Coords, dataVars: seq<DataVar>)

  const NQuintiles: nat := 5
  const NLatitudes: nat := 181
  const NLongitudes: nat := 360

  const LatitudeNames: seq<string> := ["latitude", "lat", "latitudes", "lat_deg", "y"]
  const LongitudeNames: seq<string> := ["longitude", "lon", "longitudes", "lon_deg", "x"]
  const QuintileNames: seq<string> := ["quintile", "Quintile", "q", "percentile", "Q"]

  /** The array has exactly the given extent along each of its three axes. */
  predicate HasShape(a: Values, nq: nat, nlat: nat, nlon: nat) {
    && |a| == nq
    && (forall q :: 0 <= q < |a| ==> |a[q]| == nlat)
    && (forall q, j :: 0 <= q < |a| && 0 <= j < |a[q]| ==> |a[q][j]| == nlon)
  }

  /** `aliases[i]` is present and no earlier alias is. */
  predicate FirstPresent(coords: Coords, aliases: seq<string>, i: int) {
    && 0 <= i < |aliases|
    && aliases[i] in coords
    && forall j :: 0 <= j < i ==> aliases[j] !in coords
  }

  predicate NonePresent(coords: Coords, aliases: seq<string>) {
    forall j :: 0 <= j < |aliases| ==> aliases[j] !in coords
  }

  /** The first name in `aliases[from..]` that is a coordinate. */
  function FindFrom(coords: Coords, aliases: seq<string>, from: nat): (r: int)
    requires from <= |aliases|
    requires forall j :: 0 <= j < from ==> aliases[j] !in coords
    ensures r == -1 || FirstPresent(coords, aliases, r)
    ensures r == -1 <==> NonePresent(coords, aliases)
    decreases |aliases| - from
  {
    if from == |aliases| then -1
    else if aliases[from] in coords then from
    else FindFrom(coords, aliases, from + 1)
  }

  /** The loop over candidate names in the normalisers and the label check: the FIRST
      accepted name present wins; when none is present the error lists every name
      tried. */
  function FindCoordinate(coords: Coords, aliases: seq<string>, axis: Axis): (r: Result<string>)
    ensures r.Ok? ==> exists i :: FirstPresent(coords, aliases, i) && r.value == aliases[i]
    ensures r.Ok? ==> r.value in coords
    ensures r.Err? <==> NonePresent(coords, aliases)
    ensures r.Err? ==> r.error == CoordinateNotFound(axis, aliases)
  {
    var i := FindFrom(coords, aliases, 0);
    if i < 0 then Err(CoordinateNotFound(axis, aliases)) else Ok(aliases[i])
  }

  /** Only the set of names matters to the search: two coordinate maps with the same
      names find the same coordinate, which is why rewriting a coordinate's values
      never changes which name a later search finds. */
  lemma FindCoordinateDependsOnNames(c1: Coords, c2: Coords, aliases: seq<string>, axis: Axis)
    requires c1.Keys == c2.Keys
    ensures FindCoordinate(c1, aliases, axis) == FindCoordinate(c2, aliases, axis)
  {
    var r1, r2 := FindCoordinate(c1, aliases, axis), FindCoordinate(c2, aliases, axis);
    if r1.Ok? && r2.Ok? {
      var i :| FirstPresent(c1, aliases, i) && r1.value == aliases[i];
      var j :| FirstPresent(c2, aliases, j) && r2.value == aliases[j];
      assert !(i < j) && !(j < i);
    }
  }

  /** Rows of one quintile slab listed in the given order. An index outside the slab
      yields an empty row; since xarray keeps a dimension coordinate exactly as long
      as its dimension, that case does not arise for real inputs. */
  function ReorderRows(rows: seq<seq<Cell>>, order: seq<int>): (r: seq<seq<Cell>>)
    ensures |r| == |order|
    ensures forall k :: 0 <= k < |order| && 0 <= order[k] < |rows| ==> r[k] == rows[order[k]]
  {
    seq(|order|, k requires 0 <= k < |order| =>
      if 0 <= order[k] < |rows| then rows[order[k]] else [])
  }

  /** Cells of one row listed in the given order; an index outside the row yields
      NaN, a case that again does not arise for real inputs. */
  function ReorderCells(row: seq<Cell>, order: seq<int>): (r: seq<Cell>)
    ensures |r| == |order|
    ensures forall k :: 0 <= k < |order| && 0 <= order[k] < |row| ==> r[k] == row[order[k]]
  {
    seq(|order|, k requires 0 <= k < |order| =>
      if 0 <= order[k] < |row| then row[order[k]] else NaN)
  }

  /** Reorders the longitude axis (axis 2) of the array. */
  function ReorderLongitudes(a: Values, order: seq<int>): (r: Values)
    ensures |r| == |a|
    ensures forall q :: 0 <= q < |a| ==> |r[q]| == |a[q]|
    ensures forall q, j :: 0 <= q < |a| && 0 <= j < |a[q]| ==> r[q][j] == ReorderCells(a[q][j], order)
  {
    seq(|a|, q requires 0 <= q < |a| =>
      seq(|a[q]|, j requires 0 <= j < |a[q]| => ReorderCells(a[q][j], order)))
  }

  /** Reorders the latitude axis (axis 1) of the array. */
  function ReorderLatitudes(a: Values, order: seq<int>): (r: Values)
    ensures |r| == |a|
    ensures forall q :: 0 <= q < |a| ==> r[q] == ReorderRows(a[q], order)
  {
    seq(|a|, q requires 0 <= q < |a| => ReorderRows(a[q], order))
  }
}
