/** Latitude orientation and longitude range: the two coordinate normalisers, in the
    alias-searching form of `check_fc_submission.py` and the single-name form of
    `forecast_submission.py`.

    Latitude: when the first value is below the last, the axis and every array along
    it are re-sorted so that latitude descends (`sortby(..., ascending=False)`).
    Longitude: when any value is negative, every value `v` becomes `(v + 360) % 360`.
    The longitude remap relabels the coordinate only; it does not move any data.
 */
module Coordinates {
  import opened Errors
  import opened Numeric
  import opened Sorting
  import opened Grids

  function Range(n: nat): (r: seq<int>)
    ensures |r| == n
    ensures forall i :: 0 <= i < n ==> r[i] == i
  {
    seq(n, i => i)
  }

  /** `s[i]` as a total function of the index. */
  function IndexKey(s: seq<real>): int -> real {
    i => if 0 <= i < |s| then s[i] else 0.0
  }

  /** The index order `sortby` applies: a stable ascending sort of the indices by
      their coordinate value. It is a permutation of the indices, and the value never
      decreases along it. */
  function AscendingOrder(s: seq<real>): (order: seq<int>)
    ensures |order| == |s|
    ensures multiset(order) == multiset(Range(|s|))
    ensures forall k :: 0 <= k < |order| ==> 0 <= order[k] < |s|
    ensures forall i, j :: 0 <= i < j < |order| ==> s[order[i]] <= s[order[j]]
  {
    var key := IndexKey(s);
    var order := SortBy(Range(|s|), key);
    assert forall k :: 0 <= k < |order| ==> 0 <= order[k] < |s| by {
      forall k | 0 <= k < |order| ensures 0 <= order[k] < |s| {
        assert order[k] in multiset(Range(|s|));
      }
    }
    assert forall i, j :: 0 <= i < j < |order| ==> key(order[i]) <= key(order[j]);
    order
  }

  /** The descending order puts equal values in reverse input order, as xarray's
      descending `sortby` does by reversing a stable ascending order. */
  lemma DescendingOrderTiesReversed(s: seq<real>)
    ensures var order := DescendingOrder(s);
      forall i, j :: 0 <= i < j < |order| && s[order[i]] == s[order[j]] ==> order[i] > order[j]
  {
    var key := IndexKey(s);
    SortByTiesAscend(Range(|s|), key);
    ReverseTiesDescend(AscendingOrder(s), key);
  }

  /** The ascending order is stable: equal values keep their input order. */
  lemma AscendingOrderStable(s: seq<real>)
    ensures var order := AscendingOrder(s);
      forall i, j :: 0 <= i < j < |order| && s[order[i]] == s[order[j]] ==> order[i] < order[j]
  {
    SortByTiesAscend(Range(|s|), IndexKey(s));
  }

  /** The index order `sortby(lat, ascending=False)` applies: the ascending order,
      reversed (xarray sorts ascending and then flips). It is a permutation of the
      indices, and latitude never increases along it. */
  function DescendingOrder(lat: seq<real>): (order: seq<int>)
    ensures |order| == |lat|
    ensures multiset(order) == multiset(Range(|lat|))
    ensures forall k :: 0 <= k < |order| ==> 0 <= order[k] < |lat|
    ensures forall i, j :: 0 <= i < j < |order| ==> lat[order[i]] >= lat[order[j]]
  {
    var up := AscendingOrder(lat);
    var order := Reverse(up);
    assert forall k :: 0 <= k < |order| ==> 0 <= order[k] < |lat|;
    order
  }

  /** The values of `s` listed in the given order. */
  function Permute(s: seq<real>, order: seq<int>): (r: seq<real>)
    requires forall k :: 0 <= k < |order| ==> 0 <= order[k] < |s|
    ensures |r| == |order|
    ensures forall k :: 0 <= k < |order| ==> r[k] == s[order[k]]
  {
    seq(|order|, k requires 0 <= k < |order| => s[order[k]])
  }

  /** The re-sorted latitude coordinate has the same values, now descending. */
  lemma DescendingPermutation(lat: seq<real>)
    ensures var r := Permute(lat, DescendingOrder(lat));
      && multiset(r) == multiset(lat)
      && forall i, j :: 0 <= i < j < |r| ==> r[i] >= r[j]
  {
    var order := DescendingOrder(lat);
    PermuteKeepsMultiset(lat, order);
  }

  lemma {:induction false} PermuteKeepsMultiset(s: seq<real>, order: seq<int>)
    requires multiset(order) == multiset(Range(|s|))
    requires forall k :: 0 <= k < |order| ==> 0 <= order[k] < |s|
    ensures multiset(Permute(s, order)) == multiset(s)
  {
    // Count through an index set: both sides list s[i] once for every i < |s|.
    var n := |s|;
    assert |order| == n by {
      assert |multiset(order)| == |multiset(Range(n))|;
    }
    MultisetOfIndexed(s, order, n);
  }

  /** Listing `s` through any permutation of its indices gives the same multiset. */
  lemma {:induction false} MultisetOfIndexed(s: seq<real>, order: seq<int>, n: nat)
    requires n == |s| == |order|
    requires multiset(order) == multiset(Range(n))
    requires forall k :: 0 <= k < |order| ==> 0 <= order[k] < n
    ensures multiset(Permute(s, order)) == multiset(s)
    decreases n
  {
    if n > 0 {
      // Take out the position holding index n - 1 and recurse on the rest.
      var p := PositionOfLast(order, n);
      var rest := RemoveAt(order, p);
      RemoveLast(order, n, p);
      var s' := s[..n - 1];
      MultisetOfIndexed(s', rest, n - 1);
      var part := Permute(s', rest);
      PermuteSplit(s, order, p);
      InsertAtMultiset(part, p, s[n - 1]);
      LastSplitMultiset(s);
    }
  }

  /** Putting `x` back anywhere adds it once to the multiset. */
  lemma InsertAtMultiset(part: seq<real>, p: nat, x: real)
    requires p <= |part|
    ensures multiset(part[..p] + [x] + part[p..]) == multiset(part) + multiset{x}
  {
    assert part == part[..p] + part[p..];
  }

  lemma LastSplitMultiset(s: seq<real>)
    requires |s| > 0
    ensures multiset(s) == multiset(s[..|s| - 1]) + multiset{s[|s| - 1]}
  {
    assert s == s[..|s| - 1] + [s[|s| - 1]];
  }

  /** `s` without its element at position `p`. */
  function RemoveAt(s: seq<int>, p: nat): (r: seq<int>)
    requires p < |s|
    ensures |r| == |s| - 1
  {
    s[..p] + s[p + 1..]
  }

  /** Where index `n - 1` sits in a permutation of `0..n-1`. */
  lemma PositionOfLast(order: seq<int>, n: nat) returns (p: nat)
    requires n > 0
    requires multiset(order) == multiset(Range(n))
    ensures p < |order| && order[p] == n - 1
  {
    assert Range(n)[n - 1] == n - 1;
    assert n - 1 in multiset(order);
    p :| 0 <= p < |order| && order[p] == n - 1;
  }

  /** Removing index `n - 1` from a permutation of `0..n-1` leaves one of `0..n-2`. */
  lemma RemoveLast(order: seq<int>, n: nat, p: nat)
    requires n > 0 && p < |order| && order[p] == n - 1
    requires multiset(order) == multiset(Range(n))
    ensures multiset(RemoveAt(order, p)) == multiset(Range(n - 1))
    ensures forall k :: 0 <= k < |order| - 1 ==> 0 <= RemoveAt(order, p)[k] < n - 1
  {
    var rest := RemoveAt(order, p);
    assert order == order[..p] + [n - 1] + order[p + 1..];
    assert Range(n) == Range(n - 1) + [n - 1];
    forall v ensures multiset(rest)[v] == multiset(Range(n - 1))[v] {
      assert multiset(order)[v] == multiset(rest)[v] + multiset([n - 1])[v];
      assert multiset(Range(n))[v] == multiset(Range(n - 1))[v] + multiset([n - 1])[v];
    }
    assert multiset(rest) == multiset(Range(n - 1));
    forall k | 0 <= k < |rest| ensures 0 <= rest[k] < n - 1 {
      assert rest[k] in multiset(Range(n - 1));
    }
  }

  /** Listing `s` through `order` is listing its prefix through `order` without
      position `p`, with `s[n - 1]` put back at `p`. */
  lemma PermuteSplit(s: seq<real>, order: seq<int>, p: nat)
    requires |s| > 0 && p < |order| && order[p] == |s| - 1
    requires forall k :: 0 <= k < |order| ==> 0 <= order[k] < |s|
    requires forall k :: 0 <= k < |order| - 1 ==> 0 <= RemoveAt(order, p)[k] < |s| - 1
    ensures var part := Permute(s[..|s| - 1], RemoveAt(order, p));
      Permute(s, order) == part[..p] + [s[|s| - 1]] + part[p..]
  {
    var n := |s|;
    var rest := RemoveAt(order, p);
    var full := Permute(s, order);
    var part := Permute(s[..n - 1], rest);
    var joined := part[..p] + [s[n - 1]] + part[p..];
    assert |full| == |joined|;
    forall k | 0 <= k < |full| ensures full[k] == joined[k] {
      if k < p {
        assert rest[k] == order[k];
      } else if k > p {
        assert rest[k - 1] == order[k];
      }
    }
  }

  /** Sorting the latitude axis of a DataArray: the coordinate and every slab of the
      array move together. */
  function SortGridLatitudes(g: Grid, name: string): (r: Grid)
    requires name in g.coords
    ensures r.coords.Keys == g.coords.Keys
  {
    var order := DescendingOrder(g.coords[name]);
    Grid(g.coords[name := Permute(g.coords[name], order)], ReorderLatitudes(g.values, order))
  }

  /** `check_and_flip_latitudes` of `check_fc_submission.py`: the first accepted
      latitude name is used; a missing coordinate or one without exactly 181 points is
      rejected; an ascending axis (first below last) is re-sorted to descend, and
      anything else is returned as it came. */
  function FlipLatitudes(g: Grid): (r: Result<Grid>)
    ensures NonePresent(g.coords, LatitudeNames) ==>
      r == Err(CoordinateNotFound(Latitude, LatitudeNames))
    ensures !NonePresent(g.coords, LatitudeNames) ==>
      var name := FindCoordinate(g.coords, LatitudeNames, Latitude).value;
      var lat := g.coords[name];
      && (|lat| != NLatitudes ==> r == Err(WrongCoordinateSize(Latitude, NLatitudes, |lat|)))
      && (|lat| == NLatitudes && lat[0] >= lat[|lat| - 1] ==> r == Ok(g))
      && (|lat| == NLatitudes && lat[0] < lat[|lat| - 1] ==>
            && r.Ok?
            && r.value.coords.Keys == g.coords.Keys
            && (forall c :: c in g.coords && c != name ==> r.value.coords[c] == g.coords[c])
            && multiset(r.value.coords[name]) == multiset(lat)
            && (forall i, j :: 0 <= i < j < |lat| ==> r.value.coords[name][i] >= r.value.coords[name][j])
            && r.value.values == ReorderLatitudes(g.values, DescendingOrder(lat)))
  {
    var name :- FindCoordinate(g.coords, LatitudeNames, Latitude);
    var lat := g.coords[name];
    if |lat| != NLatitudes then Err(WrongCoordinateSize(Latitude, NLatitudes, |lat|))
    else if lat[0] < lat[|lat| - 1] then
      DescendingPermutation(lat);
      Ok(SortGridLatitudes(g, name))
    else Ok(g)
  }

  /** Once normalised, a grid is left alone: a second application returns it as is. */
  lemma FlipLatitudesIdempotent(g: Grid)
    requires FlipLatitudes(g).Ok?
    ensures FlipLatitudes(FlipLatitudes(g).value) == FlipLatitudes(g)
  {
    var g' := FlipLatitudes(g).value;
    FindCoordinateDependsOnNames(g.coords, g'.coords, LatitudeNames, Latitude);
  }

  /** A coordinate that already ascends keeps its own index order: the stable sort
      moves nothing. */
  lemma AscendingOrderOfSorted(s: seq<real>)
    requires forall i, j :: 0 <= i < j < |s| ==> s[i] <= s[j]
    ensures AscendingOrder(s) == Range(|s|)
  {
    var key := IndexKey(s);
    var n := |s|;
    forall i, j | 0 <= i < j < n ensures key(Range(n)[i]) <= key(Range(n)[j]) {
      assert key(Range(n)[i]) == s[i] && key(Range(n)[j]) == s[j];
    }
    assert SortedBy(Range(n), key);
    SortSortedIsIdentity(Range(n), key);
  }

  /** On a latitude axis that ascends throughout (say -90 to 90), the re-sort
      visits the indices from last to first. */
  lemma AscendingFlipOrder(lat: seq<real>)
    requires forall i, j :: 0 <= i < j < |lat| ==> lat[i] <= lat[j]
    ensures DescendingOrder(lat) == Reverse(Range(|lat|))
  {
    AscendingOrderOfSorted(lat);
    DescendingIsReversedAscending(lat);
  }

  /** On a latitude axis that ascends throughout, the re-sorted coordinate is the
      plain reversal of the original (and so is every slab along it). */
  lemma AscendingFlipIsReversal(lat: seq<real>)
    requires forall i, j :: 0 <= i < j < |lat| ==> lat[i] <= lat[j]
    ensures Permute(lat, DescendingOrder(lat)) == Reverse(lat)
  {
    AscendingFlipOrder(lat);
    ReversedRangePermutes(lat);
  }

  /** Listing `s` from its last index to its first is reversing it. */
  lemma ReversedRangePermutes(s: seq<real>)
    ensures forall k :: 0 <= k < |s| ==> 0 <= Reverse(Range(|s|))[k] < |s|
    ensures Permute(s, Reverse(Range(|s|))) == Reverse(s)
  {
    ReversedRange(|s|);
    ReversedIndexOrder(s, Reverse(Range(|s|)));
  }

  lemma DescendingIsReversedAscending(lat: seq<real>)
    ensures DescendingOrder(lat) == Reverse(AscendingOrder(lat))
  {
  }

  lemma ReversedRange(n: nat)
    ensures |Reverse(Range(n))| == n
    ensures forall k :: 0 <= k < n ==> Reverse(Range(n))[k] == n - 1 - k
  {
  }

  /** Listing `s` through the reversed index order is reversing `s`. */
  lemma ReversedIndexOrder(s: seq<real>, order: seq<int>)
    requires |order| == |s|
    requires forall k :: 0 <= k < |order| ==> order[k] == |s| - 1 - k
    ensures Permute(s, order) == Reverse(s)
  {
    ReversedIndexBounds(s, order);
    ReversedIndexEntries(s, order);
    ReverseBySymmetry(s, Permute(s, order));
  }

  lemma ReversedIndexBounds(s: seq<real>, order: seq<int>)
    requires |order| == |s|
    requires forall k :: 0 <= k < |order| ==> order[k] == |s| - 1 - k
    ensures forall k :: 0 <= k < |order| ==> 0 <= order[k] < |s|
  {
  }

  lemma ReversedIndexEntries(s: seq<real>, order: seq<int>)
    requires |order| == |s|
    requires forall k :: 0 <= k < |order| ==> 0 <= order[k] < |s|
    requires forall k :: 0 <= k < |order| ==> order[k] == |s| - 1 - k
    ensures forall k :: 0 <= k < |s| ==> Permute(s, order)[k] == s[|s| - 1 - k]
  {
  }

  lemma ReverseBySymmetry(s: seq<real>, r: seq<real>)
    requires |r| == |s|
    requires forall k :: 0 <= k < |s| ==> r[k] == s[|s| - 1 - k]
    ensures r == Reverse(s)
  {
  }

  /** Which accepted name carries the latitude does not matter: the same values under
      "lat" or under "latitude" normalise to the same values and the same array. */
  lemma FlipLatitudesAliasInvariant(coords: Coords, values: Values, lat: seq<real>, a: string, b: string)
    requires NonePresent(coords, LatitudeNames)
    requires a in LatitudeNames && b in LatitudeNames
    ensures var ra := FlipLatitudes(Grid(coords[a := lat], values));
      var rb := FlipLatitudes(Grid(coords[b := lat], values));
      && ra.Ok? == rb.Ok?
      && (ra.Ok? ==> ra.value.values == rb.value.values && ra.value.coords[a] == rb.value.coords[b])
      && (ra.Err? ==> ra.error == rb.error)
  {
    OnlyAliasFound(coords, lat, a);
    OnlyAliasFound(coords, lat, b);
  }

  lemma OnlyAliasFound(coords: Coords, lat: seq<real>, a: string)
    requires NonePresent(coords, LatitudeNames)
    requires a in LatitudeNames
    ensures FindCoordinate(coords[a := lat], LatitudeNames, Latitude) == Ok(a)
  {
    var i :| 0 <= i < |LatitudeNames| && LatitudeNames[i] == a;
    assert FirstPresent(coords[a := lat], LatitudeNames, i);
  }

  /** Some longitude is negative (`np.any(longitudes < 0)`). */
  predicate HasNegative(lon: seq<real>) {
    exists k :: 0 <= k < |lon| && lon[k] < 0.0
  }

  /** `(longitudes + 360) % 360`, element by element. Every result lies in [0, 360)
      and differs from its input by whole turns; a value already in [0, 360) is kept
      and a value in [-360, 0) gains exactly 360. */
  function RemapLongitudes(lon: seq<real>): (r: seq<real>)
    ensures |r| == |lon|
    ensures forall k :: 0 <= k < |r| ==> 0.0 <= r[k] < 360.0
    ensures forall k :: 0 <= k < |r| ==> WholeTurns(lon[k] - r[k])
    ensures forall k :: 0 <= k < |r| && 0.0 <= lon[k] < 360.0 ==> r[k] == lon[k]
    ensures forall k :: 0 <= k < |r| && -360.0 <= lon[k] < 0.0 ==> r[k] == lon[k] + 360.0
  {
    var r := seq(|lon|, k requires 0 <= k < |lon| => Mod360(lon[k] + 360.0));
    assert forall k :: 0 <= k < |r| ==> WholeTurns(lon[k] - r[k]) by {
      forall k | 0 <= k < |r| ensures WholeTurns(lon[k] - r[k]) {
        var d := lon[k] + 360.0 - r[k];
        var f := (d / 360.0).Floor;
        assert d == 360.0 * f as real;
        assert lon[k] - r[k] == 360.0 * (f - 1) as real;
        assert ((lon[k] - r[k]) / 360.0) == (f - 1) as real;
      }
    }
    r
  }

  /** `check_and_convert_longitudes` of `check_fc_submission.py`, with the remap the
      docstring promises (see `ConvertLongitudesAsWritten` for the code as written):
      the first accepted longitude name is used; a missing coordinate or one without
      exactly 360 points is rejected; when some value is negative the coordinate is
      replaced by its remap into [0, 360); the array itself is never touched. */
  function ConvertLongitudes(g: Grid): (r: Result<Grid>)
    ensures NonePresent(g.coords, LongitudeNames) ==>
      r == Err(CoordinateNotFound(Longitude, LongitudeNames))
    ensures !NonePresent(g.coords, LongitudeNames) ==>
      var name := FindCoordinate(g.coords, LongitudeNames, Longitude).value;
      var lon := g.coords[name];
      && (|lon| != NLongitudes ==> r == Err(WrongCoordinateSize(Longitude, NLongitudes, |lon|)))
      && (|lon| == NLongitudes && !HasNegative(lon) ==> r == Ok(g))
      && (|lon| == NLongitudes && HasNegative(lon) ==>
            && r.Ok?
            && r.value.values == g.values
            && r.value.coords.Keys == g.coords.Keys
            && (forall c :: c in g.coords && c != name ==> r.value.coords[c] == g.coords[c])
            && r.value.coords[name] == RemapLongitudes(lon))
  {
    var name :- FindCoordinate(g.coords, LongitudeNames, Longitude);
    var lon := g.coords[name];
    if |lon| != NLongitudes then Err(WrongCoordinateSize(Longitude, NLongitudes, |lon|))
    else if HasNegative(lon) then Ok(g.(coords := g.coords[name := RemapLongitudes(lon)]))
    else Ok(g)
  }

  /** `check_and_convert_longitudes` of `check_fc_submission.py` exactly as written:
      the negative branch reads the local name `longitudes` before it is assigned
      (the values were bound to `longitude_vals`), so Python raises
      `UnboundLocalError`, a kind of `NameError`. */
  function ConvertLongitudesAsWritten(g: Grid): (r: Result<Grid>)
    ensures r.Ok? ==> r == ConvertLongitudes(g) && r.value == g
  {
    var name :- FindCoordinate(g.coords, LongitudeNames, Longitude);
    var lon := g.coords[name];
    if |lon| != NLongitudes then Err(WrongCoordinateSize(Longitude, NLongitudes, |lon|))
    else if HasNegative(lon) then Err(NameError("longitudes"))
    else Ok(g)
  }

  /** The discrepancy: every grid with a 360-point longitude axis holding a negative
      value (the -180 to 179 layout the docstring sets out to convert) is rejected by
      the code as written, while the intended conversion succeeds and puts every
      longitude in [0, 360). */
  lemma NegativeLongitudesRaiseNameError(g: Grid)
    requires !NonePresent(g.coords, LongitudeNames)
    requires var lon := g.coords[FindCoordinate(g.coords, LongitudeNames, Longitude).value];
      |lon| == NLongitudes && HasNegative(lon)
    ensures ConvertLongitudesAsWritten(g) == Err(NameError("longitudes"))
    ensures ConvertLongitudes(g).Ok?
  {
  }

  /** A concrete instance: longitudes -180, -179, ..., 179 under the name "lon". */
  lemma NameErrorExample(values: Values)
    ensures var g := Grid(map["lon" := seq(360, k => (k - 180) as real)], values);
      ConvertLongitudesAsWritten(g) == Err(NameError("longitudes"))
  {
    var g := Grid(map["lon" := seq(360, k => (k - 180) as real)], values);
    assert FirstPresent(g.coords, LongitudeNames, 1);
    assert g.coords["lon"][0] < 0.0;
  }

  /** Converting longitudes twice is converting them once: after the remap no value
      is negative, so the second application returns the grid unchanged. */
  lemma ConvertLongitudesIdempotent(g: Grid)
    requires ConvertLongitudes(g).Ok?
    ensures ConvertLongitudes(ConvertLongitudes(g).value) == ConvertLongitudes(g)
  {
    var g' := ConvertLongitudes(g).value;
    FindCoordinateDependsOnNames(g.coords, g'.coords, LongitudeNames, Longitude);
  }

  /** A grid already in canonical orientation and range (181 latitudes, first not
      below last; 360 longitudes, none negative) passes both normalisers unchanged. */
  lemma CanonicalGridUnchanged(g: Grid)
    requires !NonePresent(g.coords, LatitudeNames) && !NonePresent(g.coords, LongitudeNames)
    requires var lat := g.coords[FindCoordinate(g.coords, LatitudeNames, Latitude).value];
      |lat| == NLatitudes && lat[0] >= lat[NLatitudes - 1]
    requires var lon := g.coords[FindCoordinate(g.coords, LongitudeNames, Longitude).value];
      |lon| == NLongitudes && forall k :: 0 <= k < |lon| ==> lon[k] >= 0.0
    ensures FlipLatitudes(g) == Ok(g)
    ensures ConvertLongitudes(g) == Ok(g)
  {
  }

  // The single-name normalisers of forecast_submission.py, over a Dataset.

  /** Every data variable re-sorted along latitude by the same order. */
  function SortDatasetLatitudes(ds: Dataset, name: string): (r: Dataset)
    requires name in ds.coords
    ensures r.coords.Keys == ds.coords.Keys
    ensures |r.dataVars| == |ds.dataVars|
  {
    var order := DescendingOrder(ds.coords[name]);
    Dataset(ds.coords[name := Permute(ds.coords[name], order)],
            seq(|ds.dataVars|, i requires 0 <= i < |ds.dataVars| =>
              ds.dataVars[i].(values := ReorderLatitudes(ds.dataVars[i].values, order))))
  }

  /** `check_and_flip_latitudes` of `forecast_submission.py`: only the given name is
      looked at; there is no size check; an empty coordinate fails when its first
      element is read; an ascending axis is re-sorted to descend, every data variable
      with it. */
  function FlipLatitudesNamed(ds: Dataset, name: string): (r: Result<Dataset>)
    ensures name !in ds.coords ==> r == Err(CoordinateNotFound(Latitude, [name]))
    ensures name in ds.coords ==>
      var lat := ds.coords[name];
      && (|lat| == 0 ==> r == Err(EmptyCoordinate(Latitude)))
      && (|lat| > 0 && lat[0] >= lat[|lat| - 1] ==> r == Ok(ds))
      && (|lat| > 0 && lat[0] < lat[|lat| - 1] ==>
            && r.Ok?
            && r.value.coords.Keys == ds.coords.Keys
            && |r.value.coords[name]| == |lat|
            && multiset(r.value.coords[name]) == multiset(lat)
            && (forall i, j :: 0 <= i < j < |lat| ==> r.value.coords[name][i] >= r.value.coords[name][j])
            && (forall c :: c in ds.coords && c != name ==> r.value.coords[c] == ds.coords[c])
            && |r.value.dataVars| == |ds.dataVars|
            && (forall i :: 0 <= i < |ds.dataVars| ==>
                  r.value.dataVars[i].name == ds.dataVars[i].name &&
                  r.value.dataVars[i].values == ReorderLatitudes(ds.dataVars[i].values, DescendingOrder(lat))))
  {
    if name !in ds.coords then Err(CoordinateNotFound(Latitude, [name]))
    else
      var lat := ds.coords[name];
      if |lat| == 0 then Err(EmptyCoordinate(Latitude))
      else if lat[0] < lat[|lat| - 1] then
        DescendingPermutation(lat);
        Ok(SortDatasetLatitudes(ds, name))
      else Ok(ds)
  }

  lemma FlipLatitudesNamedIdempotent(ds: Dataset, name: string)
    requires FlipLatitudesNamed(ds, name).Ok?
    ensures FlipLatitudesNamed(FlipLatitudesNamed(ds, name).value, name) == FlipLatitudesNamed(ds, name)
  {
  }

  /** `check_and_convert_longitudes` of `forecast_submission.py`: only the given name
      is looked at and there is no size check; a negative value anywhere remaps the
      whole coordinate into [0, 360); the data variables are never touched. */
  function ConvertLongitudesNamed(ds: Dataset, name: string): (r: Result<Dataset>)
    ensures name !in ds.coords ==> r == Err(CoordinateNotFound(Longitude, [name]))
    ensures name in ds.coords ==>
      var lon := ds.coords[name];
      && r.Ok?
      && r.value.dataVars == ds.dataVars
      && r.value.coords.Keys == ds.coords.Keys
      && (forall c :: c in ds.coords && c != name ==> r.value.coords[c] == ds.coords[c])
      && (!HasNegative(lon) ==> r.value == ds)
      && (HasNegative(lon) ==> r.value.coords[name] == RemapLongitudes(lon))
  {
    if name !in ds.coords then Err(CoordinateNotFound(Longitude, [name]))
    else
      var lon := ds.coords[name];
      if HasNegative(lon) then Ok(ds.(coords := ds.coords[name := RemapLongitudes(lon)]))
      else Ok(ds)
  }

  lemma ConvertLongitudesNamedIdempotent(ds: Dataset, name: string)
    requires ConvertLongitudesNamed(ds, name).Ok?
    ensures ConvertLongitudesNamed(ConvertLongitudesNamed(ds, name).value, name) == ConvertLongitudesNamed(ds, name)
  {
  }
}
