/** The validation, naming and rebuild part of `AI_WQ_forecast_submission`, up to the
    point where the rebuilt dataset is written to disk.

    The metadata rules differ from `all_checks`: the date must occur in an
    allow-list text, the lead time must be "3" or "4", and the file name carries
    `_wk`. The normalisers look at the fixed names "latitude" and "longitude" only.
    The first data variable is then copied into a fresh dataset whose coordinates
    are always the canonical ones: quintiles 0.2 to 1.0, latitudes 90 to -90,
    longitudes 0 to 359.

    The copy is positional. The longitude remap relabels the coordinate but leaves
    the columns where they were, so after it the columns are no longer in the order
    of the labels the rebuild writes: a -180..179 grid comes out shifted by 180
    degrees. `PrepareSubmissionAsWritten` is the code as written;
    `PrepareSubmission` first sorts the dataset along longitude, as `sortby` would,
    so that every column keeps its label.
 */
module Submission {
  import opened Errors
  import opened Sorting
  import opened Grids
  import opened Metadata
  import opened Coordinates
  import opened Distribution

  const LatitudeName: string := "latitude"
  const LongitudeName: string := "longitude"
  /** The rebuilt dataset's single data variable is literally named "variable". */
  const OutputName: string := "variable"

  /** `np.arange` with a whole-number start and step: `n` values from `start`,
      `step` apart. */
  function Arange(start: int, step: int, n: nat): (r: seq<real>)
    ensures |r| == n
    ensures forall i :: 0 <= i < n ==> r[i] == (start + i * step) as real
  {
    seq(n, i => (start + i * step) as real)
  }

  /** `np.arange(90.0, -91.0, -1.0)`. */
  const CanonicalLatitudes: seq<real> := Arange(90, -1, NLatitudes)
  /** `np.arange(0.0, 360.0, 1.0)`. */
  const CanonicalLongitudes: seq<real> := Arange(0, 1, NLongitudes)
  /** The coordinates of every rebuilt dataset. */
  const CanonicalCoords: Coords :=
    map["quintile" := ExpectedQuintiles, "latitude" := CanonicalLatitudes, "longitude" := CanonicalLongitudes]

  /** What the submission path produces before it writes the file: the rebuilt
      dataset, the file name, and the dataset's description attribute. */
  datatype Submission = Submission(dataset: Dataset, filename: string, description: string)

  function Description(variable: string, team: string, model: string, lead: string): string {
    variable + " prediction from " + team + " using " + model + " at week " + lead + " lead time"
  }

  /** A rebuilt dataset: canonical coordinates and one (5, 181, 360) array. */
  predicate Canonical(out: Dataset) {
    && out.coords == CanonicalCoords
    && |out.dataVars| == 1
    && out.dataVars[0].name == OutputName
    && HasShape(out.dataVars[0].values, NQuintiles, NLatitudes, NLongitudes)
  }

  /** Every data variable has as many longitude columns per row as the coordinate
      has values, as xarray guarantees for a dimension coordinate. */
  predicate Aligned(ds: Dataset, name: string)
    requires name in ds.coords
  {
    forall i, q, j ::
      (0 <= i < |ds.dataVars| && 0 <= q < |ds.dataVars[i].values| && 0 <= j < |ds.dataVars[i].values[q]|) ==>
        |ds.dataVars[i].values[q][j]| == |ds.coords[name]|
  }

  /** The two single-name normalisers in turn. A missing "latitude" is reported
      before a missing "longitude"; after success the longitude coordinate is
      present and holds no negative value. */
  function Normalise(ds: Dataset): (r: Result<Dataset>)
    ensures LatitudeName !in ds.coords ==> r == Err(CoordinateNotFound(Latitude, [LatitudeName]))
    ensures LatitudeName in ds.coords && |ds.coords[LatitudeName]| > 0 && LongitudeName !in ds.coords ==>
      r == Err(CoordinateNotFound(Longitude, [LongitudeName]))
    ensures r.Ok? ==> r.value.coords.Keys == ds.coords.Keys && |r.value.dataVars| == |ds.dataVars|
    ensures r.Ok? ==> LongitudeName in r.value.coords
    ensures r.Ok? ==>
      forall k :: 0 <= k < |r.value.coords[LongitudeName]| ==> r.value.coords[LongitudeName][k] >= 0.0
    ensures r.Ok? <==>
      LatitudeName in ds.coords && |ds.coords[LatitudeName]| > 0 && LongitudeName in ds.coords
    ensures r.Ok? ==> NormalisedLatitude(ds, r.value) && NormalisedLongitude(ds, r.value)
  {
    var flipped :- FlipLatitudesNamed(ds, LatitudeName);
    NormaliseSteps(ds, flipped);
    ConvertLongitudesNamed(flipped, LongitudeName)
  }

  /** What the latitude step leaves behind: the latitude keeps its values and ends
      with its first value not below its last. If it ascended end to end it now
      descends throughout and every data variable is re-sorted with it, exactly as
      `FlipLatitudesNamed` does; otherwise it and the data are untouched. */
  predicate NormalisedLatitude(ds: Dataset, out: Dataset) {
    && LatitudeName in ds.coords && LatitudeName in out.coords
    && var lat, lat' := ds.coords[LatitudeName], out.coords[LatitudeName];
    && |lat'| == |lat| > 0
    && multiset(lat') == multiset(lat)
    && lat'[0] >= lat'[|lat'| - 1]
    && (lat[0] >= lat[|lat| - 1] ==> lat' == lat && out.dataVars == ds.dataVars)
    && (lat[0] < lat[|lat| - 1] ==>
          && (forall i, j :: 0 <= i < j < |lat'| ==> lat'[i] >= lat'[j])
          && |out.dataVars| == |ds.dataVars|
          && forall i :: 0 <= i < |ds.dataVars| ==>
               out.dataVars[i].name == ds.dataVars[i].name &&
               out.dataVars[i].values == ReorderLatitudes(ds.dataVars[i].values, DescendingOrder(lat)))
  }

  /** What the longitude step leaves behind: the input's longitude, remapped
      exactly when it had a negative value. */
  predicate NormalisedLongitude(ds: Dataset, out: Dataset) {
    && LongitudeName in ds.coords && LongitudeName in out.coords
    && var lon := ds.coords[LongitudeName];
    out.coords[LongitudeName] == if HasNegative(lon) then RemapLongitudes(lon) else lon
  }

  /** The latitude step keeps the names and the longitude coordinate; the longitude
      step keeps the latitude coordinate and the data, so the result is normalised
      in both coordinates. */
  lemma NormaliseSteps(ds: Dataset, flipped: Dataset)
    requires FlipLatitudesNamed(ds, LatitudeName) == Ok(flipped)
    ensures flipped.coords.Keys == ds.coords.Keys
    ensures LongitudeName in ds.coords ==>
      var r := ConvertLongitudesNamed(flipped, LongitudeName);
      r.Ok? && NormalisedLatitude(ds, r.value) && NormalisedLongitude(ds, r.value)
  {
    if LongitudeName in ds.coords {
      var r := ConvertLongitudesNamed(flipped, LongitudeName);
      assert LatitudeName != LongitudeName;
      assert r.value.coords[LatitudeName] == flipped.coords[LatitudeName];
      assert flipped.coords[LongitudeName] == ds.coords[LongitudeName];
      FlippedLatitudeNormalised(ds, flipped);
    }
  }

  /** The latitude step on its own already leaves the latitude normalised. */
  lemma FlippedLatitudeNormalised(ds: Dataset, flipped: Dataset)
    requires FlipLatitudesNamed(ds, LatitudeName) == Ok(flipped)
    ensures NormalisedLatitude(ds, flipped)
  {
  }

  /** `list(data.data_vars.keys())[0]`: the first data variable, in insertion order;
      a dataset without one fails. */
  function FirstDataValues(ds: Dataset): (r: Result<Values>)
    ensures r.Ok? <==> |ds.dataVars| > 0
    ensures r.Ok? ==> r.value == ds.dataVars[0].values
    ensures r.Err? ==> r.error == NoDataVariable
  {
    if |ds.dataVars| == 0 then Err(NoDataVariable) else Ok(ds.dataVars[0].values)
  }

  /** `xr.Dataset(...)` over the canonical coordinates: whatever the input's
      coordinates were, the output carries the canonical ones, and an array of any
      other shape than (5, 181, 360) conflicts with them. */
  function Rebuild(values: Values): (r: Result<Dataset>)
    ensures r.Ok? <==> HasShape(values, NQuintiles, NLatitudes, NLongitudes)
    ensures r.Err? ==> r.error == ConflictingSizes
    ensures r.Ok? ==> Canonical(r.value) && r.value.dataVars[0].values == values
  {
    if HasShape(values, NQuintiles, NLatitudes, NLongitudes)
    then Ok(Dataset(CanonicalCoords, [DataVar(OutputName, values)]))
    else Err(ConflictingSizes)
  }

  /** Lines 112-143 of `AI_WQ_forecast_submission` as written: the metadata first
      (whose error wins over any problem with the data), then the file name, the
      two normalisers, the first data variable, and a positional copy into the
      canonical dataset. */
  function PrepareSubmissionAsWritten(ds: Dataset, variable: string, date: string, lead: Scalar,
                                      team: string, model: string, allowList: string): (r: Result<Submission>)
    ensures CheckSubmissionMetadata(variable, date, lead, allowList).Err? ==>
      r == Err(CheckSubmissionMetadata(variable, date, lead, allowList).error)
    ensures r.Ok? ==> CheckSubmissionMetadata(variable, date, lead, allowList).Ok?
    ensures r.Ok? ==>
      var w := CheckSubmissionMetadata(variable, date, lead, allowList).value;
      && r.value.filename == BuildFilename(variable, date, LeadTag, w, team, model)
      && r.value.description == Description(variable, team, model, w)
    ensures r.Ok? ==> Canonical(r.value.dataset)
    ensures r.Ok? ==> Normalise(ds).Ok? && |Normalise(ds).value.dataVars| > 0
    ensures r.Ok? ==>
      r.value.dataset.dataVars[0].values == Normalise(ds).value.dataVars[0].values
    ensures CheckSubmissionMetadata(variable, date, lead, allowList).Ok? ==>
      && (Normalise(ds).Err? ==> r == Err(Normalise(ds).error))
      && (Normalise(ds).Ok? && |Normalise(ds).value.dataVars| == 0 ==> r == Err(NoDataVariable))
      && (Normalise(ds).Ok? && |Normalise(ds).value.dataVars| > 0 ==>
            && (r.Ok? <==> HasShape(Normalise(ds).value.dataVars[0].values, NQuintiles, NLatitudes, NLongitudes))
            && (r.Err? ==> r.error == ConflictingSizes))
  {
    var w :- CheckSubmissionMetadata(variable, date, lead, allowList);
    var filename := BuildFilename(variable, date, LeadTag, w, team, model);
    var normalised :- Normalise(ds);
    var values :- FirstDataValues(normalised);
    var out :- Rebuild(values);
    Ok(Submission(out, filename, Description(variable, team, model, w)))
  }

  /** `ds.sortby(name)` on a longitude coordinate: the coordinate is re-sorted to
      ascend, and the columns of every data variable move with their labels, so the
      label at position k and the column at position k both come from the same
      original position. */
  function SortDatasetLongitudes(ds: Dataset, name: string): (r: Dataset)
    requires name in ds.coords
    ensures r.coords.Keys == ds.coords.Keys
    ensures forall c :: c in ds.coords && c != name ==> r.coords[c] == ds.coords[c]
    ensures |r.dataVars| == |ds.dataVars|
    ensures multiset(r.coords[name]) == multiset(ds.coords[name])
    ensures forall i, j :: 0 <= i < j < |r.coords[name]| ==> r.coords[name][i] <= r.coords[name][j]
    ensures forall k :: 0 <= k < |ds.coords[name]| ==>
      r.coords[name][k] == ds.coords[name][AscendingOrder(ds.coords[name])[k]]
    ensures forall i :: 0 <= i < |ds.dataVars| ==>
      r.dataVars[i] == ds.dataVars[i].(values := ReorderLongitudes(ds.dataVars[i].values, AscendingOrder(ds.coords[name])))
  {
    var lon := ds.coords[name];
    var order := AscendingOrder(lon);
    PermuteKeepsMultiset(lon, order);
    Dataset(ds.coords[name := Permute(lon, order)],
            seq(|ds.dataVars|, i requires 0 <= i < |ds.dataVars| =>
              ds.dataVars[i].(values := ReorderLongitudes(ds.dataVars[i].values, order))))
  }

  /** The submission path with the rebuild corrected: the normalised dataset is
      sorted along longitude before its first data variable is copied, so the
      copied columns are in the order of the labels the rebuild writes. Everything
      else is as written. */
  function PrepareSubmission(ds: Dataset, variable: string, date: string, lead: Scalar,
                             team: string, model: string, allowList: string): (r: Result<Submission>)
    ensures CheckSubmissionMetadata(variable, date, lead, allowList).Err? ==>
      r == Err(CheckSubmissionMetadata(variable, date, lead, allowList).error)
    ensures r.Ok? ==> CheckSubmissionMetadata(variable, date, lead, allowList).Ok?
    ensures r.Ok? ==>
      var w := CheckSubmissionMetadata(variable, date, lead, allowList).value;
      && r.value.filename == BuildFilename(variable, date, LeadTag, w, team, model)
      && r.value.description == Description(variable, team, model, w)
    ensures r.Ok? ==> Canonical(r.value.dataset)
    ensures r.Ok? ==> Normalise(ds).Ok? && |Normalise(ds).value.dataVars| > 0
    ensures r.Ok? ==>
      var n := Normalise(ds).value;
      r.value.dataset.dataVars[0].values ==
        ReorderLongitudes(n.dataVars[0].values, AscendingOrder(n.coords[LongitudeName]))
    ensures CheckSubmissionMetadata(variable, date, lead, allowList).Ok? ==>
      && (Normalise(ds).Err? ==> r == Err(Normalise(ds).error))
      && (Normalise(ds).Ok? && |Normalise(ds).value.dataVars| == 0 ==> r == Err(NoDataVariable))
      && (Normalise(ds).Ok? && |Normalise(ds).value.dataVars| > 0 ==>
            var n := Normalise(ds).value;
            var sorted := ReorderLongitudes(n.dataVars[0].values, AscendingOrder(n.coords[LongitudeName]));
            && (r.Ok? <==> HasShape(sorted, NQuintiles, NLatitudes, NLongitudes))
            && (r.Err? ==> r.error == ConflictingSizes))
  {
    var w :- CheckSubmissionMetadata(variable, date, lead, allowList);
    var filename := BuildFilename(variable, date, LeadTag, w, team, model);
    var normalised :- Normalise(ds);
    var sorted := SortDatasetLongitudes(normalised, LongitudeName);
    var values :- FirstDataValues(sorted);
    var out :- Rebuild(values);
    Ok(Submission(out, filename, Description(variable, team, model, w)))
  }

  /** Longitudes that are the 360 whole degrees in some order sort into exactly the
      canonical longitudes. */
  lemma DegreesSortToCanonical(lon: seq<real>)
    requires multiset(lon) == multiset(CanonicalLongitudes)
    ensures Permute(lon, AscendingOrder(lon)) == CanonicalLongitudes
  {
    var order := AscendingOrder(lon);
    PermuteKeepsMultiset(lon, order);
    var sorted := Permute(lon, order);
    assert forall i, j :: 0 <= i < j < |sorted| ==> sorted[i] <= sorted[j];
    var c := CanonicalLongitudes;
    assert forall i, j :: 0 <= i < j < |c| ==> c[i] <= c[j];
    SortedUnique(sorted, c);
  }

  /** The corrected rebuild keeps every column with its label: when the normalised
      longitudes are the 360 whole degrees in any order (0..359, or -180..179 after
      the remap), the longitude labels the data carries into the rebuild are
      exactly the labels the rebuilt dataset writes. */
  lemma {:induction false} RebuildKeepsLabels(ds: Dataset, variable: string, date: string, lead: Scalar,
                                              team: string, model: string, allowList: string)
    requires PrepareSubmission(ds, variable, date, lead, team, model, allowList).Ok?
    requires multiset(Normalise(ds).value.coords[LongitudeName]) == multiset(CanonicalLongitudes)
    ensures SortDatasetLongitudes(Normalise(ds).value, LongitudeName).coords[LongitudeName] ==
      PrepareSubmission(ds, variable, date, lead, team, model, allowList).value.dataset.coords[LongitudeName]
  {
    var n := Normalise(ds).value;
    DegreesSortToCanonical(n.coords[LongitudeName]);
  }

  /** A coordinate that already ascends is left in place by the sort, and so is
      every column of an aligned data variable. */
  lemma SortAscendingIsIdentity(ds: Dataset, name: string)
    requires name in ds.coords && Aligned(ds, name)
    requires forall i, j :: 0 <= i < j < |ds.coords[name]| ==> ds.coords[name][i] <= ds.coords[name][j]
    ensures SortDatasetLongitudes(ds, name) == ds
  {
    var lon := ds.coords[name];
    AscendingOrderOfSorted(lon);
    var r := SortDatasetLongitudes(ds, name);
    assert r.coords[name] == lon;
    assert r.coords == ds.coords;
    forall i | 0 <= i < |ds.dataVars| ensures r.dataVars[i] == ds.dataVars[i] {
      ReorderByRangeIsIdentity(ds.dataVars[i].values, |lon|);
    }
  }

  lemma ReorderByRangeIsIdentity(a: Values, n: nat)
    requires forall q, j :: 0 <= q < |a| && 0 <= j < |a[q]| ==> |a[q][j]| == n
    ensures ReorderLongitudes(a, Range(n)) == a
  {
    var r := ReorderLongitudes(a, Range(n));
    forall q | 0 <= q < |a| ensures r[q] == a[q] {
      forall j | 0 <= j < |a[q]| ensures r[q][j] == a[q][j] {
        var row := a[q][j];
        assert ReorderCells(row, Range(n)) == row;
      }
    }
  }

  /** Where the longitudes already ascend (and the data is aligned with them), the
      correction changes nothing: both versions give the same result. */
  lemma VersionsAgreeOnAscendingLongitudes(ds: Dataset, variable: string, date: string, lead: Scalar,
                                           team: string, model: string, allowList: string)
    requires Normalise(ds).Ok?
    requires Aligned(Normalise(ds).value, LongitudeName)
    requires var lon := Normalise(ds).value.coords[LongitudeName];
      forall i, j :: 0 <= i < j < |lon| ==> lon[i] <= lon[j]
    ensures PrepareSubmission(ds, variable, date, lead, team, model, allowList) ==
      PrepareSubmissionAsWritten(ds, variable, date, lead, team, model, allowList)
  {
    SortAscendingIsIdentity(Normalise(ds).value, LongitudeName);
  }

  /** -180, -179, ..., 179: the layout the longitude remap exists for. */
  const ShiftedLongitudes: seq<real> := Arange(-180, 1, NLongitudes)

  /** The remap turns -180..179 into 180..359 followed by 0..179: the same 360
      whole degrees, no longer in order. */
  lemma ShiftedRemap()
    ensures var r := RemapLongitudes(ShiftedLongitudes);
      && r[0] == 180.0
      && r == CanonicalLongitudes[180..] + CanonicalLongitudes[..180]
      && multiset(r) == multiset(CanonicalLongitudes)
  {
    var r := RemapLongitudes(ShiftedLongitudes);
    var c := CanonicalLongitudes;
    forall k | 0 <= k < |r| ensures r[k] == (c[180..] + c[..180])[k] {
      if k < 180 {
        assert ShiftedLongitudes[k] == (k - 180) as real;
      } else {
        assert ShiftedLongitudes[k] == (k - 180) as real;
      }
    }
    assert r == c[180..] + c[..180];
    assert c == c[..180] + c[180..];
  }

  /** A dataset on the canonical latitudes and the -180..179 longitudes. */
  function ShiftedDataset(name: string, values: Values): Dataset {
    Dataset(map[LatitudeName := CanonicalLatitudes, LongitudeName := ShiftedLongitudes], [DataVar(name, values)])
  }

  /** Normalising the shifted dataset only remaps its longitude labels. */
  lemma ShiftedNormalised(name: string, values: Values)
    ensures Normalise(ShiftedDataset(name, values)) ==
      Ok(Dataset(map[LatitudeName := CanonicalLatitudes, LongitudeName := RemapLongitudes(ShiftedLongitudes)],
                 [DataVar(name, values)]))
  {
    var ds := ShiftedDataset(name, values);
    assert CanonicalLatitudes[0] >= CanonicalLatitudes[NLatitudes - 1];
    assert FlipLatitudesNamed(ds, LatitudeName) == Ok(ds);
    assert ShiftedLongitudes[0] < 0.0;
    assert HasNegative(ShiftedLongitudes);
    var remapped := RemapLongitudes(ShiftedLongitudes);
    assert ConvertLongitudesNamed(ds, LongitudeName) == Ok(ds.(coords := ds.coords[LongitudeName := remapped]));
    assert ds.coords[LongitudeName := remapped] == map[LatitudeName := CanonicalLatitudes, LongitudeName := remapped];
  }

  /** The code as written, on a valid forecast laid out on -180..179: the column
      the output labels 0 degrees is the input's first column, whose label after
      the remap is 180 degrees. Every column is relabelled by half a turn. */
  lemma ShiftedGridMislabelled(name: string, values: Values, variable: string, date: string, lead: Scalar,
                               team: string, model: string, allowList: string)
    requires CheckSubmissionMetadata(variable, date, lead, allowList).Ok?
    requires HasShape(values, NQuintiles, NLatitudes, NLongitudes)
    ensures var r := PrepareSubmissionAsWritten(ShiftedDataset(name, values), variable, date, lead, team, model, allowList);
      && r.Ok?
      && r.value.dataset.coords[LongitudeName][0] == 0.0
      && r.value.dataset.dataVars[0].values == values
      && Normalise(ShiftedDataset(name, values)).value.coords[LongitudeName][0] == 180.0
  {
    ShiftedNormalised(name, values);
    ShiftedRemap();
  }

  /** The corrected rebuild on the same input: every output column labelled k is
      the input column whose remapped label is k. */
  lemma ShiftedGridCorrected(name: string, values: Values, variable: string, date: string, lead: Scalar,
                             team: string, model: string, allowList: string)
    requires CheckSubmissionMetadata(variable, date, lead, allowList).Ok?
    requires HasShape(values, NQuintiles, NLatitudes, NLongitudes)
    ensures var r := PrepareSubmission(ShiftedDataset(name, values), variable, date, lead, team, model, allowList);
      var remapped := RemapLongitudes(ShiftedLongitudes);
      var order := AscendingOrder(remapped);
      && r.Ok?
      && Canonical(r.value.dataset)
      && (forall k :: 0 <= k < NLongitudes ==>
            0 <= order[k] < NLongitudes && remapped[order[k]] == CanonicalLongitudes[k])
      && ColumnsTakenFrom(r.value.dataset.dataVars[0].values, values, order)
  {
    ShiftedSortOrder();
    ShiftedCorrectedData(name, values, variable, date, lead, team, model, allowList);
    var order := AscendingOrder(RemapLongitudes(ShiftedLongitudes));
    ReorderedColumns(values, order);
  }

  /** Every cell of `out` is the cell of `a` in the same quintile and row, and in
      the column `order` names for its own column. */
  predicate ColumnsTakenFrom(out: Values, a: Values, order: seq<int>) {
    forall q, j, k :: 0 <= q < |out| && 0 <= j < |out[q]| && 0 <= k < |out[q][j]| ==>
      && q < |a| && j < |a[q]| && k < |order| && 0 <= order[k] < |a[q][j]|
      && out[q][j][k] == a[q][j][order[k]]
  }

  /** Reordering the longitude axis of a (5, 181, 360) array by a list of 360
      valid column numbers takes every cell from the column the list names. */
  lemma ReorderedColumns(a: Values, order: seq<int>)
    requires HasShape(a, NQuintiles, NLatitudes, NLongitudes)
    requires |order| == NLongitudes && forall k :: 0 <= k < |order| ==> 0 <= order[k] < NLongitudes
    ensures ColumnsTakenFrom(ReorderLongitudes(a, order), a, order)
  {
  }

  /** Sorting the remapped -180..179 labels puts the label k at position k. */
  lemma ShiftedSortOrder()
    ensures var remapped := RemapLongitudes(ShiftedLongitudes);
      var order := AscendingOrder(remapped);
      forall k :: 0 <= k < NLongitudes ==> 0 <= order[k] < NLongitudes && remapped[order[k]] == CanonicalLongitudes[k]
  {
    ShiftedRemap();
    var remapped := RemapLongitudes(ShiftedLongitudes);
    DegreesSortToCanonical(remapped);
    var order := AscendingOrder(remapped);
    forall k | 0 <= k < NLongitudes ensures remapped[order[k]] == CanonicalLongitudes[k] {
      assert Permute(remapped, order)[k] == remapped[order[k]];
    }
  }

  /** The corrected version accepts the shifted dataset and copies its columns in
      the sorted order of their remapped labels. */
  lemma ShiftedCorrectedData(name: string, values: Values, variable: string, date: string, lead: Scalar,
                             team: string, model: string, allowList: string)
    requires CheckSubmissionMetadata(variable, date, lead, allowList).Ok?
    requires HasShape(values, NQuintiles, NLatitudes, NLongitudes)
    ensures var r := PrepareSubmission(ShiftedDataset(name, values), variable, date, lead, team, model, allowList);
      && r.Ok?
      && r.value.dataset.dataVars[0].values == ReorderLongitudes(values, AscendingOrder(RemapLongitudes(ShiftedLongitudes)))
  {
    ShiftedNormalised(name, values);
    var order := AscendingOrder(RemapLongitudes(ShiftedLongitudes));
    assert HasShape(ReorderLongitudes(values, order), NQuintiles, NLatitudes, NLongitudes);
  }

  /** A dataset already on the canonical coordinates passes through both versions
      with its data untouched. */
  lemma CanonicalInputUnchanged(name: string, values: Values, variable: string, date: string, lead: Scalar,
                                team: string, model: string, allowList: string)
    requires CheckSubmissionMetadata(variable, date, lead, allowList).Ok?
    requires HasShape(values, NQuintiles, NLatitudes, NLongitudes)
    ensures var ds := Dataset(map[LatitudeName := CanonicalLatitudes, LongitudeName := CanonicalLongitudes],
                              [DataVar(name, values)]);
      && PrepareSubmission(ds, variable, date, lead, team, model, allowList).Ok?
      && PrepareSubmission(ds, variable, date, lead, team, model, allowList).value.dataset.dataVars[0].values == values
      && PrepareSubmission(ds, variable, date, lead, team, model, allowList) ==
         PrepareSubmissionAsWritten(ds, variable, date, lead, team, model, allowList)
  {
    var ds := Dataset(map[LatitudeName := CanonicalLatitudes, LongitudeName := CanonicalLongitudes],
                      [DataVar(name, values)]);
    assert CanonicalLatitudes[0] >= CanonicalLatitudes[NLatitudes - 1];
    assert FlipLatitudesNamed(ds, LatitudeName) == Ok(ds);
    assert !HasNegative(CanonicalLongitudes);
    assert Normalise(ds) == Ok(ds);
    var c := CanonicalLongitudes;
    assert forall i, j :: 0 <= i < j < |c| ==> c[i] <= c[j];
    VersionsAgreeOnAscendingLongitudes(ds, variable, date, lead, team, model, allowList);
  }
}
