/** `all_checks`: the whole validation of one forecast DataArray, in the order the
    source runs it. The file name's fields are checked and the name is built first;
    then latitude orientation, longitude range, quintile labels and data contents.
    The first failing step's error is the result. The submission-window check is
    switched off in the source and is not part of this pipeline.

    The longitude step is the intended remap `Coordinates.ConvertLongitudes`. As
    written, the source raises NameError on any negative longitude (see
    `Coordinates.ConvertLongitudesAsWritten`); here such a grid is converted.
 */
module Pipeline {
  import opened Errors
  import opened Grids
  import opened Metadata
  import opened Coordinates
  import opened Distribution

  /** The values of the first accepted name of an axis that the grid carries. */
  function CoordinateOf(g: Grid, aliases: seq<string>, axis: Axis): seq<real>
    requires !NonePresent(g.coords, aliases)
  {
    g.coords[FindCoordinate(g.coords, aliases, axis).value]
  }

  /** What every grid leaving `all_checks` looks like: 181 latitudes, the first not
      below the last; 360 longitudes, none negative; the five quintile labels; and
      data of shape (5, 181, 360) holding probabilities (or NaN) that sum to one at
      every point. */
  predicate Conforms(g: Grid) {
    && !NonePresent(g.coords, LatitudeNames)
    && !NonePresent(g.coords, LongitudeNames)
    && !NonePresent(g.coords, QuintileNames)
    && var lat := CoordinateOf(g, LatitudeNames, Latitude);
    && var lon := CoordinateOf(g, LongitudeNames, Longitude);
    && |lat| == NLatitudes && lat[0] >= lat[NLatitudes - 1]
    && |lon| == NLongitudes && (forall k :: 0 <= k < |lon| ==> lon[k] >= 0.0)
    && LabelsMatch(CoordinateOf(g, QuintileNames, Quintile))
    && AllInRange(g.values)
    && HasShape(g.values, NQuintiles, NLatitudes, NLongitudes)
    && SumsToOne(g.values)
  }

  /** No name is accepted for two different axes. */
  lemma AliasesDisjoint()
    ensures forall i, j :: 0 <= i < |LatitudeNames| && 0 <= j < |LongitudeNames| ==>
      LatitudeNames[i] != LongitudeNames[j]
    ensures forall i, j :: 0 <= i < |LatitudeNames| && 0 <= j < |QuintileNames| ==>
      LatitudeNames[i] != QuintileNames[j]
    ensures forall i, j :: 0 <= i < |LongitudeNames| && 0 <= j < |QuintileNames| ==>
      LongitudeNames[i] != QuintileNames[j]
  {
  }

  /** `all_checks`, with the intended longitude remap: on success, the normalised
      grid and the canonical file name.
      A bad variable, date or period is reported before the grid is looked at, so
      it wins over any grid error; the file name depends on the metadata alone; and
      the returned grid conforms. */
  function AllChecks(g: Grid, variable: string, date: string, period: Scalar,
                     team: string, model: string): (r: Result<(Grid, string)>)
    ensures CheckFilenameCharacteristics(variable, date, period).Err? ==>
      r == Err(CheckFilenameCharacteristics(variable, date, period).error)
    ensures r.Ok? ==> CheckFilenameCharacteristics(variable, date, period).Ok?
    ensures r.Ok? ==>
      r.value.1 == BuildFilename(variable, date, PeriodTag, CheckFilenameCharacteristics(variable, date, period).value, team, model)
    ensures r.Ok? ==> Conforms(r.value.0)
    ensures r.Ok? ==> r.value.0.coords.Keys == g.coords.Keys
  {
    var p :- CheckFilenameCharacteristics(variable, date, period);
    var filename := BuildFilename(variable, date, PeriodTag, p, team, model);
    var flipped :- FlipLatitudes(g);
    var converted :- ConvertLongitudes(flipped);
    var checked :- CheckQuintileRange(converted);
    var _ :- CheckDataCharacteristics(checked.values);
    AllChecksConforms(g, flipped, converted);
    Ok((checked, filename))
  }

  /** The two normalisers leave a grid whose coordinates conform; only the
      coordinates of their own axes change. */
  lemma AllChecksConforms(g: Grid, flipped: Grid, converted: Grid)
    requires FlipLatitudes(g) == Ok(flipped)
    requires ConvertLongitudes(flipped) == Ok(converted)
    ensures converted.coords.Keys == g.coords.Keys
    ensures !NonePresent(converted.coords, LatitudeNames)
    ensures !NonePresent(converted.coords, LongitudeNames)
    ensures var lat := CoordinateOf(converted, LatitudeNames, Latitude);
      |lat| == NLatitudes && lat[0] >= lat[NLatitudes - 1]
    ensures var lon := CoordinateOf(converted, LongitudeNames, Longitude);
      |lon| == NLongitudes && (forall k :: 0 <= k < |lon| ==> lon[k] >= 0.0)
    ensures !NonePresent(g.coords, QuintileNames) ==>
      CoordinateOf(converted, QuintileNames, Quintile) == CoordinateOf(g, QuintileNames, Quintile)
  {
    LatitudeSurvivesConversion(g, flipped, converted);
    if !NonePresent(g.coords, QuintileNames) {
      QuintilesUntouched(g, flipped, converted);
    }
  }

  /** The longitude conversion does not touch the latitude coordinate. */
  lemma LatitudeSurvivesConversion(g: Grid, flipped: Grid, converted: Grid)
    requires FlipLatitudes(g) == Ok(flipped)
    requires ConvertLongitudes(flipped) == Ok(converted)
    ensures !NonePresent(converted.coords, LatitudeNames)
    ensures CoordinateOf(converted, LatitudeNames, Latitude) == CoordinateOf(flipped, LatitudeNames, Latitude)
  {
    AliasesDisjoint();
    FindCoordinateDependsOnNames(g.coords, flipped.coords, LatitudeNames, Latitude);
    FindCoordinateDependsOnNames(flipped.coords, converted.coords, LatitudeNames, Latitude);
    var latName := FindCoordinate(flipped.coords, LatitudeNames, Latitude).value;
    var lonName := FindCoordinate(flipped.coords, LongitudeNames, Longitude).value;
    assert latName != lonName;
  }

  /** Neither normaliser touches the quintile coordinate. */
  lemma QuintilesUntouched(g: Grid, flipped: Grid, converted: Grid)
    requires FlipLatitudes(g) == Ok(flipped)
    requires ConvertLongitudes(flipped) == Ok(converted)
    requires !NonePresent(g.coords, QuintileNames)
    ensures CoordinateOf(converted, QuintileNames, Quintile) == CoordinateOf(g, QuintileNames, Quintile)
  {
    AliasesDisjoint();
    FindCoordinateDependsOnNames(g.coords, flipped.coords, QuintileNames, Quintile);
    FindCoordinateDependsOnNames(flipped.coords, converted.coords, QuintileNames, Quintile);
    var qName := FindCoordinate(g.coords, QuintileNames, Quintile).value;
    var latName := FindCoordinate(g.coords, LatitudeNames, Latitude).value;
    var lonName := FindCoordinate(flipped.coords, LongitudeNames, Longitude).value;
    assert qName != latName && qName != lonName;
  }

  /** A grid that already conforms is accepted exactly as it came, and only such a
      grid is: the conforming grids are the fixed points of `all_checks`. */
  lemma {:induction false} FixedPointsConform(g: Grid, variable: string, date: string, period: Scalar,
                                              team: string, model: string)
    requires CheckFilenameCharacteristics(variable, date, period).Ok?
    ensures var p := CheckFilenameCharacteristics(variable, date, period).value;
      AllChecks(g, variable, date, period, team, model) == Ok((g, BuildFilename(variable, date, PeriodTag, p, team, model)))
      <==> Conforms(g)
  {
    if Conforms(g) {
      var lon := CoordinateOf(g, LongitudeNames, Longitude);
      assert !HasNegative(lon);
      assert FlipLatitudes(g) == Ok(g);
      assert ConvertLongitudes(g) == Ok(g);
      assert CheckQuintileRange(g) == Ok(g);
    }
  }

  /** Running the checks again on their own output changes nothing. */
  lemma AllChecksIdempotent(g: Grid, variable: string, date: string, period: Scalar,
                            team: string, model: string)
    requires AllChecks(g, variable, date, period, team, model).Ok?
    ensures AllChecks(AllChecks(g, variable, date, period, team, model).value.0, variable, date, period, team, model)
      == AllChecks(g, variable, date, period, team, model)
  {
    FixedPointsConform(AllChecks(g, variable, date, period, team, model).value.0, variable, date, period, team, model);
  }

  /** Among grid errors, latitude comes first: a grid with neither a latitude nor a
      longitude coordinate is reported for its latitude. */
  lemma LatitudeReportedFirst(g: Grid, variable: string, date: string, period: Scalar,
                              team: string, model: string)
    requires CheckFilenameCharacteristics(variable, date, period).Ok?
    requires NonePresent(g.coords, LatitudeNames) && NonePresent(g.coords, LongitudeNames)
    ensures AllChecks(g, variable, date, period, team, model) == Err(CoordinateNotFound(Latitude, LatitudeNames))
  {
  }

  /** The labels are checked before the data: a grid with good coordinates but a
      wrong label set is reported for its labels, however bad its values. */
  lemma LabelsReportedBeforeData(g: Grid, variable: string, date: string, period: Scalar,
                                 team: string, model: string)
    requires CheckFilenameCharacteristics(variable, date, period).Ok?
    requires FlipLatitudes(g).Ok? && ConvertLongitudes(FlipLatitudes(g).value).Ok?
    requires !NonePresent(g.coords, QuintileNames)
    requires !LabelsMatch(CoordinateOf(g, QuintileNames, Quintile))
    ensures AllChecks(g, variable, date, period, team, model) ==
      Err(QuintileMismatch(CoordinateOf(g, QuintileNames, Quintile)))
  {
    var flipped := FlipLatitudes(g).value;
    AllChecksConforms(g, flipped, ConvertLongitudes(flipped).value);
  }

  /** A grid on -180..179 longitudes is accepted by the corrected conversion (when
      the rest conforms) and comes out with every longitude in [0, 360). */
  lemma NegativeLongitudesNormalised(g: Grid, variable: string, date: string, period: Scalar,
                                     team: string, model: string)
    requires AllChecks(g, variable, date, period, team, model).Ok?
    requires HasNegative(CoordinateOf(FlipLatitudes(g).value, LongitudeNames, Longitude))
    ensures var out := AllChecks(g, variable, date, period, team, model).value.0;
      var lon := CoordinateOf(out, LongitudeNames, Longitude);
      forall k :: 0 <= k < |lon| ==> 0.0 <= lon[k] < 360.0
  {
    var flipped := FlipLatitudes(g).value;
    var converted := ConvertLongitudes(flipped).value;
    AllChecksOutput(g, variable, date, period, team, model);
    FindCoordinateDependsOnNames(flipped.coords, converted.coords, LongitudeNames, Longitude);
  }

  /** The grid `all_checks` returns is the one the two normalisers produced. */
  lemma AllChecksOutput(g: Grid, variable: string, date: string, period: Scalar,
                        team: string, model: string)
    requires AllChecks(g, variable, date, period, team, model).Ok?
    ensures FlipLatitudes(g).Ok? && ConvertLongitudes(FlipLatitudes(g).value).Ok?
    ensures AllChecks(g, variable, date, period, team, model).value.0 ==
      ConvertLongitudes(FlipLatitudes(g).value).value
  {
  }

  /** What `all_checks` demands of the grid it is given, read off that grid: the
      three coordinates under accepted names, 181 latitudes and 360 longitudes in any
      order or range, the five quintile labels, and probability data of shape
      (5, 181, 360) summing to one at every point. */
  predicate Acceptable(g: Grid) {
    && !NonePresent(g.coords, LatitudeNames)
    && !NonePresent(g.coords, LongitudeNames)
    && !NonePresent(g.coords, QuintileNames)
    && |CoordinateOf(g, LatitudeNames, Latitude)| == NLatitudes
    && |CoordinateOf(g, LongitudeNames, Longitude)| == NLongitudes
    && LabelsMatch(CoordinateOf(g, QuintileNames, Quintile))
    && AllInRange(g.values)
    && HasShape(g.values, NQuintiles, NLatitudes, NLongitudes)
    && SumsToOne(g.values)
  }

  /** An acceptable grid with valid metadata passes every check. */
  lemma AcceptableIsAccepted(g: Grid, variable: string, date: string, period: Scalar,
                             team: string, model: string)
    requires CheckFilenameCharacteristics(variable, date, period).Ok?
    requires Acceptable(g)
    ensures AllChecks(g, variable, date, period, team, model).Ok?
  {
    FlipKeepsData(g);
    var flipped := FlipLatitudes(g).value;
    LongitudeSurvivesFlip(g);
    var converted := ConvertLongitudes(flipped).value;
    QuintilesUntouched(g, flipped, converted);
    assert CheckQuintileRange(converted) == Ok(converted);
  }

  /** Conversely, a grid the checks accept was acceptable. Each quintile of the data
      is assumed to hold one row per latitude, as an xarray DataArray always does;
      the model's grid does not tie the array's size to the coordinate's length,
      and a flip that drops surplus rows would otherwise hide them. */
  lemma AcceptedIsAcceptable(g: Grid, variable: string, date: string, period: Scalar,
                             team: string, model: string)
    requires forall q :: 0 <= q < |g.values| ==> |g.values[q]| == NLatitudes
    requires AllChecks(g, variable, date, period, team, model).Ok?
    ensures CheckFilenameCharacteristics(variable, date, period).Ok?
    ensures Acceptable(g)
  {
    AllChecksOutput(g, variable, date, period, team, model);
    var flipped := FlipLatitudes(g).value;
    var converted := ConvertLongitudes(flipped).value;
    AcceptedShape(g, flipped);
    FlipKeepsData(g);
    LongitudeSurvivesFlip(g);
    FindCoordinateDependsOnNames(g.coords, converted.coords, QuintileNames, Quintile);
    QuintilesUntouched(g, flipped, converted);
  }

  /** A flip whose result has shape (5, 181, 360) came from data of that shape,
      given 181 rows per quintile: every row reappears in the result. */
  lemma AcceptedShape(g: Grid, flipped: Grid)
    requires forall q :: 0 <= q < |g.values| ==> |g.values[q]| == NLatitudes
    requires FlipLatitudes(g) == Ok(flipped)
    requires HasShape(flipped.values, NQuintiles, NLatitudes, NLongitudes)
    ensures HasShape(g.values, NQuintiles, NLatitudes, NLongitudes)
  {
    var lat := CoordinateOf(g, LatitudeNames, Latitude);
    if lat[0] < lat[|lat| - 1] {
      DescendingOrderVisitsEveryRow(lat);
      ReorderedShape(g.values, DescendingOrder(lat));
    }
  }

  /** The latitude flip succeeds on a present 181-point coordinate and leaves the
      data acceptable exactly when they were. */
  lemma FlipKeepsData(g: Grid)
    requires !NonePresent(g.coords, LatitudeNames)
    requires |CoordinateOf(g, LatitudeNames, Latitude)| == NLatitudes
    requires HasShape(g.values, NQuintiles, NLatitudes, NLongitudes)
    ensures FlipLatitudes(g).Ok?
    ensures var a, b := g.values, FlipLatitudes(g).value.values;
      && HasShape(b, NQuintiles, NLatitudes, NLongitudes)
      && (AllInRange(b) <==> AllInRange(a))
      && (SumsToOne(b) <==> SumsToOne(a))
  {
    var lat := CoordinateOf(g, LatitudeNames, Latitude);
    if lat[0] < lat[|lat| - 1] {
      var order := DescendingOrder(lat);
      DescendingOrderVisitsEveryRow(lat);
      ReorderKeepsData(g.values, order);
      ReorderReflectsData(g.values, order);
    }
  }

  /** The latitude sort order of a 181-point coordinate names every row once. */
  lemma DescendingOrderVisitsEveryRow(lat: seq<real>)
    requires |lat| == NLatitudes
    ensures RowOrder(DescendingOrder(lat))
    ensures forall i :: 0 <= i < NLatitudes ==> i in DescendingOrder(lat)
  {
    var order := DescendingOrder(lat);
    forall i | 0 <= i < NLatitudes ensures i in order {
      assert Range(NLatitudes)[i] == i;
      assert i in multiset(order);
    }
  }

  /** The latitude flip keeps the names and leaves the longitude coordinate alone. */
  lemma LongitudeSurvivesFlip(g: Grid)
    requires FlipLatitudes(g).Ok?
    ensures FlipLatitudes(g).value.coords.Keys == g.coords.Keys
    ensures !NonePresent(g.coords, LongitudeNames) ==>
      CoordinateOf(FlipLatitudes(g).value, LongitudeNames, Longitude) == CoordinateOf(g, LongitudeNames, Longitude)
  {
    var flipped := FlipLatitudes(g).value;
    if !NonePresent(g.coords, LongitudeNames) {
      AliasesDisjoint();
      FindCoordinateDependsOnNames(g.coords, flipped.coords, LongitudeNames, Longitude);
      var latName := FindCoordinate(g.coords, LatitudeNames, Latitude).value;
      var lonName := FindCoordinate(g.coords, LongitudeNames, Longitude).value;
      assert latName != lonName;
    }
  }
}
