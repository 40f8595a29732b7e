# AI Weather Quest submission validation, modelled in Dafny

This project models how the AI Weather Quest checks a forecast before it is accepted.
A forecast is a grid of quintile probabilities over (quintile, latitude, longitude).
It comes with a variable name, a start date, a period or lead time, a team and a model.
The source holds two versions of the checks:

- `all_checks` in `src/AI_WQ_package/check_fc_submission.py` works on a DataArray. It runs these steps in order:
  1. the metadata checks (variable, date, period);
  2. the canonical file name `variable_date_pPERIOD_team_model.nc`;
  3. latitude orientation (181 points; an ascending axis is re-sorted to descend);
  4. longitude range (360 points; a negative value remaps every value by `(v + 360) % 360`);
  5. the quintile labels (sorted, close to 0.2 … 1.0);
  6. the data: values in [0, 1] or NaN, shape (5, 181, 360), and per-point sums close to 1.
- `AI_WQ_forecast_submission` in `src/AI_WQ_package/forecast_submission.py`, lines 112-143, works on a Dataset. Its rules differ:
  - the date must occur in an allow-list text;
  - the lead time must be "3" or "4";
  - the file name carries `_wk`;
  - the normalisers look at one fixed name each and check no sizes;
  - the quintile labels and the data values are not checked at all.

  The first data variable is then copied into a fresh dataset on the canonical coordinates: quintiles 0.2 to 1.0, latitudes 90 to -90, longitudes 0 to 359.

The optional window check `check_forecast_data_window` is modelled too. The clock is a parameter. `all_checks` does not call it, because the call is commented out in the source.

Modules, one file each:

| module | what it holds |
|---|---|
| `Errors` | one constructor per exception raised; the `Result` type |
| `Numeric` | `allclose` on one element, Python's float `%` and `int()` |
| `Decimal` | `str(int)`, fixed-width digit fields, and parsing them back |
| `Calendar` | `YYYYMMDD` dates, day ordinals, weekdays |
| `Sorting` | stable insertion sort, reversal, uniqueness of sorted order |
| `Grids` | cells, DataArrays, Datasets, alias search, axis reordering |
| `Metadata` | variable, date, period and lead-time checks; allow-list search; file names |
| `Coordinates` | latitude flip and longitude remap, in both source forms |
| `Distribution` | quintile-label check and data characteristics |
| `Window` | the Thursday-to-Sunday submission window |
| `Pipeline` | `all_checks` and what it guarantees as a whole |
| `Submission` | validation, naming and rebuild part of `AI_WQ_forecast_submission` |

Floats are modelled as exact reals. NaN is a separate cell constructor. Every check returns `Ok(value)` or `Err(reason)`, and the first failing step gives the reason.

## Model

| member | source | states |
|---|---|---|
| `Metadata.CheckVariableInList` | src/AI_WQ_package/check_fc_submission.py:7-9 | accepts exactly the listed values; the error names the value and the list |
| `Metadata.CoerceToString` | src/AI_WQ_package/check_fc_submission.py:34-41 | an int gives its canonical decimal text (no leading zero, no "-0"), which reads back as itself; a float gives that of its integer part truncated toward zero; a string is kept; anything else is rejected |
| `Metadata.IntCoercedInList` | src/AI_WQ_package/check_fc_submission.py:178-179 | a number's decimal text is one of the one-digit codes exactly when the number is that digit |
| `Metadata.CheckDate` | src/AI_WQ_package/check_fc_submission.py:162-167 | accepts exactly the eight-digit strings naming a real calendar day |
| `Metadata.CheckFilenameCharacteristics` | src/AI_WQ_package/check_fc_submission.py:169-184 | variable first, then date, then coerced period in {"1","2"}; the first failure wins; success returns the canonical period |
| `Metadata.PeriodAcceptance` | src/AI_WQ_package/check_fc_submission.py:177-179 | by type, which periods pass (int 1 or 2, float with integer part 1 or 2, string "1" or "2"); 1, 1.9 and "1" all give "1" |
| `Metadata.IsSubstring` | src/AI_WQ_package/forecast_submission.py:22 | Python `in` on strings: true exactly when the pattern occurs at some position |
| `Metadata.CheckStringInFile` | src/AI_WQ_package/forecast_submission.py:19-23 | accepts exactly when the date occurs somewhere in the allow-list text |
| `Metadata.PartialDatesPass` | src/AI_WQ_package/forecast_submission.py:22-23 | a substring test, not a line match: any piece of a listed date passes, down to the empty string |
| `Metadata.CheckSubmissionMetadata` | src/AI_WQ_package/forecast_submission.py:112-119 | variable first, then allow-list, then coerced lead time in {"3","4"}; the first failure wins |
| `Metadata.LeadTimeAcceptance` | src/AI_WQ_package/forecast_submission.py:10-17 | by type, which lead times pass (int 3 or 4, float with integer part 3 or 4, string "3" or "4") |
| `Metadata.BuildFilename` | src/AI_WQ_package/check_fc_submission.py:202 | the name is variable, "_", date, tag, code, "_", team, "_", model and ".nc": each field sits at a fixed offset and the length is their sum plus six |
| `Metadata.FilenameDeterminesFields` | src/AI_WQ_package/check_fc_submission.py:202 | two file names are equal only if variable, date and code agree, and so do the team-and-model tails |
| `Metadata.FilenameParts` | src/AI_WQ_package/forecast_submission.py:122 | where variable, date, code and team/model sit inside a built file name |
| `Decimal.IntRoundTrip` | src/AI_WQ_package/check_fc_submission.py:37 | `str(int)` loses nothing: parsing its text gives the number back |
| `Decimal.IntToString` | src/AI_WQ_package/check_fc_submission.py:37 | `str(int)`: a minus sign exactly for negative numbers, then digits with no superfluous leading zero |
| `Decimal.IntTextRoundTrip` | src/AI_WQ_package/check_fc_submission.py:37 | every canonical integer text is the `str` of the number it reads as, so each number has exactly one canonical text |
| `Decimal.CanonicalNatRoundTrip` | src/AI_WQ_package/forecast_submission.py:13 | the same for digit strings without a superfluous leading zero |
| `Decimal.NatRoundTrip` | src/AI_WQ_package/forecast_submission.py:13 | the same round trip for non-negative numbers |
| `Decimal.IntToStringInjective` | src/AI_WQ_package/forecast_submission.py:13 | distinct integers have distinct decimal texts |
| `Decimal.PadRoundTrip` | src/AI_WQ_package/check_fc_submission.py:165 | a number that fits in w digits survives zero-padding and parsing |
| `Decimal.ParsePadRoundTrip` | src/AI_WQ_package/check_fc_submission.py:165 | a digit string is the padding of its own value |
| `Calendar.DateTextRoundTrip` | src/AI_WQ_package/check_fc_submission.py:165 | the accepted date strings are exactly the `YYYYMMDD` renderings of valid dates, in both directions |
| `Calendar.Ordinal` | src/AI_WQ_package/check_fc_submission.py:15 | `toordinal()`: 1 January of year 1 is day 1, and no day comes before it |
| `Calendar.OrdinalSuccessor` | src/AI_WQ_package/check_fc_submission.py:23 | the day after a date, when it exists, has the next ordinal, across month ends, year ends and leap days |
| `Calendar.YearLength` | src/AI_WQ_package/check_fc_submission.py:23 | a year has 366 days if it is a leap year and 365 otherwise |
| `Calendar.MonthsFillYear` | src/AI_WQ_package/check_fc_submission.py:23 | the months up to 31 December fill the year exactly |
| `Calendar.WeekdayAdvances` | src/AI_WQ_package/check_fc_submission.py:22-29 | proof step for `Window.AcceptedOnThursdayToSunday`: within one Monday-to-Sunday week, the day k days later has weekday k higher, so the three days after a Thursday are Friday to Sunday |
| `Numeric.Mod360` | src/AI_WQ_package/forecast_submission.py:70 | Python float `% 360`: the result is in [0, 360), differs from the input by whole turns, and leaves [0, 360) unchanged |
| `Numeric.Trunc` | src/AI_WQ_package/check_fc_submission.py:37 | `int(f)` truncates toward zero: same sign, magnitude within one below |
| `Numeric.SumToleranceBand` | src/AI_WQ_package/check_fc_submission.py:159 | the sum check at 1.0 with atol 1e-3 accepts exactly the sums in [0.99899, 1.00101] |
| `Sorting.SortBy` | src/AI_WQ_package/check_fc_submission.py:101 | the result is a permutation of the input, ordered by the key |
| `Sorting.SortByTiesAscend` | src/AI_WQ_package/forecast_submission.py:46 | the insertion sort is stable: sorting increasing positions keeps equal-key positions in increasing order |
| `Sorting.InsertTiesAscend` | src/AI_WQ_package/forecast_submission.py:46 | proof step for `Sorting.SortByTiesAscend`: inserting a number below every element puts it before all elements with an equal key |
| `Sorting.ReverseTiesDescend` | src/AI_WQ_package/forecast_submission.py:46 | proof step for `Coordinates.DescendingOrderTiesReversed`: reversing a list whose ties ascend makes them descend |
| `Sorting.SortSortedIsIdentity` | src/AI_WQ_package/check_fc_submission.py:73 | sorting a sequence already in order changes nothing (stability) |
| `Sorting.SortedUnique` | src/AI_WQ_package/check_fc_submission.py:101 | two ordered sequences with the same elements are equal |
| `Grids.FindCoordinate` | src/AI_WQ_package/check_fc_submission.py:55-65 | returns the first accepted name that is present; fails, listing every name, only when none is |
| `Grids.FindCoordinateDependsOnNames` | src/AI_WQ_package/check_fc_submission.py:57-62 | the search depends only on which names are present, not on the values |
| `Coordinates.AscendingOrder` | src/AI_WQ_package/forecast_submission.py:46 | the index order `sortby` applies: a permutation of the indices along which the values never decrease |
| `Coordinates.DescendingOrder` | src/AI_WQ_package/check_fc_submission.py:73 | the `ascending=False` order: a permutation of the indices along which latitude never increases |
| `Coordinates.DescendingPermutation` | src/AI_WQ_package/check_fc_submission.py:73 | the re-sorted latitude has the same values as before, now descending |
| `Coordinates.PermuteKeepsMultiset` | src/AI_WQ_package/check_fc_submission.py:73 | listing values through any permutation of their indices keeps the multiset |
| `Coordinates.MultisetOfIndexed` | src/AI_WQ_package/check_fc_submission.py:73 | the same, by induction on the length |
| `Coordinates.FlipLatitudes` | src/AI_WQ_package/check_fc_submission.py:43-74 | first alias; missing or not 181 points fails; first below last re-sorts the axis and its data to descend, leaving other coordinates alone; otherwise unchanged |
| `Coordinates.FlipLatitudesIdempotent` | src/AI_WQ_package/check_fc_submission.py:70-74 | flipping twice is flipping once |
| `Coordinates.FlipLatitudesAliasInvariant` | src/AI_WQ_package/check_fc_submission.py:55-62 | the same latitude under any accepted name normalises to the same values and data |
| `Coordinates.AscendingOrderStable` | src/AI_WQ_package/forecast_submission.py:46 | `sortby` is stable: positions holding equal values keep their input order |
| `Coordinates.DescendingOrderTiesReversed` | src/AI_WQ_package/forecast_submission.py:46 | `ascending=False` reverses the stable ascending order, so positions holding equal latitudes come out in reverse input order |
| `Coordinates.AscendingOrderOfSorted` | src/AI_WQ_package/forecast_submission.py:46 | the stable sort leaves an already ascending coordinate's index order alone |
| `Coordinates.AscendingFlipOrder` | src/AI_WQ_package/check_fc_submission.py:71-73 | on an ascending latitude axis the re-sort visits indices from last to first |
| `Coordinates.AscendingFlipIsReversal` | src/AI_WQ_package/check_fc_submission.py:71-73 | on an ascending latitude axis the re-sorted coordinate is the reversal of the original |
| `Coordinates.RemapLongitudes` | src/AI_WQ_package/forecast_submission.py:70 | every result is in [0, 360) and differs from its input by whole turns; [0, 360) is kept and [-360, 0) gains 360 |
| `Coordinates.ConvertLongitudes` | src/AI_WQ_package/check_fc_submission.py:106-138 | intended behaviour: first alias; missing or not 360 points fails; a negative value remaps that coordinate only, never the data; otherwise unchanged |
| `Coordinates.ConvertLongitudesAsWritten` | src/AI_WQ_package/check_fc_submission.py:130-137 | as written: whenever it succeeds it agrees with the intended version and returns the grid unchanged |
| `Coordinates.NegativeLongitudesRaiseNameError` | src/AI_WQ_package/check_fc_submission.py:134-136 | every 360-point longitude axis with a negative value raises NameError as written, while the intended version succeeds |
| `Coordinates.NameErrorExample` | src/AI_WQ_package/check_fc_submission.py:136 | concretely, a -180..179 axis named "lon" raises NameError |
| `Coordinates.ConvertLongitudesIdempotent` | src/AI_WQ_package/check_fc_submission.py:133-138 | converting twice is converting once |
| `Coordinates.CanonicalGridUnchanged` | src/AI_WQ_package/check_fc_submission.py:67-74 | a grid already oriented (181 latitudes descending end to end, 360 non-negative longitudes) passes both normalisers unchanged |
| `Coordinates.FlipLatitudesNamed` | src/AI_WQ_package/forecast_submission.py:25-47 | one fixed name; missing or empty fails; no size check; first below last re-sorts every data variable to descend; otherwise unchanged |
| `Coordinates.FlipLatitudesNamedIdempotent` | src/AI_WQ_package/forecast_submission.py:43-47 | flipping twice is flipping once |
| `Coordinates.ConvertLongitudesNamed` | src/AI_WQ_package/forecast_submission.py:49-72 | one fixed name; missing fails; no size check; a negative value remaps the coordinate into [0, 360); data variables untouched |
| `Coordinates.ConvertLongitudesNamedIdempotent` | src/AI_WQ_package/forecast_submission.py:67-72 | converting twice is converting once |
| `Distribution.SortLabels` | src/AI_WQ_package/check_fc_submission.py:101 | Python `sorted`: an ordered permutation of the labels |
| `Distribution.CheckQuintileRange` | src/AI_WQ_package/check_fc_submission.py:76-104 | first alias; missing fails; accepts exactly when the sorted labels are close to 0.2 … 1.0 (so there are five); success returns the grid unchanged |
| `Distribution.LabelsMatchOrderInsensitive` | src/AI_WQ_package/check_fc_submission.py:101 | label lists with the same elements are both accepted or both rejected |
| `Distribution.ExactLabelsMatch` | src/AI_WQ_package/check_fc_submission.py:85-101 | the exact labels pass in any order |
| `Distribution.SortLabelsOfSorted` | src/AI_WQ_package/check_fc_submission.py:101 | labels already in order are their own sorted form |
| `Distribution.MisplacedLabelRejected` | src/AI_WQ_package/check_fc_submission.py:100-102 | a label off by more than the tolerance (0.3 for 0.2) fails |
| `Distribution.Column` | src/AI_WQ_package/check_fc_submission.py:158 | the five quintile cells of one grid point |
| `Distribution.CheckDataCharacteristics` | src/AI_WQ_package/check_fc_submission.py:140-160 | bounds first (NaN passes), then shape (5, 181, 360), then per-point NaN-skipping sums close to 1; accepts exactly when all three hold |
| `Distribution.NanSumWithoutCell` | src/AI_WQ_package/check_fc_submission.py:158 | NaN counts as zero: turning a cell into NaN lowers the sum by that cell's value |
| `Distribution.NanSumBounds` | src/AI_WQ_package/check_fc_submission.py:158 | in-range cells sum to between 0 and their count |
| `Distribution.NaNInsteadOfNegativePasses` | src/AI_WQ_package/check_fc_submission.py:144 | a single -0.01 cell is rejected for its value; NaN in its place passes the bounds rule |
| `Distribution.SumToleranceExamples` | src/AI_WQ_package/check_fc_submission.py:157-160 | sums of exactly 1 pass; one point outside [0.99899, 1.00101] fails; 1.0009 is close and 1.02 is not |
| `Distribution.ShortGridRejected` | src/AI_WQ_package/check_fc_submission.py:152-155 | a (5, 180, 360) grid with values in range fails on its shape |
| `Window.CheckForecastWindow` | src/AI_WQ_package/check_fc_submission.py:11-32 | invalid date, then not a Thursday, then a Sunday past 31 December 9999 (overflow), then the clock outside Thursday 00:00 to Sunday 23:59:59.000059; accepts exactly otherwise |
| `Window.LastThursdayOverflows` | src/AI_WQ_package/check_fc_submission.py:23 | 30 December 9999 is a valid Thursday whose Sunday overflows, so it is rejected whatever the clock says |
| `Window.AcceptedOnThursdayToSunday` | src/AI_WQ_package/check_fc_submission.py:22-29 | an accepted instant falls on the start Thursday or one of the three days after, so Thursday to Sunday |
| `Window.ThursdayExample` | src/AI_WQ_package/check_fc_submission.py:15 | 14 November 2024 is accepted as a date and is a Thursday |
| `Pipeline.AliasesDisjoint` | src/AI_WQ_package/check_fc_submission.py:55-118 | no accepted name serves two axes |
| `Pipeline.AllChecks` | src/AI_WQ_package/check_fc_submission.py:187-224 | with the intended longitude remap of `ConvertLongitudes` (as written, a negative longitude raises NameError): metadata errors win; the file name is built from the metadata alone; the returned grid conforms and keeps the input's coordinate names |
| `Pipeline.AcceptableIsAccepted` | src/AI_WQ_package/check_fc_submission.py:187-224 | valid metadata and a grid with the three coordinates, 181 latitudes and 360 longitudes in any order, the five labels and (5, 181, 360) probabilities summing to one are accepted |
| `Pipeline.AcceptedIsAcceptable` | src/AI_WQ_package/check_fc_submission.py:187-224 | the converse: for data with 181 rows in each quintile, an accepted grid and its metadata were acceptable (the full (5, 181, 360) shape is derived, not assumed) |
| `Pipeline.AcceptedShape` | src/AI_WQ_package/check_fc_submission.py:70-74 | if the flipped data have shape (5, 181, 360) and every quintile had 181 rows, the original data had that shape |
| `Distribution.ReorderedShape` | src/AI_WQ_package/check_fc_submission.py:73 | a row reorder visiting every row has shape (5, 181, 360) only if the original array has |
| `Pipeline.FlipKeepsData` | src/AI_WQ_package/check_fc_submission.py:70-74 | a present 181-point latitude flips successfully, and the flipped data pass the value and sum checks exactly when the original data do |
| `Pipeline.LongitudeSurvivesFlip` | src/AI_WQ_package/check_fc_submission.py:67-74 | the latitude flip keeps the coordinate names and the longitude coordinate |
| `Pipeline.DescendingOrderVisitsEveryRow` | src/AI_WQ_package/check_fc_submission.py:73 | the latitude re-sort order of 181 points names every row |
| `Distribution.ReorderKeepsData` | src/AI_WQ_package/check_fc_submission.py:73 | moving whole latitude rows keeps the shape, the value bounds and the sums to one |
| `Distribution.ReorderReflectsData` | src/AI_WQ_package/check_fc_submission.py:73 | when every row is visited, the reordered values pass only if the original values do |
| `Distribution.ReorderKeepsShape` | src/AI_WQ_package/check_fc_submission.py:73 | row j of the reordered array is row `order[j]` of the input, and the shape stays (5, 181, 360) |
| `Pipeline.AllChecksConforms` | src/AI_WQ_package/check_fc_submission.py:210-212 | after both normalisers the latitude and longitude coordinates conform, and the quintile labels are the input's |
| `Pipeline.FixedPointsConform` | src/AI_WQ_package/check_fc_submission.py:187-224 | a grid comes back unchanged exactly when it already conforms |
| `Pipeline.AllChecksIdempotent` | src/AI_WQ_package/check_fc_submission.py:210-221 | running the checks on their own output gives the same result |
| `Pipeline.LatitudeReportedFirst` | src/AI_WQ_package/check_fc_submission.py:210-212 | with neither latitude nor longitude present, the latitude error is reported |
| `Pipeline.LabelsReportedBeforeData` | src/AI_WQ_package/check_fc_submission.py:215-221 | a wrong label set is reported however bad the data |
| `Pipeline.NegativeLongitudesNormalised` | src/AI_WQ_package/check_fc_submission.py:212 | with the intended remap, a -180..180 grid that passes comes out with every longitude in [0, 360) |
| `Submission.Arange` | src/AI_WQ_package/forecast_submission.py:140-142 | `np.arange` with whole-number start and step: n values, step apart |
| `Submission.Normalise` | src/AI_WQ_package/forecast_submission.py:129-131 | succeeds exactly when a non-empty "latitude" and a "longitude" are present, a missing latitude reported first; the latitude keeps its values and ends with first not below last; an ascending latitude comes out descending throughout with every data variable re-sorted with it, any other latitude and the data are untouched; the longitude is remapped exactly when it had a negative value |
| `Submission.NormaliseSteps` | src/AI_WQ_package/forecast_submission.py:129-131 | the longitude step keeps what the latitude step produced, so the result is normalised in both coordinates |
| `Submission.FlippedLatitudeNormalised` | src/AI_WQ_package/forecast_submission.py:25-47 | the latitude step alone leaves the latitude normalised as `Normalise` states |
| `Submission.FirstDataValues` | src/AI_WQ_package/forecast_submission.py:134-135 | the first data variable's values; a dataset without one fails |
| `Submission.Rebuild` | src/AI_WQ_package/forecast_submission.py:138-143 | the output always carries the canonical coordinates and one variable named "variable"; any shape but (5, 181, 360) conflicts |
| `Submission.PrepareSubmissionAsWritten` | src/AI_WQ_package/forecast_submission.py:112-143 | as written: metadata errors win; then a normalisation error, then a missing data variable, then a shape conflict; with valid metadata it succeeds exactly when normalisation succeeds and the first variable has shape (5, 181, 360); `_wk` file name and description; canonical output whose data is the normalised first variable, copied by position |
| `Submission.SortDatasetLongitudes` | src/AI_WQ_package/forecast_submission.py:131-143 | part of the correction, with no counterpart in the source: a stable ascending sort on longitude in which every column moves with its label and other coordinates are kept |
| `Submission.PrepareSubmission` | src/AI_WQ_package/forecast_submission.py:112-143 | corrected: as written, except the data are sorted by longitude label before the positional copy; with valid metadata it succeeds exactly when normalisation succeeds and the longitude-sorted first variable has shape (5, 181, 360), with the same error order |
| `Submission.DegreesSortToCanonical` | src/AI_WQ_package/forecast_submission.py:142 | the 360 whole degrees in any order sort to exactly 0..359 |
| `Submission.RebuildKeepsLabels` | src/AI_WQ_package/forecast_submission.py:131-142 | corrected: the labels the data carry into the rebuild are exactly the labels it writes |
| `Submission.SortAscendingIsIdentity` | src/AI_WQ_package/forecast_submission.py:131-135 | an ascending, aligned longitude axis is left in place by the sort |
| `Submission.ReorderByRangeIsIdentity` | src/AI_WQ_package/forecast_submission.py:135 | reordering columns by the identity order changes nothing |
| `Submission.VersionsAgreeOnAscendingLongitudes` | src/AI_WQ_package/forecast_submission.py:131-143 | where longitudes already ascend, both versions give the same result |
| `Submission.ShiftedRemap` | src/AI_WQ_package/forecast_submission.py:68-71 | -180..179 remaps to 180..359 then 0..179: the same degrees, out of order |
| `Submission.ShiftedNormalised` | src/AI_WQ_package/forecast_submission.py:129-131 | normalising a -180..179 dataset only relabels its longitudes |
| `Submission.ShiftedGridMislabelled` | src/AI_WQ_package/forecast_submission.py:131-142 | as written, the column labelled 0 degrees in the output is the one labelled 180 after the remap |
| `Submission.ShiftedGridCorrected` | src/AI_WQ_package/forecast_submission.py:131-142 | corrected, the output is canonical and every output column labelled k is the input column whose remapped label is k |
| `Submission.ReorderedColumns` | src/AI_WQ_package/forecast_submission.py:46 | reordering longitudes by valid column numbers takes every cell from the named column |
| `Submission.CanonicalInputUnchanged` | src/AI_WQ_package/forecast_submission.py:138-142 | a dataset already on the canonical grid passes both versions with its data untouched |

## Left out

- The FTP session, directory creation, `to_netcdf` and `os.remove` (`forecast_submission.py` lines 74-93 and 145-157) are network and file I/O. `os` is never imported there.
- The module-level test code at the end of `forecast_submission.py` loads a file from a fixed path and submits it. It is I/O at import time.
- Reading `mondays_start_dates.txt`: the file's contents are a parameter of `CheckStringInFile`.
- `datetime.utcnow()`: the current instant is a parameter of `CheckForecastWindow`, in microseconds.
- `print` diagnostics have no effect on behaviour.
- The team and model registration checks are not implemented in the source.
- `docs/source/conf.py` is Sphinx configuration with no logic.
- IEEE-754 rounding and the float artefacts of `np.arange` are not modelled. Values are exact reals, and the canonical coordinates are exact whole degrees.
- `Metadata.CheckDate`: `strptime` leniency is not modelled, so the check rejects strings that `strptime` accepts. These include strings shorter than eight digits, such as "2024111"; a space-padded day, such as "202411 1"; and non-ASCII decimal digits. Dates here are strict eight-digit ASCII `YYYYMMDD` strings, years 1 to 9999.
- A number passed as the period or lead time is assumed finite. `int()` of NaN or infinity raises in Python; that error path is not modelled.
- Python treating `True`/`False` as the integers 1/0 is not modelled; a bool is `Other`.
- The file name is built from strings; a non-string team or model (a Python `TypeError`) is not modelled.
- xarray internals are not modelled:
  - `sortby`'s handling of NaN coordinates is not modelled.
  - Equal latitudes come out in reverse input order, because a descending `sortby` reverses a stable ascending order. `Coordinates.DescendingOrder` does the same, as `Coordinates.DescendingOrderTiesReversed` states.
  - The array's dimension order is taken as (quintile, latitude, longitude).
  - Every data variable is assumed to lie along the sorted dimension.
  - Coordinates carry no dimension. `sortby` on latitude would also reorder any other coordinate along the latitude dimension, such as a second alias "lat" next to "latitude"; the flips here leave every other coordinate as it is.
- `np.allclose` on label lists that are not five long either raises on broadcasting or compares one label with all five. Both are folded into the single `QuintileMismatch` rejection.
- The window check is modelled but not called, because `all_checks` has it commented out.
- `Coordinates.SortGridLatitudes`: the contract states only that the coordinate names are kept. What the re-sort does is stated on `FlipLatitudes`, which calls it.
- `Coordinates.ConvertLongitudesAsWritten`: the contract states only agreement on success. The NameError itself is stated by `NegativeLongitudesRaiseNameError` and `NameErrorExample`.
- `Pipeline.AcceptedIsAcceptable`: assumes each quintile of the data has 181 latitude rows. The model's grid does not tie the array's sizes to the coordinates' lengths, as an xarray DataArray does. Without the assumption, a flip of an ascending axis would silently drop surplus rows.
- A latitude axis that is unordered inside but has its first value at or above its last passes the flip untouched. In the submission path its rows are then also labelled by position. This is not corrected here.

## Findings

| source | as written | input that shows it | evidently intended | confidence | as-written member | corrected member |
|---|---|---|---|---|---|---|
| src/AI_WQ_package/check_fc_submission.py:136 | the remap reads `longitudes` before that local name is assigned (Python's `UnboundLocalError`, a kind of `NameError`); the values were bound to `longitude_vals` at line 123 | any grid with 360 longitudes, one negative, e.g. "lon" = -180, -179, …, 179 | `(longitude_vals + 360) % 360` assigned to the coordinate, as the docstring and `forecast_submission.py:70` do | high; not executed | `Coordinates.ConvertLongitudesAsWritten` | `Coordinates.ConvertLongitudes` |
| src/AI_WQ_package/forecast_submission.py:131-143 | after the longitude remap, which relabels without moving columns, the data are copied by position under labels 0..359 | a valid forecast on longitudes -180..179: the output column labelled 0 degrees holds the data labelled 180 degrees | move the columns with their labels (`sortby` on longitude) before the positional copy | high; not executed | `Submission.PrepareSubmissionAsWritten` | `Submission.PrepareSubmission` |

`Coordinates.NegativeLongitudesRaiseNameError` and `Coordinates.NameErrorExample` exhibit the first finding, and `Pipeline.NegativeLongitudesNormalised` states what the corrected pipeline does instead. `Submission.ShiftedGridMislabelled` exhibits the second, and `Submission.ShiftedGridCorrected` and `Submission.RebuildKeepsLabels` state the corrected behaviour.
