/** The ways a submission can be rejected, and the Result type every check returns.

    Each constructor corresponds to one exception the validation code raises; the
    fields carry what the message reports (the offending value, the allowed values,
    the expected and found sizes).
 */
module Errors {

  /** The three coordinate axes the normalisers and the label check look for. */
  datatype Axis = Latitude | Longitude | Quintile

  datatype Error =
    /** `check_variable_in_list`: the value is not one of the allowed strings. */
    | NotInList(got: string, allowed: seq<string>)
    /** `strptime(s, '%Y%m%d')` failed. */
    | InvalidDate(date: string)
    /** The start date is not a Thursday. */
    | NotThursday(date: string)
    /** The clock lies outside the Thursday-to-Sunday submission window, whose last
        day (the Sunday) is reported by its day number. */
    | OutsideWindow(date: string, lastDayOrdinal: int)
    /** Python `OverflowError`: the Sunday after the start date lies beyond
        31 December 9999, the last day `datetime` can represent. */
    | DateOverflow(date: string)
    /** The period or lead time is neither a number nor a string. */
    | NotNumberNorString
    /** The start date does not occur in the allow-list text. */
    | NotInAllowList(date: string)
    /** None of the accepted names of a coordinate is present. */
    | CoordinateNotFound(axis: Axis, tried: seq<string>)
    /** A coordinate has the wrong number of points. */
    | WrongCoordinateSize(axis: Axis, expected: nat, size: nat)
    /** Indexing the first or last element of an empty coordinate. */
    | EmptyCoordinate(axis: Axis)
    /** The sorted quintile labels are not close to 0.2, 0.4, 0.6, 0.8, 1.0. */
    | QuintileMismatch(found: seq<real>)
    /** Some cell is neither NaN nor inside [0, 1]. */
    | ValueOutOfRange
    /** The array is not of shape (5, 181, 360). */
    | ShapeMismatch
    /** Some spatial point's probabilities do not sum to 1. */
    | SumNotOne
    /** Python `NameError`: an undefined name was read. */
    | NameError(name: string)
    /** Python `IndexError`: the dataset has no data variable. */
    | NoDataVariable
    /** The data do not fit the canonical (5, 181, 360) coordinates. */
    | ConflictingSizes

  /** Success with a value, or the error that stopped the pipeline. */
  datatype Result<+T> = Ok(value: T) | Err(error: Error) {

    predicate IsFailure() {
      Err?
    }

    function PropagateFailure<U>(): Result<U>
      requires Err?
    {
      Err(error)
    }

    function Extract(): T
      requires Ok?
    {
      value
    }
  }

  /** Turns a condition into a check that passes or fails with the given error. */
  function Need(condition: bool, e: Error): (r: Result<()>)
    ensures r.Ok? <==> condition
    ensures r.Err? ==> r.error == e
  {
    if condition then Ok(()) else Err(e)
  }
}
