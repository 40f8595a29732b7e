/** The checks on the forecast's content: `check_quintile_range` (the quintile
    labels) and `check_data_characteristics` (value bounds, array shape, and
    probabilities summing to one at every grid point).
 */
module Distribution {
  import opened Errors
  import opened Numeric
  import opened Sorting
  import opened Grids

  /** The labels a forecast must carry, in ascending order. */
  const ExpectedQuintiles: seq<real> := [0.2, 0.4, 0.6, 0.8, 1.0]

  /** Python `sorted` on the found labels. */
  function SortLabels(found: seq<real>): (r: seq<real>)
    ensures multiset(r) == multiset(found)
    ensures |r| == |found|
    ensures forall i, j :: 0 <= i < j < |r| ==> r[i] <= r[j]
  {
    var r := SortBy(found, x => x);
    assert forall i, j :: 0 <= i < j < |r| ==> (x => x)(r[i]) <= (x => x)(r[j]);
    r
  }

  /** `np.allclose(sorted(expected), sorted(found))`. A count other than five never
      passes: numpy either cannot broadcast the two arrays (and raises) or, for a
      single label, compares it with all five expected values, which no one number
      is close to. */
  predicate LabelsMatch(found: seq<real>) {
    var s := SortLabels(found);
    |s| == |ExpectedQuintiles| &&
    forall k :: 0 <= k < |s| ==> Close(ExpectedQuintiles[k], s[k], LabelTol)
  }

  /** `check_quintile_range`: the first accepted quintile name is used; a missing
      coordinate is rejected; the labels, sorted, must be pairwise close to 0.2, 0.4,
      0.6, 0.8, 1.0 (so there are exactly five of them); on success the grid is
      returned unchanged. */
  function CheckQuintileRange(g: Grid): (r: Result<Grid>)
    ensures NonePresent(g.coords, QuintileNames) ==>
      r == Err(CoordinateNotFound(Quintile, QuintileNames))
    ensures !NonePresent(g.coords, QuintileNames) ==>
      var found := g.coords[FindCoordinate(g.coords, QuintileNames, Quintile).value];
      && (r.Ok? <==> LabelsMatch(found))
      && (r.Err? ==> r.error == QuintileMismatch(found))
      && (r.Ok? ==> |found| == NQuintiles)
    ensures r.Ok? ==> r.value == g
  {
    var name :- FindCoordinate(g.coords, QuintileNames, Quintile);
    var found := g.coords[name];
    if LabelsMatch(found) then Ok(g) else Err(QuintileMismatch(found))
  }

  /** The order in which the labels are stored never matters: two label lists with
      the same elements are both accepted or both rejected. */
  lemma LabelsMatchOrderInsensitive(a: seq<real>, b: seq<real>)
    requires multiset(a) == multiset(b)
    ensures LabelsMatch(a) == LabelsMatch(b)
  {
    SortedUnique(SortLabels(a), SortLabels(b));
  }

  /** The exact labels pass in any order, e.g. 1.0, 0.8, 0.6, 0.4, 0.2. */
  lemma ExactLabelsMatch(found: seq<real>)
    requires multiset(found) == multiset(ExpectedQuintiles)
    ensures LabelsMatch(found)
  {
    var s := SortLabels(found);
    SortedIsExpected(s);
    ExpectedSelfClose();
  }

  lemma ExpectedSelfClose()
    ensures forall k :: 0 <= k < |ExpectedQuintiles| ==>
      Close(ExpectedQuintiles[k], ExpectedQuintiles[k], LabelTol)
  {
  }

  lemma SortedIsExpected(s: seq<real>)
    requires forall i, j :: 0 <= i < j < |s| ==> s[i] <= s[j]
    requires multiset(s) == multiset(ExpectedQuintiles)
    ensures s == ExpectedQuintiles
  {
    var e := ExpectedQuintiles;
    assert forall i, j :: 0 <= i < j < |e| ==> e[i] <= e[j];
    SortedUnique(s, e);
  }

  /** Labels already in ascending order are their own sorted form. */
  lemma SortLabelsOfSorted(s: seq<real>)
    requires forall i, j :: 0 <= i < j < |s| ==> s[i] <= s[j]
    ensures SortLabels(s) == s
  {
    SortedUnique(SortLabels(s), s);
  }

  /** A label off by more than the tolerance fails, e.g. 0.3 where 0.2 belongs. */
  lemma MisplacedLabelRejected()
    ensures !LabelsMatch([0.3, 0.4, 0.6, 0.8, 1.0])
  {
    var s := [0.3, 0.4, 0.6, 0.8, 1.0];
    assert forall i, j :: 0 <= i < j < |s| ==> s[i] <= s[j];
    SortLabelsOfSorted(s);
    assert !Close(ExpectedQuintiles[0], s[0], LabelTol);
  }

  /** A cell may hold a probability in [0, 1], or NaN. */
  predicate InRange(c: Cell) {
    c.NaN? || 0.0 <= c.v <= 1.0
  }

  /** `((values >= 0) & (values <= 1) | isnan(values)).all()`. */
  predicate AllInRange(a: Values) {
    forall q, j, k :: 0 <= q < |a| && 0 <= j < |a[q]| && 0 <= k < |a[q][j]| ==> InRange(a[q][j][k])
  }

  /** A cell's contribution to a NaN-skipping sum. */
  function Mass(c: Cell): real {
    if c.NaN? then 0.0 else c.v
  }

  /** xarray's `sum`, which skips NaN by default: the total of the non-NaN cells. */
  function NanSum(cells: seq<Cell>): real {
    if |cells| == 0 then 0.0 else NanSum(cells[..|cells| - 1]) + Mass(cells[|cells| - 1])
  }

  /** The cells of one grid point, one per quintile. */
  function Column(a: Values, j: nat, k: nat): (c: seq<Cell>)
    requires HasShape(a, NQuintiles, NLatitudes, NLongitudes)
    requires j < NLatitudes && k < NLongitudes
    ensures |c| == NQuintiles
    ensures forall q :: 0 <= q < NQuintiles ==> c[q] == a[q][j][k]
  {
    seq(|a|, q requires 0 <= q < |a| => a[q][j][k])
  }

  /** `np.allclose(values.sum(axis=0), 1.0, atol=1e-3)`. */
  predicate SumsToOne(a: Values)
    requires HasShape(a, NQuintiles, NLatitudes, NLongitudes)
  {
    forall j, k :: 0 <= j < NLatitudes && 0 <= k < NLongitudes ==>
      Close(NanSum(Column(a, j, k)), 1.0, SumTol)
  }

  /** `check_data_characteristics`: first the value bounds, then the shape
      (5, 181, 360), then the per-point sums; the first failure is reported. */
  function CheckDataCharacteristics(a: Values): (r: Result<()>)
    ensures !AllInRange(a) ==> r == Err(ValueOutOfRange)
    ensures AllInRange(a) && !HasShape(a, NQuintiles, NLatitudes, NLongitudes) ==> r == Err(ShapeMismatch)
    ensures AllInRange(a) && HasShape(a, NQuintiles, NLatitudes, NLongitudes) ==>
      (r.Ok? <==> SumsToOne(a)) && (r.Err? ==> r.error == SumNotOne)
  {
    if !AllInRange(a) then Err(ValueOutOfRange)
    else if !HasShape(a, NQuintiles, NLatitudes, NLongitudes) then Err(ShapeMismatch)
    else if !SumsToOne(a) then Err(SumNotOne)
    else Ok(())
  }

  /** NaN counts as zero: turning a cell into NaN lowers the sum by exactly that
      cell's value. */
  lemma {:induction false} NanSumWithoutCell(cells: seq<Cell>, i: nat)
    requires i < |cells|
    ensures NanSum(cells[i := NaN]) == NanSum(cells) - Mass(cells[i])
  {
    var n := |cells|;
    if i < n - 1 {
      assert cells[i := NaN][..n - 1] == cells[..n - 1][i := NaN];
      NanSumWithoutCell(cells[..n - 1], i);
    } else {
      assert cells[i := NaN][..n - 1] == cells[..n - 1];
    }
  }

  /** Probabilities in [0, 1] sum to between 0 and the number of cells. */
  lemma {:induction false} NanSumBounds(cells: seq<Cell>)
    requires forall q :: 0 <= q < |cells| ==> InRange(cells[q])
    ensures 0.0 <= NanSum(cells) <= |cells| as real
  {
    if |cells| > 0 {
      NanSumBounds(cells[..|cells| - 1]);
    }
  }

  /** `a` with the cell at (q, j, k) replaced by NaN. */
  function SetNaN(a: Values, q: nat, j: nat, k: nat): Values
    requires q < |a| && j < |a[q]| && k < |a[q][j]|
  {
    a[q := a[q][j := a[q][j][k := NaN]]]
  }

  /** The bounds rule on one cell: a grid whose only offending cell holds -0.01 is
      rejected for its values, and the same grid with NaN there instead passes the
      bounds rule, whatever else is wrong with it. */
  lemma NaNInsteadOfNegativePasses(a: Values, q: nat, j: nat, k: nat)
    requires q < |a| && j < |a[q]| && k < |a[q][j]|
    requires a[q][j][k] == Val(-0.01)
    requires forall q', j', k' ::
      0 <= q' < |a| && 0 <= j' < |a[q']| && 0 <= k' < |a[q'][j']| && (q', j', k') != (q, j, k) ==>
        InRange(a[q'][j'][k'])
    ensures CheckDataCharacteristics(a) == Err(ValueOutOfRange)
    ensures CheckDataCharacteristics(SetNaN(a, q, j, k)) != Err(ValueOutOfRange)
  {
    var b := SetNaN(a, q, j, k);
    assert AllInRange(b) by {
      forall q', j', k' | 0 <= q' < |b| && 0 <= j' < |b[q']| && 0 <= k' < |b[q'][j']|
        ensures InRange(b[q'][j'][k'])
      {
        if (q', j', k') != (q, j, k) {
          assert b[q'][j'][k'] == a[q'][j'][k'];
        }
      }
    }
  }

  /** Every point summing to exactly one passes, and a single point whose sum lies
      outside [0.99899, 1.00101] (1.02, say) is enough to fail; 1.0009 is inside. */
  lemma SumToleranceExamples(a: Values, j: nat, k: nat)
    requires AllInRange(a) && HasShape(a, NQuintiles, NLatitudes, NLongitudes)
    requires j < NLatitudes && k < NLongitudes
    ensures (forall j', k' :: 0 <= j' < NLatitudes && 0 <= k' < NLongitudes ==>
              NanSum(Column(a, j', k')) == 1.0) ==> CheckDataCharacteristics(a) == Ok(())
    ensures !(0.99899 <= NanSum(Column(a, j, k)) <= 1.00101) ==> CheckDataCharacteristics(a) == Err(SumNotOne)
    ensures Close(1.0009, 1.0, SumTol) && !Close(1.02, 1.0, SumTol)
  {
    SumToleranceBand(NanSum(Column(a, j, k)));
  }

  /** A grid one latitude short, shape (5, 180, 360), fails on its shape once its
      values are in range. */
  lemma ShortGridRejected(a: Values)
    requires AllInRange(a) && HasShape(a, NQuintiles, 180, NLongitudes)
    ensures CheckDataCharacteristics(a) == Err(ShapeMismatch)
  {
    assert |a[0]| == 180;
  }

  /** A list of 181 row numbers, each a valid latitude index. */
  predicate RowOrder(order: seq<int>) {
    |order| == NLatitudes && forall j :: 0 <= j < |order| ==> 0 <= order[j] < NLatitudes
  }

  /** Reordering the latitude rows of a (5, 181, 360) array by a row order keeps
      the shape, and row j of the result is row `order[j]` of the input. */
  lemma ReorderKeepsShape(a: Values, order: seq<int>)
    requires HasShape(a, NQuintiles, NLatitudes, NLongitudes) && RowOrder(order)
    ensures var r := ReorderLatitudes(a, order);
      && HasShape(r, NQuintiles, NLatitudes, NLongitudes)
      && forall q, j :: 0 <= q < NQuintiles && 0 <= j < NLatitudes ==> r[q][j] == a[q][order[j]]
  {
  }

  /** Reordering moves whole rows, so what `check_data_characteristics` asks of the
      values holds after the latitude flip if it held before: every cell in [0, 1]
      or NaN, and every grid point summing to one (grid point (j, k) of the result
      is grid point (order[j], k) of the input). */
  lemma ReorderKeepsData(a: Values, order: seq<int>)
    requires HasShape(a, NQuintiles, NLatitudes, NLongitudes) && RowOrder(order)
    ensures HasShape(ReorderLatitudes(a, order), NQuintiles, NLatitudes, NLongitudes)
    ensures AllInRange(a) ==> AllInRange(ReorderLatitudes(a, order))
    ensures SumsToOne(a) ==> SumsToOne(ReorderLatitudes(a, order))
  {
    var r := ReorderLatitudes(a, order);
    ReorderKeepsShape(a, order);
    if SumsToOne(a) {
      forall j, k | 0 <= j < NLatitudes && 0 <= k < NLongitudes
        ensures Close(NanSum(Column(r, j, k)), 1.0, SumTol)
      {
        assert Column(r, j, k) == Column(a, order[j], k);
      }
    }
  }

  /** When the order visits every row, the converse holds too: the reordered values
      pass exactly when the original ones do. */
  lemma ReorderReflectsData(a: Values, order: seq<int>)
    requires HasShape(a, NQuintiles, NLatitudes, NLongitudes) && RowOrder(order)
    requires forall i :: 0 <= i < NLatitudes ==> i in order
    ensures AllInRange(ReorderLatitudes(a, order)) ==> AllInRange(a)
    ensures HasShape(ReorderLatitudes(a, order), NQuintiles, NLatitudes, NLongitudes)
    ensures SumsToOne(ReorderLatitudes(a, order)) ==> SumsToOne(a)
  {
    var r := ReorderLatitudes(a, order);
    ReorderKeepsShape(a, order);
    if AllInRange(r) {
      forall q, i, k | 0 <= q < |a| && 0 <= i < |a[q]| && 0 <= k < |a[q][i]|
        ensures InRange(a[q][i][k])
      {
        assert i in order;
        var j :| 0 <= j < |order| && order[j] == i;
        assert r[q][j] == a[q][i];
      }
    }
    if SumsToOne(r) {
      forall i, k | 0 <= i < NLatitudes && 0 <= k < NLongitudes
        ensures Close(NanSum(Column(a, i, k)), 1.0, SumTol)
      {
        assert i in order;
        var j :| 0 <= j < |order| && order[j] == i;
        assert Column(r, j, k) == Column(a, i, k);
      }
    }
  }

  /** A reorder that visits every row of an array with 181 rows per quintile has
      shape (5, 181, 360) only if the array has: each row is some row of the result. */
  lemma ReorderedShape(a: Values, order: seq<int>)
    requires forall q :: 0 <= q < |a| ==> |a[q]| == NLatitudes
    requires RowOrder(order) && forall i :: 0 <= i < NLatitudes ==> i in order
    requires HasShape(ReorderLatitudes(a, order), NQuintiles, NLatitudes, NLongitudes)
    ensures HasShape(a, NQuintiles, NLatitudes, NLongitudes)
  {
    var r := ReorderLatitudes(a, order);
    forall q, i | 0 <= q < |a| && 0 <= i < |a[q]| ensures |a[q][i]| == NLongitudes {
      assert i in order;
      var j :| 0 <= j < |order| && order[j] == i;
      assert r[q][j] == a[q][i];
    }
  }
}
