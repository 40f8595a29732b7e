/** The submission's scalar fields: membership tests, the number-or-string coercion
    of the period (or lead time), the date check, the allow-list search, and the
    canonical file name, for both the `all_checks` rules and the submission-path
    rules.
 */
module Metadata {
  import opened Errors
  import opened Decimal
  import opened Numeric
  import opened Calendar

  /** A Python value passed as the period or lead time: an int, a float, a str, or
      anything else. */
  datatype Scalar = Int(i: int) | Float(f: real) | Str(s: string) | Other

  const Variables: seq<string> := ["tas", "mslp", "pr"]
  /** The two periods of `all_checks` (days 18-24 and days 25-31). */
  const Periods: seq<string> := ["1", "2"]
  /** The two week lead times of the submission path. */
  const LeadTimes: seq<string> := ["3", "4"]

  /** `check_variable_in_list`: accepts exactly the listed values; the error names
      the offending value and the list. */
  function CheckVariableInList(x: string, allowed: seq<string>): (r: Result<()>)
    ensures r.Ok? <==> x in allowed
    ensures r.Err? ==> r.error == NotInList(x, allowed)
  {
    Need(x in allowed, NotInList(x, allowed))
  }

  /** `convert_fc_period_to_string` and `convert_wk_lead_time_to_string` (the two are
      the same code): a number becomes the decimal text of its integer part, `int`
      truncating toward zero, so 1, 1.0 and 1.9 all give "1"; a string is returned
      unchanged; anything else is rejected. */
  function CoerceToString(v: Scalar): (r: Result<string>)
    ensures r.Err? <==> v.Other?
    ensures r.Err? ==> r.error == NotNumberNorString
    ensures v.Str? ==> r == Ok(v.s)
    ensures v.Int? ==> CanonicalIntText(r.value) && IsIntText(r.value) && ParseInt(r.value) == v.i
    ensures v.Float? ==> CanonicalIntText(r.value) && IsIntText(r.value) && ParseInt(r.value) == Trunc(v.f)
  {
    match v
    case Int(i) => IntRoundTrip(i); Ok(IntToString(i))
    case Float(f) => IntRoundTrip(Trunc(f)); Ok(IntToString(Trunc(f)))
    case Str(s) => Ok(s)
    case Other => Err(NotNumberNorString)
  }

  /** The integer `n` coerces into `allowed` (a list of one-digit codes) exactly when
      it is one of the listed numbers. */
  lemma IntCoercedInList(n: int, allowed: seq<string>)
    requires forall k :: 0 <= k < |allowed| ==> |allowed[k]| == 1 && IsDigit(allowed[k][0])
    ensures IntToString(n) in allowed <==>
      exists k :: 0 <= k < |allowed| && n == DigitValue(allowed[k][0])
  {
    if IntToString(n) in allowed {
      var k :| 0 <= k < |allowed| && allowed[k] == IntToString(n);
      IntRoundTrip(n);
      assert allowed[k][..0] == [];
      assert ParseInt(allowed[k]) == DigitValue(allowed[k][0]);
    }
    if exists k :: 0 <= k < |allowed| && n == DigitValue(allowed[k][0]) {
      var k :| 0 <= k < |allowed| && n == DigitValue(allowed[k][0]);
      CharRoundTrip(allowed[k][0]);
      assert IntToString(n) == [allowed[k][0]] == allowed[k];
    }
  }

  /** `is_valid_date`: accepts exactly the eight-digit `YYYYMMDD` strings naming a
      real calendar day. */
  function CheckDate(date: string): (r: Result<()>)
    ensures r.Ok? <==> IsValidDate(date)
    ensures r.Err? ==> r.error == InvalidDate(date)
  {
    Need(IsValidDate(date), InvalidDate(date))
  }

  /** The canonical file name: variable, date, the tagged period or lead code, team
      and model joined by underscores, with the `.nc` extension. */
  function BuildFilename(variable: string, date: string, tag: string, code: string,
                         team: string, model: string): (r: string)
    ensures |r| == |variable| + 1 + |date| + |tag| + |code| + 1 + |team| + 1 + |model| + 3
    ensures r[..|variable|] == variable && r[|variable|] == '_'
    ensures var d := |variable| + 1;
      r[d..d + |date|] == date && r[d + |date|..d + |date| + |tag|] == tag
    ensures var c := |variable| + 1 + |date| + |tag|;
      r[c..c + |code|] == code && r[c + |code|] == '_'
    ensures var t := |variable| + 1 + |date| + |tag| + |code| + 1;
      r[t..t + |team|] == team && r[t + |team|] == '_' && r[t + |team| + 1..|r| - 3] == model
    ensures r[|r| - 3..] == ".nc"
  {
    variable + "_" + date + tag + code + "_" + team + "_" + model + ".nc"
  }

  const PeriodTag: string := "_p"
  const LeadTag: string := "_wk"

  /** `check_filename_characteristics`: the variable is checked first, then the date,
      then the period is coerced and must be "1" or "2"; the first failure is the
      result, and on success the canonical period text is returned. Team and model
      are not checked. */
  function CheckFilenameCharacteristics(variable: string, date: string, period: Scalar): (r: Result<string>)
    ensures variable !in Variables ==> r == Err(NotInList(variable, Variables))
    ensures variable in Variables && !IsValidDate(date) ==> r == Err(InvalidDate(date))
    ensures variable in Variables && IsValidDate(date) ==>
      && (period.Other? ==> r == Err(NotNumberNorString))
      && (!period.Other? ==>
            var p := CoerceToString(period).value;
            r == (if p in Periods then Ok(p) else Err(NotInList(p, Periods))))
    ensures r.Ok? ==> r.value in Periods
  {
    var _ :- CheckVariableInList(variable, Variables);
    var _ :- CheckDate(date);
    var p :- CoerceToString(period);
    var _ :- CheckVariableInList(p, Periods);
    Ok(p)
  }

  /** Which periods pass, by type: an int passes when it is 1 or 2, a float when its
      integer part is 1 or 2 (so 1.9 passes and gives "1"), a string when it is "1"
      or "2". In particular 1 and "1" are both accepted as "1". */
  lemma PeriodAcceptance(variable: string, date: string, period: Scalar)
    requires variable in Variables && IsValidDate(date)
    ensures period.Int? ==>
      (CheckFilenameCharacteristics(variable, date, period).Ok? <==> period.i == 1 || period.i == 2)
    ensures period.Float? ==>
      (CheckFilenameCharacteristics(variable, date, period).Ok? <==> Trunc(period.f) == 1 || Trunc(period.f) == 2)
    ensures period.Str? ==>
      (CheckFilenameCharacteristics(variable, date, period).Ok? <==> period.s == "1" || period.s == "2")
    ensures period == Int(1) || period == Float(1.9) || period == Str("1") ==>
      CheckFilenameCharacteristics(variable, date, period) == Ok("1")
  {
    assert DigitValue(Periods[0][0]) == 1 && DigitValue(Periods[1][0]) == 2;
    if period.Int? {
      IntCoercedInList(period.i, Periods);
    } else if period.Float? {
      IntCoercedInList(Trunc(period.f), Periods);
    }
    assert IntToString(1) == "1";
  }

  /** `text[i..]` starts with `pat`. */
  predicate OccursAt(pat: string, text: string, i: int) {
    0 <= i && i + |pat| <= |text| && text[i..i + |pat|] == pat
  }

  lemma OccursShift(pat: string, text: string, i: int)
    requires |text| > 0 && i >= 0
    ensures OccursAt(pat, text[1..], i) <==> OccursAt(pat, text, i + 1)
  {
    if 0 <= i && i + |pat| <= |text| - 1 {
      assert text[1..][i..i + |pat|] == text[i + 1..i + 1 + |pat|];
    }
  }

  /** Python's `pat in text` on strings: a substring test. */
  function IsSubstring(pat: string, text: string): (r: bool)
    ensures r <==> exists i :: OccursAt(pat, text, i)
    decreases |text|
  {
    if |text| < |pat| then false
    else if text[..|pat|] == pat then
      assert OccursAt(pat, text, 0);
      true
    else
      var r := IsSubstring(pat, text[1..]);
      assert r ==> exists i :: OccursAt(pat, text, i) by {
        if r {
          var i :| OccursAt(pat, text[1..], i);
          OccursShift(pat, text, i);
        }
      }
      assert (exists i :: OccursAt(pat, text, i)) ==> r by {
        if exists i :: OccursAt(pat, text, i) {
          var i :| OccursAt(pat, text, i);
          assert i != 0;
          OccursShift(pat, text, i - 1);
        }
      }
      r
  }

  /** `check_string_is_in_file`, with the file's contents passed in: the string must
      occur somewhere in the text. */
  function CheckStringInFile(contents: string, s: string): (r: Result<()>)
    ensures r.Ok? <==> exists i :: OccursAt(s, contents, i)
    ensures r.Err? ==> r.error == NotInAllowList(s)
  {
    Need(IsSubstring(s, contents), NotInAllowList(s))
  }

  /** The allow-list test is a substring test, not a whole-line match: any piece of a
      listed date passes, down to the empty string. */
  lemma PartialDatesPass(contents: string, listed: string, i: int, a: nat, b: nat)
    requires OccursAt(listed, contents, i)
    requires a <= b <= |listed|
    ensures CheckStringInFile(contents, listed[a..b]).Ok?
    ensures CheckStringInFile(contents, "").Ok?
  {
    var piece := contents[i + a..i + b];
    forall k | 0 <= k < |piece| ensures piece[k] == listed[a..b][k] {
      assert piece[k] == contents[i + a + k] == contents[i..i + |listed|][a + k];
    }
    assert piece == listed[a..b];
    assert OccursAt(listed[a..b], contents, i + a);
    assert OccursAt("", contents, 0);
  }

  /** The metadata rules of the submission path: the variable is checked first, then
      the date must occur in the allow-list text, then the lead time is coerced and
      must be "3" or "4". On success the canonical lead text is returned. */
  function CheckSubmissionMetadata(variable: string, date: string, lead: Scalar, allowList: string): (r: Result<string>)
    ensures variable !in Variables ==> r == Err(NotInList(variable, Variables))
    ensures variable in Variables && !IsSubstring(date, allowList) ==> r == Err(NotInAllowList(date))
    ensures variable in Variables && IsSubstring(date, allowList) ==>
      && (lead.Other? ==> r == Err(NotNumberNorString))
      && (!lead.Other? ==>
            var w := CoerceToString(lead).value;
            r == (if w in LeadTimes then Ok(w) else Err(NotInList(w, LeadTimes))))
    ensures r.Ok? ==> r.value in LeadTimes
  {
    var _ :- CheckVariableInList(variable, Variables);
    var _ :- CheckStringInFile(allowList, date);
    var w :- CoerceToString(lead);
    var _ :- CheckVariableInList(w, LeadTimes);
    Ok(w)
  }

  /** Which lead times pass, by type: an int when it is 3 or 4, a float when its
      integer part is 3 or 4, a string when it is "3" or "4". */
  lemma LeadTimeAcceptance(variable: string, date: string, lead: Scalar, allowList: string)
    requires variable in Variables && IsSubstring(date, allowList)
    ensures lead.Int? ==>
      (CheckSubmissionMetadata(variable, date, lead, allowList).Ok? <==> lead.i == 3 || lead.i == 4)
    ensures lead.Float? ==>
      (CheckSubmissionMetadata(variable, date, lead, allowList).Ok? <==> Trunc(lead.f) == 3 || Trunc(lead.f) == 4)
    ensures lead.Str? ==>
      (CheckSubmissionMetadata(variable, date, lead, allowList).Ok? <==> lead.s == "3" || lead.s == "4")
  {
    assert DigitValue(LeadTimes[0][0]) == 3 && DigitValue(LeadTimes[1][0]) == 4;
    if lead.Int? {
      IntCoercedInList(lead.i, LeadTimes);
    } else if lead.Float? {
      IntCoercedInList(Trunc(lead.f), LeadTimes);
    }
  }

  /** The validated fields can be read back from the file name: two names built with
      the same tag from accepted variables, eight-character dates and one-character
      codes are equal only if variable, date and code agree and the team-and-model
      tails agree. So changing any of the first three fields changes the name. */
  lemma FilenameDeterminesFields(v1: string, d1: string, c1: string, t1: string, m1: string,
                                 v2: string, d2: string, c2: string, t2: string, m2: string,
                                 tag: string)
    requires v1 in Variables && v2 in Variables
    requires |d1| == 8 && |d2| == 8 && |c1| == 1 && |c2| == 1
    requires BuildFilename(v1, d1, tag, c1, t1, m1) == BuildFilename(v2, d2, tag, c2, t2, m2)
    ensures v1 == v2 && d1 == d2 && c1 == c2
    ensures t1 + "_" + m1 == t2 + "_" + m2
  {
    FilenameParts(v1, d1, tag, c1, t1, m1);
    FilenameParts(v2, d2, tag, c2, t2, m2);
    assert v1 == v2;
    var f := BuildFilename(v1, d1, tag, c1, t1, m1);
    var n := |v1| + 1;
    assert d1 == f[n..n + 8] == d2;
    assert c1 == [f[n + 8 + |tag|]] == c2;
  }

  /** Where each field sits in a file name. */
  lemma FilenameParts(v: string, d: string, tag: string, c: string, t: string, m: string)
    requires v in Variables && |d| == 8 && |c| == 1
    ensures var f := BuildFilename(v, d, tag, c, t, m);
      var n := |v| + 1;
      && |f| == n + 8 + |tag| + 2 + |t + "_" + m| + 3
      && f[0] == v[0]
      && f[n..n + 8] == d
      && f[n + 8 + |tag|] == c[0]
      && f[n + 8 + |tag| + 2..|f| - 3] == t + "_" + m
  {
    var f := BuildFilename(v, d, tag, c, t, m);
    var n := |v| + 1;
    var tail := t + "_" + m;
    assert f == (v + "_") + d + tag + c + "_" + tail + ".nc";
  }
}
