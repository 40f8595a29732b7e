/** The submission-window check `check_forecast_data_window`, with the clock injected.

    The source reads `datetime.utcnow()`; here the current instant `now` is a
    parameter, counted in microseconds so that day `d` (an ordinal, see Calendar)
    begins at `(d - 1) * MicrosPerDay`. The check is switched off in `all_checks`, so
    the pipeline does not call it.
 */
module Window {
  import opened Errors
  import opened Calendar
  import opened Decimal

  const MicrosPerDay: int := 86_400_000_000

  /** The first instant (00:00) of the day with the given ordinal. */
  function StartOfDay(ordinal: int): int {
    (ordinal - 1) * MicrosPerDay
  }

  /** 23:59:59 and 59 microseconds: the source sets `microsecond=59`, not 999999. */
  const LastInstantOffset: int := ((23 * 60 + 59) * 60 + 59) * 1_000_000 + 59

  /** The last instant the window admits: Sunday, three days after the start date. */
  function WindowEnd(ordinal: int): int {
    StartOfDay(ordinal + 3) + LastInstantOffset
  }

  /** The day number of 31 December 9999, `date.max`: adding days past it raises
      `OverflowError`. */
  const LastOrdinal: int := 3_652_059

  lemma LastOrdinalIsLastDay()
    ensures ValidDate(Date(9999, 12, 31)) && Ordinal(Date(9999, 12, 31)) == LastOrdinal
    ensures !ValidDate(Date(9999, 12, 32)) && !ValidDate(Date(10000, 1, 1))
  {
  }

  /** Accepts a start date that is a Thursday when `now` lies between the start of
      that Thursday and the end of the following Sunday; the date is parsed first,
      then its weekday is checked, then the Sunday is computed (which overflows in
      the last days of year 9999), then the window. */
  function CheckForecastWindow(date: string, now: int): (r: Result<()>)
    ensures !IsValidDate(date) ==> r == Err(InvalidDate(date))
    ensures IsValidDate(date) ==>
      var day := Ordinal(Fields(date));
      && (Weekday(day) != Thursday ==> r == Err(NotThursday(date)))
      && (Weekday(day) == Thursday && day + 3 > LastOrdinal ==> r == Err(DateOverflow(date)))
      && (Weekday(day) == Thursday && day + 3 <= LastOrdinal ==>
            && (r.Ok? <==> StartOfDay(day) <= now <= WindowEnd(day))
            && (r.Err? ==> r.error == OutsideWindow(date, day + 3)))
  {
    if !IsValidDate(date) then Err(InvalidDate(date))
    else
      var day := Ordinal(Fields(date));
      if Weekday(day) != Thursday then Err(NotThursday(date))
      else if day + 3 > LastOrdinal then Err(DateOverflow(date))
      else if StartOfDay(day) <= now <= WindowEnd(day) then Ok(())
      else Err(OutsideWindow(date, day + 3))
  }

  /** The day (ordinal) an instant falls on. */
  function DayOf(now: int): int {
    now / MicrosPerDay + 1
  }

  /** What the window means on the calendar: an accepted instant falls on the start
      Thursday or one of the three days after it, so on a Thursday, Friday, Saturday
      or Sunday. */
  lemma {:induction false} AcceptedOnThursdayToSunday(date: string, now: int)
    requires CheckForecastWindow(date, now).Ok?
    ensures IsValidDate(date)
    ensures Ordinal(Fields(date)) <= DayOf(now) <= Ordinal(Fields(date)) + 3
    ensures Thursday <= Weekday(DayOf(now)) <= Thursday + 3
  {
    var day := Ordinal(Fields(date));
    assert StartOfDay(day) <= now < StartOfDay(day + 4);
    var k := DayOf(now) - day;
    assert 0 <= k <= 3;
    WeekdayAdvances(day, k);
  }

  /** 14 November 2024 is a Thursday. */
  lemma ThursdayExample()
    ensures IsValidDate("20241114")
    ensures Weekday(Ordinal(Fields("20241114"))) == Thursday
  {
    ThursdayFields();
  }

  lemma ThursdayFields()
    ensures IsValidDate("20241114")
    ensures Fields("20241114") == Date(2024, 11, 14)
  {
    var s := "20241114";
    assert s[..4] == "2024" && s[4..6] == "11" && s[6..] == "14";
    assert "2024"[..3] == "202" && "202"[..2] == "20" && "20"[..1] == "2";
    assert ParseNat("2") == 2 && ParseNat("20") == 20 && ParseNat("202") == 202;
    assert ParseNat("2024") == 2024;
    assert "11"[..1] == "1" && "14"[..1] == "1";
    assert ParseNat("11") == 11 && ParseNat("14") == 14;
  }

  /** 30 December 9999 is the last Thursday `datetime` knows; its Sunday does not
      exist, so the check fails with an overflow whatever the clock says. */
  lemma LastThursdayOverflows(now: int)
    ensures IsValidDate("99991230")
    ensures Weekday(Ordinal(Fields("99991230"))) == Thursday
    ensures CheckForecastWindow("99991230", now) == Err(DateOverflow("99991230"))
  {
    LastThursdayFields();
  }

  lemma LastThursdayFields()
    ensures IsValidDate("99991230")
    ensures Fields("99991230") == Date(9999, 12, 30)
  {
    var s := "99991230";
    assert s[..4] == "9999" && s[4..6] == "12" && s[6..] == "30";
    assert "9999"[..3] == "999" && "999"[..2] == "99" && "99"[..1] == "9";
    assert ParseNat("9") == 9 && ParseNat("99") == 99 && ParseNat("999") == 999;
    assert ParseNat("9999") == 9999;
    assert "12"[..1] == "1" && "30"[..1] == "3";
    assert ParseNat("12") == 12 && ParseNat("30") == 30;
  }
}
