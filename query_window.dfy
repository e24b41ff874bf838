/**
 * The filter parameters `get_schedules_routes_and_predictions` (demosite/scheduleboard/services.py)
 * sends to the `/schedules` endpoint: a six-hour window starting at the caller's local time, on
 * the caller's service day. The end of the window is written with hours 24 to 29 when it falls
 * after midnight, as the API expects, rather than wrapping to the next date.
 */
module QueryWindow {
  import opened Wrappers

  const HoursToGet := 6

  /** The fields of the reference `datetime` that the query uses. */
  datatype LocalDateTime = LocalDateTime(year: int, month: int, day: int, hour: int, minute: int)

  /** The ranges a Python `datetime` guarantees for these fields. */
  predicate ValidDateTime(t: LocalDateTime)
  {
    1 <= t.year <= 9999 && 1 <= t.month <= 12 && 1 <= t.day <= 31 && 0 <= t.hour <= 23 && 0 <= t.minute <= 59
  }

  function Digit(n: int): char
    requires 0 <= n <= 9
  {
    ('0' as int + n) as char
  }

  function DigitValue(c: char): int
  {
    c as int - '0' as int
  }

  /** Python's `str` of a non-negative integer. */
  function Str(n: nat): string
  {
    if n < 10 then [Digit(n)] else Str(n / 10) + [Digit(n % 10)]
  }

  /** Python's `str.zfill` of an unsigned numeral: left-pads with '0' up to `width` characters. */
  function ZFill(s: string, width: nat): string
    decreases width - |s|
  {
    if |s| >= width then s else ZFill("0" + s, width)
  }

  /** A zero-padded field of `strftime` (`%H`, `%M`, `%m`, `%d`, `%Y`) of the given width. */
  function ZeroPadded(n: nat, width: nat): string
  {
    ZFill(Str(n), width)
  }

  predicate AllDigits(s: string)
  {
    forall i :: 0 <= i < |s| ==> IsDigit(s[i])
  }

  /** The value of a decimal numeral, most significant digit first. */
  function NumeralValue(s: string): int
  {
    if s == [] then 0 else 10 * NumeralValue(s[..|s| - 1]) + DigitValue(s[|s| - 1])
  }

  /** `Str` writes a numeral that reads back as the number, in at most two or four digits. */
  lemma {:induction false} StrRoundTrip(n: nat)
    ensures AllDigits(Str(n)) && NumeralValue(Str(n)) == n && |Str(n)| >= 1
    ensures n < 10 ==> |Str(n)| == 1
    ensures n < 100 ==> |Str(n)| <= 2
    ensures n < 1000 ==> |Str(n)| <= 3
    ensures n < 10000 ==> |Str(n)| <= 4
  {
    if n >= 10 {
      StrRoundTrip(n / 10);
      var s := Str(n);
      assert s[..|s| - 1] == Str(n / 10);
    }
  }

  /** Leading zeros change neither the digits-only shape nor the value of a numeral. */
  lemma {:induction false} LeadingZero(s: string)
    ensures NumeralValue("0" + s) == NumeralValue(s)
    ensures AllDigits(s) ==> AllDigits("0" + s)
  {
    if s != [] {
      LeadingZero(s[..|s| - 1]);
      assert ("0" + s)[..|s|] == "0" + s[..|s| - 1];
    }
  }

  lemma {:induction false} ZFillKeepsValue(s: string, width: nat)
    ensures NumeralValue(ZFill(s, width)) == NumeralValue(s)
    ensures AllDigits(s) ==> AllDigits(ZFill(s, width))
    ensures |ZFill(s, width)| == if |s| >= width then |s| else width
    decreases width - |s|
  {
    if |s| < width {
      LeadingZero(s);
      ZFillKeepsValue("0" + s, width);
    }
  }

  /** A zero-padded field reads back as its number and has exactly the field's width. */
  lemma ZeroPaddedRoundTrip(n: nat, width: nat)
    requires (width == 2 && n < 100) || (width == 4 && n < 10000)
    ensures |ZeroPadded(n, width)| == width && AllDigits(ZeroPadded(n, width))
    ensures NumeralValue(ZeroPadded(n, width)) == n
  {
    StrRoundTrip(n);
    ZFillKeepsValue(Str(n), width);
  }

  /** Reads back an `HH:MM` string as (hours, minutes); the hours may exceed 23. */
  function ParseClock(s: string): Option<(int, int)>
  {
    if |s| == 5 && s[2] == ':' && AllDigits(s[..2]) && AllDigits(s[3..])
    then Some((NumeralValue(s[..2]), NumeralValue(s[3..])))
    else None
  }

  /** Reads back a `YYYY-MM-DD` string as (year, month, day). */
  function ParseDate(s: string): Option<(int, int, int)>
  {
    if |s| == 10 && s[4] == '-' && s[7] == '-' && AllDigits(s[..4]) && AllDigits(s[5..7]) && AllDigits(s[8..])
    then Some((NumeralValue(s[..4]), NumeralValue(s[5..7]), NumeralValue(s[8..])))
    else None
  }

  /** An `HH:MM` string built from two zero-padded fields reads back as those fields. */
  lemma ClockRoundTrip(hours: nat, minutes: nat)
    requires hours < 100 && minutes < 100
    ensures ParseClock(ZeroPadded(hours, 2) + ":" + ZeroPadded(minutes, 2)) == Some((hours, minutes))
  {
    ZeroPaddedRoundTrip(hours, 2);
    ZeroPaddedRoundTrip(minutes, 2);
    var h, m := ZeroPadded(hours, 2), ZeroPadded(minutes, 2);
    var s := h + ":" + m;
    assert s[..2] == h && s[3..] == m;
  }

  /** A `YYYY-MM-DD` string built from zero-padded fields reads back as those fields. */
  lemma DateRoundTrip(year: nat, month: nat, day: nat)
    requires year < 10000 && month < 100 && day < 100
    ensures ParseDate(ZeroPadded(year, 4) + "-" + ZeroPadded(month, 2) + "-" + ZeroPadded(day, 2)) ==
      Some((year, month, day))
  {
    ZeroPaddedRoundTrip(year, 4);
    ZeroPaddedRoundTrip(month, 2);
    ZeroPaddedRoundTrip(day, 2);
    var y, m, d := ZeroPadded(year, 4), ZeroPadded(month, 2), ZeroPadded(day, 2);
    var s := y + "-" + m + "-" + d;
    assert s[..4] == y && s[5..7] == m && s[8..] == d;
  }

  /**
   * The request parameters. `filter[min_time]` reads back as the reference hour and minute,
   * `filter[max_time]` as the hour plus six (06 to 29, never wrapped) and the same minute,
   * `filter[date]` as the reference date (never rolled over); sorting and side-loading are fixed.
   */
  function BuildQuery(minTime: LocalDateTime, stationName: string): (payload: map<string, string>)
    requires ValidDateTime(minTime)
    ensures payload.Keys ==
      {"filter[stop]", "filter[min_time]", "filter[max_time]", "filter[date]", "sort", "include"}
    ensures payload["filter[stop]"] == stationName
    ensures ParseClock(payload["filter[min_time]"]) == Some((minTime.hour, minTime.minute))
    ensures ParseClock(payload["filter[max_time]"]) == Some((minTime.hour + HoursToGet, minTime.minute))
    ensures ParseDate(payload["filter[date]"]) == Some((minTime.year, minTime.month, minTime.day))
    ensures payload["sort"] == "arrival_time" && payload["include"] == "prediction,trip,route"
  {
    var currentTime := ZeroPadded(minTime.hour, 2) + ":" + ZeroPadded(minTime.minute, 2);
    var currentDate := ZeroPadded(minTime.year, 4) + "-" + ZeroPadded(minTime.month, 2) + "-" +
                       ZeroPadded(minTime.day, 2);
    var maxTime := ZFill(Str(minTime.hour + HoursToGet), 2) + ":" + ZeroPadded(minTime.minute, 2);
    ClockRoundTrip(minTime.hour, minTime.minute);
    ClockRoundTrip(minTime.hour + HoursToGet, minTime.minute);
    DateRoundTrip(minTime.year, minTime.month, minTime.day);
    map[
      "filter[stop]" := stationName,
      "filter[min_time]" := currentTime,
      "filter[max_time]" := maxTime,
      "filter[date]" := currentDate,
      "sort" := "arrival_time",
      "include" := "prediction,trip,route"
    ]
  }

  /** The numerals WindowPastMidnight needs, unfolded digit by digit. */
  lemma SampleFields()
    ensures ZeroPadded(23, 2) == "23" && ZeroPadded(30, 2) == "30" && ZFill(Str(29), 2) == "29"
    ensures ZeroPadded(4, 2) == "04" && ZeroPadded(20, 2) == "20" && ZeroPadded(2020, 4) == "2020"
  {
    assert Str(2) == "2" && Str(3) == "3" && Str(9) == "9" && Str(0) == "0" && Str(4) == "4";
    assert Str(23) == "23" && Str(30) == "30" && Str(29) == "29" && Str(20) == "20";
    assert Str(202) == "202";
    assert Str(2020) == "2020";
    assert ZFill("4", 2) == "04";
  }

  /** Late in the evening the window runs past midnight on the same service day. */
  lemma WindowPastMidnight()
    ensures var payload := BuildQuery(LocalDateTime(2020, 4, 20, 23, 30), "place-sstat");
            payload["filter[min_time]"] == "23:30" && payload["filter[max_time]"] == "29:30" &&
            payload["filter[date]"] == "2020-04-20"
  {
    var t := LocalDateTime(2020, 4, 20, 23, 30);
    SampleFields();
    var payload := BuildQuery(t, "place-sstat");
    assert payload["filter[min_time]"] == "23" + ":" + "30";
    assert payload["filter[max_time]"] == "29" + ":" + "30";
    assert payload["filter[date]"] == "2020" + "-" + "04" + "-" + "20";
  }
}
