/**
 * The visit-date formatter of the transfer route, `format_date_br_with_time`:
 * an ISO date (optionally followed by a `T` and a time) and a period-of-day
 * token become the ERP's `DD/MM/YYYY HH:MM:SS` schedule text.
 */
module DateFormat {
  import opened Wrappers
  import opened Json

  datatype Date = Date(year: int, month: int, day: int)

  predicate IsLeapYear(y: int)
  {
    y % 4 == 0 && (y % 100 != 0 || y % 400 == 0)
  }

  function DaysInMonth(y: int, m: int): int
  {
    if m == 2 then (if IsLeapYear(y) then 29 else 28)
    else if m == 4 || m == 6 || m == 9 || m == 11 then 30
    else 31
  }

  /** A date that Python's `datetime.date` constructor accepts. */
  predicate ValidDate(d: Date)
  {
    1 <= d.year <= 9999 && 1 <= d.month <= 12 && 1 <= d.day <= DaysInMonth(d.year, d.month)
  }

  /** `s.split("T")[0]`: the text before the first `T`. */
  function BeforeT(s: string): (r: string)
    ensures r <= s && 'T' !in r
    ensures |r| < |s| ==> s[|r|] == 'T'
  {
    if s == [] || s[0] == 'T' then [] else [s[0]] + BeforeT(s[1..])
  }

  /** The index of the first `-` in `s`, or `|s|` when there is none. */
  function DashIndex(s: string): (i: nat)
    ensures i <= |s| && '-' !in s[..i]
    ensures i < |s| ==> s[i] == '-'
  {
    if s == [] || s[0] == '-' then 0 else 1 + DashIndex(s[1..])
  }

  function TwoDigits(t: string): nat
    requires |t| == 2 && AllDigits(t)
  {
    10 * DigitOf(t[0]) + DigitOf(t[1])
  }

  function YearValue(t: string): nat
    requires |t| == 4 && AllDigits(t)
  {
    100 * TwoDigits(t[..2]) + TwoDigits(t[2..])
  }

  /** The texts `%m` reads as month `m`: two digits, or one digit below ten. */
  function MonthTexts(m: nat): set<string>
    requires 1 <= m <= 12
  {
    {Pad2(m)} + (if m < 10 then {[DigitChar(m)]} else {})
  }

  /**
   * The texts `%d` reads as day `d`: two digits, or below ten one digit
   * alone or after a space.
   */
  function DayTexts(d: nat): set<string>
    requires 1 <= d <= 31
  {
    {Pad2(d)} + (if d < 10 then {[DigitChar(d)], [' ', DigitChar(d)]} else {})
  }

  /**
   * The `%m` directive of `strptime`: one of `10`-`12`, `01`-`09` or a single
   * digit `1`-`9`, and nothing else.
   */
  function MonthField(t: string): (r: Option<int>)
    ensures r.Some? ==> 1 <= r.value <= 12
  {
    if |t| == 1 then (if '1' <= t[0] <= '9' then Some(DigitOf(t[0])) else None)
    else if |t| != 2 then None
    else if t[0] == '1' && '0' <= t[1] <= '2' then Some(10 + DigitOf(t[1]))
    else if t[0] == '0' && '1' <= t[1] <= '9' then Some(DigitOf(t[1]))
    else None
  }

  /**
   * The `%d` directive of `strptime` when it must reach the end of the text:
   * `30`, `31`, `10`-`29`, `01`-`09`, a single digit `1`-`9`, or a space
   * followed by a digit `1`-`9`.
   */
  function DayField(t: string): (r: Option<int>)
    ensures r.Some? ==> 1 <= r.value <= 31
  {
    if |t| == 1 then (if '1' <= t[0] <= '9' then Some(DigitOf(t[0])) else None)
    else if |t| != 2 then None
    else if t[0] == '3' && (t[1] == '0' || t[1] == '1') then Some(30 + DigitOf(t[1]))
    else if (t[0] == '1' || t[0] == '2') && IsDigit(t[1]) then Some(10 * DigitOf(t[0]) + DigitOf(t[1]))
    else if (t[0] == '0' || t[0] == ' ') && '1' <= t[1] <= '9' then Some(DigitOf(t[1]))
    else None
  }

  /**
   * `datetime.strptime(t, "%Y-%m-%d")`: four digits, a dash, the month, a dash
   * and the day, with no text left over, naming a day of the calendar.
   * `None` where `strptime` raises `ValueError`.
   */
  function ParseIsoDate(t: string): (r: Option<Date>)
    ensures r.Some? ==> ValidDate(r.value)
  {
    if |t| < 5 || !AllDigits(t[..4]) || t[4] != '-' then None
    else
      var rest := t[5..];
      var i := DashIndex(rest);
      if i == |rest| then None
      else
        var m := MonthField(rest[..i]);
        var d := DayField(rest[i + 1..]);
        var y := YearValue(t[..4]);
        if m.Some? && d.Some? && 1 <= y && d.value <= DaysInMonth(y, m.value)
        then Some(Date(y, m.value, d.value))
        else None
  }

  function Pad2(n: nat): (r: string)
    requires n < 100
    ensures |r| == 2 && AllDigits(r) && TwoDigits(r) == n
  {
    [DigitChar(n / 10), DigitChar(n % 10)]
  }

  function Pad4(n: nat): (r: string)
    requires n < 10000
    ensures |r| == 4 && AllDigits(r) && YearValue(r) == n
  {
    var r := Pad2(n / 100) + Pad2(n % 100);
    assert r[..2] == Pad2(n / 100) && r[2..] == Pad2(n % 100);
    r
  }

  /**
   * `dt.strftime("%d/%m/%Y")`: reading the day, month and year digits back
   * out of the text gives the date again. The year is written with four
   * digits.
   */
  function FormatBr(d: Date): (r: string)
    requires ValidDate(d)
    ensures |r| == 10 && r[2] == '/' && r[5] == '/'
    ensures AllDigits(r[..2]) && AllDigits(r[3..5]) && AllDigits(r[6..])
    ensures TwoDigits(r[..2]) == d.day && TwoDigits(r[3..5]) == d.month && YearValue(r[6..]) == d.year
  {
    var r := Pad2(d.day) + "/" + Pad2(d.month) + "/" + Pad4(d.year);
    assert r[..2] == Pad2(d.day) && r[3..5] == Pad2(d.month) && r[6..] == Pad4(d.year);
    r
  }

  /** The hour of each known period-of-day token. */
  const PeriodHours: map<string, string> :=
    map["comercial" := "10:00:00", "manha" := "09:00:00", "tarde" := "14:00:00"]

  /** `{...}.get(period, "10:00:00")`. */
  function Hour(period: Value): string
  {
    if period.Str? && period.s in PeriodHours then PeriodHours[period.s] else "10:00:00"
  }

  /** `format_date_br_with_time(date_iso, period)`. */
  function FormatDateBrWithTime(dateIso: Value, period: Value): (r: Value)
    ensures r == Str("") <==> !Truthy(dateIso)
    ensures r == dateIso || r == Str("") || (dateIso.Str? && r.Str? && |r.s| == 19)
  {
    if !Truthy(dateIso) then Str("")
    else match dateIso
      case Str(s) =>
        (match ParseIsoDate(BeforeT(s))
         case None => dateIso
         case Some(d) => Str(FormatBr(d) + " " + Hour(period)))
      case _ => dateIso
  }

  /** The canonical `YYYY-MM-DD` text of a date. */
  function IsoText(d: Date): string
    requires ValidDate(d)
  {
    Pad4(d.year) + "-" + Pad2(d.month) + "-" + Pad2(d.day)
  }

  /** The texts `strptime(t, "%Y-%m-%d")` reads as date `d`. */
  function IsoTexts(d: Date): set<string>
    requires ValidDate(d)
  {
    set mt, dt | mt in MonthTexts(d.month) && dt in DayTexts(d.day) :: Pad4(d.year) + "-" + mt + "-" + dt
  }

  // ---------------------------------------------------------------------------
  // Properties

  /** Only three period tokens choose an hour; anything else means 10:00. */
  lemma HourOfPeriod(period: Value)
    ensures Hour(period) == "09:00:00" <==> period == Str("manha")
    ensures Hour(period) == "14:00:00" <==> period == Str("tarde")
    ensures Hour(period) == "10:00:00" <==> period != Str("manha") && period != Str("tarde")
  {
  }

  /** `%m` reads exactly the renderings of a month. */
  lemma MonthFieldReads(t: string, m: int)
    ensures MonthField(t) == Some(m) <==> 1 <= m <= 12 && t in MonthTexts(m)
  {
    if MonthField(t) == Some(m) {
      if |t| == 1 {
        assert t == [DigitChar(m)];
      } else {
        assert t == Pad2(m);
      }
    }
  }

  /** `%d` reads exactly the renderings of a day. */
  lemma DayFieldReads(t: string, d: int)
    ensures DayField(t) == Some(d) <==> 1 <= d <= 31 && t in DayTexts(d)
  {
    if DayField(t) == Some(d) {
      if |t| == 1 {
        assert t == [DigitChar(d)];
      } else if t[0] == ' ' {
        assert t == [' ', DigitChar(d)];
      } else {
        assert t == Pad2(d);
      }
    }
  }

  lemma {:induction false} Pad4OfYearValue(t: string)
    requires |t| == 4 && AllDigits(t)
    ensures Pad4(YearValue(t)) == t
  {
    var y := YearValue(t);
    assert Pad4(y) == Pad2(y / 100) + Pad2(y % 100);
    assert y / 100 == TwoDigits(t[..2]) && y % 100 == TwoDigits(t[2..]);
  }

  lemma {:induction false} DashIndexOfJoin(a: string, b: string)
    requires '-' !in a
    ensures DashIndex(a + "-" + b) == |a|
  {
    if a != [] {
      assert (a + "-" + b)[1..] == a[1..] + "-" + b;
      DashIndexOfJoin(a[1..], b);
    }
  }

  /** What `strptime(t, "%Y-%m-%d")` accepts is a rendering of the date it reads. */
  lemma ParseIsoDateRendering(t: string)
    requires ParseIsoDate(t).Some?
    ensures t in IsoTexts(ParseIsoDate(t).value)
  {
    var d := ParseIsoDate(t).value;
    var rest := t[5..];
    var i := DashIndex(rest);
    var mt, dt := rest[..i], rest[i + 1..];
    Pad4OfYearValue(t[..4]);
    assert t == t[..4] + "-" + mt + "-" + dt;
    MonthFieldReads(mt, d.month);
    DayFieldReads(dt, d.day);
  }

  /** The reading of four year digits, a dash and a `month-day` remainder. */
  lemma {:induction false} ParseIsoDateOfParts(yt: string, mt: string, dt: string)
    requires |yt| == 4 && AllDigits(yt) && '-' !in mt
    ensures var m, d, y := MonthField(mt), DayField(dt), YearValue(yt);
      ParseIsoDate(yt + "-" + mt + "-" + dt)
      == if m.Some? && d.Some? && 1 <= y && d.value <= DaysInMonth(y, m.value) then Some(Date(y, m.value, d.value)) else None
  {
    var t := yt + "-" + mt + "-" + dt;
    var rest := t[5..];
    assert t[..4] == yt && t[4] == '-';
    assert rest == mt + "-" + dt;
    DashIndexOfJoin(mt, dt);
    assert rest[..|mt|] == mt && rest[|mt| + 1..] == dt;
  }

  /** Every rendering of a calendar date is read back as that date. */
  lemma ParseIsoDateOfRendering(t: string, d: Date)
    requires ValidDate(d) && t in IsoTexts(d)
    ensures ParseIsoDate(t) == Some(d)
  {
    var mt, dt :| mt in MonthTexts(d.month) && dt in DayTexts(d.day) && t == Pad4(d.year) + "-" + mt + "-" + dt;
    assert '-' !in mt;
    ParseIsoDateOfParts(Pad4(d.year), mt, dt);
    MonthFieldReads(mt, d.month);
    DayFieldReads(dt, d.day);
  }

  /**
   * `strptime(t, "%Y-%m-%d")` gives `d` exactly when `d` is a calendar date
   * and `t` is one of its renderings: everything else, such as a thirteenth
   * month, a thirty-first of April or text left over, is rejected.
   */
  lemma ParseIsoDateReads(t: string, d: Date)
    ensures ParseIsoDate(t) == Some(d) <==> ValidDate(d) && t in IsoTexts(d)
  {
    if ParseIsoDate(t) == Some(d) {
      ParseIsoDateRendering(t);
    }
    if ValidDate(d) && t in IsoTexts(d) {
      ParseIsoDateOfRendering(t, d);
    }
  }

  /** Every valid calendar date, written as `YYYY-MM-DD`, is accepted and read back. */
  lemma {:induction false} ParseIsoDateOfIsoText(d: Date)
    requires ValidDate(d)
    ensures ParseIsoDate(IsoText(d)) == Some(d)
  {
    var t := IsoText(d);
    var rest := t[5..];
    assert t[..4] == Pad4(d.year);
    assert rest == Pad2(d.month) + "-" + Pad2(d.day);
    assert rest[..2] == Pad2(d.month) && rest[3..] == Pad2(d.day);
    assert rest[2] == '-' && '-' !in rest[..2];
    assert DashIndex(rest) == 2 by {
      assert rest[0] != '-' && rest[1] != '-';
      assert rest[1..][1..] == rest[2..];
    }
    assert MonthField(rest[..2]) == Some(d.month);
    assert DayField(rest[3..]) == Some(d.day);
  }

  /** A one-digit month and day are read. */
  lemma ParseIsoDateOfShortFields()
    ensures ParseIsoDate("2024-1-5") == Some(Date(2024, 1, 5))
  {
    assert "2024-1-5" == "2024" + "-" + "1" + "-" + "5";
    assert YearValue("2024") == 2024 && MonthField("1") == Some(1) && DayField("5") == Some(5);
    ParseIsoDateOfParts("2024", "1", "5");
  }

  /** A thirteenth month is rejected. */
  lemma ParseIsoDateRejectsMonth13()
    ensures ParseIsoDate("2024-13-01").None?
  {
    assert "2024-13-01" == "2024" + "-" + "13" + "-" + "01";
    assert MonthField("13").None?;
    ParseIsoDateOfParts("2024", "13", "01");
  }

  /** 5 January 2024 is written `05/01/2024`. */
  lemma FormatBrExample()
    ensures FormatBr(Date(2024, 1, 5)) == "05/01/2024"
  {
    assert Pad2(5) == "05" && Pad2(1) == "01" && Pad4(2024) == Pad2(20) + Pad2(24) == "2024";
  }

  /** The date part of `2024-1-5T10:00`. */
  lemma BeforeTOfExample()
    ensures BeforeT("2024-1-5T10:00") == "2024-1-5"
  {
    BeforeTOfPrefix("2024-1-5", "T10:00");
    assert "2024-1-5" + "T10:00" == "2024-1-5T10:00";
  }

  /** A morning visit on a text whose date part is `2024-1-5` is booked for that day at nine. */
  lemma FormatDateOfShortFields(s: string)
    requires BeforeT(s) == "2024-1-5"
    ensures FormatDateBrWithTime(Str(s), Str("manha")) == Str(FormatBr(Date(2024, 1, 5)) + " " + "09:00:00")
  {
    assert Hour(Str("manha")) == "09:00:00";
    assert s != [];
    ParseIsoDateOfShortFields();
    FormatDateOfParsed(s, Str("manha"), Date(2024, 1, 5));
  }

  /**
   * A morning visit on `2024-1-5T10:00` is booked for that day at nine:
   * with `FormatBrExample`, the text `05/01/2024 09:00:00`.
   */
  lemma FormatDateExample(dateIso: Value)
    requires dateIso == Str("2024-1-5T10:00")
    ensures FormatDateBrWithTime(dateIso, Str("manha")) == Str(FormatBr(Date(2024, 1, 5)) + " " + "09:00:00")
  {
    BeforeTOfExample();
    FormatDateOfShortFields(dateIso.s);
  }

  /** A text whose part before `T` is a calendar date becomes that date's schedule text. */
  lemma FormatDateOfParsed(s: string, period: Value, d: Date)
    requires s != [] && ParseIsoDate(BeforeT(s)) == Some(d)
    ensures FormatDateBrWithTime(Str(s), period) == Str(FormatBr(d) + " " + Hour(period))
  {
  }

  lemma {:induction false} BeforeTOfPrefix(a: string, b: string)
    requires 'T' !in a
    requires b == [] || b[0] == 'T'
    ensures BeforeT(a + b) == a
  {
    if a != [] {
      assert (a + b)[1..] == a[1..] + b;
      BeforeTOfPrefix(a[1..], b);
    }
  }

  /**
   * A request date `YYYY-MM-DD`, with or without a `T...` time part, becomes
   * `DD/MM/YYYY` followed by the period's hour.
   */
  lemma FormatDateOfIsoDate(d: Date, suffix: string, period: Value)
    requires ValidDate(d)
    requires suffix == [] || suffix[0] == 'T'
    ensures FormatDateBrWithTime(Str(IsoText(d) + suffix), period) == Str(FormatBr(d) + " " + Hour(period))
  {
    var t := IsoText(d);
    assert 'T' !in t by {
      assert forall i | 0 <= i < |t| :: t[i] == '-' || IsDigit(t[i]);
    }
    BeforeTOfPrefix(t, suffix);
    ParseIsoDateOfIsoText(d);
  }

  /** Text whose date part is not a calendar date comes back unchanged. */
  lemma FormatDateKeepsUnparsed(s: string, period: Value)
    requires s != [] && ParseIsoDate(BeforeT(s)).None?
    ensures FormatDateBrWithTime(Str(s), period) == Str(s)
  {
  }

  lemma ScheduleTextIsNotIso(d: Date, period: Value)
    requires ValidDate(d)
    ensures ParseIsoDate(BeforeT(FormatBr(d) + " " + Hour(period))).None?
  {
    var u := FormatBr(d) + " " + Hour(period);
    var b := BeforeT(u);
    assert b == u[..|b|];
    if |b| >= 5 {
      assert b[2] == u[2] == '/';
      assert !IsDigit(b[..4][2]);
    }
  }

  /** A formatted schedule is not an ISO date, so formatting it again changes nothing. */
  lemma FormatDateIdempotent(dateIso: Value, period: Value, period': Value)
    ensures FormatDateBrWithTime(FormatDateBrWithTime(dateIso, period), period') == FormatDateBrWithTime(dateIso, period)
  {
    if Truthy(dateIso) && dateIso.Str? {
      match ParseIsoDate(BeforeT(dateIso.s))
      case None =>
      case Some(d) =>
        ScheduleTextIsNotIso(d, period);
        FormatDateKeepsUnparsed(FormatBr(d) + " " + Hour(period), period');
    }
  }
}
