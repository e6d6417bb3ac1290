/** The weather tool of first_tests/meteo_tool.py: the readable date of a forecast day, the
    chain of early answers of `_run`, and the assembly of one line per forecast day. The two
    HTTP lookups (the city's coordinates and the daily forecast) are foreign: `_run` takes
    their results as functions. */
module Meteo {
  import opened Wrappers

  // ---------------------------------------------------------------------------
  // The proleptic Gregorian calendar, as Python's `datetime` counts it
  // ---------------------------------------------------------------------------

  datatype Date = Date(year: int, month: int, day: int)

  predicate IsLeap(y: int)
  {
    y % 4 == 0 && (y % 100 != 0 || y % 400 == 0)
  }

  function YearLength(y: int): int
  {
    if IsLeap(y) then 366 else 365
  }

  function DaysInMonth(y: int, m: int): int
    requires 1 <= m <= 12
  {
    if m == 2 then (if IsLeap(y) then 29 else 28)
    else if m == 4 || m == 6 || m == 9 || m == 11 then 30
    else 31
  }

  predicate Valid(d: Date)
  {
    1 <= d.year && 1 <= d.month <= 12 && 1 <= d.day <= DaysInMonth(d.year, d.month)
  }

  /** The days from 1 January of year 1 to 1 January of year `y`, by the closed formula of
      Python's `datetime` module. */
  function DaysBeforeYear(y: int): int
    requires y >= 1
  {
    var p := y - 1;
    p * 365 + p / 4 - p / 100 + p / 400
  }

  /** The days from 1 January to the first day of month `m` (13 for the end of the year). */
  function DaysBeforeMonth(y: int, m: int): int
    requires 1 <= m <= 13
  {
    if m == 1 then 0 else DaysBeforeMonth(y, m - 1) + DaysInMonth(y, m - 1)
  }

  /** The number of days from 1 January of year 1 to a date: `toordinal() - 1`. */
  function Ordinal(d: Date): int
    requires Valid(d)
  {
    DaysBeforeYear(d.year) + DaysBeforeMonth(d.year, d.month) + d.day - 1
  }

  /** The last day of year 9999 is the largest date; `MaxOrdinal` counts the days before
      year 10000. */
  const MaxYear: int := 9999
  const MaxOrdinal: int := 3652059

  lemma MaxOrdinalIsEndOfMaxYear()
    ensures MaxOrdinal == DaysBeforeYear(MaxYear + 1)
  {
  }

  /** A year holds as many days as its months. */
  lemma MonthsFillYear(y: int)
    ensures DaysBeforeMonth(y, 13) == YearLength(y)
  {
    var feb := DaysInMonth(y, 2);
    assert DaysBeforeMonth(y, 2) == 31;
    assert DaysBeforeMonth(y, 3) == 31 + feb;
    assert DaysBeforeMonth(y, 4) == 62 + feb;
    assert DaysBeforeMonth(y, 5) == 92 + feb;
    assert DaysBeforeMonth(y, 6) == 123 + feb;
    assert DaysBeforeMonth(y, 7) == 153 + feb;
    assert DaysBeforeMonth(y, 8) == 184 + feb;
    assert DaysBeforeMonth(y, 9) == 215 + feb;
    assert DaysBeforeMonth(y, 10) == 245 + feb;
    assert DaysBeforeMonth(y, 11) == 276 + feb;
    assert DaysBeforeMonth(y, 12) == 306 + feb;
    assert DaysBeforeMonth(y, 13) == 337 + feb;
  }

  /** Consecutive values of the closed formula differ by the length of the year. */
  lemma DaysBeforeYearStep(y: int)
    requires y >= 1
    ensures DaysBeforeYear(y + 1) == DaysBeforeYear(y) + YearLength(y)
  {
    var p := y - 1;
    assert y / 4 - p / 4 == (if y % 4 == 0 then 1 else 0);
    assert y / 100 - p / 100 == (if y % 100 == 0 then 1 else 0);
    assert y / 400 - p / 400 == (if y % 400 == 0 then 1 else 0);
  }

  /** The closed formula grows with the year. */
  lemma {:induction false} DaysBeforeYearGrows(y: int, z: int)
    requires 1 <= y <= z
    ensures DaysBeforeYear(y) <= DaysBeforeYear(z)
    decreases z - y
  {
    if y < z {
      DaysBeforeYearStep(y);
      DaysBeforeYearGrows(y + 1, z);
    }
  }

  /** The month and day of the `n`-th day (from 0) of year `y`, counting from month `m`. */
  function MonthAndDay(y: int, m: int, n: int): (r: (int, int))
    requires 1 <= m <= 12 && 0 <= n
    decreases 12 - m
  {
    if n < DaysInMonth(y, m) || m == 12 then (m, n + 1)
    else MonthAndDay(y, m + 1, n - DaysInMonth(y, m))
  }

  /** The date `n` days (from 0) after 1 January of year `y`. */
  function DateFrom(y: int, n: int): Date
    requires y >= 1 && n >= 0
    decreases n
  {
    if n < YearLength(y) then
      var (m, d) := MonthAndDay(y, 1, n);
      Date(y, m, d)
    else DateFrom(y + 1, n - YearLength(y))
  }

  /** The date with a given ordinal: `date.fromordinal(n + 1)`. */
  function CivilDate(n: int): Date
    requires 0 <= n
  {
    DateFrom(1, n)
  }

  lemma {:induction false} MonthAndDayIsValid(y: int, m: int, n: int)
    requires 1 <= m <= 12 && 0 <= n < DaysBeforeMonth(y, 13) - DaysBeforeMonth(y, m)
    ensures var (m', d) := MonthAndDay(y, m, n);
            && m <= m' <= 12 && 1 <= d <= DaysInMonth(y, m')
            && DaysBeforeMonth(y, m') + d - 1 == DaysBeforeMonth(y, m) + n
    decreases 12 - m
  {
    if n < DaysInMonth(y, m) || m == 12 {
    } else {
      MonthAndDayIsValid(y, m + 1, n - DaysInMonth(y, m));
    }
  }

  lemma {:induction false} DateFromIsValid(y: int, n: int)
    requires y >= 1 && n >= 0
    ensures Valid(DateFrom(y, n)) && DateFrom(y, n).year >= y
    ensures Ordinal(DateFrom(y, n)) == DaysBeforeYear(y) + n
    decreases n
  {
    MonthsFillYear(y);
    if n < YearLength(y) {
      MonthAndDayIsValid(y, 1, n);
    } else {
      DateFromIsValid(y + 1, n - YearLength(y));
      DaysBeforeYearStep(y);
    }
  }

  /** The ordinal of a date lies within the days of its year. */
  lemma OrdinalWithinYear(d: Date)
    requires Valid(d)
    ensures DaysBeforeYear(d.year) <= Ordinal(d) < DaysBeforeYear(d.year + 1)
  {
    MonthsFillYear(d.year);
    DaysBeforeYearStep(d.year);
    MonthAndDayBound(d.year, d.month);
    MonthStartsGrow(d.year, 1, d.month);
  }

  /** The date of ordinal `n` is a valid date whose ordinal is `n`, and it falls before
      year 10000 exactly when `n` is below `MaxOrdinal`. */
  lemma CivilDateIsValid(n: int)
    requires 0 <= n
    ensures Valid(CivilDate(n)) && Ordinal(CivilDate(n)) == n
    ensures CivilDate(n).year <= MaxYear <==> n < MaxOrdinal
  {
    DateFromIsValid(1, n);
    var d := CivilDate(n);
    OrdinalWithinYear(d);
    MaxOrdinalIsEndOfMaxYear();
    if d.year <= MaxYear {
      DaysBeforeYearGrows(d.year + 1, MaxYear + 1);
    } else {
      DaysBeforeYearGrows(MaxYear + 1, d.year);
    }
  }

  /** A month starts no later than the end of the year minus its own length. */
  lemma {:induction false} MonthAndDayBound(y: int, m: int)
    requires 1 <= m <= 12
    ensures DaysBeforeMonth(y, m) + DaysInMonth(y, m) <= DaysBeforeMonth(y, 13)
    decreases 12 - m
  {
    if m < 12 {
      MonthAndDayBound(y, m + 1);
    }
  }

  lemma {:induction false} MonthAndDayOfOrdinal(y: int, j: int, m: int, d: int)
    requires 1 <= j <= m <= 12 && 1 <= d <= DaysInMonth(y, m)
    requires DaysBeforeMonth(y, j) <= DaysBeforeMonth(y, m)
    ensures MonthAndDay(y, j, DaysBeforeMonth(y, m) - DaysBeforeMonth(y, j) + d - 1) == (m, d)
    decreases m - j
  {
    if j < m {
      MonthStartsGrow(y, j + 1, m);
      MonthAndDayOfOrdinal(y, j + 1, m, d);
    }
  }

  /** Later months start later. */
  lemma {:induction false} MonthStartsGrow(y: int, j: int, m: int)
    requires 1 <= j <= m <= 13
    ensures DaysBeforeMonth(y, j) <= DaysBeforeMonth(y, m)
    decreases m - j
  {
    if j < m {
      MonthStartsGrow(y, j, m - 1);
    }
  }

  lemma {:induction false} DateFromOfOrdinal(z: int, y: int, k: int)
    requires 1 <= z <= y && 0 <= k < YearLength(y)
    ensures DateFrom(z, DaysBeforeYear(y) - DaysBeforeYear(z) + k)
            == DateFrom(y, k)
    decreases y - z
  {
    if z < y {
      DaysBeforeYearStep(z);
      DaysBeforeYearGrows(z + 1, y);
      DateFromOfOrdinal(z + 1, y, k);
    }
  }

  /** Every valid date is the date of its own ordinal: with `CivilDateIsValid`, `Ordinal`
      and `CivilDate` are inverse bijections between valid dates and naturals. */
  lemma CivilDateOfOrdinal(d: Date)
    requires Valid(d)
    ensures Ordinal(d) >= 0 && CivilDate(Ordinal(d)) == d
  {
    MonthsFillYear(d.year);
    MonthAndDayBound(d.year, d.month);
    MonthStartsGrow(d.year, 1, d.month);
    DaysBeforeYearGrows(1, d.year);
    var k := DaysBeforeMonth(d.year, d.month) + d.day - 1;
    DateFromOfOrdinal(1, d.year, k);
    MonthAndDayOfOrdinal(d.year, 1, d.month, d.day);
  }

  // ---------------------------------------------------------------------------
  // get_readable_date
  // ---------------------------------------------------------------------------

  const SecondsPerDay: int := 86400
  /** The ordinal of 1 January 1970, the day of Unix time 0. */
  const EpochOrdinal: int := 719162

  /** The ordinal of the day holding Unix time `seconds` (division rounds down, also for
      instants before 1970). */
  function DayOrdinal(seconds: int): int
  {
    seconds / SecondsPerDay + EpochOrdinal
  }

  predicate Representable(n: int)
  {
    0 <= n < MaxOrdinal
  }

  const WeekdayNames: seq<string> := ["Monday", "Tuesday", "Wednesday", "Thursday", "Friday", "Saturday", "Sunday"]

  /** `%A`: the name of the weekday of ordinal `n`; day 0 (1 January of year 1) is a Monday,
      as in Python's `weekday()`. */
  function Weekday(n: int): string
  {
    WeekdayNames[n % 7]
  }

  lemma EpochIsThursdayFirstOfJanuary1970()
    ensures Valid(Date(1970, 1, 1)) && Ordinal(Date(1970, 1, 1)) == EpochOrdinal
    ensures CivilDate(EpochOrdinal) == Date(1970, 1, 1)
    ensures Weekday(EpochOrdinal) == "Thursday"
  {
    CivilDateOfOrdinal(Date(1970, 1, 1));
  }

  /** The decimal digit character of `d`. */
  function Digit(d: int): (c: char)
    requires 0 <= d < 10
    ensures '0' <= c <= '9' && c as int - '0' as int == d
  {
    ('0' as int + d) as char
  }

  /** The number a string of decimal digits stands for. */
  function DigitsValue(s: string): int
  {
    if s == [] then 0 else DigitsValue(s[..|s| - 1]) * 10 + (s[|s| - 1] as int - '0' as int)
  }

  /** Two digits, zero-padded: `%m` and `%d`. */
  function Pad2(n: int): (s: string)
    requires 0 <= n < 100
    ensures |s| == 2 && DigitsValue(s) == n
    ensures forall i :: 0 <= i < 2 ==> '0' <= s[i] <= '9'
  {
    var s := [Digit(n / 10), Digit(n % 10)];
    assert s[..1][..0] == [] && s[..1] == [Digit(n / 10)];
    assert DigitsValue(s[..1]) == n / 10;
    assert DigitsValue(s) == (n / 10) * 10 + n % 10;
    s
  }

  /** Four digits, zero-padded: `%Y` for the years 1 to 9999. */
  function Pad4(n: int): (s: string)
    requires 0 <= n < 10000
    ensures |s| == 4 && DigitsValue(s) == n
    ensures forall i :: 0 <= i < 4 ==> '0' <= s[i] <= '9'
  {
    var high, low := Pad2(n / 100), Pad2(n % 100);
    DigitsValueOfPairs(high, low);
    assert (n / 100) * 100 + n % 100 == n;
    assert forall i :: 0 <= i < 4 ==> (high + low)[i] == if i < 2 then high[i] else low[i - 2];
    high + low
  }

  /** Two digits written after two others count a hundredth as much. */
  lemma DigitsValueOfPairs(a: string, b: string)
    requires |a| == 2 && |b| == 2
    ensures DigitsValue(a + b) == DigitsValue(a) * 100 + DigitsValue(b)
  {
    var s := a + b;
    var d0, d1 := b[0] as int - '0' as int, b[1] as int - '0' as int;
    assert s[..3] == a + [b[0]] && (a + [b[0]])[..2] == a;
    assert DigitsValue(s[..3]) == DigitsValue(a) * 10 + d0;
    assert DigitsValue(s) == DigitsValue(s[..3]) * 10 + d1;
    assert b[..1] == [b[0]] && b[..1][..0] == [];
    assert DigitsValue(b[..1]) == d0;
    assert DigitsValue(b) == d0 * 10 + d1;
  }

  /** `"%Y-%m-%d %A"` of the date of ordinal `n`, a day of years 1 to 9999. The year is
      written with four digits, as Python documents `%Y` ("0001, 0002, ..., 9999"). */
  function Format(n: int): (s: string)
    requires Representable(n)
  {
    CivilDateIsValid(n);
    var d := CivilDate(n);
    Pad4(d.year) + "-" + Pad2(d.month) + "-" + Pad2(d.day) + " " + Weekday(n)
  }

  /** The range of the C type `time_t` (64 bits), into which `fromtimestamp` converts an
      integer timestamp. */
  predicate FitsTimeT(timestamp: int)
  {
    -0x8000_0000_0000_0000 <= timestamp < 0x8000_0000_0000_0000
  }

  /** A timestamp whose UTC day is representable fits `time_t` by far. */
  lemma RepresentableFitsTimeT(timestamp: int)
    requires Representable(DayOrdinal(timestamp))
    ensures FitsTimeT(timestamp)
  {
  }

  /** `get_readable_date(timestamp, timezone_offset)`: the local date of the instant, where
      `None` stands for an offset that is not a number. `fromtimestamp` raises
      OverflowError for a timestamp outside `time_t` and ValueError when the UTC date falls
      outside years 1 to 9999; adding a missing offset raises TypeError; a local date
      outside those years raises OverflowError. */
  function ReadableDate(timestamp: int, offset: Option<int>): (r: Result<string, PyError>)
    ensures !FitsTimeT(timestamp) ==> r == Err(OverflowError)
    ensures r == Err(ValueError) <==> FitsTimeT(timestamp) && !Representable(DayOrdinal(timestamp))
    ensures Representable(DayOrdinal(timestamp)) && offset.None? ==> r == Err(TypeError)
    ensures Representable(DayOrdinal(timestamp)) && offset.Some? ==>
              (r.Ok? <==> Representable(DayOrdinal(timestamp + offset.value)))
    ensures r.Ok? ==> offset.Some?
    ensures Representable(DayOrdinal(timestamp)) && offset.Some? ==> r == LocalDate(timestamp + offset.value)
  {
    if !FitsTimeT(timestamp) then Err(OverflowError)
    else if !Representable(DayOrdinal(timestamp)) then Err(ValueError)
    else if offset.None? then Err(TypeError)
    else LocalDate(timestamp + offset.value)
  }

  /** The readable local date of an instant given in seconds, once the UTC date is known to
      be representable. */
  function LocalDate(seconds: int): (r: Result<string, PyError>)
    ensures r.Ok? <==> Representable(DayOrdinal(seconds))
    ensures r.Err? ==> r.error == OverflowError
  {
    var n := DayOrdinal(seconds);
    if !Representable(n) then Err(OverflowError) else Ok(Format(n))
  }

  /** A readable local date names a valid date of years 1 to 9999, the one whose ordinal is
      the day of the instant. */
  lemma LocalDateIsTheCalendarDate(seconds: int)
    requires LocalDate(seconds).Ok?
    ensures var n := DayOrdinal(seconds);
            && Valid(CivilDate(n)) && Ordinal(CivilDate(n)) == n && 1 <= CivilDate(n).year <= MaxYear
            && LocalDate(seconds).value == Format(n)
  {
    CivilDateIsValid(DayOrdinal(seconds));
  }

  /** The readable date depends only on the sum of the timestamp and the offset: moving `k`
      seconds from one to the other changes nothing while the UTC date stays representable. */
  lemma ReadableDateShift(timestamp: int, offset: int, k: int)
    requires Representable(DayOrdinal(timestamp)) && Representable(DayOrdinal(timestamp + k))
    ensures ReadableDate(timestamp + k, Some(offset - k)) == ReadableDate(timestamp, Some(offset))
  {
    assert timestamp + k + (offset - k) == timestamp + offset;
  }

  // ---------------------------------------------------------------------------
  // One line per forecast day
  // ---------------------------------------------------------------------------

  /** An entry of a day's `weather` list: only its description is read. */
  datatype Condition = Condition(description: Field<string>)

  /** A day's `temp` block; the temperatures are JSON numbers, kept as the text Python
      prints for them. */
  datatype Temperatures = Temperatures(day: Field<string>, min: Field<string>, max: Field<string>)

  /** An entry of the `daily` list of the forecast. */
  datatype Day = Day(dt: Field<int>, weather: Field<seq<Condition>>, temp: Field<Temperatures>)

  /** `d[key]` put into an f-string: a missing key raises KeyError, `null` prints "None". */
  function Shown(f: Field<string>): (r: Result<string, PyError>)
    ensures r.Err? <==> f == Absent
    ensures r.Err? ==> r.error == KeyError
    ensures f == Null ==> r == Ok("None")
    ensures f.Present? ==> r == Ok(f.value)
  {
    match f
    case Absent => Err(KeyError)
    case Null => Ok("None")
    case Present(v) => Ok(v)
  }

  /** `day["weather"][0]["description"] if "weather" in day else ""`. */
  function Description(w: Field<seq<Condition>>): (r: Result<string, PyError>)
    ensures w == Absent ==> r == Ok("")
    ensures w == Null ==> r == Err(TypeError)
    ensures w == Present([]) ==> r == Err(IndexError)
    ensures w.Present? && w.value != [] ==> r == Shown(w.value[0].description)
  {
    match w
    case Absent => Ok("")
    case Null => Err(TypeError)
    case Present(conditions) =>
      if conditions == [] then Err(IndexError) else Shown(conditions[0].description)
  }

  /** `d[key]` for a block that is indexed further: missing raises KeyError, `null` raises
      TypeError when indexed. */
  function Block<T>(f: Field<T>): (r: Result<T, PyError>)
    ensures r.Ok? <==> f.Present?
    ensures f == Absent ==> r == Err(KeyError)
    ensures f == Null ==> r == Err(TypeError)
    ensures f.Present? ==> r.value == f.value
  {
    match f
    case Absent => Err(KeyError)
    case Null => Err(TypeError)
    case Present(v) => Ok(v)
  }

  /** The line of one day, "{date}: {description}, day={t}°C (min={t}°C, max={t}°C)", its
      parts evaluated in the order of the source. */
  function DayLine(day: Day, offset: Option<int>): (r: Result<string, PyError>)
    ensures day.dt == Absent ==> r == Err(KeyError)
    ensures day.dt == Null ==> r == Err(TypeError)
    ensures day.dt.Present? && ReadableDate(day.dt.value, offset).Err? ==> r == Err(ReadableDate(day.dt.value, offset).error)
    ensures day.dt.Present? && ReadableDate(day.dt.value, offset).Ok? && Description(day.weather).Err? ==>
              r == Err(Description(day.weather).error)
    ensures (day.dt.Present? && ReadableDate(day.dt.value, offset).Ok? && Description(day.weather).Ok?
             && !day.temp.Present?) ==>
              r == Err(Block(day.temp).error)
    ensures (day.dt.Present? && ReadableDate(day.dt.value, offset).Ok? && Description(day.weather).Ok?
             && day.temp.Present?
             && (day.temp.value.day == Absent || day.temp.value.min == Absent || day.temp.value.max == Absent)) ==>
              r == Err(KeyError)
    ensures r.Ok? <==> day.dt.Present? && ReadableDate(day.dt.value, offset).Ok?
                       && Description(day.weather).Ok? && day.temp.Present?
                       && day.temp.value.day != Absent && day.temp.value.min != Absent
                       && day.temp.value.max != Absent
  {
    match Block(day.dt)
    case Err(e) => Err(e)
    case Ok(timestamp) =>
      match ReadableDate(timestamp, offset)
      case Err(e) => Err(e)
      case Ok(date) =>
        match Description(day.weather)
        case Err(e) => Err(e)
        case Ok(description) =>
          match Block(day.temp)
          case Err(e) => Err(e)
          case Ok(temp) =>
            match Shown(temp.day)
            case Err(e) => Err(e)
            case Ok(tday) =>
              match Shown(temp.min)
              case Err(e) => Err(e)
              case Ok(tmin) =>
                match Shown(temp.max)
                case Err(e) => Err(e)
                case Ok(tmax) =>
                  Ok(date + ": " + description + ", day=" + tday + "°C (min=" + tmin + "°C, max=" + tmax + "°C)")
  }

  /** A day's line starts with its readable date and its description, and shows the day,
      minimum and maximum temperatures in that order. */
  lemma DayLineShape(day: Day, offset: Option<int>)
    requires DayLine(day, offset).Ok?
    ensures day.dt.Present? && ReadableDate(day.dt.value, offset).Ok? && day.temp.Present?
    ensures var t := day.temp.value;
            DayLine(day, offset).value
            == ReadableDate(day.dt.value, offset).value + ": " + Description(day.weather).value
               + ", day=" + Shown(t.day).value + "°C (min=" + Shown(t.min).value
               + "°C, max=" + Shown(t.max).value + "°C)"
  {
  }

  /** The line of each day, under one offset. */
  function LineOf(offset: Option<int>): Day -> Result<string, PyError>
  {
    day => DayLine(day, offset)
  }

  /** The loop of `_run` that appends one line per day to `forecasts`; the first day that
      raises stops it. */
  method AssembleForecasts(days: seq<Day>, offset: Option<int>) returns (r: Result<seq<string>, PyError>)
    ensures r == MapResults(days, LineOf(offset))
  {
    var forecasts: seq<string> := [];
    var i := 0;
    while i < |days|
      invariant 0 <= i <= |days|
      invariant MapResults(days[..i], LineOf(offset)) == Ok(forecasts)
    {
      var line := LineOf(offset)(days[i]);
      if line.Err? {
        MapResultsStopsAt(days, i, LineOf(offset));
        return Err(line.error);
      }
      MapResultsSnoc(days[..i], days[i], LineOf(offset));
      assert days[..i + 1] == days[..i] + [days[i]];
      forecasts := forecasts + [line.value];
      i := i + 1;
    }
    assert days[..i] == days;
    r := Ok(forecasts);
  }

  /** `"\n".join(lines)`. */
  function JoinLines(lines: seq<string>): string
  {
    if lines == [] then ""
    else if |lines| == 1 then lines[0]
    else lines[0] + "\n" + JoinLines(lines[1..])
  }

  /** `s.split("\n")`: the pieces between newlines, always at least one. */
  function SplitLines(s: string): (r: seq<string>)
    ensures |r| >= 1
  {
    if s == [] then [""]
    else
      var rest := SplitLines(s[1..]);
      if s[0] == '\n' then [""] + rest else [[s[0]] + rest[0]] + rest[1..]
  }

  lemma {:induction false} SplitLinesOfLine(a: string, b: string)
    requires '\n' !in a
    ensures SplitLines(a + "\n" + b) == [a] + SplitLines(b)
    ensures SplitLines(a) == [a]
  {
    if a == [] {
      assert a + "\n" + b == "\n" + b;
      assert ("\n" + b)[1..] == b;
    } else {
      assert (a + "\n" + b)[1..] == a[1..] + "\n" + b;
      assert '\n' !in a[1..] by { assert forall c :: c in a[1..] ==> c in a; }
      SplitLinesOfLine(a[1..], b);
      assert [a[0]] + a[1..] == a;
    }
  }

  /** Splitting the joined lines at the newlines gives the lines back, when none of them
      holds a newline: the answer has exactly one line per forecast day. */
  lemma {:induction false} SplitJoinLines(lines: seq<string>)
    requires |lines| >= 1
    requires forall i :: 0 <= i < |lines| ==> '\n' !in lines[i]
    ensures SplitLines(JoinLines(lines)) == lines
  {
    if |lines| == 1 {
      SplitLinesOfLine(lines[0], "");
    } else {
      SplitLinesOfLine(lines[0], JoinLines(lines[1..]));
      SplitJoinLines(lines[1..]);
      assert lines == [lines[0]] + lines[1..];
    }
  }

  // ---------------------------------------------------------------------------
  // The tool
  // ---------------------------------------------------------------------------

  const NoKeyMessage: string := "Error: No METEO_API_KEY found in environment."
  const NoWeatherMessage: string := "Failed to fetch weather data."
  const NoDailyMessage: string := "No daily forecast found in the weather data."

  function CityNotFound(city: string): string
  {
    "City '" + city + "' not found or error in fetching coordinates."
  }

  /** The forecast document: its `daily` list, its `timezone_offset`, and whether it holds
      any other key (an empty document is falsy). */
  datatype Forecast = Forecast(daily: Field<seq<Day>>, timezoneOffset: Field<int>, otherKeys: bool)

  predicate IsEmpty(f: Forecast)
  {
    f.daily == Absent && f.timezoneOffset == Absent && !f.otherKeys
  }

  /** `weather_data.get("timezone_offset", 0)`: 0 when missing, `None` when `null`. */
  function Offset(f: Field<int>): (o: Option<int>)
    ensures f == Absent ==> o == Some(0)
    ensures f == Null ==> o == None
    ensures f.Present? ==> o == Some(f.value)
  {
    match f
    case Absent => Some(0)
    case Null => None
    case Present(v) => Some(v)
  }

  /** `_run` as a function of the tool's key, the city and country, and the two lookups:
      `locate` gives the latitude and longitude of a city (either `None` on failure) and
      `fetch` the forecast at a position (`None` when the request failed). `Ok` is the
      returned text, `Err` an exception that escapes. */
  function WeatherReport(apiKey: string, city: string, country: string,
                         locate: (string, string, string) -> (Option<string>, Option<string>),
                         fetch: (string, string, string) -> Option<Forecast>): Result<string, PyError>
  {
    if apiKey == "" then Ok(NoKeyMessage)
    else
      var (lat, lon) := locate(city, country, apiKey);
      if lat.None? || lon.None? then Ok(CityNotFound(city))
      else
        match fetch(lat.value, lon.value, apiKey)
        case None => Ok(NoWeatherMessage)
        case Some(forecast) =>
          if IsEmpty(forecast) then Ok(NoWeatherMessage)
          else if !forecast.daily.Present? || forecast.daily.value == [] then Ok(NoDailyMessage)
          else
            match MapResults(forecast.daily.value, LineOf(Offset(forecast.timezoneOffset)))
            case Err(e) => Err(e)
            case Ok(lines) => Ok(JoinLines(lines))
  }

  /** Without a key the tool answers at once and looks nothing up. */
  lemma MissingKeyLooksNothingUp(city: string, country: string,
                                 l1: (string, string, string) -> (Option<string>, Option<string>),
                                 l2: (string, string, string) -> (Option<string>, Option<string>),
                                 f1: (string, string, string) -> Option<Forecast>,
                                 f2: (string, string, string) -> Option<Forecast>)
    ensures WeatherReport("", city, country, l1, f1) == WeatherReport("", city, country, l2, f2) == Ok(NoKeyMessage)
  {
  }

  /** A city without both coordinates gets the not-found message, and no forecast is
      fetched. */
  lemma UnknownCityFetchesNothing(apiKey: string, city: string, country: string,
                                  locate: (string, string, string) -> (Option<string>, Option<string>),
                                  f1: (string, string, string) -> Option<Forecast>,
                                  f2: (string, string, string) -> Option<Forecast>)
    requires apiKey != ""
    requires locate(city, country, apiKey).0.None? || locate(city, country, apiKey).1.None?
    ensures WeatherReport(apiKey, city, country, locate, f1) == WeatherReport(apiKey, city, country, locate, f2)
                                                            == Ok(CityNotFound(city))
  {
  }

  /** The two early answers after the lookups: a failed or empty forecast document gets the
      fetch-failure message, and one whose `daily` list is missing, `null` or empty gets the
      no-daily message; no day is formatted in either case. */
  lemma NoForecastAnswers(apiKey: string, city: string, country: string,
                          locate: (string, string, string) -> (Option<string>, Option<string>),
                          fetch: (string, string, string) -> Option<Forecast>)
    requires apiKey != ""
    requires locate(city, country, apiKey).0.Some? && locate(city, country, apiKey).1.Some?
    ensures var w := fetch(locate(city, country, apiKey).0.value, locate(city, country, apiKey).1.value, apiKey);
            var report := WeatherReport(apiKey, city, country, locate, fetch);
            && (w.None? || IsEmpty(w.value) ==> report == Ok(NoWeatherMessage))
            && (w.Some? && !IsEmpty(w.value) && !(w.value.daily.Present? && w.value.daily.value != []) ==>
                  report == Ok(NoDailyMessage))
  {
  }

  /** A successful answer has one line per forecast day, in order: split at its newlines it
      gives back the lines of the days, when no day's texts hold a newline. */
  lemma OneLinePerDay(apiKey: string, city: string, country: string,
                      locate: (string, string, string) -> (Option<string>, Option<string>),
                      fetch: (string, string, string) -> Option<Forecast>,
                      forecast: Forecast)
    requires apiKey != ""
    requires locate(city, country, apiKey).0.Some? && locate(city, country, apiKey).1.Some?
    requires fetch(locate(city, country, apiKey).0.value, locate(city, country, apiKey).1.value, apiKey) == Some(forecast)
    requires forecast.daily.Present? && forecast.daily.value != []
    requires MapResults(forecast.daily.value, LineOf(Offset(forecast.timezoneOffset))).Ok?
    requires forall i :: 0 <= i < |forecast.daily.value| ==>
               '\n' !in LineOf(Offset(forecast.timezoneOffset))(forecast.daily.value[i]).value
    ensures var days := forecast.daily.value;
            var report := WeatherReport(apiKey, city, country, locate, fetch);
            && report.Ok?
            && |SplitLines(report.value)| == |days|
            && forall i :: 0 <= i < |days| ==>
                 SplitLines(report.value)[i] == LineOf(Offset(forecast.timezoneOffset))(days[i]).value
  {
    var lines := MapResults(forecast.daily.value, LineOf(Offset(forecast.timezoneOffset))).value;
    SplitJoinLines(lines);
  }

  /** `_run`: the chain of early answers, then the loop over the days and the join. */
  method Run(apiKey: string, city: string, country: string,
             locate: (string, string, string) -> (Option<string>, Option<string>),
             fetch: (string, string, string) -> Option<Forecast>) returns (r: Result<string, PyError>)
    ensures r == WeatherReport(apiKey, city, country, locate, fetch)
  {
    if apiKey == "" {
      return Ok(NoKeyMessage);
    }
    var (lat, lon) := locate(city, country, apiKey);
    if lat.None? || lon.None? {
      return Ok(CityNotFound(city));
    }
    var weather := fetch(lat.value, lon.value, apiKey);
    if weather.None? || IsEmpty(weather.value) {
      return Ok(NoWeatherMessage);
    }
    var daily := weather.value.daily;
    if !daily.Present? || daily.value == [] {
      return Ok(NoDailyMessage);
    }
    var offset := Offset(weather.value.timezoneOffset);
    var forecasts := AssembleForecasts(daily.value, offset);
    if forecasts.Err? {
      return Err(forecasts.error);
    }
    r := Ok(JoinLines(forecasts.value));
  }

  /** `_arun` calls `_run` with the same arguments. */
  method Arun(apiKey: string, city: string, country: string,
              locate: (string, string, string) -> (Option<string>, Option<string>),
              fetch: (string, string, string) -> Option<Forecast>) returns (r: Result<string, PyError>)
    ensures r == WeatherReport(apiKey, city, country, locate, fetch)
  {
    r := Run(apiKey, city, country, locate, fetch);
  }
}
