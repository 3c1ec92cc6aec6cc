/**
 * Calendar features: a frame with a date column gains, in place, the day
 * of the week (Monday 0 to Sunday 6), the month and a weekend flag.
 */
module FeatureEngineering {

  /** A calendar date of the proleptic Gregorian calendar. */
  datatype Date = Date(year: int, month: int, day: int)

  predicate IsLeapYear(y: int) {
    y % 4 == 0 && (y % 100 != 0 || y % 400 == 0)
  }

  function DaysInMonth(y: int, m: int): int
    requires 1 <= m <= 12
  {
    if m == 2 then (if IsLeapYear(y) then 29 else 28)
    else if m == 4 || m == 6 || m == 9 || m == 11 then 30
    else 31
  }

  predicate ValidDate(d: Date) {
    1 <= d.month <= 12 && 1 <= d.day <= DaysInMonth(d.year, d.month)
  }

  /**
   * The year counted from March, so that the leap day is the last day of
   * its year: January and February belong to the previous one.
   */
  function MarchYear(d: Date): int {
    if d.month <= 2 then d.year - 1 else d.year
  }

  /**
   * Days from 0000-03-01 to the first of March of March-year `y`, counted
   * in eras of 400 years (146097 days each).
   */
  function DaysBeforeMarchYear(y: int): int {
    var era := y / 400;
    var yoe := y - era * 400;
    era * 146097 + yoe * 365 + yoe / 4 - yoe / 100
  }

  /** The 0-based day of a date within its March-year. */
  function DayOfMarchYear(month: int, day: int): int {
    var mp := (month + 9) % 12;
    (153 * mp + 2) / 5 + day - 1
  }

  /** Days since 1970-01-01 (a Thursday). */
  function DaysFromCivil(d: Date): int {
    DaysBeforeMarchYear(MarchYear(d)) + DayOfMarchYear(d.month, d.day) - 719468
  }

  /** `dt.dayofweek`: Monday is 0 and Sunday is 6. */
  function DayOfWeek(d: Date): (dow: int)
    ensures 0 <= dow <= 6
  {
    (DaysFromCivil(d) + 3) % 7
  }

  /** 1970-01-01 is day 0 of the count, a Thursday. */
  lemma EpochIsThursday()
    ensures DaysFromCivil(Date(1970, 1, 1)) == 0 && DayOfWeek(Date(1970, 1, 1)) == 3
  {
    assert 1969 / 400 == 4 && 369 / 4 == 92 && 369 / 100 == 3 && (153 * 10 + 2) / 5 == 306;
  }

  /** 2024-01-06 is a Saturday (5) and 2024-01-07 a Sunday (6). */
  lemma WeekendAnchors()
    ensures DayOfWeek(Date(2024, 1, 6)) == 5 && DayOfWeek(Date(2024, 1, 7)) == 6
  {
    assert 2023 / 400 == 5 && 23 / 4 == 5 && 23 / 100 == 0 && (153 * 10 + 2) / 5 == 306;
    assert DaysFromCivil(Date(2024, 1, 6)) == 19728;
    assert DaysFromCivil(Date(2024, 1, 7)) == 19729;
  }

  /** The calendar day after a valid date: the next day of the month, of the year, or New Year's Day. */
  function NextDate(d: Date): (n: Date)
    requires ValidDate(d)
    ensures ValidDate(n)
  {
    if d.day < DaysInMonth(d.year, d.month) then Date(d.year, d.month, d.day + 1)
    else if d.month < 12 then Date(d.year, d.month + 1, 1)
    else Date(d.year + 1, 1, 1)
  }

  /**
   * A March-year has 365 days, plus one when the February it ends with
   * (that of calendar year `y + 1`) has a leap day.
   */
  lemma MarchYearLength(y: int)
    ensures DaysBeforeMarchYear(y + 1) == DaysBeforeMarchYear(y) + 365 + (if IsLeapYear(y + 1) then 1 else 0)
  {
    var era := y / 400;
    var yoe := y - era * 400;
    if yoe == 399 {
      EraEnd(y, era);
    } else {
      WithinEra(y, era, yoe);
    }
  }

  /** The last March-year of an era is followed by the first of the next one. */
  lemma EraEnd(y: int, era: int)
    requires era == y / 400 && y - era * 400 == 399
    ensures DaysBeforeMarchYear(y + 1) == DaysBeforeMarchYear(y) + 366 && IsLeapYear(y + 1)
  {
    assert (y + 1) / 400 == era + 1 && y + 1 == (era + 1) * 400;
    assert DaysBeforeMarchYear(y) == era * 146097 + 399 * 365 + 99 - 3;
  }

  /** Inside an era, the count of leap days grows with the multiples of 4 that are not multiples of 100. */
  lemma WithinEra(y: int, era: int, yoe: int)
    requires era == y / 400 && yoe == y - era * 400 && 0 <= yoe < 399
    ensures DaysBeforeMarchYear(y + 1) == DaysBeforeMarchYear(y) + 365 + (if IsLeapYear(y + 1) then 1 else 0)
  {
    EraShift(era, yoe);
    EraShift(era, yoe + 1);
    assert y + 1 == era * 400 + (yoe + 1);
    assert IsLeapYear(y + 1) <==> (yoe + 1) % 4 == 0 && (yoe + 1) % 100 != 0;
    QuotientStep(yoe);
  }

  /** Whole eras change neither the year within the era nor its remainders by 4, 100 and 400. */
  lemma EraShift(era: int, k: int)
    requires 0 <= k < 400
    ensures (era * 400 + k) / 400 == era
    ensures (era * 400 + k) % 400 == k
    ensures (era * 400 + k) % 4 == k % 4
    ensures (era * 400 + k) % 100 == k % 100
  {
    EraShiftBy4(era, k);
    EraShiftBy100(era, k);
  }

  lemma EraShiftBy4(era: int, k: int)
    requires 0 <= k
    ensures (era * 400 + k) % 4 == k % 4
  {
    assert era * 400 + k == 4 * (era * 100 + k / 4) + k % 4;
  }

  lemma EraShiftBy100(era: int, k: int)
    requires 0 <= k
    ensures (era * 400 + k) % 100 == k % 100
  {
    assert era * 400 + k == 100 * (era * 4 + k / 100) + k % 100;
  }

  /**
   * Adding one to a natural raises its quotient by 4 (by 100) exactly when
   * the sum is a multiple of 4 (of 100).
   */
  lemma QuotientStep(x: int)
    requires 0 <= x
    ensures (x + 1) / 4 == x / 4 + (if (x + 1) % 4 == 0 then 1 else 0)
    ensures (x + 1) / 100 == x / 100 + (if (x + 1) % 100 == 0 then 1 else 0)
  {
  }

  /**
   * The next calendar day is one day later in the count, and so on the
   * next weekday: at the end of a month, of February and of a year too.
   */
  lemma NextDayNextWeekday(d: Date)
    requires ValidDate(d)
    ensures DaysFromCivil(NextDate(d)) == DaysFromCivil(d) + 1
    ensures DayOfWeek(NextDate(d)) == (DayOfWeek(d) + 1) % 7
  {
    var n := NextDate(d);
    if d.day < DaysInMonth(d.year, d.month) {
      assert MarchYear(n) == MarchYear(d);
    } else if d.month == 2 {
      MarchYearLength(d.year - 1);
      assert MarchYear(n) == d.year && MarchYear(d) == d.year - 1;
      assert DayOfMarchYear(2, d.day) == 337 + d.day - 1 && DayOfMarchYear(3, 1) == 0;
    } else {
      assert MarchYear(n) == MarchYear(d);
      MonthStep(d.month, DaysInMonth(d.year, d.month));
    }
    WeekdaySuccessor(DaysFromCivil(d) + 3);
  }

  /**
   * Within a March-year, the first of the next month follows the last day
   * of every month except February.
   */
  lemma MonthStep(month: int, length: int)
    requires 1 <= month <= 12 && month != 2
    requires length == (if month == 4 || month == 6 || month == 9 || month == 11 then 30 else 31)
    ensures DayOfMarchYear(if month < 12 then month + 1 else 1, 1) == DayOfMarchYear(month, length) + 1
  {
  }

  lemma WeekdaySuccessor(x: int)
    ensures (x + 1) % 7 == (x % 7 + 1) % 7
  {
  }

  /** `isin([5, 6]).astype(int)` on one value. */
  function WeekendFlag(dayOfWeek: int): (flag: int)
    ensures flag == 0 || flag == 1
    ensures flag == 1 <==> dayOfWeek == 5 || dayOfWeek == 6
  {
    if dayOfWeek == 5 || dayOfWeek == 6 then 1 else 0
  }

  function DayOfWeekColumn(dates: seq<Date>): (col: seq<int>)
    ensures |col| == |dates|
    ensures forall i :: 0 <= i < |col| ==> 0 <= col[i] <= 6 && col[i] == DayOfWeek(dates[i])
  {
    seq(|dates|, i requires 0 <= i < |dates| => DayOfWeek(dates[i]))
  }

  function MonthColumn(dates: seq<Date>): (col: seq<int>)
    ensures |col| == |dates|
    ensures forall i :: 0 <= i < |col| ==> col[i] == dates[i].month
  {
    seq(|dates|, i requires 0 <= i < |dates| => dates[i].month)
  }

  /** The weekend flag of each value: 1 exactly for 5 and 6, 0 for everything else. */
  function IsWeekendColumn(daysOfWeek: seq<int>): (col: seq<int>)
    ensures |col| == |daysOfWeek|
    ensures forall i :: 0 <= i < |col| ==> col[i] == 0 || col[i] == 1
    ensures forall i :: 0 <= i < |col| ==> (col[i] == 1 <==> daysOfWeek[i] == 5 || daysOfWeek[i] == 6)
  {
    seq(|daysOfWeek|, i requires 0 <= i < |daysOfWeek| => WeekendFlag(daysOfWeek[i]))
  }

  /** Valid dates give months in 1..12 and flag exactly Saturdays and Sundays. */
  lemma FeatureRanges(dates: seq<Date>)
    requires forall i :: 0 <= i < |dates| ==> ValidDate(dates[i])
    ensures forall i :: 0 <= i < |dates| ==> 1 <= MonthColumn(dates)[i] <= 12
    ensures forall i :: 0 <= i < |dates| ==>
      (IsWeekendColumn(DayOfWeekColumn(dates))[i] == 1 <==> DayOfWeek(dates[i]) >= 5)
  {
  }

  /** A column of a frame. */
  datatype Column = Dates(dates: seq<Date>) | Ints(ints: seq<int>) | Texts(texts: seq<string>)

  function Length(c: Column): nat {
    match c
    case Dates(ds) => |ds|
    case Ints(xs) => |xs|
    case Texts(ts) => |ts|
  }

  /** A data frame: named columns of one common height, changed in place by its callers. */
  class Frame {
    var columns: map<string, Column>
    var height: nat

    ghost predicate Valid()
      reads this
    {
      forall name :: name in columns ==> Length(columns[name]) == height
    }

    constructor (columns: map<string, Column>, height: nat)
      requires forall name :: name in columns ==> Length(columns[name]) == height
      ensures Valid() && this.columns == columns && this.height == height
    {
      this.columns := columns;
      this.height := height;
    }
  }

  /**
   * `add_time_features`: adds (or overwrites) the columns `day_of_week`,
   * `month` and `is_weekend` of the caller's frame, and returns that same
   * frame. Every other column and the height are unchanged.
   */
  method AddTimeFeatures(df: Frame) returns (r: Frame)
    requires df.Valid()
    requires "date" in df.columns && df.columns["date"].Dates?
    modifies df
    ensures r == df && df.Valid() && df.height == old(df.height)
    ensures df.columns.Keys == old(df.columns.Keys) + {"day_of_week", "month", "is_weekend"}
    ensures forall name :: name in old(df.columns) && name !in {"day_of_week", "month", "is_weekend"} ==>
      df.columns[name] == old(df.columns[name])
    ensures df.columns["day_of_week"] == Ints(DayOfWeekColumn(old(df.columns["date"].dates)))
    ensures df.columns["month"] == Ints(MonthColumn(old(df.columns["date"].dates)))
    ensures df.columns["is_weekend"] == Ints(IsWeekendColumn(DayOfWeekColumn(old(df.columns["date"].dates))))
  {
    var dates := df.columns["date"].dates;
    df.columns := df.columns["day_of_week" := Ints(DayOfWeekColumn(dates))];
    df.columns := df.columns["month" := Ints(MonthColumn(dates))];
    df.columns := df.columns["is_weekend" := Ints(IsWeekendColumn(df.columns["day_of_week"].ints))];
    r := df;
  }
}
