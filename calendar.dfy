/** Dates as whole days since 0001-01-01, the epoch of .NET's `DateTime`,
    with the two things the provider asks of a date: its year, and its text in
    the "yyyy-MM-dd" format. */
module Calendar {
  import opened Numerals

  /** The day number of 9999-12-31, `DateTime.MaxValue`. */
  const MaxDay: int := 3_652_058

  type Day = d: int | 0 <= d <= MaxDay

  const DaysPer400Years: int := 146_097
  const DaysPer100Years: int := 36_524
  const DaysPer4Years: int := 1_461
  const DaysPerYear: int := 365

  /** Cumulative day counts at the start of each month, for common and leap years. */
  const DaysToMonth365: seq<int> := [0, 31, 59, 90, 120, 151, 181, 212, 243, 273, 304, 334, 365]
  const DaysToMonth366: seq<int> := [0, 31, 60, 91, 121, 152, 182, 213, 244, 274, 305, 335, 366]

  datatype CivilDate = CivilDate(year: int, month: int, day: int)

  /** The month holding day `n` (0-based) of the year: the first `m` from
      `from` on whose cumulative count exceeds `n`, and 12 at the latest. */
  function MonthOf(n: int, table: seq<int>, from: int): (m: int)
    requires |table| == 13 && 1 <= from <= 12
    ensures from <= m <= 12
    ensures m == 12 || n < table[m]
    ensures forall k :: from <= k < m ==> n >= table[k]
    decreases 12 - from
  {
    if from == 12 || n < table[from] then from else MonthOf(n, table, from + 1)
  }

  /** Day number `d` split into whole 400-, 100-, 4- and 1-year cycles and
      the day left over in the year. */
  datatype Cycles = Cycles(n400: int, n100: int, n4: int, n1: int, dayOfYear: int)

  /** The cycles of day `d`, counted as `DateTime` counts them: the last 100-
      and 1-year cycle of each larger one is a day longer. */
  function Decompose(d: Day): (k: Cycles)
    ensures d == k.n400 * DaysPer400Years + k.n100 * DaysPer100Years + k.n4 * DaysPer4Years
              + k.n1 * DaysPerYear + k.dayOfYear
    ensures 0 <= k.n400 && 0 <= k.n100 <= 3 && 0 <= k.n4 <= 24 && 0 <= k.n1 <= 3
    ensures 0 <= k.dayOfYear <= 365
    ensures k.dayOfYear == 365 ==> k.n1 == 3 && (k.n4 != 24 || k.n100 == 3)
  {
    var n400 := d / DaysPer400Years;
    var r400 := d % DaysPer400Years;
    var n100 := if r400 / DaysPer100Years == 4 then 3 else r400 / DaysPer100Years;
    var r100 := r400 - n100 * DaysPer100Years;
    assert r100 < DaysPer100Years || (n100 == 3 && r100 == DaysPer100Years);
    var n4 := r100 / DaysPer4Years;
    var r4 := r100 % DaysPer4Years;
    assert n4 == 24 ==> r4 <= 1460 && (n100 != 3 ==> r4 < 1460);
    var n1 := if r4 / DaysPerYear == 4 then 3 else r4 / DaysPerYear;
    Cycles(n400, n100, n4, n1, r4 - n1 * DaysPerYear)
  }

  /** Year, month and day of day number `d`, as `DateTime` computes them. */
  function ToCivil(d: Day): (c: CivilDate)
    ensures c.year >= 1 && 1 <= c.month <= 12 && c.day >= 1
  {
    var k := Decompose(d);
    var leap := k.n1 == 3 && (k.n4 != 24 || k.n100 == 3);
    var table := if leap then DaysToMonth366 else DaysToMonth365;
    var month := MonthOf(k.dayOfYear, table, 1);
    CivilDate(k.n400 * 400 + k.n100 * 100 + k.n4 * 4 + k.n1 + 1, month, k.dayOfYear - table[month - 1] + 1)
  }

  /** The Gregorian leap-year rule. */
  predicate IsLeapYear(y: int) {
    y % 4 == 0 && (y % 100 != 0 || y % 400 == 0)
  }

  function MonthTable(y: int): seq<int> {
    if IsLeapYear(y) then DaysToMonth366 else DaysToMonth365
  }

  /** A real date of the years `DateTime` covers. */
  predicate ValidDate(c: CivilDate) {
    && 1 <= c.year <= 9999
    && 1 <= c.month <= 12
    && 1 <= c.day <= MonthTable(c.year)[c.month] - MonthTable(c.year)[c.month - 1]
  }

  /** Days from 0001-01-01 to January 1 of year `y`. */
  function DaysBeforeYear(y: int): int
    requires y >= 1
  {
    365 * (y - 1) + (y - 1) / 4 - (y - 1) / 100 + (y - 1) / 400
  }

  /** The day number of a date, counted from the Gregorian calendar itself. */
  function DayNumber(c: CivilDate): int
    requires ValidDate(c)
  {
    DaysBeforeYear(c.year) + MonthTable(c.year)[c.month - 1] + c.day - 1
  }

  /** The decomposition yields a real date. */
  lemma ToCivilIsValid(d: Day)
    ensures ValidDate(ToCivil(d))
  {
  }

  /** The year `DateTime` assigns to whole cycles: the days before it are
      exactly those cycles, and it is a leap year exactly when it ends a
      4-year cycle that is not the last of a 100-year cycle, or ends a
      400-year cycle. */
  lemma CycleYear(n400: int, n100: int, n4: int, n1: int)
    requires 0 <= n400 && 0 <= n100 <= 3 && 0 <= n4 <= 24 && 0 <= n1 <= 3
    ensures var y := n400 * 400 + n100 * 100 + n4 * 4 + n1 + 1;
      && DaysBeforeYear(y) == n400 * DaysPer400Years + n100 * DaysPer100Years + n4 * DaysPer4Years + n1 * DaysPerYear
      && (IsLeapYear(y) <==> n1 == 3 && (n4 != 24 || n100 == 3))
  {
    var y := n400 * 400 + n100 * 100 + n4 * 4 + n1 + 1;
    assert (y - 1) / 4 == n400 * 100 + n100 * 25 + n4;
    assert (y - 1) / 100 == n400 * 4 + n100;
    assert (y - 1) / 400 == n400;
    if n1 == 3 {
      assert y % 4 == 0;
      assert y % 100 == 0 <==> n4 == 24;
      assert y % 400 == 0 <==> n4 == 24 && n100 == 3;
    } else {
      assert y % 4 == n1 + 1;
    }
  }

  /** The decomposition is the Gregorian calendar: counting the days of the
      date it yields gives back the day number. */
  lemma ToCivilCountsBack(d: Day)
    ensures ValidDate(ToCivil(d)) && DayNumber(ToCivil(d)) == d
  {
    var k := Decompose(d);
    CycleYear(k.n400, k.n100, k.n4, k.n1);
    ToCivilIsValid(d);
  }

  /** `date.Year`. */
  function YearOf(d: Day): (y: int)
    ensures 1 <= y <= 9999
  {
    ToCivilIsValid(d);
    ToCivil(d).year
  }

  /** `s` preceded by as many '0' as it takes to be `width` characters long. */
  function PadLeftZeros(s: string, width: nat): (r: string)
    ensures |r| == if |s| >= width then |s| else width
    ensures r[|r| - |s|..] == s
    ensures forall i :: 0 <= i < |r| - |s| ==> r[i] == '0'
  {
    if |s| >= width then s else seq(width - |s|, _ => '0') + s
  }

  /** `date.ToString("yyyy-MM-dd", CultureInfo.InvariantCulture)`. */
  function FormatDate(d: Day): (r: string)
    ensures |r| >= 10
  {
    var c := ToCivil(d);
    PadLeftZeros(NatToText(c.year), 4) + "-" + PadLeftZeros(NatToText(c.month), 2) + "-"
      + PadLeftZeros(NatToText(c.day), 2)
  }

  /** 2020 is a leap year: its day 59 is February 29. */
  lemma LeapDayExample()
    ensures ToCivil(737483) == CivilDate(2020, 2, 29)
  {
    assert 737483 / DaysPer400Years == 5 && 737483 % DaysPer400Years == 6998;
    assert 6998 / DaysPer100Years == 0;
    assert 6998 / DaysPer4Years == 4 && 6998 % DaysPer4Years == 1154;
    assert 1154 / DaysPerYear == 3;
    assert MonthOf(59, DaysToMonth366, 1) == 2;
  }

  /** 1900 is not a leap year: its day 59 is March 1. */
  lemma CenturyExample()
    ensures ToCivil(693654) == CivilDate(1900, 3, 1)
  {
    assert 693654 / DaysPer400Years == 4 && 693654 % DaysPer400Years == 109266;
    assert 109266 / DaysPer100Years == 2;
    assert 36218 / DaysPer4Years == 24 && 36218 % DaysPer4Years == 1154;
    assert 1154 / DaysPerYear == 3;
    assert MonthOf(59, DaysToMonth365, 1) == 3;
  }

  /** 2000 is a leap year although it ends a century: the last day of a
      400-year cycle is its December 31, day 366. */
  lemma QuadricentennialExample()
    ensures ToCivil(730484) == CivilDate(2000, 12, 31)
  {
    assert 730484 / DaysPer400Years == 4 && 730484 % DaysPer400Years == 146096;
    assert 146096 / DaysPer100Years == 4;
    assert 36524 / DaysPer4Years == 24 && 36524 % DaysPer4Years == 1460;
    assert 1460 / DaysPerYear == 4;
    assert MonthOf(365, DaysToMonth366, 1) == 12;
  }

  /** The last day `DateTime` can hold is 9999-12-31. */
  lemma LastDayExample()
    ensures ToCivil(MaxDay) == CivilDate(9999, 12, 31)
  {
    assert MaxDay / DaysPer400Years == 24 && MaxDay % DaysPer400Years == 145730;
    assert 145730 / DaysPer100Years == 3;
    assert 36158 / DaysPer4Years == 24 && 36158 % DaysPer4Years == 1094;
    assert 1094 / DaysPerYear == 2;
    assert MonthOf(364, DaysToMonth365, 1) == 12;
  }

  /** The first day is 0001-01-01. */
  lemma FirstDayExample()
    ensures ToCivil(0) == CivilDate(1, 1, 1)
  {
    assert MonthOf(0, DaysToMonth365, 1) == 1;
  }

  /** A date's text, as the search logs it and passes it on. */
  lemma FormatDateExample()
    ensures FormatDate(737433) == "2020-01-10"
  {
    TenthOfJanuaryExample();
    DateTextExample();
  }

  lemma TenthOfJanuaryExample()
    ensures ToCivil(737433) == CivilDate(2020, 1, 10)
  {
    assert 737433 / DaysPer400Years == 5 && 737433 % DaysPer400Years == 6948;
    assert 6948 / DaysPer100Years == 0;
    assert 6948 / DaysPer4Years == 4 && 6948 % DaysPer4Years == 1104;
    assert 1104 / DaysPerYear == 3;
    assert MonthOf(9, DaysToMonth366, 1) == 1;
  }

  lemma DateTextExample()
    ensures PadLeftZeros(NatToText(2020), 4) + "-" + PadLeftZeros(NatToText(1), 2) + "-"
      + PadLeftZeros(NatToText(10), 2) == "2020-01-10"
  {
    YearTextExample();
    DayTextExample();
    PadExample();
  }

  lemma YearTextExample()
    ensures NatToText(2020) == "2020"
  {
    assert DigitChar(2) == '2' && DigitChar(0) == '0';
    assert NatToText(2) == ['2'];
    assert NatToText(20) == NatToText(2) + ['0'] == ['2', '0'];
    assert NatToText(202) == NatToText(20) + ['2'] == ['2', '0', '2'];
    assert NatToText(2020) == NatToText(202) + ['0'] == ['2', '0', '2', '0'];
  }

  lemma DayTextExample()
    ensures NatToText(1) == "1" && NatToText(10) == "10"
  {
    assert DigitChar(1) == '1' && DigitChar(0) == '0';
    assert NatToText(1) == ['1'];
    assert NatToText(10) == NatToText(1) + ['0'] == ['1', '0'];
  }

  lemma PadExample()
    ensures PadLeftZeros("2020", 4) == "2020"
    ensures PadLeftZeros("1", 2) == "01"
    ensures PadLeftZeros("10", 2) == "10"
  {
    assert seq(1, _ => '0') + "1" == "01";
  }
}
