/** The two conversions of a calendar date to seconds since the epoch
    (`crates/delune-server/src/automation.rs`, `crates/delune-bandcamp/src/lib.rs`). One counts in
    eras of 400 years that begin in March, the other adds up years and months from 1970. The first is
    shown to grow by one from each valid date to the next under the Gregorian leap rule, which fixes it
    for all dates once it is known for one, and the second to agree with it wherever both are defined. */
module Dates {
  import opened Text

  // ---- the Gregorian calendar ----

  datatype Date = Date(year: int, month: int, day: int)

  predicate IsLeap(year: int) {
    year % 4 == 0 && (year % 100 != 0 || year % 400 == 0)
  }

  function MonthLength(year: int, month: int): int {
    if month == 2 then (if IsLeap(year) then 29 else 28)
    else if month == 4 || month == 6 || month == 9 || month == 11 then 30
    else 31
  }

  predicate IsDate(date: Date) {
    1 <= date.month <= 12 && 1 <= date.day <= MonthLength(date.year, date.month)
  }

  function NextDay(date: Date): (next: Date)
    requires IsDate(date)
    ensures IsDate(next)
  {
    if date.day < MonthLength(date.year, date.month) then Date(date.year, date.month, date.day + 1)
    else if date.month < 12 then Date(date.year, date.month + 1, 1)
    else Date(date.year + 1, 1, 1)
  }

  function DayBefore(date: Date): (before: Date)
    requires IsDate(date)
    ensures IsDate(before) && NextDay(before) == date
  {
    if 1 < date.day then Date(date.year, date.month, date.day - 1)
    else if 1 < date.month then Date(date.year, date.month - 1, MonthLength(date.year, date.month - 1))
    else Date(date.year - 1, 12, 31)
  }

  const EPOCH: Date := Date(1970, 1, 1)

  /** The date `n` days after the epoch, one day at a time. */
  function DaysAfterEpoch(n: nat): (date: Date)
    ensures IsDate(date)
  {
    if n == 0 then EPOCH else NextDay(DaysAfterEpoch(n - 1))
  }

  // ---- counting them by eras ----

  /** The same count with years begun in March and gathered by four hundreds. */
  function DaysByEra(year: int, month: int, day: int): int {
    var y := if month <= 2 then year - 1 else year;
    var era := y / 400;
    var yearOfEra := y - era * 400;
    var shifted := (month + 9) % 12;
    var dayOfYear := (153 * shifted + 2) / 5 + day - 1;
    var dayOfEra := yearOfEra * 365 + yearOfEra / 4 - yearOfEra / 100 + dayOfYear;
    era * 146097 + dayOfEra - 719468
  }

  /** `date` is a date's numbers between dashes. Nothing before the epoch has a timestamp. */
  function ReleaseTimestamp(date: seq<Option<int>>): Option<nat> {
    if |date| < 3 || date[0].None? || date[1].None? || date[2].None? then None
    else
      var days := DaysByEra(date[0].value, date[1].value, date[2].value);
      if days * 86400 < 0 then None else Some(days * 86400)
  }

  const MONTHS: seq<string> := ["Jan", "Feb", "Mar", "Apr", "May", "Jun", "Jul", "Aug", "Sep", "Oct", "Nov", "Dec"]

  function MonthIn(names: seq<string>, name: string, number: nat): Option<nat>
    decreases |names|
  {
    if names == [] then None else if names[0] == name then Some(number) else MonthIn(names[1..], name, number + 1)
  }

  /** The same count, of a month's number from March on. */
  function DaysFromMarch(year: int, month: int, day: int): int {
    var (y, m) := if month <= 2 then (year - 1, month + 9) else (year, month - 3);
    var era := y / 400;
    var yearOfEra := y - era * 400;
    var dayOfYear := (153 * m + 2) / 5 + day - 1;
    var dayOfEra := yearOfEra * 365 + yearOfEra / 4 - yearOfEra / 100 + dayOfYear;
    era * 146097 + dayOfEra - 719468
  }

  function SecondsOf(day: Option<nat>, month: Option<nat>, year: Option<nat>): Option<int> {
    if day.None? || month.None? || year.None? then None
    else if year.value < 1970 || 3000 <= year.value then None
    else Some(DaysFromMarch(year.value, month.value, day.value) * 86400)
  }

  /** `18 Feb 2023`, with the day and the year as numbers. */
  function RfcSeconds(day: Option<nat>, monthName: string, year: Option<nat>): Option<int> {
    SecondsOf(day, MonthIn(MONTHS, monthName, 1), year)
  }

  // ---- they count days ----

  /** The days of all the years before a March, counted without eras. */
  function DaysBeforeMarch(y: int): int {
    365 * y + y / 4 - y / 100 + y / 400
  }

  lemma ErasAddUp(y: int)
    ensures var era := y / 400;
      var yearOfEra := y - era * 400;
      era * 146097 + yearOfEra * 365 + yearOfEra / 4 - yearOfEra / 100 == DaysBeforeMarch(y)
  {
    var era, rest := y / 400, y % 400;
    assert y == 400 * era + rest;
    assert y / 4 == 100 * era + rest / 4 && y / 100 == 4 * era + rest / 100;
  }

  lemma YearLength(y: int)
    ensures DaysBeforeMarch(y) - DaysBeforeMarch(y - 1) == if IsLeap(y) then 366 else 365
  {
    DivStep(y, 4);
    DivStep(y, 100);
    DivStep(y, 400);
    Multiples(y);
  }

  lemma Multiples(y: int)
    ensures (y % 400 == 0 ==> y % 100 == 0) && (y % 100 == 0 ==> y % 4 == 0)
  {
  }

  lemma DivStep(y: int, n: int)
    requires n == 4 || n == 100 || n == 400
    ensures y / n - (y - 1) / n == if y % n == 0 then 1 else 0
  {
  }

  /** The days of a year that begins in March before each month. */
  function MonthStart(month: int): int {
    (153 * ((month + 9) % 12) + 2) / 5
  }

  function MarchYear(year: int, month: int): int {
    if month <= 2 then year - 1 else year
  }

  lemma ByMarch(year: int, month: int, day: int)
    ensures DaysByEra(year, month, day) == DaysBeforeMarch(MarchYear(year, month)) + MonthStart(month) + day - 1 - 719468
  {
    ErasAddUp(MarchYear(year, month));
  }

  lemma MonthStarts(year: int, month: int)
    requires 1 <= month <= 12 && month != 2
    ensures MonthStart(if month == 12 then 1 else month + 1) - MonthStart(month) == MonthLength(year, month)
    ensures MonthStart(3) == 0 && MonthStart(2) == 337
  {
  }

  /** The count grows by exactly one from each day to the next. */
  lemma CountsEachDay(date: Date)
    requires IsDate(date)
    ensures DaysByEra(NextDay(date).year, NextDay(date).month, NextDay(date).day) == DaysByEra(date.year, date.month, date.day) + 1
  {
    var next := NextDay(date);
    ByMarch(date.year, date.month, date.day);
    ByMarch(next.year, next.month, next.day);
    if next.month != date.month {
      if date.month == 2 {
        YearLength(date.year);
        MonthStarts(date.year, 1);
      } else {
        MonthStarts(date.year, date.month);
        assert MarchYear(next.year, next.month) == MarchYear(date.year, date.month);
      }
    }
  }

  /** So it is the number of days since the epoch, of every date there is since. */
  lemma {:induction false} CountsDays(n: nat)
    ensures var date := DaysAfterEpoch(n); DaysByEra(date.year, date.month, date.day) == n
  {
    if 0 < n {
      CountsDays(n - 1);
      CountsEachDay(DaysAfterEpoch(n - 1));
    }
  }

  lemma MarchesGrow(y: int, z: int)
    requires y <= z
    ensures DaysBeforeMarch(y) <= DaysBeforeMarch(z)
  {
  }

  lemma MonthStartBounds(month: int)
    requires 1 <= month <= 12
    ensures 0 <= MonthStart(month) <= 337 && (month <= 2 ==> 306 <= MonthStart(month)) && (3 <= month ==> MonthStart(month) <= 275)
  {
  }

  lemma NotBeforeEpoch(date: Date)
    requires IsDate(date)
    ensures 0 <= DaysByEra(date.year, date.month, date.day) <==> 1970 <= date.year
  {
    ByMarch(date.year, date.month, date.day);
    MonthStartBounds(date.month);
    var y := MarchYear(date.year, date.month);
    assert DaysBeforeMarch(1969) == 719162 && DaysBeforeMarch(1968) == 718797;
    if 1970 <= date.year {
      MarchesGrow(1969, y);
      if 3 <= date.month {
        MarchesGrow(1970, y);
      }
    } else if 3 <= date.month {
      MarchesGrow(y, 1969);
    } else {
      MarchesGrow(y, 1968);
    }
  }

  lemma {:induction false} DaysLeadTo(date: Date, n: nat)
    requires IsDate(date) && 1970 <= date.year && n == DaysByEra(date.year, date.month, date.day)
    ensures DaysAfterEpoch(n) == date
    decreases n
  {
    if date != EPOCH {
      var before := DayBefore(date);
      CountsEachDay(before);
      NotBeforeEpoch(before);
      DaysLeadTo(before, n - 1);
    }
  }

  lemma Seconds(days: nat)
    ensures (days * 86400) % 86400 == 0 && (days * 86400) / 86400 == days
  {
  }

  /** Every date since the epoch has a timestamp: as many days after it as it takes to get
      there day by day. Earlier dates have none. */
  lemma TimestampIsExact(date: Date)
    requires IsDate(date)
    ensures var r := ReleaseTimestamp([Some(date.year), Some(date.month), Some(date.day)]);
      if date.year < 1970 then r == None
      else r.Some? && r.value % 86400 == 0 && DaysAfterEpoch(r.value / 86400) == date
  {
    var days := DaysByEra(date.year, date.month, date.day);
    NotBeforeEpoch(date);
    if 1970 <= date.year {
      DaysLeadTo(date, days);
      Seconds(days);
    }
  }

  // ---- the two agree ----

  lemma {:induction false} FoundWhereItIs(names: seq<string>, i: nat, number: nat)
    requires i < |names| && forall j :: 0 <= j < i ==> names[j] != names[i]
    ensures MonthIn(names, names[i], number) == Some(number + i)
    decreases |names|
  {
    if 0 < i {
      FoundWhereItIs(names[1..], i - 1, number + 1);
    }
  }

  lemma MonthsDiffer(i: nat, j: nat)
    requires i < j < 12
    ensures MONTHS[i] != MONTHS[j]
  {
    assert MONTHS[i][0] != MONTHS[j][0] || MONTHS[i][1] != MONTHS[j][1] || MONTHS[i][2] != MONTHS[j][2];
  }

  lemma CountsAgree(date: Date)
    requires IsDate(date)
    ensures DaysFromMarch(date.year, date.month, date.day) == DaysByEra(date.year, date.month, date.day)
  {
    assert (date.month + 9) % 12 == if date.month <= 2 then date.month + 9 else date.month - 3;
  }

  lemma MonthFound(month: nat)
    requires 1 <= month <= 12
    ensures MonthIn(MONTHS, MONTHS[month - 1], 1) == Some(month)
  {
    forall j | 0 <= j < month - 1 ensures MONTHS[j] != MONTHS[month - 1] {
      MonthsDiffer(j, month - 1);
    }
    FoundWhereItIs(MONTHS, month - 1, 1);
  }

  lemma SecondsAgree(date: Date)
    requires IsDate(date) && 1970 <= date.year < 3000
    ensures SecondsOf(Some(date.day), Some(date.month), Some(date.year)) ==
      ReleaseTimestamp([Some(date.year), Some(date.month), Some(date.day)])
  {
    CountsAgree(date);
    NotBeforeEpoch(date);
  }

  /** The other conversion agrees on every date it is defined on. */
  lemma ConversionsAgree(date: Date, name: string)
    requires IsDate(date) && 1970 <= date.year < 3000 && name == MONTHS[date.month - 1]
    ensures RfcSeconds(Some(date.day), name, Some(date.year)) ==
      ReleaseTimestamp([Some(date.year), Some(date.month), Some(date.day)])
  {
    MonthFound(date.month);
    SecondsAgree(date);
  }
}
