/** The calendar dates that Python's `datetime.date` admits, and the `%y%m%d` rendering
    that option symbols use. */
module Dates {
  import opened Text

  /** `datetime.MINYEAR` and `datetime.MAXYEAR`. */
  const MinYear := 1
  const MaxYear := 9999

  datatype Date = Date(year: int, month: int, day: int)

  predicate IsLeapYear(year: int) {
    year % 4 == 0 && (year % 100 != 0 || year % 400 == 0)
  }

  function DaysInMonth(year: int, month: int): (n: int)
    requires 1 <= month <= 12
    ensures 28 <= n <= 31
  {
    if month == 2 then (if IsLeapYear(year) then 29 else 28)
    else if month == 4 || month == 6 || month == 9 || month == 11 then 30
    else 31
  }

  predicate ValidDate(d: Date) {
    && MinYear <= d.year <= MaxYear
    && 1 <= d.month <= 12
    && 1 <= d.day <= DaysInMonth(d.year, d.month)
  }

  /** A value of `datetime.date`: the constructor refuses anything else. */
  type CalendarDate = d: Date | ValidDate(d) witness Date(1970, 1, 1)

  /** `d.strftime('%y%m%d')`: year within its century, month and day, two digits each. */
  function YyMmDd(d: CalendarDate): (s: string)
    ensures |s| == 6 && AllDigits(s)
  {
    TwoDigits(d.year % 100) + TwoDigits(d.month) + TwoDigits(d.day)
  }

  /** Six digits that read back as the year of `d` within its century, its month and its day. */
  predicate EncodesDate(s: string, d: Date) {
    && |s| == 6 && AllDigits(s)
    && ParseNat(s[0..2]) == d.year % 100
    && ParseNat(s[2..4]) == d.month
    && ParseNat(s[4..6]) == d.day
  }

  lemma YyMmDdFields(d: CalendarDate)
    ensures EncodesDate(YyMmDd(d), d)
  {
    var yy, mm, dd := TwoDigits(d.year % 100), TwoDigits(d.month), TwoDigits(d.day);
    var s := yy + mm + dd;
    assert s[0..2] == yy;
    assert s[2..4] == mm;
    assert s[4..6] == dd;
  }
}
