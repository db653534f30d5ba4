/** Calendar dates as `datetime.strptime(s, "%Y-%m-%d")` reads them, and their order. */
module Dates {
  import opened Wrappers
  import opened Text

  /** A parsed date; strptime with this format always yields midnight, so only the day matters. */
  datatype Date = Date(year: int, month: int, day: int)

  predicate IsLeapYear(year: int) {
    year % 4 == 0 && (year % 100 != 0 || year % 400 == 0)
  }

  function DaysInMonth(year: int, month: int): int
    requires 1 <= month <= 12
  {
    if month == 2 then (if IsLeapYear(year) then 29 else 28)
    else if month == 4 || month == 6 || month == 9 || month == 11 then 30
    else 31
  }

  /** The days datetime can represent: years 1 to 9999, months 1 to 12, and a day that the month has. */
  predicate Valid(d: Date) {
    1 <= d.year <= 9999 && 1 <= d.month <= 12 && 1 <= d.day <= DaysInMonth(d.year, d.month)
  }

  /** datetime's `<=` on two midnights: by year, then month, then day. */
  predicate Le(a: Date, b: Date)
    ensures Valid(a) && Valid(b) ==> (Le(a, b) <==> Key(a) <= Key(b))
  {
    a.year < b.year || (a.year == b.year && (a.month < b.month || (a.month == b.month && a.day <= b.day)))
  }

  /** The day as the number YYYYMMDD; on valid days its order is the order of the calendar. */
  function Key(d: Date): int {
    d.year * 10000 + d.month * 100 + d.day
  }

  /** A directive's value and the text after it. */
  datatype Field = Field(value: int, rest: string)

  /** The `%m` directive followed by the literal '-'. Its alternatives are tried in the order
      1[0-2], 0[1-9], [1-9]; at most one of them can be followed by '-'. */
  function MonthField(s: string): Option<Field> {
    if |s| >= 3 && ((s[0] == '1' && '0' <= s[1] <= '2') || (s[0] == '0' && '1' <= s[1] <= '9')) && s[2] == '-' then
      Some(Field(10 * DigitValue(s[0]) + DigitValue(s[1]), s[3..]))
    else if |s| >= 2 && '1' <= s[0] <= '9' && s[1] == '-' then
      Some(Field(DigitValue(s[0]), s[2..]))
    else
      None
  }

  /** The `%d` directive, which must take the rest of the string (otherwise strptime reports
      "unconverted data remains"). Its alternatives are 3[01], [12]\d, 0[1-9], [1-9] and a space
      followed by [1-9]; the first that matches is the one kept. */
  function DayField(s: string): Option<int> {
    if |s| == 2 && ((s[0] == '3' && '0' <= s[1] <= '1') || ('1' <= s[0] <= '2' && IsDigit(s[1])) || (s[0] == '0' && '1' <= s[1] <= '9')) then
      Some(10 * DigitValue(s[0]) + DigitValue(s[1]))
    else if |s| == 1 && '1' <= s[0] <= '9' then
      Some(DigitValue(s[0]))
    else if |s| == 2 && s[0] == ' ' && '1' <= s[1] <= '9' then
      Some(DigitValue(s[1]))
    else
      None
  }

  /** `datetime.strptime(s, "%Y-%m-%d")`: None where it raises ValueError. `%Y` is exactly four
      digits; month and day may drop their leading zero; the result must be a day datetime can hold. */
  function Parse(s: string): (r: Option<Date>)
    ensures r.Some? ==> Valid(r.value)
  {
    if |s| < 5 || !(IsDigit(s[0]) && IsDigit(s[1]) && IsDigit(s[2]) && IsDigit(s[3])) || s[4] != '-' then
      None
    else
      var year := 1000 * DigitValue(s[0]) + 100 * DigitValue(s[1]) + 10 * DigitValue(s[2]) + DigitValue(s[3]);
      match MonthField(s[5..])
      case None => None
      case Some(m) =>
        match DayField(m.rest)
        case None => None
        case Some(day) =>
          if Valid(Date(year, m.value, day)) then Some(Date(year, m.value, day)) else None
  }

  lemma FourDigits(y: int)
    requires 0 <= y < 10000
    ensures 1000 * (y / 1000) + 100 * (y / 100 % 10) + 10 * (y / 10 % 10) + y % 10 == y
  {
    var a := y / 10;
    var b := a / 10;
    assert y == 10 * a + y % 10;
    assert a == 10 * b + a % 10;
    assert b == 10 * (b / 10) + b % 10;
    assert b == y / 100 && b / 10 == y / 1000;
  }

  /** The zero-padded text "YYYY-MM-DD" of a valid date, the form the entry screens suggest. */
  function Format(d: Date): (s: string)
    requires Valid(d)
    ensures |s| == 10 && Parse(s) == Some(d)
  {
    var y, m, dd := d.year, d.month, d.day;
    FourDigits(y);
    var s := [DigitChar(y / 1000), DigitChar(y / 100 % 10), DigitChar(y / 10 % 10), DigitChar(y % 10), '-',
              DigitChar(m / 10), DigitChar(m % 10), '-', DigitChar(dd / 10), DigitChar(dd % 10)];
    assert s[5..][3..] == s[8..];
    s
  }
}
