/**
 * The part of `chrono` the client relies on: calendar dates in the proleptic
 * Gregorian calendar, the day before and the day after, and
 * `NaiveDate::parse_from_str(s, "%d/%m/%Y")`, modelled as a strict parser of
 * the `dd/mm/yyyy` shape.
 */
module Dates {
  import opened Wrappers
  import opened Decimal

  datatype Date = Date(year: int, month: int, day: int)

  predicate IsLeapYear(y: int) {
    y % 4 == 0 && (y % 100 != 0 || y % 400 == 0)
  }

  function DaysInMonth(y: int, m: int): (n: int)
    requires 1 <= m <= 12
    ensures 28 <= n <= 31
    ensures n == 29 <==> m == 2 && IsLeapYear(y)
  {
    if m == 2 then (if IsLeapYear(y) then 29 else 28)
    else if m == 4 || m == 6 || m == 9 || m == 11 then 30
    else 31
  }

  /** A date that exists in the calendar. */
  predicate Valid(d: Date) {
    1 <= d.month <= 12 && 1 <= d.day <= DaysInMonth(d.year, d.month)
  }

  /** Strict lexicographic order on (year, month, day), the order of days in time. */
  predicate Before(a: Date, b: Date) {
    a.year < b.year || (a.year == b.year && (a.month < b.month || (a.month == b.month && a.day < b.day)))
  }

  /** `checked_add_signed(Duration::days(1))`: the next day. */
  function Succ(d: Date): (r: Date)
    requires Valid(d)
    ensures Valid(r) && Before(d, r)
  {
    if d.day < DaysInMonth(d.year, d.month) then Date(d.year, d.month, d.day + 1)
    else if d.month < 12 then Date(d.year, d.month + 1, 1)
    else Date(d.year + 1, 1, 1)
  }

  /** `checked_sub_signed(Duration::days(1))`: the previous day. */
  function Pred(d: Date): (r: Date)
    requires Valid(d)
    ensures Valid(r) && Before(r, d)
  {
    if d.day > 1 then Date(d.year, d.month, d.day - 1)
    else if d.month > 1 then Date(d.year, d.month - 1, DaysInMonth(d.year, d.month - 1))
    else Date(d.year - 1, 12, 31)
  }

  /** The next day and the previous day undo each other. */
  lemma SuccPredInverse(d: Date)
    requires Valid(d)
    ensures Pred(Succ(d)) == d
    ensures Succ(Pred(d)) == d
  {
  }

  /** No valid date lies strictly between a day and the next one. */
  lemma SuccIsNext(d: Date, e: Date)
    requires Valid(d) && Valid(e)
    ensures Before(d, e) ==> e == Succ(d) || Before(Succ(d), e)
  {
  }

  // ----- `parse_from_str(s, "%d/%m/%Y")` -----

  /** The kinds of `chrono::format::ParseError` the strict parser can report. */
  datatype ParseErrorKind = OutOfRange | Invalid | TooShort | TooLong

  datatype ParseError = ParseError(kind: ParseErrorKind)

  /** The textual shape `dd/mm/yyyy`: digits everywhere except two slashes. */
  predicate HasDateShape(s: string) {
    |s| == 10 && s[2] == '/' && s[5] == '/' &&
    AllDigits(s[0..2]) && AllDigits(s[3..5]) && AllDigits(s[6..10])
  }

  function ParseDate(s: string): (r: Result<Date, ParseError>)
    ensures r.Ok? ==> Valid(r.value)
  {
    if |s| < 10 then Err(ParseError(TooShort))
    else if |s| > 10 then Err(ParseError(TooLong))
    else if !HasDateShape(s) then Err(ParseError(Invalid))
    else
      var d := Date(DigitsValue(s[6..10]), DigitsValue(s[3..5]), DigitsValue(s[0..2]));
      if Valid(d) then Ok(d) else Err(ParseError(OutOfRange))
  }

  /** The canonical `dd/mm/yyyy` text of a date whose year has at most four digits. */
  function FormatDate(d: Date): (s: string)
    requires Valid(d) && 0 <= d.year < 10000
    ensures HasDateShape(s)
  {
    var s := PadDigits(d.day, 2) + "/" + PadDigits(d.month, 2) + "/" + PadDigits(d.year, 4);
    assert s[0..2] == PadDigits(d.day, 2);
    assert s[3..5] == PadDigits(d.month, 2);
    assert s[6..10] == PadDigits(d.year, 4);
    s
  }

  /** Every canonical text parses back to its date. */
  lemma FormatDateParses(d: Date)
    requires Valid(d) && 0 <= d.year < 10000
    ensures ParseDate(FormatDate(d)) == Ok(d)
  {
    var f := FormatDate(d);
    assert Pow10(2) == 100 && Pow10(4) == 10000;
    PadDigitsValue(d.day, 2);
    PadDigitsValue(d.month, 2);
    PadDigitsValue(d.year, 4);
    assert f[0..2] == PadDigits(d.day, 2);
    assert f[3..5] == PadDigits(d.month, 2);
    assert f[6..10] == PadDigits(d.year, 4);
  }

  /** A text that parses is the canonical text of its date: no other spelling is accepted. */
  lemma ParsedIsFormatted(s: string, d: Date)
    requires ParseDate(s) == Ok(d)
    ensures Valid(d) && 0 <= d.year < 10000 && s == FormatDate(d)
  {
    assert Pow10(4) == 10000;
    DigitsValuePad(s[0..2]);
    DigitsValuePad(s[3..5]);
    DigitsValuePad(s[6..10]);
    assert s == s[0..2] + "/" + s[3..5] + "/" + s[6..10];
  }

  /**
   * The strict parser accepts exactly the canonical texts: a string parses to
   * `d` if and only if it is `FormatDate(d)`.
   */
  lemma ParseDateExactly(s: string, d: Date)
    ensures ParseDate(s) == Ok(d) <==> Valid(d) && 0 <= d.year < 10000 && s == FormatDate(d)
  {
    if Valid(d) && 0 <= d.year < 10000 && s == FormatDate(d) {
      FormatDateParses(d);
    }
    if ParseDate(s) == Ok(d) {
      ParsedIsFormatted(s, d);
    }
  }
}
