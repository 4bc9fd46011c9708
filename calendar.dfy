/** Calendar dates as the invoice form collects them (a due date picked in a
    date widget) and the two zero-padded text forms the ledger stores:
    the date itself as "DD/MM/YYYY" and its month key as "MM/YYYY". */
module Calendar {

  datatype Option<T> = None | Some(value: T)

  /** A calendar date as a (day, month, year) triple. */
  datatype Date = Date(day: nat, month: nat, year: nat)

  predicate IsLeapYear(year: nat) {
    year % 4 == 0 && (year % 100 != 0 || year % 400 == 0)
  }

  function DaysInMonth(month: nat, year: nat): (n: nat)
    requires 1 <= month <= 12
    ensures 28 <= n <= 31
  {
    if month == 2 then (if IsLeapYear(year) then 29 else 28)
    else if month == 4 || month == 6 || month == 9 || month == 11 then 30
    else 31
  }

  /** A date the form can hand over: a real Gregorian day with a four-digit year. */
  predicate ValidDate(d: Date) {
    && 1000 <= d.year <= 9999
    && 1 <= d.month <= 12
    && 1 <= d.day <= DaysInMonth(d.month, d.year)
  }

  // ---------------------------------------------------------------------
  // Decimal digits

  predicate IsDigit(c: char) {
    '0' <= c <= '9'
  }

  predicate AllDigits(s: string) {
    forall i :: 0 <= i < |s| ==> IsDigit(s[i])
  }

  function DigitChar(n: nat): (c: char)
    requires n < 10
    ensures IsDigit(c)
  {
    (48 + n) as char
  }

  function DigitValue(c: char): (n: nat)
    requires IsDigit(c)
    ensures n < 10
    ensures DigitChar(n) == c
  {
    c as int - 48
  }

  /** The decimal value of a two-digit string. */
  function Value2(s: string): (n: nat)
    requires |s| == 2 && AllDigits(s)
    ensures n < 100
  {
    10 * DigitValue(s[0]) + DigitValue(s[1])
  }

  /** The decimal value of a four-digit string. */
  function Value4(s: string): (n: nat)
    requires |s| == 4 && AllDigits(s)
    ensures n < 10000
  {
    1000 * DigitValue(s[0]) + 100 * DigitValue(s[1]) + 10 * DigitValue(s[2]) + DigitValue(s[3])
  }

  /** n written with exactly two digits, a leading zero when n < 10 (strftime's %d and %m). */
  function Pad2(n: nat): (s: string)
    requires n < 100
    ensures |s| == 2 && AllDigits(s)
    ensures Value2(s) == n
  {
    [DigitChar(n / 10), DigitChar(n % 10)]
  }

  /** n written with exactly four digits (strftime's %Y for a four-digit year). */
  function Pad4(n: nat): (s: string)
    requires n < 10000
    ensures |s| == 4 && AllDigits(s)
    ensures Value4(s) == n
  {
    var a, b, c, d := n / 1000, n / 100 % 10, n / 10 % 10, n % 10;
    assert n / 100 == 10 * a + b;
    assert n / 10 == 10 * (n / 100) + c;
    assert n == 10 * (n / 10) + d;
    [DigitChar(a), DigitChar(b), DigitChar(c), DigitChar(d)]
  }

  lemma Pad2OfValue(s: string)
    requires |s| == 2 && AllDigits(s)
    ensures Pad2(Value2(s)) == s
  {
  }

  lemma Pad4OfValue(s: string)
    requires |s| == 4 && AllDigits(s)
    ensures Pad4(Value4(s)) == s
  {
    var a, b, c, d := DigitValue(s[0]), DigitValue(s[1]), DigitValue(s[2]), DigitValue(s[3]);
    var n := 1000 * a + 100 * b + 10 * c + d;
    assert n / 1000 == a;
    assert n / 100 == 10 * a + b;
    assert n / 100 % 10 == b;
    assert n / 10 == 100 * a + 10 * b + c;
    assert n / 10 % 10 == c;
    assert n % 10 == d;
  }

  // ---------------------------------------------------------------------
  // The two text forms of a due date

  /** strftime("%d/%m/%Y"): the stored invoice date. */
  function FormatDate(d: Date): (s: string)
    requires ValidDate(d)
    ensures |s| == 10 && s[2] == '/' && s[5] == '/'
    ensures AllDigits(s[0..2]) && AllDigits(s[3..5]) && AllDigits(s[6..10])
  {
    Pad2(d.day) + "/" + Pad2(d.month) + "/" + Pad4(d.year)
  }

  /** strftime("%m/%Y"): the month key an invoice is filed under. */
  function MonthKey(d: Date): (s: string)
    requires ValidDate(d)
    ensures |s| == 7 && s[2] == '/'
    ensures AllDigits(s[0..2]) && AllDigits(s[3..7])
  {
    Pad2(d.month) + "/" + Pad4(d.year)
  }

  /** Reads back a "DD/MM/YYYY" string; None for anything that is not the
      zero-padded form of a valid date. */
  function ParseDate(s: string): (r: Option<Date>)
    ensures r.Some? ==> ValidDate(r.value)
  {
    if |s| == 10 && s[2] == '/' && s[5] == '/'
       && AllDigits(s[0..2]) && AllDigits(s[3..5]) && AllDigits(s[6..10])
    then
      var d := Date(Value2(s[0..2]), Value2(s[3..5]), Value4(s[6..10]));
      if ValidDate(d) then Some(d) else None
    else
      None
  }

  /** The month key is the last seven characters of the stored date. */
  lemma MonthKeyIsDateSuffix(d: Date)
    requires ValidDate(d)
    ensures |FormatDate(d)| == 10 && |MonthKey(d)| == 7
    ensures MonthKey(d) == FormatDate(d)[3..]
  {
  }

  /** Formatting loses nothing: the stored date reads back as the date. */
  lemma ParseFormatDate(d: Date)
    requires ValidDate(d)
    ensures ParseDate(FormatDate(d)) == Some(d)
  {
  }

  /** Every string the parser accepts is exactly the formatted date it yields. */
  lemma FormatParsedDate(s: string)
    requires ParseDate(s).Some?
    ensures FormatDate(ParseDate(s).value) == s
  {
    Pad2OfValue(s[0..2]);
    Pad2OfValue(s[3..5]);
    Pad4OfValue(s[6..10]);
    var t := FormatDate(ParseDate(s).value);
    assert |t| == |s|;
    forall i | 0 <= i < |s| ensures t[i] == s[i] {
      if i < 2 { assert t[i] == s[0..2][i]; }
      else if 3 <= i < 5 { assert t[i] == s[3..5][i - 3]; }
      else if 6 <= i { assert t[i] == s[6..10][i - 6]; }
    }
  }

  /** Two valid dates share a month key exactly when they fall in the same
      month of the same year. */
  lemma MonthKeySameMonth(a: Date, b: Date)
    requires ValidDate(a) && ValidDate(b)
    ensures MonthKey(a) == MonthKey(b) <==> a.month == b.month && a.year == b.year
  {
    if MonthKey(a) == MonthKey(b) {
      assert MonthKey(a)[0..2] == Pad2(a.month);
      assert MonthKey(b)[0..2] == Pad2(b.month);
      assert MonthKey(a)[3..7] == Pad4(a.year);
      assert MonthKey(b)[3..7] == Pad4(b.year);
    }
  }
}
