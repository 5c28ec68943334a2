/**
 * The helpers of invoices/utils.py: currency conversion to SAR, reformatting a
 * YYYY-MM-DD date as DD/MM/YYYY, and formatting an amount with thousand
 * separators. Also here, because both utils.py and views.py use it: what
 * `datetime.strptime(s, "%Y-%m-%d")` accepts, and Python's `round` on amounts.
 */
module InvoiceUtils {
  import opened Options
  import opened Text

  // ---------------------------------------------------------------------------
  // Rounding

  /**
   * Python's `round(x)` with no digits argument: the nearest integer, and the
   * even one of the two when `x` lies exactly half-way (banker's rounding).
   */
  function RoundHalfEven(x: real): (r: int)
    ensures -0.5 <= r as real - x <= 0.5
    ensures (r as real - x == 0.5 || x - r as real == 0.5) ==> r % 2 == 0
  {
    var f := x.Floor;
    var d := x - f as real;
    if d < 0.5 then f
    else if d > 0.5 then f + 1
    else if f % 2 == 0 then f else f + 1
  }

  /** RoundHalfEven's contract pins its result down: no other integer meets it. */
  lemma RoundHalfEvenUnique(x: real, k: int)
    requires -0.5 <= k as real - x <= 0.5
    requires (k as real - x == 0.5 || x - k as real == 0.5) ==> k % 2 == 0
    ensures k == RoundHalfEven(x)
  {
  }

  /** Whole amounts are not changed by rounding; halves go to the even neighbour. */
  lemma RoundHalfEvenExamples(n: int)
    ensures RoundHalfEven(n as real) == n
    ensures RoundHalfEven(2.5) == 2 && RoundHalfEven(3.5) == 4 && RoundHalfEven(-2.5) == -2
    ensures RoundHalfEven(374.6) == 375 && RoundHalfEven(0.4) == 0
  {
    RoundHalfEvenUnique(2.5, 2);
    RoundHalfEvenUnique(3.5, 4);
    RoundHalfEvenUnique(-2.5, -2);
    RoundHalfEvenUnique(374.6, 375);
    RoundHalfEvenUnique(0.4, 0);
    RoundHalfEvenUnique(n as real, n);
  }

  // ---------------------------------------------------------------------------
  // Currency conversion

  /**
   * `convert_to_sar(amount, currency, exchange_rate)`: SAR amounts are kept as
   * they are whatever the rate; IDR amounts are divided by the rate, a zero rate
   * giving 0 instead of a division error; every other code, "USD", an unknown
   * one or the empty code, is multiplied by the rate.
   */
  function ConvertToSar(amount: real, currency: string, rate: real): (r: real)
    ensures currency == "SAR" ==> r == amount
    ensures currency == "IDR" && rate == 0.0 ==> r == 0.0
    ensures currency == "IDR" && rate != 0.0 ==> r * rate == amount
    ensures currency != "SAR" && currency != "IDR" ==> r == amount * rate
  {
    if currency == "SAR" then amount
    else if currency == "IDR" then (if rate != 0.0 then amount / rate else 0.0)
    else amount * rate
  }

  /** With a non-zero rate, converting is undone by the opposite operation. */
  lemma ConvertToSarInverse(amount: real, currency: string, rate: real)
    requires rate != 0.0
    ensures currency == "IDR" ==> ConvertToSar(amount, currency, rate) * rate == amount
    ensures currency != "SAR" && currency != "IDR" ==> ConvertToSar(amount, currency, rate) / rate == amount
  {
  }

  /** 100 USD at 3.75 is 375 SAR, and 15000 IDR at 15 is 1000 SAR, once rounded. */
  lemma ConvertToSarExamples()
    ensures RoundHalfEven(ConvertToSar(100.0, "USD", 3.75)) == 375
    ensures RoundHalfEven(ConvertToSar(15000.0, "IDR", 15.0)) == 1000
  {
    assert ConvertToSar(100.0, "USD", 3.75) == 375.0;
    assert ConvertToSar(15000.0, "IDR", 15.0) == 1000.0;
    RoundHalfEvenUnique(375.0, 375);
    RoundHalfEvenUnique(1000.0, 1000);
  }

  /** The rate is not consulted for SAR amounts. */
  lemma ConvertSarIgnoresRate(amount: real, rate1: real, rate2: real)
    ensures ConvertToSar(amount, "SAR", rate1) == ConvertToSar(amount, "SAR", rate2) == amount
  {
  }

  // ---------------------------------------------------------------------------
  // Calendar dates

  /** A calendar date as `datetime` holds it. */
  datatype Date = Date(year: int, month: int, day: int)

  /** Gregorian leap years, as Python's `calendar.isleap`. */
  predicate IsLeapYear(y: int)
  {
    y % 4 == 0 && (y % 100 != 0 || y % 400 == 0)
  }

  function DaysInMonth(y: int, m: int): (n: int)
    requires 1 <= m <= 12
    ensures 28 <= n <= 31
    ensures m == 2 ==> (n == 29 <==> IsLeapYear(y))
  {
    if m == 2 then (if IsLeapYear(y) then 29 else 28)
    else if m == 4 || m == 6 || m == 9 || m == 11 then 30
    else 31
  }

  /** A date `datetime.date` accepts: years 1 to 9999, a real month and a day within it. */
  predicate ValidDate(d: Date)
  {
    1 <= d.year <= 9999 && 1 <= d.month <= 12 && 1 <= d.day <= DaysInMonth(d.year, d.month)
  }

  /** The `%m` field of strptime: it accepts `1[0-2]`, `0[1-9]` or a single `[1-9]`. */
  function MonthField(t: string): (r: Option<int>)
    ensures r.Some? ==> 1 <= r.value <= 12
  {
    if |t| == 1 && '1' <= t[0] <= '9' then Some(DigitValue(t[0]))
    else if |t| == 2 && ((t[0] == '1' && '0' <= t[1] <= '2') || (t[0] == '0' && '1' <= t[1] <= '9'))
    then Some(DigitValue(t[0]) * 10 + DigitValue(t[1]))
    else None
  }

  /** The `%d` field of strptime: it accepts `3[01]`, `[12]` and a digit, `0[1-9]`, `[1-9]` or a space and `[1-9]`. */
  function DayField(t: string): (r: Option<int>)
    ensures r.Some? ==> 1 <= r.value <= 31
  {
    if |t| == 1 && '1' <= t[0] <= '9' then Some(DigitValue(t[0]))
    else if |t| == 2 && t[0] == ' ' && '1' <= t[1] <= '9' then Some(DigitValue(t[1]))
    else if |t| == 2 && ((t[0] == '3' && '0' <= t[1] <= '1') || ('1' <= t[0] <= '2' && IsDigit(t[1]))
                         || (t[0] == '0' && '1' <= t[1] <= '9'))
    then Some(DigitValue(t[0]) * 10 + DigitValue(t[1]))
    else None
  }

  /**
   * `datetime.strptime(s, "%Y-%m-%d")`, with its ValueError as None: four digits
   * of year, a dash, the month field, a dash and the day field, and nothing else
   * (no surrounding whitespace); the year, month and day must then make a real
   * calendar date. Whatever it accepts is a valid date.
   */
  function StrpTimeIso(s: string): (r: Option<Date>)
    ensures r.Some? ==> ValidDate(r.value)
  {
    if |s| < 5 || !AllDigits(s[..4]) || s[4] != '-' then None
    else
      var rest := s[5..];
      var k := if |rest| >= 2 && rest[1] == '-' then 1
               else if |rest| >= 3 && rest[2] == '-' then 2
               else 0;
      if k == 0 then None
      else
        var month := MonthField(rest[..k]);
        var day := DayField(rest[k + 1..]);
        var year := DigitsValue(s[..4]);
        DigitsValueBound(s[..4]);
        assert Pow10(4) == 10000;
        if month.Some? && day.Some? && 1 <= year && day.value <= DaysInMonth(year, month.value)
        then Some(Date(year, month.value, day.value))
        else None
  }

  /** `n` as exactly two digits, with a leading zero below ten. */
  function Pad2(n: nat): (s: string)
    requires n < 100
    ensures |s| == 2 && AllDigits(s) && DigitsValue(s) == n
  {
    var a, b := DigitChar(n / 10), DigitChar(n % 10);
    DigitsValueAppend([], a);
    assert [] + [a] == [a];
    DigitsValueAppend([a], b);
    [a] + [b]
  }

  /** `n` as exactly four digits, with leading zeros. */
  function Pad4(n: nat): (s: string)
    requires n < 10000
    ensures |s| == 4 && AllDigits(s) && DigitsValue(s) == n
  {
    var h := Pad2(n / 100);
    var c, d := DigitChar(n / 10 % 10), DigitChar(n % 10);
    DigitsValueAppend(h, c);
    DigitsValueAppend(h + [c], d);
    assert (n / 100 * 10 + n / 10 % 10) * 10 + n % 10 == n;
    h + [c] + [d]
  }

  /** A date whose fields fit the `YYYY-MM-DD` layout, whether or not it is a real date. */
  predicate FitsIsoText(d: Date)
  {
    0 <= d.year < 10000 && 0 <= d.month < 100 && 0 <= d.day < 100
  }

  /** The text an HTML date input sends: `YYYY-MM-DD`. */
  function IsoText(d: Date): string
    requires FitsIsoText(d)
  {
    Pad4(d.year) + "-" + Pad2(d.month) + "-" + Pad2(d.day)
  }

  /** Every valid date, written as an HTML date input writes it, is read back unchanged. */
  lemma StrpTimeIsoRoundTrip(d: Date)
    requires ValidDate(d)
    ensures StrpTimeIso(IsoText(d)) == Some(d)
  {
    StrpTimeIsoSpelled(d);
  }

  /** Two digits read by `%m`: a month exactly when they spell 1 to 12. */
  lemma MonthFieldPad2(m: nat)
    requires m < 100
    ensures MonthField(Pad2(m)) == if 1 <= m <= 12 then Some(m) else None
  {
    var t := Pad2(m);
    assert t[0] == DigitChar(m / 10) && t[1] == DigitChar(m % 10);
  }

  /** Two digits read by `%d`: a day exactly when they spell 1 to 31. */
  lemma DayFieldPad2(d: nat)
    requires d < 100
    ensures DayField(Pad2(d)) == if 1 <= d <= 31 then Some(d) else None
  {
    var t := Pad2(d);
    assert t[0] == DigitChar(d / 10) && t[1] == DigitChar(d % 10);
  }

  /**
   * Any year, month and day written as `YYYY-MM-DD` is read as exactly that date
   * when it is a real calendar date, and rejected otherwise (month 13, 30 February,
   * day 0, year 0, ...).
   */
  lemma StrpTimeIsoSpelled(d: Date)
    requires FitsIsoText(d)
    ensures StrpTimeIso(IsoText(d)) == if ValidDate(d) then Some(d) else None
  {
    var s := IsoText(d);
    assert s[..4] == Pad4(d.year);
    var rest := s[5..];
    assert rest == Pad2(d.month) + "-" + Pad2(d.day);
    assert rest[..2] == Pad2(d.month);
    assert rest[3..] == Pad2(d.day);
    assert rest[1] != '-';
    MonthFieldPad2(d.month);
    DayFieldPad2(d.day);
  }

  /**
   * `strftime("%d/%m/%Y")`: two-digit day, two-digit month and four-digit year
   * separated by slashes, from which the same day, month and year read back.
   */
  function DayMonthYear(d: Date): (s: string)
    requires ValidDate(d)
    ensures |s| == 10 && s[2] == '/' && s[5] == '/'
    ensures AllDigits(s[..2]) && AllDigits(s[3..5]) && AllDigits(s[6..])
    ensures DigitsValue(s[..2]) == d.day && DigitsValue(s[3..5]) == d.month && DigitsValue(s[6..]) == d.year
  {
    var s := Pad2(d.day) + "/" + Pad2(d.month) + "/" + Pad4(d.year);
    assert s[..2] == Pad2(d.day) && s[3..5] == Pad2(d.month) && s[6..] == Pad4(d.year);
    s
  }

  /**
   * `parse_date(date_str)`: None for a missing, empty or whitespace-only text;
   * otherwise the text, not stripped, read as YYYY-MM-DD and written back as
   * DD/MM/YYYY, or None when strptime rejects it.
   */
  function ParseDate(dateStr: Option<string>): (r: Option<string>)
    ensures dateStr.None? || IsBlank(dateStr.value) ==> r.None?
    ensures r.Some? ==> |r.value| == 10
  {
    if dateStr.None? || IsBlank(dateStr.value) then None
    else
      match StrpTimeIso(dateStr.value)
      case Some(d) => Some(DayMonthYear(d))
      case None => None
  }

  /** A valid YYYY-MM-DD date comes out as DD/MM/YYYY with the same day, month and year. */
  lemma ParseDateValid(d: Date)
    requires ValidDate(d)
    ensures ParseDate(Some(IsoText(d))) == Some(DayMonthYear(d))
  {
    StrpTimeIsoRoundTrip(d);
    assert IsoText(d)[4] == '-';
  }

  /**
   * Any year, month and day typed as `YYYY-MM-DD` comes out of parse_date as
   * DD/MM/YYYY when it is a real calendar date, and as None otherwise.
   */
  lemma ParseDateSpelled(d: Date)
    requires FitsIsoText(d)
    ensures ParseDate(Some(IsoText(d))) == if ValidDate(d) then Some(DayMonthYear(d)) else None
  {
    StrpTimeIsoSpelled(d);
    assert IsoText(d)[4] == '-';
  }

  /** Four digits read as a year. */
  lemma DigitsValue4(s: string)
    requires |s| == 4 && AllDigits(s)
    ensures DigitsValue(s) == DigitValue(s[0]) * 1000 + DigitValue(s[1]) * 100 + DigitValue(s[2]) * 10 + DigitValue(s[3])
  {
    DigitsValueAppend([], s[0]);
    assert [] + [s[0]] == s[..1];
    DigitsValueAppend(s[..1], s[1]);
    assert s[..1] + [s[1]] == s[..2];
    DigitsValueAppend(s[..2], s[2]);
    assert s[..2] + [s[2]] == s[..3];
    DigitsValueAppend(s[..3], s[3]);
    assert s[..3] + [s[3]] == s;
  }

  /** A string strptime refuses gives None from parse_date as well. */
  lemma ParseDateRejected(s: string)
    requires StrpTimeIso(s).None?
    ensures ParseDate(Some(s)).None?
  {
  }

  /** There is no thirteenth month. */
  lemma StrpTimeIsoMonth13()
    ensures StrpTimeIso("2023-13-01").None?
  {
    var rest := "2023-13-01"[5..];
    assert rest == "13-01" && rest[..2] == "13";
  }

  /** 2023 is not a leap year, so it has no 29 February; April has 30 days. */
  lemma StrpTimeIsoDayOutOfRange()
    ensures StrpTimeIso("2023-02-29").None?
    ensures StrpTimeIso("2023-04-31").None?
  {
    DigitsValue4("2023");
    assert "2023-02-29"[..4] == "2023" && "2023-04-31"[..4] == "2023";
    var r1, r2 := "2023-02-29"[5..], "2023-04-31"[5..];
    assert r1 == "02-29" && r1[..2] == "02" && r1[3..] == "29";
    assert r2 == "04-31" && r2[..2] == "04" && r2[3..] == "31";
  }

  /** Year 0 is below datetime's smallest year. */
  lemma StrpTimeIsoYearZero()
    ensures StrpTimeIso("0000-01-01").None?
  {
    DigitsValue4("0000");
    assert "0000-01-01"[..4] == "0000";
  }

  /** parse_date does not strip its argument, so surrounding spaces make strptime fail. */
  lemma StrpTimeIsoSurroundingSpace()
    ensures StrpTimeIso(" 2024-01-05").None?
    ensures StrpTimeIso("2024-01-05 ").None?
    ensures StrpTimeIso("05/01/2024").None?
  {
    assert !AllDigits(" 2024-01-05"[..4]) by { assert " 2024-01-05"[..4][0] == ' '; }
    assert !AllDigits("05/01/2024"[..4]) by { assert "05/01/2024"[..4][2] == '/'; }
    var r := "2024-01-05 "[5..];
    assert r == "01-05 " && r[3..] == "05 ";
  }

  /** strptime accepts 29 February of a leap year, and one-digit months and days. */
  lemma StrpTimeIsoAccepts()
    ensures StrpTimeIso("2024-02-29") == Some(Date(2024, 2, 29))
    ensures StrpTimeIso("2024-1-5") == Some(Date(2024, 1, 5))
  {
    DigitsValue4("2024");
    assert "2024-02-29"[..4] == "2024" && "2024-1-5"[..4] == "2024";
    var r1, r2 := "2024-02-29"[5..], "2024-1-5"[5..];
    assert r1 == "02-29" && r1[..2] == "02" && r1[3..] == "29";
    assert r2 == "1-5" && r2[..1] == "1" && r2[2..] == "5";
  }

  // ---------------------------------------------------------------------------
  // Thousand separators

  /** The last three digits of `n`, zero-padded. */
  function ThreeDigits(n: nat): (s: string)
    ensures |s| == 3 && AllDigits(s)
  {
    [DigitChar(n / 100 % 10), DigitChar(n / 10 % 10), DigitChar(n % 10)]
  }

  /** The digits of `n` with a comma before every group of three, counted from the right. */
  function GroupDigits(n: nat): (s: string)
    ensures s != [] && IsDigit(s[0]) && IsDigit(s[|s| - 1])
  {
    if n < 1000 then DecimalString(n) else GroupDigits(n / 1000) + "," + ThreeDigits(n)
  }

  /** Python's `f"{n:,}"` for an integer: a minus sign for negative numbers, then the grouped digits. */
  function FormatThousands(n: int): (s: string)
    ensures RemoveCommas(s) == IntString(n)
  {
    var g := GroupDigits(if n < 0 then -n else n);
    GroupDigitsDecimal(if n < 0 then -n else n);
    if n < 0 then
      RemoveCommasConcat("-", g);
      RemoveCommasNone("-");
      "-" + g
    else g
  }

  /** `format_currency(amount)`: `f"{int(round(amount)):,}"`. */
  function FormatCurrency(amount: real): (s: string)
    ensures RemoveCommas(s) == IntString(RoundHalfEven(amount))
  {
    FormatThousands(RoundHalfEven(amount))
  }

  lemma DecimalStringShort(n: nat)
    requires n < 1000
    ensures |DecimalString(n)| <= 3
  {
    if n >= 10 {
      assert |DecimalString(n)| == |DecimalString(n / 10)| + 1;
      if n / 10 >= 10 {
        assert |DecimalString(n / 10)| == |DecimalString(n / 10 / 10)| + 1;
        assert n / 10 / 10 < 10;
      }
    }
  }

  /** The digits of `n` are the digits of `n / 1000` followed by the last three. */
  lemma DecimalStringSplit(n: nat)
    requires n >= 1000
    ensures DecimalString(n) == DecimalString(n / 1000) + ThreeDigits(n)
  {
    var a := n / 10;
    var b := a / 10;
    assert b == n / 100 && b / 10 == n / 1000;
    var h, x, y, z := DecimalString(n / 1000), DigitChar(b % 10), DigitChar(a % 10), DigitChar(n % 10);
    assert DecimalString(b) == h + [x];
    assert DecimalString(a) == h + [x] + [y];
    assert DecimalString(n) == h + [x] + [y] + [z];
    assert [x] + [y] + [z] == ThreeDigits(n);
  }

  /**
   * The layout of a thousand-separated number: every character is a digit or a
   * comma, and the commas stand exactly at every fourth place from the right end
   * (so the first group has one to three digits and every later one three).
   */
  predicate CommaEveryThree(g: string)
  {
    forall i :: 0 <= i < |g| ==> (g[i] == ',' <==> (|g| - i) % 4 == 0) && (g[i] != ',' ==> IsDigit(g[i]))
  }

  lemma CommaEveryThreeShort(s: string)
    requires |s| <= 3 && AllDigits(s)
    ensures CommaEveryThree(s)
  {
  }

  lemma CommaEveryThreeAppend(h: string, t: string)
    requires CommaEveryThree(h) && |t| == 3 && AllDigits(t)
    ensures CommaEveryThree(h + "," + t)
  {
    var g := h + "," + t;
    forall i | 0 <= i < |g|
      ensures (g[i] == ',' <==> (|g| - i) % 4 == 0) && (g[i] != ',' ==> IsDigit(g[i]))
    {
      if i < |h| {
        assert g[i] == h[i];
        assert |g| - i == (|h| - i) + 4;
      } else if i == |h| {
        assert g[i] == ',';
      } else {
        assert g[i] == t[i - |h| - 1];
      }
    }
  }

  /** Grouping only inserts commas: removing them gives `str(n)` back. */
  lemma {:induction false} GroupDigitsDecimal(n: nat)
    ensures RemoveCommas(GroupDigits(n)) == DecimalString(n)
  {
    if n < 1000 {
      RemoveCommasNone(DecimalString(n));
    } else {
      var h := GroupDigits(n / 1000);
      var t := ThreeDigits(n);
      calc {
        RemoveCommas(GroupDigits(n));
        { assert GroupDigits(n) == h + ("," + t); }
        RemoveCommas(h + ("," + t));
        { RemoveCommasConcat(h, "," + t); }
        RemoveCommas(h) + RemoveCommas("," + t);
        { GroupDigitsDecimal(n / 1000); }
        DecimalString(n / 1000) + RemoveCommas("," + t);
        { assert RemoveCommas("," + t) == t by {
            assert ("," + t)[1..] == t;
            RemoveCommasNone(t);
          }
        }
        DecimalString(n / 1000) + t;
        { DecimalStringSplit(n); }
        DecimalString(n);
      }
    }
  }

  /** The commas of a grouped number stand every three digits from the right. */
  lemma {:induction false} GroupDigitsLayout(n: nat)
    ensures CommaEveryThree(GroupDigits(n))
  {
    if n < 1000 {
      DecimalStringShort(n);
      CommaEveryThreeShort(DecimalString(n));
    } else {
      GroupDigitsLayout(n / 1000);
      CommaEveryThreeAppend(GroupDigits(n / 1000), ThreeDigits(n));
    }
  }

  /**
   * The formatted text of an integer is its sign followed by its digits grouped
   * by threes, the first group beginning with a digit.
   */
  lemma FormatThousandsShape(n: int)
    ensures var s := FormatThousands(n);
      if n < 0 then |s| >= 2 && s[0] == '-' && IsDigit(s[1]) && CommaEveryThree(s[1..])
      else s != [] && IsDigit(s[0]) && CommaEveryThree(s)
  {
    GroupDigitsLayout(if n < 0 then -n else n);
    if n < 0 {
      assert FormatThousands(n)[1..] == GroupDigits(-n);
    }
  }

  /** No two amounts share a formatted text: the thousand-separated form determines the integer. */
  lemma FormatThousandsInjective(a: int, b: int)
    requires FormatThousands(a) == FormatThousands(b)
    ensures a == b
  {
    IntStringInjective(a, b);
  }

  lemma FormatThousandsSmall()
    ensures FormatThousands(0) == "0"
    ensures FormatThousands(999) == "999"
  {
    assert DecimalString(9) == "9";
    assert DecimalString(99) == DecimalString(9) + "9";
    assert DecimalString(999) == DecimalString(99) + "9";
  }

  lemma FormatThousandsGrouped()
    ensures FormatThousands(1000) == "1,000"
  {
    assert GroupDigits(1) == "1";
    assert ThreeDigits(1000) == "000";
  }

  lemma FormatThousandsNegative()
    ensures FormatThousands(-1234) == "-1,234"
  {
    assert GroupDigits(1) == "1";
    assert ThreeDigits(1234) == "234";
    assert GroupDigits(1234) == "1,234";
  }
}
