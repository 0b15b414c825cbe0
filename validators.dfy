/**
 * The field validators of the DARF extractor: calendar dates written
 * `dd/mm/aaaa` and Brazilian currency amounts such as `1.386,00`.
 */
module Validators {
  import opened Wrappers
  import opened Text

  // ---------------------------------------------------------------------
  // Dates: `datetime.strptime(s, "%d/%m/%Y")`
  // ---------------------------------------------------------------------

  predicate IsLeapYear(y: int) {
    y % 4 == 0 && (y % 100 != 0 || y % 400 == 0)
  }

  function DaysInMonth(y: int, m: int): (n: int)
    requires 1 <= m <= 12
    ensures 28 <= n <= 31
  {
    if m == 2 then (if IsLeapYear(y) then 29 else 28)
    else if m == 4 || m == 6 || m == 9 || m == 11 then 30
    else 31
  }

  /** A day of the proleptic Gregorian calendar in the years `datetime` accepts (1 to 9999). */
  predicate IsCalendarDate(day: int, month: int, year: int) {
    1 <= year <= 9999 && 1 <= month <= 12 && 1 <= day <= DaysInMonth(year, month)
  }

  /** `%d` as `strptime` reads it: `3[01]`, `[12]\d`, `0[1-9]`, `[1-9]` or a space and `[1-9]`. */
  predicate DayToken(t: string) {
    || (|t| == 1 && '1' <= t[0] <= '9')
    || (|t| == 2 && (
         || (t[0] == '3' && (t[1] == '0' || t[1] == '1'))
         || ((t[0] == '1' || t[0] == '2') && IsDigit(t[1]))
         || (t[0] == '0' && '1' <= t[1] <= '9')
         || (t[0] == ' ' && '1' <= t[1] <= '9')))
  }

  /** `%m` as `strptime` reads it: `1[0-2]`, `0[1-9]` or `[1-9]`. */
  predicate MonthToken(t: string) {
    || (|t| == 1 && '1' <= t[0] <= '9')
    || (|t| == 2 && ((t[0] == '1' && '0' <= t[1] <= '2') || (t[0] == '0' && '1' <= t[1] <= '9')))
  }

  /** `%Y` as `strptime` reads it: exactly four digits. */
  predicate YearToken(t: string) {
    |t| == 4 && AllDigits(t)
  }

  /** `int()` of a day or month token; a leading space is ignored. */
  function TokenValue(t: string): nat
    requires DayToken(t) || MonthToken(t)
  {
    if t[0] == ' ' then DigitValue(t[1]) else NumberOf(t)
  }

  /** Index of the first `c` in `s` at or after `from`. */
  function IndexOf(s: string, c: char, from: nat): (r: Option<nat>)
    ensures r.Some? ==> from <= r.value < |s| && s[r.value] == c &&
                        forall k :: from <= k < r.value ==> s[k] != c
    ensures r.None? ==> forall k :: from <= k < |s| ==> s[k] != c
    decreases |s| - from
  {
    if from >= |s| then None
    else if s[from] == c then Some(from)
    else IndexOf(s, c, from + 1)
  }

  /**
   * `validar_data_br`: `strptime` matches day, `/`, month, `/`, year from the start
   * of the string, fails when text remains, and `datetime` then refuses days
   * that do not exist. No token contains `/`, so the tokens lie between the
   * first two slashes.
   */
  predicate IsValidDate(s: string) {
    match IndexOf(s, '/', 0)
    case None => false
    case Some(p1) =>
      match IndexOf(s, '/', p1 + 1)
      case None => false
      case Some(p2) =>
        var dd, mm, yyyy := s[..p1], s[p1 + 1..p2], s[p2 + 1..];
        && DayToken(dd) && MonthToken(mm) && YearToken(yyyy)
        && IsCalendarDate(TokenValue(dd), TokenValue(mm), NumberOf(yyyy))
  }

  /** The `\d{2}/\d{2}/\d{4}` shape of the dates the extractor finds. */
  predicate DateShaped(t: string) {
    && |t| == 10 && t[2] == '/' && t[5] == '/'
    && AllDigits(t[..2]) && AllDigits(t[3..5]) && AllDigits(t[6..])
  }

  /** On `dd/mm/aaaa` strings the validator accepts exactly the real calendar dates. */
  lemma DateShapedValidIff(s: string)
    requires DateShaped(s)
    ensures IsValidDate(s) <==> IsCalendarDate(NumberOf(s[..2]), NumberOf(s[3..5]), NumberOf(s[6..]))
  {
    DateSlashes(s);
    DayTokenTwo(s[..2]);
    MonthTokenTwo(s[3..5]);
    NumberOfBound(s[6..]);
    assert Pow10(4) == 10000;
  }

  /** In a `dd/mm/aaaa` string the first two slashes are at positions 2 and 5. */
  lemma DateSlashes(s: string)
    requires DateShaped(s)
    ensures IndexOf(s, '/', 0) == Some(2)
    ensures IndexOf(s, '/', 3) == Some(5)
  {
    assert s[0] == s[..2][0] && s[1] == s[..2][1];
    assert s[3] == s[3..5][0] && s[4] == s[3..5][1];
  }

  /** A two-digit day token is one whose value lies between 1 and 31. */
  lemma DayTokenTwo(t: string)
    requires |t| == 2 && AllDigits(t)
    ensures DayToken(t) <==> 1 <= NumberOf(t) <= 31
    ensures DayToken(t) ==> TokenValue(t) == NumberOf(t)
  {
    NumberOfTwo(t);
  }

  /** A two-digit month token is one whose value lies between 1 and 12. */
  lemma MonthTokenTwo(t: string)
    requires |t| == 2 && AllDigits(t)
    ensures MonthToken(t) <==> 1 <= NumberOf(t) <= 12
    ensures MonthToken(t) ==> TokenValue(t) == NumberOf(t)
  {
    NumberOfTwo(t);
  }

  /** 29/02/2024 is a date (2024 is a leap year). */
  lemma LeapDayAccepted()
    ensures IsValidDate("29/02/2024")
  {
    DateExample("29/02/2024", 29, 2, 2024);
  }

  /** 29/02/2023 is not a date (2023 is not a leap year). */
  lemma NonLeapDayRejected()
    ensures !IsValidDate("29/02/2023")
  {
    DateExample("29/02/2023", 29, 2, 2023);
  }

  /** 31/04/2025 is not a date (April has 30 days). */
  lemma April31Rejected()
    ensures !IsValidDate("31/04/2025")
  {
    DateExample("31/04/2025", 31, 4, 2025);
  }

  /** 00/01/2025 is not a date (days start at 1). */
  lemma DayZeroRejected()
    ensures !IsValidDate("00/01/2025")
  {
    DateExample("00/01/2025", 0, 1, 2025);
  }

  lemma DateExample(s: string, d: nat, m: nat, y: nat)
    requires DateShaped(s)
    requires 10 * DigitValue(s[0]) + DigitValue(s[1]) == d
    requires 10 * DigitValue(s[3]) + DigitValue(s[4]) == m
    requires 1000 * DigitValue(s[6]) + 100 * DigitValue(s[7]) + 10 * DigitValue(s[8]) + DigitValue(s[9]) == y
    ensures IsValidDate(s) <==> IsCalendarDate(d, m, y)
  {
    DateShapedValidIff(s);
    NumberOfTwo(s[..2]);
    NumberOfTwo(s[3..5]);
    NumberOfFour(s[6..]);
  }

  // ---------------------------------------------------------------------
  // Currency: `VALOR_REGEX.fullmatch` and `Decimal`
  // ---------------------------------------------------------------------

  /** What follows the leading digits in `\d{1,3}(?:\.\d{3})*,\d{2}`: dot groups, then the cents. */
  predicate GroupsAndCents(u: string)
    decreases |u|
  {
    || (|u| == 3 && u[0] == ',' && AllDigits(u[1..]))
    || (|u| > 4 && u[0] == '.' && AllDigits(u[1..4]) && GroupsAndCents(u[4..]))
  }

  /**
   * `VALOR_REGEX.fullmatch(t)`: the Brazilian currency grammar `\d{1,3}(\.\d{3})*,\d{2}`.
   * The group part starts with a separator, so the leading `\d{1,3}` is the whole
   * leading run of digits.
   */
  predicate IsCurrency(t: string) {
    var k := DigitRun(t, 0);
    1 <= k <= 3 && GroupsAndCents(t[k..])
  }

  /** Length of the run of digits starting at `p`. */
  function DigitRun(s: string, p: nat): (n: nat)
    requires p <= |s|
    ensures p + n <= |s| && AllDigits(s[p..p + n])
    ensures p + n == |s| || !IsDigit(s[p + n])
    decreases |s| - p
  {
    if p < |s| && IsDigit(s[p]) then 1 + DigitRun(s, p + 1) else 0
  }

  lemma {:induction false} DigitRunAll(s: string, p: nat, q: nat)
    requires p <= q <= |s| && AllDigits(s[p..q]) && (q == |s| || !IsDigit(s[q]))
    ensures DigitRun(s, p) == q - p
    decreases q - p
  {
    if p < q {
      assert s[p..q][0] == s[p];
      assert s[p + 1..q] == s[p..q][1..];
      DigitRunAll(s, p + 1, q);
    }
  }

  /** `s.replace(".", "").replace(",", ".")`: drop thousands dots, make the comma a decimal point. */
  function SwapSeparators(s: string): (r: string)
    ensures |r| <= |s|
  {
    if s == [] then []
    else (if s[0] == '.' then [] else if s[0] == ',' then ['.'] else [s[0]]) + SwapSeparators(s[1..])
  }

  /** A decimal number as `Decimal` holds it: sign, coefficient and exponent. */
  datatype Decimal = Decimal(negative: bool, coefficient: nat, exponent: int)

  /** The optional exponent part `[eE][+-]?\d+` of a decimal string; `Some(0)` when absent. */
  function ParseExponent(v: string): Option<int> {
    if v == [] then Some(0)
    else if v[0] != 'e' && v[0] != 'E' then None
    else
      var w := v[1..];
      var negative := |w| > 0 && w[0] == '-';
      var ds := if |w| > 0 && (w[0] == '+' || w[0] == '-') then w[1..] else w;
      if ds != [] && AllDigits(ds) then
        var n: int := NumberOf(ds);
        Some(if negative then -n else n)
      else None
  }

  /** The number once its integer digits, fraction digits and the text after them are known. */
  function ParseTail(negative: bool, whole: string, frac: string, rest: string): Option<Decimal>
    requires AllDigits(whole) && AllDigits(frac)
  {
    if |whole| + |frac| == 0 then None
    else
      match ParseExponent(rest)
      case None => None
      case Some(e) => Some(Decimal(negative, NumberOf(whole + frac), e - |frac|))
  }

  /** The text after the decimal point: its digits, then the exponent. */
  function ParseFraction(negative: bool, whole: string, v: string): Option<Decimal>
    requires AllDigits(whole)
  {
    var j := DigitRun(v, 0);
    ParseTail(negative, whole, v[..j], v[j..])
  }

  /** An unsigned decimal: digits with an optional point, then the exponent. */
  function ParseUnsigned(negative: bool, u: string): Option<Decimal> {
    var i := DigitRun(u, 0);
    if i < |u| && u[i] == '.' then ParseFraction(negative, u[..i], u[i + 1..])
    else ParseTail(negative, u[..i], [], u[i..])
  }

  /**
   * `Decimal(s)` for finite numbers: surrounding whitespace is ignored, then an
   * optional sign, digits with an optional decimal point (at least one digit),
   * and an optional exponent.
   */
  function ParseDecimal(s: string): Option<Decimal> {
    var t := Strip(s);
    if |t| > 0 && (t[0] == '+' || t[0] == '-') then ParseUnsigned(t[0] == '-', t[1..])
    else ParseUnsigned(false, t)
  }

  /** `validar_valor_br`: the stripped text is in the currency grammar and the separator swap parses as a `Decimal`. */
  predicate IsValidAmount(s: string) {
    IsCurrency(Strip(s)) && ParseDecimal(SwapSeparators(s)).Some?
  }

  lemma {:induction false} SwapSeparatorsConcat(a: string, b: string)
    ensures SwapSeparators(a + b) == SwapSeparators(a) + SwapSeparators(b)
  {
    if a == [] {
      assert a + b == b;
    } else {
      assert (a + b)[1..] == a[1..] + b;
      SwapSeparatorsConcat(a[1..], b);
    }
  }

  lemma {:induction false} SwapSeparatorsPlain(s: string)
    requires forall i :: 0 <= i < |s| ==> s[i] != '.' && s[i] != ','
    ensures SwapSeparators(s) == s
  {
    if s != [] {
      SwapSeparatorsPlain(s[1..]);
    }
  }

  /** The digits of a currency tail, without the two cents. */
  function GroupDigits(u: string): (g: string)
    requires GroupsAndCents(u)
    ensures AllDigits(g)
    decreases |u|
  {
    if |u| == 3 && u[0] == ',' then [] else u[1..4] + GroupDigits(u[4..])
  }

  /** The two cent digits ending a currency tail. */
  function CentDigits(u: string): (c: string)
    requires GroupsAndCents(u)
    ensures AllDigits(c) && |c| == 2
    decreases |u|
  {
    if |u| == 3 && u[0] == ',' then u[1..] else CentDigits(u[4..])
  }

  /**
   * Under the separator swap, a currency tail becomes its group digits, a point
   * and the cents; its digits are the group digits followed by the cents.
   */
  lemma {:induction false} GroupsAndCentsSwap(u: string)
    requires GroupsAndCents(u)
    ensures SwapSeparators(u) == GroupDigits(u) + ['.'] + CentDigits(u)
    ensures DigitsOf(u) == GroupDigits(u) + CentDigits(u)
    decreases |u|
  {
    if |u| == 3 && u[0] == ',' {
      CommaCents(u);
    } else {
      var rest := u[4..];
      GroupsAndCentsSwap(rest);
      DotGroup(u);
    }
  }

  lemma CommaCents(u: string)
    requires |u| == 3 && u[0] == ',' && AllDigits(u[1..])
    ensures SwapSeparators(u) == ['.'] + u[1..]
    ensures DigitsOf(u) == u[1..]
  {
    var c := u[1..];
    SwapSeparatorsPlain(c);
    DigitsOfDigits(c);
  }

  lemma DotGroup(u: string)
    requires |u| > 4 && u[0] == '.' && AllDigits(u[1..4])
    ensures SwapSeparators(u) == u[1..4] + SwapSeparators(u[4..])
    ensures DigitsOf(u) == u[1..4] + DigitsOf(u[4..])
  {
    var grp, rest := u[1..4], u[4..];
    assert u[1..] == grp + rest;
    SwapSeparatorsConcat(grp, rest);
    SwapSeparatorsPlain(grp);
    DigitsOfConcat(grp, rest);
    DigitsOfDigits(grp);
  }

  /** The digits before the comma of a currency string. */
  function WholeDigits(t: string): (w: string)
    requires IsCurrency(t)
    ensures AllDigits(w) && |w| >= 1
  {
    var k := DigitRun(t, 0);
    t[..k] + GroupDigits(t[k..])
  }

  /** The two digits after the comma of a currency string. */
  function Cents(t: string): (c: string)
    requires IsCurrency(t)
    ensures AllDigits(c) && |c| == 2
  {
    CentDigits(t[DigitRun(t, 0)..])
  }

  /** The separator swap of a currency string: its digits before the comma, a point, the two cents. */
  lemma CurrencySwap(t: string)
    requires IsCurrency(t)
    ensures SwapSeparators(t) == WholeDigits(t) + ['.'] + Cents(t)
    ensures DigitsOf(t) == WholeDigits(t) + Cents(t)
  {
    var k := DigitRun(t, 0);
    var lead, tail := t[..k], t[k..];
    assert t == lead + tail;
    GroupsAndCentsSwap(tail);
    LeadSwap(lead, tail);
    LeadDigits(lead, tail);
  }

  lemma LeadSwap(lead: string, tail: string)
    requires AllDigits(lead) && GroupsAndCents(tail)
    ensures SwapSeparators(lead + tail) == lead + GroupDigits(tail) + ['.'] + CentDigits(tail)
  {
    GroupsAndCentsSwap(tail);
    SwapSeparatorsConcat(lead, tail);
    SwapSeparatorsPlain(lead);
  }

  lemma LeadDigits(lead: string, tail: string)
    requires AllDigits(lead) && GroupsAndCents(tail)
    ensures DigitsOf(lead + tail) == lead + GroupDigits(tail) + CentDigits(tail)
  {
    GroupsAndCentsSwap(tail);
    DigitsOfConcat(lead, tail);
    DigitsOfDigits(lead);
  }

  /** `Decimal` reads digits, a point and two more digits as their number in hundredths. */
  lemma ParsePointNumber(w: string, c: string)
    requires AllDigits(w) && |w| >= 1 && AllDigits(c) && |c| == 2
    ensures ParseDecimal(w + ['.'] + c) == Some(Decimal(false, NumberOf(w + c), -2))
  {
    var u := w + ['.'] + c;
    assert u[0] == w[0] && u[|u| - 1] == c[1];
    StripNoOuterSpace(u);
    ParseUnsignedPoint(w, c);
    ParseFractionCents(w, c);
  }

  lemma ParseUnsignedPoint(w: string, c: string)
    requires AllDigits(w) && AllDigits(c)
    ensures ParseUnsigned(false, w + ['.'] + c) == ParseFraction(false, w, c)
  {
    var u := w + ['.'] + c;
    assert u[..|w|] == w && u[|w|] == '.' && u[|w| + 1..] == c;
    DigitRunAll(u, 0, |w|);
  }

  lemma ParseFractionCents(w: string, c: string)
    requires AllDigits(w) && AllDigits(c) && |c| == 2
    ensures ParseFraction(false, w, c) == Some(Decimal(false, NumberOf(w + c), -2))
  {
    DigitRunAll(c, 0, 2);
    assert c[..2] == c && c[2..] == [];
  }

  /**
   * Once the stripped text is in the currency grammar, the `Decimal` parse cannot
   * fail, and the amount is the number formed by all its digits, in hundredths.
   */
  lemma CurrencyAlwaysParses(s: string)
    requires IsCurrency(Strip(s))
    ensures IsValidAmount(s)
    ensures ParseDecimal(SwapSeparators(s)) == Some(Decimal(false, NumberOf(DigitsOf(Strip(s))), -2))
  {
    var t := Strip(s);
    var w, c := WholeDigits(t), Cents(t);
    var core := w + ['.'] + c;
    assert Strip(SwapSeparators(s)) == core by {
      SwapOfPadded(s);
    }
    assert DigitsOf(t) == w + c by {
      CurrencySwap(t);
    }
    ParseDecimalStrip(SwapSeparators(s), core);
    ParsePointNumber(w, c);
  }

  /** The swap of a text whose stripped part is currency strips to the swapped currency. */
  lemma SwapOfPadded(s: string)
    requires IsCurrency(Strip(s))
    ensures Strip(SwapSeparators(s)) == WholeDigits(Strip(s)) + ['.'] + Cents(Strip(s))
  {
    var t := Strip(s);
    StripDecompose(s);
    var a := LeadingSpace(s);
    SwapStripPadded(s[..a], t, s[a + |t|..]);
  }

  lemma SwapStripPadded(pre: string, t: string, post: string)
    requires AllSpace(pre) && AllSpace(post) && IsCurrency(t)
    ensures Strip(SwapSeparators(pre + t + post)) == WholeDigits(t) + ['.'] + Cents(t)
  {
    SwapPadded(pre, t, post);
    CurrencySwap(t);
    var w, c := WholeDigits(t), Cents(t);
    var core := w + ['.'] + c;
    assert core[0] == w[0] && core[|core| - 1] == c[1];
    StripPadded(pre, core, post);
  }

  /** `Decimal` only sees the stripped text. */
  lemma ParseDecimalStrip(x: string, y: string)
    requires Strip(x) == y
    ensures ParseDecimal(x) == ParseDecimal(y)
  {
    StripIsSlice(x);
    StripNoOuterSpace(y);
  }

  /** Whitespace around a text passes through the separator swap unchanged. */
  lemma SwapPadded(pre: string, t: string, post: string)
    requires AllSpace(pre) && AllSpace(post)
    ensures SwapSeparators(pre + t + post) == pre + SwapSeparators(t) + post
  {
    SwapSeparatorsConcat(pre + t, post);
    SwapSeparatorsConcat(pre, t);
    SwapSeparatorsPlain(pre);
    SwapSeparatorsPlain(post);
  }

  /** "1.386,00" is in the currency grammar. */
  lemma ThousandsAmountIsCurrency()
    ensures IsCurrency("1.386,00")
  {
    var t := "1.386,00";
    DigitRunAll(t, 0, 1);
    assert t[1..][4..] == t[5..];
    assert GroupsAndCents(t[5..]);
  }

  /** "1.386,00" is a valid amount worth 138600 hundredths. */
  lemma ThousandsAmountValue()
    ensures IsValidAmount("1.386,00")
    ensures ParseDecimal(SwapSeparators("1.386,00")) == Some(Decimal(false, 138600, -2))
  {
    ThousandsAmountIsCurrency();
    ThousandsAmountDigits();
    NumberOfExample();
    AmountOfCurrency("1.386,00", 138600);
  }

  /** A currency text without outer whitespace, read through its digits. */
  lemma AmountOfCurrency(t: string, n: nat)
    requires IsCurrency(t) && NumberOf(DigitsOf(t)) == n
    ensures IsValidAmount(t)
    ensures ParseDecimal(SwapSeparators(t)) == Some(Decimal(false, n, -2))
  {
    var k := DigitRun(t, 0);
    assert !IsSpace(t[0]);
    var c := Cents(t);
    assert t[|t| - 1] == c[1] by {
      CentsAtEnd(t[k..]);
    }
    StripNoOuterSpace(t);
    CurrencyAlwaysParses(t);
  }

  lemma {:induction false} CentsAtEnd(u: string)
    requires GroupsAndCents(u)
    ensures u[|u| - 1] == CentDigits(u)[1]
    decreases |u|
  {
    if !(|u| == 3 && u[0] == ',') {
      CentsAtEnd(u[4..]);
    }
  }

  lemma ThousandsAmountDigits()
    ensures DigitsOf("1.386,00") == "138600"
  {
    var t := "1.386,00";
    ThousandsAmountIsCurrency();
    CurrencySwap(t);
    DigitRunAll(t, 0, 1);
    var u := t[1..];
    assert u[4..] == ",00";
    assert GroupDigits(",00") == [] && CentDigits(",00") == "00";
    assert GroupDigits(u) == "386";
  }

  lemma NumberOfExample()
    ensures NumberOf("138600") == 138600
  {
    var s := "138600";
    assert s[..5][..4][..3][..2][..1][..0] == [];
    assert NumberOf(s[..1]) == 1;
    assert NumberOf(s[..2]) == 13 by { assert s[..2][..1] == s[..1]; }
    assert NumberOf(s[..3]) == 138 by { assert s[..3][..2] == s[..2]; }
    assert NumberOf(s[..4]) == 1386 by { assert s[..4][..3] == s[..3]; }
    assert NumberOf(s[..5]) == 13860 by { assert s[..5][..4] == s[..4]; }
  }

  /** "1386.00" is not in the grammar: four leading digits and a point instead of a comma. */
  lemma PointAmountRejected()
    ensures !IsValidAmount("1386.00")
  {
    var u := "1386.00";
    StripNoOuterSpace(u);
    DigitRunAll(u, 0, 4);
  }
}
