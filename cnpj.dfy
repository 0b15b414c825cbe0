/**
 * The CNPJ (Brazilian company taxpayer number): normalisation, the
 * `XX.XXX.XXX/XXXX-XX` presentation and the Receita Federal check digits.
 * `validar_cnpj` exists twice in the source, in parse_darf.py and in
 * config_db.py, with the same code; `IsValid` models both.
 */
module Cnpj {
  import opened Text

  const Weights1: seq<int> := [5, 4, 3, 2, 9, 8, 7, 6, 5, 4, 3, 2]
  const Weights2: seq<int> := [6, 5, 4, 3, 2, 9, 8, 7, 6, 5, 4, 3, 2]

  /** `sum(int(d) * p for d, p in zip(digs, pesos))` from position `i` on: `zip` stops at the shorter input. */
  function WeightedSum(digs: string, weights: seq<int>, i: nat): int
    requires AllDigits(digs)
    decreases |digs| - i
  {
    if i >= |digs| || i >= |weights| then 0
    else DigitValue(digs[i]) * weights[i] + WeightedSum(digs, weights, i + 1)
  }

  /** The check digit for a weighted sum: 0 when the remainder mod 11 is below 2, else 11 minus it. */
  function DvOf(sum: int): (dv: nat)
    ensures dv <= 9
  {
    var r := sum % 11;
    if r < 2 then 0 else 11 - r
  }

  /** `calc_dv`, as the one-character string it returns. */
  function CheckDigit(digs: string, weights: seq<int>): (c: char)
    requires AllDigits(digs)
    ensures IsDigit(c) && DigitValue(c) == DvOf(WeightedSum(digs, weights, 0))
  {
    var r := WeightedSum(digs, weights, 0) % 11;
    if r < 2 then '0' else DigitChar(11 - r)
  }

  /** `digits == digits[0] * 14` */
  predicate AllSame(d: string)
    requires |d| == 14
  {
    d == seq(14, _ => d[0])
  }

  /** `validar_cnpj` */
  predicate IsValid(cnpj: string) {
    var d := DigitsOf(cnpj);
    && |d| == 14
    && !AllSame(d)
    && var dv1 := CheckDigit(d[..12], Weights1);
       var dv2 := CheckDigit(d[..12] + [dv1], Weights2);
       d[12..] == [dv1, dv2]
  }

  /** The shape `\d{2}\.\d{3}\.\d{3}/\d{4}-\d{2}` of a formatted CNPJ (18 characters). */
  predicate Shaped(t: string) {
    && |t| == 18
    && t[2] == '.' && t[6] == '.' && t[10] == '/' && t[15] == '-'
    && forall i :: 0 <= i < 18 && i != 2 && i != 6 && i != 10 && i != 15 ==> IsDigit(t[i])
  }

  /** `formatar_cnpj`: `XX.XXX.XXX/XXXX-XX`, or "" for an empty input or one without exactly 14 digits. */
  function Format(cnpj: string): string {
    if cnpj == [] then []
    else
      var c := DigitsOf(cnpj);
      if |c| != 14 then []
      else c[..2] + "." + c[2..5] + "." + c[5..8] + "/" + c[8..12] + "-" + c[12..14]
  }

  // ---------------------------------------------------------------------
  // Properties of the check digits
  // ---------------------------------------------------------------------

  /** The first weighted sum, written out term by term over the first twelve digits. */
  function Sum1(d: string): int
    requires |d| >= 12 && AllDigits(d)
  {
    5 * DigitValue(d[0]) + 4 * DigitValue(d[1]) + 3 * DigitValue(d[2]) + 2 * DigitValue(d[3])
    + 9 * DigitValue(d[4]) + 8 * DigitValue(d[5]) + 7 * DigitValue(d[6]) + 6 * DigitValue(d[7])
    + 5 * DigitValue(d[8]) + 4 * DigitValue(d[9]) + 3 * DigitValue(d[10]) + 2 * DigitValue(d[11])
  }

  /** The second weighted sum: weight 6 first, over the first twelve digits and then the first check digit. */
  function Sum2(d: string, dv1: nat): int
    requires |d| >= 12 && AllDigits(d)
  {
    6 * DigitValue(d[0]) + 5 * DigitValue(d[1]) + 4 * DigitValue(d[2]) + 3 * DigitValue(d[3])
    + 2 * DigitValue(d[4]) + 9 * DigitValue(d[5]) + 8 * DigitValue(d[6]) + 7 * DigitValue(d[7])
    + 6 * DigitValue(d[8]) + 5 * DigitValue(d[9]) + 4 * DigitValue(d[10]) + 3 * DigitValue(d[11])
    + 2 * dv1
  }

  lemma {:induction false} WeightedSum1(d: string)
    requires |d| == 12 && AllDigits(d)
    ensures WeightedSum(d, Weights1, 0) == Sum1(d)
  {
    var w := Weights1;
    WeightedSum1Tail(d);
    assert WeightedSum(d, w, 5) == 8 * DigitValue(d[5]) + WeightedSum(d, w, 6);
    assert WeightedSum(d, w, 4) == 9 * DigitValue(d[4]) + WeightedSum(d, w, 5);
    assert WeightedSum(d, w, 3) == 2 * DigitValue(d[3]) + WeightedSum(d, w, 4);
    assert WeightedSum(d, w, 2) == 3 * DigitValue(d[2]) + WeightedSum(d, w, 3);
    assert WeightedSum(d, w, 1) == 4 * DigitValue(d[1]) + WeightedSum(d, w, 2);
    assert WeightedSum(d, w, 0) == 5 * DigitValue(d[0]) + WeightedSum(d, w, 1);
  }

  /** The last six terms of the first weighted sum. */
  lemma {:induction false} WeightedSum1Tail(d: string)
    requires |d| == 12 && AllDigits(d)
    ensures WeightedSum(d, Weights1, 6) ==
              7 * DigitValue(d[6]) + 6 * DigitValue(d[7]) + 5 * DigitValue(d[8])
              + 4 * DigitValue(d[9]) + 3 * DigitValue(d[10]) + 2 * DigitValue(d[11])
  {
    var w := Weights1;
    assert WeightedSum(d, w, 12) == 0;
    assert WeightedSum(d, w, 11) == 2 * DigitValue(d[11]);
    assert WeightedSum(d, w, 10) == 3 * DigitValue(d[10]) + WeightedSum(d, w, 11);
    assert WeightedSum(d, w, 9) == 4 * DigitValue(d[9]) + WeightedSum(d, w, 10);
    assert WeightedSum(d, w, 8) == 5 * DigitValue(d[8]) + WeightedSum(d, w, 9);
    assert WeightedSum(d, w, 7) == 6 * DigitValue(d[7]) + WeightedSum(d, w, 8);
    assert WeightedSum(d, w, 6) == 7 * DigitValue(d[6]) + WeightedSum(d, w, 7);
  }

  lemma {:induction false} WeightedSum2(d: string)
    requires |d| == 13 && AllDigits(d)
    ensures WeightedSum(d, Weights2, 0) == Sum2(d, DigitValue(d[12]))
  {
    var w := Weights2;
    WeightedSum2Tail(d);
    assert WeightedSum(d, w, 5) == 9 * DigitValue(d[5]) + WeightedSum(d, w, 6);
    assert WeightedSum(d, w, 4) == 2 * DigitValue(d[4]) + WeightedSum(d, w, 5);
    assert WeightedSum(d, w, 3) == 3 * DigitValue(d[3]) + WeightedSum(d, w, 4);
    assert WeightedSum(d, w, 2) == 4 * DigitValue(d[2]) + WeightedSum(d, w, 3);
    assert WeightedSum(d, w, 1) == 5 * DigitValue(d[1]) + WeightedSum(d, w, 2);
    assert WeightedSum(d, w, 0) == 6 * DigitValue(d[0]) + WeightedSum(d, w, 1);
  }

  /** The last seven terms of the second weighted sum. */
  lemma {:induction false} WeightedSum2Tail(d: string)
    requires |d| == 13 && AllDigits(d)
    ensures WeightedSum(d, Weights2, 6) ==
              8 * DigitValue(d[6]) + 7 * DigitValue(d[7]) + 6 * DigitValue(d[8]) + 5 * DigitValue(d[9])
              + 4 * DigitValue(d[10]) + 3 * DigitValue(d[11]) + 2 * DigitValue(d[12])
  {
    var w := Weights2;
    assert WeightedSum(d, w, 13) == 0;
    assert WeightedSum(d, w, 12) == 2 * DigitValue(d[12]);
    assert WeightedSum(d, w, 11) == 3 * DigitValue(d[11]) + WeightedSum(d, w, 12);
    assert WeightedSum(d, w, 10) == 4 * DigitValue(d[10]) + WeightedSum(d, w, 11);
    assert WeightedSum(d, w, 9) == 5 * DigitValue(d[9]) + WeightedSum(d, w, 10);
    assert WeightedSum(d, w, 8) == 6 * DigitValue(d[8]) + WeightedSum(d, w, 9);
    assert WeightedSum(d, w, 7) == 7 * DigitValue(d[7]) + WeightedSum(d, w, 8);
    assert WeightedSum(d, w, 6) == 8 * DigitValue(d[6]) + WeightedSum(d, w, 7);
  }

  /**
   * The Receita Federal rule, stated on the digit values: exactly 14 digits, not all
   * the same, and the last two equal to the check digits of the two weighted sums.
   */
  lemma CheckDigitRule(cnpj: string)
    ensures IsValid(cnpj) <==>
      var d := DigitsOf(cnpj);
      && |d| == 14
      && (exists i :: 0 <= i < 14 && d[i] != d[0])
      && DigitValue(d[12]) == DvOf(Sum1(d))
      && DigitValue(d[13]) == DvOf(Sum2(d, DigitValue(d[12])))
  {
    var d := DigitsOf(cnpj);
    if |d| == 14 {
      var dv1 := CheckDigit(d[..12], Weights1);
      WeightedSum1(d[..12]);
      assert Sum1(d[..12]) == Sum1(d);
      var e := d[..12] + [dv1];
      WeightedSum2(e);
      assert Sum2(e, DigitValue(dv1)) == Sum2(d, DigitValue(dv1));
      var dv2 := CheckDigit(e, Weights2);
      assert AllSame(d) <==> forall i :: 0 <= i < 14 ==> d[i] == d[0];
      assert d[12..] == [dv1, dv2] <==> d[12] == dv1 && d[13] == dv2;
      DigitValueInjective(d[12], dv1);
      DigitValueInjective(d[13], dv2);
    }
  }

  lemma DigitValueInjective(a: char, b: char)
    requires IsDigit(a) && IsDigit(b)
    ensures a == b <==> DigitValue(a) == DigitValue(b)
  {
  }

  /** A sequence of one repeated digit is never a valid CNPJ (e.g. 11111111111111). */
  lemma RepeatedDigitsRejected(cnpj: string)
    requires |DigitsOf(cnpj)| == 14
    requires forall i :: 0 <= i < 14 ==> DigitsOf(cnpj)[i] == DigitsOf(cnpj)[0]
    ensures !IsValid(cnpj)
  {
    var d := DigitsOf(cnpj);
    assert d == seq(14, _ => d[0]);
  }

  // ---------------------------------------------------------------------
  // Properties of formatting
  // ---------------------------------------------------------------------

  /** `formatar_cnpj` yields "" exactly when the input does not hold 14 digits. */
  lemma FormatEmptyIff(cnpj: string)
    ensures Format(cnpj) == [] <==> |DigitsOf(cnpj)| != 14
  {
  }

  /** `formatar_cnpj` depends on the input only through its digits. */
  lemma FormatDependsOnDigits(x: string, y: string)
    requires DigitsOf(x) == DigitsOf(y)
    ensures Format(x) == Format(y)
  {
  }

  /** With 14 digits, the result has the `XX.XXX.XXX/XXXX-XX` shape and keeps the digits in order. */
  lemma FormatShape(cnpj: string)
    requires |DigitsOf(cnpj)| == 14
    ensures Shaped(Format(cnpj))
    ensures DigitsOf(Format(cnpj)) == DigitsOf(cnpj)
  {
    var c := DigitsOf(cnpj);
    var f := c[..2] + "." + c[2..5] + "." + c[5..8] + "/" + c[8..12] + "-" + c[12..14];
    assert Format(cnpj) == f;
    PiecesShaped(c, f);
    DigitsOfFormatted(c, f);
  }

  /** The digits of a shaped string with the groups of `c` are `c` itself. */
  lemma DigitsOfFormatted(c: string, f: string)
    requires |c| == 14 && Shaped(f)
    requires f[..2] == c[..2] && f[3..6] == c[2..5] && f[7..10] == c[5..8]
    requires f[11..15] == c[8..12] && f[16..18] == c[12..14]
    ensures DigitsOf(f) == c
  {
    DigitsOfPieces(f);
    assert c[..2] + c[2..5] + c[5..8] + c[8..12] + c[12..14] == c;
  }

  /** Fourteen digits laid out with the separators form a shaped string with those digit groups. */
  lemma PiecesShaped(c: string, f: string)
    requires |c| == 14 && AllDigits(c)
    requires f == c[..2] + "." + c[2..5] + "." + c[5..8] + "/" + c[8..12] + "-" + c[12..14]
    ensures Shaped(f)
    ensures f[..2] == c[..2] && f[3..6] == c[2..5] && f[7..10] == c[5..8]
    ensures f[11..15] == c[8..12] && f[16..18] == c[12..14]
  {
    assert |f| == 18;
    assert forall k :: 0 <= k < 2 ==> f[k] == c[k];
    assert forall k :: 3 <= k < 6 ==> f[k] == c[k - 1];
    assert forall k :: 7 <= k < 10 ==> f[k] == c[k - 2];
    assert forall k :: 11 <= k < 15 ==> f[k] == c[k - 3];
    assert forall k :: 16 <= k < 18 ==> f[k] == c[k - 4];
  }

  /** The digits of a shaped string are the five digit groups, in order. */
  lemma DigitsOfPieces(t: string)
    requires Shaped(t)
    ensures DigitsOf(t) == t[..2] + t[3..6] + t[7..10] + t[11..15] + t[16..18]
  {
    var u1 := t[3..];
    var u2 := u1[4..];
    var u3 := u2[4..];
    var u4 := u3[5..];
    DigitsOfSkip(t, 2);
    DigitsOfSkip(u1, 3);
    DigitsOfSkip(u2, 3);
    DigitsOfSkip(u3, 4);
    assert u1[..3] == t[3..6] && u2[..3] == t[7..10] && u3[..4] == t[11..15] && u4 == t[16..18];
    DigitsOfDigits(t[..2]);
    DigitsOfDigits(t[3..6]);
    DigitsOfDigits(t[7..10]);
    DigitsOfDigits(t[11..15]);
    DigitsOfDigits(t[16..18]);
  }

  /** A non-digit at position `k` contributes nothing to the digits of `s`. */
  lemma DigitsOfSkip(s: string, k: nat)
    requires k < |s| && !IsDigit(s[k])
    ensures DigitsOf(s) == DigitsOf(s[..k]) + DigitsOf(s[k + 1..])
  {
    var tail := s[k..];
    assert s == s[..k] + tail;
    DigitsOfConcat(s[..k], tail);
    assert tail[0] == s[k] && tail[1..] == s[k + 1..];
  }

  /** An already formatted CNPJ is left as it is. */
  lemma FormatFixesShaped(t: string)
    requires Shaped(t)
    ensures Format(t) == t
  {
    DigitsOfPieces(t);
    var c := DigitsOf(t);
    assert c[..2] == t[..2] && c[2..5] == t[3..6] && c[5..8] == t[7..10];
    assert c[8..12] == t[11..15] && c[12..14] == t[16..18];
  }

  /** Removing the punctuation from a formatted CNPJ gives back the digits of the input. */
  lemma NormalizeFormatRoundTrip(cnpj: string)
    requires |DigitsOf(cnpj)| == 14
    ensures Format(cnpj) != [] && DigitsOf(Format(cnpj)) == DigitsOf(cnpj)
  {
    FormatShape(cnpj);
  }

  /** `formatar_cnpj(formatar_cnpj(x)) == formatar_cnpj(x)` for every input. */
  lemma FormatIdempotent(cnpj: string)
    ensures Format(Format(cnpj)) == Format(cnpj)
  {
    if |DigitsOf(cnpj)| == 14 {
      FormatShape(cnpj);
      FormatFixesShaped(Format(cnpj));
    }
  }

  /**
   * Whatever `validar_cnpj` accepts, `formatar_cnpj` formats: the "deve ter 14 dígitos"
   * branch of `adicionar_cnpj` cannot be reached.
   */
  lemma ValidIsFormattable(cnpj: string)
    requires IsValid(cnpj)
    ensures Format(cnpj) != [] && Shaped(Format(cnpj))
  {
    FormatShape(cnpj);
  }
}
