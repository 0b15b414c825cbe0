/**
 * Character classes and string helpers shared by the whole model.
 * Python's `\d`, `\s`, `\w`, `str.strip` and `str.lower` are Unicode-aware;
 * here they are restricted to ASCII.
 */
module Text {

  /** `\d` */
  predicate IsDigit(c: char) { '0' <= c <= '9' }

  /**
   * `\s`, and the characters `str.strip()` removes: space, tab, LF, CR, VT, FF
   * and the four ASCII separators FS, GS, RS and US, which `str.isspace()` counts
   * as whitespace.
   */
  predicate IsSpace(c: char) {
    || c == ' ' || c == '\t' || c == '\n' || c == '\r' || c == '\U{0B}' || c == '\U{0C}'
    || c == '\U{1C}' || c == '\U{1D}' || c == '\U{1E}' || c == '\U{1F}'
  }

  /** `\w`, which decides where `\b` sees a word boundary. */
  predicate IsWordChar(c: char) {
    IsDigit(c) || ('a' <= c <= 'z') || ('A' <= c <= 'Z') || c == '_'
  }

  predicate AllDigits(s: string) { forall i :: 0 <= i < |s| ==> IsDigit(s[i]) }

  predicate AllSpace(s: string) { forall i :: 0 <= i < |s| ==> IsSpace(s[i]) }

  function DigitValue(c: char): (v: nat)
    requires IsDigit(c)
    ensures v <= 9
  {
    (c as int) - ('0' as int)
  }

  function DigitChar(v: nat): (c: char)
    requires v <= 9
    ensures IsDigit(c) && DigitValue(c) == v
  {
    (('0' as int) + v) as char
  }

  /** The number a run of decimal digits denotes, as `int(s)` reads it. */
  function NumberOf(s: string): (n: nat)
    requires AllDigits(s)
  {
    if s == [] then 0 else NumberOf(s[..|s| - 1]) * 10 + DigitValue(s[|s| - 1])
  }

  function Pow10(n: nat): (p: nat)
    ensures p >= 1
  {
    if n == 0 then 1 else 10 * Pow10(n - 1)
  }

  /** A run of `n` digits denotes a number below 10^n. */
  lemma {:induction false} NumberOfBound(s: string)
    requires AllDigits(s)
    ensures NumberOf(s) < Pow10(|s|)
  {
    if s != [] {
      NumberOfBound(s[..|s| - 1]);
    }
  }

  lemma NumberOfTwo(s: string)
    requires |s| == 2 && AllDigits(s)
    ensures NumberOf(s) == 10 * DigitValue(s[0]) + DigitValue(s[1])
  {
    var h := s[..1];
    assert h[..0] == [] && h[0] == s[0];
    assert NumberOf(h) == DigitValue(s[0]);
  }

  lemma NumberOfFour(s: string)
    requires |s| == 4 && AllDigits(s)
    ensures NumberOf(s) == 1000 * DigitValue(s[0]) + 100 * DigitValue(s[1]) + 10 * DigitValue(s[2]) + DigitValue(s[3])
  {
    assert s[..3][..2] == s[..2];
    NumberOfTwo(s[..2]);
  }

  /** `re.sub(r"\D", "", s)`: the digits of `s`, in order. */
  function DigitsOf(s: string): (r: string)
    ensures AllDigits(r) && |r| <= |s|
  {
    if s == [] then [] else (if IsDigit(s[0]) then [s[0]] else []) + DigitsOf(s[1..])
  }

  lemma {:induction false} DigitsOfConcat(a: string, b: string)
    ensures DigitsOf(a + b) == DigitsOf(a) + DigitsOf(b)
  {
    if a == [] {
      assert a + b == b;
    } else {
      assert (a + b)[1..] == a[1..] + b;
      DigitsOfConcat(a[1..], b);
    }
  }

  /** Removing non-digits from a string of digits changes nothing. */
  lemma {:induction false} DigitsOfDigits(s: string)
    requires AllDigits(s)
    ensures DigitsOf(s) == s
  {
    if s != [] {
      DigitsOfDigits(s[1..]);
    }
  }

  /** Removing non-digits from a string without digits leaves nothing. */
  lemma {:induction false} DigitsOfNoDigits(s: string)
    requires forall i :: 0 <= i < |s| ==> !IsDigit(s[i])
    ensures DigitsOf(s) == []
  {
    if s != [] {
      DigitsOfNoDigits(s[1..]);
    }
  }

  /** `s.lstrip()`: the suffix left after the leading run of whitespace. */
  function TrimLeft(s: string): (r: string)
    ensures |r| <= |s| && r == s[|s| - |r|..]
    ensures AllSpace(s[..|s| - |r|])
    ensures r == [] || !IsSpace(r[0])
  {
    var n := SpaceRun(s, 0);
    assert s[..n] == s[0..n];
    s[n..]
  }

  /** Where the run of whitespace that ends at `e` starts. */
  function TrailStart(s: string, e: nat): (b: nat)
    requires e <= |s|
    ensures b <= e && forall k :: b <= k < e ==> IsSpace(s[k])
    ensures b == 0 || !IsSpace(s[b - 1])
    decreases e
  {
    if e > 0 && IsSpace(s[e - 1]) then TrailStart(s, e - 1) else e
  }

  /** `s.rstrip()`: the prefix left before the trailing run of whitespace. */
  function TrimRight(s: string): (r: string)
    ensures |r| <= |s| && r == s[..|r|]
    ensures AllSpace(s[|r|..])
    ensures r == [] || !IsSpace(r[|r| - 1])
  {
    var b := TrailStart(s, |s|);
    assert forall k :: 0 <= k < |s[b..]| ==> s[b..][k] == s[b + k];
    s[..b]
  }

  /** `s.strip()` */
  function Strip(s: string): string {
    TrimRight(TrimLeft(s))
  }

  /** Length of the leading whitespace run that `strip` removes. */
  function LeadingSpace(s: string): (n: nat)
    ensures n <= |s|
  {
    |s| - |TrimLeft(s)|
  }

  /** `strip` keeps the part of `s` between its leading and trailing whitespace runs. */
  lemma StripIsSlice(s: string)
    ensures LeadingSpace(s) + |Strip(s)| <= |s|
    ensures Strip(s) == s[LeadingSpace(s)..LeadingSpace(s) + |Strip(s)|]
    ensures AllSpace(s[..LeadingSpace(s)]) && AllSpace(s[LeadingSpace(s) + |Strip(s)|..])
    ensures Strip(s) == [] || (!IsSpace(Strip(s)[0]) && !IsSpace(Strip(s)[|Strip(s)| - 1]))
  {
    var l := TrimLeft(s);
    var a := |s| - |l|;
    var r := TrimRight(l);
    SuffixSlices(s, a, |r|);
    if r != [] {
      assert r[0] == l[0];
    }
  }

  lemma SuffixSlices(s: string, a: nat, n: nat)
    requires a + n <= |s|
    ensures s[a..][..n] == s[a..a + n] && s[a..][n..] == s[a + n..]
  {
  }

  /** A string is its leading whitespace, its stripped part and its trailing whitespace. */
  lemma StripDecompose(s: string)
    ensures LeadingSpace(s) + |Strip(s)| <= |s|
    ensures s == s[..LeadingSpace(s)] + Strip(s) + s[LeadingSpace(s) + |Strip(s)|..]
    ensures AllSpace(s[..LeadingSpace(s)]) && AllSpace(s[LeadingSpace(s) + |Strip(s)|..])
  {
    StripIsSlice(s);
    var a, m := LeadingSpace(s), Strip(s);
    var b := a + |m|;
    assert s == s[..a] + s[a..b] + s[b..];
  }

  /** Stripping a string already free of outer whitespace changes nothing. */
  lemma StripNoOuterSpace(s: string)
    requires s == [] || (!IsSpace(s[0]) && !IsSpace(s[|s| - 1]))
    ensures Strip(s) == s
  {
  }

  /** Stripping twice is stripping once. */
  lemma StripIdempotent(s: string)
    ensures Strip(Strip(s)) == Strip(s)
  {
    StripIsSlice(s);
    StripNoOuterSpace(Strip(s));
  }

  /** Stripping removes no digit. */
  lemma DigitsOfStrip(s: string)
    ensures DigitsOf(Strip(s)) == DigitsOf(s)
  {
    StripDecompose(s);
    var a, m := LeadingSpace(s), Strip(s);
    DigitsOfPadded(s[..a], m, s[a + |m|..]);
  }

  lemma DigitsOfPadded(pre: string, m: string, post: string)
    requires AllSpace(pre) && AllSpace(post)
    ensures DigitsOf(pre + m + post) == DigitsOf(m)
  {
    DigitsOfConcat(pre + m, post);
    DigitsOfConcat(pre, m);
    DigitsOfNoDigits(pre);
    DigitsOfNoDigits(post);
  }

  /** A string that starts with `k` non-whitespace characters keeps them when stripped. */
  lemma StripKeepsPrefix(s: string, k: nat)
    requires k <= |s| && forall i :: 0 <= i < k ==> !IsSpace(s[i])
    requires k > 0
    ensures k <= |Strip(s)| && Strip(s)[..k] == s[..k]
  {
    assert TrimLeft(s) == s;
    var r := TrimRight(s);
    assert !IsSpace(s[k - 1]);
  }

  /** Whitespace around a core that has no outer whitespace is exactly what `strip` removes. */
  lemma {:induction false} StripPadded(pre: string, core: string, post: string)
    requires AllSpace(pre) && AllSpace(post)
    requires core != [] && !IsSpace(core[0]) && !IsSpace(core[|core| - 1])
    ensures Strip(pre + core + post) == core
  {
    TrimLeftPadded(pre, core + post);
    assert TrimLeft(pre + core + post) == core + post by {
      assert pre + core + post == pre + (core + post);
    }
    TrimRightPadded(core, post);
  }

  lemma TrimLeftPadded(pre: string, rest: string)
    requires AllSpace(pre)
    requires rest == [] || !IsSpace(rest[0])
    ensures TrimLeft(pre + rest) == rest
  {
    var s := pre + rest;
    SpaceRunIs(s, 0, |pre|);
    assert s[|pre|..] == rest;
  }

  lemma TrimRightPadded(core: string, post: string)
    requires AllSpace(post)
    requires core == [] || !IsSpace(core[|core| - 1])
    ensures TrimRight(core + post) == core
  {
    var s := core + post;
    TrailStartIs(s, |core|, |s|);
    assert s[..|core|] == core;
  }

  /** The whitespace run from `p` ends at the first non-whitespace character. */
  lemma {:induction false} SpaceRunIs(s: string, p: nat, q: nat)
    requires p <= q <= |s|
    requires forall k :: p <= k < q ==> IsSpace(s[k])
    requires q == |s| || !IsSpace(s[q])
    ensures SpaceRun(s, p) == q - p
    decreases q - p
  {
    if p < q {
      SpaceRunIs(s, p + 1, q);
    }
  }

  /** The whitespace run ending at `e` starts after the last non-whitespace character. */
  lemma {:induction false} TrailStartIs(s: string, b: nat, e: nat)
    requires b <= e <= |s|
    requires forall k :: b <= k < e ==> IsSpace(s[k])
    requires b == 0 || !IsSpace(s[b - 1])
    ensures TrailStart(s, e) == b
    decreases e - b
  {
    if b < e {
      TrailStartIs(s, b, e - 1);
    }
  }

  /** `str.lower()` on one character. */
  function LowerChar(c: char): (r: char)
    ensures 'A' <= c <= 'Z' ==> 'a' <= r <= 'z'
    ensures !('A' <= c <= 'Z') ==> r == c
  {
    if 'A' <= c <= 'Z' then (c as int + 32) as char else c
  }

  /** `s.lower()` */
  function Lower(s: string): (r: string)
    ensures |r| == |s| && forall i :: 0 <= i < |s| ==> r[i] == LowerChar(s[i])
  {
    seq(|s|, i requires 0 <= i < |s| => LowerChar(s[i]))
  }

  /** `sub` occurs in `s` starting at position `i`. */
  predicate OccursAt(s: string, sub: string, i: nat) {
    i + |sub| <= |s| && s[i..i + |sub|] == sub
  }

  /** `sub in s` */
  predicate Contains(s: string, sub: string) {
    exists i: nat :: i <= |s| && OccursAt(s, sub, i)
  }

  /** Length of the run of whitespace starting at `p` (what a greedy `\s*` takes). */
  function SpaceRun(s: string, p: nat): (n: nat)
    requires p <= |s|
    ensures p + n <= |s| && AllSpace(s[p..p + n])
    ensures p + n == |s| || !IsSpace(s[p + n])
    decreases |s| - p
  {
    if p < |s| && IsSpace(s[p]) then 1 + SpaceRun(s, p + 1) else 0
  }
}
