/**
 * The regular expressions of the DARF extractor, each written as a matcher:
 * a function that, given a text and a start position, says where a match
 * starting there ends (Python's `re` semantics, greedy quantifiers with
 * backtracking). `re.search` is the leftmost start at which the matcher
 * succeeds.
 */
module Patterns {
  import opened Wrappers
  import opened Text
  import Cnpj
  import opened Validators

  /** `m.start()` and `m.end()` of a match. */
  datatype Span = Span(start: nat, end: nat)

  /** A matcher never ends a match before its start or past the end of the text. */
  ghost predicate Bounded(m: (string, nat) -> Option<nat>) {
    forall s: string, i: nat :: m(s, i).Some? ==> i <= m(s, i).value <= |s|
  }

  type Matcher = m: (string, nat) -> Option<nat> | Bounded(m) witness (s: string, i: nat) => None

  /** `re.search` from position `i` on: the leftmost start where `m` matches. */
  function SearchFrom(m: Matcher, s: string, i: nat): (r: Option<Span>)
    requires i <= |s|
    ensures r.Some? ==> i <= r.value.start <= r.value.end <= |s| && m(s, r.value.start) == Some(r.value.end)
    ensures r.Some? ==> forall j :: i <= j < r.value.start ==> m(s, j).None?
    ensures r.None? ==> forall j :: i <= j <= |s| ==> m(s, j).None?
    decreases |s| - i
  {
    match m(s, i)
    case Some(e) => Some(Span(i, e))
    case None => if i == |s| then None else SearchFrom(m, s, i + 1)
  }

  /** The patterns as matchers. */
  const CnpjMatcher: Matcher := CnpjAt
  const ValorMatcher: Matcher := ValorAt
  const TripleMatcher: Matcher := TripleAt
  const NumeroMatcher: Matcher := NumeroAt
  const LinhaMatcher: Matcher := LinhaAt

  /** `re.search(pattern, s)` */
  function Search(m: Matcher, s: string): Option<Span> {
    SearchFrom(m, s, 0)
  }

  // ---------------------------------------------------------------------
  // CNPJ_REGEX: `\d{2}\.\d{3}\.\d{3}/\d{4}-\d{2}`
  // ---------------------------------------------------------------------

  function CnpjAt(s: string, i: nat): (r: Option<nat>)
    ensures r.Some? ==> i <= r.value <= |s|
    ensures r.Some? <==> i + 18 <= |s| && Cnpj.Shaped(s[i..i + 18])
    ensures r.Some? ==> r.value == i + 18
  {
    if i + 18 <= |s| && Cnpj.Shaped(s[i..i + 18]) then Some(i + 18) else None
  }

  // ---------------------------------------------------------------------
  // VALOR_REGEX: `\d{1,3}(?:\.\d{3})*,\d{2}`
  // ---------------------------------------------------------------------

  /** `,\d{2}` at `p`. */
  function CentsAt(s: string, p: nat): (r: Option<nat>)
    ensures r.Some? ==> p <= r.value <= |s|
  {
    if p + 3 <= |s| && s[p] == ',' && IsDigit(s[p + 1]) && IsDigit(s[p + 2]) then Some(p + 3) else None
  }

  /**
   * `(?:\.\d{3})*,\d{2}` at `p`: the greedy star first tries one more group
   * and, when the rest fails after it, backtracks to stopping before it.
   */
  function GroupsThenCentsAt(s: string, p: nat): (r: Option<nat>)
    requires p <= |s|
    ensures r.Some? ==> p <= r.value <= |s|
    decreases |s| - p
  {
    if p + 4 <= |s| && s[p] == '.' && AllDigits(s[p + 1..p + 4]) then
      match GroupsThenCentsAt(s, p + 4)
      case Some(e) => Some(e)
      case None => CentsAt(s, p)
    else CentsAt(s, p)
  }

  /** `\d{1,3}` followed by the rest: the greedy bound tries `k` digits, then fewer. */
  function LeadThenRest(s: string, i: nat, k: nat): (r: Option<nat>)
    requires i <= |s|
    ensures r.Some? ==> i <= r.value <= |s|
    decreases k
  {
    if k == 0 then None
    else if i + k <= |s| && AllDigits(s[i..i + k]) && GroupsThenCentsAt(s, i + k).Some? then
      GroupsThenCentsAt(s, i + k)
    else LeadThenRest(s, i, k - 1)
  }

  function ValorAt(s: string, i: nat): (r: Option<nat>)
    ensures r.Some? ==> i <= r.value <= |s|
  {
    if i <= |s| then LeadThenRest(s, i, 3) else None
  }

  /** What the group-and-cents part matches is a currency tail. */
  lemma {:induction false} GroupsThenCentsSound(s: string, p: nat)
    requires p <= |s| && GroupsThenCentsAt(s, p).Some?
    ensures GroupsAndCents(s[p..GroupsThenCentsAt(s, p).value])
    decreases |s| - p
  {
    var e := GroupsThenCentsAt(s, p).value;
    if p + 4 <= |s| && s[p] == '.' && AllDigits(s[p + 1..p + 4]) && GroupsThenCentsAt(s, p + 4).Some? {
      GroupsThenCentsSound(s, p + 4);
      var u := s[p..e];
      assert u[4..] == s[p + 4..e];
      assert u[1..4] == s[p + 1..p + 4];
    } else {
      var u := s[p..e];
      assert u[1..] == [s[p + 1], s[p + 2]];
    }
  }

  /** Every currency tail starting at `p` is what the group-and-cents part matches there. */
  lemma {:induction false} GroupsThenCentsComplete(s: string, p: nat, e: nat)
    requires p <= e <= |s| && GroupsAndCents(s[p..e])
    ensures GroupsThenCentsAt(s, p) == Some(e)
    decreases e - p
  {
    var u := s[p..e];
    if |u| == 3 && u[0] == ',' {
      assert u[1] == s[p + 1] && u[2] == s[p + 2];
    } else {
      assert |u| > 4 && u[0] == '.' && AllDigits(u[1..4]);
      var g, h := s[p + 1..p + 4], u[1..4];
      forall k | 0 <= k < 3
        ensures IsDigit(g[k])
      {
        assert g[k] == h[k];
      }
      assert s[p + 4..e] == u[4..];
      GroupsThenCentsComplete(s, p + 4, e);
    }
  }

  /** A currency tail begins with a separator. */
  lemma GroupsAndCentsStart(u: string)
    requires GroupsAndCents(u)
    ensures |u| >= 3 && (u[0] == '.' || u[0] == ',')
  {
  }

  /** A match of VALOR_REGEX at `i` spans a currency string. */
  lemma ValorAtSound(s: string, i: nat)
    requires ValorAt(s, i).Some?
    ensures IsCurrency(s[i..ValorAt(s, i).value])
  {
    var e := ValorAt(s, i).value;
    var k := LeadLength(s, i, 3);
    GroupsThenCentsSound(s, i + k);
    var t := s[i..e];
    GroupsAndCentsStart(s[i + k..e]);
    assert t[..k] == s[i..i + k];
    assert t[k..] == s[i + k..e];
    DigitRunAll(t, 0, k);
  }

  /** How many leading digits the successful attempt of the `\d{1,3}` bound took. */
  function LeadLength(s: string, i: nat, k: nat): (n: nat)
    requires i <= |s| && LeadThenRest(s, i, k).Some?
    ensures 1 <= n <= k && i + n <= |s| && AllDigits(s[i..i + n])
    ensures GroupsThenCentsAt(s, i + n) == LeadThenRest(s, i, k)
    decreases k
  {
    if i + k <= |s| && AllDigits(s[i..i + k]) && GroupsThenCentsAt(s, i + k).Some? then k
    else LeadLength(s, i, k - 1)
  }

  /** Every currency string starting at `i` is the match VALOR_REGEX finds there. */
  lemma ValorAtComplete(s: string, i: nat, e: nat)
    requires i <= e <= |s| && IsCurrency(s[i..e])
    ensures ValorAt(s, i) == Some(e)
  {
    var t := s[i..e];
    var k := DigitRun(t, 0);
    GroupsAndCentsStart(t[k..]);
    assert s[i + k..e] == t[k..];
    GroupsThenCentsComplete(s, i + k, e);
    assert s[i..i + k] == t[..k];
    LeadSkipsLonger(s, i, e, k, 3);
  }

  lemma {:induction false} LeadSkipsLonger(s: string, i: nat, e: nat, k: nat, j: nat)
    requires i + k < e <= |s| && 1 <= k <= j
    requires AllDigits(s[i..i + k]) && !IsDigit(s[i + k])
    requires GroupsThenCentsAt(s, i + k) == Some(e)
    ensures LeadThenRest(s, i, j) == Some(e)
    decreases j
  {
    if j > k {
      if i + j <= |s| {
        assert s[i..i + j][k] == s[i + k];
      }
      LeadSkipsLonger(s, i, e, k, j - 1);
    }
  }

  /**
   * VALOR_REGEX matches at `i` exactly the currency strings starting there, so
   * `re.search` returns the currency string with the leftmost start.
   */
  lemma ValorAtIff(s: string, i: nat, e: nat)
    requires i <= e <= |s|
    ensures ValorAt(s, i) == Some(e) <==> IsCurrency(s[i..e])
  {
    if ValorAt(s, i) == Some(e) {
      ValorAtSound(s, i);
    }
    if IsCurrency(s[i..e]) {
      ValorAtComplete(s, i, e);
    }
  }

  /** Whatever VALOR_REGEX finds passes `validar_valor_br`. */
  lemma ValorMatchIsValidAmount(s: string, sp: Span)
    requires Search(ValorMatcher, s) == Some(sp)
    ensures IsCurrency(s[sp.start..sp.end]) && IsValidAmount(s[sp.start..sp.end])
  {
    ValorAtSound(s, sp.start);
    var t := s[sp.start..sp.end];
    StripCurrency(t);
    CurrencyAlwaysParses(t);
  }

  /** A currency string has no outer whitespace. */
  lemma StripCurrency(t: string)
    requires IsCurrency(t)
    ensures Strip(t) == t
  {
    var k := DigitRun(t, 0);
    CentsLast(t[k..]);
    assert t[|t| - 1] == t[k..][|t| - k - 1];
    StripNoOuterSpace(t);
  }

  lemma {:induction false} CentsLast(u: string)
    requires GroupsAndCents(u)
    ensures IsDigit(u[|u| - 1])
    decreases |u|
  {
    if !(|u| == 3 && u[0] == ',') {
      CentsLast(u[4..]);
    }
  }

  /** Searching "1234,56" finds "234,56": four digits cannot start a match. */
  lemma ValorSearchExample()
    ensures Search(ValorMatcher, "1234,56") == Some(Span(1, 7))
  {
    var s := "1234,56";
    assert CentsAt(s, 3).None? && CentsAt(s, 2).None? && CentsAt(s, 1).None?;
    assert GroupsThenCentsAt(s, 3).None? && GroupsThenCentsAt(s, 2).None? && GroupsThenCentsAt(s, 1).None?;
    assert ValorAt(s, 0).None?;
    assert CentsAt(s, 4) == Some(7);
    assert GroupsThenCentsAt(s, 4) == Some(7);
    assert AllDigits(s[1..4]);
    assert ValorAt(s, 1) == Some(7);
  }

  // ---------------------------------------------------------------------
  // `(\d{2}/\d{2}/\d{4})\s+(\d{2}/\d{2}/\d{4})\s+([\d\.\-]+)`
  // ---------------------------------------------------------------------

  /** `DATA_REGEX` (`\d{2}/\d{2}/\d{4}`) at `i`. */
  predicate DateAt(s: string, i: nat) {
    i + 10 <= |s| && DateShaped(s[i..i + 10])
  }

  /** `[\d\.\-]` */
  predicate IsNumberChar(c: char) {
    IsDigit(c) || c == '.' || c == '-'
  }

  /** Length of the run of `[\d\.\-]` starting at `p` (what a greedy `[\d\.\-]+` takes). */
  function NumberRun(s: string, p: nat): (n: nat)
    requires p <= |s|
    ensures p + n <= |s| && forall k :: p <= k < p + n ==> IsNumberChar(s[k])
    ensures p + n == |s| || !IsNumberChar(s[p + n])
    decreases |s| - p
  {
    if p < |s| && IsNumberChar(s[p]) then 1 + NumberRun(s, p + 1) else 0
  }

  /** The three groups of a match: period, due date and document number. */
  datatype Triple = Triple(periodo: string, vencimento: string, numero: string)

  /**
   * Where the groups of the period-line pattern lie when it matches at `i`.
   * Each `\s+` is followed by a digit or `[\d\.\-]`, which no whitespace is,
   * so backtracking never shortens a whitespace run: each takes its whole run.
   * The final greedy `[\d\.\-]+` takes its whole run too.
   */
  function TripleParts(s: string, i: nat): (r: Option<(nat, nat, nat)>)
    ensures r.Some? ==> i + 10 < r.value.0 && r.value.0 + 10 < r.value.1 < r.value.2 <= |s|
    ensures r.Some? ==> DateAt(s, i) && DateAt(s, r.value.0)
    ensures r.Some? ==> AllSpace(s[i + 10..r.value.0]) && AllSpace(s[r.value.0 + 10..r.value.1])
    ensures r.Some? ==> forall k :: r.value.1 <= k < r.value.2 ==> IsNumberChar(s[k])
  {
    if i <= |s| && DateAt(s, i) then
      var k1 := SpaceRun(s, i + 10);
      var j := i + 10 + k1;
      if k1 >= 1 && DateAt(s, j) then
        var k2 := SpaceRun(s, j + 10);
        var p := j + 10 + k2;
        var n := NumberRun(s, p);
        if k2 >= 1 && n >= 1 then Some((j, p, p + n)) else None
      else None
    else None
  }

  function TripleAt(s: string, i: nat): (r: Option<nat>)
    ensures r.Some? ==> i <= r.value <= |s|
  {
    match TripleParts(s, i)
    case None => None
    case Some(parts) => Some(parts.2)
  }

  /** `m.group(1)`, `m.group(2)` and `m.group(3)`. */
  function TripleGroups(s: string, i: nat): (g: Triple)
    requires TripleAt(s, i).Some?
    ensures DateShaped(g.periodo) && DateShaped(g.vencimento) && g.numero != []
  {
    var parts := TripleParts(s, i).value;
    Triple(s[i..i + 10], s[parts.0..parts.0 + 10], s[parts.1..parts.2])
  }

  /**
   * Two dates and a number separated by single spaces, as on the line under the
   * "Período de Apuração" label, match at the start with exactly those groups.
   */
  lemma TripleOfSpacedLine(p: string, d: string, n: string, rest: string)
    requires DateShaped(p) && DateShaped(d) && n != [] && forall k :: 0 <= k < |n| ==> IsNumberChar(n[k])
    requires rest == [] || !IsNumberChar(rest[0])
    ensures TripleAt(p + " " + d + " " + n + rest, 0) == Some(|p| + 1 + |d| + 1 + |n|)
    ensures TripleGroups(p + " " + d + " " + n + rest, 0) == Triple(p, d, n)
  {
    var s := p + " " + d + " " + n + rest;
    TriplePartsSpaced(p, d, n, rest);
    assert s[0..10] == p && s[11..21] == d && s[22..22 + |n|] == n;
  }

  lemma TriplePartsSpaced(p: string, d: string, n: string, rest: string)
    requires DateShaped(p) && DateShaped(d) && n != [] && forall k :: 0 <= k < |n| ==> IsNumberChar(n[k])
    requires rest == [] || !IsNumberChar(rest[0])
    ensures TripleParts(p + " " + d + " " + n + rest, 0) == Some((11, 22, 22 + |n|))
  {
    var s := p + " " + d + " " + n + rest;
    assert DateAt(s, 0) by {
      assert s[0..10] == p;
    }
    assert DateAt(s, 11) by {
      assert s[11..21] == d;
    }
    assert s[11] == d[0] && s[22] == n[0];
    SingleSpace(s, 10);
    SingleSpace(s, 21);
    NumberRunAll(s, 22, 22 + |n|);
  }

  lemma SingleSpace(s: string, p: nat)
    requires p + 1 < |s| && s[p] == ' ' && !IsSpace(s[p + 1])
    ensures SpaceRun(s, p) == 1
  {
    assert SpaceRun(s, p + 1) == 0;
  }

  lemma {:induction false} NumberRunAll(s: string, p: nat, q: nat)
    requires p <= q <= |s| && (forall k :: p <= k < q ==> IsNumberChar(s[k])) && (q == |s| || !IsNumberChar(s[q]))
    ensures NumberRun(s, p) == q - p
    decreases q - p
  {
    if p < q {
      NumberRunAll(s, p + 1, q);
    }
  }

  // ---------------------------------------------------------------------
  // `Número:\s*([\d\.\-]+)`
  // ---------------------------------------------------------------------

  const NumeroLabel := "Número:"

  /**
   * Where the number group lies when the pattern matches at `i`. The greedy
   * `\s*` takes its whole run: giving back whitespace would leave a blank
   * where `[\d\.\-]` is needed.
   */
  function NumeroParts(s: string, i: nat): (r: Option<(nat, nat)>)
    ensures r.Some? ==> i + |NumeroLabel| <= r.value.0 < r.value.1 <= |s|
    ensures r.Some? ==> OccursAt(s, NumeroLabel, i) && AllSpace(s[i + |NumeroLabel|..r.value.0])
    ensures r.Some? ==> forall k :: r.value.0 <= k < r.value.1 ==> IsNumberChar(s[k])
    ensures r.Some? ==> r.value.1 == |s| || !IsNumberChar(s[r.value.1])
  {
    if OccursAt(s, NumeroLabel, i) then
      var p := i + |NumeroLabel| + SpaceRun(s, i + |NumeroLabel|);
      var n := NumberRun(s, p);
      if n >= 1 then Some((p, p + n)) else None
    else None
  }

  function NumeroAt(s: string, i: nat): (r: Option<nat>)
    ensures r.Some? ==> i <= r.value <= |s|
  {
    match NumeroParts(s, i)
    case None => None
    case Some(parts) => Some(parts.1)
  }

  /** `m.group(1)`: the document number after the label. */
  function NumeroGroup(s: string, i: nat): (g: string)
    requires NumeroAt(s, i).Some?
    ensures g != [] && forall k :: 0 <= k < |g| ==> IsNumberChar(g[k])
  {
    var parts := NumeroParts(s, i).value;
    s[parts.0..parts.1]
  }

  // ---------------------------------------------------------------------
  // `re.match(r"\s*(\d{4})\s+(.+)", line)`
  // ---------------------------------------------------------------------

  /** The two groups of a code line: the revenue code and the rest of the line. */
  datatype CodeLine = CodeLine(codigo: string, resto: string)

  /** Length of the run of characters other than a line feed from `p` (what a greedy `.+` takes). */
  function LineRun(s: string, p: nat): (n: nat)
    requires p <= |s|
    ensures p + n <= |s| && forall k :: p <= k < p + n ==> s[k] != '\n'
    ensures p + n == |s| || s[p + n] == '\n'
    decreases |s| - p
  {
    if p < |s| && s[p] != '\n' then 1 + LineRun(s, p + 1) else 0
  }

  /**
   * Backtracking of the greedy `\s+` at `p` before `.+`: it first takes `j`
   * characters, then gives them back one at a time until `.+` can start.
   */
  function RestStart(s: string, p: nat, j: nat): (q: Option<nat>)
    requires p + j <= |s|
    ensures q.Some? ==> p < q.value <= p + j && q.value < |s| && s[q.value] != '\n'
    ensures q.Some? ==> forall k :: q.value < k <= p + j ==> k == |s| || s[k] == '\n'
    ensures q.None? ==> forall k :: p < k <= p + j ==> k == |s| || s[k] == '\n'
    decreases j
  {
    if j == 0 then None
    else if p + j < |s| && s[p + j] != '\n' then Some(p + j)
    else RestStart(s, p, j - 1)
  }

  function MatchCodeLine(s: string): (r: Option<CodeLine>)
    ensures r.Some? ==> |r.value.codigo| == 4 && AllDigits(r.value.codigo)
    ensures r.Some? ==> r.value.resto != [] && forall k :: 0 <= k < |r.value.resto| ==> r.value.resto[k] != '\n'
  {
    var k0 := SpaceRun(s, 0);
    if k0 + 4 <= |s| && AllDigits(s[k0..k0 + 4]) then
      var p := k0 + 4;
      match RestStart(s, p, SpaceRun(s, p))
      case None => None
      case Some(q) => Some(CodeLine(s[k0..p], s[q..q + LineRun(s, q)]))
    else None
  }

  /**
   * On a line without line feeds, the pattern matches exactly when, after the
   * leading whitespace, come four digits, a whitespace character and at least
   * one more character.
   */
  lemma CodeLineIff(s: string)
    requires forall k :: 0 <= k < |s| ==> s[k] != '\n'
    ensures var k0 := SpaceRun(s, 0);
            MatchCodeLine(s).Some? <==>
              k0 + 5 < |s| && AllDigits(s[k0..k0 + 4]) && IsSpace(s[k0 + 4])
  {
    var k0 := SpaceRun(s, 0);
    if k0 + 4 <= |s| && AllDigits(s[k0..k0 + 4]) {
      var p := k0 + 4;
      RestStartWithoutNewline(s, p, SpaceRun(s, p));
    }
  }

  /** Without line feeds, `.+` can start after the whitespace once one more character follows. */
  lemma RestStartWithoutNewline(s: string, p: nat, j: nat)
    requires p + j <= |s| && forall k :: 0 <= k < |s| ==> s[k] != '\n'
    ensures RestStart(s, p, j).Some? <==> j >= 1 && p + 1 < |s|
  {
  }

  // ---------------------------------------------------------------------
  // LINHA_DIGITAVEL_REGEX:
  // `\b([89]\d{4}\d{7}\s\d\s\d{11}\s\d\s\d{11}\s\d\s\d{11}\s\d)\b`
  // ---------------------------------------------------------------------

  /** Positions of the seven `\s` in the 56 characters of a barcode line. */
  predicate IsGapSlot(k: int) {
    k == 12 || k == 14 || k == 26 || k == 28 || k == 40 || k == 42 || k == 54
  }

  /** The 56-character shape: 8 or 9, digits, and single whitespace characters at the gap slots. */
  predicate LinhaShaped(t: string) {
    && |t| == 56
    && (t[0] == '8' || t[0] == '9')
    && forall k :: 0 <= k < 56 ==> if IsGapSlot(k) then IsSpace(t[k]) else IsDigit(t[k])
  }

  /** The match at `i`; both `\b` hold because the match starts and ends with a digit. */
  function LinhaAt(s: string, i: nat): (r: Option<nat>)
    ensures r.Some? ==> i <= r.value <= |s|
    ensures r.Some? <==>
      && i + 56 <= |s| && LinhaShaped(s[i..i + 56])
      && (i == 0 || !IsWordChar(s[i - 1]))
      && (i + 56 == |s| || !IsWordChar(s[i + 56]))
  {
    if && i + 56 <= |s| && LinhaShaped(s[i..i + 56])
       && (i == 0 || !IsWordChar(s[i - 1]))
       && (i + 56 == |s| || !IsWordChar(s[i + 56]))
    then Some(i + 56)
    else None
  }

  /** `re.match(r"^[89]\d{4}", line) and len(re.sub(r"\D", "", line)) >= 40`: the barcode fallback. */
  predicate LinhaFallback(line: string) {
    && |line| >= 5
    && (line[0] == '8' || line[0] == '9')
    && AllDigits(line[1..5])
    && |DigitsOf(line)| >= 40
  }
}
