/**
 * The field extractors of the DARF parser. Each works on the normalised,
 * non-blank lines of the first page and returns the values it found together
 * with an error message for each value it could not find or could not accept.
 * Each extractor is a specification function with the properties the parser
 * promises, and a method with the parser's scanning loops proved equal to it.
 */
module Extract {
  import opened Wrappers
  import opened Text
  import Cnpj
  import opened Validators
  import opened Patterns
  import opened Lines

  const PeriodoLabel := "Período de Apuração"
  const ValorLabel := "Valor Total do Documento"
  const ValorFallbackLabel := "Valor:"
  const ComposicaoLabel := "Composição do Documento de Arrecadação"

  const CnpjNaoEncontrado := "CNPJ não encontrado no texto."
  const CnpjInvalido := "CNPJ encontrado, porém inválido pelos dígitos verificadores."
  const RazaoNaoEncontrada := "Razão social não encontrada na linha do CNPJ."
  const PeriodoNaoEncontrado := "Período de apuração não encontrado."
  const PeriodoInvalido := "Período de apuração com formato inválido."
  const VencimentoNaoEncontrado := "Data de vencimento não encontrada."
  const VencimentoInvalido := "Data de vencimento com formato inválido."
  const NumeroNaoEncontrado := "Número do documento não encontrado."
  const ValorNaoEncontrado := "Valor total do documento não encontrado."
  const ValorInvalido := "Valor total do documento com formato inválido."
  const CodigoNaoEncontrado := "Código não encontrado na composição do documento."
  const DenominacaoVazia := "Denominação não encontrada ou vazia."
  const LinhaNaoEncontrada := "Linha digitável não encontrada."

  // ---------------------------------------------------------------------
  // Finding the first line with a property
  // ---------------------------------------------------------------------

  /** Index of the first line at or after `i` that satisfies `p`. */
  function FirstLineFrom(lines: seq<string>, p: string -> bool, i: nat): (r: Option<nat>)
    requires i <= |lines|
    ensures r.Some? ==> i <= r.value < |lines| && p(lines[r.value])
    ensures r.Some? ==> forall j :: i <= j < r.value ==> !p(lines[j])
    ensures r.None? ==> forall j :: i <= j < |lines| ==> !p(lines[j])
    decreases |lines| - i
  {
    if i == |lines| then None
    else if p(lines[i]) then Some(i)
    else FirstLineFrom(lines, p, i + 1)
  }

  function FirstLine(lines: seq<string>, p: string -> bool): Option<nat> {
    FirstLineFrom(lines, p, 0)
  }

  /** `substring in line` */
  function HasSubstring(substring: string): string -> bool {
    line => Contains(line, substring)
  }

  /** `pattern.search(line)` succeeds. */
  function Finds(m: Matcher): string -> bool {
    line => Search(m, line).Some?
  }

  /** The first line satisfying `p` is determined by the lines before it. */
  lemma FirstLineIs(lines: seq<string>, p: string -> bool, i: nat, k: nat)
    requires i <= k < |lines| && p(lines[k])
    requires forall j :: i <= j < k ==> !p(lines[j])
    ensures FirstLineFrom(lines, p, i) == Some(k)
  {
  }

  /** `encontrar_primeira_linha_com`: index and content of the first line containing `substring`. */
  method FindFirstLineWith(lines: seq<string>, substring: string) returns (idx: Option<nat>, line: Option<string>)
    ensures idx == FirstLine(lines, HasSubstring(substring))
    ensures idx.Some? ==> idx.value < |lines| && Contains(lines[idx.value], substring)
    ensures idx.Some? ==> forall j :: 0 <= j < idx.value ==> !Contains(lines[j], substring)
    ensures idx.None? <==> forall j :: 0 <= j < |lines| ==> !Contains(lines[j], substring)
    ensures line == if idx.Some? then Some(lines[idx.value]) else None
  {
    for i := 0 to |lines|
      invariant forall j :: 0 <= j < i ==> !Contains(lines[j], substring)
    {
      if Contains(lines[i], substring) {
        FirstLineIs(lines, HasSubstring(substring), 0, i);
        return Some(i), Some(lines[i]);
      }
    }
    return None, None;
  }

  /** The text of the leftmost match of `m` in `line`. */
  function MatchText(m: Matcher, line: string): string
    requires Search(m, line).Some?
  {
    var sp := Search(m, line).value;
    line[sp.start..sp.end]
  }

  // ---------------------------------------------------------------------
  // CNPJ and company name
  // ---------------------------------------------------------------------

  datatype CnpjResult = CnpjResult(
    cnpj: Option<string>, cnpjErro: Option<string>,
    razaoSocial: Option<string>, razaoSocialErro: Option<string>)

  /**
   * The CNPJ is the first CNPJ-shaped token of the first line that has one,
   * and the company name is the rest of that line, stripped.
   */
  function CnpjAndName(lines: seq<string>): (r: CnpjResult)
    ensures r.cnpj.None? <==> forall k :: 0 <= k < |lines| ==> Search(CnpjMatcher, lines[k]).None?
    ensures r.cnpj.Some? ==> Cnpj.Shaped(r.cnpj.value)
    ensures r.cnpjErro == if r.cnpj.None? then Some(CnpjNaoEncontrado)
                          else if Cnpj.IsValid(r.cnpj.value) then None
                          else Some(CnpjInvalido)
    ensures r.razaoSocial.None? <==> r.cnpj.None?
    ensures r.razaoSocial.Some? ==> Strip(r.razaoSocial.value) == r.razaoSocial.value
    ensures r.razaoSocialErro == if r.razaoSocial.None? then Some(RazaoNaoEncontrada) else None
  {
    match FirstLine(lines, Finds(CnpjMatcher))
    case None => CnpjResult(None, Some(CnpjNaoEncontrado), None, Some(RazaoNaoEncontrada))
    case Some(k) =>
      var line := lines[k];
      var sp := Search(CnpjMatcher, line).value;
      var value := line[sp.start..sp.end];
      var razao := Strip(line[sp.end..]);
      StripIdempotent(line[sp.end..]);
      CnpjResult(Some(value), if Cnpj.IsValid(value) then None else Some(CnpjInvalido), Some(razao), None)
  }

  /** The CNPJ and the name come from the first line with a CNPJ-shaped token, whatever follows. */
  lemma CnpjFromFirstLine(lines: seq<string>, k: nat)
    requires k < |lines| && Search(CnpjMatcher, lines[k]).Some?
    requires forall j :: 0 <= j < k ==> Search(CnpjMatcher, lines[j]).None?
    ensures var sp := Search(CnpjMatcher, lines[k]).value;
            && CnpjAndName(lines).cnpj == Some(lines[k][sp.start..sp.end])
            && CnpjAndName(lines).razaoSocial == Some(Strip(lines[k][sp.end..]))
  {
    FirstLineIs(lines, Finds(CnpjMatcher), 0, k);
  }

  /** `extrair_cnpj_e_razao_social` */
  method ExtractCnpjAndName(lines: seq<string>) returns (r: CnpjResult)
    ensures r == CnpjAndName(lines)
  {
    var value: Option<string> := None;
    var razao: Option<string> := None;
    var i := 0;
    while i < |lines|
      invariant i <= |lines| && value.None? && razao.None?
      invariant forall j :: 0 <= j < i ==> Search(CnpjMatcher, lines[j]).None?
    {
      var m := Search(CnpjMatcher, lines[i]);
      if m.Some? {
        value := Some(lines[i][m.value.start..m.value.end]);
        razao := Some(Strip(lines[i][m.value.end..]));
        break;
      }
      i := i + 1;
    }
    if value.Some? {
      CnpjFromFirstLine(lines, i);
    }
    var erro: Option<string> := None;
    if value.None? {
      erro := Some(CnpjNaoEncontrado);
    } else if !Cnpj.IsValid(value.value) {
      erro := Some(CnpjInvalido);
    }
    var erroRazao: Option<string> := None;
    if razao.None? {
      erroRazao := Some(RazaoNaoEncontrada);
    }
    r := CnpjResult(value, erro, razao, erroRazao);
  }

  // ---------------------------------------------------------------------
  // Period, due date and document number
  // ---------------------------------------------------------------------

  datatype PeriodResult = PeriodResult(
    periodo: Option<string>, periodoErro: Option<string>,
    vencimento: Option<string>, vencimentoErro: Option<string>,
    numero: Option<string>, numeroErro: Option<string>)

  /** The line right after the first line containing `caption`, when there is one. */
  function LineAfterLabel(lines: seq<string>, caption: string): Option<string> {
    match FirstLine(lines, HasSubstring(caption))
    case None => None
    case Some(k) => if k + 1 < |lines| then Some(lines[k + 1]) else None
  }

  /** The three groups of the first date-date-number match on the line after the period label. */
  function PeriodLine(lines: seq<string>): Option<Triple> {
    match LineAfterLabel(lines, PeriodoLabel)
    case None => None
    case Some(line) =>
      match Search(TripleMatcher, line)
      case None => None
      case Some(sp) => Some(TripleGroups(line, sp.start))
  }

  /** The number after `Número:` on the first line that has one. */
  function NumeroFallback(lines: seq<string>): (r: Option<string>)
    ensures r.Some? ==> r.value != [] && forall k :: 0 <= k < |r.value| ==> IsNumberChar(r.value[k])
    ensures r.None? <==> forall k :: 0 <= k < |lines| ==> Search(NumeroMatcher, lines[k]).None?
  {
    match FirstLine(lines, Finds(NumeroMatcher))
    case None => None
    case Some(k) => Some(NumeroGroup(lines[k], Search(NumeroMatcher, lines[k]).value.start))
  }

  /** The error for a date: missing, or present but not a calendar date. */
  function DateError(date: Option<string>, missing: string, invalid: string): (e: Option<string>)
    ensures date.None? ==> e == Some(missing)
    ensures date.Some? ==> (e.None? <==> IsValidDate(date.value)) && (e.Some? ==> e.value == invalid)
  {
    if date.None? then Some(missing)
    else if IsValidDate(date.value) then None
    else Some(invalid)
  }

  /**
   * Period and due date come only from the line right after the label, and
   * always together; the number comes from that line too, and otherwise from
   * the first `Número:` line.
   */
  function PeriodDueNumber(lines: seq<string>): (r: PeriodResult)
    ensures r.periodo.Some? <==> r.vencimento.Some?
    ensures r.periodo.Some? <==>
              LineAfterLabel(lines, PeriodoLabel).Some? && Search(TripleMatcher, LineAfterLabel(lines, PeriodoLabel).value).Some?
    ensures r.periodo.Some? ==> DateShaped(r.periodo.value) && DateShaped(r.vencimento.value)
    ensures r.periodo.Some? ==> r.numero.Some?
    ensures r.periodo.None? ==> r.numero == NumeroFallback(lines)
    ensures r.numero.Some? ==> r.numero.value != [] && forall k :: 0 <= k < |r.numero.value| ==> IsNumberChar(r.numero.value[k])
    ensures r.periodoErro == DateError(r.periodo, PeriodoNaoEncontrado, PeriodoInvalido)
    ensures r.vencimentoErro == DateError(r.vencimento, VencimentoNaoEncontrado, VencimentoInvalido)
    ensures r.numeroErro == if r.numero.None? then Some(NumeroNaoEncontrado) else None
  {
    match PeriodLine(lines)
    case Some(g) =>
      PeriodResult(
        Some(g.periodo), DateError(Some(g.periodo), PeriodoNaoEncontrado, PeriodoInvalido),
        Some(g.vencimento), DateError(Some(g.vencimento), VencimentoNaoEncontrado, VencimentoInvalido),
        Some(g.numero), None)
    case None =>
      var n := NumeroFallback(lines);
      PeriodResult(None, Some(PeriodoNaoEncontrado), None, Some(VencimentoNaoEncontrado),
                   n, if n.None? then Some(NumeroNaoEncontrado) else None)
  }

  /**
   * When the line after the first label line starts with two dates and a
   * number separated by single spaces, those are the period, the due date and
   * the document number.
   */
  lemma PeriodFromSpacedLine(lines: seq<string>, k: nat, p: string, d: string, n: string, rest: string)
    requires k + 1 < |lines| && Contains(lines[k], PeriodoLabel)
    requires forall j :: 0 <= j < k ==> !Contains(lines[j], PeriodoLabel)
    requires lines[k + 1] == p + " " + d + " " + n + rest
    requires DateShaped(p) && DateShaped(d)
    requires n != [] && forall t :: 0 <= t < |n| ==> IsNumberChar(n[t])
    requires rest == [] || !IsNumberChar(rest[0])
    ensures PeriodDueNumber(lines).periodo == Some(p)
    ensures PeriodDueNumber(lines).vencimento == Some(d)
    ensures PeriodDueNumber(lines).numero == Some(n)
  {
    var has := HasSubstring(PeriodoLabel);
    assert forall j :: 0 <= j < k ==> !has(lines[j]);
    FirstLineIs(lines, has, 0, k);
    var line := lines[k + 1];
    assert LineAfterLabel(lines, PeriodoLabel) == Some(line);
    TripleOfSpacedLine(p, d, n, rest);
    assert TripleMatcher(line, 0).Some?;
    assert Search(TripleMatcher, line).value.start == 0;
    assert PeriodLine(lines) == Some(Triple(p, d, n));
  }

  /**
   * Whatever the position of the match on the line after the first label line,
   * the three values are that match's groups.
   */
  lemma PeriodFromLineAfterLabel(lines: seq<string>, k: nat, sp: Span)
    requires k + 1 < |lines| && Contains(lines[k], PeriodoLabel)
    requires forall j :: 0 <= j < k ==> !Contains(lines[j], PeriodoLabel)
    requires Search(TripleMatcher, lines[k + 1]) == Some(sp)
    ensures var g := TripleGroups(lines[k + 1], sp.start);
            && PeriodDueNumber(lines).periodo == Some(g.periodo)
            && PeriodDueNumber(lines).vencimento == Some(g.vencimento)
            && PeriodDueNumber(lines).numero == Some(g.numero)
  {
    var has := HasSubstring(PeriodoLabel);
    assert forall j :: 0 <= j < k ==> !has(lines[j]);
    FirstLineIs(lines, has, 0, k);
    assert LineAfterLabel(lines, PeriodoLabel) == Some(lines[k + 1]);
  }

  /** The fallback number is the capture on the first line with a `Número:` match. */
  lemma NumeroFromFirstLine(lines: seq<string>, k: nat)
    requires k < |lines| && Search(NumeroMatcher, lines[k]).Some?
    requires forall j :: 0 <= j < k ==> Search(NumeroMatcher, lines[j]).None?
    ensures NumeroFallback(lines) == Some(NumeroGroup(lines[k], Search(NumeroMatcher, lines[k]).value.start))
  {
    FirstLineIs(lines, Finds(NumeroMatcher), 0, k);
  }

  /** The line after the first line containing `caption`, found with the line search. */
  method FindLineAfter(lines: seq<string>, caption: string) returns (line: Option<string>)
    ensures line == LineAfterLabel(lines, caption)
  {
    var idx, _ := FindFirstLineWith(lines, caption);
    line := None;
    if idx.Some? && idx.value + 1 < |lines| {
      line := Some(lines[idx.value + 1]);
    }
  }

  /** The line of a DARF under the period label gives all three values, without errors. */
  lemma PeriodLineExample()
    ensures PeriodDueNumber([PeriodoLabel, "30/09/2025 20/10/2025 07.01.25275.0746065-9"])
            == PeriodResult(Some("30/09/2025"), None, Some("20/10/2025"), None, Some("07.01.25275.0746065-9"), None)
  {
    var p, d, n := "30/09/2025", "20/10/2025", "07.01.25275.0746065-9";
    ExampleParts();
    LabelContainsItself(PeriodoLabel);
    PeriodFromSpacedLine([PeriodoLabel, p + " " + d + " " + n + ""], 0, p, d, n, "");
    ExampleLine();
  }

  lemma LabelContainsItself(s: string)
    ensures Contains(s, s)
  {
    assert OccursAt(s, s, 0);
  }

  lemma ExampleLine()
    ensures "30/09/2025" + " " + "20/10/2025" + " " + "07.01.25275.0746065-9" + ""
            == "30/09/2025 20/10/2025 07.01.25275.0746065-9"
  {
  }

  lemma ExampleParts()
    ensures IsValidDate("30/09/2025") && IsValidDate("20/10/2025")
    ensures DateShaped("30/09/2025") && DateShaped("20/10/2025")
    ensures forall t :: 0 <= t < |"07.01.25275.0746065-9"| ==> IsNumberChar("07.01.25275.0746065-9"[t])
  {
    ExamplePeriod();
    ExampleDue();
    ExampleNumber();
  }

  lemma ExamplePeriod()
    ensures IsValidDate("30/09/2025") && DateShaped("30/09/2025")
  {
    DateExample("30/09/2025", 30, 9, 2025);
  }

  lemma ExampleDue()
    ensures IsValidDate("20/10/2025") && DateShaped("20/10/2025")
  {
    DateExample("20/10/2025", 20, 10, 2025);
  }

  lemma ExampleNumber()
    ensures forall t :: 0 <= t < |"07.01.25275.0746065-9"| ==> IsNumberChar("07.01.25275.0746065-9"[t])
  {
  }

  /** The main strategy: the date-date-number match on the line after the label. */
  method FindPeriodLine(lines: seq<string>) returns (g: Option<Triple>)
    ensures g == PeriodLine(lines)
  {
    g := None;
    var valores := FindLineAfter(lines, PeriodoLabel);
    if valores.Some? {
      var m := Search(TripleMatcher, valores.value);
      if m.Some? {
        g := Some(TripleGroups(valores.value, m.value.start));
      }
    }
  }

  /** The fallback: the number after `Número:` on the first line that has one. */
  method FindNumero(lines: seq<string>) returns (numero: Option<string>)
    ensures numero == NumeroFallback(lines)
  {
    numero := None;
    var i := 0;
    while i < |lines|
      invariant i <= |lines| && numero.None?
      invariant forall j :: 0 <= j < i ==> Search(NumeroMatcher, lines[j]).None?
    {
      var m := Search(NumeroMatcher, lines[i]);
      if m.Some? {
        numero := Some(NumeroGroup(lines[i], m.value.start));
        FirstLineIs(lines, Finds(NumeroMatcher), 0, i);
        break;
      }
      i := i + 1;
    }
  }

  /** `extrair_periodo_vencimento_numdoc` */
  method ExtractPeriodDueNumber(lines: seq<string>) returns (r: PeriodResult)
    ensures r == PeriodDueNumber(lines)
  {
    var periodo: Option<string> := None;
    var vencimento: Option<string> := None;
    var numero: Option<string> := None;
    var g := FindPeriodLine(lines);
    if g.Some? {
      periodo := Some(g.value.periodo);
      vencimento := Some(g.value.vencimento);
      numero := Some(g.value.numero);
    }
    if numero.None? {
      numero := FindNumero(lines);
    }
    var periodoErro: Option<string> := None;
    if periodo.None? {
      periodoErro := Some(PeriodoNaoEncontrado);
    } else if !IsValidDate(periodo.value) {
      periodoErro := Some(PeriodoInvalido);
    }
    var vencimentoErro: Option<string> := None;
    if vencimento.None? {
      vencimentoErro := Some(VencimentoNaoEncontrado);
    } else if !IsValidDate(vencimento.value) {
      vencimentoErro := Some(VencimentoInvalido);
    }
    var numeroErro: Option<string> := None;
    if numero.None? {
      numeroErro := Some(NumeroNaoEncontrado);
    }
    r := PeriodResult(periodo, periodoErro, vencimento, vencimentoErro, numero, numeroErro);
  }

  // ---------------------------------------------------------------------
  // Total amount
  // ---------------------------------------------------------------------

  datatype ValorResult = ValorResult(valor: Option<string>, erro: Option<string>)

  /** The amount VALOR_REGEX finds on a line. */
  function ValorText(line: string): (t: string)
    requires Search(ValorMatcher, line).Some?
    ensures IsCurrency(t) && IsValidAmount(t)
  {
    ValorMatchIsValidAmount(line, Search(ValorMatcher, line).value);
    MatchText(ValorMatcher, line)
  }

  /** The up to three lines that follow the first line containing the total's label. */
  function CandidateLines(lines: seq<string>): (c: seq<string>)
    ensures |c| <= 3
    ensures FirstLine(lines, HasSubstring(ValorLabel)).None? ==> c == []
    ensures FirstLine(lines, HasSubstring(ValorLabel)).Some? ==>
              var k := FirstLine(lines, HasSubstring(ValorLabel)).value;
              && k + 1 + |c| <= |lines| && c == lines[k + 1..k + 1 + |c|]
              && (|c| == 3 || k + 1 + |c| == |lines|)
  {
    match FirstLine(lines, HasSubstring(ValorLabel))
    case None => []
    case Some(k) => if k + 4 <= |lines| then lines[k + 1..k + 4] else lines[k + 1..]
  }

  /** The amount on the first candidate line that has one. */
  function PrimaryValor(lines: seq<string>): (r: Option<string>)
    ensures r.None? <==> forall t :: 0 <= t < |CandidateLines(lines)| ==> Search(ValorMatcher, CandidateLines(lines)[t]).None?
    ensures r.Some? ==> IsCurrency(r.value) && IsValidAmount(r.value)
  {
    var c := CandidateLines(lines);
    match FirstLine(c, Finds(ValorMatcher))
    case None => None
    case Some(t) => Some(ValorText(c[t]))
  }

  /** A line of the fallback: it contains `Valor:` and an amount. */
  predicate IsValorLine(line: string) {
    Contains(line, ValorFallbackLabel) && Search(ValorMatcher, line).Some?
  }

  /** The amount on the first line that contains `Valor:` and an amount. */
  function FallbackValor(lines: seq<string>): (r: Option<string>)
    ensures r.None? <==> forall k :: 0 <= k < |lines| ==> !IsValorLine(lines[k])
    ensures r.Some? ==> IsCurrency(r.value) && IsValidAmount(r.value)
  {
    match FirstLine(lines, IsValorLine)
    case None => None
    case Some(k) => Some(ValorText(lines[k]))
  }

  /**
   * The total is read near its label, and otherwise from a `Valor:` line.
   * Whatever is found is a well-formed amount, so the "invalid format" error
   * never arises.
   */
  function ValorTotal(lines: seq<string>): (r: ValorResult)
    ensures r.valor.Some? ==> IsCurrency(r.valor.value) && IsValidAmount(r.valor.value)
    ensures r.erro == if r.valor.None? then Some(ValorNaoEncontrado) else None
    ensures r.erro != Some(ValorInvalido)
    ensures r.valor.None? <==>
              && (forall t :: 0 <= t < |CandidateLines(lines)| ==> Search(ValorMatcher, CandidateLines(lines)[t]).None?)
              && (forall k :: 0 <= k < |lines| ==> !IsValorLine(lines[k]))
    ensures PrimaryValor(lines).Some? ==> r.valor == PrimaryValor(lines)
    ensures PrimaryValor(lines).None? ==> r.valor == FallbackValor(lines)
  {
    var valor := if PrimaryValor(lines).Some? then PrimaryValor(lines) else FallbackValor(lines);
    ValorResult(valor,
                if valor.None? then Some(ValorNaoEncontrado)
                else if IsValidAmount(valor.value) then None
                else Some(ValorInvalido))
  }

  /**
   * When one of the three lines after the first label line holds an amount,
   * the total is the match on the first of them that does.
   */
  lemma ValorFromCandidate(lines: seq<string>, k: nat, i: nat)
    requires k < |lines| && Contains(lines[k], ValorLabel)
    requires forall j :: 0 <= j < k ==> !Contains(lines[j], ValorLabel)
    requires k < i <= k + 3 && i < |lines| && Search(ValorMatcher, lines[i]).Some?
    requires forall j :: k < j < i ==> Search(ValorMatcher, lines[j]).None?
    ensures PrimaryValor(lines) == Some(MatchText(ValorMatcher, lines[i]))
    ensures ValorTotal(lines).valor == Some(MatchText(ValorMatcher, lines[i]))
  {
    var has := HasSubstring(ValorLabel);
    assert forall j :: 0 <= j < k ==> !has(lines[j]);
    FirstLineIs(lines, has, 0, k);
    var c := CandidateLines(lines);
    var t := i - k - 1;
    assert t < |c| && c[t] == lines[i];
    forall u | 0 <= u < t
      ensures !Finds(ValorMatcher)(c[u])
    {
      assert c[u] == lines[k + 1 + u];
    }
    FirstLineIs(c, Finds(ValorMatcher), 0, t);
  }

  /**
   * When no candidate line holds an amount, the total is the match on the
   * first line that contains `Valor:` and an amount.
   */
  lemma ValorFromValorLine(lines: seq<string>, k: nat)
    requires forall t :: 0 <= t < |CandidateLines(lines)| ==> Search(ValorMatcher, CandidateLines(lines)[t]).None?
    requires k < |lines| && IsValorLine(lines[k])
    requires forall j :: 0 <= j < k ==> !IsValorLine(lines[j])
    ensures FallbackValor(lines) == Some(MatchText(ValorMatcher, lines[k]))
    ensures ValorTotal(lines).valor == Some(MatchText(ValorMatcher, lines[k]))
  {
    FirstLineIs(lines, IsValorLine, 0, k);
  }

  /** `extrair_valor_total` */
  method ExtractValorTotal(lines: seq<string>) returns (r: ValorResult)
    ensures r == ValorTotal(lines)
  {
    var valor := FindPrimaryValor(lines);
    if valor.None? {
      valor := FindFallbackValor(lines);
    }
    var erro: Option<string> := None;
    if valor.None? {
      erro := Some(ValorNaoEncontrado);
    } else if !IsValidAmount(valor.value) {
      erro := Some(ValorInvalido);
    }
    r := ValorResult(valor, erro);
  }

  /** The lines `idx + 1` to `idx + 3` after the label line, those that exist. */
  method CollectCandidates(lines: seq<string>) returns (candidates: seq<string>)
    ensures candidates == CandidateLines(lines)
  {
    var idx, _ := FindFirstLineWith(lines, ValorLabel);
    candidates := [];
    if idx.Some? {
      for offset := 1 to 4
        invariant candidates == lines[idx.value + 1..Min(idx.value + offset, |lines|)]
      {
        if idx.value + offset < |lines| {
          candidates := candidates + [lines[idx.value + offset]];
        }
      }
    }
  }

  method FindPrimaryValor(lines: seq<string>) returns (valor: Option<string>)
    ensures valor == PrimaryValor(lines)
  {
    var candidates := CollectCandidates(lines);
    valor := None;
    for t := 0 to |candidates|
      invariant forall u :: 0 <= u < t ==> Search(ValorMatcher, candidates[u]).None?
    {
      if Search(ValorMatcher, candidates[t]).Some? {
        FirstLineIs(candidates, Finds(ValorMatcher), 0, t);
        return Some(ValorText(candidates[t]));
      }
    }
  }

  method FindFallbackValor(lines: seq<string>) returns (valor: Option<string>)
    ensures valor == FallbackValor(lines)
  {
    valor := None;
    for k := 0 to |lines|
      invariant forall j :: 0 <= j < k ==> !IsValorLine(lines[j])
    {
      if Contains(lines[k], ValorFallbackLabel) {
        if Search(ValorMatcher, lines[k]).Some? {
          FirstLineIs(lines, IsValorLine, 0, k);
          return Some(ValorText(lines[k]));
        }
      }
    }
  }

  function Min(a: int, b: int): int {
    if a <= b then a else b
  }

  // ---------------------------------------------------------------------
  // Revenue code and its description
  // ---------------------------------------------------------------------

  datatype CodigoResult = CodigoResult(
    codigo: Option<string>, codigoErro: Option<string>,
    denominacao: Option<string>, denominacaoErro: Option<string>)

  /** `re.match(r"\s*(\d{4})\s+(.+)", line)` succeeds. */
  predicate IsCodeLine(line: string) {
    MatchCodeLine(line).Some?
  }

  /** On a normalised line, a code line is four digits, a space and the rest of the line. */
  lemma CodeLineOfClean(line: string)
    requires Clean(line)
    ensures IsCodeLine(line) <==> |line| > 5 && AllDigits(line[..4]) && line[4] == ' '
    ensures IsCodeLine(line) ==> MatchCodeLine(line).value == CodeLine(line[..4], line[5..])
  {
    assert SpaceRun(line, 0) == 0;
    if |line| >= 5 && AllDigits(line[..4]) && IsSpace(line[4]) {
      assert |line| > 5;
      assert !IsSpace(line[5]);
      assert SpaceRun(line, 4) == 1;
      assert forall k :: 5 <= k < |line| ==> line[k] != '\n';
      assert LineRun(line, 5) == |line| - 5;
    } else {
      CodeLineIff(line);
    }
  }

  /** The first code line after the first line containing the composition label. */
  function CodeLineAfterLabel(lines: seq<string>): (c: Option<CodeLine>)
    ensures c.Some? ==> |c.value.codigo| == 4 && AllDigits(c.value.codigo)
  {
    match FirstLine(lines, HasSubstring(ComposicaoLabel))
    case None => None
    case Some(k) =>
      match FirstLineFrom(lines, IsCodeLine, k + 1)
      case None => None
      case Some(j) => MatchCodeLine(lines[j])
  }

  /** A description has no outer whitespace and contains no amount. */
  predicate IsDescription(d: string) {
    Strip(d) == d && Search(ValorMatcher, d).None?
  }

  /**
   * The description: the rest of the code line up to its first amount, or the
   * whole rest when it has none, stripped. It holds no amount and no outer
   * whitespace.
   */
  function Denomination(resto: string): (d: string)
    ensures IsDescription(d)
  {
    match Search(ValorMatcher, resto)
    case Some(sp) =>
      StripIdempotent(resto[..sp.start]);
      NoValorBefore(resto, sp);
      Strip(resto[..sp.start])
    case None =>
      StripIdempotent(resto);
      NoValorAnywhere(resto);
      Strip(resto)
  }

  /**
   * The description is the rest stripped up to the first position where an
   * amount starts, or the whole rest stripped when no amount starts anywhere.
   */
  lemma DenominationIsPrefix(resto: string, j: nat)
    requires j <= |resto|
    requires forall k :: 0 <= k < j ==> ValorMatcher(resto, k).None?
    requires j == |resto| || ValorMatcher(resto, j).Some?
    ensures Denomination(resto) == Strip(resto[..j])
  {
    match Search(ValorMatcher, resto)
    case Some(sp) =>
      assert sp.start == j;
    case None =>
      assert j == |resto|;
      assert resto[..j] == resto;
  }

  /** A match inside a slice of a text makes the text match no later than the slice ends. */
  lemma ValorInSlice(x: string, a: nat, b: nat)
    requires a <= b <= |x| && Search(ValorMatcher, x[a..b]).Some?
    ensures Search(ValorMatcher, x).Some? && Search(ValorMatcher, x).value.start < b
  {
    var sp := Search(ValorMatcher, x[a..b]).value;
    ValorAtShift(x, a, b, sp.start, sp.end);
    SearchFindsAt(ValorMatcher, x, a + sp.start);
  }

  /** A VALOR_REGEX match inside a slice is a match in the whole text. */
  lemma ValorAtShift(x: string, a: nat, b: nat, i: nat, e: nat)
    requires a <= b <= |x| && i <= e <= b - a
    requires ValorMatcher(x[a..b], i) == Some(e)
    ensures ValorMatcher(x, a + i) == Some(a + e)
  {
    SliceOfSlice(x, a, b, i, e);
    ValorAtIff(x[a..b], i, e);
    ValorAtIff(x, a + i, a + e);
  }

  /** A matcher that matches at `i` makes the search succeed at `i` or before. */
  lemma SearchFindsAt(m: Matcher, s: string, i: nat)
    requires i <= |s| && m(s, i).Some?
    ensures Search(m, s).Some? && Search(m, s).value.start <= i
  {
  }

  lemma SliceOfSlice(x: string, a: nat, b: nat, i: nat, j: nat)
    requires a <= b <= |x| && i <= j <= b - a
    ensures x[a..b][i..j] == x[a + i..a + j]
  {
    assert |x[a..b][i..j]| == |x[a + i..a + j]|;
    forall k | 0 <= k < j - i
      ensures x[a..b][i..j][k] == x[a + i..a + j][k]
    {
      assert x[a..b][i..j][k] == x[a..b][i + k];
    }
  }

  lemma NoValorBefore(resto: string, sp: Span)
    requires Search(ValorMatcher, resto) == Some(sp)
    ensures Search(ValorMatcher, Strip(resto[..sp.start])).None?
  {
    var pre := resto[..sp.start];
    StripIsSlice(pre);
    var a := LeadingSpace(pre);
    var b := a + |Strip(pre)|;
    assert Strip(pre) == resto[a..b];
    if Search(ValorMatcher, resto[a..b]).Some? {
      ValorInSlice(resto, a, b);
      assert false;
    }
  }

  lemma NoValorAnywhere(resto: string)
    requires Search(ValorMatcher, resto).None?
    ensures Search(ValorMatcher, Strip(resto)).None?
  {
    StripIsSlice(resto);
    var a := LeadingSpace(resto);
    var b := a + |Strip(resto)|;
    if Search(ValorMatcher, resto[a..b]).Some? {
      ValorInSlice(resto, a, b);
      assert false;
    }
  }

  /**
   * The code is the four digits of the first code line after the label, and
   * the description comes from the same line; an empty description is an
   * error even when the code was found.
   */
  function CodigoDenom(lines: seq<string>): (r: CodigoResult)
    ensures r.codigo.Some? ==> |r.codigo.value| == 4 && AllDigits(r.codigo.value)
    ensures r.codigoErro == if r.codigo.None? then Some(CodigoNaoEncontrado) else None
    ensures r.denominacao.Some? <==> r.codigo.Some?
    ensures r.denominacao.Some? ==> IsDescription(r.denominacao.value)
    ensures r.denominacaoErro.None? <==> r.denominacao.Some? && r.denominacao.value != []
    ensures r.denominacaoErro.Some? ==> r.denominacaoErro.value == DenominacaoVazia
  {
    var c := CodeLineAfterLabel(lines);
    if c.None? then CodigoResult(None, Some(CodigoNaoEncontrado), None, Some(DenominacaoVazia))
    else
      var d := Denomination(c.value.resto);
      CodigoResult(Some(c.value.codigo), None, Some(d), if d == [] then Some(DenominacaoVazia) else None)
  }

  /** The code and the description come from the first code line after the label line. */
  lemma CodigoFromFirstCodeLine(lines: seq<string>, k: nat, j: nat)
    requires k < j < |lines| && Contains(lines[k], ComposicaoLabel)
    requires forall t :: 0 <= t < k ==> !Contains(lines[t], ComposicaoLabel)
    requires IsCodeLine(lines[j]) && forall t :: k < t < j ==> !IsCodeLine(lines[t])
    ensures CodigoDenom(lines).codigo == Some(MatchCodeLine(lines[j]).value.codigo)
    ensures CodigoDenom(lines).denominacao == Some(Denomination(MatchCodeLine(lines[j]).value.resto))
  {
    var p := HasSubstring(ComposicaoLabel);
    assert forall t :: 0 <= t < k ==> !p(lines[t]);
    FirstLineIs(lines, p, 0, k);
    FirstLineIs(lines, IsCodeLine, k + 1, j);
    assert CodeLineAfterLabel(lines) == MatchCodeLine(lines[j]);
  }

  /** The scan for the first code line after the label line. */
  method FindCodeLine(lines: seq<string>) returns (c: Option<CodeLine>)
    ensures c == CodeLineAfterLabel(lines)
  {
    var idx, _ := FindFirstLineWith(lines, ComposicaoLabel);
    c := None;
    if idx.Some? {
      for j := idx.value + 1 to |lines|
        invariant forall t :: idx.value + 1 <= t < j ==> !IsCodeLine(lines[t])
      {
        var m := MatchCodeLine(lines[j]);
        if m.Some? {
          FirstLineIs(lines, IsCodeLine, idx.value + 1, j);
          return m;
        }
      }
    }
  }

  /** `extrair_codigo_e_denom` */
  method ExtractCodigoDenom(lines: seq<string>) returns (r: CodigoResult)
    ensures r == CodigoDenom(lines)
  {
    var codigo: Option<string> := None;
    var denom: Option<string> := None;
    var c := FindCodeLine(lines);
    if c.Some? {
      codigo := Some(c.value.codigo);
      var resto := c.value.resto;
      var vm := Search(ValorMatcher, resto);
      if vm.Some? {
        denom := Some(Strip(resto[..vm.value.start]));
      } else {
        denom := Some(Strip(resto));
      }
    }
    var codigoErro: Option<string> := None;
    if codigo.None? {
      codigoErro := Some(CodigoNaoEncontrado);
    }
    var denomErro: Option<string> := None;
    if denom.None? || denom.value == [] {
      denomErro := Some(DenominacaoVazia);
    }
    r := CodigoResult(codigo, codigoErro, denom, denomErro);
  }

  // ---------------------------------------------------------------------
  // Barcode line
  // ---------------------------------------------------------------------

  datatype LinhaResult = LinhaResult(linha: Option<string>, erro: Option<string>)

  /** The fallback keeps what it tests: stripping a fallback line leaves a fallback line. */
  lemma StripKeepsFallback(line: string)
    requires LinhaFallback(line)
    ensures LinhaFallback(Strip(line))
  {
    assert forall i :: 0 <= i < 5 ==> !IsSpace(line[i]) by {
      assert forall i :: 1 <= i < 5 ==> line[i] == line[1..5][i - 1];
    }
    StripKeepsPrefix(line, 5);
    var t := Strip(line);
    assert t[1..5] == line[1..5];
    DigitsOfStrip(line);
  }

  /**
   * The barcode line: the first 56-character match of the strict pattern, or
   * else the first line that passes the fallback test, stripped.
   */
  function LinhaDigitavel(lines: seq<string>): (r: LinhaResult)
    ensures r.erro == if r.linha.None? then Some(LinhaNaoEncontrada) else None
    ensures r.linha.None? <==>
              forall k :: 0 <= k < |lines| ==> Search(LinhaMatcher, lines[k]).None? && !LinhaFallback(lines[k])
    ensures r.linha.Some? ==> LinhaShaped(r.linha.value) || LinhaFallback(r.linha.value)
    ensures (exists k :: 0 <= k < |lines| && Search(LinhaMatcher, lines[k]).Some?) ==>
              r.linha.Some? && LinhaShaped(r.linha.value)
  {
    match FirstLine(lines, Finds(LinhaMatcher))
    case Some(k) =>
      LinhaResult(Some(MatchText(LinhaMatcher, lines[k])), None)
    case None =>
      match FirstLine(lines, LinhaFallback)
      case Some(k) =>
        StripKeepsFallback(lines[k]);
        LinhaResult(Some(Strip(lines[k])), None)
      case None => LinhaResult(None, Some(LinhaNaoEncontrada))
  }

  /** The strict pattern wins: the barcode line is the strict match on the first line that has one. */
  lemma LinhaFromFirstStrict(lines: seq<string>, k: nat)
    requires k < |lines| && Search(LinhaMatcher, lines[k]).Some?
    requires forall j :: 0 <= j < k ==> Search(LinhaMatcher, lines[j]).None?
    ensures LinhaDigitavel(lines).linha == Some(MatchText(LinhaMatcher, lines[k]))
  {
    FirstLineIs(lines, Finds(LinhaMatcher), 0, k);
  }

  /** Without any strict match, the barcode line is the first fallback line, stripped. */
  lemma LinhaFromFirstFallback(lines: seq<string>, k: nat)
    requires forall j :: 0 <= j < |lines| ==> Search(LinhaMatcher, lines[j]).None?
    requires k < |lines| && LinhaFallback(lines[k])
    requires forall j :: 0 <= j < k ==> !LinhaFallback(lines[j])
    ensures LinhaDigitavel(lines).linha == Some(Strip(lines[k]))
  {
    assert FirstLine(lines, Finds(LinhaMatcher)).None?;
    FirstLineIs(lines, LinhaFallback, 0, k);
  }

  /** `extrair_linha_digitavel` */
  method ExtractLinhaDigitavel(lines: seq<string>) returns (r: LinhaResult)
    ensures r == LinhaDigitavel(lines)
  {
    var linha: Option<string> := None;
    for k := 0 to |lines|
      invariant forall j :: 0 <= j < k ==> Search(LinhaMatcher, lines[j]).None?
    {
      if Search(LinhaMatcher, lines[k]).Some? {
        FirstLineIs(lines, Finds(LinhaMatcher), 0, k);
        linha := Some(MatchText(LinhaMatcher, lines[k]));
        return LinhaResult(linha, None);
      }
    }
    for k := 0 to |lines|
      invariant forall j :: 0 <= j < k ==> !LinhaFallback(lines[j])
    {
      if LinhaFallback(lines[k]) {
        FirstLineIs(lines, LinhaFallback, 0, k);
        linha := Some(Strip(lines[k]));
        return LinhaResult(linha, None);
      }
    }
    r := LinhaResult(None, Some(LinhaNaoEncontrada));
  }
}
