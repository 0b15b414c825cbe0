/**
 * `processar_pdf`: one DARF record, with a value and an error message per
 * field, built from the text of the first page of one PDF.
 */
module Pipeline {
  import opened Wrappers
  import opened Text
  import Cnpj
  import opened Validators
  import opened Patterns
  import opened Lines
  import opened Extract

  /** The record of one PDF: the file name, then each field and its error. */
  datatype DarfRecord = DarfRecord(
    arquivo: string,
    cnpj: Option<string>, cnpjErro: Option<string>,
    razaoSocial: Option<string>, razaoSocialErro: Option<string>,
    periodoApuracao: Option<string>, periodoApuracaoErro: Option<string>,
    dataVencimento: Option<string>, dataVencimentoErro: Option<string>,
    numeroDocumento: Option<string>, numeroDocumentoErro: Option<string>,
    valorTotalDocumento: Option<string>, valorTotalDocumentoErro: Option<string>,
    codigo: Option<string>, codigoErro: Option<string>,
    denominacao: Option<string>, denominacaoErro: Option<string>,
    linhaDigitavel: Option<string>, linhaDigitavelErro: Option<string>)

  /**
   * `processar_pdf`, given the file name and the text of the first page
   * (the empty text when the PDF has no page or no text on it).
   */
  method ProcessPdf(arquivo: string, pageText: string) returns (resultado: DarfRecord)
    ensures resultado.arquivo == arquivo
    // every missing value comes with the reason it is missing
    ensures resultado.cnpj.None? ==> resultado.cnpjErro == Some(CnpjNaoEncontrado)
    ensures resultado.razaoSocial.None? ==> resultado.razaoSocialErro == Some(RazaoNaoEncontrada)
    ensures resultado.periodoApuracao.None? ==> resultado.periodoApuracaoErro == Some(PeriodoNaoEncontrado)
    ensures resultado.dataVencimento.None? ==> resultado.dataVencimentoErro == Some(VencimentoNaoEncontrado)
    ensures resultado.numeroDocumento.None? ==> resultado.numeroDocumentoErro == Some(NumeroNaoEncontrado)
    ensures resultado.valorTotalDocumento.None? ==> resultado.valorTotalDocumentoErro == Some(ValorNaoEncontrado)
    ensures resultado.codigo.None? ==> resultado.codigoErro == Some(CodigoNaoEncontrado)
    ensures resultado.denominacao.None? ==> resultado.denominacaoErro == Some(DenominacaoVazia)
    ensures resultado.linhaDigitavel.None? ==> resultado.linhaDigitavelErro == Some(LinhaNaoEncontrada)
    // values that are present have the shape of their field
    ensures resultado.cnpj.Some? ==> Cnpj.Shaped(resultado.cnpj.value)
    ensures resultado.cnpjErro.None? <==> resultado.cnpj.Some? && Cnpj.IsValid(resultado.cnpj.value)
    ensures resultado.periodoApuracaoErro.None? <==>
              resultado.periodoApuracao.Some? && IsValidDate(resultado.periodoApuracao.value)
    ensures resultado.dataVencimentoErro.None? <==>
              resultado.dataVencimento.Some? && IsValidDate(resultado.dataVencimento.value)
    ensures resultado.valorTotalDocumento.Some? ==>
              resultado.valorTotalDocumentoErro.None? && IsValidAmount(resultado.valorTotalDocumento.value)
    ensures resultado.codigo.Some? ==> |resultado.codigo.value| == 4 && AllDigits(resultado.codigo.value)
    // each field is what its extractor reads from the page's normalised lines
    ensures var lines := PageLines(pageText);
            && CnpjAndName(lines) == CnpjResult(resultado.cnpj, resultado.cnpjErro,
                                                resultado.razaoSocial, resultado.razaoSocialErro)
            && PeriodDueNumber(lines) == PeriodResult(resultado.periodoApuracao, resultado.periodoApuracaoErro,
                                                      resultado.dataVencimento, resultado.dataVencimentoErro,
                                                      resultado.numeroDocumento, resultado.numeroDocumentoErro)
            && ValorTotal(lines) == ValorResult(resultado.valorTotalDocumento, resultado.valorTotalDocumentoErro)
            && CodigoDenom(lines) == CodigoResult(resultado.codigo, resultado.codigoErro,
                                                  resultado.denominacao, resultado.denominacaoErro)
            && LinhaDigitavel(lines) == LinhaResult(resultado.linhaDigitavel, resultado.linhaDigitavelErro)
  {
    resultado := DarfRecord(arquivo, None, None, None, None, None, None, None, None,
                            None, None, None, None, None, None, None, None, None, None);
    var lines := NormalizeLines(pageText);

    var c := ExtractCnpjAndName(lines);
    resultado := resultado.(cnpj := c.cnpj, cnpjErro := c.cnpjErro,
                            razaoSocial := c.razaoSocial, razaoSocialErro := c.razaoSocialErro);

    var p := ExtractPeriodDueNumber(lines);
    resultado := resultado.(periodoApuracao := p.periodo, periodoApuracaoErro := p.periodoErro,
                            dataVencimento := p.vencimento, dataVencimentoErro := p.vencimentoErro,
                            numeroDocumento := p.numero, numeroDocumentoErro := p.numeroErro);

    var v := ExtractValorTotal(lines);
    resultado := resultado.(valorTotalDocumento := v.valor, valorTotalDocumentoErro := v.erro);

    var d := ExtractCodigoDenom(lines);
    resultado := resultado.(codigo := d.codigo, codigoErro := d.codigoErro,
                            denominacao := d.denominacao, denominacaoErro := d.denominacaoErro);

    var l := ExtractLinhaDigitavel(lines);
    resultado := resultado.(linhaDigitavel := l.linha, linhaDigitavelErro := l.erro);
  }
}
