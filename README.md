# DARF field extraction — a Dafny model

This project models the core of a small web application that reads Brazilian federal tax payment slips
(DARF documents, as PDF files) and pulls nine fields out of them:
- the taxpayer's CNPJ and legal name (razão social);
- the assessment period (período de apuração) and the due date;
- the document number;
- the total amount;
- the revenue code and its description (denominação);
- the payment barcode line (linha digitável).

Each field comes back with a value, an error message, or both.

The model covers three source files:

- `parse_darf.py`:
  - the validators: CNPJ check digits, the `dd/mm/aaaa` date check and the Brazilian currency check;
  - the page-text normaliser;
  - the first-line-containing search;
  - the five field extractors;
  - `processar_pdf`, which assembles one record per document.
- `config_db.py`: the two rule tables, code → spreadsheet tab and CNPJ → budget unit (UO). They are modelled as
  the class `ConfigDb.RuleStore`, with one `map` field per table and one method per query or update. The module
  also holds the CNPJ normalising and formatting helpers and the default seed rows.
- `app.py`: `allowed_file`, the upload extension filter.

## Module layout

| module | file | contents |
|---|---|---|
| `Wrappers` | `wrappers.dfy` | `Option` |
| `Text` | `text.dfy` | ASCII character classes, `strip`, digit extraction (`re.sub(r"\D", "", …)`), lower-casing, substring search |
| `Cnpj` | `cnpj.dfy` | CNPJ normalising, formatting and the mod-11 check-digit rule |
| `Validators` | `validators.dfy` | `strptime("%d/%m/%Y")`, the currency grammar, `Decimal(...)` parsing |
| `Patterns` | `patterns.dfy` | the regular expressions as matchers with Python's backtracking, and leftmost `re.search` |
| `Lines` | `lines.dfy` | `str.splitlines` and the line normaliser loop |
| `Extract` | `extract.dfy` | the five extractors: a specification function each, and a loop method proved equal to it |
| `Pipeline` | `pipeline.dfy` | `processar_pdf` |
| `ConfigDb` | `config_db.dfy` | the rule tables as a class with two maps |
| `Upload` | `upload.dfy` | `allowed_file` |

### How regular expressions are modelled

A regular expression is modelled as a `Matcher`. Given a string and a start position, a matcher returns the
end of the match Python's backtracking engine would find there, or nothing. `Patterns.SearchFrom` is
`re.search`: it returns the leftmost position where the matcher succeeds.

Each pattern is then proved equal to a plain grammar predicate. For example, `Patterns.ValorAtIff` shows
that the backtracking `\d{1,3}(?:\.\d{3})*,\d{2}` matches exactly the text `IsCurrency` describes. The
extractors' contracts are stated in terms of those grammars.

### What the extractors promise

Each extractor in `Extract` is a specification function plus a method with loops that is proved to return
what the function specifies. The function's contract gives the properties the application relies on:
- a value is missing exactly when none of the lines its strategies inspect has the expected shape;
- a missing value always carries its "não encontrado" message;
- a present value has the shape of its field;
- the first strategy that succeeds wins over the fallbacks;
- a lemma per strategy names the line the value is read from: the first line a strategy accepts.

Two error branches of the source turn out to be unreachable, and the model proves it:
- `extrair_valor_total` can never report "Valor total do documento com formato inválido." Any text that
  `VALOR_REGEX` finds also passes `validar_valor_br` (`Extract.ValorTotal`, `Validators.CurrencyAlwaysParses`).
- `adicionar_cnpj`'s "CNPJ deve ter 14 dígitos." branch can never be taken. A CNPJ that passed `validar_cnpj`
  always formats to a non-empty string (`ConfigDb.FormatAfterValidation`).

### Scope of the extractors

- Only the first page of a document is read, and its text layer is used as it is: there is no OCR.
- The extractors see the list of normalised lines only, never the page text as a whole.
- The period, the due date and the main document number are read only from the line right after the first
  line containing "Período de Apuração".
- The company name is the rest of the line that holds the CNPJ.

## Model

| member | source | states |
|---|---|---|
| Cnpj.CheckDigitRule | parse_darf.py:34-57 | a CNPJ is valid iff it has exactly 14 digits once non-digits are dropped, the digits are not all equal, and each check digit is `0` when the weighted sum mod 11 is below 2 and `11 - r` otherwise, using the weights 5,4,3,2,9,8,7,6,5,4,3,2 and then 6,5,4,3,2,9,8,7,6,5,4,3,2 |
| Cnpj.WeightedSum1 | parse_darf.py:47-53 | the zipped sum over the first 12 digits equals the explicit weighted sum for the first check digit |
| Cnpj.WeightedSum2 | parse_darf.py:47-55 | the zipped sum over the 12 digits plus the first check digit equals the explicit weighted sum for the second check digit |
| Cnpj.CheckDigit | parse_darf.py:47-50 | `calc_dv` yields a single decimal digit whose value is the mod-11 rule applied to the weighted sum |
| Cnpj.DvOf | parse_darf.py:48-50 | the check-digit value of any sum is between 0 and 9 |
| Cnpj.RepeatedDigitsRejected | parse_darf.py:43-45 | fourteen copies of one digit are never a valid CNPJ, whatever the check digits say |
| Cnpj.FormatShape | config_db.py:180-201 | formatting a value with 14 digits yields the `NN.NNN.NNN/NNNN-NN` shape and keeps exactly the same digits |
| Cnpj.FormatEmptyIff | config_db.py:190-198 | formatting returns the empty string exactly when the input does not have 14 digits |
| Cnpj.NormalizeFormatRoundTrip | config_db.py:175-201 | normalising a formatted CNPJ gives back the digits of the original input |
| Cnpj.FormatFixesShaped | config_db.py:180-201 | a CNPJ already written as `NN.NNN.NNN/NNNN-NN` is left unchanged by formatting |
| Cnpj.FormatIdempotent | config_db.py:180-201 | formatting twice equals formatting once |
| Cnpj.FormatDependsOnDigits | config_db.py:180-201 | two spellings with the same digits format identically |
| Cnpj.ValidIsFormattable | config_db.py:204-227 | every CNPJ that passes validation formats to a non-empty, well-shaped string |
| Cnpj.DigitsOfPieces | config_db.py:200-201 | the digits of a formatted CNPJ are its five digit groups concatenated |
| Validators.DateShapedValidIff | parse_darf.py:60-66 | a `DD/MM/YYYY`-shaped string passes `strptime("%d/%m/%Y")` iff day, month and year form a real Gregorian date |
| Validators.DateSlashes | parse_darf.py:60-66 | in a `DD/MM/YYYY`-shaped string, the separators `strptime` consumes are at positions 2 and 5 |
| Validators.DayTokenTwo | parse_darf.py:60-66 | a two-digit `%d` token is accepted iff its value is 1..31, and that value is the day read |
| Validators.MonthTokenTwo | parse_darf.py:60-66 | a two-digit `%m` token is accepted iff its value is 1..12, and that value is the month read |
| Validators.DaysInMonth | parse_darf.py:60-66 | every month has between 28 and 31 days |
| Validators.DateExample | parse_darf.py:60-66 | for a shaped date, validity is the calendar check on the day, month and year written in it |
| Validators.LeapDayAccepted | parse_darf.py:60-66 | 29/02/2024 is a valid date |
| Validators.NonLeapDayRejected | parse_darf.py:60-66 | 29/02/2023 is rejected |
| Validators.April31Rejected | parse_darf.py:60-66 | 31/04/2025 is rejected |
| Validators.DayZeroRejected | parse_darf.py:60-66 | 00/01/2025 is rejected |
| Validators.CurrencyAlwaysParses | parse_darf.py:69-79 | when the stripped text matches the currency grammar, `validar_valor_br` accepts it, and the swapped text parses as a `Decimal` equal to its digits scaled by 10^-2 |
| Validators.AmountOfCurrency | parse_darf.py:69-79 | a currency string is a valid amount whose decimal value is the number formed by its digits, in cents |
| Validators.ThousandsAmountValue | parse_darf.py:69-79 | `1.386,00` is a valid amount worth 1386.00 |
| Validators.ThousandsAmountIsCurrency | parse_darf.py:17 | `1.386,00` is in the currency grammar |
| Validators.PointAmountRejected | parse_darf.py:69-79 | `1386.00`, with a decimal point, is not a Brazilian amount |
| Validators.CurrencySwap | parse_darf.py:75-76 | removing the dots and turning the comma into a point turns a currency string into its whole digits, a point and its two cents digits |
| Validators.GroupsAndCentsSwap | parse_darf.py:75-76 | the separator swap turns the `(.ddd)*,dd` tail into its group digits, a point and the cents |
| Validators.LeadSwap | parse_darf.py:75-76 | the separator swap leaves the leading digit group intact and rewrites the rest of the tail |
| Validators.SwapSeparatorsConcat | parse_darf.py:75-76 | the separator swap works character by character, so it distributes over concatenation |
| Validators.SwapPadded | parse_darf.py:75-76 | the separator swap leaves the surrounding whitespace in place |
| Validators.ParsePointNumber | parse_darf.py:77 | `Decimal` parses `w.cc` as the non-negative number `wcc` scaled by 10^-2 |
| Validators.ParseDecimalStrip | parse_darf.py:77 | `Decimal` ignores surrounding whitespace |
| Validators.IndexOf | parse_darf.py:60-66 | the separator search returns the first occurrence of the character from a position, or none when absent |
| Validators.DigitRun | parse_darf.py:17 | the greedy digit run from a position consists of digits and stops at a non-digit or the end |
| Patterns.SearchFrom | parse_darf.py:122-124 | `re.search` returns the leftmost position where the pattern matches, with the match end, and none when no position matches |
| Patterns.CnpjAt | parse_darf.py:15 | `CNPJ_REGEX` matches at a position iff the next 18 characters have the `NN.NNN.NNN/NNNN-NN` shape |
| Patterns.ValorAtIff | parse_darf.py:17 | the backtracking `VALOR_REGEX` matches from `i` to `e` iff `s[i..e]` is in the currency grammar |
| Patterns.ValorAtSound | parse_darf.py:17 | what `VALOR_REGEX` matches is in the currency grammar |
| Patterns.ValorAtComplete | parse_darf.py:17 | every currency-shaped slice is exactly what `VALOR_REGEX` matches from its start |
| Patterns.GroupsThenCentsSound | parse_darf.py:17 | the greedy `(?:\.\d{3})*,\d{2}` part matches only text in the groups-then-cents grammar |
| Patterns.GroupsThenCentsComplete | parse_darf.py:17 | the greedy `(?:\.\d{3})*,\d{2}` part matches every slice in the groups-then-cents grammar, up to its end |
| Patterns.LeadSkipsLonger | parse_darf.py:17 | backtracking `\d{1,3}` from 3 down to 1 reaches the lead length for which the rest matches |
| Patterns.LeadLength | parse_darf.py:17 | a successful lead-then-rest match has a 1..3 digit lead followed by the groups-then-cents part |
| Patterns.ValorMatchIsValidAmount | parse_darf.py:69-79 | the leftmost `VALOR_REGEX` match on any line is in the currency grammar and passes `validar_valor_br` |
| Patterns.StripCurrency | parse_darf.py:69-79 | stripping a currency string leaves it unchanged |
| Patterns.ValorSearchExample | parse_darf.py:17 | on `1234,56` the leftmost match is `234,56`: a lead of more than three digits is cut, not rejected |
| Patterns.TripleParts | parse_darf.py:154-157 | a triple match consists of a date, whitespace, a date, whitespace and a non-empty run of digits, dots and dashes |
| Patterns.TripleGroups | parse_darf.py:154-161 | the three captured groups are two `DD/MM/YYYY` dates and a non-empty document number |
| Patterns.TripleOfSpacedLine | parse_darf.py:154-161 | on `period due number…` separated by single spaces, the triple regex captures exactly the period, the due date and the number |
| Patterns.NumeroParts | parse_darf.py:166 | a `Número:\s*([\d\.\-]+)` match is the label, optional whitespace and a maximal run of digits, dots and dashes |
| Patterns.NumeroGroup | parse_darf.py:166-168 | the captured document number is a non-empty run of digits, dots and dashes |
| Patterns.MatchCodeLine | parse_darf.py:235 | a code-line match captures a four-digit code and a non-empty rest with no newline |
| Patterns.CodeLineIff | parse_darf.py:235 | on a single line, `\s*(\d{4})\s+(.+)` matches iff after the leading whitespace come four digits, a whitespace character and at least one more character |
| Patterns.RestStartWithoutNewline | parse_darf.py:235 | on a single line, the backtracking `\s+(.+)` finds a start for the rest iff at least one character follows the first whitespace |
| Patterns.LinhaAt | parse_darf.py:20-22 | the barcode regex matches at a position iff the next 56 characters have the `[89]`-led 11-1-11-1-11-1-11-1 digit/space shape, with word boundaries on both sides |
| Lines.SplitFrom | parse_darf.py:94 | no line that `splitlines` produces contains a line boundary, and there are no lines exactly when nothing is left to split |
| Lines.BreakIndex | parse_darf.py:94 | the next line boundary is the first boundary character from the current position, or the end of the text |
| Lines.SplitLinesJoin | parse_darf.py:94 | on text whose only boundaries are `\n` and which does not end with one, joining the `splitlines` result with `\n` gives the text back |
| Lines.NormalizeNonSpace | parse_darf.py:98 | `re.sub(r"\s+", " ", line).strip()` keeps every non-whitespace character, in order |
| Lines.NormalizeClean | parse_darf.py:98-99 | a normalised line is empty iff the raw line is all whitespace, and otherwise has no leading, trailing or double spaces and no whitespace other than `' '` |
| Lines.CollapseSpaces | parse_darf.py:98 | after collapsing, no two spaces are adjacent and every whitespace character is a plain space |
| Lines.CollapseNonSpace | parse_darf.py:98 | collapsing whitespace runs keeps all non-whitespace characters in order |
| Lines.NonBlankIndices | parse_darf.py:96-100 | the kept lines are exactly the raw lines that are not all whitespace, in increasing order |
| Lines.PickStep | parse_darf.py:96-100 | handling one more raw line appends its normalised form exactly when it is not blank |
| Lines.PickClean | parse_darf.py:96-100 | every kept line is clean |
| Lines.NormalizeLines | parse_darf.py:86-101 | the loop returns, in order, the normalised form of each non-blank raw line of the page text, and every returned line is clean |
| Extract.FirstLineFrom | parse_darf.py:104-109 | the search returns the first line index satisfying the test, and none when no line does |
| Extract.FindFirstLineWith | parse_darf.py:104-109 | the loop returns the index and the text of the first line containing the substring, and `(None, None)` iff no line contains it |
| Extract.CnpjAndName | parse_darf.py:116-138 | the CNPJ is missing iff no line matches `CNPJ_REGEX`; a found CNPJ has the CNPJ shape; its error is "not found", "invalid check digits" or none exactly as the checksum decides; the name is present iff the CNPJ is, is stripped, and is missing with its message otherwise |
| Extract.CnpjFromFirstLine | parse_darf.py:122-128 | the CNPJ is the leftmost match on the first matching line, and the name is the stripped rest of that line |
| Extract.ExtractCnpjAndName | parse_darf.py:116-138 | the loop returns exactly what `CnpjAndName` specifies |
| Extract.DateError | parse_darf.py:172-180 | a missing date gets its "not found" message; a present date gets no error iff `validar_data_br` accepts it, and the "invalid format" message otherwise |
| Extract.NumeroFallback | parse_darf.py:164-169 | the fallback number is a non-empty run of digits, dots and dashes, and is missing iff no line has a `Número:` match; `NumeroFromFirstLine` pins which line it comes from |
| Extract.PeriodDueNumber | parse_darf.py:141-185 | the period and the due date are present iff the line after the first label line exists and has a date-date-number match, are found together, are date-shaped, and come with the document number; when they are missing the number comes from the `Número:` fallback; each error follows the found value and its date validation |
| Extract.PeriodFromSpacedLine | parse_darf.py:150-161 | when the first label line is followed by `period due number…`, the extractor returns those three tokens |
| Extract.PeriodFromLineAfterLabel | parse_darf.py:150-161 | wherever the date-date-number match lies on the line after the first label line, the period, the due date and the number are its three groups |
| Extract.NumeroFromFirstLine | parse_darf.py:164-169 | the fallback number is the capture on the first line with a `Número:` match |
| Extract.PeriodLineExample | parse_darf.py:150-161 | on the label line followed by `30/09/2025 20/10/2025 07.01.25275.0746065-9`, all three fields are read with no errors |
| Extract.FindLineAfter | parse_darf.py:150-152 | the loop returns the line after the first line containing the label, when there is one |
| Extract.FindPeriodLine | parse_darf.py:150-161 | the loop returns the triple the specification reads from the line after the label |
| Extract.FindNumero | parse_darf.py:164-169 | the loop returns the first `Número:` capture, as the specification does |
| Extract.ExtractPeriodDueNumber | parse_darf.py:141-185 | the method returns exactly what `PeriodDueNumber` specifies |
| Extract.CandidateLines | parse_darf.py:192-199 | the candidates are the up to three lines right after the first line containing the label, and there are none when no line contains it |
| Extract.PrimaryValor | parse_darf.py:202-206 | the primary amount is missing iff no candidate line contains a currency match, and a found amount is a valid Brazilian amount; `ValorFromCandidate` pins which line it comes from |
| Extract.FallbackValor | parse_darf.py:209-215 | the fallback amount is missing iff no line contains both `Valor:` and a currency match, and a found amount is valid; `ValorFromValorLine` pins which line it comes from |
| Extract.ValorTotal | parse_darf.py:188-222 | the amount is missing iff both strategies fail; the primary strategy wins when it succeeds and the fallback is used exactly when it does not; a found amount is always valid, so the "invalid format" error is never produced |
| Extract.ValorFromCandidate | parse_darf.py:192-206 | when one of the three lines after the first label line holds an amount, the total is the leftmost match on the first of them that does |
| Extract.ValorFromValorLine | parse_darf.py:209-215 | when no candidate line holds an amount, the total is the leftmost match on the first line that contains `Valor:` and an amount |
| Extract.ValorText | parse_darf.py:203-205 | the text of a currency match is in the currency grammar and passes `validar_valor_br` |
| Extract.CollectCandidates | parse_darf.py:192-199 | the loop collects exactly the candidate lines of the specification |
| Extract.FindPrimaryValor | parse_darf.py:202-206 | the loop returns the specification's primary amount |
| Extract.FindFallbackValor | parse_darf.py:209-215 | the loop returns the specification's fallback amount |
| Extract.ExtractValorTotal | parse_darf.py:188-222 | the method returns exactly what `ValorTotal` specifies |
| Extract.CodeLineOfClean | parse_darf.py:235 | on a normalised line, the code regex matches iff the line starts with four digits and a space followed by more text; the code is those four digits and the rest is everything after the space |
| Extract.CodeLineAfterLabel | parse_darf.py:230-236 | a code found after the label is exactly four digits |
| Extract.Denomination | parse_darf.py:240-244 | the description is stripped and contains no currency amount; `DenominationIsPrefix` pins it to the rest up to the first amount |
| Extract.DenominationIsPrefix | parse_darf.py:240-244 | the description is the rest up to the first position where an amount starts, stripped, or the whole rest stripped when no amount starts anywhere |
| Extract.NoValorBefore | parse_darf.py:240-242 | the text before the first amount in the rest, once stripped, contains no amount |
| Extract.NoValorAnywhere | parse_darf.py:243-244 | a rest without amounts still has none once stripped |
| Extract.CodigoDenom | parse_darf.py:225-252 | a found code is four digits; the code error is set iff no code was found; the description is present iff the code is, and contains no amount; the description error is set iff the description is missing or empty |
| Extract.CodigoFromFirstCodeLine | parse_darf.py:230-245 | the code and the description come from the first code-shaped line after the first label line |
| Extract.FindCodeLine | parse_darf.py:230-245 | the loop returns the specification's first code line after the label |
| Extract.ExtractCodigoDenom | parse_darf.py:225-252 | the method returns exactly what `CodigoDenom` specifies |
| Extract.StripKeepsFallback | parse_darf.py:267-271 | stripping a line accepted by the permissive barcode test keeps it acceptable |
| Extract.LinhaDigitavel | parse_darf.py:255-275 | the barcode line is missing iff no line matches the strict regex or the permissive test, and then carries its message; the strict regex wins whenever any line matches it |
| Extract.LinhaFromFirstStrict | parse_darf.py:260-264 | the barcode line is the strict match on the first line that has one |
| Extract.LinhaFromFirstFallback | parse_darf.py:267-271 | without a strict match anywhere, the barcode line is the first line passing the permissive test, stripped |
| Extract.ExtractLinhaDigitavel | parse_darf.py:255-275 | the method returns exactly what `LinhaDigitavel` specifies |
| Pipeline.ProcessPdf | parse_darf.py:282-346 | the record names the file; every missing field carries its "not found" message; the CNPJ and the dates are error-free iff present and valid; a present amount is valid and error-free; a present code is four digits; each field is its extractor's result on the page's normalised lines |
| ConfigDb.Insert | config_db.py:257-270 | inserting a row with a new key into sorted rows keeps them sorted and adds exactly that row |
| ConfigDb.LessTransitive | config_db.py:257-270 | the row order used for listing is transitive |
| ConfigDb.LessTotal | config_db.py:257-270 | any two distinct keys are ordered one way or the other |
| ConfigDb.SortedRows | config_db.py:257-270 | listing a table yields rows sorted by key that are exactly the table's entries |
| ConfigDb.RuleStore.constructor | config_db.py:147-158 | a store seeded from empty tables holds exactly the default rows: every default code with its tab, every default CNPJ with its unit, and no other key; it is well-formed |
| ConfigDb.RuleStore.GetAbaPorCodigo | config_db.py:234-254 | an empty code finds nothing; otherwise the tab is the one stored for the stripped code, and it is one of the two known tabs |
| ConfigDb.RuleStore.GetUoPorCnpj | config_db.py:352-376 | a CNPJ without 14 digits finds nothing; otherwise the UO is the one stored under its formatted spelling |
| ConfigDb.RuleStore.GetTodosCodigos | config_db.py:257-270 | all code rows, sorted by code |
| ConfigDb.RuleStore.GetTodosCnpjs | config_db.py:379-392 | all CNPJ rows, sorted by CNPJ |
| ConfigDb.RuleStore.AddCodigo | config_db.py:273-314 | succeeds iff the code is non-empty, is four digits once stripped, the tab is known and the code is new; then exactly that row is added and found by lookup; otherwise nothing changes and the message names the first failed check |
| ConfigDb.RuleStore.RemoveCodigo | config_db.py:317-345 | succeeds iff the stripped code is present; then exactly that row is removed; otherwise nothing changes and the message says why |
| ConfigDb.RuleStore.AddCnpj | config_db.py:395-443 | succeeds iff the CNPJ and the UO are non-empty, the CNPJ passes the checksum, the stripped UO is numeric and the formatted CNPJ is new; then exactly that row is added and found under any spelling; otherwise nothing changes and the message names the first failed check |
| ConfigDb.RuleStore.RemoveCnpj | config_db.py:446-478 | succeeds iff the formatted CNPJ is present; then exactly that row is removed; otherwise nothing changes and the message says why |
| ConfigDb.DefaultsWellFormed | config_db.py:27-55 | every default code is four digits filed under a known tab, every default UO is numeric, and no key is seeded twice in either table |
| ConfigDb.DefaultCodesDistinct | config_db.py:27-32 | no revenue code appears twice among the defaults |
| ConfigDb.DefaultCnpjsDistinct | config_db.py:35-55 | no CNPJ appears twice among the defaults |
| ConfigDb.SeedTable | config_db.py:147-158 | adding the rows of a list without repeated keys to an empty table gives a table whose keys are exactly the rows' keys, each with its row's value |
| ConfigDb.FormatAfterValidation | config_db.py:417-419 | a CNPJ that passed validation always formats, so the 14-digit error after formatting is unreachable |
| ConfigDb.LookupIgnoresSpelling | config_db.py:352-376 | two spellings of a CNPJ with the same digits look up the same UO |
| Upload.AllowedFileIff | app.py:94-102 | a file name is accepted iff it ends with `.` followed by `pdf` in any letter case |
| Upload.AllowedHasPdfTail | app.py:94-102 | every accepted name ends with `.pdf`, ignoring case |
| Upload.PdfTailAllowed | app.py:94-102 | every name ending with `.pdf`, ignoring case, is accepted |
| Upload.LastDotBelow | app.py:102 | `rsplit(".", 1)` splits at the last dot |
| Upload.Extension | app.py:102 | the extension is the dot-free text after the last dot |
| Upload.NoDotRejected | app.py:102 | a name without a dot is rejected |
| Upload.UpperCaseAccepted | app.py:102 | `x.PDF` is accepted, because the extension is lower-cased |
| Upload.InnerPdfRejected | app.py:102 | `a.pdf.exe` is rejected: only the last extension counts |
| Upload.OuterPdfAccepted | app.py:102 | `a.exe.pdf` is accepted |
| Upload.EmptyPartsAtTheDot | app.py:102 | `file.` is rejected and `.pdf` is accepted |

## Left out

- PDF reading (`pdfplumber`): the text of the document's first page is a parameter of `Pipeline.ProcessPdf`. A PDF with no pages yields no lines, which is the same as empty page text.
- `processar_pasta` and the command-line entry point: these handle the file system and write CSV and XLSX files.
- SQLAlchemy sessions, commits, rollbacks and their exception branches in `config_db.py`: the tables are two `map` fields, and every database call succeeds.
- Database ordering: the `ORDER BY` of the listings is modelled as character-code order on the keys.
- The Flask routes, the MSAL login and the rest of `app.py`, except `allowed_file`. `scripts/init_db.py` and `app/__init__.py` are not part of this model.
- Unicode: `\d`, `\s`, `\w`, `strip`, `lower` and `splitlines` are modelled on their ASCII behaviour, plus the non-ASCII line boundaries `\x85`, `\u2028` and `\u2029`. Whitespace is the ten ASCII characters `str.isspace()` accepts. Non-ASCII digits and non-ASCII whitespace such as `\xa0`, which Python also accepts, are not modelled.
- `Decimal` parsing covers signs, digits, a decimal point and exponents. It leaves out infinities, NaN and digit-group underscores, which the swapped currency text can never contain.
- ConfigDb.RuleStore.constructor: models seeding from empty tables only. The source keeps a table that already holds rows, and the constructor does not describe that case.
- Logging and `print` calls.
