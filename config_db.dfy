/**
 * The two rule tables of the configuration store: revenue code to
 * spreadsheet tab, and CNPJ to contributing unit ("UO contribuinte").
 * The database is abstracted to two maps held by one object; each
 * operation either changes one table as described or leaves both alone,
 * and answers with a success flag and the message shown to the user.
 */
module ConfigDb {
  import opened Wrappers
  import opened Text
  import Cnpj

  const Servidor := "servidor"
  const PatronalGilrat := "patronal-gilrat"

  /** The codes and tabs seeded into an empty code table. */
  const CodigosPadrao: seq<(string, string)> := [
    ("1082", Servidor),
    ("1099", Servidor),
    ("1138", PatronalGilrat),
    ("1646", PatronalGilrat)
  ]

  /** The CNPJs and units seeded into an empty CNPJ table. */
  const CnpjsPadrao: seq<(string, string)> := [
    ("18.715.565/0001-10", "1071"),
    ("16.745.465/0001-01", "1081"),
    ("07.256.298/0001-44", "1101"),
    ("16.907.746/0001-13", "1191"),
    ("19.377.514/0001-99", "1221"),
    ("18.715.573/0001-67", "1231"),
    ("19.138.890/0001-20", "1271"),
    ("18.715.581/0001-03", "1301"),
    ("00.957.404/0001-78", "1371"),
    ("05.487.631/0001-09", "1451"),
    ("05.465.167/0001-41", "1481"),
    ("05.475.103/0001-21", "1491"),
    ("05.461.142/0001-70", "1501"),
    ("18.715.532/0001-70", "1511"),
    ("05.585.681/0001-10", "1521"),
    ("08.715.327/0001-51", "1541"),
    ("13.235.618/0001-82", "1631"),
    ("50.629.390/0001-31", "1711"),
    ("50.941.185/0001-07", "1721")
  ]

  const CodigoVazio := "Código não pode ser vazio."
  const CodigoQuatroDigitos := "Código deve ter exatamente 4 dígitos."
  const AbaInvalida := "Aba deve ser 'servidor' ou 'patronal-gilrat'."
  const CnpjVazio := "CNPJ não pode ser vazio."
  const UoVazia := "UO Contribuinte não pode ser vazio."
  const CnpjDigitosInvalidos := "CNPJ inválido (formato ou dígitos verificadores incorretos)."
  const CnpjTamanhoInvalido := "CNPJ inválido (deve ter 14 dígitos)."
  const UoNaoNumerica := "UO Contribuinte deve ser um código numérico."

  function CodigoJaExiste(c: string): string { "Código " + c + " já existe." }
  function CodigoAdicionado(c: string): string { "Código " + c + " adicionado com sucesso." }
  function CodigoNaoEncontrado(c: string): string { "Código " + c + " não encontrado." }
  function CodigoRemovido(c: string): string { "Código " + c + " removido com sucesso." }
  function CnpjJaExiste(c: string): string { "CNPJ " + c + " já existe." }
  function CnpjAdicionado(c: string): string { "CNPJ " + c + " adicionado com sucesso." }
  function CnpjNaoEncontrado(c: string): string { "CNPJ " + c + " não encontrado." }
  function CnpjRemovido(c: string): string { "CNPJ " + c + " removido com sucesso." }

  /** The two tabs a code can be filed under. */
  predicate IsAba(aba: string) {
    aba == Servidor || aba == PatronalGilrat
  }

  /** `^\d{4}$` on a stripped code. */
  predicate IsCodigo(c: string) {
    |c| == 4 && AllDigits(c)
  }

  /** `^\d+$` on a stripped unit. */
  predicate IsUo(u: string) {
    |u| >= 1 && AllDigits(u)
  }

  // ---------------------------------------------------------------------
  // Order of the listings (`ORDER BY` on the key column)
  // ---------------------------------------------------------------------

  /** Lexicographic order of strings, character by character. */
  predicate Less(a: string, b: string) {
    if a == [] then b != []
    else if b == [] then false
    else if a[0] != b[0] then a[0] < b[0]
    else Less(a[1..], b[1..])
  }

  lemma {:induction false} LessTransitive(a: string, b: string, c: string)
    requires Less(a, b) && Less(b, c)
    ensures Less(a, c)
  {
    if a != [] && a[0] == b[0] && b[0] == c[0] {
      LessTransitive(a[1..], b[1..], c[1..]);
    }
  }

  lemma {:induction false} LessTotal(a: string, b: string)
    requires a != b
    ensures Less(a, b) || Less(b, a)
  {
    if a != [] && b != [] && a[0] == b[0] {
      assert a == [a[0]] + a[1..] && b == [b[0]] + b[1..];
      LessTotal(a[1..], b[1..]);
    }
  }

  /** Rows in strictly increasing key order (so no key twice). */
  predicate Sorted(rows: seq<(string, string)>) {
    forall i, j :: 0 <= i < j < |rows| ==> Less(rows[i].0, rows[j].0)
  }

  /** `rows` with the row `(k, v)` put in its place. */
  function Insert(rows: seq<(string, string)>, k: string, v: string): (r: seq<(string, string)>)
    requires Sorted(rows) && forall i :: 0 <= i < |rows| ==> rows[i].0 != k
    ensures Sorted(r) && |r| == |rows| + 1
    ensures forall p :: p in r <==> p in rows || p == (k, v)
  {
    if rows == [] then [(k, v)]
    else if Less(k, rows[0].0) then
      assert forall j :: 0 <= j < |rows| ==> Less(k, rows[j].0) by {
        forall j | 0 < j < |rows| {
          LessTransitive(k, rows[0].0, rows[j].0);
        }
      }
      [(k, v)] + rows
    else
      LessTotal(k, rows[0].0);
      var tail := Insert(rows[1..], k, v);
      assert forall p :: p in rows <==> p == rows[0] || p in rows[1..];
      assert forall j :: 0 <= j < |tail| ==> Less(rows[0].0, tail[j].0) by {
        forall j | 0 <= j < |tail|
          ensures Less(rows[0].0, tail[j].0)
        {
          assert tail[j] in tail;
          if tail[j] != (k, v) {
            var t :| 0 <= t < |rows[1..]| && rows[1..][t] == tail[j];
            assert rows[1 + t] == tail[j];
          }
        }
      }
      [rows[0]] + tail
  }

  /** The rows of a table in key order: `session.query(...).order_by(key).all()`. */
  method SortedRows(m: map<string, string>) returns (rows: seq<(string, string)>)
    ensures Sorted(rows)
    ensures forall p :: p in rows <==> p.0 in m && m[p.0] == p.1
  {
    rows := [];
    var rest := m.Keys;
    while rest != {}
      invariant rest <= m.Keys
      invariant Sorted(rows)
      invariant forall p :: p in rows <==> p.0 in m.Keys - rest && m[p.0] == p.1
      decreases |rest|
    {
      var k :| k in rest;
      assert forall i :: 0 <= i < |rows| ==> rows[i] in rows;
      rows := Insert(rows, k, m[k]);
      rest := rest - {k};
    }
  }

  // ---------------------------------------------------------------------
  // The store
  // ---------------------------------------------------------------------

  class RuleStore {
    /** `codigo_aba`: revenue code to tab. */
    var codigoAba: map<string, string>
    /** `cnpj_uo`: formatted CNPJ to contributing unit. */
    var cnpjUo: map<string, string>

    /** Every code is four digits filed under one of the two tabs; every unit is numeric. */
    ghost predicate Valid()
      reads this
    {
      && (forall c :: c in codigoAba ==> IsCodigo(c) && IsAba(codigoAba[c]))
      && (forall k :: k in cnpjUo ==> IsUo(cnpjUo[k]))
    }

    /**
     * `init_db` on empty tables: each table holds exactly its default rows,
     * every default key with its default tab or unit and no other key.
     */
    constructor ()
      ensures Valid()
      ensures codigoAba.Keys == set i | 0 <= i < |CodigosPadrao| :: CodigosPadrao[i].0
      ensures forall i :: 0 <= i < |CodigosPadrao| ==> codigoAba[CodigosPadrao[i].0] == CodigosPadrao[i].1
      ensures cnpjUo.Keys == set i | 0 <= i < |CnpjsPadrao| :: CnpjsPadrao[i].0
      ensures forall i :: 0 <= i < |CnpjsPadrao| ==> cnpjUo[CnpjsPadrao[i].0] == CnpjsPadrao[i].1
    {
      codigoAba := map[];
      cnpjUo := map[];
      new;
      DefaultsWellFormed();
      var codigos := SeedTable(CodigosPadrao);
      var cnpjs := SeedTable(CnpjsPadrao);
      codigoAba := codigos;
      cnpjUo := cnpjs;
    }

    /** `get_aba_por_codigo`: the tab of the stripped code, if it is in the table. */
    function GetAbaPorCodigo(codigo: string): (r: Option<string>)
      reads this
      ensures codigo == [] ==> r.None?
      ensures r.Some? <==> codigo != [] && Strip(codigo) in codigoAba
      ensures r.Some? ==> r.value == codigoAba[Strip(codigo)]
      ensures Valid() && r.Some? ==> IsAba(r.value)
    {
      if codigo == [] then None
      else
        var c := Strip(codigo);
        if c in codigoAba then Some(codigoAba[c]) else None
    }

    /** `get_uo_por_cnpj`: the unit of the CNPJ, looked up in its formatted spelling. */
    function GetUoPorCnpj(cnpj: string): (r: Option<string>)
      reads this
      ensures |DigitsOf(cnpj)| != 14 ==> r.None?
      ensures r.Some? <==> Cnpj.Format(cnpj) != [] && Cnpj.Format(cnpj) in cnpjUo
      ensures r.Some? ==> r.value == cnpjUo[Cnpj.Format(cnpj)]
    {
      if cnpj == [] then None
      else
        var f := Cnpj.Format(cnpj);
        if f == [] then None
        else if f in cnpjUo then Some(cnpjUo[f]) else None
    }

    /** `get_todos_codigos`: every (code, tab) row, in code order. */
    method GetTodosCodigos() returns (rows: seq<(string, string)>)
      ensures Sorted(rows)
      ensures forall p :: p in rows <==> p.0 in codigoAba && codigoAba[p.0] == p.1
    {
      rows := SortedRows(codigoAba);
    }

    /** `get_todos_cnpjs`: every (CNPJ, unit) row, in CNPJ order. */
    method GetTodosCnpjs() returns (rows: seq<(string, string)>)
      ensures Sorted(rows)
      ensures forall p :: p in rows <==> p.0 in cnpjUo && cnpjUo[p.0] == p.1
    {
      rows := SortedRows(cnpjUo);
    }

    /** `adicionar_codigo` */
    method AddCodigo(codigo: string, aba: string) returns (ok: bool, message: string)
      requires Valid()
      modifies this
      ensures Valid()
      ensures cnpjUo == old(cnpjUo)
      ensures ok <==> codigo != [] && IsCodigo(Strip(codigo)) && IsAba(aba) && Strip(codigo) !in old(codigoAba)
      ensures ok ==> codigoAba == old(codigoAba)[Strip(codigo) := aba]
      ensures ok ==> GetAbaPorCodigo(codigo) == Some(aba) && message == CodigoAdicionado(Strip(codigo))
      ensures !ok ==> codigoAba == old(codigoAba)
      ensures codigo == [] ==> message == CodigoVazio
      ensures codigo != [] && !IsCodigo(Strip(codigo)) ==> message == CodigoQuatroDigitos
      ensures codigo != [] && IsCodigo(Strip(codigo)) && !IsAba(aba) ==> message == AbaInvalida
      ensures codigo != [] && IsCodigo(Strip(codigo)) && IsAba(aba) && Strip(codigo) in old(codigoAba) ==>
                message == CodigoJaExiste(Strip(codigo))
    {
      if codigo == [] {
        return false, CodigoVazio;
      }
      var c := Strip(codigo);
      if !IsCodigo(c) {
        return false, CodigoQuatroDigitos;
      }
      if !IsAba(aba) {
        return false, AbaInvalida;
      }
      if c in codigoAba {
        return false, CodigoJaExiste(c);
      }
      codigoAba := codigoAba[c := aba];
      return true, CodigoAdicionado(c);
    }

    /** `remover_codigo` */
    method RemoveCodigo(codigo: string) returns (ok: bool, message: string)
      requires Valid()
      modifies this
      ensures Valid()
      ensures cnpjUo == old(cnpjUo)
      ensures ok <==> codigo != [] && Strip(codigo) in old(codigoAba)
      ensures ok ==> codigoAba == old(codigoAba) - {Strip(codigo)}
      ensures ok ==> GetAbaPorCodigo(codigo).None? && message == CodigoRemovido(Strip(codigo))
      ensures !ok ==> codigoAba == old(codigoAba)
      ensures codigo == [] ==> message == CodigoVazio
      ensures codigo != [] && Strip(codigo) !in old(codigoAba) ==> message == CodigoNaoEncontrado(Strip(codigo))
    {
      if codigo == [] {
        return false, CodigoVazio;
      }
      var c := Strip(codigo);
      if c !in codigoAba {
        return false, CodigoNaoEncontrado(c);
      }
      codigoAba := codigoAba - {c};
      return true, CodigoRemovido(c);
    }

    /**
     * `adicionar_cnpj`. The "14 digits" check after the check-digit test
     * never fails (see `FormatAfterValidation`).
     */
    method AddCnpj(cnpj: string, uo: string) returns (ok: bool, message: string)
      requires Valid()
      modifies this
      ensures Valid()
      ensures codigoAba == old(codigoAba)
      ensures ok <==> && cnpj != [] && uo != [] && Cnpj.IsValid(cnpj) && Cnpj.Format(cnpj) != []
                      && IsUo(Strip(uo)) && Cnpj.Format(cnpj) !in old(cnpjUo)
      ensures ok ==> cnpjUo == old(cnpjUo)[Cnpj.Format(cnpj) := Strip(uo)]
      ensures ok ==> message == CnpjAdicionado(Cnpj.Format(cnpj))
      ensures ok ==> GetUoPorCnpj(cnpj) == Some(Strip(uo)) && GetUoPorCnpj(Cnpj.Format(cnpj)) == Some(Strip(uo))
      ensures !ok ==> cnpjUo == old(cnpjUo)
      ensures cnpj == [] ==> message == CnpjVazio
      ensures cnpj != [] && uo == [] ==> message == UoVazia
      ensures cnpj != [] && uo != [] && !Cnpj.IsValid(cnpj) ==> message == CnpjDigitosInvalidos
      ensures cnpj != [] && uo != [] && Cnpj.IsValid(cnpj) && Cnpj.Format(cnpj) != [] && !IsUo(Strip(uo)) ==>
                message == UoNaoNumerica
      ensures (&& cnpj != [] && uo != [] && Cnpj.IsValid(cnpj) && Cnpj.Format(cnpj) != [] && IsUo(Strip(uo))
               && Cnpj.Format(cnpj) in old(cnpjUo)) ==> message == CnpjJaExiste(Cnpj.Format(cnpj))
    {
      if cnpj == [] {
        return false, CnpjVazio;
      }
      if uo == [] {
        return false, UoVazia;
      }
      if !Cnpj.IsValid(cnpj) {
        return false, CnpjDigitosInvalidos;
      }
      var f := Cnpj.Format(cnpj);
      if f == [] {
        return false, CnpjTamanhoInvalido;
      }
      var u := Strip(uo);
      if !IsUo(u) {
        return false, UoNaoNumerica;
      }
      if f in cnpjUo {
        return false, CnpjJaExiste(f);
      }
      cnpjUo := cnpjUo[f := u];
      Cnpj.FormatIdempotent(cnpj);
      return true, CnpjAdicionado(f);
    }

    /** `remover_cnpj` */
    method RemoveCnpj(cnpj: string) returns (ok: bool, message: string)
      requires Valid()
      modifies this
      ensures Valid()
      ensures codigoAba == old(codigoAba)
      ensures ok <==> cnpj != [] && Cnpj.Format(cnpj) != [] && Cnpj.Format(cnpj) in old(cnpjUo)
      ensures ok ==> cnpjUo == old(cnpjUo) - {Cnpj.Format(cnpj)}
      ensures ok ==> GetUoPorCnpj(cnpj).None? && message == CnpjRemovido(Cnpj.Format(cnpj))
      ensures !ok ==> cnpjUo == old(cnpjUo)
      ensures cnpj == [] ==> message == CnpjVazio
      ensures cnpj != [] && Cnpj.Format(cnpj) == [] ==> message == CnpjTamanhoInvalido
      ensures cnpj != [] && Cnpj.Format(cnpj) != [] && Cnpj.Format(cnpj) !in old(cnpjUo) ==>
                message == CnpjNaoEncontrado(Cnpj.Format(cnpj))
    {
      if cnpj == [] {
        return false, CnpjVazio;
      }
      var f := Cnpj.Format(cnpj);
      if f == [] {
        return false, CnpjTamanhoInvalido;
      }
      if f !in cnpjUo {
        return false, CnpjNaoEncontrado(f);
      }
      cnpjUo := cnpjUo - {f};
      return true, CnpjRemovido(f);
    }
  }

  /** The seed rows satisfy the store's invariant, and no key is seeded twice. */
  lemma DefaultsWellFormed()
    ensures forall i :: 0 <= i < |CodigosPadrao| ==> IsCodigo(CodigosPadrao[i].0) && IsAba(CodigosPadrao[i].1)
    ensures forall i :: 0 <= i < |CnpjsPadrao| ==> IsUo(CnpjsPadrao[i].1)
    ensures DistinctKeys(CodigosPadrao) && DistinctKeys(CnpjsPadrao)
  {
    DefaultCodesDistinct();
    DefaultCnpjsDistinct();
  }

  lemma DefaultCodesDistinct()
    ensures DistinctKeys(CodigosPadrao)
  {
  }

  lemma DefaultCnpjsDistinct()
    ensures DistinctKeys(CnpjsPadrao)
  {
  }

  /** No two rows share a key. */
  predicate DistinctKeys(rows: seq<(string, string)>) {
    forall i, j :: 0 <= i < j < |rows| ==> rows[i].0 != rows[j].0
  }

  /** The seeding loop: one `session.add` per default row, into an empty table. */
  method SeedTable(rows: seq<(string, string)>) returns (table: map<string, string>)
    requires DistinctKeys(rows)
    ensures table.Keys == set i | 0 <= i < |rows| :: rows[i].0
    ensures forall i :: 0 <= i < |rows| ==> table[rows[i].0] == rows[i].1
  {
    table := map[];
    for i := 0 to |rows|
      invariant table.Keys == set j | 0 <= j < i :: rows[j].0
      invariant forall j :: 0 <= j < i ==> table[rows[j].0] == rows[j].1
    {
      assert (set j | 0 <= j < i + 1 :: rows[j].0) == (set j | 0 <= j < i :: rows[j].0) + {rows[i].0};
      table := table[rows[i].0 := rows[i].1];
    }
  }

  /**
   * In `adicionar_cnpj`, a CNPJ that passed the check-digit test always
   * formats, so the "deve ter 14 dígitos" message is never produced there.
   */
  lemma FormatAfterValidation(cnpj: string)
    requires cnpj != [] && Cnpj.IsValid(cnpj)
    ensures Cnpj.Format(cnpj) != [] && Cnpj.Shaped(Cnpj.Format(cnpj))
  {
    Cnpj.ValidIsFormattable(cnpj);
  }

  /** A CNPJ is found under any spelling with the same digits once it is stored. */
  lemma LookupIgnoresSpelling(store: RuleStore, x: string, y: string)
    requires DigitsOf(x) == DigitsOf(y)
    ensures store.GetUoPorCnpj(x) == store.GetUoPorCnpj(y)
  {
    Cnpj.FormatDependsOnDigits(x, y);
  }
}
