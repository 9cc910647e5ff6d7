/**
 * Schema translation and row normalisation of the salary dataset
 * (common.py: the translation tables, `traduzir_colunas`,
 * `traduzir_cargos_comuns`, `traduzir_valores` and `processar_dados`).
 *
 * A dataset is a sequence of rows. Before normalisation every cell may be
 * missing (pandas NaN, here None); after it every cell is present and the
 * year is an integer.
 */
module Schema {
  import opened Wrappers
  import Seqs

  /**
   * A cell of the `remota` column. The raw column holds remote-work
   * percentages; translation turns 0, 50 and 100 into labels and leaves any
   * other percentage as it was, so the column can mix both kinds.
   */
  datatype Remote = Label(name: string) | RawRatio(ratio: int)

  /** A row before normalisation, with the canonical column names; None is a missing cell. */
  datatype RawRow = RawRow(
    ano: Option<real>,
    senioridade: Option<string>,
    contrato: Option<string>,
    cargo: Option<string>,
    salario: Option<real>,
    usd: Option<string>,
    salarioUsd: Option<real>,
    residencia: Option<string>,
    remota: Option<Remote>,
    empresa: Option<string>,
    tamanhoEmpresa: Option<string>)

  /** A row of the canonical dataset: every cell present, the year an integer. */
  datatype Row = Row(
    ano: int,
    senioridade: string,
    contrato: string,
    cargo: string,
    salario: real,
    usd: string,
    salarioUsd: real,
    residencia: string,
    remota: Remote,
    empresa: string,
    tamanhoEmpresa: string)

  // ---------------------------------------------------------------------------
  // Column names (COLUNAS_TRADUZIDAS, traduzir_colunas)
  // ---------------------------------------------------------------------------

  /** The eleven columns of the source file, in file order. */
  const RawColumns: seq<string> := [
    "work_year", "experience_level", "employment_type", "job_title", "salary",
    "salary_currency", "salary_in_usd", "employee_residence", "remote_ratio",
    "company_location", "company_size"]

  /** Their canonical names, in the same order. */
  const CanonicalColumns: seq<string> := [
    "ano", "senioridade", "contrato", "cargo", "salario", "usd", "salario_usd",
    "residencia", "remota", "empresa", "tamanho_empresa"]

  const ColumnNames: map<string, string> := map[
    "work_year" := "ano",
    "experience_level" := "senioridade",
    "employment_type" := "contrato",
    "job_title" := "cargo",
    "salary" := "salario",
    "salary_currency" := "usd",
    "salary_in_usd" := "salario_usd",
    "employee_residence" := "residencia",
    "remote_ratio" := "remota",
    "company_location" := "empresa",
    "company_size" := "tamanho_empresa"]

  /** pandas `rename(columns=...)`: a listed column gets its new name, any other keeps its own. */
  function RenameColumn(c: string): (r: string)
    ensures c in ColumnNames ==> r == ColumnNames[c]
    ensures c !in ColumnNames ==> r == c
  {
    if c in ColumnNames then ColumnNames[c] else c
  }

  /** `traduzir_colunas` on the header of a frame. */
  function RenameColumns(columns: seq<string>): (r: seq<string>)
    ensures |r| == |columns|
    ensures forall i :: 0 <= i < |columns| ==> r[i] == RenameColumn(columns[i])
  {
    seq(|columns|, i requires 0 <= i < |columns| => RenameColumn(columns[i]))
  }

  /** The header of the source file becomes the canonical header. */
  lemma RenameRawHeader()
    ensures RenameColumns(RawColumns) == CanonicalColumns
  {
  }

  /** No two raw columns are renamed to the same name, and no name is renamed twice. */
  lemma RenameInjective(a: string, b: string)
    requires a in ColumnNames && b in ColumnNames && a != b
    ensures ColumnNames[a] != ColumnNames[b]
    ensures ColumnNames[a] !in ColumnNames
  {
  }

  // ---------------------------------------------------------------------------
  // Value tables (TRADUCAO_*, traduzir_cargos_comuns)
  // ---------------------------------------------------------------------------

  const SeniorityLabels: map<string, string> := map[
    "EN" := "junior", "MI" := "Pleno", "SE" := "Senior", "EX" := "executivo"]

  const ContractLabels: map<string, string> := map[
    "FT" := "Tempo Integral", "PT" := "Meio Período", "CT" := "Contrato", "FL" := "Freelancer"]

  const CompanySizeLabels: map<string, string> := map[
    "S" := "Pequena", "M" := "Média", "L" := "Grande"]

  const RemoteLabels: map<int, string> := map[
    0 := "Presencial", 50 := "Híbrido", 100 := "Remoto"]

  /** The label `gerar_insights` looks for as fully remote work. */
  const RemoteLabel: string := "Remoto"
  /** The label `gerar_insights` looks for as on-site work. */
  const OnSiteLabel: string := "Presencial"

  const TitleLabels: map<string, string> := map[
    "Data Scientist" := "Cientista de Dados",
    "Data Engineer" := "Engenheiro de Dados",
    "Data Analyst" := "Analista de Dados",
    "Machine Learning Engineer" := "Engenheiro de Machine Learning",
    "Research Scientist" := "Cientista de Pesquisa",
    "Data Science Manager" := "Gerente de Ciência de Dados",
    "Data Architect" := "Arquiteto de Dados",
    "Analytics Engineer" := "Engenheiro de Analytics",
    "Business Intelligence Developer" := "Desenvolvedor de Business Intelligence",
    "Data Science Consultant" := "Consultor de Ciência de Dados",
    "Head of Data" := "Diretor de Dados",
    "Principal Data Scientist" := "Cientista de Dados Principal",
    "ML Engineer" := "Engenheiro de ML",
    "Applied Scientist" := "Cientista Aplicado",
    "Research Team Lead" := "Líder de Equipe de Pesquisa",
    "Analytics Engineering Manager" := "Gerente de Engenharia de Analytics",
    "Data Science Tech Lead" := "Líder Técnico de Ciência de Dados",
    "Applied AI ML Lead" := "Líder de IA e ML Aplicados",
    "Head of Applied AI" := "Diretor de IA Aplicada",
    "Head of Machine Learning" := "Diretor de Machine Learning",
    "Machine Learning Performance Engineer" := "Engenheiro de Performance de ML",
    "Director of Product Management" := "Diretor de Gestão de Produtos",
    "Engineering Manager" := "Gerente de Engenharia",
    "AWS Data Architect" := "Arquiteto de Dados AWS"]

  /** `traduzir_cargos_comuns`: a well-known title gets its display name, any other passes through. */
  function TranslateTitle(cargo: string): (r: string)
    ensures cargo in TitleLabels ==> r == TitleLabels[cargo]
    ensures cargo !in TitleLabels ==> r == cargo
  {
    if cargo in TitleLabels then TitleLabels[cargo] else cargo
  }

  /**
   * pandas `Series.replace(table)` on one cell: a cell equal to a key becomes
   * its label; any other cell, and a missing one, stays as it is.
   */
  function Recode(table: map<string, string>, cell: Option<string>): (r: Option<string>)
    ensures cell.None? ==> r.None?
    ensures cell.Some? && cell.value in table ==> r == Some(table[cell.value])
    ensures cell.Some? && cell.value !in table ==> r == cell
  {
    match cell
    case None => None
    case Some(v) => if v in table then Some(table[v]) else cell
  }

  /** `replace(TRADUCAO_REMOTA)` on one cell: only the ratios 0, 50 and 100 become labels. */
  function RecodeRemote(cell: Option<Remote>): (r: Option<Remote>)
    ensures cell.Some? && cell.value.RawRatio? && cell.value.ratio in RemoteLabels ==>
      r == Some(Label(RemoteLabels[cell.value.ratio]))
    ensures !(cell.Some? && cell.value.RawRatio? && cell.value.ratio in RemoteLabels) ==> r == cell
  {
    match cell
    case Some(RawRatio(n)) => if n in RemoteLabels then Some(Label(RemoteLabels[n])) else cell
    case _ => cell
  }

  /** `.apply(traduzir_cargos_comuns)`; a missing title stays missing. */
  function RecodeTitle(cell: Option<string>): (r: Option<string>)
    ensures cell.None? ==> r.None?
    ensures cell.Some? ==> r == Some(TranslateTitle(cell.value))
  {
    match cell
    case None => None
    case Some(v) => Some(TranslateTitle(v))
  }

  // The five column overwrites of `traduzir_valores`, one row at a time.

  function WithSeniority(r: RawRow): RawRow { r.(senioridade := Recode(SeniorityLabels, r.senioridade)) }
  function WithContract(r: RawRow): RawRow { r.(contrato := Recode(ContractLabels, r.contrato)) }
  function WithCompanySize(r: RawRow): RawRow { r.(tamanhoEmpresa := Recode(CompanySizeLabels, r.tamanhoEmpresa)) }
  function WithRemote(r: RawRow): RawRow { r.(remota := RecodeRemote(r.remota)) }
  function WithTitle(r: RawRow): RawRow { r.(cargo := RecodeTitle(r.cargo)) }

  /** What `traduzir_valores` does to one row. */
  function TranslateRow(r: RawRow): RawRow {
    WithTitle(WithRemote(WithCompanySize(WithContract(WithSeniority(r)))))
  }

  /**
   * The translation recodes the seniority, contract, company size, remote and
   * title columns, each through its own table, and leaves every other column
   * as it was.
   */
  lemma TranslateRowColumns(r: RawRow)
    ensures var t := TranslateRow(r);
      t.senioridade == Recode(SeniorityLabels, r.senioridade) &&
      t.contrato == Recode(ContractLabels, r.contrato) &&
      t.tamanhoEmpresa == Recode(CompanySizeLabels, r.tamanhoEmpresa) &&
      t.remota == RecodeRemote(r.remota) &&
      t.cargo == RecodeTitle(r.cargo) &&
      t.(senioridade := r.senioridade, contrato := r.contrato, tamanhoEmpresa := r.tamanhoEmpresa,
        remota := r.remota, cargo := r.cargo) == r
  {
  }

  /** Listed codes become their labels. */
  lemma TranslateListed(r: RawRow)
    ensures r.senioridade.Some? && r.senioridade.value in SeniorityLabels ==>
      TranslateRow(r).senioridade == Some(SeniorityLabels[r.senioridade.value])
    ensures r.contrato.Some? && r.contrato.value in ContractLabels ==>
      TranslateRow(r).contrato == Some(ContractLabels[r.contrato.value])
    ensures r.tamanhoEmpresa.Some? && r.tamanhoEmpresa.value in CompanySizeLabels ==>
      TranslateRow(r).tamanhoEmpresa == Some(CompanySizeLabels[r.tamanhoEmpresa.value])
    ensures r.remota.Some? && r.remota.value.RawRatio? && r.remota.value.ratio in RemoteLabels ==>
      TranslateRow(r).remota == Some(Label(RemoteLabels[r.remota.value.ratio]))
    ensures r.cargo.Some? && r.cargo.value in TitleLabels ==>
      TranslateRow(r).cargo == Some(TitleLabels[r.cargo.value])
  {
  }

  /**
   * Identity fallback: an unlisted code, a title outside the table, a remote
   * ratio other than 0, 50 and 100 and a missing cell all stay as they were,
   * and the six columns that are not recoded never change.
   */
  lemma TranslateUnlisted(r: RawRow)
    ensures (r.senioridade.None? || r.senioridade.value !in SeniorityLabels) ==>
      TranslateRow(r).senioridade == r.senioridade
    ensures (r.contrato.None? || r.contrato.value !in ContractLabels) ==>
      TranslateRow(r).contrato == r.contrato
    ensures (r.tamanhoEmpresa.None? || r.tamanhoEmpresa.value !in CompanySizeLabels) ==>
      TranslateRow(r).tamanhoEmpresa == r.tamanhoEmpresa
    ensures (r.remota.None? || r.remota.value.Label? || r.remota.value.ratio !in {0, 50, 100}) ==>
      TranslateRow(r).remota == r.remota
    ensures (r.cargo.None? || r.cargo.value !in TitleLabels) ==> TranslateRow(r).cargo == r.cargo
    ensures var t := TranslateRow(r);
      t.ano == r.ano && t.salario == r.salario && t.usd == r.usd && t.salarioUsd == r.salarioUsd &&
      t.residencia == r.residencia && t.empresa == r.empresa
  {
  }

  /** No label is itself a code, so translating a translated row changes nothing. */
  lemma {:induction false} TranslateIdempotent(r: RawRow)
    ensures TranslateRow(TranslateRow(r)) == TranslateRow(r)
  {
    SeniorityLabelsAreNotCodes();
    ContractLabelsAreNotCodes();
    CompanySizeLabelsAreNotCodes();
    TitleLabelsAreNotTitles();
    var t := TranslateRow(r);
    assert Recode(SeniorityLabels, t.senioridade) == t.senioridade;
    assert Recode(ContractLabels, t.contrato) == t.contrato;
    assert Recode(CompanySizeLabels, t.tamanhoEmpresa) == t.tamanhoEmpresa;
    assert RecodeRemote(t.remota) == t.remota;
    assert RecodeTitle(t.cargo) == t.cargo;
  }

  lemma SeniorityLabelsAreNotCodes()
    ensures forall k :: k in SeniorityLabels ==> SeniorityLabels[k] !in SeniorityLabels
  {
  }

  lemma ContractLabelsAreNotCodes()
    ensures forall k :: k in ContractLabels ==> ContractLabels[k] !in ContractLabels
  {
  }

  lemma CompanySizeLabelsAreNotCodes()
    ensures forall k :: k in CompanySizeLabels ==> CompanySizeLabels[k] !in CompanySizeLabels
  {
  }

  lemma TitleLabelsAreNotTitles1()
    ensures "Cientista de Dados" !in TitleLabels &&
      "Engenheiro de Dados" !in TitleLabels &&
      "Analista de Dados" !in TitleLabels &&
      "Engenheiro de Machine Learning" !in TitleLabels &&
      "Cientista de Pesquisa" !in TitleLabels &&
      "Gerente de Ciência de Dados" !in TitleLabels
  {
  }

  lemma TitleLabelsAreNotTitles2()
    ensures "Arquiteto de Dados" !in TitleLabels &&
      "Engenheiro de Analytics" !in TitleLabels &&
      "Desenvolvedor de Business Intelligence" !in TitleLabels &&
      "Consultor de Ciência de Dados" !in TitleLabels &&
      "Diretor de Dados" !in TitleLabels &&
      "Cientista de Dados Principal" !in TitleLabels
  {
  }

  lemma TitleLabelsAreNotTitles3()
    ensures "Engenheiro de ML" !in TitleLabels &&
      "Cientista Aplicado" !in TitleLabels &&
      "Líder de Equipe de Pesquisa" !in TitleLabels &&
      "Gerente de Engenharia de Analytics" !in TitleLabels &&
      "Líder Técnico de Ciência de Dados" !in TitleLabels &&
      "Líder de IA e ML Aplicados" !in TitleLabels
  {
  }

  lemma TitleLabelsAreNotTitles4()
    ensures "Diretor de IA Aplicada" !in TitleLabels &&
      "Diretor de Machine Learning" !in TitleLabels &&
      "Engenheiro de Performance de ML" !in TitleLabels &&
      "Diretor de Gestão de Produtos" !in TitleLabels &&
      "Gerente de Engenharia" !in TitleLabels &&
      "Arquiteto de Dados AWS" !in TitleLabels
  {
  }

  /** No display title is itself one of the translated titles. */
  lemma TitleLabelsAreNotTitles()
    ensures forall k :: k in TitleLabels ==> TitleLabels[k] !in TitleLabels
  {
    TitleLabelsAreNotTitles1();
    TitleLabelsAreNotTitles2();
    TitleLabelsAreNotTitles3();
    TitleLabelsAreNotTitles4();
  }

  /** `df_traduzido[col] = df_traduzido[col].<recode>`: overwrite one column of every row. */
  method OverwriteColumn(df: seq<RawRow>, recode: RawRow -> RawRow) returns (out: seq<RawRow>)
    ensures |out| == |df|
    ensures forall i :: 0 <= i < |df| ==> out[i] == recode(df[i])
  {
    out := df;
    var i := 0;
    while i < |out|
      invariant 0 <= i <= |out| == |df|
      invariant forall k :: 0 <= k < i ==> out[k] == recode(df[k])
      invariant forall k :: i <= k < |out| ==> out[k] == df[k]
    {
      out := out[i := recode(out[i])];
      i := i + 1;
    }
  }

  /**
   * `traduzir_valores`: a copy of the frame whose seniority, contract,
   * company-size, remote and title columns are overwritten one after another.
   * The input sequence is a value, so the caller's frame is never changed.
   */
  method TranslateValues(df: seq<RawRow>) returns (out: seq<RawRow>)
    ensures |out| == |df|
    ensures forall i :: 0 <= i < |df| ==> out[i] == TranslateRow(df[i])
  {
    var copy := df;
    copy := OverwriteColumn(copy, WithSeniority);
    var s1 := copy;
    copy := OverwriteColumn(copy, WithContract);
    var s2 := copy;
    copy := OverwriteColumn(copy, WithCompanySize);
    var s3 := copy;
    copy := OverwriteColumn(copy, WithRemote);
    var s4 := copy;
    copy := OverwriteColumn(copy, WithTitle);
    assert forall i :: 0 <= i < |df| ==> s1[i] == WithSeniority(df[i]);
    assert forall i :: 0 <= i < |df| ==> s2[i] == WithContract(s1[i]);
    assert forall i :: 0 <= i < |df| ==> s3[i] == WithCompanySize(s2[i]);
    assert forall i :: 0 <= i < |df| ==> s4[i] == WithRemote(s3[i]);
    out := copy;
  }

  // ---------------------------------------------------------------------------
  // Normalisation (dropna, astype('int64'))
  // ---------------------------------------------------------------------------

  /** No cell of the row is missing. */
  predicate IsComplete(r: RawRow) {
    r.ano.Some? && r.senioridade.Some? && r.contrato.Some? && r.cargo.Some? &&
    r.salario.Some? && r.usd.Some? && r.salarioUsd.Some? && r.residencia.Some? &&
    r.remota.Some? && r.empresa.Some? && r.tamanhoEmpresa.Some?
  }

  /** pandas `astype('int64')` on a float year: truncation toward zero. */
  function TruncateYear(y: real): (n: int)
    ensures y >= 0.0 ==> n as real <= y < n as real + 1.0
    ensures y < 0.0 ==> n as real - 1.0 < y <= n as real
  {
    if y >= 0.0 then y.Floor else -((-y).Floor)
  }

  /** An integral year survives the conversion exactly. */
  lemma TruncateIntegral(n: int)
    ensures TruncateYear(n as real) == n
  {
  }

  /** `dropna()`: the complete rows, in their original order. */
  function CompleteRows(df: seq<RawRow>): (r: seq<RawRow>)
    ensures forall x :: x in r <==> x in df && IsComplete(x)
    ensures forall i :: 0 <= i < |r| ==> IsComplete(r[i])
  {
    Seqs.Filter(df, IsComplete)
  }

  /** `dropna` works row by row: a frame's parts are cleaned separately and kept in order. */
  lemma CompleteRowsAppend(a: seq<RawRow>, b: seq<RawRow>)
    ensures CompleteRows(a + b) == CompleteRows(a) + CompleteRows(b)
  {
    Seqs.FilterAppend(a, b, IsComplete);
  }

  /** One row is kept, once, exactly when it has no missing cell. */
  lemma CompleteRowsSingle(x: RawRow)
    ensures CompleteRows([x]) == if IsComplete(x) then [x] else []
  {
    assert [x][1..] == [];
  }

  /** A complete row with its year converted to an integer. */
  function ToRow(r: RawRow): (row: Row)
    requires IsComplete(r)
    ensures row.ano == TruncateYear(r.ano.value)
    ensures Embed(row) == r.(ano := Some(row.ano as real))
  {
    Row(TruncateYear(r.ano.value), r.senioridade.value, r.contrato.value, r.cargo.value,
        r.salario.value, r.usd.value, r.salarioUsd.value, r.residencia.value,
        r.remota.value, r.empresa.value, r.tamanhoEmpresa.value)
  }

  /** A canonical row seen as a raw row again (every cell present). */
  function Embed(row: Row): (r: RawRow)
    ensures IsComplete(r)
  {
    RawRow(Some(row.ano as real), Some(row.senioridade), Some(row.contrato), Some(row.cargo),
           Some(row.salario), Some(row.usd), Some(row.salarioUsd), Some(row.residencia),
           Some(row.remota), Some(row.empresa), Some(row.tamanhoEmpresa))
  }

  /** Embedding and converting back is the identity on canonical rows. */
  lemma ToRowEmbed(row: Row)
    ensures ToRow(Embed(row)) == row
  {
    TruncateIntegral(row.ano);
  }

  predicate HasIntegralYear(r: RawRow) {
    r.ano.Some? ==> r.ano.value == r.ano.value.Floor as real
  }

  /** The normalised dataset: every complete row, converted, in order. */
  function Normalize(df: seq<RawRow>): (rows: seq<Row>)
    ensures |rows| == |CompleteRows(df)|
    ensures forall i :: 0 <= i < |rows| ==> rows[i] == ToRow(CompleteRows(df)[i])
  {
    var kept := CompleteRows(df);
    seq(|kept|, i requires 0 <= i < |kept| => ToRow(kept[i]))
  }

  /**
   * When every year in the input is integral, the normalised rows are exactly
   * the complete input rows, in their original order.
   */
  lemma NormalizeKeepsCompleteRows(df: seq<RawRow>)
    requires forall i :: 0 <= i < |df| ==> HasIntegralYear(df[i])
    ensures |Normalize(df)| == |CompleteRows(df)|
    ensures forall i :: 0 <= i < |Normalize(df)| ==> Embed(Normalize(df)[i]) == CompleteRows(df)[i]
  {
    var kept := CompleteRows(df);
    forall i | 0 <= i < |kept| ensures Embed(Normalize(df)[i]) == kept[i] {
      assert kept[i] in df;
      var j :| 0 <= j < |df| && df[j] == kept[i];
      assert HasIntegralYear(df[j]);
      var y := kept[i].ano.value;
      TruncateIntegral(y.Floor);
      assert TruncateYear(y) as real == y;
    }
  }

  /** The values `traduzir_valores` produces for a sequence of rows. */
  function TranslateAll(df: seq<RawRow>): (out: seq<RawRow>)
    ensures |out| == |df|
    ensures forall i :: 0 <= i < |df| ==> out[i] == TranslateRow(df[i])
  {
    seq(|df|, i requires 0 <= i < |df| => TranslateRow(df[i]))
  }

  /** Translation never changes which rows are complete. */
  lemma TranslatePreservesCompleteness(r: RawRow)
    ensures IsComplete(TranslateRow(r)) <==> IsComplete(r)
    ensures HasIntegralYear(TranslateRow(r)) <==> HasIntegralYear(r)
  {
  }

  /**
   * `processar_dados` after the fetch: rename the columns, translate the
   * values, drop incomplete rows and convert the year to an integer, the frame
   * being rebound after each step.
   */
  method ProcessData(columns: seq<string>, raw: seq<RawRow>) returns (header: seq<string>, df: seq<Row>)
    ensures header == RenameColumns(columns)
    ensures df == Normalize(TranslateAll(raw))
  {
    header := RenameColumns(columns);
    var translated := TranslateValues(raw);
    assert translated == TranslateAll(raw);
    df := ConvertYears(translated);
  }

  /** Drop the incomplete rows and convert each remaining year to an integer. */
  method ConvertYears(translated: seq<RawRow>) returns (df: seq<Row>)
    ensures df == Normalize(translated)
  {
    var kept := CompleteRows(translated);
    df := [];
    var i := 0;
    while i < |kept|
      invariant 0 <= i <= |kept|
      invariant |df| == i
      invariant forall k :: 0 <= k < i ==> df[k] == ToRow(kept[k])
    {
      df := df + [ToRow(kept[i])];
      i := i + 1;
    }
    ghost var expected := Normalize(translated);
    assert |expected| == |df|;
    assert forall k :: 0 <= k < |df| ==> expected[k] == df[k];
  }
}
