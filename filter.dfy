/**
 * The filter engine `filtrar_dataframe`: a conjunction of four closed
 * inclusion lists (year, seniority, contract, company size), where an empty
 * list matches nothing, and one open optional title list, where an empty or
 * absent list imposes no restriction.
 */
module Filter {
  import opened Wrappers
  import opened Schema
  import Seqs

  /** The user's selection, one list per filter dimension. */
  datatype Criteria = Criteria(
    anos: seq<int>,
    senioridades: seq<string>,
    contratos: seq<string>,
    tamanhosEmpresa: seq<string>,
    cargos: Option<seq<string>>)

  /** A closed inclusion predicate (pandas `isin`): an empty list admits nothing. */
  predicate InClosed<T(==)>(x: T, allowed: seq<T>) {
    x in allowed
  }

  /** An open inclusion predicate: absent or empty admits everything. */
  predicate InOpen<T(==)>(x: T, allowed: Option<seq<T>>) {
    allowed.None? || |allowed.value| == 0 || x in allowed.value
  }

  /** The boolean mask of the four mandatory dimensions. */
  predicate MandatoryMask(r: Row, c: Criteria) {
    InClosed(r.ano, c.anos) && InClosed(r.senioridade, c.senioridades) &&
    InClosed(r.contrato, c.contratos) && InClosed(r.tamanhoEmpresa, c.tamanhosEmpresa)
  }

  /** The title mask, applied only when a non-empty title list was given. */
  predicate TitleActive(c: Criteria) {
    c.cargos.Some? && |c.cargos.value| > 0
  }

  /** A row is kept when it passes every dimension. */
  predicate Selected(r: Row, c: Criteria) {
    MandatoryMask(r, c) && InOpen(r.cargo, c.cargos)
  }

  /**
   * `filtrar_dataframe`: mask by the four mandatory lists, then, if a
   * non-empty title list is given, mask the result by title.
   */
  function FilterRows(df: seq<Row>, c: Criteria): (out: seq<Row>)
    ensures |out| <= |df|
    ensures forall r :: r in out <==> r in df && Selected(r, c)
  {
    var masked := Seqs.Filter(df, r => MandatoryMask(r, c));
    if TitleActive(c) then Seqs.Filter(masked, (r: Row) => r.cargo in c.cargos.value) else masked
  }

  /** The two masks together keep exactly the rows that pass every dimension, in their original order. */
  lemma FilterIsOneMask(df: seq<Row>, c: Criteria)
    ensures FilterRows(df, c) == Seqs.Filter(df, r => Selected(r, c))
  {
    if TitleActive(c) {
      Seqs.FilterFilter(df, (r: Row) => MandatoryMask(r, c), (r: Row) => r.cargo in c.cargos.value, (r: Row) => Selected(r, c));
    } else {
      Seqs.FilterSame(df, r => MandatoryMask(r, c), r => Selected(r, c));
    }
  }

  /** Filtering a concatenation filters each part: the order of rows is kept. */
  lemma FilterPreservesOrder(a: seq<Row>, b: seq<Row>, c: Criteria)
    ensures FilterRows(a + b, c) == FilterRows(a, c) + FilterRows(b, c)
  {
    FilterIsOneMask(a + b, c);
    FilterIsOneMask(a, c);
    FilterIsOneMask(b, c);
    Seqs.FilterAppend(a, b, r => Selected(r, c));
  }

  /** An empty mandatory list selects nothing. */
  lemma EmptyMandatoryListSelectsNothing(df: seq<Row>, c: Criteria)
    requires c.anos == [] || c.senioridades == [] || c.contratos == [] || c.tamanhosEmpresa == []
    ensures FilterRows(df, c) == []
  {
    FilterIsOneMask(df, c);
    Seqs.FilterNone(df, r => Selected(r, c));
  }

  /** Without an active title list only the mandatory mask applies. */
  lemma InactiveTitleIsMandatoryMask(df: seq<Row>, c: Criteria)
    requires !TitleActive(c)
    ensures FilterRows(df, c) == Seqs.Filter(df, r => MandatoryMask(r, c))
  {
  }

  /** An absent title list and an empty one both leave the title unrestricted. */
  lemma NoTitleRestriction(df: seq<Row>, c: Criteria)
    requires !TitleActive(c)
    ensures FilterRows(df, c) == FilterRows(df, c.(cargos := None))
    ensures FilterRows(df, c) == FilterRows(df, c.(cargos := Some([])))
  {
    SameMandatoryMask(df, c, c.(cargos := None));
    SameMandatoryMask(df, c, c.(cargos := Some([])));
  }

  /** The title list does not take part in the mandatory mask. */
  lemma SameMandatoryMask(df: seq<Row>, c: Criteria, d: Criteria)
    requires !TitleActive(c) && !TitleActive(d)
    requires c.(cargos := None) == d.(cargos := None)
    ensures FilterRows(df, c) == FilterRows(df, d)
  {
    InactiveTitleIsMandatoryMask(df, c);
    InactiveTitleIsMandatoryMask(df, d);
    Seqs.FilterSame(df, (r: Row) => MandatoryMask(r, c), (r: Row) => MandatoryMask(r, d));
  }

  /** With a non-empty title list every kept row carries one of the listed titles. */
  lemma TitleListRestricts(df: seq<Row>, c: Criteria)
    requires TitleActive(c)
    ensures forall r :: r in FilterRows(df, c) ==> r.cargo in c.cargos.value
  {
  }

  /** Selecting every value present in the data, on every dimension, keeps the whole dataset. */
  lemma SelectAllKeepsEverything(df: seq<Row>, c: Criteria)
    requires forall r :: r in df ==>
      (r.ano in c.anos && r.senioridade in c.senioridades &&
       r.contrato in c.contratos && r.tamanhoEmpresa in c.tamanhosEmpresa)
    requires TitleActive(c) ==> forall r :: r in df ==> r.cargo in c.cargos.value
    ensures FilterRows(df, c) == df
  {
    FilterIsOneMask(df, c);
    Seqs.FilterAll(df, r => Selected(r, c));
  }

  /** The distinct values of each column, as the sidebar offers them, select the whole dataset. */
  lemma SelectDistinctValuesKeepsEverything(df: seq<Row>)
    ensures FilterRows(df, Criteria(
      Seqs.Unique(seq(|df|, i requires 0 <= i < |df| => df[i].ano)),
      Seqs.Unique(seq(|df|, i requires 0 <= i < |df| => df[i].senioridade)),
      Seqs.Unique(seq(|df|, i requires 0 <= i < |df| => df[i].contrato)),
      Seqs.Unique(seq(|df|, i requires 0 <= i < |df| => df[i].tamanhoEmpresa)),
      Some(Seqs.Unique(seq(|df|, i requires 0 <= i < |df| => df[i].cargo))))) == df
  {
    var anos := seq(|df|, i requires 0 <= i < |df| => df[i].ano);
    var sen := seq(|df|, i requires 0 <= i < |df| => df[i].senioridade);
    var con := seq(|df|, i requires 0 <= i < |df| => df[i].contrato);
    var tam := seq(|df|, i requires 0 <= i < |df| => df[i].tamanhoEmpresa);
    var car := seq(|df|, i requires 0 <= i < |df| => df[i].cargo);
    var c := Criteria(Seqs.Unique(anos), Seqs.Unique(sen), Seqs.Unique(con), Seqs.Unique(tam), Some(Seqs.Unique(car)));
    forall r | r in df
      ensures r.ano in c.anos && r.senioridade in c.senioridades && r.contrato in c.contratos
      ensures r.tamanhoEmpresa in c.tamanhosEmpresa && r.cargo in c.cargos.value
    {
      var i :| 0 <= i < |df| && df[i] == r;
      assert anos[i] == r.ano && sen[i] == r.senioridade && con[i] == r.contrato;
      assert tam[i] == r.tamanhoEmpresa && car[i] == r.cargo;
    }
    SelectAllKeepsEverything(df, c);
  }

  /** Filtering twice with the same criteria is filtering once. */
  lemma FilterIdempotent(df: seq<Row>, c: Criteria)
    ensures FilterRows(FilterRows(df, c), c) == FilterRows(df, c)
  {
    SelectAllKeepsEverything(FilterRows(df, c), c);
  }
}
