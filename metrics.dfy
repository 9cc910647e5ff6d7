/**
 * The metrics calculator `calcular_metricas` and the helpers it shares with
 * the rest of the dashboard (`validar_dataframe`, `agrupar_e_calcular_media`).
 */
module Metrics {
  import opened Wrappers
  import opened Schema
  import Seqs
  import Stats

  /**
   * The metrics record. `variancia` is the square of pandas' `desvio_padrao`
   * (sample standard deviation); None stands for the NaN pandas gives for a
   * single row.
   */
  datatype MetricsRecord = MetricsRecord(
    salarioMedio: real,
    salarioMediano: real,
    salarioMinimo: real,
    salarioMaximo: real,
    variancia: Option<real>,
    percentil25: real,
    percentil75: real,
    totalRegistros: nat,
    cargoMaisFrequente: string,
    variacaoAnoAnterior: real,
    numeroCargosUnicos: nat)

  /** The record returned for an empty frame. */
  const EmptyMetrics: MetricsRecord :=
    MetricsRecord(0.0, 0.0, 0.0, 0.0, Some(0.0), 0.0, 0.0, 0, "", 0.0, 0)

  // Columns of a frame.

  function Salaries(df: seq<Row>): (xs: seq<real>)
    ensures |xs| == |df|
    ensures forall i :: 0 <= i < |df| ==> xs[i] == df[i].salarioUsd
  {
    seq(|df|, i requires 0 <= i < |df| => df[i].salarioUsd)
  }

  function Titles(df: seq<Row>): (ts: seq<string>)
    ensures |ts| == |df|
    ensures forall i :: 0 <= i < |df| ==> ts[i] == df[i].cargo
  {
    seq(|df|, i requires 0 <= i < |df| => df[i].cargo)
  }

  function Years(df: seq<Row>): (ys: seq<int>)
    ensures |ys| == |df|
    ensures forall i :: 0 <= i < |df| ==> ys[i] == df[i].ano
  {
    seq(|df|, i requires 0 <= i < |df| => df[i].ano)
  }

  lemma InColumn(df: seq<Row>, r: Row)
    requires r in df
    ensures r.salarioUsd in Salaries(df) && r.cargo in Titles(df) && r.ano in Years(df)
  {
    var i :| 0 <= i < |df| && df[i] == r;
    assert Salaries(df)[i] == r.salarioUsd && Titles(df)[i] == r.cargo && Years(df)[i] == r.ano;
  }

  /** Every salary of a sub-frame is a salary of the frame. */
  lemma SubframeSalaries(df: seq<Row>, sub: seq<Row>)
    requires forall r :: r in sub ==> r in df
    ensures forall x :: x in Salaries(sub) ==> x in Salaries(df)
  {
    forall x | x in Salaries(sub) ensures x in Salaries(df) {
      var i :| 0 <= i < |sub| && Salaries(sub)[i] == x;
      InColumn(df, sub[i]);
    }
  }

  /** `validar_dataframe`: the frame has at least one row. */
  function HasData(df: seq<Row>): (b: bool)
    ensures b <==> df != []
  {
    |df| > 0
  }

  /**
   * Mean salary of the rows that satisfy `p`; None, pandas' NaN, when no row
   * does (`df[mask]['salario_usd'].mean()`).
   */
  function MeanWhere(df: seq<Row>, p: Row -> bool): (m: Option<real>)
    ensures m.Some? <==> exists r :: r in df && p(r)
    ensures m.Some? ==>
      |Seqs.Filter(df, p)| > 0 &&
      Stats.Min(Salaries(Seqs.Filter(df, p))) <= m.value <= Stats.Max(Salaries(Seqs.Filter(df, p)))
  {
    var sub := Seqs.Filter(df, p);
    if |sub| == 0 then
      assert forall r :: r in df && p(r) ==> r in sub;
      None
    else
      assert sub[0] in sub;
      Stats.MeanBounds(Salaries(sub));
      Some(Stats.Mean(Salaries(sub)))
  }

  /** The value of `MeanWhere` is the mean salary of exactly the selected rows. */
  lemma MeanWhereValue(df: seq<Row>, p: Row -> bool)
    ensures MeanWhere(df, p).Some? ==>
      |Seqs.Filter(df, p)| > 0 && MeanWhere(df, p).value == Stats.Mean(Salaries(Seqs.Filter(df, p)))
  {
  }

  /**
   * `agrupar_e_calcular_media`: for every value the key column takes, the
   * mean salary of the rows carrying it. Every group mean lies within the
   * salary range of the whole frame.
   */
  function GroupMeans<K(==,!new)>(df: seq<Row>, key: Row -> K): (m: map<K, real>)
    ensures m.Keys == set r | r in df :: key(r)
    ensures forall k :: k in m ==> MeanWhere(df, KeyIs(key, k)) == Some(m[k])
    ensures forall k :: k in m ==>
      |Seqs.Filter(df, KeyIs(key, k))| > 0 && m[k] == Stats.Mean(Salaries(Seqs.Filter(df, KeyIs(key, k))))
    ensures forall k :: k in m ==>
      |df| > 0 && Stats.Min(Salaries(df)) <= m[k] <= Stats.Max(Salaries(df))
  {
    map k | k in (set r | r in df :: key(r)) :: GroupMean(df, key, k)
  }

  /** The rows whose key is `k`, as a mask (`df[df[coluna] == k]`). */
  function KeyIs<K(==)>(key: Row -> K, k: K): (p: Row -> bool)
    ensures forall r :: p(r) <==> key(r) == k
  {
    r => key(r) == k
  }

  function GroupMean<K(==,!new)>(df: seq<Row>, key: Row -> K, k: K): (v: real)
    requires exists r :: r in df && key(r) == k
    ensures MeanWhere(df, KeyIs(key, k)) == Some(v)
    ensures |Seqs.Filter(df, KeyIs(key, k))| > 0 && v == Stats.Mean(Salaries(Seqs.Filter(df, KeyIs(key, k))))
    ensures |df| > 0 && Stats.Min(Salaries(df)) <= v <= Stats.Max(Salaries(df))
  {
    var p := KeyIs(key, k);
    MeanWhereValue(df, p);
    var sub := Seqs.Filter(df, p);
    var w :| w in df && key(w) == k;
    assert w in sub;
    SubframeSalaries(df, sub);
    var xs := Salaries(sub);
    Stats.MeanWithin(xs, Stats.Min(Salaries(df)), Stats.Max(Salaries(df)));
    MeanWhere(df, p).value
  }

  // Year-over-year change.

  /** The largest year in the frame. */
  function LatestYear(df: seq<Row>): (y: int)
    requires |df| > 0
    ensures exists r :: r in df && r.ano == y
    ensures forall r :: r in df ==> r.ano <= y
  {
    if |df| == 1 then df[0].ano
    else
      var rest := LatestYear(df[1..]);
      assert forall r :: r in df ==> r == df[0] || r in df[1..];
      if df[0].ano >= rest then df[0].ano else rest
  }

  /** `len(df['ano'].unique()) > 1`. */
  predicate MultipleYears(df: seq<Row>)
    ensures MultipleYears(df) ==> |df| > 1
  {
    Seqs.DistinctCount(Years(df)) > 1
  }

  /** More than one distinct year exactly when some year lies below the latest. */
  lemma MultipleYearsIffEarlier(df: seq<Row>)
    requires |df| > 0
    ensures MultipleYears(df) <==> exists r :: r in df && r.ano < LatestYear(df)
  {
    var latest := LatestYear(df);
    var w :| w in df && w.ano == latest;
    if exists r :: r in df && r.ano < latest {
      var r :| r in df && r.ano < latest;
      InColumn(df, r);
      InColumn(df, w);
      TwoValuesCard(Years(df), r.ano, latest);
    } else {
      OneValueCard(Years(df), latest);
    }
  }

  lemma TwoValuesCard(ys: seq<int>, a: int, b: int)
    requires a in ys && b in ys && a != b
    ensures Seqs.DistinctCount(ys) > 1
  {
    var all := set y | y in ys;
    assert {a, b} <= all;
    assert |{a, b}| == 2;
    assert all == {a, b} + (all - {a, b});
  }

  lemma OneValueCard(ys: seq<int>, a: int)
    requires forall y :: y in ys ==> y == a
    ensures Seqs.DistinctCount(ys) <= 1
  {
    var all := set y | y in ys;
    forall y | y in all ensures y == a {
      assert y in ys;
    }
    assert all <= {a};
    assert {a} == all + ({a} - all);
  }

  /** The second-largest distinct year: the largest year below the latest. */
  function PreviousYear(df: seq<Row>): (y: int)
    requires |df| > 0
    requires exists r :: r in df && r.ano < LatestYear(df)
    ensures y < LatestYear(df)
    ensures exists r :: r in df && r.ano == y
    ensures forall r :: r in df && r.ano < LatestYear(df) ==> r.ano <= y
  {
    var latest := LatestYear(df);
    var earlier := Seqs.Filter(df, (r: Row) => r.ano < latest);
    var w :| w in df && w.ano < latest;
    assert w in earlier;
    LatestYear(earlier)
  }

  /** Mean salary of the rows of year `y`. */
  function YearMean(df: seq<Row>, y: int): (m: real)
    requires exists r :: r in df && r.ano == y
    ensures |Seqs.Filter(df, (r: Row) => r.ano == y)| > 0
    ensures m == Stats.Mean(Salaries(Seqs.Filter(df, (r: Row) => r.ano == y)))
  {
    MeanWhereValue(df, (r: Row) => r.ano == y);
    MeanWhere(df, (r: Row) => r.ano == y).value
  }

  /**
   * The year-over-year change: with at least two distinct years, the percent
   * difference of the mean salary of the latest year against that of the
   * second-latest; 0 otherwise.
   */
  function YearOverYear(df: seq<Row>): (v: real)
    ensures !MultipleYears(df) ==> v == 0.0
    ensures MultipleYears(df) ==>
      (|df| > 0 && (exists r :: r in df && r.ano < LatestYear(df)) &&
       v == Stats.PercentDiff(YearMean(df, LatestYear(df)), YearMean(df, PreviousYear(df))))
  {
    if MultipleYears(df) then
      assert Years(df)[0] in Years(df);
      MultipleYearsIffEarlier(df);
      Stats.PercentDiff(YearMean(df, LatestYear(df)), YearMean(df, PreviousYear(df)))
    else 0.0
  }

  /** A frame with one year only has no year-over-year change. */
  lemma SingleYearNoChange(df: seq<Row>, y: int)
    requires forall r :: r in df ==> r.ano == y
    ensures YearOverYear(df) == 0.0
  {
    if |df| > 0 {
      MultipleYearsIffEarlier(df);
    } else {
      assert Seqs.DistinctCount(Years(df)) == 0;
    }
  }

  // Most frequent title.

  /**
   * `df['cargo'].mode()[0]`: a title of maximal count; pandas sorts the tied
   * modes, so among them the smallest title in string order.
   */
  function MostFrequentTitle(df: seq<Row>): (t: string)
    requires |df| > 0
    ensures t in Titles(df)
    ensures forall u :: u in Titles(df) ==> Seqs.Count(Titles(df), u) <= Seqs.Count(Titles(df), t)
    ensures forall u :: u in Titles(df) && Seqs.Count(Titles(df), u) == Seqs.Count(Titles(df), t) ==> Seqs.LexLe(t, u)
  {
    var ts := Titles(df);
    assert ts[0] in ts;
    var keys := Seqs.Unique(ts);
    Seqs.PickMax(keys, u => Seqs.Count(ts, u) as real)
  }

  /**
   * `calcular_metricas`: the all-zero record for an empty frame; otherwise
   * count, mean, median, extremes, sample variance, quartiles, most frequent
   * title, year-over-year change and number of distinct titles of the salary
   * column. As in the source, the complete frame is accepted and not used.
   */
  function CalculateMetrics(df: seq<Row>, complete: seq<Row>): (m: MetricsRecord)
    ensures |df| == 0 ==> m == EmptyMetrics
    ensures |df| == 0 ==>
      (m.salarioMedio == 0.0 && m.salarioMediano == 0.0 && m.salarioMinimo == 0.0 &&
       m.salarioMaximo == 0.0 && m.percentil25 == 0.0 && m.percentil75 == 0.0 && m.totalRegistros == 0 &&
       m.cargoMaisFrequente == "" && m.variacaoAnoAnterior == 0.0 && m.numeroCargosUnicos == 0)
    ensures |df| > 0 ==> m.salarioMedio == Stats.Mean(Salaries(df))
    ensures m.totalRegistros == |df|
    ensures m.numeroCargosUnicos == |set r | r in df :: r.cargo|
    ensures m.variacaoAnoAnterior == YearOverYear(df)
    ensures |df| > 0 ==> m.salarioMinimo <= m.salarioMedio <= m.salarioMaximo
    ensures |df| > 0 ==>
      m.salarioMinimo <= m.percentil25 <= m.salarioMediano <= m.percentil75 <= m.salarioMaximo
    ensures |df| > 0 ==> forall r :: r in df ==> m.salarioMinimo <= r.salarioUsd <= m.salarioMaximo
    ensures |df| > 0 ==>
      ((exists r :: r in df && r.salarioUsd == m.salarioMinimo) &&
       (exists r :: r in df && r.salarioUsd == m.salarioMaximo))
    ensures |df| > 0 ==>
      (m.salarioMediano == Stats.Median(Salaries(df)) && m.variancia == Stats.SampleVariance(Salaries(df)))
    ensures |df| > 0 ==> m.cargoMaisFrequente == MostFrequentTitle(df)
    ensures |df| > 0 ==> m.percentil25 == Stats.QuarterQuantile(Stats.Sort(Salaries(df)), 1)
    ensures |df| > 0 ==> m.percentil75 == Stats.QuarterQuantile(Stats.Sort(Salaries(df)), 3)
  {
    TitleSetIsColumnSet(df);
    if |df| == 0 then
      SingleYearNoChange(df, 0);
      EmptyMetrics
    else
      var xs := Salaries(df);
      var s := Stats.Sort(xs);
      Stats.MeanBounds(xs);
      Stats.QuartilesOrdered(xs);
      SalaryExtremes(df);
      MetricsRecord(
        Stats.Mean(xs), Stats.Median(xs), Stats.Min(xs), Stats.Max(xs), Stats.SampleVariance(xs),
        Stats.QuarterQuantile(s, 1), Stats.QuarterQuantile(s, 3), |df|, MostFrequentTitle(df),
        YearOverYear(df), Seqs.DistinctCount(Titles(df)))
  }

  lemma TitleSetIsColumnSet(df: seq<Row>)
    ensures (set t | t in Titles(df)) == (set r | r in df :: r.cargo)
  {
    forall t | t in Titles(df) ensures t in (set r | r in df :: r.cargo) {
      var i :| 0 <= i < |df| && Titles(df)[i] == t;
      assert df[i] in df;
    }
    forall r | r in df ensures r.cargo in Titles(df) {
      InColumn(df, r);
    }
  }

  lemma SalaryExtremes(df: seq<Row>)
    requires |df| > 0
    ensures forall r :: r in df ==> Stats.Min(Salaries(df)) <= r.salarioUsd <= Stats.Max(Salaries(df))
    ensures exists r :: r in df && r.salarioUsd == Stats.Min(Salaries(df))
    ensures exists r :: r in df && r.salarioUsd == Stats.Max(Salaries(df))
  {
    var xs := Salaries(df);
    forall r | r in df ensures Stats.Min(xs) <= r.salarioUsd <= Stats.Max(xs) {
      InColumn(df, r);
    }
    var i :| 0 <= i < |xs| && xs[i] == Stats.Min(xs);
    var j :| 0 <= j < |xs| && xs[j] == Stats.Max(xs);
    assert df[i] in df && df[j] in df;
  }

  /** A row of year `ano` earning `salario` (US dollars); the other columns are irrelevant to the example. */
  function SampleRow(ano: int, salario: real): Row {
    Row(ano, "Senior", "Tempo Integral", "Cientista de Dados", salario, "USD", salario, "US",
        Label("Remoto"), "US", "Média")
  }

  /** Salaries 100 and 200 in 2022, 150 and 450 in 2023. */
  const ExampleFrame: seq<Row> :=
    [SampleRow(2022, 100.0), SampleRow(2022, 200.0), SampleRow(2023, 150.0), SampleRow(2023, 450.0)]

  lemma ExampleYears()
    ensures |ExampleFrame| > 0 && LatestYear(ExampleFrame) == 2023
    ensures MultipleYears(ExampleFrame) && exists r :: r in ExampleFrame && r.ano < 2023
    ensures PreviousYear(ExampleFrame) == 2022
  {
    var df := ExampleFrame;
    assert df[3] in df && df[0] in df;
    assert LatestYear(df) == 2023;
    MultipleYearsIffEarlier(df);
  }

  lemma ExampleMean(a: real, b: real, m: real)
    requires a + b == 2.0 * m
    ensures Stats.Mean([a, b]) == m
  {
    assert [a, b][1..] == [b] && [b][1..] == [];
    assert Stats.Sum([b]) == b;
    assert Stats.Sum([a, b]) == a + b;
  }

  lemma ExampleRowsOfYear(y: int)
    requires y == 2022 || y == 2023
    ensures Seqs.Filter(ExampleFrame, (r: Row) => r.ano == y) ==
      if y == 2022 then ExampleFrame[..2] else ExampleFrame[2..]
  {
    var df := ExampleFrame;
    var p := (r: Row) => r.ano == y;
    assert df[1..][1..][1..][1..] == [];
    assert Seqs.Filter(df[1..][1..][1..], p) == if y == 2022 then [] else [df[3]];
    assert Seqs.Filter(df[1..][1..], p) == if y == 2022 then [] else [df[2], df[3]];
    assert Seqs.Filter(df[1..], p) == if y == 2022 then [df[1]] else [df[2], df[3]];
  }

  lemma ExampleYearMean(y: int)
    requires y == 2022 || y == 2023
    ensures exists r :: r in ExampleFrame && r.ano == y
    ensures YearMean(ExampleFrame, y) == Stats.Mean(Salaries(if y == 2022 then ExampleFrame[..2] else ExampleFrame[2..]))
  {
    var df := ExampleFrame;
    assert df[0] in df && df[3] in df;
    ExampleRowsOfYear(y);
  }

  lemma ExampleSalaries()
    ensures Salaries(ExampleFrame[..2]) == [100.0, 200.0]
    ensures Salaries(ExampleFrame[2..]) == [150.0, 450.0]
  {
  }

  lemma ExampleMeanLater()
    ensures (exists r :: r in ExampleFrame && r.ano == 2023) && YearMean(ExampleFrame, 2023) == 300.0
  {
    ExampleYearMean(2023);
    ExampleSalaries();
    ExampleMean(150.0, 450.0, 300.0);
  }

  lemma ExampleMeanEarlier()
    ensures (exists r :: r in ExampleFrame && r.ano == 2022) && YearMean(ExampleFrame, 2022) == 150.0
  {
    ExampleYearMean(2022);
    ExampleSalaries();
    ExampleMean(100.0, 200.0, 150.0);
  }

  /** Means 150 in 2022 and 300 in 2023 give a change of +100 percent. */
  lemma YearOverYearExample()
    ensures YearOverYear(ExampleFrame) == 100.0
  {
    ExampleYears();
    ExampleMeanLater();
    ExampleMeanEarlier();
    assert Stats.PercentDiff(300.0, 150.0) == 100.0;
  }
}
