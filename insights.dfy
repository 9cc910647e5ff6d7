/**
 * The insight generator `gerar_insights`: a fixed, ordered battery of
 * threshold rules over the filtered frame and its metrics. Each insight is a
 * constructor carrying its numbers; the formatted sentences are not modelled.
 */
module Insights {
  import opened Wrappers
  import opened Schema
  import Seqs
  import Stats
  import opened Metrics

  datatype Insight =
    | NoData                                   // the placeholder for an empty frame
    | Growth(percent: real)                    // salaries rose by `percent` over the previous year
    | Decline(percent: real)                   // salaries fell by `percent`
    | HighVariability(variance: real, mean: real) // a coefficient of variation above 50 percent
    | RightSkew(mean: real, median: real)      // the mean well above the median
    | RemoteGap(higherIsRemote: bool, percent: real)
    | SeniorityGap(highest: string, lowest: string, percent: real)
    | Fallback                                 // no rule fired

  /** Position of each kind of insight in the battery. */
  function Rank(i: Insight): nat {
    match i
    case NoData => 0
    case Growth(_) => 1
    case Decline(_) => 1
    case HighVariability(_, _) => 2
    case RightSkew(_, _) => 3
    case RemoteGap(_, _) => 4
    case SeniorityGap(_, _, _) => 5
    case Fallback => 6
  }

  function Abs(x: real): (r: real)
    ensures r >= 0.0 && (r == x || r == -x)
  {
    if x < 0.0 then -x else x
  }

  /** Rule 1: a non-zero year-over-year change, as growth or as decline. */
  function YearOverYearRule(m: MetricsRecord): (r: Option<Insight>)
    ensures r.Some? <==> m.variacaoAnoAnterior != 0.0
    ensures m.variacaoAnoAnterior > 0.0 ==> r == Some(Growth(m.variacaoAnoAnterior))
    ensures m.variacaoAnoAnterior < 0.0 ==> r == Some(Decline(-m.variacaoAnoAnterior))
    ensures r.Some? ==> Rank(r.value) == 1 && (r.value.Growth? || r.value.Decline?) && r.value.percent > 0.0
  {
    var v := m.variacaoAnoAnterior;
    if v != 0.0 then
      if v > 0.0 then Some(Growth(v)) else Some(Decline(Abs(v)))
    else None
  }

  /**
   * Rule 2: the coefficient of variation sd / mean * 100 above 50 percent,
   * 0 when the mean is not positive. With the variance v = sd^2 this is
   * 4 v > mean^2 (`VariabilityRuleIsCvAbove50`); the NaN variance of a single
   * row compares false.
   */
  function VariabilityRule(m: MetricsRecord): (r: Option<Insight>)
    ensures r.Some? <==> (m.salarioMedio > 0.0 && m.variancia.Some? &&
      4.0 * m.variancia.value > m.salarioMedio * m.salarioMedio)
    ensures r.Some? ==> r == Some(HighVariability(m.variancia.value, m.salarioMedio))
  {
    if m.salarioMedio > 0.0 && m.variancia.Some? && 4.0 * m.variancia.value > m.salarioMedio * m.salarioMedio then
      Some(HighVariability(m.variancia.value, m.salarioMedio))
    else None
  }

  /**
   * The variance form agrees with the source's formula: for a standard
   * deviation sd >= 0 with sd^2 = variance, the rule fires exactly when
   * the mean is positive and sd / mean * 100 > 50.
   */
  lemma VariabilityRuleIsCvAbove50(m: MetricsRecord, sd: real)
    requires sd >= 0.0 && m.variancia == Some(sd * sd)
    ensures VariabilityRule(m).Some? <==> m.salarioMedio > 0.0 && Stats.Divide(sd, m.salarioMedio) * 100.0 > 50.0
  {
    var mean := m.salarioMedio;
    if mean > 0.0 {
      CvScaled(sd, mean);
      DoubleSquare(sd);
      if 2.0 * sd > mean {
        SquareGrows(mean, 2.0 * sd);
      } else {
        SquareKeeps(2.0 * sd, mean);
      }
    }
  }

  lemma CvScaled(sd: real, mean: real)
    requires mean > 0.0
    ensures Stats.Divide(sd, mean) * 100.0 > 50.0 <==> 2.0 * sd > mean
  {
    var d := Stats.Divide(sd, mean);
    if d * 100.0 > 50.0 {
      assert d * mean > 0.5 * mean;
    } else {
      assert d * mean <= 0.5 * mean;
    }
  }

  lemma DoubleSquare(sd: real)
    ensures (2.0 * sd) * (2.0 * sd) == 4.0 * (sd * sd)
  {
  }

  lemma SquareGrows(x: real, y: real)
    requires 0.0 < x < y
    ensures x * x < y * y
  {
    assert x * x < x * y;
    assert x * y < y * y;
  }

  lemma SquareKeeps(x: real, y: real)
    requires 0.0 <= x <= y
    ensures x * x <= y * y
  {
    assert x * x <= x * y;
    assert x * y <= y * y;
  }

  /** Rule 3: the mean above the median by more than a tenth of the mean. */
  function SkewRule(m: MetricsRecord): (r: Option<Insight>)
    ensures r.Some? <==> (m.salarioMedio > m.salarioMediano &&
      m.salarioMedio - m.salarioMediano > m.salarioMedio * 0.1)
    ensures r.Some? ==> r == Some(RightSkew(m.salarioMedio, m.salarioMediano))
  {
    var gap := Abs(m.salarioMedio - m.salarioMediano);
    if gap > m.salarioMedio * 0.1 then
      if m.salarioMedio > m.salarioMediano then Some(RightSkew(m.salarioMedio, m.salarioMediano)) else None
    else None
  }

  predicate IsRemote(r: Row) {
    r.remota == Label(RemoteLabel)
  }

  predicate IsOnSite(r: Row) {
    r.remota == Label(OnSiteLabel)
  }

  /**
   * Mean salary of the fully remote rows, None when there are none; the mean
   * is taken over all of them, in frame order.
   */
  function RemoteMean(df: seq<Row>): (m: Option<real>)
    ensures m.Some? <==> exists r :: r in df && IsRemote(r)
    ensures m.Some? ==> m.value == Stats.Mean(Salaries(Seqs.Filter(df, IsRemote)))
  {
    MeanWhereValue(df, IsRemote);
    MeanWhere(df, IsRemote)
  }

  /** Mean salary of the on-site rows, None when there are none. */
  function OnSiteMean(df: seq<Row>): (m: Option<real>)
    ensures m.Some? <==> exists r :: r in df && IsOnSite(r)
    ensures m.Some? ==> m.value == Stats.Mean(Salaries(Seqs.Filter(df, IsOnSite)))
  {
    MeanWhereValue(df, IsOnSite);
    MeanWhere(df, IsOnSite)
  }

  /**
   * Rule 4: both means positive and more than 5 percent apart (relative to
   * the on-site mean); names the better-paid side.
   */
  function RemoteRule(df: seq<Row>): (r: Option<Insight>)
    ensures r.Some? <==> (RemoteMean(df).Some? && OnSiteMean(df).Some? &&
      RemoteMean(df).value > 0.0 && OnSiteMean(df).value > 0.0 &&
      Abs(Stats.PercentDiff(RemoteMean(df).value, OnSiteMean(df).value)) > 5.0)
    ensures r.Some? ==> (r.value.RemoteGap? && r.value.percent > 5.0 &&
      (r.value.higherIsRemote <==> RemoteMean(df).value > OnSiteMean(df).value) &&
      r.value.percent == Abs(Stats.PercentDiff(RemoteMean(df).value, OnSiteMean(df).value)))
  {
    var remote, onSite := RemoteMean(df), OnSiteMean(df);
    if remote.Some? && onSite.Some? && remote.value > 0.0 && onSite.value > 0.0 then
      var d := Stats.PercentDiff(remote.value, onSite.value);
      Stats.PercentDiffSign(remote.value, onSite.value);
      if Abs(d) > 5.0 then Some(RemoteGap(d > 0.0, Abs(d))) else None
    else None
  }

  function Seniorities(df: seq<Row>): (ss: seq<string>)
    ensures |ss| == |df|
    ensures forall i :: 0 <= i < |df| ==> ss[i] == df[i].senioridade
  {
    seq(|df|, i requires 0 <= i < |df| => df[i].senioridade)
  }

  /** The grouping key of rule 5. */
  function Seniority(r: Row): string {
    r.senioridade
  }

  /** Mean salary per seniority level (`groupby('senioridade')['salario_usd'].mean()`). */
  function SeniorityMeans(df: seq<Row>): (m: map<string, real>)
    ensures m.Keys == set r | r in df :: r.senioridade
    ensures forall k :: k in m ==> Stats.Min(Salaries(df)) <= m[k] <= Stats.Max(Salaries(df))
  {
    GroupMeans(df, Seniority)
  }

  /** A level's group mean is the mean salary of exactly the rows at that level, in frame order. */
  lemma SeniorityMeanValue(df: seq<Row>, k: string)
    requires k in SeniorityMeans(df)
    ensures |Seqs.Filter(df, KeyIs(Seniority, k))| > 0
    ensures SeniorityMeans(df)[k] == Stats.Mean(Salaries(Seqs.Filter(df, KeyIs(Seniority, k))))
  {
  }

  /** The group mean of a level, as a total score for ranking. */
  function Score(means: map<string, real>): (f: string -> real)
    ensures forall k :: k in means ==> f(k) == means[k]
  {
    (k: string) => if k in means then means[k] else 0.0
  }

  /**
   * `g` reports the levels of highest and of lowest mean salary, two distinct
   * levels, and the percent gap between their means.
   */
  predicate IsSeniorityGap(means: map<string, real>, g: Insight) {
    g.SeniorityGap? && g.highest in means && g.lowest in means && g.highest != g.lowest &&
    (forall k :: k in means ==> means[g.lowest] <= means[k] <= means[g.highest]) &&
    g.percent == Stats.PercentDiff(means[g.highest], means[g.lowest])
  }

  /**
   * Rule 5: with more than one seniority level, the gap between the level of
   * highest and the level of lowest mean salary. Among levels tied on the
   * mean, the highest is the first in string order and the lowest the last.
   */
  function SeniorityRule(df: seq<Row>): (r: Option<Insight>)
    ensures r.Some? <==> Seqs.DistinctCount(Seniorities(df)) > 1
    ensures r.Some? ==> r.value.SeniorityGap? && IsSeniorityGap(SeniorityMeans(df), r.value)
  {
    var levels := Seqs.Unique(Seniorities(df));
    var means := SeniorityMeans(df);
    Seqs.NoDuplicatesCard(levels);
    if |levels| > 1 then
      SeniorityKeys(df);
      var highest := Seqs.PickMax(levels, Score(means));
      var lowest := Seqs.PickMin(levels, Score(means));
      DistinctEnds(levels, Score(means));
      var g := SeniorityGap(highest, lowest, Stats.PercentDiff(means[highest], means[lowest]));
      assert IsSeniorityGap(means, g);
      Some(g)
    else None
  }

  /** The seniority rule depends only on the levels and their group means. */
  lemma SeniorityRuleChoice(df: seq<Row>)
    ensures var levels, means := Seqs.Unique(Seniorities(df)), SeniorityMeans(df);
      if |levels| > 1 then
        SeniorityKeys(df);
        SeniorityRule(df) == Some(SeniorityGap(Seqs.PickMax(levels, Score(means)), Seqs.PickMin(levels, Score(means)),
          Stats.PercentDiff(means[Seqs.PickMax(levels, Score(means))], means[Seqs.PickMin(levels, Score(means))])))
      else SeniorityRule(df) == None
  {
    SeniorityKeys(df);
  }

  /** The groups are exactly the distinct seniority levels. */
  lemma SeniorityKeys(df: seq<Row>)
    ensures forall k :: k in SeniorityMeans(df) <==> k in Seqs.Unique(Seniorities(df))
  {
    LevelsOfFrame(df);
  }

  lemma LevelsOfFrame(df: seq<Row>)
    ensures forall k :: k in (set r | r in df :: r.senioridade) <==> k in Seniorities(df)
  {
    var levels := Seniorities(df);
    forall k ensures k in (set r | r in df :: r.senioridade) <==> k in levels {
      if k in levels {
        var i :| 0 <= i < |df| && levels[i] == k;
        assert df[i] in df;
      }
      if k in (set r | r in df :: r.senioridade) {
        var r :| r in df && r.senioridade == k;
        var i :| 0 <= i < |df| && df[i] == r;
        assert levels[i] == k;
      }
    }
  }

  /** With two or more keys the best and the worst key differ. */
  lemma DistinctEnds(keys: seq<string>, score: string -> real)
    requires |keys| > 1 && Seqs.NoDuplicates(keys)
    ensures Seqs.PickMax(keys, score) != Seqs.PickMin(keys, score)
  {
    var hi, lo := Seqs.PickMax(keys, score), Seqs.PickMin(keys, score);
    if hi == lo {
      assert keys[0] != keys[1];
      assert keys[0] in keys && keys[1] in keys;
      Seqs.LexLeAntisymmetric(hi, keys[0]);
      Seqs.LexLeAntisymmetric(hi, keys[1]);
    }
  }

  function OptionToSeq(o: Option<Insight>): (s: seq<Insight>)
    ensures |s| <= 1 && (s == [] <==> o.None?) && (o.Some? ==> s == [o.value])
  {
    if o.Some? then [o.value] else []
  }

  /** Every kind of insight a rule may emit has that rule's rank. */
  predicate RankedAs(o: Option<Insight>, k: nat) {
    o.Some? ==> Rank(o.value) == k
  }

  /** Ranks strictly increase along the sequence. */
  predicate Ascending(f: seq<Insight>) {
    forall i, j :: 0 <= i < j < |f| ==> Rank(f[i]) < Rank(f[j])
  }

  /** Every element is the output of a rule ranked below `k`. */
  predicate AllBelow(f: seq<Insight>, k: nat) {
    forall i :: 0 <= i < |f| ==> 1 <= Rank(f[i]) < k
  }

  /** Rule outputs are neither the placeholder nor the fallback. */
  lemma NoPlaceholders(f: seq<Insight>)
    requires AllBelow(f, 6)
    ensures NoData !in f && Fallback !in f
  {
  }

  /** Appends the output of the rule of rank `k` after those of lower rank. */
  function Push(f: seq<Insight>, o: Option<Insight>, k: nat): (g: seq<Insight>)
    requires 1 <= k && Ascending(f) && AllBelow(f, k) && RankedAs(o, k)
    ensures Ascending(g) && AllBelow(g, k + 1)
    ensures g == f + OptionToSeq(o)
  {
    f + OptionToSeq(o)
  }

  /** Five rule outputs of ranks 1 to 5, concatenated in rank order. */
  function Battery(a: Option<Insight>, b: Option<Insight>, c: Option<Insight>, d: Option<Insight>, e: Option<Insight>): (f: seq<Insight>)
    requires RankedAs(a, 1)
    requires RankedAs(b, 2)
    requires RankedAs(c, 3)
    requires RankedAs(d, 4)
    requires RankedAs(e, 5)
    ensures Ascending(f) && AllBelow(f, 6)
    ensures f == OptionToSeq(a) + OptionToSeq(b) + OptionToSeq(c) + OptionToSeq(d) + OptionToSeq(e)
  {
    Push(Push(Push(Push(Push([], a, 1), b, 2), c, 3), d, 4), e, 5)
  }

  lemma SeniorityRank(df: seq<Row>)
    ensures RankedAs(SeniorityRule(df), 5)
  {
    var e := SeniorityRule(df);
    if e.Some? {
      GapRank(e.value);
    }
  }

  lemma MetricRanks(m: MetricsRecord)
    ensures RankedAs(YearOverYearRule(m), 1) && RankedAs(VariabilityRule(m), 2) && RankedAs(SkewRule(m), 3)
  {
  }

  lemma RemoteRank(df: seq<Row>)
    ensures RankedAs(RemoteRule(df), 4)
  {
  }

  lemma GapRank(g: Insight)
    requires g.SeniorityGap?
    ensures Rank(g) == 5
  {
  }

  /** The rule outputs that fired, in the battery's order. */
  function Fired(df: seq<Row>, m: MetricsRecord): (f: seq<Insight>)
    ensures Ascending(f) && AllBelow(f, 6)
    ensures f == OptionToSeq(YearOverYearRule(m)) + OptionToSeq(VariabilityRule(m)) + OptionToSeq(SkewRule(m)) +
      OptionToSeq(RemoteRule(df)) + OptionToSeq(SeniorityRule(df))
  {
    var a, b, c, d, e := YearOverYearRule(m), VariabilityRule(m), SkewRule(m), RemoteRule(df), SeniorityRule(df);
    MetricRanks(m);
    RemoteRank(df);
    SeniorityRank(df);
    Battery(a, b, c, d, e)
  }

  /** Nothing fires exactly when every rule is silent. */
  lemma FiredEmpty(df: seq<Row>, m: MetricsRecord)
    ensures Fired(df, m) == [] <==> (YearOverYearRule(m).None? && VariabilityRule(m).None? && SkewRule(m).None? &&
      RemoteRule(df).None? && SeniorityRule(df).None?)
  {
  }

  /** Each rule's insight is reported exactly when that rule fires, and only rules' insights are. */
  lemma FiredIffRule(df: seq<Row>, m: MetricsRecord, x: Insight)
    ensures x in Fired(df, m) <==> (Some(x) == YearOverYearRule(m) || Some(x) == VariabilityRule(m) ||
      Some(x) == SkewRule(m) || Some(x) == RemoteRule(df) || Some(x) == SeniorityRule(df))
  {
    InOutputs(x, YearOverYearRule(m), VariabilityRule(m), SkewRule(m), RemoteRule(df), SeniorityRule(df));
  }

  lemma InOutputs(x: Insight, a: Option<Insight>, b: Option<Insight>, c: Option<Insight>, d: Option<Insight>, e: Option<Insight>)
    ensures x in OptionToSeq(a) + OptionToSeq(b) + OptionToSeq(c) + OptionToSeq(d) + OptionToSeq(e) <==>
      (Some(x) == a || Some(x) == b || Some(x) == c || Some(x) == d || Some(x) == e)
  {
  }

  /** The year-over-year step of the battery: growth or decline. */
  method AppendYearOverYear(insights: seq<Insight>, m: MetricsRecord) returns (out: seq<Insight>)
    ensures out == insights + OptionToSeq(YearOverYearRule(m))
  {
    out := insights;
    var variation := m.variacaoAnoAnterior;
    if variation != 0.0 {
      if variation > 0.0 {
        out := out + [Growth(variation)];
      } else {
        out := out + [Decline(Abs(variation))];
      }
    }
  }

  /** The dispersion step: the coefficient of variation above 50 percent, in its variance form. */
  method AppendVariability(insights: seq<Insight>, m: MetricsRecord) returns (out: seq<Insight>)
    ensures out == insights + OptionToSeq(VariabilityRule(m))
  {
    out := insights;
    if m.salarioMedio > 0.0 && m.variancia.Some? && 4.0 * m.variancia.value > m.salarioMedio * m.salarioMedio {
      out := out + [HighVariability(m.variancia.value, m.salarioMedio)];
    }
  }

  /** The mean-against-median step. */
  method AppendSkew(insights: seq<Insight>, m: MetricsRecord) returns (out: seq<Insight>)
    ensures out == insights + OptionToSeq(SkewRule(m))
  {
    out := insights;
    if Abs(m.salarioMedio - m.salarioMediano) > m.salarioMedio * 0.1 {
      if m.salarioMedio > m.salarioMediano {
        out := out + [RightSkew(m.salarioMedio, m.salarioMediano)];
      }
    }
  }

  /** The remote-against-on-site step. */
  method AppendRemote(insights: seq<Insight>, df: seq<Row>) returns (out: seq<Insight>)
    ensures out == insights + OptionToSeq(RemoteRule(df))
  {
    out := insights;
    var remote, onSite := RemoteMean(df), OnSiteMean(df);
    if remote.Some? && onSite.Some? && remote.value > 0.0 && onSite.value > 0.0 {
      var gap := Stats.PercentDiff(remote.value, onSite.value);
      if Abs(gap) > 5.0 {
        if gap > 0.0 {
          out := out + [RemoteGap(true, gap)];
        } else {
          out := out + [RemoteGap(false, Abs(gap))];
        }
      }
    }
  }

  /** The seniority step: the levels of highest and lowest mean salary. */
  method AppendSeniority(insights: seq<Insight>, df: seq<Row>) returns (out: seq<Insight>)
    ensures out == insights + OptionToSeq(SeniorityRule(df))
  {
    out := insights;
    var levels := Seqs.Unique(Seniorities(df));
    if |levels| > 1 {
      var means := SeniorityMeans(df);
      var highest := Seqs.PickMax(levels, Score(means));
      var lowest := Seqs.PickMin(levels, Score(means));
      SeniorityRuleFires(df, highest, lowest);
      out := out + [SeniorityGap(highest, lowest, Stats.PercentDiff(means[highest], means[lowest]))];
    } else {
      SeniorityRuleChoice(df);
    }
  }

  lemma SeniorityRuleFires(df: seq<Row>, highest: string, lowest: string)
    requires |Seqs.Unique(Seniorities(df))| > 1
    requires highest == Seqs.PickMax(Seqs.Unique(Seniorities(df)), Score(SeniorityMeans(df)))
    requires lowest == Seqs.PickMin(Seqs.Unique(Seniorities(df)), Score(SeniorityMeans(df)))
    ensures highest in SeniorityMeans(df) && lowest in SeniorityMeans(df)
    ensures SeniorityRule(df) == Some(SeniorityGap(highest, lowest,
      Stats.PercentDiff(SeniorityMeans(df)[highest], SeniorityMeans(df)[lowest])))
  {
    SeniorityRuleChoice(df);
  }

  /**
   * A single-row frame fires no rule: one year, a NaN variance, the mean equal
   * to the median, one work arrangement and one seniority level. Its insight
   * list is therefore the fallback alone.
   */
  lemma SingleRowFallsBack(r: Row)
    ensures Fired([r], CalculateMetrics([r], [r])) == []
  {
    var df := [r];
    var m := CalculateMetrics(df, df);
    SingleYearNoChange(df, r.ano);
    assert Salaries(df) == [r.salarioUsd];
    assert m.salarioMinimo == r.salarioUsd == m.salarioMaximo;
    assert SkewRule(m).None?;
    assert VariabilityRule(m).None?;
    assert RemoteRule(df).None? by {
      if RemoteMean(df).Some? {
        assert r.remota == Label(RemoteLabel);
        assert OnSiteMean(df).None?;
      }
    }
    assert SeniorityRule(df).None? by {
      assert Seniorities(df) == [r.senioridade];
      assert (set x | x in Seniorities(df)) == {r.senioridade};
    }
    FiredEmpty(df, m);
  }

  /**
   * `gerar_insights`: the placeholder alone for an empty frame; otherwise the
   * insights of the rules that fire, appended in order, or the generic
   * fallback when none fires.
   */
  method GenerateInsights(df: seq<Row>, m: MetricsRecord) returns (insights: seq<Insight>)
    ensures |df| == 0 ==> insights == [NoData]
    ensures |df| > 0 ==> insights == if Fired(df, m) == [] then [Fallback] else Fired(df, m)
    ensures |insights| > 0
    ensures |df| > 0 ==> NoData !in insights
    ensures |df| > 0 ==> (Fallback in insights <==> Fired(df, m) == [])
    ensures Ascending(insights)
  {
    if |df| == 0 {
      return [NoData];
    }
    insights := [];
    insights := AppendYearOverYear(insights, m);
    insights := AppendVariability(insights, m);
    insights := AppendSkew(insights, m);
    insights := AppendRemote(insights, df);
    insights := AppendSeniority(insights, df);
    assert insights == Fired(df, m);
    NoPlaceholders(insights);
    if insights == [] {
      insights := [Fallback];
    }
  }
}
