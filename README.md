# Data-jobs salary dashboard: data and analytics core

This project models the data half of the salary dashboard's `common.py`:
- the column and value translation tables;
- the cleaning pipeline `processar_dados` (rename, recode, drop incomplete rows, integer year);
- the sidebar filter `filtrar_dataframe`;
- the summary statistics of `calcular_metricas`, with `validar_dataframe`, `calcular_diferenca_percentual` and `agrupar_e_calcular_media`;
- the rule-based `gerar_insights`;
- the currency formatter `formatar_moeda`.

A salary table is a sequence of rows. A raw row (`Schema.RawRow`) has every cell optional, standing for the missing values pandas drops. A cleaned row (`Schema.Row`) has every cell present and an integer year. Salaries are mathematical reals.

Modules:
- `Wrappers`: `Option`.
- `Seqs`: order-preserving filter, counting, distinct values, Python's string order, arg-max and arg-min with tie breaks.
- `Stats`: sum, mean, min, max, insertion sort, pandas' linear quantiles, sample variance, percent difference.
- `Schema`: column names, translation tables, value recoding, row cleaning, and the `ProcessData` and `TranslateValues` methods.
- `Filter`: selection criteria and the filter.
- `Metrics`: per-group means, year over year, mode, the metrics record.
- `Insights`: the five rules and the `GenerateInsights` method.
- `Currency`: the formatter and a reader that inverts it.

Standard deviation has no closed form over the reals without a square root. The metrics record therefore stores the sample variance (`variancia`), and the insight "coefficient of variation above 50%" is stated as `4 * variance > mean^2`. `Insights.VariabilityRuleIsCvAbove50` proves the two forms equivalent for any standard deviation `sd >= 0` whose square is the variance. A one-row frame has no sample variance; pandas reports NaN, and the model reports `None`.

## Model

| member | source | states |
|---|---|---|
| Schema.RenameColumn | common.py:20-32 | a listed dataset column gets its Portuguese name; any other column keeps its own |
| Schema.RenameColumns | common.py:91-101 | the header is renamed cell by cell, with its length and order kept |
| Schema.RenameRawHeader | common.py:20-32 | the dataset's eleven raw column names become exactly the eleven canonical names, in order |
| Schema.RenameInjective | common.py:20-32 | distinct raw columns get distinct new names, and a new name is never itself a raw name, so renaming loses no column |
| Schema.TranslateRowColumns | common.py:154-160 | the row translation recodes seniority, contract, company size, remote ratio and title each through its own table and leaves every other column as it was |
| Schema.TranslateTitle | common.py:104-141 | a listed job title maps to its Portuguese title; any other title is returned unchanged |
| Schema.Recode | common.py:156-158 | a code in the table is replaced by its label; an unlisted code and a missing cell are left as they are |
| Schema.RecodeRemote | common.py:54-58 | ratios 0, 50 and 100 become `Presencial`, `Híbrido` and `Remoto`; every other cell is unchanged |
| Schema.RecodeTitle | common.py:160 | the title column is mapped through the title table; a missing cell stays missing |
| Schema.TranslateListed | common.py:34-58 | every listed seniority, contract, company size, remote ratio and title is replaced by its label |
| Schema.TranslateUnlisted | common.py:144-162 | every unlisted value passes through, and the year, salaries, currency, residence and company location are never touched |
| Schema.TranslateIdempotent | common.py:144-162 | translating an already translated row changes nothing, because no label is itself a code of its table |
| Schema.OverwriteColumn | common.py:156-160 | the loop that rewrites one column leaves the frame's length and gives row i exactly the recoded row i |
| Schema.TranslateValues | common.py:144-162 | after the five column rewrites on a copy, row i is the fully translated input row i |
| Schema.TruncateYear | common.py:181 | `astype('int64')` truncates toward zero: the integer lies within one below (non-negative) or one above (negative) the year |
| Schema.TruncateIntegral | common.py:181 | an integral year is kept exactly |
| Schema.CompleteRows | common.py:178 | `dropna` keeps exactly the rows with no missing cell |
| Schema.CompleteRowsAppend | common.py:178 | `dropna` of two frames joined is the two cleaned frames joined, so the kept rows keep their order and multiplicity |
| Schema.CompleteRowsSingle | common.py:178 | a single row is kept, once, iff it has no missing cell |
| Schema.ToRow | common.py:178-181 | a complete row becomes a cleaned row with the truncated year and every other cell kept |
| Schema.ToRowEmbed | common.py:178-181 | cleaning a row that is already clean gives it back |
| Schema.Normalize | common.py:178-181 | the cleaned frame has one row per complete row, in order, each cleaned |
| Schema.NormalizeKeepsCompleteRows | common.py:178-181 | with integral years, cleaning loses nothing: each cleaned row restores its complete raw row |
| Schema.TranslatePreservesCompleteness | common.py:156-160 | translation neither creates nor removes missing cells or non-integral years, so recoding and dropping do not interfere |
| Schema.TranslateAll | common.py:144-162 | the value translation of a whole frame, row by row, with the length kept |
| Schema.ConvertYears | common.py:178-181 | the loop that drops incomplete rows and converts years builds exactly the cleaned frame |
| Schema.ProcessData | common.py:165-183 | the header is renamed; the rows are the translated input with incomplete rows dropped and years truncated |
| Filter.FilterRows | common.py:186-219 | a row is kept iff its year, seniority, contract and company size each lie in their lists, and, when a non-empty title list is given, its title lies in it |
| Filter.FilterIsOneMask | common.py:208-217 | the two-stage filter equals one mask with the whole selection predicate |
| Filter.FilterPreservesOrder | common.py:208-217 | filtering a concatenation filters each part, so the row order is kept |
| Filter.EmptyMandatoryListSelectsNothing | common.py:208-213 | an empty year, seniority, contract or size list selects no row |
| Filter.InactiveTitleIsMandatoryMask | common.py:216-217 | with no title list or an empty one, only the four mandatory lists decide |
| Filter.NoTitleRestriction | common.py:216 | passing no title list and passing an empty one give the same result |
| Filter.SameMandatoryMask | common.py:208-216 | two criteria that differ only in an inactive title list select the same rows |
| Filter.TitleListRestricts | common.py:216-217 | with an active title list, every kept row has a listed title |
| Filter.SelectAllKeepsEverything | common.py:208-217 | when every row's values are selected, the frame comes back unchanged |
| Filter.SelectDistinctValuesKeepsEverything | common.py:208-217 | selecting each column's distinct values keeps the whole frame |
| Filter.FilterIdempotent | common.py:208-217 | filtering twice with the same criteria equals filtering once |
| Stats.MeanTimesCount | common.py:269 | the mean times the number of values is their sum |
| Stats.MeanWithin | common.py:269 | the mean of a non-empty column lies within any bounds that hold for all of its values |
| Stats.MeanBounds | common.py:269-272 | the mean of a non-empty column lies between its minimum and maximum |
| Stats.Min | common.py:271 | the minimum is an element and bounds every element from below |
| Stats.Max | common.py:272 | the maximum is an element and bounds every element from above |
| Stats.Sort | common.py:270 | the sorted column is ordered, has the same length and is a permutation of the input |
| Stats.SortEnds | common.py:270-272 | the sorted column starts at the minimum and ends at the maximum |
| Stats.QuarterQuantile | common.py:270-275 | pandas' linear quantile at k/4 of a sorted column lies between its first and last element |
| Stats.QuarterQuantileValue | common.py:274-275 | with position h = (n - 1)·k quarters of an index: the element at h / 4 when h % 4 = 0, otherwise the mix (4 - f)·s[lo] + f·s[lo + 1] over 4 with f = h % 4, pandas' linear method |
| Stats.QuarterQuantileExample | common.py:274-275 | the quartiles of [1, 2, 3, 4] are 1.75 and 3.25, as pandas computes them |
| Stats.QuartilesOrdered | common.py:270-275 | min ≤ p25 ≤ median ≤ p75 ≤ max |
| Stats.QuarterQuantileMonotone | common.py:274-275 | quantiles do not decrease with k |
| Stats.QuarterQuantileEnds | common.py:271-275 | the 0 and 1 quantiles are the minimum and maximum |
| Stats.Median | common.py:270 | the median of a non-empty column lies between its minimum and maximum |
| Stats.MedianIsMiddle | common.py:270 | the median is the middle element of an odd column and the average of the two middle ones of an even column |
| Stats.SampleVariance | common.py:273 | the sample variance exists iff there are at least two values, and it is never negative |
| Stats.SampleVarianceExample | common.py:273 | the ddof = 1 variance of [1, 3] is 2 |
| Stats.ZeroVarianceIsConstant | common.py:273 | a variance of zero means every value equals the mean, the converse of `ConstantVariance` |
| Stats.ConstantVariance | common.py:273 | a constant column of two or more values has variance zero |
| Stats.PercentDiff | common.py:354-367 | 0 when the previous value is 0; otherwise the result times the previous value is 100 times the change |
| Stats.PercentDiffSign | common.py:354-367 | against a positive previous value, the result is positive, zero or negative exactly as the current value is above, equal to or below it |
| Metrics.HasData | common.py:288-298 | a frame is valid iff it has a row |
| Metrics.MeanWhere | common.py:263-264 | the mean of the selected rows exists iff some row is selected, and then lies within the salary range of the selected rows |
| Metrics.MeanWhereValue | common.py:263-264 | when it exists, the mean of the selected rows is the mean of the salaries of the selected rows, taken in frame order |
| Metrics.GroupMeans | common.py:387-405 | one group per distinct key; each group's value is the mean salary of exactly the rows with that key, in frame order, and lies within the frame's salary range |
| Metrics.LatestYear | common.py:258-260 | the latest year occurs in the frame and no row is later |
| Metrics.MultipleYears | common.py:257 | more than one distinct year needs more than one row |
| Metrics.MultipleYearsIffEarlier | common.py:257-259 | more than one distinct year iff some row lies before the latest year |
| Metrics.PreviousYear | common.py:258-261 | the second of the sorted distinct years from the end: earlier than the latest, in the frame, and the latest such year |
| Metrics.YearMean | common.py:263-264 | a year present in the frame has rows, and its mean is the mean salary of exactly those rows |
| Metrics.YearOverYear | common.py:255-266 | 0 with a single year; otherwise the percent change from the previous year's mean salary to the latest year's |
| Metrics.SingleYearNoChange | common.py:256-257 | a frame from one year has no year-over-year change |
| Metrics.YearOverYearExample | common.py:255-266 | a 2022 mean of 150 and a 2023 mean of 300 give a change of 100% |
| Metrics.MostFrequentTitle | common.py:277 | the most frequent title occurs in the frame, no title occurs more often, and ties go to the smallest title in string order |
| Metrics.CalculateMetrics | common.py:227-280 | empty frame: all fields zero and the title empty. Otherwise: the row count; the number of distinct titles; the year-over-year change; min ≤ p25 ≤ median ≤ p75 ≤ max; the mean is the mean of the salary column and min ≤ mean ≤ max; every salary in [min, max] with both ends attained; the median, variance and mode as defined; p25 and p75 are the quantiles 1/4 and 3/4 of the sorted salary column |
| Metrics.SalaryExtremes | common.py:271-272 | every salary lies between the column's minimum and maximum, and both are attained by some row |
| Insights.YearOverYearRule | common.py:719-730 | fires iff the change is non-zero: growth by the change when positive, decline by its magnitude when negative |
| Insights.VariabilityRule | common.py:732-738 | fires iff the mean is positive, the variance exists and four times the variance exceeds the squared mean |
| Insights.VariabilityRuleIsCvAbove50 | common.py:733-734 | for a standard deviation sd ≥ 0 with sd² as the variance, the rule fires iff the mean is positive and sd / mean · 100 > 50 |
| Insights.SkewRule | common.py:740-747 | fires iff the mean exceeds the median by more than a tenth of the mean, and reports both |
| Insights.RemoteMean | common.py:751 | the remote mean exists iff some row is fully remote, and is then the mean salary of all remote rows |
| Insights.OnSiteMean | common.py:752 | the on-site mean exists iff some row is on-site, and is then the mean salary of all on-site rows |
| Insights.RemoteRule | common.py:749-765 | fires iff both the remote and the on-site means exist, are positive and differ by more than 5%; names the better-paid side and the size of the gap |
| Insights.SeniorityMeans | common.py:769 | one group per seniority level present in the frame, each group mean within the frame's salary range |
| Insights.SeniorityMeanValue | common.py:769 | each level's value is the mean salary of exactly the rows at that level |
| Insights.SeniorityRule | common.py:767-780 | fires iff there is more than one seniority level; reports two distinct levels with the highest and the lowest mean salary and the percent gap between those means |
| Insights.SeniorityKeys | common.py:769 | the seniority groups are exactly the distinct seniority levels of the frame |
| Insights.DistinctEnds | common.py:770-772 | with two or more levels, the best-paid and the worst-paid level differ |
| Insights.Battery | common.py:719-780 | the rule outputs in rule order: ranks strictly increase along the list |
| Insights.Fired | common.py:719-780 | the insights that fire appear once each, in the fixed order year over year, variability, skew, remote, seniority |
| Insights.FiredEmpty | common.py:782-783 | nothing fires exactly when all five rules are silent |
| Insights.FiredIffRule | common.py:719-780 | an insight is listed iff one of the five rules produced it |
| Insights.SingleRowFallsBack | common.py:719-783 | a one-row frame fires no rule: one year, no sample variance, mean equal to median, one work arrangement, one level |
| Insights.AppendYearOverYear | common.py:719-730 | appends the year-over-year insight exactly when its rule fires |
| Insights.AppendVariability | common.py:732-738 | appends the variability insight exactly when its rule fires |
| Insights.AppendSkew | common.py:740-747 | appends the skew insight exactly when its rule fires |
| Insights.AppendRemote | common.py:749-765 | appends the remote-work insight exactly when its rule fires |
| Insights.AppendSeniority | common.py:767-780 | appends the seniority insight exactly when its rule fires |
| Insights.GenerateInsights | common.py:703-785 | empty frame: the placeholder alone. Otherwise: the insights that fire in rule order, or the fallback alone when none fires. The list is never empty, the fallback appears iff no rule fires, the placeholder never appears, and ranks strictly increase |
| Currency.Grouped | common.py:351 | only digits and commas, beginning with a digit that is non-zero for a positive amount; the amount 0 is the single digit `0` |
| Currency.GroupedCommas | common.py:351 | the commas sit exactly at every fourth position counted from the right, so the digits come in groups of three |
| Currency.FormatCurrency | common.py:341-351 | starts with `$`; the sign follows it iff the amount is negative; the amount 0 is exactly `$0`; the rest is digits and commas, with no leading zero for a non-zero amount, commas exactly at every fourth place from the right, and reads back as the amount's magnitude |
| Currency.GroupedValue | common.py:351 | reading the grouped digits, commas skipped, gives the amount back |
| Currency.FormatParse | common.py:341-351 | parsing the formatted amount recovers it exactly |
| Currency.FormatInjective | common.py:341-351 | distinct amounts are formatted differently |

## Left out

- `carregar_dados` is not modelled: it reads a CSV over the network. `ProcessData` takes the parsed header and rows as parameters instead.
- Not modelled because they only draw Streamlit or Plotly output:
  - the chart builders;
  - `aplicar_layout_padrao`;
  - `exibir_grafico_com_tratamento`;
  - `criar_filtro_multiselect`;
  - the `exibir_*` page functions.
- `app.py` and `test.py` are not part of this model. The first is the page wiring; the second is an exploratory script with no assertions.
- `ordenar_por_categoria` is not modelled: it only orders rows for a chart's category axis.
- `criar_barra_lateral_filtros` is not modelled: it draws the sidebar widgets. Its result is the selection that `Filter.FilterRows` takes as a parameter.
- Salaries are modelled as reals, not IEEE doubles: no rounding, no infinities.
- NaN is modelled only where the code reaches it: the variance of one row, and the mean of an empty group. Both become `None`.
- The insight sentences, their emoji and the `.1f` rounding are not modelled. Each insight carries its numbers rather than its text.
- Metrics.CalculateMetrics: stores the sample variance instead of `desvio_padrao`, the standard deviation. The real square root is not available. The variability rule is proved equivalent through `VariabilityRuleIsCvAbove50`.
- Metrics.CalculateMetrics: the `dataframe_completo` parameter is accepted and ignored, as in the source.
- Metrics.GroupMeans: returns a map, not the `reset_index` frame sorted by key. The key order of the result is not modelled.
- Insights.SeniorityRule: pandas leaves ties in `sort_values` to numpy's unstable sort. The model fixes one choice among tied levels:
  - the highest is the first tied level in string order;
  - the lowest is the last tied level in string order.
- Insights.GenerateInsights: the `'remota' in dataframe.columns` and `'senioridade' in dataframe.columns` guards are always true here. The row type fixes the schema.
- Missing columns are not modelled, for the same reason: the `KeyError` the source would raise cannot arise.
- Schema.TruncateYear: does not model the int64 range. Years are unbounded integers.
- Currency.FormatCurrency: formats whole amounts only. Python's rounding of a float to no decimals (half to even) is not modelled.
