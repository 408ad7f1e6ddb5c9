/** The statistical decision tree (`AiTableStats`, in the current statistics package and in the
    older copy kept by the RAG app) and the correlation analysis (`AiTableRelationStats`).

    The tests themselves (SciPy and statsmodels) are not modelled: `run` gives the result a
    test produces on the analysed frame, which the decision tree reads only through its p-value. */
module StatsDecision {
  import opened Wrappers
  import opened Seqs
  import opened StatsResults
  import opened StatsPairwise

  /** The two copies of the decision tree: the statistics package, and the older copy of the
      RAG app, which drops incomplete rows, names its summary "Normality Summary" and runs no
      post-hoc test after Friedman. */
  datatype Edition = Current | Older

  /** The tests of `AiTableStatsTests`. */
  datatype Test =
    | ShapiroWilk | KolmogorovSmirnov | Bartlett | Levene
    | Chi2Adjustment | Chi2Independence | McNemar
    | StudentIndependent | StudentPaired | Anova | TukeyHsd
    | MannWhitney | Wilcoxon | KruskalWallis | Friedman | Dunn
    | PearsonCorrelation | SpearmanCorrelation
    | Bonferroni | Scheffe

  /** A test applied to one column of the frame, or to the frame as a whole. */
  datatype Call = OnColumn(test: Test, column: nat) | OnFrame(test: Test)

  /** The result each test produces on the analysed frame. */
  type Tests = Call -> StatsResult

  /** The post-hoc tests and the corrections report no p-value of their own; every other test does. */
  predicate HasPValue(t: Test)
  {
    !(t.TukeyHsd? || t.Dunn? || t.Bonferroni? || t.Scheffe?)
  }

  /** The tests report a p-value wherever they promise one. */
  ghost predicate Reports(run: Tests)
  {
    forall c: Call :: HasPValue(c.test) ==> run(c).pValue.Some?
  }

  function PValue(run: Tests, c: Call): real
    requires Reports(run) && HasPValue(c.test)
  {
    run(c).pValue.value
  }

  /** The names the tests give their results (the older copy calls Mann-Whitney "Mann-Whitney U"). */
  function TestName(edition: Edition, t: Test): string
  {
    match t
    case ShapiroWilk => "Shapiro-Wilk"
    case KolmogorovSmirnov => "Kolmogorov-Smirnov (Lilliefors)"
    case Bartlett => "Bartlett"
    case Levene => "Levene"
    case Chi2Adjustment => "Chi-squared adjustment"
    case Chi2Independence => "Chi-squared independence"
    case McNemar => "McNemar"
    case StudentIndependent => "Student t-test (independent)"
    case StudentPaired => "Student t-test (paired)"
    case Anova => "ANOVA"
    case TukeyHsd => "Tukey HSD"
    case MannWhitney => if edition == Current then "Mann-Whitney" else "Mann-Whitney U"
    case Wilcoxon => "Wilcoxon signed-rank"
    case KruskalWallis => "Kruskal-Wallis"
    case Friedman => "Friedman"
    case Dunn => "Dunn"
    case PearsonCorrelation => PearsonName
    case SpearmanCorrelation => SpearmanName
    case Bonferroni => StudentPairwiseName
    case Scheffe => StudentPairwiseName
  }

  /** Every result carries the name of the test that produced it. */
  ghost predicate Named(edition: Edition, run: Tests)
  {
    forall c: Call :: run(c).testName == TestName(edition, c.test)
  }

  // ---------------------------------------------------------------- the frame

  /** The analysed data frame: column names, whether each column has a numeric type, and the
      rows, a missing value being `None`. */
  datatype Frame = Frame(columns: seq<string>, numeric: seq<bool>, rows: seq<seq<Option<string>>>)

  /** A row without missing values. */
  predicate Complete(row: seq<Option<string>>)
  {
    forall i :: 0 <= i < |row| ==> row[i].Some?
  }

  /** `dataframe.dropna()`: the rows without missing values, in order. */
  function DropNa(rows: seq<seq<Option<string>>>): (r: seq<seq<Option<string>>>)
    ensures forall row :: row in r <==> row in rows && Complete(row)
  {
    forall row ensures row in Filter(rows, Complete) <==> row in rows && Complete(row)
    {
      FilterMembers(rows, Complete, row);
    }
    Filter(rows, Complete)
  }

  /** `columns_are_quantitative`: every column has a numeric type. */
  predicate Quantitative(frame: Frame)
  {
    forall i :: 0 <= i < |frame.numeric| ==> frame.numeric[i]
  }

  // ---------------------------------------------------------------- the decision tree

  /** The records an analysis adds to the history, and how it ends. */
  datatype Analysis = Analysis(records: seq<StatsResult>, outcome: Outcome)

  /** Shapiro-Wilk below 50 rows, Kolmogorov-Smirnov from 50 rows on. */
  function NormalityTest(numRows: nat): (t: Test)
    ensures t == ShapiroWilk <==> numRows < 50
    ensures t == KolmogorovSmirnov <==> numRows >= 50
  {
    if numRows < 50 then ShapiroWilk else KolmogorovSmirnov
  }

  /** The name the normality summary gives the test it used. */
  function TestUsed(numRows: nat): string
  {
    if numRows < 50 then "Shapiro-Wilk" else "Kolmogorov-Smirnov"
  }

  /** The first `k` columns pass the normality test `t`: none has a p-value of 0.05 or less. */
  function AllNormal(run: Tests, t: Test, k: nat): bool
    requires Reports(run) && HasPValue(t)
    decreases k
  {
    if k == 0 then true else AllNormal(run, t, k - 1) && PValue(run, OnColumn(t, k - 1)) > 0.05
  }

  /** The result texts of the normality tests of the first `k` columns, in column order. */
  function NormalityTexts(run: Tests, t: Test, k: nat): (r: seq<string>)
    ensures |r| == k
    ensures forall c :: 0 <= c < k ==> r[c] == run(OnColumn(t, c)).resultText
    decreases k
  {
    if k == 0 then [] else NormalityTexts(run, t, k - 1) + [run(OnColumn(t, k - 1)).resultText]
  }

  /** The results of the normality tests of the first `k` columns, in column order. */
  function NormalityResults(run: Tests, t: Test, k: nat): (r: seq<StatsResult>)
    ensures |r| == k
    ensures forall c :: 0 <= c < k ==> r[c] == run(OnColumn(t, c))
    decreases k
  {
    if k == 0 then [] else NormalityResults(run, t, k - 1) + [run(OnColumn(t, k - 1))]
  }

  function SummaryName(edition: Edition): string
  {
    if edition == Current then "Normality summary" else "Normality Summary"
  }

  /** The record that closes the normality step: its details hold the texts of the column
      results in the statistics package and the results themselves in the older copy. */
  function NormalityRecord(edition: Edition, allNormal: bool, numRows: nat, texts: seq<string>,
                           results: seq<StatsResult>): StatsResult
  {
    StatsResult(SummaryName(edition),
                if allNormal then "All columns are normal" else "At least one column is not normal",
                None, None,
                if edition == Current then NormalitySummary(allNormal, TestUsed(numRows), texts)
                else IndividualResults(allNormal, TestUsed(numRows), results),
                None, None)
  }

  /** Bartlett for normal data, Levene otherwise. */
  function HomogeneityTest(allNormal: bool): Test
  {
    if allNormal then Bartlett else Levene
  }

  /** The omnibus test of `t` is significant: its p-value is below 0.05. */
  predicate Significant(run: Tests, t: Test)
    requires Reports(run) && HasPValue(t)
  {
    PValue(run, OnFrame(t)) < 0.05
  }

  /** The qualitative branch. */
  function QualitativeAnalysis(numColumns: nat, independent: bool, run: Tests): Analysis
  {
    if numColumns == 1 then Analysis([run(OnFrame(Chi2Adjustment))], Pass)
    else if numColumns == 2 then Analysis([run(OnFrame(if independent then Chi2Independence else McNemar))], Pass)
    else Analysis([], Fail(ValueError))
  }

  /** The parametric branch, taken when the data are normal with homogeneous variances. */
  function ParametricAnalysis(numColumns: nat, independent: bool, run: Tests): Analysis
    requires Reports(run)
  {
    if numColumns == 2 then Analysis([run(OnFrame(if independent then StudentIndependent else StudentPaired))], Pass)
    else if numColumns > 2 then
      if independent then
        Analysis([run(OnFrame(Anova))] + (if Significant(run, Anova) then [run(OnFrame(TukeyHsd))] else []), Pass)
      else Analysis([], Fail(ValueError))
    else Analysis([], Pass)
  }

  /** The non-parametric branch. */
  function NonParametricAnalysis(edition: Edition, numColumns: nat, independent: bool, run: Tests): Analysis
    requires Reports(run)
  {
    if numColumns == 2 then Analysis([run(OnFrame(if independent then MannWhitney else Wilcoxon))], Pass)
    else if numColumns > 2 then
      if independent then
        Analysis([run(OnFrame(KruskalWallis))] + (if Significant(run, KruskalWallis) then [run(OnFrame(Dunn))] else []), Pass)
      else
        Analysis([run(OnFrame(Friedman))]
                 + (if edition == Current && Significant(run, Friedman) then [run(OnFrame(Dunn))] else []), Pass)
    else Analysis([], Pass)
  }

  /** The branches are chosen on normality and homogeneity. */
  predicate ParametricPath(numColumns: nat, numRows: nat, run: Tests)
    requires Reports(run)
  {
    var allNormal := AllNormal(run, NormalityTest(numRows), numColumns);
    allNormal && PValue(run, OnFrame(HomogeneityTest(allNormal))) > 0.05
  }

  /** The test chosen once the path is known. */
  function BranchAnalysis(edition: Edition, numColumns: nat, independent: bool, parametric: bool, run: Tests): Analysis
    requires Reports(run)
  {
    if parametric then ParametricAnalysis(numColumns, independent, run)
    else NonParametricAnalysis(edition, numColumns, independent, run)
  }

  /** The normality summary of a frame of `numColumns` columns and `numRows` rows. */
  function NormalityStep(edition: Edition, numColumns: nat, numRows: nat, run: Tests): StatsResult
    requires Reports(run)
  {
    var t := NormalityTest(numRows);
    NormalityRecord(edition, AllNormal(run, t, numColumns), numRows, NormalityTexts(run, t, numColumns),
                    NormalityResults(run, t, numColumns))
  }

  /** The homogeneity test of that frame, chosen on the normality outcome. */
  function HomogeneityStep(numColumns: nat, numRows: nat, run: Tests): StatsResult
    requires Reports(run)
  {
    run(OnFrame(HomogeneityTest(AllNormal(run, NormalityTest(numRows), numColumns))))
  }

  /** The quantitative branch: the normality summary, the homogeneity test, then the parametric
      or the non-parametric branch. */
  function QuantitativeAnalysis(edition: Edition, numColumns: nat, numRows: nat, independent: bool, run: Tests): Analysis
    requires Reports(run)
  {
    var rest := BranchAnalysis(edition, numColumns, independent, ParametricPath(numColumns, numRows, run), run);
    Analysis([NormalityStep(edition, numColumns, numRows, run), HomogeneityStep(numColumns, numRows, run)] + rest.records,
             rest.outcome)
  }

  /** The quantitative analysis is the two first steps followed by the branch they choose. */
  lemma QuantitativeSteps(edition: Edition, numColumns: nat, numRows: nat, independent: bool, run: Tests)
    requires Reports(run)
    ensures var a := QuantitativeAnalysis(edition, numColumns, numRows, independent, run);
            var b := BranchAnalysis(edition, numColumns, independent, ParametricPath(numColumns, numRows, run), run);
            && a.records == [NormalityStep(edition, numColumns, numRows, run), HomogeneityStep(numColumns, numRows, run)] + b.records
            && a.outcome == b.outcome
  {
  }

  /** `run_statistical_analysis`. */
  function StatisticalAnalysis(edition: Edition, frame: Frame, independent: bool, run: Tests): Analysis
    requires Reports(run)
  {
    if Quantitative(frame) then QuantitativeAnalysis(edition, |frame.columns|, |frame.rows|, independent, run)
    else QualitativeAnalysis(|frame.columns|, independent, run)
  }

  /** The correction applied after the pairwise t-tests: Bonferroni for fewer than 30
      independent columns, Tukey from 30 on, Scheffe for paired columns. */
  function Correction(independent: bool, numColumns: nat): (t: Test)
    ensures t == Scheffe <==> !independent
    ensures t == Bonferroni <==> independent && numColumns < 30
    ensures t == TukeyHsd <==> independent && numColumns >= 30
  {
    if independent then (if numColumns < 30 then Bonferroni else TukeyHsd) else Scheffe
  }

  /** `AiTableStats`. */
  class AiTableStats {
    const edition: Edition
    const frame: Frame
    const independent: bool
    var history: seq<StatsResult>

    /** The older copy drops the rows with missing values; both start with an empty history. */
    constructor (frame: Frame, independent: bool, edition: Edition)
      ensures this.edition == edition && this.independent == independent && history == []
      ensures edition == Older ==> this.frame == frame.(rows := DropNa(frame.rows))
      ensures edition == Current ==> this.frame == frame
    {
      this.edition := edition;
      this.frame := if edition == Older then frame.(rows := DropNa(frame.rows)) else frame;
      this.independent := independent;
      history := [];
    }

    /** `_record_test`. */
    method RecordTest(r: StatsResult)
      modifies this
      ensures history == old(history) + [r]
    {
      history := history + [r];
    }

    /** `_test_normality`: one test per column, then the summary record. */
    method TestNormality(run: Tests) returns (allNormal: bool)
      requires Reports(run)
      modifies this
      ensures allNormal == AllNormal(run, NormalityTest(|frame.rows|), |frame.columns|)
      ensures history == old(history) + [NormalityStep(edition, |frame.columns|, |frame.rows|, run)]
    {
      var numRows, n := |frame.rows|, |frame.columns|;
      var t := NormalityTest(numRows);
      allNormal := true;
      var texts: seq<string> := [];
      var results: seq<StatsResult> := [];
      var c := 0;
      while c < n
        invariant 0 <= c <= n
        invariant allNormal == AllNormal(run, t, c)
        invariant texts == NormalityTexts(run, t, c)
        invariant results == NormalityResults(run, t, c)
      {
        var result := run(OnColumn(t, c));
        texts := texts + [result.resultText];
        results := results + [result];
        if result.pValue.value <= 0.05 {
          allNormal := false;
        }
        c := c + 1;
      }
      RecordTest(NormalityRecord(edition, allNormal, numRows, texts, results));
    }

    /** `_test_homogeneity`: variances are homogeneous when the p-value exceeds 0.05. */
    method TestHomogeneity(run: Tests, allNormal: bool) returns (homogeneous: bool)
      requires Reports(run)
      modifies this
      ensures homogeneous <==> PValue(run, OnFrame(HomogeneityTest(allNormal))) > 0.05
      ensures history == old(history) + [run(OnFrame(HomogeneityTest(allNormal)))]
    {
      var result := run(OnFrame(HomogeneityTest(allNormal)));
      RecordTest(result);
      homogeneous := result.pValue.value > 0.05;
    }

    /** `_analyze_qualitative_columns`. */
    method AnalyzeQualitative(run: Tests) returns (o: Outcome)
      modifies this
      ensures var a := QualitativeAnalysis(|frame.columns|, independent, run);
              history == old(history) + a.records && o == a.outcome
    {
      var n := |frame.columns|;
      if n == 1 {
        RecordTest(run(OnFrame(Chi2Adjustment)));
      } else if n == 2 {
        if independent {
          RecordTest(run(OnFrame(Chi2Independence)));
        } else {
          RecordTest(run(OnFrame(McNemar)));
        }
      } else {
        return Fail(ValueError);
      }
      o := Pass;
    }

    /** Runs an omnibus test and, when `postHoc` allows it and the test is significant, the
        post-hoc test. */
    method RunWithPostHoc(run: Tests, omnibus: Test, postHoc: bool, after: Test)
      requires Reports(run) && HasPValue(omnibus)
      modifies this
      ensures history == old(history) + [run(OnFrame(omnibus))]
                         + (if postHoc && Significant(run, omnibus) then [run(OnFrame(after))] else [])
    {
      var result := run(OnFrame(omnibus));
      RecordTest(result);
      if postHoc && result.pValue.value < 0.05 {
        RecordTest(run(OnFrame(after)));
      }
    }

    /** The parametric branch of `_analyze_quantitative_columns`. */
    method AnalyzeParametric(run: Tests) returns (o: Outcome)
      requires Reports(run)
      modifies this
      ensures var a := ParametricAnalysis(|frame.columns|, independent, run);
              history == old(history) + a.records && o == a.outcome
    {
      var n := |frame.columns|;
      o := Pass;
      if n == 2 {
        RecordTest(run(OnFrame(if independent then StudentIndependent else StudentPaired)));
      } else if n > 2 {
        if independent {
          RunWithPostHoc(run, Anova, true, TukeyHsd);
        } else {
          o := Fail(ValueError);
        }
      }
    }

    /** The non-parametric branch of `_analyze_quantitative_columns`. */
    method AnalyzeNonParametric(run: Tests) returns (o: Outcome)
      requires Reports(run)
      modifies this
      ensures var a := NonParametricAnalysis(edition, |frame.columns|, independent, run);
              history == old(history) + a.records && o == a.outcome
    {
      var n := |frame.columns|;
      o := Pass;
      if n == 2 {
        RecordTest(run(OnFrame(if independent then MannWhitney else Wilcoxon)));
      } else if n > 2 {
        if independent {
          RunWithPostHoc(run, KruskalWallis, true, Dunn);
        } else {
          RunWithPostHoc(run, Friedman, edition == Current, Dunn);
        }
      }
    }

    /** The test chosen on the path the first two steps found. */
    method AnalyzeBranch(run: Tests, parametric: bool) returns (o: Outcome)
      requires Reports(run)
      modifies this
      ensures var a := BranchAnalysis(edition, |frame.columns|, independent, parametric, run);
              history == old(history) + a.records && o == a.outcome
    {
      if parametric {
        o := AnalyzeParametric(run);
      } else {
        o := AnalyzeNonParametric(run);
      }
    }

    /** The first two steps of `_analyze_quantitative_columns`: they record the normality
        summary and the homogeneity test and tell which path the analysis takes. */
    method ChoosePath(run: Tests) returns (parametric: bool)
      requires Reports(run)
      modifies this
      ensures parametric == ParametricPath(|frame.columns|, |frame.rows|, run)
      ensures history == old(history) + [NormalityStep(edition, |frame.columns|, |frame.rows|, run),
                                         HomogeneityStep(|frame.columns|, |frame.rows|, run)]
    {
      var allNormal := TestNormality(run);
      var homogeneous := TestHomogeneity(run, allNormal);
      parametric := homogeneous && allNormal;
    }

    /** `_analyze_quantitative_columns`. */
    method AnalyzeQuantitative(run: Tests) returns (o: Outcome)
      requires Reports(run)
      modifies this
      ensures var a := QuantitativeAnalysis(edition, |frame.columns|, |frame.rows|, independent, run);
              history == old(history) + a.records && o == a.outcome
    {
      ghost var start := history;
      var parametric := ChoosePath(run);
      ghost var mid := history;
      o := AnalyzeBranch(run, parametric);
      ghost var p := [NormalityStep(edition, |frame.columns|, |frame.rows|, run), HomogeneityStep(|frame.columns|, |frame.rows|, run)];
      ghost var b := BranchAnalysis(edition, |frame.columns|, independent, parametric, run);
      assert history == (start + p) + b.records;
      ConcatAssoc(start, p, b.records);
      QuantitativeSteps(edition, |frame.columns|, |frame.rows|, independent, run);
    }

    /** `run_statistical_analysis`. */
    method RunStatisticalAnalysis(run: Tests) returns (o: Outcome)
      requires Reports(run)
      modifies this
      ensures var a := StatisticalAnalysis(edition, frame, independent, run);
              history == old(history) + a.records && o == a.outcome
    {
      if Quantitative(frame) {
        o := AnalyzeQuantitative(run);
      } else {
        o := AnalyzeQualitative(run);
      }
    }

    /** `suggested_additional_tests` (current package only): the pairwise t-test is suggested
        exactly when ANOVA was run and the pairwise t-test was not. */
    function SuggestedAdditionalTests(): (r: Option<string>)
      reads this
      ensures r.Some? <==> HasTest(history, "ANOVA") && !HasTest(history, StudentPairwiseName)
      ensures r.Some? ==> r.value == StudentPairwiseName
    {
      if history == [] then None
      else if AnyNamed(history, "ANOVA") && !AnyNamed(history, StudentPairwiseName) then Some(StudentPairwiseName)
      else None
    }

    /** `run_student_independent_pairwise` (current package only): it needs ANOVA and Tukey HSD
        in the history, records the raw pairwise result and then the correction, and returns
        the correction. `common` and `compare` stand for the frame as the pairwise analysis
        sees it; `correct(t, raw, n)` is the result the correction `t` gives on the pairwise
        matrix held by the raw result `raw` for `n` columns. */
    method RunStudentIndependentPairwise(reference: Option<string>, correct: (Test, StatsResult, nat) -> StatsResult,
                                         common: (nat, nat) -> nat, compare: (nat, nat) -> Comparison)
      returns (r: Result<StatsResult>)
      requires Distinct(frame.columns)
      modifies this
      ensures (!HasTest(old(history), "ANOVA") || !HasTest(old(history), "Tukey HSD"))
                ==> r == Err(ValueError) && history == old(history)
      ensures HasTest(old(history), "ANOVA") && HasTest(old(history), "Tukey HSD") ==>
                var raw := PairwiseResult(frame.columns, common, compare, reference, StudentPairwiseName, 1.0);
                var n := |frame.columns|;
                && (raw.Err? ==> r == Err(raw.kind) && history == old(history))
                && (raw.Ok? ==> var correction := correct(Correction(independent, n), raw.value, n);
                                r == Ok(correction) && history == old(history) + [raw.value, correction])
    {
      if !AnyNamed(history, "ANOVA") {
        return Err(ValueError);
      }
      if !AnyNamed(history, "Tukey HSD") {
        return Err(ValueError);
      }
      var raw := StudentIndependentPairwise(frame.columns, common, compare, reference);
      if raw.Err? {
        return Err(raw.kind);
      }
      ghost var before := history;
      RecordTest(raw.value);
      var correction := correct(Correction(independent, |frame.columns|), raw.value, |frame.columns|);
      RecordTest(correction);
      SnocTwice(before, raw.value, correction);
      r := Ok(correction);
    }
  }

  // ---------------------------------------------------------------- the correlation analysis

  /** `validate_data`: at least two columns, all numeric, and a reference (when one is given)
      that names a column. */
  function ValidateData(frame: Frame, reference: Option<string>): (o: Outcome)
    ensures o == Pass <==> |frame.columns| >= 2 && Quantitative(frame)
                           && (HasReference(reference) ==> reference.value in frame.columns)
    ensures o != Pass ==> o == Fail(ValueError)
  {
    if |frame.columns| < 2 then Fail(ValueError)
    else if !Quantitative(frame) then Fail(ValueError)
    else if HasReference(reference) && reference.value !in frame.columns then Fail(ValueError)
    else Pass
  }

  /** `run_correlation_analysis`: with two columns the Pearson and Spearman tests, otherwise the
      pairwise Pearson and Spearman analyses (which stop at the first error). */
  function CorrelationAnalysis(frame: Frame, reference: Option<string>, run: Tests,
                               common: (nat, nat) -> nat, pearson: (nat, nat) -> Comparison,
                               spearman: (nat, nat) -> Comparison): Analysis
  {
    var valid := ValidateData(frame, reference);
    if valid.Fail? then Analysis([], valid)
    else if |frame.columns| == 2 then Analysis([run(OnFrame(PearsonCorrelation)), run(OnFrame(SpearmanCorrelation))], Pass)
    else
      var p := PairwiseResult(frame.columns, common, pearson, reference, PearsonName, 1.0);
      var s := PairwiseResult(frame.columns, common, spearman, reference, SpearmanName, 1.0);
      if p.Err? then Analysis([], Fail(p.kind))
      else if s.Err? then Analysis([p.value], Fail(s.kind))
      else Analysis([p.value, s.value], Pass)
  }

  /** `run_correlation_analysis` as written: the two-column branch calls
      `pearson_correlation_test` on the RAG app's `AiTableStatsTests`, which has no such method,
      so it raises an AttributeError before recording anything; other inputs behave as in
      `CorrelationAnalysis`. */
  function CorrelationAnalysisAsWritten(frame: Frame, reference: Option<string>, run: Tests,
                                        common: (nat, nat) -> nat, pearson: (nat, nat) -> Comparison,
                                        spearman: (nat, nat) -> Comparison): Analysis
  {
    var valid := ValidateData(frame, reference);
    if valid.Pass? && |frame.columns| == 2 then Analysis([], Fail(AttributeError))
    else CorrelationAnalysis(frame, reference, run, common, pearson, spearman)
  }

  /** `AiTableRelationStats`. */
  class AiTableRelationStats {
    const frame: Frame
    const reference: Option<string>
    var history: seq<StatsResult>

    constructor (frame: Frame, reference: Option<string>)
      ensures this.frame == frame && this.reference == reference && history == []
    {
      this.frame := frame;
      this.reference := reference;
      history := [];
    }

    /** `_record_test`. */
    method RecordTest(r: StatsResult)
      modifies this
      ensures history == old(history) + [r]
    {
      history := history + [r];
    }

    /** `run_correlation_analysis` as written (see `CorrelationAnalysisAsWritten`). */
    method RunCorrelationAnalysisAsWritten(run: Tests, common: (nat, nat) -> nat,
                                           pearson: (nat, nat) -> Comparison, spearman: (nat, nat) -> Comparison)
      returns (o: Outcome)
      requires Distinct(frame.columns)
      modifies this
      ensures var a := CorrelationAnalysisAsWritten(frame, reference, run, common, pearson, spearman);
              history == old(history) + a.records && o == a.outcome
    {
      o := ValidateData(frame, reference);
      if o.Pass? && |frame.columns| == 2 {
        return Fail(AttributeError);
      }
      o := RunCorrelationAnalysis(run, common, pearson, spearman);
    }

    /** `run_correlation_analysis` as intended: the two-column branch records the Pearson and
        the Spearman results. */
    method RunCorrelationAnalysis(run: Tests, common: (nat, nat) -> nat,
                                  pearson: (nat, nat) -> Comparison, spearman: (nat, nat) -> Comparison)
      returns (o: Outcome)
      requires Distinct(frame.columns)
      modifies this
      ensures var a := CorrelationAnalysis(frame, reference, run, common, pearson, spearman);
              history == old(history) + a.records && o == a.outcome
    {
      o := ValidateData(frame, reference);
      if o.Fail? {
        return;
      }
      ghost var before := history;
      if |frame.columns| == 2 {
        RecordTest(run(OnFrame(PearsonCorrelation)));
        RecordTest(run(OnFrame(SpearmanCorrelation)));
        SnocTwice(before, run(OnFrame(PearsonCorrelation)), run(OnFrame(SpearmanCorrelation)));
      } else {
        var p := PearsonPairwise(frame.columns, common, pearson, reference);
        if p.Err? {
          return Fail(p.kind);
        }
        RecordTest(p.value);
        var s := SpearmanPairwise(frame.columns, common, spearman, reference);
        if s.Err? {
          return Fail(s.kind);
        }
        RecordTest(s.value);
        SnocTwice(before, p.value, s.value);
      }
    }
  }

  // ---------------------------------------------------------------- properties

  /** The data are normal exactly when every column's normality p-value exceeds 0.05. */
  lemma {:induction false} AllNormalIff(run: Tests, t: Test, k: nat)
    requires Reports(run) && HasPValue(t)
    ensures AllNormal(run, t, k) <==> forall c :: 0 <= c < k ==> PValue(run, OnColumn(t, c)) > 0.05
    decreases k
  {
    if k > 0 {
      AllNormalIff(run, t, k - 1);
    }
  }

  /** The normality summary comes first: it names the test used (Shapiro-Wilk exactly below 50
      rows), holds one text per column (the statistics package) or the column results
      themselves (the older copy), and says the data are normal exactly when no column's
      p-value is 0.05 or less; the homogeneity test comes second, Bartlett exactly for normal data. */
  lemma NormalityThenHomogeneity(edition: Edition, frame: Frame, independent: bool, run: Tests)
    requires Reports(run) && Quantitative(frame)
    ensures var a := StatisticalAnalysis(edition, frame, independent, run);
            var n, t := |frame.columns|, NormalityTest(|frame.rows|);
            && |a.records| >= 2
            && a.records[0].testName == SummaryName(edition)
            && (edition == Current ==> a.records[0].details.NormalitySummary?
                                       && |a.records[0].details.resultTexts| == n)
            && (edition == Older ==> a.records[0].details.IndividualResults?
                                     && a.records[0].details.results == NormalityResults(run, t, n))
            && (a.records[0].details.testUsed == "Shapiro-Wilk" <==> |frame.rows| < 50)
            && (a.records[0].details.allNormal <==> forall c :: 0 <= c < n ==> PValue(run, OnColumn(t, c)) > 0.05)
            && a.records[1] == run(OnFrame(if a.records[0].details.allNormal then Bartlett else Levene))
  {
    AllNormalIff(run, NormalityTest(|frame.rows|), |frame.columns|);
  }

  /** The test names of a list of results, in order. */
  function Names(results: seq<StatsResult>): (r: seq<string>)
    ensures |r| == |results|
    ensures forall i :: 0 <= i < |results| ==> r[i] == results[i].testName
  {
    seq(|results|, i requires 0 <= i < |results| => results[i].testName)
  }

  lemma NamesConcat(xs: seq<StatsResult>, ys: seq<StatsResult>)
    ensures Names(xs + ys) == Names(xs) + Names(ys)
  {
  }

  lemma NamesOfOneThen(x: StatsResult, rest: seq<StatsResult>)
    ensures Names([x] + rest) == [x.testName] + Names(rest)
  {
    NamesConcat([x], rest);
  }

  lemma NamesOfTwoThen(x: StatsResult, y: StatsResult, rest: seq<StatsResult>)
    ensures Names([x, y] + rest) == [x.testName, y.testName] + Names(rest)
  {
    NamesConcat([x, y], rest);
  }

  /** `history_contains` is membership in the list of names. */
  lemma HasTestIffNamed(results: seq<StatsResult>, name: string)
    ensures HasTest(results, name) <==> name in Names(results)
  {
    if name in Names(results) {
      var i :| 0 <= i < |results| && Names(results)[i] == name;
    }
  }

  /** The names the branch chosen after the first two steps records. */
  lemma BranchNames(edition: Edition, n: nat, independent: bool, parametric: bool, run: Tests)
    requires Reports(run) && Named(edition, run)
    ensures Names(BranchAnalysis(edition, n, independent, parametric, run).records) ==
              if n == 2 then
                [TestName(edition, if parametric then (if independent then StudentIndependent else StudentPaired)
                                   else (if independent then MannWhitney else Wilcoxon))]
              else if n > 2 && parametric && independent then
                ["ANOVA"] + (if Significant(run, Anova) then ["Tukey HSD"] else [])
              else if n > 2 && !parametric && independent then
                ["Kruskal-Wallis"] + (if Significant(run, KruskalWallis) then ["Dunn"] else [])
              else if n > 2 && !parametric then
                ["Friedman"] + (if edition == Current && Significant(run, Friedman) then ["Dunn"] else [])
              else []
  {
    if parametric {
      ParametricNames(edition, n, independent, run);
    } else {
      NonParametricNames(edition, n, independent, run);
    }
  }

  lemma ParametricNames(edition: Edition, n: nat, independent: bool, run: Tests)
    requires Reports(run) && Named(edition, run)
    ensures Names(ParametricAnalysis(n, independent, run).records) ==
              if n == 2 then [TestName(edition, if independent then StudentIndependent else StudentPaired)]
              else if n > 2 && independent then ["ANOVA"] + (if Significant(run, Anova) then ["Tukey HSD"] else [])
              else []
  {
    if n > 2 && independent {
      OmnibusNames(edition, run, Anova, TukeyHsd, Significant(run, Anova));
    }
  }

  lemma NonParametricNames(edition: Edition, n: nat, independent: bool, run: Tests)
    requires Reports(run) && Named(edition, run)
    ensures Names(NonParametricAnalysis(edition, n, independent, run).records) ==
              if n == 2 then [TestName(edition, if independent then MannWhitney else Wilcoxon)]
              else if n > 2 && independent then
                ["Kruskal-Wallis"] + (if Significant(run, KruskalWallis) then ["Dunn"] else [])
              else if n > 2 then
                ["Friedman"] + (if edition == Current && Significant(run, Friedman) then ["Dunn"] else [])
              else []
  {
    if n > 2 && independent {
      OmnibusNames(edition, run, KruskalWallis, Dunn, Significant(run, KruskalWallis));
    } else if n > 2 {
      OmnibusNames(edition, run, Friedman, Dunn, edition == Current && Significant(run, Friedman));
    }
  }

  /** An omnibus test followed, when `more` holds, by its post-hoc test. */
  lemma OmnibusNames(edition: Edition, run: Tests, omnibus: Test, after: Test, more: bool)
    requires Named(edition, run)
    ensures Names([run(OnFrame(omnibus))] + (if more then [run(OnFrame(after))] else [])) ==
              [TestName(edition, omnibus)] + (if more then [TestName(edition, after)] else [])
  {
    NamesOfOneThen(run(OnFrame(omnibus)), if more then [run(OnFrame(after))] else []);
  }

  /** The quantitative analysis records the summary, the homogeneity test and the branch. */
  lemma QuantitativeNames(edition: Edition, n: nat, numRows: nat, independent: bool, run: Tests)
    requires Reports(run) && Named(edition, run)
    ensures var b := BranchAnalysis(edition, n, independent, ParametricPath(n, numRows, run), run);
            Names(QuantitativeAnalysis(edition, n, numRows, independent, run).records) ==
              [SummaryName(edition), TestName(edition, HomogeneityTest(AllNormal(run, NormalityTest(numRows), n)))]
              + Names(b.records)
  {
    var b := BranchAnalysis(edition, n, independent, ParametricPath(n, numRows, run), run);
    var summary, homogeneity := NormalityStep(edition, n, numRows, run), HomogeneityStep(n, numRows, run);
    assert summary.testName == SummaryName(edition);
    assert homogeneity.testName == TestName(edition, HomogeneityTest(AllNormal(run, NormalityTest(numRows), n)));
    QuantitativeSteps(edition, n, numRows, independent, run);
    NamesOfTwoThen(summary, homogeneity, b.records);
  }

  /** The names a whole analysis records: the qualitative test, or the summary, the
      homogeneity test and those of the branch. */
  lemma AnalysisNames(edition: Edition, frame: Frame, independent: bool, run: Tests)
    requires Reports(run) && Named(edition, run)
    ensures var n, numRows := |frame.columns|, |frame.rows|;
            var a := StatisticalAnalysis(edition, frame, independent, run);
            var b := BranchAnalysis(edition, n, independent, ParametricPath(n, numRows, run), run);
            Names(a.records) ==
              if Quantitative(frame) then
                [SummaryName(edition), TestName(edition, HomogeneityTest(AllNormal(run, NormalityTest(numRows), n)))]
                + Names(b.records)
              else if n == 1 then ["Chi-squared adjustment"]
              else if n == 2 then [if independent then "Chi-squared independence" else "McNemar"]
              else []
  {
    if Quantitative(frame) {
      QuantitativeNames(edition, |frame.columns|, |frame.rows|, independent, run);
    }
  }

  /** The names recorded by the steps that come before the branch, or instead of it. */
  const EarlyNames: seq<string> := ["Normality summary", "Normality Summary", "Bartlett", "Levene",
                                    "Chi-squared adjustment", "Chi-squared independence", "McNemar"]

  /** The names a frame records before the branch, or instead of it. */
  function HeadNames(edition: Edition, frame: Frame, independent: bool, run: Tests): (r: seq<string>)
    requires Reports(run)
    ensures forall x :: x in r ==> x in EarlyNames
  {
    var n, numRows := |frame.columns|, |frame.rows|;
    if Quantitative(frame) then [SummaryName(edition), TestName(edition, HomogeneityTest(AllNormal(run, NormalityTest(numRows), n)))]
    else if n == 1 then ["Chi-squared adjustment"]
    else if n == 2 then [if independent then "Chi-squared independence" else "McNemar"]
    else []
  }

  /** The names of an analysis are the early names followed, for a quantitative frame, by
      those of the branch. */
  lemma AnalysisNamesSplit(edition: Edition, frame: Frame, independent: bool, run: Tests)
    requires Reports(run) && Named(edition, run)
    ensures var n := |frame.columns|;
            var b := BranchAnalysis(edition, n, independent, ParametricPath(n, |frame.rows|, run), run);
            Names(StatisticalAnalysis(edition, frame, independent, run).records)
              == HeadNames(edition, frame, independent, run) + (if Quantitative(frame) then Names(b.records) else [])
  {
    AnalysisNames(edition, frame, independent, run);
    if !Quantitative(frame) {
      assert HeadNames(edition, frame, independent, run) + [] == HeadNames(edition, frame, independent, run);
    }
  }

  /** A name kept outside a list of early names is in the list exactly when it is in its tail. */
  lemma NameInTail(name: string, head: seq<string>, tail: seq<string>)
    requires name !in EarlyNames && forall x :: x in head ==> x in EarlyNames
    ensures name in head + tail <==> name in tail
  {
  }

  /** A post-hoc or omnibus name that no step before the branch uses is recorded exactly when
      the frame is quantitative and the branch records it. */
  lemma InBranchOnly(edition: Edition, frame: Frame, independent: bool, run: Tests, name: string)
    requires Reports(run) && Named(edition, run)
    requires name !in EarlyNames
    ensures var n := |frame.columns|;
            HasTest(StatisticalAnalysis(edition, frame, independent, run).records, name) <==>
              Quantitative(frame)
              && name in Names(BranchAnalysis(edition, n, independent, ParametricPath(n, |frame.rows|, run), run).records)
  {
    var n := |frame.columns|;
    var a := StatisticalAnalysis(edition, frame, independent, run);
    var b := BranchAnalysis(edition, n, independent, ParametricPath(n, |frame.rows|, run), run);
    AnalysisNamesSplit(edition, frame, independent, run);
    NameInTail(name, HeadNames(edition, frame, independent, run), if Quantitative(frame) then Names(b.records) else []);
    HasTestIffNamed(a.records, name);
  }

  lemma BranchAnova(edition: Edition, n: nat, independent: bool, parametric: bool, run: Tests)
    requires Reports(run) && Named(edition, run)
    ensures "ANOVA" in Names(BranchAnalysis(edition, n, independent, parametric, run).records) <==>
              parametric && n > 2 && independent
  {
    BranchNames(edition, n, independent, parametric, run);
  }

  lemma BranchTukey(edition: Edition, n: nat, independent: bool, parametric: bool, run: Tests)
    requires Reports(run) && Named(edition, run)
    ensures "Tukey HSD" in Names(BranchAnalysis(edition, n, independent, parametric, run).records) <==>
              parametric && n > 2 && independent && Significant(run, Anova)
  {
    BranchNames(edition, n, independent, parametric, run);
  }

  lemma BranchDunn(edition: Edition, n: nat, independent: bool, parametric: bool, run: Tests)
    requires Reports(run) && Named(edition, run)
    ensures "Dunn" in Names(BranchAnalysis(edition, n, independent, parametric, run).records) <==>
              !parametric && n > 2
              && (if independent then Significant(run, KruskalWallis)
                  else edition == Current && Significant(run, Friedman))
  {
    BranchNames(edition, n, independent, parametric, run);
  }

  /** ANOVA is run exactly on the parametric path with more than two independent columns. */
  lemma AnovaIff(edition: Edition, frame: Frame, independent: bool, run: Tests)
    requires Reports(run) && Named(edition, run)
    ensures var n := |frame.columns|;
            HasTest(StatisticalAnalysis(edition, frame, independent, run).records, "ANOVA") <==>
              Quantitative(frame) && ParametricPath(n, |frame.rows|, run) && n > 2 && independent
  {
    var n := |frame.columns|;
    InBranchOnly(edition, frame, independent, run, "ANOVA");
    BranchAnova(edition, n, independent, ParametricPath(n, |frame.rows|, run), run);
  }

  /** Tukey HSD follows ANOVA exactly when ANOVA is significant. */
  lemma TukeyIffSignificantAnova(edition: Edition, frame: Frame, independent: bool, run: Tests)
    requires Reports(run) && Named(edition, run)
    ensures var n := |frame.columns|;
            HasTest(StatisticalAnalysis(edition, frame, independent, run).records, "Tukey HSD") <==>
              Quantitative(frame) && ParametricPath(n, |frame.rows|, run) && n > 2 && independent
              && Significant(run, Anova)
  {
    var n := |frame.columns|;
    InBranchOnly(edition, frame, independent, run, "Tukey HSD");
    BranchTukey(edition, n, independent, ParametricPath(n, |frame.rows|, run), run);
  }

  /** Dunn runs on the non-parametric path with more than two columns exactly when
      Kruskal-Wallis (independent columns) or, in the current package only, Friedman (paired
      columns) is significant. */
  lemma DunnIffSignificant(edition: Edition, frame: Frame, independent: bool, run: Tests)
    requires Reports(run) && Named(edition, run)
    ensures var n := |frame.columns|;
            HasTest(StatisticalAnalysis(edition, frame, independent, run).records, "Dunn") <==>
              Quantitative(frame) && !ParametricPath(n, |frame.rows|, run) && n > 2
              && (if independent then Significant(run, KruskalWallis)
                  else edition == Current && Significant(run, Friedman))
  {
    var n := |frame.columns|;
    InBranchOnly(edition, frame, independent, run, "Dunn");
    BranchDunn(edition, n, independent, ParametricPath(n, |frame.rows|, run), run);
  }

  /** A correlation analysis that passes records the Pearson then the Spearman result; invalid
      data record nothing and fail with a ValueError. */
  lemma CorrelationNames(edition: Edition, frame: Frame, reference: Option<string>, run: Tests,
                         common: (nat, nat) -> nat, pearson: (nat, nat) -> Comparison,
                         spearman: (nat, nat) -> Comparison)
    requires Named(edition, run)
    ensures var a := CorrelationAnalysis(frame, reference, run, common, pearson, spearman);
            && (a.outcome == Pass ==> Names(a.records) == [PearsonName, SpearmanName])
            && (a.outcome.Fail? ==> |a.records| <= 1)
            && (ValidateData(frame, reference).Fail? ==> a.records == [] && a.outcome == Fail(ValueError))
  {
    var a := CorrelationAnalysis(frame, reference, run, common, pearson, spearman);
    if ValidateData(frame, reference).Fail? {
      assert a.records == [];
    } else if |frame.columns| == 2 {
      var x, y := run(OnFrame(PearsonCorrelation)), run(OnFrame(SpearmanCorrelation));
      assert a.records == [x, y] && a.outcome == Pass;
      assert x.testName == PearsonName && y.testName == SpearmanName;
      assert Names([x, y]) == [x.testName, y.testName];
    } else {
      var p := PairwiseResult(frame.columns, common, pearson, reference, PearsonName, 1.0);
      var q := PairwiseResult(frame.columns, common, spearman, reference, SpearmanName, 1.0);
      if p.Ok? && q.Ok? {
        assert a.records == [p.value, q.value];
        assert Names([p.value, q.value]) == [p.value.testName, q.value.testName];
      }
    }
  }

  /** As written, every valid two-column analysis fails with an AttributeError and records
      nothing, while the intended analysis passes with the Pearson and Spearman results; on
      every other frame the two agree. */
  lemma CorrelationAsWrittenFailsOnTwoColumns(edition: Edition, frame: Frame, reference: Option<string>, run: Tests,
                                              common: (nat, nat) -> nat, pearson: (nat, nat) -> Comparison,
                                              spearman: (nat, nat) -> Comparison)
    requires Named(edition, run)
    ensures var w := CorrelationAnalysisAsWritten(frame, reference, run, common, pearson, spearman);
            var a := CorrelationAnalysis(frame, reference, run, common, pearson, spearman);
            && (ValidateData(frame, reference).Pass? && |frame.columns| == 2 ==>
                  w == Analysis([], Fail(AttributeError)) && a.outcome == Pass
                  && Names(a.records) == [PearsonName, SpearmanName])
            && (ValidateData(frame, reference).Fail? || |frame.columns| != 2 ==> w == a)
  {
    CorrelationNames(edition, frame, reference, run, common, pearson, spearman);
  }

  /** The analysis fails, with a ValueError, exactly for qualitative data with more than two
      columns and for more than two paired columns on the parametric path. */
  lemma FailsIff(edition: Edition, frame: Frame, independent: bool, run: Tests)
    requires Reports(run)
    ensures var a := StatisticalAnalysis(edition, frame, independent, run);
            var n := |frame.columns|;
            && (a.outcome.Fail? <==>
                  if Quantitative(frame) then ParametricPath(n, |frame.rows|, run) && n > 2 && !independent
                  else n != 1 && n != 2)
            && (a.outcome.Fail? ==> a.outcome.kind == ValueError)
  {
    if Quantitative(frame) {
      QuantitativeSteps(edition, |frame.columns|, |frame.rows|, independent, run);
    }
  }
}

