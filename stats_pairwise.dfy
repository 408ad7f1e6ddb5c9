/** The pairwise comparisons behind the Student t-test after ANOVA and the pairwise Pearson and
    Spearman correlations: every pair of columns, or the reference column against each other
    one, is compared on the rows where both have values. */
module StatsPairwise {
  import opened Wrappers
  import opened PyText
  import opened Seqs
  import opened StatsResults

  /** What a comparison function (a t-test, `pearsonr`, `spearmanr`) returns for a pair. */
  datatype Comparison = Comparison(statistic: real, pValue: real)

  /** A reference column was given (the empty name counts as none). */
  predicate HasReference(reference: Option<string>)
  {
    reference.Some? && reference.value != ""
  }

  /** The position of a column known to be present. */
  function IndexOf(columns: seq<string>, name: string): (r: nat)
    requires name in columns
    ensures r < |columns| && columns[r] == name
    ensures forall j :: 0 <= j < r ==> columns[j] != name
    decreases |columns|
  {
    if columns[0] == name then 0 else 1 + IndexOf(columns[1..], name)
  }

  // ---------------------------------------------------------------- counting

  /** How many of 0 .. m-1 satisfy `p`. */
  function CountWhere(m: nat, p: nat -> bool): (c: nat)
    ensures c <= m
    decreases m
  {
    if m == 0 then 0 else CountWhere(m - 1, p) + (if p(m - 1) then 1 else 0)
  }

  /** The values f(0) + ... + f(k-1). */
  function SumTo(k: nat, f: nat -> nat): nat
    decreases k
  {
    if k == 0 then 0 else SumTo(k - 1, f) + f(k - 1)
  }

  /** One more summand. */
  lemma SumStep(k: nat, f: nat -> nat)
    ensures SumTo(k + 1, f) == SumTo(k, f) + f(k)
  {
  }

  /** Fewer indices satisfy a stronger condition. */
  lemma {:induction false} CountMonotone(m: nat, p: nat -> bool, q: nat -> bool)
    requires forall j :: 0 <= j < m && p(j) ==> q(j)
    ensures CountWhere(m, p) <= CountWhere(m, q)
    decreases m
  {
    if m > 0 {
      CountMonotone(m - 1, p, q);
    }
  }

  /** A smaller summand everywhere gives a smaller sum. */
  lemma {:induction false} SumMonotone(k: nat, f: nat -> nat, g: nat -> nat)
    requires forall i :: 0 <= i < k ==> f(i) <= g(i)
    ensures SumTo(k, f) <= SumTo(k, g)
    decreases k
  {
    if k > 0 {
      SumMonotone(k - 1, f, g);
    }
  }

  /** Reference mode: column `j` is compared with the reference `r`. */
  function RefCompared(common: (nat, nat) -> nat, r: nat): nat -> bool
  {
    (j: nat) => j != r && common(r, j) > 1
  }

  /** Reference mode: the comparison of `j` with the reference is significant. */
  function RefSignificant(common: (nat, nat) -> nat, compare: (nat, nat) -> Comparison, r: nat): nat -> bool
  {
    (j: nat) => j != r && common(r, j) > 1 && compare(r, j).pValue < 0.05
  }

  /** All-pairs mode: the pair (i, j) is counted, which happens only for i < j. */
  function PairCounted(common: (nat, nat) -> nat, i: nat): nat -> bool
  {
    (j: nat) => i < j && common(i, j) > 1
  }

  /** All-pairs mode: the pair (i, j) is counted as significant. */
  function PairSignificant(common: (nat, nat) -> nat, compare: (nat, nat) -> Comparison, i: nat): nat -> bool
  {
    (j: nat) => i < j && common(i, j) > 1 && compare(i, j).pValue < 0.05
  }

  /** The pairs counted in the row of column `i`. */
  function RowCounted(common: (nat, nat) -> nat, n: nat): nat -> nat
  {
    (i: nat) => CountWhere(n, PairCounted(common, i))
  }

  /** The significant pairs in the row of column `i`. */
  function RowSignificant(common: (nat, nat) -> nat, compare: (nat, nat) -> Comparison, n: nat): nat -> nat
  {
    (i: nat) => CountWhere(n, PairSignificant(common, compare, i))
  }

  // ---------------------------------------------------------------- the p-value matrix

  /** A cell of the p-value matrix; a missing key is a NaN cell. */
  function Get(pm: map<(nat, nat), real>, i: nat, j: nat): Option<real>
  {
    if (i, j) in pm then Some(pm[(i, j)]) else None
  }

  /** Setting a cell changes that cell only. */
  lemma GetSet(pm: map<(nat, nat), real>, i: nat, j: nat, v: real, a: nat, b: nat)
    ensures Get(pm[(i, j) := v], a, b) == if a == i && b == j then Some(v) else Get(pm, a, b)
  {
    if !(a == i && b == j) {
      assert (a, b) != (i, j);
    }
  }

  /** Clearing cells clears those cells only. */
  lemma GetClear(pm: map<(nat, nat), real>, keys: set<(nat, nat)>, a: nat, b: nat)
    ensures Get(pm - keys, a, b) == if (a, b) in keys then None else Get(pm, a, b)
  {
  }

  /** Reference mode: the diagonal, the reference row and column (set symmetrically from the
      comparison of the reference with the other column when they share more than one row),
      and NaN elsewhere. */
  function RefCell(common: (nat, nat) -> nat, compare: (nat, nat) -> Comparison, diagonal: real, r: nat, i: nat, j: nat): Option<real>
  {
    if i == j then Some(diagonal)
    else if i == r || j == r then
      var other := if i == r then j else i;
      if common(r, other) > 1 then Some(compare(r, other).pValue) else None
    else None
  }

  /** All-pairs mode: the diagonal, and each ordered pair compared when its columns share
      more than one row. */
  function AllCell(common: (nat, nat) -> nat, compare: (nat, nat) -> Comparison, diagonal: real, i: nat, j: nat): Option<real>
  {
    if i == j then Some(diagonal)
    else if common(i, j) > 1 then Some(compare(i, j).pValue)
    else None
  }

  // ---------------------------------------------------------------- the specification

  /** The wording of a correlation analysis. */
  function CorrelationWording(significant: nat, total: nat): string
  {
    if significant > 0 then "Significant correlations found in " + NatToString(significant) + " of " + NatToString(total) + " pairwise comparisons."
    else "No significant pairwise correlations found."
  }

  /** The wording of an analysis of differences. */
  function DifferenceWording(significant: nat, total: nat): string
  {
    if significant > 0 then "Significant differences found in " + NatToString(significant) + " of " + NatToString(total) + " pairwise comparisons."
    else "No significant pairwise differences found."
  }

  /** The wording of the result: a test whose name mentions a correlation reports
      correlations, any other reports differences. */
  function ResultText(testName: string, significant: nat, total: nat): string
  {
    if Contains(LowerAscii(testName), "correlation") then CorrelationWording(significant, total)
    else DifferenceWording(significant, total)
  }

  /** The counts and the matrix a pairwise analysis reports. */
  datatype Tally = Tally(significant: nat, total: nat, columnNames: seq<string>, matrix: seq<seq<Option<real>>>)

  /** Reference mode: one column, that of the reference. */
  function RefTally(columns: seq<string>, common: (nat, nat) -> nat, compare: (nat, nat) -> Comparison,
                    diagonal: real, r: nat): Tally
    requires r < |columns|
  {
    var n := |columns|;
    Tally(CountWhere(n, RefSignificant(common, compare, r)), CountWhere(n, RefCompared(common, r)), [columns[r]],
          seq(n, i requires 0 <= i < n => [RefCell(common, compare, diagonal, r, i, r)]))
  }

  /** All-pairs mode: the whole matrix. */
  function AllTally(columns: seq<string>, common: (nat, nat) -> nat, compare: (nat, nat) -> Comparison, diagonal: real): Tally
  {
    var n := |columns|;
    Tally(SumTo(n, RowSignificant(common, compare, n)), SumTo(n, RowCounted(common, n)), columns,
          seq(n, i requires 0 <= i < n => seq(n, j requires 0 <= j < n => AllCell(common, compare, diagonal, i, j))))
  }

  /** `_perform_pairwise_analysis`, with `common(i, j)` the number of rows where columns i and
      j both have values and `compare(i, j)` the comparison of those paired values. */
  function PairwiseResult(columns: seq<string>, common: (nat, nat) -> nat, compare: (nat, nat) -> Comparison,
                          reference: Option<string>, testName: string, diagonal: real): (r: Result<StatsResult>)
    ensures |columns| < 2 ==> r == Err(ValueError)
    ensures |columns| >= 2 && HasReference(reference) && reference.value !in columns ==> r == Err(ValueError)
    ensures r.Ok? ==> r.value.testName == testName && r.value.pValue.None? && r.value.statistic.None?
    ensures r.Ok? ==> r.value.details.PairwiseDetails? && r.value.details.rowNames == columns
                      && r.value.details.total > 0
  {
    if |columns| < 2 then Err(ValueError)
    else if HasReference(reference) && reference.value !in columns then Err(ValueError)
    else
      var t := if HasReference(reference) then RefTally(columns, common, compare, diagonal, IndexOf(columns, reference.value))
               else AllTally(columns, common, compare, diagonal);
      if t.total == 0 then Err(ValueError)
      else Ok(StatsResult(testName, ResultText(testName, t.significant, t.total), None, None,
                          PairwiseDetails(columns, t.columnNames, t.matrix, t.significant, t.total), None, None))
  }

  // ---------------------------------------------------------------- the loops

  /** The diagonal loop. */
  method SetDiagonal(n: nat, diagonal: real) returns (pm: map<(nat, nat), real>)
    ensures forall i, j :: 0 <= i < n && 0 <= j < n ==> Get(pm, i, j) == if i == j then Some(diagonal) else None
  {
    pm := map[];
    var d := 0;
    while d < n
      invariant 0 <= d <= n
      invariant forall i, j :: 0 <= i < n && 0 <= j < n ==> Get(pm, i, j) == if i == j && i < d then Some(diagonal) else None
    {
      var next := pm[(d, d) := diagonal];
      forall i: nat, j: nat | i < n && j < n
        ensures Get(next, i, j) == if i == j && i < d + 1 then Some(diagonal) else None
      {
        GetSet(pm, d, d, diagonal, i, j);
      }
      pm := next;
      d := d + 1;
    }
  }

  /** The reference loop: each other column is compared with the reference, and the result
      set on both sides of the diagonal. */
  method CompareWithReference(n: nat, common: (nat, nat) -> nat, compare: (nat, nat) -> Comparison, diagonal: real,
                              r: nat, start: map<(nat, nat), real>)
    returns (pm: map<(nat, nat), real>, valid: nat, significant: nat)
    requires r < n
    requires forall i, j :: 0 <= i < n && 0 <= j < n ==> Get(start, i, j) == if i == j then Some(diagonal) else None
    ensures forall i, j :: 0 <= i < n && 0 <= j < n ==> Get(pm, i, j) == RefCell(common, compare, diagonal, r, i, j)
    ensures valid == CountWhere(n, RefCompared(common, r))
    ensures significant == CountWhere(n, RefSignificant(common, compare, r))
  {
    pm, valid, significant := start, 0, 0;
    var k := 0;
    while k < n
      invariant 0 <= k <= n
      invariant forall i, j :: 0 <= i < n && 0 <= j < n ==>
                  Get(pm, i, j) == if i == j || (i == r && j < k) || (j == r && i < k) then RefCell(common, compare, diagonal, r, i, j) else None
      invariant valid == CountWhere(k, RefCompared(common, r))
      invariant significant == CountWhere(k, RefSignificant(common, compare, r))
    {
      if k != r {
        if common(r, k) > 1 {
          var c := compare(r, k);
          var next := pm[(r, k) := c.pValue][(k, r) := c.pValue];
          forall a: nat, b: nat | a < n && b < n
            ensures Get(next, a, b) == if a == b || (a == r && b < k + 1) || (b == r && a < k + 1) then RefCell(common, compare, diagonal, r, a, b) else None
          {
            GetSet(pm, r, k, c.pValue, a, b);
            GetSet(pm[(r, k) := c.pValue], k, r, c.pValue, a, b);
          }
          pm := next;
          valid := valid + 1;
          if c.pValue < 0.05 {
            significant := significant + 1;
          }
        } else {
          var next := pm - {(r, k), (k, r)};
          forall a: nat, b: nat | a < n && b < n
            ensures Get(next, a, b) == if a == b || (a == r && b < k + 1) || (b == r && a < k + 1) then RefCell(common, compare, diagonal, r, a, b) else None
          {
            GetClear(pm, {(r, k), (k, r)}, a, b);
          }
          pm := next;
        }
      }
      k := k + 1;
    }
  }

  /** The loop that sets every comparison not involving the reference to NaN. */
  method ClearOthers(n: nat, common: (nat, nat) -> nat, compare: (nat, nat) -> Comparison, diagonal: real,
                     r: nat, start: map<(nat, nat), real>) returns (pm: map<(nat, nat), real>)
    requires forall i, j :: 0 <= i < n && 0 <= j < n ==> Get(start, i, j) == RefCell(common, compare, diagonal, r, i, j)
    ensures forall i, j :: 0 <= i < n && 0 <= j < n ==> Get(pm, i, j) == RefCell(common, compare, diagonal, r, i, j)
  {
    pm := start;
    var i := 0;
    while i < n
      invariant 0 <= i <= n
      invariant forall a, b :: 0 <= a < n && 0 <= b < n ==> Get(pm, a, b) == RefCell(common, compare, diagonal, r, a, b)
    {
      var j := 0;
      while j < n
        invariant 0 <= j <= n
        invariant forall a, b :: 0 <= a < n && 0 <= b < n ==> Get(pm, a, b) == RefCell(common, compare, diagonal, r, a, b)
      {
        if i != r && j != r && i != j {
          var next := pm - {(i, j)};
          forall a: nat, b: nat | a < n && b < n
            ensures Get(next, a, b) == RefCell(common, compare, diagonal, r, a, b)
          {
            GetClear(pm, {(i, j)}, a, b);
          }
          pm := next;
        }
        j := j + 1;
      }
      i := i + 1;
    }
  }

  /** The all-pairs matrix after the rows before `i` and the first `j` cells of row `i`
      are compared: those cells and the diagonal hold their final value, the others none. */
  ghost predicate FilledTo(pm: map<(nat, nat), real>, n: nat, common: (nat, nat) -> nat,
                           compare: (nat, nat) -> Comparison, diagonal: real, i: nat, j: nat)
  {
    forall a, b :: 0 <= a < n && 0 <= b < n ==>
      Get(pm, a, b) == if a == b || a < i || (a == i && b < j) then AllCell(common, compare, diagonal, a, b) else None
  }

  /** A finished row is the start of the next one. */
  lemma RowFilled(pm: map<(nat, nat), real>, n: nat, common: (nat, nat) -> nat,
                  compare: (nat, nat) -> Comparison, diagonal: real, i: nat)
    requires FilledTo(pm, n, common, compare, diagonal, i, n)
    ensures FilledTo(pm, n, common, compare, diagonal, i + 1, 0)
  {
  }

  /** The inner loop of the all-pairs mode, over the row of column `i`. */
  method CompareRow(n: nat, common: (nat, nat) -> nat, compare: (nat, nat) -> Comparison, diagonal: real,
                    i: nat, start: map<(nat, nat), real>)
    returns (pm: map<(nat, nat), real>, valid: nat, significant: nat)
    requires i < n
    requires FilledTo(start, n, common, compare, diagonal, i, 0)
    ensures FilledTo(pm, n, common, compare, diagonal, i + 1, 0)
    ensures valid == CountWhere(n, PairCounted(common, i))
    ensures significant == CountWhere(n, PairSignificant(common, compare, i))
  {
    pm, valid, significant := start, 0, 0;
    var j := 0;
    while j < n
      invariant 0 <= j <= n
      invariant FilledTo(pm, n, common, compare, diagonal, i, j)
      invariant valid == CountWhere(j, PairCounted(common, i))
      invariant significant == CountWhere(j, PairSignificant(common, compare, i))
    {
      if i != j {
        if common(i, j) > 1 {
          var c := compare(i, j);
          var next := pm[(i, j) := c.pValue];
          forall a: nat, b: nat | a < n && b < n
            ensures Get(next, a, b) == if a == b || a < i || (a == i && b < j + 1) then AllCell(common, compare, diagonal, a, b) else None
          {
            GetSet(pm, i, j, c.pValue, a, b);
          }
          pm := next;
          if i < j {
            valid := valid + 1;
            if c.pValue < 0.05 {
              significant := significant + 1;
            }
          }
        } else {
          var next := pm - {(i, j)};
          forall a: nat, b: nat | a < n && b < n
            ensures Get(next, a, b) == if a == b || a < i || (a == i && b < j + 1) then AllCell(common, compare, diagonal, a, b) else None
          {
            GetClear(pm, {(i, j)}, a, b);
          }
          pm := next;
        }
      }
      j := j + 1;
    }
    RowFilled(pm, n, common, compare, diagonal, i);
  }

  /** The all-pairs mode. */
  method CompareAllPairs(n: nat, common: (nat, nat) -> nat, compare: (nat, nat) -> Comparison, diagonal: real,
                         start: map<(nat, nat), real>)
    returns (pm: map<(nat, nat), real>, valid: nat, significant: nat)
    requires forall i, j :: 0 <= i < n && 0 <= j < n ==> Get(start, i, j) == if i == j then Some(diagonal) else None
    ensures forall i, j :: 0 <= i < n && 0 <= j < n ==> Get(pm, i, j) == AllCell(common, compare, diagonal, i, j)
    ensures valid == SumTo(n, RowCounted(common, n))
    ensures significant == SumTo(n, RowSignificant(common, compare, n))
  {
    pm, valid, significant := start, 0, 0;
    var i := 0;
    assert FilledTo(pm, n, common, compare, diagonal, 0, 0);
    while i < n
      invariant 0 <= i <= n
      invariant FilledTo(pm, n, common, compare, diagonal, i, 0)
      invariant valid == SumTo(i, RowCounted(common, n))
      invariant significant == SumTo(i, RowSignificant(common, compare, n))
    {
      var rowValid, rowSignificant;
      pm, rowValid, rowSignificant := CompareRow(n, common, compare, diagonal, i, pm);
      SumStep(i, RowCounted(common, n));
      SumStep(i, RowSignificant(common, compare, n));
      assert RowCounted(common, n)(i) == rowValid;
      assert RowSignificant(common, compare, n)(i) == rowSignificant;
      valid := valid + rowValid;
      significant := significant + rowSignificant;
      i := i + 1;
    }
  }

  /** `_perform_pairwise_analysis`, step by step as the source does it. The statistic matrix
      the source fills alongside is never reported and is left out. */
  method PerformPairwiseAnalysis(columns: seq<string>, common: (nat, nat) -> nat, compare: (nat, nat) -> Comparison,
                                 reference: Option<string>, testName: string, diagonal: real)
    returns (r: Result<StatsResult>)
    requires Distinct(columns)
    ensures r == PairwiseResult(columns, common, compare, reference, testName, diagonal)
  {
    var n := |columns|;
    if n < 2 {
      return Err(ValueError);
    }
    if HasReference(reference) && reference.value !in columns {
      return Err(ValueError);
    }
    var pm := SetDiagonal(n, diagonal);
    var valid, significant;
    var names: seq<string>;
    var matrix: seq<seq<Option<real>>>;
    if HasReference(reference) {
      var ri := IndexOf(columns, reference.value);
      pm, valid, significant := CompareWithReference(n, common, compare, diagonal, ri, pm);
      pm := ClearOthers(n, common, compare, diagonal, ri, pm);
      names := [reference.value];
      matrix := seq(n, i requires 0 <= i < n => [Get(pm, i, ri)]);
      assert matrix == RefTally(columns, common, compare, diagonal, ri).matrix;
    } else {
      pm, valid, significant := CompareAllPairs(n, common, compare, diagonal, pm);
      names := columns;
      matrix := seq(n, i requires 0 <= i < n => seq(n, j requires 0 <= j < n => Get(pm, i, j)));
      assert matrix == AllTally(columns, common, compare, diagonal).matrix by {
        forall i | 0 <= i < n
          ensures matrix[i] == AllTally(columns, common, compare, diagonal).matrix[i]
        {
        }
      }
    }
    if valid == 0 {
      return Err(ValueError);
    }
    r := Ok(StatsResult(testName, ResultText(testName, significant, valid), None, None,
                        PairwiseDetails(columns, names, matrix, significant, valid), None, None));
  }

  /** `student_independent_pairwise_test`, `pearson_correlation_pairwise_test` and
      `spearman_correlation_pairwise_test`: the analysis under the test's name, with 1.0 on
      the diagonal; `compare` stands for the t-test, `pearsonr` or `spearmanr`. */
  method StudentIndependentPairwise(columns: seq<string>, common: (nat, nat) -> nat, compare: (nat, nat) -> Comparison,
                                    reference: Option<string>) returns (r: Result<StatsResult>)
    requires Distinct(columns)
    ensures r == PairwiseResult(columns, common, compare, reference, StudentPairwiseName, 1.0)
  {
    r := PerformPairwiseAnalysis(columns, common, compare, reference, StudentPairwiseName, 1.0);
  }

  method PearsonPairwise(columns: seq<string>, common: (nat, nat) -> nat, compare: (nat, nat) -> Comparison,
                         reference: Option<string>) returns (r: Result<StatsResult>)
    requires Distinct(columns)
    ensures r == PairwiseResult(columns, common, compare, reference, PearsonName, 1.0)
  {
    r := PerformPairwiseAnalysis(columns, common, compare, reference, PearsonName, 1.0);
  }

  method SpearmanPairwise(columns: seq<string>, common: (nat, nat) -> nat, compare: (nat, nat) -> Comparison,
                          reference: Option<string>) returns (r: Result<StatsResult>)
    requires Distinct(columns)
    ensures r == PairwiseResult(columns, common, compare, reference, SpearmanName, 1.0)
  {
    r := PerformPairwiseAnalysis(columns, common, compare, reference, SpearmanName, 1.0);
  }

  const StudentPairwiseName := "Student t-test (independent paired wise)"
  const PearsonName := "Pearson correlation"
  const SpearmanName := "Spearman correlation"

  // ---------------------------------------------------------------- properties

  /** No more comparisons are significant than were made. */
  lemma SignificantAtMostTotal(columns: seq<string>, common: (nat, nat) -> nat, compare: (nat, nat) -> Comparison,
                               reference: Option<string>, testName: string, diagonal: real)
    ensures var r := PairwiseResult(columns, common, compare, reference, testName, diagonal);
            r.Ok? ==> r.value.details.significant <= r.value.details.total
  {
    var n := |columns|;
    if n >= 2 && HasReference(reference) && reference.value in columns {
      var ri := IndexOf(columns, reference.value);
      CountMonotone(n, RefSignificant(common, compare, ri), RefCompared(common, ri));
    } else {
      forall i | 0 <= i < n
        ensures RowSignificant(common, compare, n)(i) <= RowCounted(common, n)(i)
      {
        CountMonotone(n, PairSignificant(common, compare, i), PairCounted(common, i));
      }
      SumMonotone(n, RowSignificant(common, compare, n), RowCounted(common, n));
    }
  }

  /** With a reference column the result has that one column, which holds for each column
      the p-value of its comparison with the reference (the diagonal value for the reference
      itself, NaN when they share at most one row). */
  lemma ReferenceColumnOnly(columns: seq<string>, common: (nat, nat) -> nat, compare: (nat, nat) -> Comparison,
                            reference: Option<string>, testName: string, diagonal: real)
    requires HasReference(reference) && reference.value in columns
    ensures var r := PairwiseResult(columns, common, compare, reference, testName, diagonal);
            var ri := IndexOf(columns, reference.value);
            r.Ok? ==> && r.value.details.columnNames == [reference.value]
                      && |r.value.details.matrix| == |columns|
                      && forall i :: 0 <= i < |columns| ==>
                           r.value.details.matrix[i] == [if i == ri then Some(diagonal)
                                                         else if common(ri, i) > 1 then Some(compare(ri, i).pValue)
                                                         else None]
  {
  }

  /** The ordered pairs (k, j), k < j, of row k that are compared. */
  function RowPairs(common: (nat, nat) -> nat, k: nat, m: nat): set<(nat, nat)>
  {
    set j: nat | j < m && k < j && common(k, j) > 1 :: (k, j)
  }

  /** The unordered pairs, written i < j, of the first k rows that are compared. */
  function PairsBelow(common: (nat, nat) -> nat, k: nat, n: nat): set<(nat, nat)>
  {
    set i: nat, j: nat | i < k && i < j < n && common(i, j) > 1 :: (i, j)
  }

  lemma {:induction false} RowPairsCount(common: (nat, nat) -> nat, k: nat, m: nat)
    ensures |RowPairs(common, k, m)| == CountWhere(m, PairCounted(common, k))
    decreases m
  {
    if m > 0 {
      var before := RowPairs(common, k, m - 1);
      RowPairsCount(common, k, m - 1);
      if PairCounted(common, k)(m - 1) {
        assert RowPairs(common, k, m) == before + {(k, m - 1)};
        assert (k, m - 1) !in before;
      } else {
        assert RowPairs(common, k, m) == before;
      }
    }
  }

  /** The pairs of the first k rows are those of the first k-1 rows and those of row k-1. */
  lemma PairsBelowSplit(common: (nat, nat) -> nat, k: nat, n: nat)
    requires k > 0
    ensures PairsBelow(common, k, n) == PairsBelow(common, k - 1, n) + RowPairs(common, k - 1, n)
    ensures PairsBelow(common, k - 1, n) * RowPairs(common, k - 1, n) == {}
  {
    var a := PairsBelow(common, k - 1, n);
    var b := RowPairs(common, k - 1, n);
    var all := PairsBelow(common, k, n);
    forall p | p in all
      ensures p in a + b
    {
      var (i, j) := p;
      if i < k - 1 {
        assert p in a;
      } else {
        assert p in b;
      }
    }
    forall p | p in a + b
      ensures p in all
    {
      var (i, j) := p;
      assert i < k && i < j < n && common(i, j) > 1;
    }
    forall p | p in a
      ensures p !in b
    {
    }
  }

  /** The size of a union of two disjoint sets is the sum of their sizes. */
  lemma DisjointUnionSize<T>(all: set<T>, a: set<T>, b: set<T>, x: nat, y: nat)
    requires all == a + b && a * b == {}
    requires |a| == x && |b| == y
    ensures |all| == x + y
  {
  }

  lemma {:induction false} PairsBelowCount(common: (nat, nat) -> nat, k: nat, n: nat)
    ensures |PairsBelow(common, k, n)| == SumTo(k, RowCounted(common, n))
    decreases k
  {
    if k > 0 {
      PairsBelowCount(common, k - 1, n);
      RowPairsCount(common, k - 1, n);
      var x := SumTo(k - 1, RowCounted(common, n));
      var y := CountWhere(n, PairCounted(common, k - 1));
      assert |PairsBelow(common, k - 1, n)| == x;
      assert |RowPairs(common, k - 1, n)| == y;
      PairsBelowSplit(common, k, n);
      DisjointUnionSize(PairsBelow(common, k, n), PairsBelow(common, k - 1, n), RowPairs(common, k - 1, n), x, y);
      SumStep(k - 1, RowCounted(common, n));
    } else {
      forall p | p in PairsBelow(common, k, n)
        ensures false
      {
      }
    }
  }

  /** Without a reference every unordered pair of columns sharing more than one row is counted
      exactly once: the total is the number of such pairs. */
  lemma EachPairCountedOnce(columns: seq<string>, common: (nat, nat) -> nat, compare: (nat, nat) -> Comparison,
                            reference: Option<string>, testName: string, diagonal: real)
    requires !HasReference(reference)
    ensures var r := PairwiseResult(columns, common, compare, reference, testName, diagonal);
            r.Ok? ==> r.value.details.total == |PairsBelow(common, |columns|, |columns|)|
  {
    PairsBelowCount(common, |columns|, |columns|);
  }

  /** `sub` can only occur in a string holding its first character. */
  lemma ContainsFirstChar(s: string, sub: string)
    requires |sub| > 0 && Contains(s, sub)
    ensures sub[0] in s
  {
    var i :| 0 <= i <= |s| - |sub| && OccursAt(s, sub, i);
    assert s[i..i + |sub|] == sub;
    assert s[i..i + |sub|][0] == s[i];
  }

  /** Whatever the counts, the correlation tests report correlations and the pairwise t-test
      reports differences. */
  lemma WordingFollowsTestName(significant: nat, total: nat)
    ensures ResultText(PearsonName, significant, total) == CorrelationWording(significant, total)
    ensures ResultText(SpearmanName, significant, total) == CorrelationWording(significant, total)
    ensures ResultText(StudentPairwiseName, significant, total) == DifferenceWording(significant, total)
  {
    PearsonMentionsCorrelation();
    SpearmanMentionsCorrelation();
    StudentOmitsCorrelation();
  }

  lemma PearsonMentionsCorrelation()
    ensures Contains(LowerAscii(PearsonName), "correlation")
  {
    assert PearsonName == "Pearson " + "correlation" + "";
    LowerAsciiConcat("Pearson " + "correlation", "");
    LowerAsciiConcat("Pearson ", "correlation");
    LowerAsciiOfLower("correlation");
    LowerAsciiOfLower("");
    ContainsMiddle(LowerAscii("Pearson "), "correlation", "");
  }

  lemma SpearmanMentionsCorrelation()
    ensures Contains(LowerAscii(SpearmanName), "correlation")
  {
    assert SpearmanName == "Spearman " + "correlation" + "";
    LowerAsciiConcat("Spearman " + "correlation", "");
    LowerAsciiConcat("Spearman ", "correlation");
    LowerAsciiOfLower("correlation");
    LowerAsciiOfLower("");
    ContainsMiddle(LowerAscii("Spearman "), "correlation", "");
  }

  lemma StudentOmitsCorrelation()
    ensures !Contains(LowerAscii(StudentPairwiseName), "correlation")
  {
    var student := LowerAscii(StudentPairwiseName);
    assert forall i :: 0 <= i < |student| ==> student[i] != 'c';
    if Contains(student, "correlation") {
      ContainsFirstChar(student, "correlation");
      assert false;
    }
  }
}
