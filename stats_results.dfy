/** The result records of the statistics module and the list that collects them. */
module StatsResults {
  import opened Wrappers
  import opened PyText

  /** The details some tests attach to their result. */
  datatype Details =
    | NoDetails
      /** The summary of the per-column normality tests. */
    | NormalitySummary(allNormal: bool, testUsed: string, resultTexts: seq<string>)
      /** The older summary, which keeps the per-column results themselves. */
    | IndividualResults(allNormal: bool, testUsed: string, results: seq<StatsResult>)
      /** A pairwise test: the p-value matrix (rows and columns in the order `rowNames` and
          `columnNames` give), the number of significant comparisons and of comparisons made. */
    | PairwiseDetails(rowNames: seq<string>, columnNames: seq<string>, matrix: seq<seq<Option<real>>>,
                      significant: nat, total: nat)

  /** `AiTableStatsResults`. The figure is not modelled. */
  datatype StatsResult = StatsResult(
    testName: string,
    resultText: string,
    statistic: Option<real>,
    pValue: Option<real>,
    details: Details,
    pValueScientific: Option<string>,
    statisticScientific: Option<string>)

  /** The constructor of a result: the scientific renderings (`scientific` stands for the
      `.2e` format) are filled in exactly for the values that are present. */
  function NewResult(testName: string, resultText: string, statistic: Option<real>, pValue: Option<real>,
                     details: Details, scientific: real -> string): (r: StatsResult)
    ensures r.testName == testName && r.resultText == resultText && r.details == details
    ensures r.statistic == statistic && r.pValue == pValue
    ensures r.pValueScientific.Some? <==> pValue.Some?
    ensures r.statisticScientific.Some? <==> statistic.Some?
    ensures pValue.Some? ==> r.pValueScientific == Some(scientific(pValue.value))
    ensures statistic.Some? ==> r.statisticScientific == Some(scientific(statistic.value))
  {
    StatsResult(testName, resultText, statistic, pValue, details,
                if pValue.Some? then Some(scientific(pValue.value)) else None,
                if statistic.Some? then Some(scientific(statistic.value)) else None)
  }

  /** The block the text summary gives one result. */
  function Block(r: StatsResult): string
  {
    "Test: " + r.testName + "\nResult: " + r.resultText + "\n"
  }

  /** The blocks of all results, in order. */
  function Blocks(results: seq<StatsResult>): (r: seq<string>)
    ensures |r| == |results|
    decreases |results|
  {
    if |results| == 0 then [] else Blocks(results[..|results| - 1]) + [Block(results[|results| - 1])]
  }

  /** The text summary: the blocks joined by new lines. */
  function Summary(results: seq<StatsResult>): string
  {
    Join(Blocks(results), '\n')
  }

  /** A result added to the list adds its block at the end of the summary. */
  lemma SummaryAppend(results: seq<StatsResult>, r: StatsResult)
    ensures |results| == 0 ==> Summary(results + [r]) == Block(r)
    ensures |results| > 0 ==> Summary(results + [r]) == Summary(results) + "\n" + Block(r)
  {
    assert (results + [r])[..|results|] == results;
    if |results| > 0 {
      JoinSnoc(Blocks(results), Block(r), '\n');
    }
  }

  /** `any(result.test_name == name for result in results)`. */
  predicate HasTest(results: seq<StatsResult>, name: string)
  {
    exists i :: 0 <= i < |results| && results[i].testName == name
  }

  /** `AiTableStatsResultList`. */
  class ResultList {
    var results: seq<StatsResult>

    /** `results or []`. */
    constructor (results: Option<seq<StatsResult>>)
      ensures this.results == results.GetOr([])
    {
      this.results := results.GetOr([]);
    }

    method AddResult(r: StatsResult)
      modifies this
      ensures results == old(results) + [r]
    {
      results := results + [r];
    }

    /** The last result, or None when there is none. */
    function GetLastResult(): (r: Option<StatsResult>)
      reads this
      ensures r.None? <==> |results| == 0
      ensures r.Some? ==> r.value == results[|results| - 1]
    {
      if |results| > 0 then Some(results[|results| - 1]) else None
    }

    /** `get_ai_text_summary`: one block per result, in order, separated by new lines. */
    method GetAiTextSummary() returns (text: string)
      ensures text == Summary(results)
    {
      var summaries: seq<string> := [];
      var i := 0;
      while i < |results|
        invariant 0 <= i <= |results|
        invariant summaries == Blocks(results[..i])
      {
        assert results[..i + 1][..i] == results[..i];
        summaries := summaries + [Block(results[i])];
        i := i + 1;
      }
      assert results[..i] == results;
      text := Join(summaries, '\n');
    }

    /** `contains_test`: whether some result has that name. */
    function ContainsTest(name: string): (found: bool)
      reads this
      ensures found <==> HasTest(results, name)
    {
      AnyNamed(results, name)
    }
  }

  /** The generator `any(...)`, scanning the results from the front. */
  function AnyNamed(results: seq<StatsResult>, name: string): (found: bool)
    ensures found <==> HasTest(results, name)
    decreases |results|
  {
    if |results| == 0 then false
    else results[0].testName == name || (assert forall i :: 1 <= i < |results| ==> results[1..][i - 1] == results[i]; AnyNamed(results[1..], name))
  }

  /** A result added is found by its name, and the last result is the one added. */
  lemma AddedResultIsFound(results: seq<StatsResult>, r: StatsResult)
    ensures HasTest(results + [r], r.testName)
    ensures forall name :: HasTest(results, name) ==> HasTest(results + [r], name)
  {
    assert (results + [r])[|results|] == r;
    forall name | HasTest(results, name)
      ensures HasTest(results + [r], name)
    {
      var i :| 0 <= i < |results| && results[i].testName == name;
      assert (results + [r])[i] == results[i];
    }
  }
}
