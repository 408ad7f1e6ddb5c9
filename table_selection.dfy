/** What the AI table views compute from a data frame and an AG Grid cell selection: the rows and
    columns a selection extracts, the first-row-as-header option, the selection summary, and
    the cells and column definitions handed to the grid. */
module TableSelection {
  import opened Wrappers
  import opened PyText
  import opened Seqs
  import opened DataFrameItems

  /** `df.empty`: no row or no column. */
  predicate IsEmpty(df: DataFrame)
  {
    |df.rows| == 0 || |df.columns| == 0
  }

  /** `nb_rows` and `nb_columns` of a frame that may be absent: zero for an absent or empty
      frame. */
  function RowCount(df: Option<DataFrame>): (n: nat)
    ensures df.Some? && !IsEmpty(df.value) ==> n == |df.value.rows|
    ensures df.None? || IsEmpty(df.value) ==> n == 0
  {
    if df.Some? && !IsEmpty(df.value) then |df.value.rows| else 0
  }

  function ColumnCount(df: Option<DataFrame>): (n: nat)
    ensures df.Some? && !IsEmpty(df.value) ==> n == |df.value.columns|
    ensures df.None? || IsEmpty(df.value) ==> n == 0
  {
    if df.Some? && !IsEmpty(df.value) then |df.value.columns| else 0
  }

  // ---------------------------------------------------------------- selections

  /** One AG Grid range selection: each key may be missing. */
  datatype Selection = Selection(startRow: Option<int>, endRow: Option<int>, columns: Option<seq<string>>)

  /** `selection.get('startRow', 0)`, `selection.get('endRow', 0)` and
      `selection.get('columns', [])`, an absent or empty column list meaning every column. */
  function StartRow(s: Selection): int { s.startRow.GetOr(0) }
  function EndRow(s: Selection): int { s.endRow.GetOr(0) }
  function Columns(s: Selection): seq<string> { s.columns.GetOr([]) }

  /** The row range after an inverted selection (dragged upwards) is swapped. */
  function OrderedRows(s: Selection): (r: (int, int))
    ensures r.0 <= r.1
    ensures {r.0, r.1} == {StartRow(s), EndRow(s)}
  {
    if StartRow(s) > EndRow(s) then (EndRow(s), StartRow(s)) else (StartRow(s), EndRow(s))
  }

  /** `can_extract`: exactly one selection, and it is not null. */
  predicate CanExtract(selections: seq<Option<Selection>>)
  {
    |selections| == 1 && selections[0].Some?
  }

  /** The text `selection_info` shows. */
  function InfoText(rowCount: int, columnCount: nat): string
  {
    "Selected: " + IntToString(rowCount) + " rows, " + NatToString(columnCount) + " columns"
  }

  /** `selection_info`: a message unless there is exactly one selection; otherwise the row count
      of the (swapped, when `swap`) range and the number of selected columns, or of all columns.
      A null selection fails on `.get` with an `AttributeError`. */
  function SelectionInfo(selections: seq<Option<Selection>>, swap: bool, nbColumns: nat): (r: Result<string>)
    ensures |selections| != 1 ==> r == Ok("No valid selection")
    ensures |selections| == 1 && selections[0].None? ==> r == Err(AttributeError)
    ensures CanExtract(selections) ==>
              var s := selections[0].value;
              var (start, end) := if swap then OrderedRows(s) else (StartRow(s), EndRow(s));
              r == Ok(InfoText(end - start + 1, if |Columns(s)| > 0 then |Columns(s)| else nbColumns))
  {
    if |selections| != 1 then Ok("No valid selection")
    else if selections[0].None? then Err(AttributeError)
    else
      var s := selections[0].value;
      var (start, end) := if swap then OrderedRows(s) else (StartRow(s), EndRow(s));
      Ok(InfoText(end - start + 1, if |Columns(s)| > 0 then |Columns(s)| else nbColumns))
  }

  // ---------------------------------------------------------------- extraction

  /** The positions of the columns with that label: all of them, in increasing order. */
  function Positions(columns: seq<string>, heading: string): (r: seq<nat>)
    ensures forall k :: 0 <= k < |r| ==> r[k] < |columns| && columns[r[k]] == heading
    ensures forall j :: 0 <= j < |columns| && columns[j] == heading ==> j in r
    ensures forall a, b :: 0 <= a < b < |r| ==> r[a] < r[b]
    ensures heading !in columns ==> r == []
    decreases |columns|
  {
    if |columns| == 0 then []
    else
      var n := |columns| - 1;
      var front := Positions(columns[..n], heading);
      PositionsStep(columns, heading, columns[..n], front);
      front + (if columns[n] == heading then [n] else [])
  }

  /** Looking at one more column: its position is added when it holds the label. */
  lemma PositionsStep(columns: seq<string>, heading: string, init: seq<string>, front: seq<nat>)
    requires |columns| > 0 && init == columns[..|columns| - 1]
    requires forall k :: 0 <= k < |front| ==> front[k] < |init| && init[front[k]] == heading
    requires forall j :: 0 <= j < |init| && init[j] == heading ==> j in front
    requires forall a, b :: 0 <= a < b < |front| ==> front[a] < front[b]
    ensures var n := |columns| - 1;
            var r := front + (if columns[n] == heading then [n] else []);
            && (forall k :: 0 <= k < |r| ==> r[k] < |columns| && columns[r[k]] == heading)
            && (forall j :: 0 <= j < |columns| && columns[j] == heading ==> j in r)
            && (forall a, b :: 0 <= a < b < |r| ==> r[a] < r[b])
            && (heading !in columns ==> r == [])
  {
    var n := |columns| - 1;
    var r := front + (if columns[n] == heading then [n] else []);
    assert forall j :: 0 <= j < n ==> init[j] == columns[j];
    forall j | 0 <= j < |columns| && columns[j] == heading ensures j in r {
      if j < n {
        assert init[j] == heading;
      }
    }
    if |r| > 0 {
      assert columns[r[0]] == heading;
    }
  }

  /** Among distinct labels, a present label sits at exactly one position. */
  lemma {:induction false} PositionsOfDistinct(columns: seq<string>, heading: string)
    ensures Distinct(columns) && heading in columns ==> |Positions(columns, heading)| == 1
    decreases |columns|
  {
    if Distinct(columns) && heading in columns {
      var init := columns[..|columns| - 1];
      DistinctPrefix(columns, |columns| - 1);
      if columns[|columns| - 1] == heading {
        LastIsNew(columns);
        assert Positions(columns, heading) == Positions(init, heading) + [|columns| - 1];

      } else {
        var j :| 0 <= j < |columns| && columns[j] == heading;
        assert init[j] == heading;
        PositionsOfDistinct(init, heading);
        assert Positions(columns, heading) == Positions(init, heading);
      }
    }
  }

  /** The positions `df[labels]` selects: those of each label in turn. */
  function LabelPositions(columns: seq<string>, labels: seq<string>): (r: seq<nat>)
    ensures forall k :: 0 <= k < |r| ==> r[k] < |columns|
    decreases |labels|
  {
    if |labels| == 0 then []
    else LabelPositions(columns, labels[..|labels| - 1]) + Positions(columns, labels[|labels| - 1])
  }

  /** Among distinct column labels, each label present picks its own column, once. */
  lemma {:induction false} LabelPositionsOfDistinct(columns: seq<string>, labels: seq<string>)
    requires Distinct(columns) && forall k :: 0 <= k < |labels| ==> labels[k] in columns
    ensures var r := LabelPositions(columns, labels);
            |r| == |labels| && forall k :: 0 <= k < |labels| ==> columns[r[k]] == labels[k]
    decreases |labels|
  {
    if |labels| > 0 {
      var init := labels[..|labels| - 1];
      assert forall k :: 0 <= k < |init| ==> init[k] == labels[k];
      LabelPositionsOfDistinct(columns, init);
      PositionsOfDistinct(columns, labels[|labels| - 1]);
      var p := LabelPositions(columns, init);
      var q := Positions(columns, labels[|labels| - 1]);
      var r := LabelPositions(columns, labels);
      assert r == p + q;
      assert |q| == 1 && columns[q[0]] == labels[|labels| - 1];
      forall k | 0 <= k < |labels|
        ensures columns[r[k]] == labels[k]
      {
        if k < |init| {
          assert r[k] == p[k];
        } else {
          assert r[k] == q[0];
        }
      }
    }
  }

  /** The frame restricted to the columns at the given positions: their labels and cells, in
      the order given, for every row. */
  function Project(df: DataFrame, positions: seq<nat>): (out: DataFrame)
    requires Rectangular(df)
    requires forall k :: 0 <= k < |positions| ==> positions[k] < |df.columns|
    ensures Rectangular(out) && |out.columns| == |positions| && |out.rows| == |df.rows|
    ensures forall k :: 0 <= k < |positions| ==> out.columns[k] == df.columns[positions[k]]
    ensures forall i, k :: 0 <= i < |df.rows| && 0 <= k < |positions| ==> out.rows[i][k] == df.rows[i][positions[k]]
  {
    DataFrame(seq(|positions|, k requires 0 <= k < |positions| => df.columns[positions[k]]),
              seq(|df.rows|, i requires 0 <= i < |df.rows| =>
                seq(|positions|, k requires 0 <= k < |positions| => df.rows[i][positions[k]])))
  }

  /** The cells of `out` are those of `df` from row `start` on, column `k` of `out` being the
      column of `df` labelled `labels[k]`. */
  ghost predicate TakesCells(df: DataFrame, out: DataFrame, start: nat, labels: seq<string>)
    requires Rectangular(df) && Rectangular(out) && |out.columns| == |labels|
  {
    && start + |out.rows| <= |df.rows|
    && forall i, k, j :: 0 <= i < |out.rows| && 0 <= k < |labels| && 0 <= j < |df.columns| && df.columns[j] == labels[k] ==>
         out.rows[i][k] == df.rows[start + i][j]
  }

  /** `df[labels]`: the labelled columns in the order asked, a `KeyError` when a label is not a
      column. With distinct column labels the result has exactly the labels asked, each with
      its own column's cells. */
  function SelectColumns(df: DataFrame, labels: seq<string>): (r: Result<DataFrame>)
    requires Rectangular(df)
    ensures r.Err? <==> exists k :: 0 <= k < |labels| && labels[k] !in df.columns
    ensures r.Err? ==> r.kind == KeyError
    ensures r.Ok? ==> Rectangular(r.value) && |r.value.rows| == |df.rows|
    ensures r.Ok? ==>
              var p := LabelPositions(df.columns, labels);
              && |r.value.columns| == |p|
              && (forall k :: 0 <= k < |p| ==> r.value.columns[k] == df.columns[p[k]])
              && (forall i, k :: 0 <= i < |df.rows| && 0 <= k < |p| ==> r.value.rows[i][k] == df.rows[i][p[k]])
    ensures r.Ok? && Distinct(df.columns) ==> r.value.columns == labels && TakesCells(df, r.value, 0, labels)
  {
    if exists k :: 0 <= k < |labels| && labels[k] !in df.columns then Err(KeyError)
    else
      var out := Project(df, LabelPositions(df.columns, labels));
      DistinctLabelsTakeCells(df, labels, out);
      Ok(out)
  }

  /** Distinct elements at two positions are the same element only at the same position. */
  lemma DistinctAt<T>(xs: seq<T>, a: nat, b: nat)
    requires Distinct(xs) && a < |xs| && b < |xs| && xs[a] == xs[b]
    ensures a == b
  {
  }

  lemma DistinctLabelsTakeCells(df: DataFrame, labels: seq<string>, out: DataFrame)
    requires Rectangular(df) && forall k :: 0 <= k < |labels| ==> labels[k] in df.columns
    requires out == Project(df, LabelPositions(df.columns, labels))
    ensures Distinct(df.columns) ==> out.columns == labels && TakesCells(df, out, 0, labels)
  {
    if Distinct(df.columns) {
      var p := LabelPositions(df.columns, labels);
      LabelPositionsOfDistinct(df.columns, labels);
      ProjectTakesCells(df, labels, p, out);
    }
  }

  lemma ProjectTakesCells(df: DataFrame, labels: seq<string>, p: seq<nat>, out: DataFrame)
    requires Rectangular(df) && Distinct(df.columns) && |p| == |labels|
    requires forall k :: 0 <= k < |labels| ==> p[k] < |df.columns| && df.columns[p[k]] == labels[k]
    requires out == Project(df, p)
    ensures out.columns == labels && TakesCells(df, out, 0, labels)
  {
    forall i, k, j | 0 <= i < |out.rows| && 0 <= k < |labels| && 0 <= j < |df.columns| && df.columns[j] == labels[k]
      ensures out.rows[i][k] == df.rows[i][j]
    {
      DistinctAt(df.columns, p[k], j);
    }
  }

  /** `df.iloc[start:stop]`, Python slice bounds included. */
  function SliceRows(df: DataFrame, start: int, stop: int): (out: DataFrame)
    requires Rectangular(df)
    ensures Rectangular(out) && out.columns == df.columns
    ensures 0 <= start <= stop <= |df.rows| ==> out.rows == df.rows[start..stop]
  {
    DataFrame(df.columns, Slice(df.rows, start, stop))
  }

  /** `df.loc[start:end]` on the default integer index: the rows whose position is between the
      two labels, both included. */
  function LocRows(df: DataFrame, start: int, end: int): (out: DataFrame)
    requires Rectangular(df)
    ensures Rectangular(out) && out.columns == df.columns
    ensures forall row :: row in out.rows ==> row in df.rows
    ensures 0 <= start <= end < |df.rows| ==> out.rows == df.rows[start..end + 1]
    ensures end < start ==> out.rows == []
  {
    var lo := if start < 0 then 0 else start;
    var hi := if end + 1 > |df.rows| then |df.rows| else end + 1;
    DataFrame(df.columns, if lo < hi then df.rows[lo..hi] else [])
  }

  /** The label a header cell gives its column: `str` of its value, "nan" for a missing one. */
  function Label(c: Cell): string
  {
    if c.Some? then c.value else "nan"
  }

  /** The first-row-as-header option: a non-empty frame's first row becomes the column labels
      and is dropped from the rows. */
  function WithHeader(df: DataFrame, useFirstRowAsHeader: bool): (out: DataFrame)
    requires Rectangular(df)
    ensures Rectangular(out)
    ensures useFirstRowAsHeader && !IsEmpty(df) ==>
              out.rows == df.rows[1..] && |out.columns| == |df.columns|
              && forall j :: 0 <= j < |df.columns| ==> out.columns[j] == Label(df.rows[0][j])
    ensures !(useFirstRowAsHeader && !IsEmpty(df)) ==> out == df
  {
    if useFirstRowAsHeader && !IsEmpty(df) then
      DataFrame(seq(|df.columns|, j requires 0 <= j < |df.columns| => Label(df.rows[0][j])), df.rows[1..])
    else df
  }

  /** A label the selection names is not a column of the frame. */
  predicate MissingLabel(df: DataFrame, s: Selection)
  {
    exists k :: 0 <= k < |Columns(s)| && Columns(s)[k] !in df.columns
  }

  /** `selected_data` in the current views: the swapped row range taken with `iloc` (end
      included), then the selected columns by label. An in-range selection holds the rows of
      its range; without a column list they are the frame's rows whole, and with one over
      distinct labels they hold exactly the cells of the columns named, in the order named. */
  function SelectedData(df: DataFrame, s: Selection): (r: Result<DataFrame>)
    requires Rectangular(df)
    ensures r.Err? <==> MissingLabel(df, s)
    ensures r.Err? ==> r.kind == KeyError
    ensures r.Ok? ==> Rectangular(r.value)
    ensures r.Ok? && |Columns(s)| == 0 ==> r.value.columns == df.columns
    ensures r.Ok? && |Columns(s)| > 0 && Distinct(df.columns) ==> r.value.columns == Columns(s)
    ensures var (start, end) := OrderedRows(s);
            r.Ok? && 0 <= start && end < |df.rows| ==>
              && |r.value.rows| == end - start + 1
              && (|Columns(s)| == 0 ==> r.value.rows == df.rows[start..end + 1])
              && (|Columns(s)| > 0 && Distinct(df.columns) ==> TakesCells(df, r.value, start, Columns(s)))
  {
    var (start, end) := OrderedRows(s);
    var rows := SliceRows(df, start, end + 1);
    if |Columns(s)| > 0 then
      var r := SelectColumns(rows, Columns(s));
      if r.Ok? && 0 <= start && end < |df.rows| && Distinct(df.columns) then
        ShiftedCells(df, rows, r.value, start, Columns(s));
        r
      else r
    else Ok(rows)
  }

  /** Cells taken from a slice that starts at `start` are cells of the frame from `start` on. */
  lemma ShiftedCells(df: DataFrame, rows: DataFrame, out: DataFrame, start: nat, labels: seq<string>)
    requires Rectangular(df) && Rectangular(rows) && Rectangular(out) && |out.columns| == |labels|
    requires rows.columns == df.columns && start + |rows.rows| <= |df.rows|
    requires forall i :: 0 <= i < |rows.rows| ==> rows.rows[i] == df.rows[start + i]
    requires |out.rows| == |rows.rows| && TakesCells(rows, out, 0, labels)
    ensures TakesCells(df, out, start, labels)
  {
    forall i, k, j | 0 <= i < |out.rows| && 0 <= k < |labels| && 0 <= j < |df.columns| && df.columns[j] == labels[k]
      ensures out.rows[i][k] == df.rows[start + i][j]
    {
      assert out.rows[i][k] == rows.rows[0 + i][j];
    }
  }

  /** The frame extracted from a selection by the current views: `SelectedData` with the header
      option applied, its errors unchanged. */
  function Extract(df: DataFrame, s: Selection, useFirstRowAsHeader: bool): (r: Result<DataFrame>)
    requires Rectangular(df)
    ensures r.Err? <==> MissingLabel(df, s)
    ensures r.Err? ==> r.kind == KeyError
    ensures r.Ok? ==> Rectangular(r.value) && r.value == WithHeader(SelectedData(df, s).value, useFirstRowAsHeader)
  {
    var selected :- SelectedData(df, s);
    Ok(WithHeader(selected, useFirstRowAsHeader))
  }

  /** An in-range selection without header option extracts exactly the rows the summary counts,
      whichever way it was dragged, and with the option one row fewer. */
  lemma ExtractCountsRows(df: DataFrame, s: Selection, useFirstRowAsHeader: bool)
    requires Rectangular(df) && |Columns(s)| == 0
    requires 0 <= StartRow(s) < |df.rows| && 0 <= EndRow(s) < |df.rows|
    ensures var (start, end) := OrderedRows(s);
            && Extract(df, s, useFirstRowAsHeader).Ok?
            && (!useFirstRowAsHeader || |df.columns| == 0 ==>
                  Extract(df, s, useFirstRowAsHeader).value.rows == df.rows[start..end + 1])
            && (useFirstRowAsHeader && |df.columns| > 0 ==>
                  |Extract(df, s, useFirstRowAsHeader).value.rows| == end - start)
  {
  }

  /** `selected_data` in the older view: with a column list, the rows between the two index
      labels (both included, no swap) with `loc`, then the columns by label; without one, the
      rows with `iloc` (end included). An in-range selection holds the rows of its range, and
      one dragged upwards holds none. */
  function SelectedDataByLabel(df: DataFrame, s: Selection): (r: Result<DataFrame>)
    requires Rectangular(df)
    ensures r.Err? <==> MissingLabel(df, s)
    ensures r.Err? ==> r.kind == KeyError
    ensures r.Ok? ==> Rectangular(r.value)
    ensures r.Ok? && |Columns(s)| == 0 ==> r.value.columns == df.columns
    ensures r.Ok? && |Columns(s)| > 0 && Distinct(df.columns) ==> r.value.columns == Columns(s)
    ensures var (start, end) := (StartRow(s), EndRow(s));
            r.Ok? && 0 <= start <= end < |df.rows| ==>
              && |r.value.rows| == end - start + 1
              && (|Columns(s)| == 0 ==> r.value.rows == df.rows[start..end + 1])
              && (|Columns(s)| > 0 && Distinct(df.columns) ==> TakesCells(df, r.value, start, Columns(s)))
    ensures r.Ok? && 0 <= EndRow(s) < StartRow(s) ==> r.value.rows == []
  {
    var (start, end) := (StartRow(s), EndRow(s));
    if |Columns(s)| > 0 then
      var rows := LocRows(df, start, end);
      var r := SelectColumns(rows, Columns(s));
      if r.Ok? && 0 <= start <= end < |df.rows| && Distinct(df.columns) then
        ShiftedCells(df, rows, r.value, start, Columns(s));
        r
      else r
    else Ok(SliceRows(df, start, end + 1))
  }

  /** The frame the older view extracts: `SelectedDataByLabel` with the header option applied,
      its errors unchanged. */
  function ExtractByLabel(df: DataFrame, s: Selection, useFirstRowAsHeader: bool): (r: Result<DataFrame>)
    requires Rectangular(df)
    ensures r.Err? <==> MissingLabel(df, s)
    ensures r.Err? ==> r.kind == KeyError
    ensures r.Ok? ==> Rectangular(r.value) && r.value == WithHeader(SelectedDataByLabel(df, s).value, useFirstRowAsHeader)
  {
    var selected :- SelectedDataByLabel(df, s);
    Ok(WithHeader(selected, useFirstRowAsHeader))
  }

  /** Without the swap, a selection dragged upwards extracts no row, while the summary reports a
      row count of zero or less. */
  lemma InvertedSelectionByLabelIsEmpty(df: DataFrame, s: Selection)
    requires Rectangular(df) && |Columns(s)| == 0
    requires 0 <= EndRow(s) < StartRow(s)
    ensures ExtractByLabel(df, s, false) == Ok(DataFrame(df.columns, []))
    ensures EndRow(s) - StartRow(s) + 1 <= 0
  {
  }

  // ---------------------------------------------------------------- grid data

  /** `str(value)` of a cell, the empty string for a missing value. */
  function CellText(c: Cell): string
  {
    if c.Some? then c.value else ""
  }

  /** The dict a grid row is built into, column by column: each label mapped to the text of its
      cell. Over distinct labels each label holds its own cell's text. */
  function CellMap(columns: seq<string>, cells: seq<Cell>): (d: map<string, string>)
    requires |cells| == |columns|
    ensures d.Keys == set j | 0 <= j < |columns| :: columns[j]
    ensures Distinct(columns) ==> forall j :: 0 <= j < |columns| ==> d[columns[j]] == CellText(cells[j])
    decreases |columns|
  {
    if |columns| == 0 then map[]
    else
      var n := |columns| - 1;
      var front := CellMap(columns[..n], cells[..n]);
      CellMapStep(columns, cells, columns[..n], cells[..n], front);
      front[columns[n] := CellText(cells[n])]
  }

  /** Adding the last column's cell to the dict of the columns before it. */
  lemma CellMapStep(columns: seq<string>, cells: seq<Cell>, cols0: seq<string>, cells0: seq<Cell>,
                    front: map<string, string>)
    requires |cells| == |columns| > 0
    requires cols0 == columns[..|columns| - 1] && cells0 == cells[..|columns| - 1]
    requires front.Keys == set j | 0 <= j < |cols0| :: cols0[j]
    requires Distinct(cols0) ==> forall j :: 0 <= j < |cols0| ==> front[cols0[j]] == CellText(cells0[j])
    ensures var d := front[columns[|columns| - 1] := CellText(cells[|columns| - 1])];
            d.Keys == (set j | 0 <= j < |columns| :: columns[j])
            && (Distinct(columns) ==> forall j :: 0 <= j < |columns| ==> d[columns[j]] == CellText(cells[j]))
  {
    var n := |columns| - 1;
    var d := front[columns[n] := CellText(cells[n])];
    assert forall j :: 0 <= j < n ==> cols0[j] == columns[j] && cells0[j] == cells[j];
    assert d.Keys == (set j | 0 <= j < |columns| :: columns[j]) by {
      forall k | k in d.Keys ensures k in (set j | 0 <= j < |columns| :: columns[j]) {
        if k != columns[n] {
          var j :| 0 <= j < n && cols0[j] == k;
          assert columns[j] == k;
        }
      }
    }
    if Distinct(columns) {
      DistinctPrefix(columns, n);
      LastIsNew(columns);
      forall j | 0 <= j < |columns| ensures d[columns[j]] == CellText(cells[j]) {
        if j < n {
          assert columns[j] in cols0;
          assert columns[j] != columns[n];
        }
      }
    }
  }

  /** One grid row. With a repeated label, `row[col]` is a series, and testing `pd.isna` of it
      raises `ValueError`; otherwise each label holds the text of its own cell. */
  function RowDict(columns: seq<string>, cells: seq<Cell>): (r: Result<map<string, string>>)
    requires |cells| == |columns|
    ensures r.Err? <==> !Distinct(columns)
    ensures r.Err? ==> r.kind == ValueError
    ensures r.Ok? ==> r.value.Keys == (set j | 0 <= j < |columns| :: columns[j])
                      && forall j :: 0 <= j < |columns| ==> r.value[columns[j]] == CellText(cells[j])
  {
    if Distinct(columns) then Ok(CellMap(columns, cells)) else Err(ValueError)
  }

  /** `ag_grid_row_data`: no row for an absent or empty frame, the `ValueError` of a repeated
      label, or one dict per row, each holding the row's cell texts under the labels. */
  function RowData(df: Option<DataFrame>): (r: Result<seq<map<string, string>>>)
    requires df.Some? ==> Rectangular(df.value)
    ensures df.None? || IsEmpty(df.value) ==> r == Ok([])
    ensures df.Some? && !IsEmpty(df.value) ==>
              && (r.Err? <==> !Distinct(df.value.columns))
              && (r.Err? ==> r.kind == ValueError)
              && (r.Ok? ==>
                    && |r.value| == |df.value.rows|
                    && (forall i :: 0 <= i < |r.value| ==> r.value[i] == RowDict(df.value.columns, df.value.rows[i]).value)
                    && forall i, j :: 0 <= i < |r.value| && 0 <= j < |df.value.columns| ==>
                         df.value.columns[j] in r.value[i] && r.value[i][df.value.columns[j]] == CellText(df.value.rows[i][j]))
  {
    if df.None? || IsEmpty(df.value) then Ok([])
    else if !Distinct(df.value.columns) then Err(ValueError)
    else Ok(seq(|df.value.rows|, i requires 0 <= i < |df.value.rows| => CellMap(df.value.columns, df.value.rows[i])))
  }
}
