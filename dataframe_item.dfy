/** `DataFrameItem`: a CSV or Excel file read into data frames, one per sheet, with the
    separator of a CSV file guessed from its first characters, the merged cells of an Excel
    sheet filled with their top-left value, and every frame cached under its sheet name. */
module DataFrameItems {
  import opened Wrappers
  import opened PyText
  import opened Seqs

  /** A cell; a missing value (NaN) is `None`. */
  type Cell = Option<string>

  /** A pandas data frame: column labels and rows of cells. */
  datatype DataFrame = DataFrame(columns: seq<string>, rows: seq<seq<Cell>>)

  /** Every row has one cell per column. */
  predicate Rectangular(df: DataFrame)
  {
    forall i :: 0 <= i < |df.rows| ==> |df.rows[i]| == |df.columns|
  }

  /** `DataFrame()`. */
  function EmptyFrame(): (df: DataFrame)
    ensures Rectangular(df) && df.columns == [] && df.rows == []
  {
    DataFrame([], [])
  }

  // ---------------------------------------------------------------- file kind and separator

  /** `file_path.lower().split('.')[-1]`: what follows the last dot of the lower-cased path,
      or the whole lower-cased path when it has no dot. */
  function Extension(path: string): (ext: string)
    ensures '.' !in ext
    ensures var lower := LowerAscii(path);
            |ext| <= |lower| && ext == lower[|lower| - |ext|..]
            && (|ext| < |lower| ==> lower[|lower| - |ext| - 1] == '.')
  {
    var lower := LowerAscii(path);
    var ext := LastSegment(lower, '.');
    assert |ext| <= |lower| && ext == lower[|lower| - |ext|..];
    ext
  }

  predicate IsExcel(ext: string)
  {
    ext == "xls" || ext == "xlsx"
  }

  /** `s.count(c)`. */
  function Count(s: string, c: char): (n: nat)
    ensures n <= |s|
    ensures n > 0 <==> c in s
    decreases |s|
  {
    if |s| == 0 then 0 else Count(s[..|s| - 1], c) + (if s[|s| - 1] == c then 1 else 0)
  }

  /** The separator of a CSV file is guessed from a sample of its text: a semicolon when
      semicolons outnumber commas, a comma otherwise. */
  function Separator(sample: string): (sep: char)
    ensures sep == ';' <==> Count(sample, ';') > Count(sample, ',')
    ensures sep != ';' ==> sep == ','
  {
    if ';' in sample && Count(sample, ';') > Count(sample, ',') then ';' else ','
  }

  /** The sample is the first 1024 characters of the file. */
  const SampleSize := 1024

  // ---------------------------------------------------------------- merged cells

  /** A merged range in openpyxl's coordinates: rows and columns counted from 1, the first sheet
      row being the header the data frame does not hold. */
  datatype MergedRange = MergedRange(minRow: int, maxRow: int, minCol: int, maxCol: int)

  /** The merged range covers frame cell (i, j): sheet row i + 2 and sheet column j + 1. */
  predicate Covers(r: MergedRange, i: int, j: int)
  {
    r.minRow - 2 <= i <= r.maxRow - 2 && r.minCol - 1 <= j <= r.maxCol - 1
  }

  /** The frame with every cell the range covers set to `value`. */
  function Filled(df: DataFrame, r: MergedRange, value: Cell): (out: DataFrame)
    requires Rectangular(df)
    ensures Rectangular(out) && out.columns == df.columns && |out.rows| == |df.rows|
  {
    DataFrame(df.columns,
              seq(|df.rows|, i requires 0 <= i < |df.rows| =>
                seq(|df.columns|, j requires 0 <= j < |df.columns| =>
                  if Covers(r, i, j) then value else df.rows[i][j])))
  }

  /** The cells of one row with those from `lo` to `hi` set to `value`. */
  function RowFilled(cells: seq<Cell>, lo: int, hi: int, value: Cell): (out: seq<Cell>)
    ensures |out| == |cells|
  {
    seq(|cells|, j requires 0 <= j < |cells| => if lo <= j <= hi then value else cells[j])
  }

  /** The inner loop of `_handle_merged_cells`, over the columns of one row. */
  method FillRow(cells: seq<Cell>, minCol: int, maxCol: int, value: Cell) returns (out: seq<Cell>)
    requires 0 <= minCol <= maxCol
    ensures out == RowFilled(cells, minCol, maxCol, value)
  {
    out := cells;
    var col := minCol;
    while col < maxCol + 1
      invariant minCol <= col <= maxCol + 1
      invariant out == RowFilled(cells, minCol, col - 1, value)
    {
      if col < |out| {
        out := out[col := value];
      }
      col := col + 1;
    }
  }

  /** One merged range: its sheet coordinates become frame indices, which are clamped to the
      frame, and the cells between them are filled when the clamped range is not empty. */
  method FillMerged(df: DataFrame, r: MergedRange, value: Cell) returns (out: DataFrame)
    requires Rectangular(df)
    ensures out == Filled(df, r, value)
  {
    out := df;
    var minRow, maxRow := r.minRow - 2, r.maxRow - 2;
    var minCol, maxCol := r.minCol - 1, r.maxCol - 1;
    minRow := if minRow < 0 then 0 else minRow;
    maxRow := if |df.rows| - 1 < maxRow then |df.rows| - 1 else maxRow;
    minCol := if minCol < 0 then 0 else minCol;
    maxCol := if |df.columns| - 1 < maxCol then |df.columns| - 1 else maxCol;
    if minRow <= maxRow && minCol <= maxCol {
      var row := minRow;
      while row < maxRow + 1
        invariant minRow <= row <= maxRow + 1
        invariant out.columns == df.columns && |out.rows| == |df.rows|
        invariant forall i :: 0 <= i < |df.rows| ==>
                    out.rows[i] == if minRow <= i < row then RowFilled(df.rows[i], minCol, maxCol, value) else df.rows[i]
      {
        if row < |out.rows| {
          var filled := FillRow(out.rows[row], minCol, maxCol, value);
          out := DataFrame(out.columns, out.rows[row := filled]);
        }
        row := row + 1;
      }
    }
    forall i | 0 <= i < |out.rows|
      ensures out.rows[i] == Filled(df, r, value).rows[i]
    {
    }
  }

  /** A worksheet as `_handle_merged_cells` reads it: the frame pandas reads, and each merged
      range with the value of its top-left cell. */
  datatype Sheet = Sheet(frame: DataFrame, merged: seq<(MergedRange, Cell)>)

  /** The frame after every merged range is filled, in the order openpyxl lists them. */
  function FilledAll(df: DataFrame, merged: seq<(MergedRange, Cell)>): (out: DataFrame)
    requires Rectangular(df)
    ensures Rectangular(out) && out.columns == df.columns && |out.rows| == |df.rows|
    decreases |merged|
  {
    if |merged| == 0 then df
    else Filled(FilledAll(df, merged[..|merged| - 1]), merged[|merged| - 1].0, merged[|merged| - 1].1)
  }

  /** `_handle_merged_cells`. */
  method HandleMergedCells(sheet: Sheet) returns (df: DataFrame)
    requires Rectangular(sheet.frame)
    ensures df == FilledAll(sheet.frame, sheet.merged)
  {
    df := sheet.frame;
    var k := 0;
    while k < |sheet.merged|
      invariant 0 <= k <= |sheet.merged|
      invariant df == FilledAll(sheet.frame, sheet.merged[..k])
    {
      PrefixSnoc(sheet.merged, k);
      df := FillMerged(df, sheet.merged[k].0, sheet.merged[k].1);
      k := k + 1;
    }
    assert sheet.merged[..k] == sheet.merged;
  }

  /** A cell that no merged range covers keeps the value pandas read. */
  lemma {:induction false} FilledAllUncovered(df: DataFrame, merged: seq<(MergedRange, Cell)>, i: nat, j: nat)
    requires Rectangular(df) && i < |df.rows| && j < |df.columns|
    requires forall k :: 0 <= k < |merged| ==> !Covers(merged[k].0, i, j)
    ensures FilledAll(df, merged).rows[i][j] == df.rows[i][j]
    decreases |merged|
  {
    if |merged| > 0 {
      FilledAllUncovered(df, merged[..|merged| - 1], i, j);
    }
  }

  /** A cell takes the value of the last merged range that covers it. */
  lemma {:induction false} FilledAllLastCovering(df: DataFrame, merged: seq<(MergedRange, Cell)>, k: nat, i: nat, j: nat)
    requires Rectangular(df) && i < |df.rows| && j < |df.columns|
    requires k < |merged| && Covers(merged[k].0, i, j)
    requires forall l :: k < l < |merged| ==> !Covers(merged[l].0, i, j)
    ensures FilledAll(df, merged).rows[i][j] == merged[k].1
    decreases |merged|
  {
    if k < |merged| - 1 {
      FilledAllLastCovering(df, merged[..|merged| - 1], k, i, j);
    }
  }

  // ---------------------------------------------------------------- empty columns

  /** The column has at least one value. */
  predicate ColumnHasValue(df: DataFrame, j: nat)
    requires Rectangular(df)
  {
    j < |df.columns| && exists i :: 0 <= i < |df.rows| && df.rows[i][j].Some?
  }

  function Indices(n: nat): (r: seq<nat>)
    ensures |r| == n && forall k :: 0 <= k < n ==> r[k] == k
  {
    seq(n, k requires 0 <= k < n => k)
  }

  function KeepColumn(df: DataFrame): nat -> bool
    requires Rectangular(df)
  {
    (j: nat) => ColumnHasValue(df, j)
  }

  /** The indices of the columns that hold a value, in order. */
  function KeptColumns(df: DataFrame): (kept: seq<nat>)
    requires Rectangular(df)
    ensures |kept| <= |df.columns|
    ensures forall k :: 0 <= k < |kept| ==> kept[k] < |df.columns| && ColumnHasValue(df, kept[k])
    ensures forall a, b :: 0 <= a < b < |kept| ==> kept[a] < kept[b]
  {
    var kept := Filter(Indices(|df.columns|), KeepColumn(df));
    assert forall k :: 0 <= k < |kept| ==> kept[k] in kept;
    FilterIncreasing(Indices(|df.columns|), KeepColumn(df));
    kept
  }

  /** `dropna(axis=1, how='all')`: the columns without any value are removed. The result holds,
      in their order, the labels and cells of exactly the columns that keep a value (see
      `DropEmptyColumnsKeeps`), and every row. */
  function DropEmptyColumns(df: DataFrame): (out: DataFrame)
    requires Rectangular(df)
    ensures Rectangular(out) && |out.rows| == |df.rows|
    ensures var kept := KeptColumns(df);
            && |out.columns| == |kept|
            && (forall k :: 0 <= k < |kept| ==> out.columns[k] == df.columns[kept[k]])
            && (forall i, k :: 0 <= i < |df.rows| && 0 <= k < |kept| ==> out.rows[i][k] == df.rows[i][kept[k]])
  {
    var kept := KeptColumns(df);
    DataFrame(seq(|kept|, k requires 0 <= k < |kept| => df.columns[kept[k]]),
              seq(|df.rows|, i requires 0 <= i < |df.rows| =>
                seq(|kept|, k requires 0 <= k < |kept| => df.rows[i][kept[k]])))
  }

  /** A column is kept exactly when it holds a value. */
  lemma DropEmptyColumnsKeeps(df: DataFrame, j: nat)
    requires Rectangular(df) && j < |df.columns|
    ensures j in KeptColumns(df) <==> ColumnHasValue(df, j)
  {
    assert Indices(|df.columns|)[j] == j;
    FilterMembers(Indices(|df.columns|), KeepColumn(df), j);
  }

  // ---------------------------------------------------------------- the item

  /** What the file holds, as pandas and openpyxl read it: the text of a CSV file with the frame
      `read_csv` makes of it for each separator, or the sheets of a workbook. */
  datatype Disk = Disk(text: string, readCsv: char -> DataFrame,
                       sheetNames: seq<string>, sheets: map<string, Sheet>)

  predicate ValidDisk(disk: Disk)
  {
    && (forall sep :: Rectangular(disk.readCsv(sep)))
    && (forall name :: name in disk.sheets ==> Rectangular(disk.sheets[name].frame))
  }

  /** `get_sheet_names`: the cached list when there is one, otherwise the sheets of an Excel
      file or none. */
  function SheetNames(cached: Option<seq<string>>, ext: string, disk: Disk): (names: seq<string>)
    ensures cached.Some? ==> names == cached.value
    ensures cached.None? && IsExcel(ext) ==> names == disk.sheetNames
    ensures cached.None? && !IsExcel(ext) ==> names == []
  {
    if cached.Some? then cached.value else if IsExcel(ext) then disk.sheetNames else []
  }

  /** `workbook[sheet_name]` and `read_excel(sheet_name=...)` fail on an unknown sheet. */
  function ReadSheet(disk: Disk, sheetName: string): (r: Result<DataFrame>)
    requires ValidDisk(disk)
    ensures r.Ok? <==> sheetName in disk.sheets
    ensures r.Err? ==> r.kind == KeyError
    ensures r.Ok? ==> r.value == FilledAll(disk.sheets[sheetName].frame, disk.sheets[sheetName].merged)
  {
    if sheetName in disk.sheets then Ok(FilledAll(disk.sheets[sheetName].frame, disk.sheets[sheetName].merged))
    else Err(KeyError)
  }

  /** The frame `get_dataframe` loads when nothing is cached under its key: a CSV file read with
      the guessed separator, the named sheet or the first one of an Excel file, or an empty
      frame; then the empty columns are dropped. */
  function LoadFrame(ext: string, sheetName: string, names: seq<string>, disk: Disk): (r: Result<DataFrame>)
    requires ValidDisk(disk)
    ensures r.Err? ==> IsExcel(ext) && r.kind == KeyError
    ensures r.Ok? ==> Rectangular(r.value)
    ensures ext == "csv" ==> r == Ok(DropEmptyColumns(disk.readCsv(Separator(Take(disk.text, SampleSize)))))
    ensures !IsExcel(ext) && ext != "csv" ==> r == Ok(EmptyFrame())
    ensures IsExcel(ext) && sheetName == "" && names == [] ==> r == Ok(EmptyFrame())
    ensures IsExcel(ext) && (sheetName != "" || names != []) ==>
              var sheet := if sheetName != "" then sheetName else names[0];
              && (r.Ok? <==> sheet in disk.sheets)
              && (r.Ok? ==> r.value == DropEmptyColumns(FilledAll(disk.sheets[sheet].frame, disk.sheets[sheet].merged)))
  {
    var raw :=
      if ext == "csv" then Ok(disk.readCsv(Separator(Take(disk.text, SampleSize))))
      else if IsExcel(ext) then
        if sheetName != "" then ReadSheet(disk, sheetName)
        else if |names| > 0 then ReadSheet(disk, names[0])
        else Ok(EmptyFrame())
      else Ok(EmptyFrame());
    if raw.Err? then Err(raw.kind) else Ok(DropEmptyColumns(raw.value))
  }

  /** `get_dataframe` caches under the sheet name, and under "default" for the empty name. */
  function CacheKey(sheetName: string): (key: string)
    ensures sheetName != "" ==> key == sheetName
    ensures sheetName == "" ==> key == "default"
  {
    if sheetName != "" then sheetName else "default"
  }

  class DataFrameItem {
    /** `str(uuid.uuid4())`, drawn by the caller. */
    const id: string
    const name: string
    const filePath: string
    var cachedDataframes: map<string, DataFrame>
    var sheetNames: Option<seq<string>>

    predicate Valid()
      reads this
    {
      forall key :: key in cachedDataframes ==> Rectangular(cachedDataframes[key])
    }

    /** `__init__` as written: the sheet-name cache starts as an empty list. */
    constructor AsWritten(id: string, name: string, filePath: string)
      ensures Valid()
      ensures this.id == id && this.name == name && this.filePath == filePath
      ensures cachedDataframes == map[] && sheetNames == Some([])
    {
      this.id := id;
      this.name := name;
      this.filePath := filePath;
      cachedDataframes := map[];
      sheetNames := Some([]);
    }

    /** `__init__` with the sheet-name cache starting empty (`None`), so that the first
        `get_sheet_names` reads the workbook. */
    constructor (id: string, name: string, filePath: string)
      ensures Valid()
      ensures this.id == id && this.name == name && this.filePath == filePath
      ensures cachedDataframes == map[] && sheetNames == None
    {
      this.id := id;
      this.name := name;
      this.filePath := filePath;
      cachedDataframes := map[];
      sheetNames := None;
    }

    /** `get_sheet_names`. */
    method GetSheetNames(disk: Disk) returns (names: seq<string>)
      modifies this
      ensures names == SheetNames(old(sheetNames), Extension(filePath), disk)
      ensures sheetNames == Some(names) && cachedDataframes == old(cachedDataframes)
    {
      if sheetNames.Some? {
        return sheetNames.value;
      }
      var ext := Extension(filePath);
      if IsExcel(ext) {
        names := disk.sheetNames;
      } else {
        names := [];
      }
      sheetNames := Some(names);
    }

    /** `has_multiple_sheets`. */
    method HasMultipleSheets(disk: Disk) returns (b: bool)
      modifies this
      ensures b <==> |SheetNames(old(sheetNames), Extension(filePath), disk)| > 1
      ensures sheetNames == Some(SheetNames(old(sheetNames), Extension(filePath), disk))
      ensures cachedDataframes == old(cachedDataframes)
    {
      var names := GetSheetNames(disk);
      b := |names| > 1;
    }

    /** `get_dataframe`: a frame cached under the key is returned as it is; otherwise the frame
        is loaded and cached. */
    method GetDataframe(sheetName: string, disk: Disk) returns (r: Result<DataFrame>)
      requires Valid() && ValidDisk(disk)
      modifies this
      ensures Valid()
      ensures var key := CacheKey(sheetName);
              if key in old(cachedDataframes) then
                r == Ok(old(cachedDataframes)[key]) && cachedDataframes == old(cachedDataframes)
                && sheetNames == old(sheetNames)
              else
                var ext := Extension(filePath);
                var names := SheetNames(old(sheetNames), ext, disk);
                && r == LoadFrame(ext, sheetName, names, disk)
                && sheetNames == (if IsExcel(ext) && sheetName == "" then Some(names) else old(sheetNames))
                && cachedDataframes == (if r.Ok? then old(cachedDataframes)[key := r.value] else old(cachedDataframes))
    {
      var key := CacheKey(sheetName);
      if key in cachedDataframes {
        return Ok(cachedDataframes[key]);
      }
      var ext := Extension(filePath);
      ghost var names0 := SheetNames(sheetNames, ext, disk);
      ghost var expected := LoadFrame(ext, sheetName, names0, disk);
      var raw: Result<DataFrame>;
      if ext == "csv" {
        var sep := Separator(Take(disk.text, SampleSize));
        raw := Ok(disk.readCsv(sep));
      } else if IsExcel(ext) {
        if sheetName != "" {
          raw := ReadSheet(disk, sheetName);
        } else {
          var names := GetSheetNames(disk);
          assert names == names0;
          if |names| > 0 {
            raw := ReadSheet(disk, names[0]);
          } else {
            raw := Ok(EmptyFrame());
          }
        }
      } else {
        raw := Ok(EmptyFrame());
      }
      assert expected == (if raw.Err? then Err(raw.kind) else Ok(DropEmptyColumns(raw.value)));
      if raw.Err? {
        return Err(raw.kind);
      }
      var dataframe := DropEmptyColumns(raw.value);
      cachedDataframes := cachedDataframes[key := dataframe];
      r := Ok(dataframe);
    }

    /** `get_default_dataframe`: the CSV frame, the first sheet of an Excel file, or an empty
        frame. */
    method GetDefaultDataframe(disk: Disk) returns (r: Result<DataFrame>)
      requires Valid() && ValidDisk(disk)
      modifies this
      ensures Valid()
      ensures var ext := Extension(filePath);
              var names := SheetNames(old(sheetNames), ext, disk);
              && (!IsExcel(ext) && ext != "csv" ==> r == Ok(EmptyFrame()))
              && (IsExcel(ext) && names == [] ==> r == Ok(EmptyFrame()))
              && (IsExcel(ext) && names != [] && CacheKey(names[0]) !in old(cachedDataframes) ==>
                    r == LoadFrame(ext, names[0], names, disk))
              && (IsExcel(ext) && names != [] && CacheKey(names[0]) in old(cachedDataframes) ==>
                    r == Ok(old(cachedDataframes)[CacheKey(names[0])]))
              && (ext == "csv" && "default" in old(cachedDataframes) ==> r == Ok(old(cachedDataframes)["default"]))
              && (ext == "csv" && "default" !in old(cachedDataframes) ==> r == LoadFrame(ext, "", names, disk))
    ensures var ext := Extension(filePath);
            var names := SheetNames(old(sheetNames), ext, disk);
            && sheetNames == (if IsExcel(ext) then Some(names) else old(sheetNames))
            && (if ext == "csv" || (IsExcel(ext) && names != []) then
                  var key := if ext == "csv" then "default" else CacheKey(names[0]);
                  cachedDataframes == (if key !in old(cachedDataframes) && r.Ok?
                                       then old(cachedDataframes)[key := r.value]
                                       else old(cachedDataframes))
                else cachedDataframes == old(cachedDataframes))
    {
      var ext := Extension(filePath);
      ghost var names0 := SheetNames(sheetNames, ext, disk);
      if ext == "csv" {
        assert !IsExcel(ext);
        r := GetDataframe("", disk);
      } else if IsExcel(ext) {
        var names := GetSheetNames(disk);
        assert names == names0 && sheetNames == Some(names0);
        if |names| > 0 {
          assert SheetNames(Some(names), ext, disk) == names;
          r := GetDataframe(names[0], disk);
        } else {
          r := Ok(EmptyFrame());
        }
      } else {
        r := Ok(EmptyFrame());
      }
    }
  }

  /** With the sheet-name cache starting as an empty list, an Excel file with two sheets reports
      no sheet, so its default frame is empty. */
  lemma SheetNamesAsWritten(disk: Disk)
    requires disk.sheetNames == ["Sheet1", "Sheet2"]
    ensures SheetNames(Some([]), "xlsx", disk) == []
    ensures disk.sheetNames != []
  {
  }

  /** With the cache starting as `None`, an Excel file reports the sheets of its workbook and its
      default frame is the first sheet's. */
  lemma SheetNamesCorrected(disk: Disk, filePath: string)
    requires ValidDisk(disk) && IsExcel(Extension(filePath)) && disk.sheetNames != []
    ensures var names := SheetNames(None, Extension(filePath), disk);
            && names == disk.sheetNames
            && LoadFrame(Extension(filePath), names[0], names, disk) ==
                 (if names[0] in disk.sheets
                  then Ok(DropEmptyColumns(FilledAll(disk.sheets[names[0]].frame, disk.sheets[names[0]].merged)))
                  else Err(KeyError))
  {
  }
}
