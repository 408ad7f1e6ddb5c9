/** `AiTableDataState` of the current AI table app: the loaded files keyed by id in insertion
    order, the current file and sheet, the right panel, the zoom level and the column sizing. */
module AiTableData {
  import opened Wrappers
  import opened PyText
  import opened PyDict
  import opened Seqs
  import opened DataFrameItems
  import opened ExcelFiles
  import opened TableSelection

  datatype PanelState = Closed | Chat | Stats
  datatype ColumnSizeMode = DefaultSize | Dense

  const MinZoom: real := 0.1
  const MaxZoom: real := 3.0
  const ZoomStep: real := 0.1

  /** `max(lo, min(hi, z))`. */
  function Clamp(z: real): (r: real)
    ensures MinZoom <= r <= MaxZoom
    ensures MinZoom <= z <= MaxZoom ==> r == z
    ensures z < MinZoom ==> r == MinZoom
    ensures z > MaxZoom ==> r == MaxZoom
  {
    if z < MinZoom then MinZoom else if z > MaxZoom then MaxZoom else z
  }

  /** `toggle_right_panel_state`: the open panel closes, any other panel opens. */
  function Toggled(current: PanelState, state: PanelState): (r: PanelState)
    ensures current == state ==> r == Closed
    ensures current != state ==> r == state
  {
    if current == state then Closed else state
  }

  /** Toggling the same panel twice from a closed panel reopens it; from that panel, closes it
      and opens it again. */
  lemma ToggleTwice(current: PanelState, state: PanelState)
    requires state != Closed
    ensures Toggled(Toggled(current, state), state) == (if current == state then state else Closed)
  {
  }

  /** One AG Grid column definition: the field and header are the column label. */
  datatype ColumnDef = ColumnDef(field: string, autoSize: bool, width: Option<nat>, headerClass: Option<string>)

  /** `ag_grid_column_defs`: one definition per column; auto-sized in the default mode, and in the
      dense mode 80 pixels wide for a numeric column and 120 otherwise. */
  function ColumnDefs(df: Option<DataFrame>, mode: ColumnSizeMode, numeric: string -> bool): (defs: seq<ColumnDef>)
    ensures |defs| == ColumnCount(df)
    ensures forall k :: 0 <= k < |defs| ==>
              && defs[k].field == df.value.columns[k]
              && (mode == DefaultSize ==> defs[k].autoSize && defs[k].width.None?)
              && (mode == Dense ==> !defs[k].autoSize && defs[k].headerClass == Some("dense-header")
                                    && defs[k].width == Some(if numeric(df.value.columns[k]) then 80 else 120))
  {
    if df.None? || IsEmpty(df.value) then []
    else
      seq(|df.value.columns|, k requires 0 <= k < |df.value.columns| =>
        var col := df.value.columns[k];
        if mode == DefaultSize then ColumnDef(col, true, None, None)
        else ColumnDef(col, false, Some(if numeric(col) then 80 else 120), Some("dense-header")))
  }

  /** A gws_core resource looked up by id. */
  datatype Resource = TableResource(table: Table) | OtherResource

  /** A table resource holds a well-formed frame. */
  predicate WellFormedResource(resource: Option<Resource>)
  {
    resource.Some? && resource.value.TableResource? ==> Rectangular(resource.value.table.frame)
  }

  /** The names of the loaded files. */
  function FileNames(files: Dict<ExcelFile>): set<string>
  {
    set f | f in files.entries.Values :: f.name
  }

  class AiTableDataState {
    var rightPanelState: PanelState
    var zoomLevel: real
    var columnSizeMode: ColumnSizeMode
    /** `_excel_files`. */
    var excelFiles: Dict<ExcelFile>
    var currentTableId: string
    var currentSheetName: string

    predicate Valid()
      reads this, excelFiles.entries.Values
    {
      && PyDict.Valid(excelFiles)
      && (forall f :: f in excelFiles.entries.Values ==> f.Valid())
      && MinZoom <= zoomLevel <= MaxZoom
    }

    constructor ()
      ensures Valid()
      ensures rightPanelState == Closed && zoomLevel == 1.0 && columnSizeMode == DefaultSize
      ensures excelFiles == Empty() && currentTableId == "" && currentSheetName == ""
    {
      rightPanelState := Closed;
      zoomLevel := 1.0;
      columnSizeMode := DefaultSize;
      excelFiles := Empty();
      currentTableId := "";
      currentSheetName := "";
    }

    /** `get_current_dataframe_item`. */
    function CurrentItem(): (r: Option<ExcelFile>)
      reads this
      ensures r.Some? <==> currentTableId in excelFiles.entries
      ensures r.Some? ==> r.value == excelFiles.entries[currentTableId]
    {
      if currentTableId in excelFiles.entries then Some(excelFiles.entries[currentTableId]) else None
    }

    /** `get_current_table`: none without a current file, otherwise the current sheet of it,
        which fails when that file has no such sheet. */
    function CurrentTable(): (r: Result<Option<ExcelSheetDto>>)
      reads this, excelFiles.entries.Values
      requires Valid()
      ensures CurrentItem().None? ==> r == Ok(None)
      ensures CurrentItem().Some? ==>
                var f := CurrentItem().value;
                && (r.Ok? <==> f.GetTableDto(currentSheetName).Ok?)
                && (r.Ok? ==> r.value == Some(f.GetTableDto(currentSheetName).value))
    {
      var item := CurrentItem();
      if item.None? then Ok(None)
      else
        var dto :- item.value.GetTableDto(currentSheetName);
        Ok(Some(dto))
    }

    /** `get_current_dataframe`. */
    function CurrentDataframe(): (r: Result<Option<DataFrame>>)
      reads this, excelFiles.entries.Values
      requires Valid()
      ensures CurrentItem().None? ==> r == Ok(None)
      ensures CurrentItem().Some? ==>
                var f := CurrentItem().value;
                && (r.Ok? <==> f.GetDataframe(currentSheetName).Ok?)
                && (r.Ok? ==> r.value == Some(f.GetDataframe(currentSheetName).value))
      ensures r.Ok? && r.value.Some? ==> Rectangular(r.value.value)
    {
      var item := CurrentItem();
      if item.None? then Ok(None)
      else
        var df :- item.value.GetDataframe(currentSheetName);
        Ok(Some(df))
    }

    /** `get_sheet_names`: the current file's sheets, none without a current file. */
    function SheetNames(): (names: seq<string>)
      reads this, excelFiles.entries.Values
      requires Valid()
      ensures CurrentItem().None? ==> names == []
      ensures CurrentItem().Some? ==> names == CurrentItem().value.tables.keys
    {
      var item := CurrentItem();
      if item.Some? then item.value.SheetNames() else []
    }

    /** `has_multiple_sheets`. */
    predicate HasMultipleSheets()
      reads this, excelFiles.entries.Values
      requires Valid()
    {
      var item := CurrentItem();
      item.Some? && item.value.HasMultipleSheets()
    }

    /** `dataframe_loaded`: a current file whose current sheet exists. */
    predicate DataframeLoaded()
      reads this, excelFiles.entries.Values
      requires Valid()
    {
      var df := CurrentDataframe();
      df.Ok? && df.value.Some?
    }

    /** `nb_rows`: zero without data or for an empty frame. */
    function NbRows(): (r: Result<nat>)
      reads this, excelFiles.entries.Values
      requires Valid()
      ensures r.Ok? <==> CurrentDataframe().Ok?
      ensures r.Ok? ==> r.value == RowCount(CurrentDataframe().value)
    {
      var df :- CurrentDataframe();
      Ok(RowCount(df))
    }

    /** `nb_columns`: zero without data or for an empty frame. */
    function NbColumns(): (r: Result<nat>)
      reads this, excelFiles.entries.Values
      requires Valid()
      ensures r.Ok? <==> CurrentDataframe().Ok?
      ensures r.Ok? ==> r.value == ColumnCount(CurrentDataframe().value)
    {
      var df :- CurrentDataframe();
      Ok(ColumnCount(df))
    }

    /** `ag_grid_column_defs` for the current frame. */
    function AgGridColumnDefs(numeric: string -> bool): (r: Result<seq<ColumnDef>>)
      reads this, excelFiles.entries.Values
      requires Valid()
      ensures r.Ok? <==> CurrentDataframe().Ok?
      ensures r.Ok? ==> |r.value| == ColumnCount(CurrentDataframe().value)
      ensures r.Ok? ==> r.value == ColumnDefs(CurrentDataframe().value, columnSizeMode, numeric)
    {
      var df :- CurrentDataframe();
      Ok(ColumnDefs(df, columnSizeMode, numeric))
    }

    /** `ag_grid_row_data` for the current frame: the error of looking the frame up, no row for
        an absent or empty frame, the `ValueError` of a repeated label, or one dict per row of
        the frame. */
    function AgGridRowData(): (r: Result<seq<map<string, string>>>)
      reads this, excelFiles.entries.Values
      requires Valid()
      ensures CurrentDataframe().Err? ==> r == Err(CurrentDataframe().kind)
      ensures CurrentDataframe().Ok? ==>
                var df := CurrentDataframe().value;
                && (df.None? || IsEmpty(df.value) ==> r == Ok([]))
                && (df.Some? && !IsEmpty(df.value) ==>
                      && (r.Err? <==> !Distinct(df.value.columns))
                      && (r.Err? ==> r.kind == ValueError)
                      && (r.Ok? ==>
                            && |r.value| == |df.value.rows|
                            && forall i, j :: 0 <= i < |r.value| && 0 <= j < |df.value.columns| ==>
                                 df.value.columns[j] in r.value[i] && r.value[i][df.value.columns[j]] == CellText(df.value.rows[i][j])))
    {
      var df :- CurrentDataframe();
      RowData(df)
    }

    /** `ag_grid_auto_size_strategy`: fit the cells, between 50 and 300 pixels, in the dense mode
        only. */
    function AutoSizeStrategy(): (r: Option<(nat, nat)>)
      reads this
      ensures r.Some? <==> columnSizeMode == Dense
      ensures r.Some? ==> r.value == (50, 300)
    {
      if columnSizeMode == Dense then Some((50, 300)) else None
    }

    /** `right_panel_opened`. */
    predicate RightPanelOpened()
      reads this
    {
      rightPanelState != Closed
    }

    /** `switch_sheet`: only a sheet of the current file can be chosen. */
    method SwitchSheet(sheetName: string)
      requires Valid()
      modifies this
      ensures Valid()
      ensures currentSheetName == (if sheetName in old(SheetNames()) then sheetName else old(currentSheetName))
      ensures rightPanelState == old(rightPanelState) && zoomLevel == old(zoomLevel)
      ensures columnSizeMode == old(columnSizeMode)
      ensures excelFiles == old(excelFiles) && currentTableId == old(currentTableId)
    {
      var item := CurrentItem();
      if item.Some? && sheetName in item.value.SheetNames() {
        currentSheetName := sheetName;
      }
    }

    /** `toggle_right_panel_state`. */
    method ToggleRightPanelState(state: PanelState)
      requires Valid()
      modifies this
      ensures Valid()
      ensures rightPanelState == Toggled(old(rightPanelState), state)
      ensures RightPanelOpened() <==> old(rightPanelState) != state && state != Closed
      ensures zoomLevel == old(zoomLevel) && columnSizeMode == old(columnSizeMode)
      ensures excelFiles == old(excelFiles) && currentTableId == old(currentTableId)
      ensures currentSheetName == old(currentSheetName)
    {
      if rightPanelState == state {
        rightPanelState := Closed;
      } else {
        rightPanelState := state;
      }
    }

    /** `set_zoom`: the level is clamped to 10%..300%. */
    method SetZoom(zoom: real)
      requires Valid()
      modifies this
      ensures Valid()
      ensures zoomLevel == Clamp(zoom)
      ensures rightPanelState == old(rightPanelState) && columnSizeMode == old(columnSizeMode)
      ensures excelFiles == old(excelFiles) && currentTableId == old(currentTableId)
      ensures currentSheetName == old(currentSheetName)
    {
      zoomLevel := if MinZoom > (if MaxZoom < zoom then MaxZoom else zoom) then MinZoom
                   else (if MaxZoom < zoom then MaxZoom else zoom);
    }

    /** `zoom_in`: ten points more, at most 300%. */
    method ZoomIn()
      requires Valid()
      modifies this
      ensures Valid()
      ensures zoomLevel == (if old(zoomLevel) + ZoomStep > MaxZoom then MaxZoom else old(zoomLevel) + ZoomStep)
      ensures zoomLevel >= old(zoomLevel)
      ensures rightPanelState == old(rightPanelState) && columnSizeMode == old(columnSizeMode)
      ensures excelFiles == old(excelFiles) && currentTableId == old(currentTableId)
      ensures currentSheetName == old(currentSheetName)
    {
      zoomLevel := if MaxZoom < zoomLevel + ZoomStep then MaxZoom else zoomLevel + ZoomStep;
    }

    /** `zoom_out`: ten points less, at least 10%. */
    method ZoomOut()
      requires Valid()
      modifies this
      ensures Valid()
      ensures zoomLevel == (if old(zoomLevel) - ZoomStep < MinZoom then MinZoom else old(zoomLevel) - ZoomStep)
      ensures zoomLevel <= old(zoomLevel)
      ensures rightPanelState == old(rightPanelState) && columnSizeMode == old(columnSizeMode)
      ensures excelFiles == old(excelFiles) && currentTableId == old(currentTableId)
      ensures currentSheetName == old(currentSheetName)
    {
      zoomLevel := if MinZoom > zoomLevel - ZoomStep then MinZoom else zoomLevel - ZoomStep;
    }

    /** `set_column_size_default` and `set_column_size_dense`. */
    method SetColumnSizeMode(mode: ColumnSizeMode)
      requires Valid()
      modifies this
      ensures Valid()
      ensures columnSizeMode == mode
      ensures rightPanelState == old(rightPanelState) && zoomLevel == old(zoomLevel)
      ensures excelFiles == old(excelFiles) && currentTableId == old(currentTableId)
      ensures currentSheetName == old(currentSheetName)
    {
      columnSizeMode := mode;
    }

    /** `select_excel_file`: a known file becomes current, on its default sheet. */
    method SelectExcelFile(excelFileId: string)
      requires Valid()
      modifies this
      ensures Valid()
      ensures excelFileId in excelFiles.entries ==> currentTableId == excelFileId && currentSheetName == ""
      ensures excelFileId !in excelFiles.entries ==>
                currentTableId == old(currentTableId) && currentSheetName == old(currentSheetName)
      ensures excelFiles == old(excelFiles) && rightPanelState == old(rightPanelState)
      ensures zoomLevel == old(zoomLevel) && columnSizeMode == old(columnSizeMode)
    {
      if excelFileId in excelFiles.entries {
        currentTableId := excelFileId;
        currentSheetName := "";
      }
    }

    /** `select_table` asks each file for `get_sheet_name_from_id`, which `ExcelFile` does not
        define: with any file loaded it fails with an `AttributeError` before changing anything. */
    method SelectTable(tableId: string) returns (o: Outcome)
      requires Valid()
      modifies this
      ensures Valid()
      ensures o == (if excelFiles.keys == [] then Pass else Fail(AttributeError))
      ensures excelFiles == old(excelFiles) && currentTableId == old(currentTableId)
      ensures currentSheetName == old(currentSheetName) && rightPanelState == old(rightPanelState)
      ensures zoomLevel == old(zoomLevel) && columnSizeMode == old(columnSizeMode)
    {
      if excelFiles.keys != [] {
        return Fail(AttributeError);
      }
      o := Pass;
    }

    /** `select_table` as intended: the first file, in insertion order, whose sheet lookup
        (`sheetOf`, standing for the `get_sheet_name_from_id` the files were meant to have)
        knows the table becomes current on that sheet; when no file knows it nothing changes. */
    method SelectTableIntended(tableId: string, sheetOf: (string, string) -> Option<string>)
      requires Valid()
      modifies this
      ensures Valid()
      ensures var i := FirstSheetMatch(excelFiles.keys, tableId, sheetOf, 0);
              && (i < |excelFiles.keys| ==>
                    currentTableId == excelFiles.keys[i] && Some(currentSheetName) == sheetOf(excelFiles.keys[i], tableId))
              && (i == |excelFiles.keys| ==>
                    currentTableId == old(currentTableId) && currentSheetName == old(currentSheetName))
      ensures excelFiles == old(excelFiles) && rightPanelState == old(rightPanelState)
      ensures zoomLevel == old(zoomLevel) && columnSizeMode == old(columnSizeMode)
    {
      var i := FindSheet(excelFiles.keys, tableId, sheetOf);
      if i < |excelFiles.keys| {
        currentTableId := excelFiles.keys[i];
        currentSheetName := sheetOf(excelFiles.keys[i], tableId).value;
      }
    }

    /** `remove_current_table`: the current file goes and the first remaining file, if any,
        becomes current; the sheet name is left as it was. */
    method RemoveCurrentTable()
      requires Valid()
      modifies this
      ensures Valid()
      ensures old(currentTableId) == "" || old(currentTableId) !in old(excelFiles.entries) ==>
                excelFiles == old(excelFiles) && currentTableId == old(currentTableId)
      ensures old(currentTableId) != "" && old(currentTableId) in old(excelFiles.entries) ==>
                excelFiles == Remove(old(excelFiles), old(currentTableId))
      ensures old(currentTableId) != "" && old(currentTableId) in old(excelFiles.entries) ==>
                && old(currentTableId) !in excelFiles.entries
                && (excelFiles.entries == map[] ==> currentTableId == "")
                && (excelFiles.entries != map[] ==> currentTableId in excelFiles.entries)
      ensures old(currentTableId) != "" && old(currentTableId) in old(excelFiles.entries) ==>
                currentTableId == (if excelFiles.keys == [] then "" else excelFiles.keys[0])
      ensures currentSheetName == old(currentSheetName) && rightPanelState == old(rightPanelState)
      ensures zoomLevel == old(zoomLevel) && columnSizeMode == old(columnSizeMode)
    {
      if currentTableId != "" && currentTableId in excelFiles.entries {
        var rest := Remove(excelFiles, currentTableId);
        RemoveValues(excelFiles, currentTableId);
        excelFiles := rest;
        if rest.keys != [] {
          currentTableId := rest.keys[0];
        } else {
          currentTableId := "";
        }
      }
    }

    /** `current_table_name`. */
    function CurrentTableName(): (name: string)
      reads this, excelFiles.entries.Values
    {
      var item := CurrentItem();
      if item.Some? then item.value.name else "No Table Selected"
    }

    /** `excel_file_list`: id and name of every file, in insertion order. */
    function ExcelFileList(): (r: seq<(string, string)>)
      reads this, excelFiles.entries.Values
      requires Valid()
      ensures |r| == |excelFiles.keys|
      ensures forall k :: 0 <= k < |r| ==>
                r[k] == (excelFiles.keys[k], excelFiles.entries[excelFiles.keys[k]].name)
    {
      var keys, entries := excelFiles.keys, excelFiles.entries;
      seq(|keys|, k requires 0 <= k < |keys| && keys[k] in entries => (keys[k], entries[keys[k]].name))
    }

    /** `all_table_items`: the transfer object of every file, in insertion order. */
    function AllTableItems(): (r: seq<ExcelFileDto>)
      reads this, excelFiles.entries.Values
      requires Valid()
      ensures |r| == |excelFiles.keys|
      ensures forall k :: 0 <= k < |r| ==> r[k] == excelFiles.entries[excelFiles.keys[k]].ToDto()
    {
      var keys, entries := excelFiles.keys, excelFiles.entries;
      seq(|keys|, k requires 0 <= k < |keys| && keys[k] in entries && entries[keys[k]].Valid()
                    reads entries.Values => entries[keys[k]].ToDto())
    }

    /** `count_tables`. */
    function CountTables(): (n: nat)
      reads this, excelFiles.entries.Values
      requires Valid()
      ensures n == |excelFiles.entries|
    {
      DistinctKeysCount(excelFiles);
      |excelFiles.keys|
    }

    /** `get_table`: the sheet of a known file, none for an unknown one. */
    function GetTable(tableId: string, sheetName: string): (r: Result<Option<ExcelSheetDto>>)
      reads this, excelFiles.entries.Values
      requires Valid()
      ensures tableId !in excelFiles.entries ==> r == Ok(None)
      ensures tableId in excelFiles.entries ==>
                var f := excelFiles.entries[tableId];
                && (r.Ok? <==> f.GetTableDto(sheetName).Ok?)
                && (r.Ok? ==> r.value == Some(f.GetTableDto(sheetName).value))
    {
      if tableId !in excelFiles.entries then Ok(None)
      else
        var dto :- excelFiles.entries[tableId].GetTableDto(sheetName);
        Ok(Some(dto))
    }

    /** `add_excel_file`: the file is stored under its id and becomes current. */
    method AddExcelFile(excelFile: ExcelFile) returns (dto: ExcelSheetDto)
      requires Valid() && excelFile.Valid()
      modifies this
      ensures Valid()
      ensures excelFiles == Put(old(excelFiles), excelFile.id, excelFile)
      ensures currentTableId == excelFile.id
      ensures excelFile.GetTableDto("") == Ok(dto)
      ensures currentSheetName == old(currentSheetName) && rightPanelState == old(rightPanelState)
      ensures zoomLevel == old(zoomLevel) && columnSizeMode == old(columnSizeMode)
    {
      excelFiles := Put(excelFiles, excelFile.id, excelFile);
      currentTableId := excelFile.id;
      dto := excelFile.GetTableDto("").value;
    }

    /** `add_table` as written calls `ExcelFile.from_table(table=table)` without the id and the
        name `from_table` requires: every call fails with a `TypeError` and changes nothing. */
    method AddTableAsWritten(table: Table) returns (r: Result<ExcelSheetDto>)
      requires Valid()
      modifies this
      ensures Valid()
      ensures r == Err(TypeError)
      ensures excelFiles == old(excelFiles) && currentTableId == old(currentTableId)
      ensures currentSheetName == old(currentSheetName) && rightPanelState == old(rightPanelState)
      ensures zoomLevel == old(zoomLevel) && columnSizeMode == old(columnSizeMode)
    {
      r := Err(TypeError);
    }

    /** `add_table` with the file built from a fresh id and the table's own name: the table
        becomes the single sheet of a new current file. */
    method AddTable(id: string, table: Table) returns (dto: ExcelSheetDto)
      requires Valid() && Rectangular(table.frame)
      modifies this
      ensures Valid()
      ensures currentTableId == id && id in excelFiles.entries
      ensures excelFiles.entries[id].tables.keys == [table.name]
      ensures excelFiles.entries[id].tables.entries == map[table.name := table]
      ensures rightPanelState == old(rightPanelState) && zoomLevel == old(zoomLevel)
      ensures columnSizeMode == old(columnSizeMode)
      ensures dto == ExcelSheetDto(id, table.name, Some(""), table)
      ensures forall other :: other in old(excelFiles.entries) && other != id ==>
                other in excelFiles.entries && excelFiles.entries[other] == old(excelFiles.entries)[other]
      ensures currentSheetName == old(currentSheetName)
    {
      var item := FromTable(id, table.name, table, None);
      assert table.(name := table.name) == table;
      dto := AddExcelFile(item);
    }

    /** `add_resource_model`: an unknown resource or one that is not a table is a `ValueError`;
        a table is added as a new current file. */
    method AddResourceModel(id: string, resource: Option<Resource>) returns (r: Result<ExcelSheetDto>)
      requires Valid() && WellFormedResource(resource)
      modifies this
      ensures Valid()
      ensures resource.None? || resource.value.OtherResource? ==>
                r == Err(ValueError) && excelFiles == old(excelFiles) && currentTableId == old(currentTableId)
      ensures resource.Some? && resource.value.TableResource? ==>
                var table := resource.value.table;
                && r == Ok(ExcelSheetDto(id, table.name, Some(""), table))
                && currentTableId == id && id in excelFiles.entries
                && excelFiles.entries[id].tables.keys == [table.name]
                && excelFiles.entries[id].tables.entries == map[table.name := table]
                && (forall other :: other in old(excelFiles.entries) && other != id ==>
                      other in excelFiles.entries && excelFiles.entries[other] == old(excelFiles.entries)[other])
      ensures currentSheetName == old(currentSheetName) && rightPanelState == old(rightPanelState)
      ensures zoomLevel == old(zoomLevel) && columnSizeMode == old(columnSizeMode)
    {
      if resource.None? || resource.value.OtherResource? {
        return Err(ValueError);
      }
      var dto := AddTable(id, resource.value.table);
      r := Ok(dto);
    }

    /** `load_from_resource_id_url_param`: nothing without a resource id in the URL, otherwise the
        resource is added as a table. */
    method LoadFromResourceIdUrlParam(resourceId: Option<string>, newId: string, resource: Option<Resource>)
      returns (o: Outcome)
      requires Valid() && WellFormedResource(resource)
      modifies this
      ensures Valid()
      ensures resourceId.None? || resourceId.value == "" ==>
                o == Pass && excelFiles == old(excelFiles) && currentTableId == old(currentTableId)
      ensures resourceId.Some? && resourceId.value != "" ==>
                (o == Pass <==> resource.Some? && resource.value.TableResource?)
      ensures o.Fail? ==> o == Fail(ValueError) && excelFiles == old(excelFiles) && currentTableId == old(currentTableId)
      ensures resourceId.Some? && resourceId.value != "" && o == Pass ==>
                var table := resource.value.table;
                && currentTableId == newId && newId in excelFiles.entries
                && excelFiles.entries[newId].tables.keys == [table.name]
                && excelFiles.entries[newId].tables.entries == map[table.name := table]
                && (forall other :: other in old(excelFiles.entries) && other != newId ==>
                      other in excelFiles.entries && excelFiles.entries[other] == old(excelFiles.entries)[other])
      ensures currentSheetName == old(currentSheetName) && rightPanelState == old(rightPanelState)
      ensures zoomLevel == old(zoomLevel) && columnSizeMode == old(columnSizeMode)
    {
      if resourceId.None? || resourceId.value == "" {
        return Pass;
      }
      var r := AddResourceModel(newId, resource);
      o := if r.Ok? then Pass else Fail(r.kind);
    }

    /** `add_resource_model` as written: the error cases are as in `AddResourceModel`, and a
        table goes through `AddTableAsWritten`, so it fails with a `TypeError`; nothing changes. */
    method AddResourceModelAsWritten(resource: Option<Resource>) returns (r: Result<ExcelSheetDto>)
      requires Valid()
      modifies this
      ensures Valid()
      ensures resource.None? || resource.value.OtherResource? ==> r == Err(ValueError)
      ensures resource.Some? && resource.value.TableResource? ==> r == Err(TypeError)
      ensures excelFiles == old(excelFiles) && currentTableId == old(currentTableId)
      ensures currentSheetName == old(currentSheetName) && rightPanelState == old(rightPanelState)
      ensures zoomLevel == old(zoomLevel) && columnSizeMode == old(columnSizeMode)
    {
      if resource.None? || resource.value.OtherResource? {
        return Err(ValueError);
      }
      r := AddTableAsWritten(resource.value.table);
    }

    /** `load_from_resource_id_url_param` as written: with a resource id it never loads
        anything, failing with a `ValueError` or, for a table, a `TypeError`. */
    method LoadFromResourceIdUrlParamAsWritten(resourceId: Option<string>, resource: Option<Resource>)
      returns (o: Outcome)
      requires Valid()
      modifies this
      ensures Valid()
      ensures o == Pass <==> resourceId.None? || resourceId.value == ""
      ensures o.Fail? ==> (o.kind == TypeError <==> resource.Some? && resource.value.TableResource?)
      ensures o.Fail? ==> o.kind == TypeError || o.kind == ValueError
      ensures excelFiles == old(excelFiles) && currentTableId == old(currentTableId)
      ensures currentSheetName == old(currentSheetName) && rightPanelState == old(rightPanelState)
      ensures zoomLevel == old(zoomLevel) && columnSizeMode == old(columnSizeMode)
    {
      if resourceId.None? || resourceId.value == "" {
        return Pass;
      }
      var r := AddResourceModelAsWritten(resource);
      o := Fail(r.kind);
    }

    /** `add_file`: the name given, else the file's name, else "table", made unique among the
        loaded files' names, names a file imported from disk, which becomes current. The
        library's `generate_unique_str_for_list` is the parameter `unique`, which gives a name
        outside the set it is given. */
    method AddFile(id: string, name: Option<string>, fileName: string, extension: string, imported: Imported,
                   resourceModelId: Option<string>, unique: (set<string>, string) -> string)
      returns (o: Outcome)
      requires Valid() && WellFormed(imported)
      requires forall names, base :: unique(names, base) !in names
      modifies this
      ensures Valid()
      ensures !imported.supported ==> o == Fail(ValueError) && excelFiles == old(excelFiles)
                                      && currentTableId == old(currentTableId)
      ensures imported.supported ==>
                var existing := FileNames(old(excelFiles));
                var base := if name.Some? && name.value != "" then name.value
                            else if fileName != "" then fileName else "table";
                var newName := unique(existing, base);
                var sheets := ImportedTables(newName, extension, imported);
                && o == Pass && currentTableId == id && id in excelFiles.entries
                && newName !in existing
                && excelFiles.entries[id].id == id && excelFiles.entries[id].name == newName
                && excelFiles.entries[id].resourceModelId == resourceModelId
                && excelFiles.entries[id].tables.keys == sheets.keys
                && (forall s :: s in sheets.entries ==>
                      s in excelFiles.entries[id].tables.entries
                      && excelFiles.entries[id].tables.entries[s] == sheets.entries[s].(name := SheetTableName(newName, s)))
                && (forall other :: other in old(excelFiles.entries) && other != id ==>
                      other in excelFiles.entries && excelFiles.entries[other] == old(excelFiles.entries)[other])
      ensures currentSheetName == old(currentSheetName) && rightPanelState == old(rightPanelState)
      ensures zoomLevel == old(zoomLevel) && columnSizeMode == old(columnSizeMode)
    {
      var existing := FileNames(excelFiles);
      var base := if name.Some? && name.value != "" then name.value
                  else if fileName != "" then fileName else "table";
      var newName := unique(existing, base);
      assert newName !in existing;
      var r := FromFile(id, newName, extension, imported, resourceModelId);
      if r.Err? {
        return Fail(r.kind);
      }
      var _ := AddExcelFile(r.value);
      o := Pass;
      assert unique(existing, base) == newName;
    }
  }

  /** The position of the first file from `start` on that knows the table, or `|keys|`. */
  function FirstSheetMatch(keys: seq<string>, tableId: string, sheetOf: (string, string) -> Option<string>, start: nat): (i: nat)
    requires start <= |keys|
    ensures start <= i <= |keys|
    ensures i < |keys| ==> sheetOf(keys[i], tableId).Some?
    ensures forall j :: start <= j < i ==> sheetOf(keys[j], tableId).None?
    decreases |keys| - start
  {
    if start == |keys| || sheetOf(keys[start], tableId).Some? then start
    else FirstSheetMatch(keys, tableId, sheetOf, start + 1)
  }

  /** The loop of `select_table`: the position of the first file that knows the table, or
      `|keys|` when none does. */
  method FindSheet(keys: seq<string>, tableId: string, sheetOf: (string, string) -> Option<string>)
    returns (i: nat)
    ensures i == FirstSheetMatch(keys, tableId, sheetOf, 0)
  {
    i := 0;
    while i < |keys| && sheetOf(keys[i], tableId).None?
      invariant i <= |keys|
      invariant FirstSheetMatch(keys, tableId, sheetOf, i) == FirstSheetMatch(keys, tableId, sheetOf, 0)
    {
      i := i + 1;
    }
  }

  /** A valid dictionary has one key per entry. */
  lemma DistinctKeysCount<V>(d: Dict<V>)
    requires PyDict.Valid(d)
    ensures |d.keys| == |d.entries|
  {
    var keySet := set i | 0 <= i < |d.keys| :: d.keys[i];
    assert keySet == d.entries.Keys;
    DistinctSeqCard(d.keys);
  }

  lemma {:induction false} DistinctSeqCard(s: seq<string>)
    requires forall i, j :: 0 <= i < j < |s| ==> s[i] != s[j]
    ensures |set i | 0 <= i < |s| :: s[i]| == |s|
  {
    if |s| > 0 {
      var init := s[..|s| - 1];
      DistinctSeqCard(init);
      var a := set i | 0 <= i < |init| :: init[i];
      var b := set i | 0 <= i < |s| :: s[i];
      assert b == a + {s[|s| - 1]};
      assert s[|s| - 1] !in a;
    }
  }
}
