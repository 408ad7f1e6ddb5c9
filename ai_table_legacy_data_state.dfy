/** `AiTableDataState` of the older AI table app: an "original" table loaded from a file plus the
    subtables extracted from it, with the grid selection kept in the same state. */
module AiTableLegacyData {
  import opened Wrappers
  import opened PyText
  import opened PyDict
  import opened Seqs
  import opened DataFrameItems
  import opened ExcelFiles
  import opened TableSelection
  import opened AiTableData

  /** `ORIGINAL_TABLE_ID`. */
  const Original: string := "original"
  /** The prefix of the id `set_current_table` gives a transformed table. */
  const TransformedPrefix: string := "transformed_"

  datatype ChatMode = Plot | Transform

  /** What the state needs of a `TableItem`: its name, its sheet names, and the frame it returns
      for a sheet name (a known sheet's own frame, else its default frame). */
  datatype TableItem = TableItem(name: string, sheetNames: seq<string>, sheets: map<string, DataFrame>,
                                 defaultFrame: DataFrame)

  predicate WellFormedItem(item: TableItem)
  {
    && Rectangular(item.defaultFrame)
    && (forall s :: s in item.sheets ==> Rectangular(item.sheets[s]))
  }

  /** Every table held in the dictionary is well formed. */
  predicate AllWellFormed(tables: Dict<TableItem>)
  {
    forall k :: k in tables.entries ==> WellFormedItem(tables.entries[k])
  }

  /** Storing a well-formed table keeps every table well formed. */
  lemma PutWellFormed(tables: Dict<TableItem>, k: string, item: TableItem)
    requires Valid(tables) && AllWellFormed(tables) && WellFormedItem(item)
    ensures AllWellFormed(Put(tables, k, item))
  {
    var r := Put(tables, k, item);
    forall j | j in r.entries
      ensures WellFormedItem(r.entries[j])
    {
      if j != k {
        assert r.entries[j] == tables.entries[j];
      }
    }
  }

  /** `TableItem.get_dataframe`. */
  function ItemFrame(item: TableItem, sheetName: string): (df: DataFrame)
    requires WellFormedItem(item)
    ensures Rectangular(df)
    ensures sheetName in item.sheets ==> df == item.sheets[sheetName]
    ensures sheetName !in item.sheets ==> df == item.defaultFrame
  {
    if sheetName in item.sheets then item.sheets[sheetName] else item.defaultFrame
  }

  /** `TableItem.from_table`: a single frame under the given name. */
  function ItemFromTable(name: string, table: Table): (item: TableItem)
    ensures item.name == name && item.sheets == map[] && item.defaultFrame == table.frame
  {
    TableItem(name, [], map[], table.frame)
  }

  /** Some character before position `i` is not a dot. */
  predicate HasStemBefore(name: string, i: nat)
    requires i <= |name|
  {
    exists j :: 0 <= j < i && name[j] != '.'
  }

  /** `os.path.splitext(name)[0]` for a name without '/': the name up to its last dot, unless
      only dots precede that dot (a hidden file such as ".env" has no extension). */
  function Stem(name: string): (r: string)
    ensures |r| <= |name| && r == name[..|r|]
    ensures '.' !in name ==> r == name
  {
    var i := RFind(name, '.');
    if i.Some? && HasStemBefore(name, i.value) then name[..i.value] else name
  }

  /** The name a file is shown under: the name given, or else its file name without extension. */
  function DisplayName(path: string, name: Option<string>): string
  {
    if name.Some? && name.value != "" then name.value else Stem(BaseName(path))
  }

  /** Splitting off an extension gives back the name it was appended to. */
  lemma StemOfExtension(stem: string, ext: string)
    requires '.' !in ext && HasStemBefore(stem, |stem|)
    ensures Stem(stem + "." + ext) == stem
  {
    var name := stem + "." + ext;
    var i := RFind(name, '.');
    assert name[|stem|] == '.';
    assert i.Some?;
    assert i.value == |stem|;
    var j :| 0 <= j < |stem| && stem[j] != '.';
    assert name[j] != '.';
    assert name[..|stem|] == stem;
  }

  /** The whole state, for saying what an event leaves unchanged. */
  datatype Snapshot = Snapshot(currentSheetName: string, currentFilePath: string, currentFileName: string,
                               rightPanelState: PanelState, currentChatMode: ChatMode,
                               tables: Dict<TableItem>, currentTableId: string,
                               currentSelection: seq<Option<Selection>>, extractDialogOpen: bool,
                               useFirstRowAsHeader: bool)

  class AiTableDataState {
    var currentSheetName: string
    var currentFilePath: string
    var currentFileName: string
    var rightPanelState: PanelState
    var currentChatMode: ChatMode
    /** `_tables`: the original table and the subtables. */
    var tables: Dict<TableItem>
    var currentTableId: string
    var currentSelection: seq<Option<Selection>>
    var extractDialogOpen: bool
    var useFirstRowAsHeader: bool

    function State(): Snapshot
      reads this
    {
      Snapshot(currentSheetName, currentFilePath, currentFileName, rightPanelState, currentChatMode,
               tables, currentTableId, currentSelection, extractDialogOpen, useFirstRowAsHeader)
    }

    predicate Valid()
      reads this
    {
      && PyDict.Valid(tables)
      && AllWellFormed(tables)
    }

    constructor ()
      ensures Valid()
      ensures State() == Snapshot("", "", "", Closed, Plot, Empty(), Original, [], false, false)
    {
      currentSheetName := "";
      currentFilePath := "";
      currentFileName := "";
      rightPanelState := Closed;
      currentChatMode := Plot;
      tables := Empty();
      currentTableId := Original;
      currentSelection := [];
      extractDialogOpen := false;
      useFirstRowAsHeader := false;
    }

    /** `get_current_dataframe_item`. */
    function CurrentItem(): (r: Option<TableItem>)
      reads this
      ensures r.Some? <==> currentTableId in tables.entries
      ensures r.Some? ==> r.value == tables.entries[currentTableId]
    {
      if currentTableId in tables.entries then Some(tables.entries[currentTableId]) else None
    }

    /** `get_current_dataframe`. */
    function CurrentDataframe(): (r: Option<DataFrame>)
      reads this
      requires Valid()
      ensures r.Some? <==> currentTableId in tables.entries
      ensures r.Some? ==> r.value == ItemFrame(tables.entries[currentTableId], currentSheetName)
      ensures r.Some? ==> Rectangular(r.value)
    {
      var item := CurrentItem();
      if item.Some? then Some(ItemFrame(item.value, currentSheetName)) else None
    }

    /** `set_resource`: the file's table becomes the original table, named by the name given or
        else by the file name without its extension, and the current one. */
    method SetResource(path: string, name: Option<string>, loaded: TableItem)
      requires Valid() && WellFormedItem(loaded)
      modifies this
      ensures Valid()
      ensures var fileName := DisplayName(path, name);
              State() == old(State()).(currentFilePath := path, currentFileName := fileName,
                                        tables := Put(old(tables), Original, loaded.(name := fileName)),
                                        currentTableId := Original)
      ensures Original in tables.entries && currentTableId == Original
    {
      var fileName := DisplayName(path, name);
      var item := loaded.(name := fileName);
      assert item.defaultFrame == loaded.defaultFrame && item.sheets == loaded.sheets;
      PutWellFormed(tables, Original, item);
      var newTables := Put(tables, Original, item);
      currentFilePath, currentFileName, tables, currentTableId := path, fileName, newTables, Original;
    }

    /** `switch_sheet`: only a sheet of the current table can be chosen. */
    method SwitchSheet(sheetName: string)
      requires Valid()
      modifies this
      ensures Valid()
      ensures CurrentItem().Some? && sheetName in CurrentItem().value.sheetNames ==>
                State() == old(State()).(currentSheetName := sheetName)
      ensures CurrentItem().None? || sheetName !in CurrentItem().value.sheetNames ==> State() == old(State())
    {
      var item := CurrentItem();
      if item.Some? && sheetName in item.value.sheetNames {
        currentSheetName := sheetName;
      }
    }

    /** `toggle_right_panel_state`. */
    method ToggleRightPanelState(state: PanelState)
      modifies this
      ensures State() == old(State()).(rightPanelState := Toggled(old(rightPanelState), state))
    {
      if rightPanelState == state {
        rightPanelState := Closed;
      } else {
        rightPanelState := state;
      }
    }

    /** `set_chat_mode`. */
    method SetChatMode(mode: ChatMode)
      modifies this
      ensures State() == old(State()).(currentChatMode := mode)
    {
      currentChatMode := mode;
    }

    /** `right_panel_opened`. */
    predicate RightPanelOpened()
      reads this
    {
      rightPanelState != Closed
    }

    /** `get_sheet_names`. */
    function SheetNames(): (names: seq<string>)
      reads this
      ensures CurrentItem().Some? ==> names == CurrentItem().value.sheetNames
      ensures CurrentItem().None? ==> names == []
    {
      var item := CurrentItem();
      if item.Some? then item.value.sheetNames else []
    }

    /** `dataframe_loaded`: a file path is set and the file exists on disk. */
    predicate DataframeLoaded(exists_: string -> bool)
      reads this
    {
      currentFilePath != "" && exists_(currentFilePath)
    }

    /** `nb_rows`. */
    function NbRows(): (n: nat)
      reads this
      requires Valid()
      ensures CurrentDataframe().None? ==> n == 0
      ensures CurrentDataframe().Some? ==> n == RowCount(CurrentDataframe())
    {
      RowCount(CurrentDataframe())
    }

    /** `nb_columns`. */
    function NbColumns(): (n: nat)
      reads this
      requires Valid()
      ensures CurrentDataframe().None? ==> n == 0
      ensures CurrentDataframe().Some? ==> n == ColumnCount(CurrentDataframe())
    {
      ColumnCount(CurrentDataframe())
    }

    /** `ag_grid_column_defs`: one sortable, filterable, resizable column per label. */
    function ColumnFields(): (fields: seq<string>)
      reads this
      requires Valid()
      ensures |fields| == NbColumns()
      ensures |fields| > 0 ==> fields == CurrentDataframe().value.columns
    {
      var df := CurrentDataframe();
      if df.None? || IsEmpty(df.value) then [] else df.value.columns
    }

    /** `ag_grid_row_data`: no row for an absent or empty frame, the `ValueError` of a repeated
        label, or one dict per row of the current frame. */
    function AgGridRowData(): (r: Result<seq<map<string, string>>>)
      reads this
      requires Valid()
      ensures var df := CurrentDataframe();
              && (df.None? || IsEmpty(df.value) ==> r == Ok([]))
              && (df.Some? && !IsEmpty(df.value) ==>
                    && (r.Err? <==> !Distinct(df.value.columns))
                    && (r.Err? ==> r.kind == ValueError)
                    && (r.Ok? ==>
                          && |r.value| == NbRows()
                          && forall i, j :: 0 <= i < |r.value| && 0 <= j < |df.value.columns| ==>
                               df.value.columns[j] in r.value[i] && r.value[i][df.value.columns[j]] == CellText(df.value.rows[i][j])))
    {
      RowData(CurrentDataframe())
    }

    /** `has_multiple_sheets`: what the current `TableItem` answers, false without one. */
    predicate HasMultipleSheets(itemHasMultipleSheets: TableItem -> bool)
      reads this
    {
      var item := CurrentItem();
      item.Some? && itemHasMultipleSheets(item.value)
    }

    /** `on_cell_selection_changed`. */
    method OnCellSelectionChanged(selected: seq<Option<Selection>>)
      modifies this
      ensures State() == old(State()).(currentSelection := selected)
    {
      currentSelection := selected;
    }

    /** `open_extract_dialog`. */
    method OpenExtractDialog()
      modifies this
      ensures State() == old(State()).(extractDialogOpen := true)
    {
      extractDialogOpen := true;
    }

    /** `close_extract_dialog`: closing also clears the header option. */
    method CloseExtractDialog()
      modifies this
      ensures State() == old(State()).(extractDialogOpen := false, useFirstRowAsHeader := false)
    {
      extractDialogOpen := false;
      useFirstRowAsHeader := false;
    }

    /** `toggle_first_row_as_header`. */
    method ToggleFirstRowAsHeader()
      modifies this
      ensures State() == old(State()).(useFirstRowAsHeader := !old(useFirstRowAsHeader))
    {
      useFirstRowAsHeader := !useFirstRowAsHeader;
    }

    /** The name an extracted subtable is named after: the file name for the original table,
        the current subtable's name, or "table". */
    function SourceName(): (name: string)
      reads this
      ensures currentTableId == Original ==> name == currentFileName
      ensures currentTableId != Original && currentTableId in tables.entries ==>
                name == tables.entries[currentTableId].name
      ensures currentTableId != Original && currentTableId !in tables.entries ==> name == "table"
    {
      if currentTableId == Original then currentFileName
      else if currentTableId in tables.entries then tables.entries[currentTableId].name
      else "table"
    }

    /** The frame this state extracts: rows by label with `loc` when columns are named, by position
        otherwise, and never swapped. */
    function LegacySubtable(): (r: Result<Option<Table>>)
      reads this
      requires Valid() && |currentSelection| == 1
      ensures r == Ok(None) <==> CurrentDataframe().None? || IsEmpty(CurrentDataframe().value)
      ensures r.Err? ==> CanExtract(currentSelection) ==> ExtractByLabel(CurrentDataframe().value,
                                                                       currentSelection[0].value, useFirstRowAsHeader).Err?
      ensures r.Ok? && r.value.Some? ==>
                && CanExtract(currentSelection)
                && ExtractByLabel(CurrentDataframe().value, currentSelection[0].value, useFirstRowAsHeader)
                   == Ok(r.value.value.frame)
                && r.value.value.name == SourceName() + "_subtable"
    {
      var source := CurrentDataframe();
      if source.None? || IsEmpty(source.value) then Ok(None)
      else if currentSelection[0].None? then Err(AttributeError)
      else
        var frame :- ExtractByLabel(source.value, currentSelection[0].value, useFirstRowAsHeader);
        Ok(Some(Table(SourceName() + "_subtable", frame)))
    }

    /** `extract_selection`: with exactly one selection over a non-empty current frame, the
        extracted frame becomes a new current subtable and the dialog closes. */
    method ExtractSelection(uuid: string) returns (o: Outcome)
      requires Valid()
      modifies this
      ensures Valid()
      ensures |old(currentSelection)| != 1 ==> o == Pass && State() == old(State())
      ensures |old(currentSelection)| == 1 ==>
                var t := old(LegacySubtable());
                && (t.Err? ==> o == Fail(t.kind) && State() == old(State()))
                && (t == Ok(None) ==> o == Pass && State() == old(State()))
                && (t.Ok? && t.value.Some? ==>
                      && o == Pass
                      && State() == old(State()).(tables := Put(old(tables), TransformedPrefix + uuid,
                                                                ItemFromTable(t.value.value.name, t.value.value)),
                                                  currentTableId := TransformedPrefix + uuid,
                                                  extractDialogOpen := false, useFirstRowAsHeader := false))
    {
      if |currentSelection| != 1 {
        return Pass;
      }
      var t := LegacySubtable();
      if t.Err? {
        return Fail(t.kind);
      }
      if t.value.None? {
        return Pass;
      }
      SetCurrentTable(uuid, t.value.value, t.value.value.name);
      CloseExtractDialog();
      o := Pass;
    }

    /** `switch_to_original`. */
    method SwitchToOriginal()
      modifies this
      ensures State() == old(State()).(currentTableId := Original)
    {
      currentTableId := Original;
    }

    /** `switch_to_subtable` and `switch_table`: only the original or a known id is accepted. */
    method SwitchTable(tableId: string)
      modifies this
      ensures tableId == Original || tableId in old(tables.entries) ==> State() == old(State()).(currentTableId := tableId)
      ensures !(tableId == Original || tableId in old(tables.entries)) ==> State() == old(State())
    {
      if tableId == Original || tableId in tables.entries {
        currentTableId := tableId;
      }
    }

    /** `remove_current_table`: a current subtable is removed and the original becomes current;
        the original itself is never removed. */
    method RemoveCurrentTable()
      requires Valid()
      modifies this
      ensures Valid()
      ensures old(currentTableId) != Original && old(currentTableId) in old(tables.entries) ==>
                State() == old(State()).(tables := Remove(old(tables), old(currentTableId)), currentTableId := Original)
      ensures old(currentTableId) == Original || old(currentTableId) !in old(tables.entries) ==> State() == old(State())
      ensures Original in old(tables.entries) ==>
                Original in tables.entries && tables.entries[Original] == old(tables.entries)[Original]
    {
      if currentTableId == Original {
        return;
      }
      if currentTableId in tables.entries {
        tables := Remove(tables, currentTableId);
        currentTableId := Original;
      }
    }

    /** `can_extract`. */
    predicate CanExtractSelection()
      reads this
    {
      CanExtract(currentSelection)
    }

    /** `selection_info`: the summary of the range as selected, without the swap. */
    function Info(): (r: Result<string>)
      reads this
      requires Valid()
      ensures r == SelectionInfo(currentSelection, false, NbColumns())
      ensures CanExtract(currentSelection) ==>
                r == Ok(InfoText(EndRow(currentSelection[0].value) - StartRow(currentSelection[0].value) + 1,
                                 if |Columns(currentSelection[0].value)| > 0 then |Columns(currentSelection[0].value)|
                                 else NbColumns()))
    {
      SelectionInfo(currentSelection, false, NbColumns())
    }

    /** `current_table_name`. */
    function CurrentTableName(): (name: string)
      reads this
      ensures currentTableId == Original ==> name == currentFileName
      ensures currentTableId != Original && currentTableId in tables.entries ==> name == tables.entries[currentTableId].name
      ensures currentTableId != Original && currentTableId !in tables.entries ==> name == "Unknown Table"
    {
      if currentTableId == Original then currentFileName
      else if currentTableId in tables.entries then tables.entries[currentTableId].name
      else "Unknown Table"
    }

    /** `subtables_list`: id and name of every table but the original, in insertion order. */
    function SubtablesList(): (r: seq<(string, string)>)
      reads this
      requires Valid()
      ensures forall k :: 0 <= k < |r| ==>
                r[k].0 != Original && r[k].0 in tables.entries && r[k].1 == tables.entries[r[k].0].name
      ensures forall id :: id in tables.entries && id != Original ==> exists k :: 0 <= k < |r| && r[k].0 == id
    {
      var ids := Seqs.Filter(tables.keys, PyDict.Other(Original));
      forall id | id in tables.entries && id != Original
        ensures id in ids
      {
        Seqs.FilterMembers(tables.keys, PyDict.Other(Original), id);
      }
      assert forall k :: 0 <= k < |ids| ==> ids[k] in ids;
      forall k | 0 <= k < |ids|
        ensures ids[k] != Original && ids[k] in tables.entries
      {
        Seqs.FilterMembers(tables.keys, PyDict.Other(Original), ids[k]);
      }
      var r := seq(|ids|, k requires 0 <= k < |ids| && ids[k] in tables.entries reads this =>
                     (ids[k], tables.entries[ids[k]].name));
      forall id | id in ids
        ensures exists k :: 0 <= k < |r| && r[k].0 == id
      {
        var k :| 0 <= k < |ids| && ids[k] == id;
        assert r[k].0 == id;
      }
      r
    }

    /** `set_current_table`: the table, under the given name, becomes a new current table whose id
        is "transformed_" followed by a fresh uuid. */
    method SetCurrentTable(uuid: string, table: Table, name: string)
      requires Valid() && Rectangular(table.frame)
      modifies this
      ensures Valid()
      ensures State() == old(State()).(tables := Put(old(tables), TransformedPrefix + uuid, ItemFromTable(name, table)),
                                       currentTableId := TransformedPrefix + uuid)
      ensures currentTableId != Original && currentTableId in tables.entries
    {
      tables := Put(tables, TransformedPrefix + uuid, ItemFromTable(name, table));
      currentTableId := TransformedPrefix + uuid;
      assert currentTableId[0] == 't';
    }
  }
}
