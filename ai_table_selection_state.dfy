/** `AiTableSelectionState` of the current AI table app: the grid's range selection, the extract
    dialog, and the extraction of a selection into a new table. */
module AiTableSelection {
  import opened Wrappers
  import opened DataFrameItems
  import opened ExcelFiles
  import opened TableSelection
  import opened AiTableData

  /** The name of the file a selection is extracted from, "table" without a current file. */
  function SourceName(data: AiTableDataState): (name: string)
    reads data
  {
    var item := data.CurrentItem();
    if item.Some? then item.value.name else "table"
  }

  /** What `extract_selection` adds once it has a single selection: nothing for a missing or
      empty source frame; a null selection fails on `.get`; otherwise the extracted frame as a
      table named after the source. */
  function Subtable(source: Option<DataFrame>, sourceName: string, sel: Option<Selection>,
                    useFirstRowAsHeader: bool): (r: Result<Option<Table>>)
    requires source.Some? ==> Rectangular(source.value)
    ensures r == Ok(None) <==> source.None? || IsEmpty(source.value)
    ensures r.Err? ==> source.Some? && !IsEmpty(source.value)
                       && (sel.None? ==> r == Err(AttributeError))
                       && (sel.Some? ==> r == Err(KeyError) && Extract(source.value, sel.value, useFirstRowAsHeader).Err?)
    ensures r.Ok? && r.value.Some? ==>
              && source.Some? && sel.Some?
              && Extract(source.value, sel.value, useFirstRowAsHeader) == Ok(r.value.value.frame)
              && r.value.value.name == sourceName + "_subtable"
              && Rectangular(r.value.value.frame)
  {
    if source.None? || IsEmpty(source.value) then Ok(None)
    else if sel.None? then Err(AttributeError)
    else
      var frame :- Extract(source.value, sel.value, useFirstRowAsHeader);
      Ok(Some(Table(sourceName + "_subtable", frame)))
  }

  class AiTableSelectionState {
    /** `current_selection`: the grid's selected ranges, each possibly null. */
    var currentSelection: seq<Option<Selection>>
    var extractDialogOpen: bool
    var useFirstRowAsHeader: bool

    constructor ()
      ensures currentSelection == [] && !extractDialogOpen && !useFirstRowAsHeader
    {
      currentSelection := [];
      extractDialogOpen := false;
      useFirstRowAsHeader := false;
    }

    /** `on_cell_selection_changed`. */
    method OnCellSelectionChanged(selected: seq<Option<Selection>>)
      modifies this
      ensures currentSelection == selected
      ensures extractDialogOpen == old(extractDialogOpen) && useFirstRowAsHeader == old(useFirstRowAsHeader)
    {
      currentSelection := selected;
    }

    /** `open_extract_dialog`. */
    method OpenExtractDialog()
      modifies this
      ensures extractDialogOpen
      ensures currentSelection == old(currentSelection) && useFirstRowAsHeader == old(useFirstRowAsHeader)
    {
      extractDialogOpen := true;
    }

    /** `close_extract_dialog`: closing also clears the header option. */
    method CloseExtractDialog()
      modifies this
      ensures !extractDialogOpen && !useFirstRowAsHeader
      ensures currentSelection == old(currentSelection)
    {
      extractDialogOpen := false;
      useFirstRowAsHeader := false;
    }

    /** `toggle_first_row_as_header`. */
    method ToggleFirstRowAsHeader()
      modifies this
      ensures useFirstRowAsHeader == !old(useFirstRowAsHeader)
      ensures currentSelection == old(currentSelection) && extractDialogOpen == old(extractDialogOpen)
    {
      useFirstRowAsHeader := !useFirstRowAsHeader;
    }

    /** `can_extract`. */
    predicate CanExtractSelection()
      reads this
    {
      CanExtract(currentSelection)
    }

    /** `selection_info`: the summary of the swapped range; the column count of the current
        frame is read only when the selection names no column. */
    function Info(data: AiTableDataState): (r: Result<string>)
      reads this, data, data.excelFiles.entries.Values
      requires data.Valid()
      ensures data.NbColumns().Ok? ==> r == SelectionInfo(currentSelection, true, data.NbColumns().value)
      ensures !CanExtract(currentSelection) || |Columns(currentSelection[0].value)| > 0 ==>
                r == SelectionInfo(currentSelection, true, 0)
      ensures CanExtract(currentSelection) && |Columns(currentSelection[0].value)| == 0 && data.NbColumns().Err? ==>
                r == Err(data.NbColumns().kind)
    {
      if !CanExtract(currentSelection) || |Columns(currentSelection[0].value)| > 0 then
        SelectionInfo(currentSelection, true, 0)
      else
        var n :- data.NbColumns();
        SelectionInfo(currentSelection, true, n)
    }

    /** `extract_selection` as written hands the new table to the data state's `add_table`, which
        fails with a `TypeError`: an extraction that gets that far fails, adds nothing and leaves
        the dialog open. */
    method ExtractSelectionAsWritten(data: AiTableDataState) returns (o: Outcome)
      requires data.Valid()
      modifies this, data
      ensures data.Valid()
      ensures |old(currentSelection)| != 1 ==> o == Pass
      ensures |old(currentSelection)| == 1 ==>
                var src := old(data.CurrentDataframe());
                && (src.Err? ==> o == Fail(src.kind))
                && (src.Ok? ==>
                      var t := Subtable(src.value, old(SourceName(data)), old(currentSelection[0]), old(useFirstRowAsHeader));
                      && (t.Err? ==> o == Fail(t.kind))
                      && (t == Ok(None) ==> o == Pass)
                      && (t.Ok? && t.value.Some? ==> o == Fail(TypeError)))
      ensures data.excelFiles == old(data.excelFiles) && data.currentTableId == old(data.currentTableId)
      ensures currentSelection == old(currentSelection) && extractDialogOpen == old(extractDialogOpen)
      ensures useFirstRowAsHeader == old(useFirstRowAsHeader)
    {
      if |currentSelection| != 1 {
        return Pass;
      }
      var src := data.CurrentDataframe();
      if src.Err? {
        return Fail(src.kind);
      }
      var t := Subtable(src.value, SourceName(data), currentSelection[0], useFirstRowAsHeader);
      if t.Err? {
        return Fail(t.kind);
      }
      if t.value.None? {
        return Pass;
      }
      var r := data.AddTableAsWritten(t.value.value);
      o := Fail(r.kind);
    }

    /** `extract_selection` with the new table added under a fresh id: it becomes the single sheet
        of a new current file, and the dialog closes. */
    method ExtractSelection(data: AiTableDataState, newId: string) returns (o: Outcome)
      requires data.Valid()
      modifies this, data
      ensures data.Valid()
      ensures |old(currentSelection)| != 1 ==>
                o == Pass && data.excelFiles == old(data.excelFiles) && extractDialogOpen == old(extractDialogOpen)
      ensures |old(currentSelection)| == 1 ==>
                var src := old(data.CurrentDataframe());
                && (src.Err? ==> o == Fail(src.kind) && data.excelFiles == old(data.excelFiles))
                && (src.Ok? ==>
                      var t := Subtable(src.value, old(SourceName(data)), old(currentSelection[0]), old(useFirstRowAsHeader));
                      && (t.Err? ==> o == Fail(t.kind) && data.excelFiles == old(data.excelFiles))
                      && (t == Ok(None) ==> o == Pass && data.excelFiles == old(data.excelFiles))
                      && (t.Ok? && t.value.Some? ==>
                            && o == Pass && data.currentTableId == newId && newId in data.excelFiles.entries
                            && data.excelFiles.entries[newId].tables.entries == map[t.value.value.name := t.value.value]
                            && !extractDialogOpen && !useFirstRowAsHeader))
      ensures o.Fail? || !extractDialogOpen || extractDialogOpen == old(extractDialogOpen)
      ensures currentSelection == old(currentSelection)
    {
      if |currentSelection| != 1 {
        return Pass;
      }
      var src := data.CurrentDataframe();
      if src.Err? {
        return Fail(src.kind);
      }
      var t := Subtable(src.value, SourceName(data), currentSelection[0], useFirstRowAsHeader);
      if t.Err? {
        return Fail(t.kind);
      }
      if t.value.None? {
        return Pass;
      }
      var _ := data.AddTable(newId, t.value.value);
      CloseExtractDialog();
      o := Pass;
    }
  }
}
