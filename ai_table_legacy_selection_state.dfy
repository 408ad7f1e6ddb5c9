/** `AiTableSelectionState` of the older AI table app: the grid selection and extract dialog,
    working against the older data state. */
module AiTableLegacySelection {
  import opened Wrappers
  import opened DataFrameItems
  import opened ExcelFiles
  import opened TableSelection
  import opened AiTableSelection
  import opened AiTableLegacyData

  /** The name of the table a selection is extracted from, "table" without a current table. */
  function ItemName(data: AiTableLegacyData.AiTableDataState): (name: string)
    reads data
    ensures data.CurrentItem().Some? ==> name == data.CurrentItem().value.name
    ensures data.CurrentItem().None? ==> name == "table"
  {
    var item := data.CurrentItem();
    if item.Some? then item.value.name else "table"
  }

  class AiTableSelectionState {
    var currentSelection: seq<Option<Selection>>
    var extractDialogOpen: bool
    var useFirstRowAsHeader: bool

    constructor ()
      ensures currentSelection == [] && !extractDialogOpen && !useFirstRowAsHeader
    {
      currentSelection := [];
      extractDialogOpen := false;
      useFirstRowAsHeader := false;
    }

    /** `on_cell_selection_changed`. */
    method OnCellSelectionChanged(selected: seq<Option<Selection>>)
      modifies this
      ensures currentSelection == selected
      ensures extractDialogOpen == old(extractDialogOpen) && useFirstRowAsHeader == old(useFirstRowAsHeader)
    {
      currentSelection := selected;
    }

    /** `open_extract_dialog`. */
    method OpenExtractDialog()
      modifies this
      ensures extractDialogOpen
      ensures currentSelection == old(currentSelection) && useFirstRowAsHeader == old(useFirstRowAsHeader)
    {
      extractDialogOpen := true;
    }

    /** `close_extract_dialog`: closing also clears the header option. */
    method CloseExtractDialog()
      modifies this
      ensures !extractDialogOpen && !useFirstRowAsHeader
      ensures currentSelection == old(currentSelection)
    {
      extractDialogOpen := false;
      useFirstRowAsHeader := false;
    }

    /** `toggle_first_row_as_header`. */
    method ToggleFirstRowAsHeader()
      modifies this
      ensures useFirstRowAsHeader == !old(useFirstRowAsHeader)
      ensures currentSelection == old(currentSelection) && extractDialogOpen == old(extractDialogOpen)
    {
      useFirstRowAsHeader := !useFirstRowAsHeader;
    }

    /** `can_extract`. */
    predicate CanExtractSelection()
      reads this
    {
      CanExtract(currentSelection)
    }

    /** `selection_info`: the summary of the swapped range. */
    function Info(data: AiTableLegacyData.AiTableDataState): (r: Result<string>)
      reads this, data
      requires data.Valid()
      ensures r == SelectionInfo(currentSelection, true, data.NbColumns())
    {
      SelectionInfo(currentSelection, true, data.NbColumns())
    }

    /** `extract_selection` as written calls `add_table` on the older data state, which has no
        such method: an extraction that gets that far fails with an `AttributeError`, adds
        nothing and leaves the dialog open. */
    method ExtractSelectionAsWritten(data: AiTableLegacyData.AiTableDataState) returns (o: Outcome)
      requires data.Valid()
      modifies this
      ensures |old(currentSelection)| != 1 ==> o == Pass
      ensures |old(currentSelection)| == 1 ==>
                var t := Subtable(data.CurrentDataframe(), ItemName(data), old(currentSelection[0]),
                                  old(useFirstRowAsHeader));
                && (t.Err? ==> o == Fail(t.kind))
                && (t == Ok(None) ==> o == Pass)
                && (t.Ok? && t.value.Some? ==> o == Fail(AttributeError))
      ensures currentSelection == old(currentSelection) && extractDialogOpen == old(extractDialogOpen)
      ensures useFirstRowAsHeader == old(useFirstRowAsHeader)
    {
      if |currentSelection| != 1 {
        return Pass;
      }
      var t := Subtable(data.CurrentDataframe(), ItemName(data), currentSelection[0], useFirstRowAsHeader);
      if t.Err? {
        return Fail(t.kind);
      }
      if t.value.None? {
        return Pass;
      }
      o := Fail(AttributeError);
    }

    /** `extract_selection` with the new table handed to the data state's `set_current_table`:
        it becomes a new current subtable and the dialog closes. */
    method ExtractSelection(data: AiTableLegacyData.AiTableDataState, uuid: string) returns (o: Outcome)
      requires data.Valid()
      modifies this, data
      ensures data.Valid()
      ensures |old(currentSelection)| != 1 ==> o == Pass && data.State() == old(data.State())
      ensures |old(currentSelection)| == 1 ==>
                var t := old(Subtable(data.CurrentDataframe(), ItemName(data), currentSelection[0], useFirstRowAsHeader));
                && (t.Err? ==> o == Fail(t.kind) && data.State() == old(data.State()))
                && (t == Ok(None) ==> o == Pass && data.State() == old(data.State()))
                && (t.Ok? && t.value.Some? ==>
                      && o == Pass && !extractDialogOpen && !useFirstRowAsHeader
                      && data.State() == old(data.State()).(
                           tables := PyDict.Put(old(data.tables), TransformedPrefix + uuid,
                                                ItemFromTable(t.value.value.name, t.value.value)),
                           currentTableId := TransformedPrefix + uuid))
      ensures currentSelection == old(currentSelection)
    {
      if |currentSelection| != 1 {
        return Pass;
      }
      var t := Subtable(data.CurrentDataframe(), ItemName(data), currentSelection[0], useFirstRowAsHeader);
      if t.Err? {
        return Fail(t.kind);
      }
      if t.value.None? {
        return Pass;
      }
      data.SetCurrentTable(uuid, t.value.value, t.value.value.name);
      CloseExtractDialog();
      o := Pass;
    }
  }
}
