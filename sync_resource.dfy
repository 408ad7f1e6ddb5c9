/** The "sync one resource" search box of the RAG configuration page: the user types a name,
    moves through the matching resources with the arrow keys, picks one with Enter or a click,
    and sees whether the chosen resource is synced and under which dataset, document and date.
    The `reflex/rag_chat` version wraps the chosen resource in a `RagResource`, the
    `components` version in a `DatahubRagResource`; the `kind` of the state says which. */
module SyncResource {
  import opened Wrappers
  import opened TagStore
  import opened RagResource

  /** A resource found by the name search: its id, name, file and tags. */
  datatype Listed = Listed(id: string, name: string, content: Content, tags: seq<Tag>)

  /** `ResourceDTO`. */
  datatype Info = Info(id: string, name: string)

  /** Python's `s[i]`: negative indices count from the end; anything else out of range is an
      IndexError. */
  function PyIndex<T>(s: seq<T>, i: int): (r: Result<T>)
    ensures r.Ok? <==> -|s| <= i < |s|
    ensures 0 <= i < |s| ==> r == Ok(s[i])
    ensures -|s| <= i < 0 ==> r == Ok(s[|s| + i])
    ensures r.Err? ==> r.kind == IndexError
  {
    if 0 <= i < |s| then Ok(s[i]) else if -|s| <= i < 0 then Ok(s[|s| + i]) else Err(IndexError)
  }

  /** `_update_hover_index`: the moved index, wrapped to the last entry below 0 and to the
      first at or beyond the end. On an empty list moving up gives -1. */
  function Wrap(index: int, shift: int, count: nat): (r: int)
    ensures index + shift < 0 ==> r == count - 1
    ensures 0 <= index + shift < count ==> r == index + shift
    ensures 0 <= index + shift && count <= index + shift ==> r == 0
  {
    var moved := index + shift;
    if moved < 0 then count - 1 else if moved >= count then 0 else moved
  }

  /** Moving down and then up, or up and then down, comes back to the same entry. */
  lemma {:induction false} WrapRoundTrip(index: int, count: nat)
    requires 0 <= index < count
    ensures Wrap(Wrap(index, 1, count), -1, count) == index
    ensures Wrap(Wrap(index, -1, count), 1, count) == index
  {
    if index == count - 1 {
      assert Wrap(index, 1, count) == 0;
    } else {
      assert Wrap(index, 1, count) == index + 1;
    }
    if index == 0 {
      assert Wrap(index, -1, count) == count - 1;
    } else {
      assert Wrap(index, -1, count) == index - 1;
    }
  }

  /** The position of the first resource with the given id (`next(...)` over the list), or
      the length of the list when there is none. */
  function FirstWithId(resources: seq<Listed>, id: string): (i: nat)
    ensures i <= |resources|
    ensures i < |resources| ==> resources[i].id == id
    ensures forall j :: 0 <= j < i ==> resources[j].id != id
    decreases |resources|
  {
    if |resources| == 0 then 0
    else if resources[0].id == id then 0
    else 1 + FirstWithId(resources[1..], id)
  }

  /** With distinct ids, looking up the id of an entry finds that entry. */
  lemma FirstWithIdOfEntry(resources: seq<Listed>, h: nat)
    requires h < |resources|
    requires forall a, b :: 0 <= a < b < |resources| ==> resources[a].id != resources[b].id
    ensures FirstWithId(resources, resources[h].id) == h
  {
  }

  class SyncResourceState {
    /** `LabResource` for `RagResource`, `DatahubResource` for `DatahubRagResource`. */
    const kind: ResourceKind
    var text: string
    var popoverOpened: bool
    var hoverIndex: int
    var resources: seq<Listed>
    var selected: Option<Listed>

    /** The hover index designates an entry of a non-empty list; on an empty list it is 0,
        or -1 after moving up. */
    predicate Valid()
      reads this
    {
      if |resources| == 0 then hoverIndex == 0 || hoverIndex == -1 else 0 <= hoverIndex < |resources|
    }

    constructor (kind: ResourceKind)
      ensures this.kind == kind
      ensures text == "" && !popoverOpened && hoverIndex == 0 && resources == [] && selected.None?
      ensures Valid()
    {
      this.kind := kind;
      text := "";
      popoverOpened := false;
      hoverIndex := 0;
      resources := [];
      selected := None;
    }

    /** `set_text`: typing forgets the selection, resets the hover index and replaces the list
        with the resources the name search returns. */
    method SetText(newText: string, found: seq<Listed>)
      modifies this
      ensures text == newText && selected.None? && hoverIndex == 0 && resources == found
      ensures popoverOpened == old(popoverOpened)
      ensures Valid()
    {
      text := newText;
      selected := None;
      hoverIndex := 0;
      resources := found;
    }

    method OnInputFocus()
      modifies this
      ensures popoverOpened
      ensures text == old(text) && hoverIndex == old(hoverIndex) && resources == old(resources) && selected == old(selected)
    {
      popoverOpened := true;
    }

    method UpdateHoverIndex(shift: int)
      requires Valid()
      requires shift == 1 || shift == -1
      modifies this
      ensures hoverIndex == Wrap(old(hoverIndex), shift, |resources|)
      ensures Valid()
      ensures text == old(text) && popoverOpened == old(popoverOpened) && resources == old(resources) && selected == old(selected)
    {
      var newIndex := hoverIndex + shift;
      if newIndex < 0 {
        newIndex := |resources| - 1;
      } else if newIndex >= |resources| {
        newIndex := 0;
      }
      hoverIndex := newIndex;
    }

    /** `select_resource`: the first listed resource with that id becomes the selection, the
        popover closes and the text shows its name; an id that is not listed changes nothing. */
    method SelectResource(id: string)
      modifies this
      ensures var i := FirstWithId(old(resources), id);
              && (i < |resources| ==> selected == Some(resources[i]) && !popoverOpened && text == resources[i].name)
              && (i == |resources| ==> selected == old(selected) && popoverOpened == old(popoverOpened) && text == old(text))
      ensures resources == old(resources) && hoverIndex == old(hoverIndex)
    {
      var i := FirstWithId(resources, id);
      if i < |resources| {
        selected := Some(resources[i]);
        popoverOpened := false;
        text := resources[i].name;
      }
    }

    /** `on_input_key_down` as written: Enter reads the hovered resource, which on an empty
        list is an IndexError, and then calls `select_resource`. In the `reflex` copy
        (`LabResource`) that handler is an asynchronous background event, and calling it only
        creates a coroutine that is never awaited, so nothing is selected; the `components`
        copy selects the resource. The arrows move the hover index; any other key does
        nothing. */
    method OnInputKeyDown(event: string) returns (r: Outcome)
      requires Valid()
      modifies this
      ensures Valid() && resources == old(resources) && hoverIndex == (if event == "Enter" then old(hoverIndex) else hoverIndex)
      ensures event == "Enter" ==>
                && (r.Fail? <==> |resources| == 0)
                && (r.Fail? ==> r.kind == IndexError && selected == old(selected) && text == old(text))
                && (r.Pass? && kind == LabResource ==>
                      selected == old(selected) && text == old(text) && popoverOpened == old(popoverOpened))
                && (r.Pass? && kind != LabResource ==>
                      var i := FirstWithId(resources, resources[old(hoverIndex)].id);
                      selected == Some(resources[i]) && text == resources[i].name && !popoverOpened)
      ensures event == "ArrowDown" ==> r == Pass && hoverIndex == Wrap(old(hoverIndex), 1, |resources|)
      ensures event == "ArrowUp" ==> r == Pass && hoverIndex == Wrap(old(hoverIndex), -1, |resources|)
      ensures event != "Enter" ==> selected == old(selected) && text == old(text)
      ensures event != "Enter" && event != "ArrowDown" && event != "ArrowUp" ==> r == Pass && hoverIndex == old(hoverIndex)
    {
      r := Pass;
      if event == "Enter" {
        var hovered := PyIndex(resources, hoverIndex);
        if hovered.Err? {
          return Fail(hovered.kind);
        }
        if kind != LabResource {
          SelectResource(hovered.value.id);
        }
      } else if event == "ArrowDown" {
        UpdateHoverIndex(1);
      } else if event == "ArrowUp" {
        UpdateHoverIndex(-1);
      }
    }

    /** `on_input_key_down` as intended in both copies: Enter selects the hovered resource,
        which on an empty list is an IndexError; the arrows move the hover index; any other
        key does nothing. */
    method OnInputKeyDownIntended(event: string) returns (r: Outcome)
      requires Valid()
      modifies this
      ensures Valid() && resources == old(resources)
      ensures event == "Enter" ==>
                && (r.Fail? <==> |resources| == 0)
                && (r.Fail? ==> r.kind == IndexError && selected == old(selected) && text == old(text))
                && (r.Pass? ==> var i := FirstWithId(resources, resources[old(hoverIndex)].id);
                                selected == Some(resources[i]) && text == resources[i].name && !popoverOpened)
      ensures event == "ArrowDown" ==> r == Pass && hoverIndex == Wrap(old(hoverIndex), 1, |resources|)
      ensures event == "ArrowUp" ==> r == Pass && hoverIndex == Wrap(old(hoverIndex), -1, |resources|)
      ensures event != "Enter" ==> selected == old(selected) && text == old(text)
      ensures event != "Enter" && event != "ArrowDown" && event != "ArrowUp" ==> r == Pass && hoverIndex == old(hoverIndex)
    {
      r := Pass;
      if event == "Enter" {
        var hovered := PyIndex(resources, hoverIndex);
        if hovered.Err? {
          return Fail(hovered.kind);
        }
        SelectResource(hovered.value.id);
      } else if event == "ArrowDown" {
        UpdateHoverIndex(1);
      } else if event == "ArrowUp" {
        UpdateHoverIndex(-1);
      }
    }

    function NoResourcesFound(): (r: bool)
      reads this
      ensures r <==> |resources| == 0
    {
      |resources| == 0
    }

    function SelectedResourceInfo(): (r: Option<Info>)
      reads this
      ensures r.None? <==> selected.None?
      ensures r.Some? ==> r.value.id == selected.value.id && r.value.name == selected.value.name
    {
      if selected.None? then None else Some(Info(selected.value.id, selected.value.name))
    }

    /** `is_selected_resource_compatible`: false without a selection; a malformed JSON file
        raises. */
    function IsSelectedCompatible(limits: Limits): (r: Result<bool>)
      reads this
      ensures selected.None? ==> r == Ok(false)
      ensures selected.Some? ==> r == IsCompatible(limits, selected.value.content)
    {
      if selected.None? then Ok(false) else IsCompatible(limits, selected.value.content)
    }

    predicate IsSelectedSynced()
      reads this
    {
      selected.Some? && IsSynced(KindKeys(kind), selected.value.tags)
    }

    /** The dataset id shown for the selection: `get_dataset_base_id` on a `RagResource`,
        `get_dataset_id` on a `DatahubRagResource`, and "" when nothing synced is selected
        or the lookup raises. */
    function SelectedDatasetId(): (r: string)
      reads this
      ensures !IsSelectedSynced() ==> r == ""
      ensures r != "" ==> Tag(KindKeys(kind).dataset, r) in selected.value.tags
      ensures kind != DatahubRagFlowResource && IsSelectedSynced() && HasKey(selected.value.tags, KindKeys(kind).dataset) ==>
                Some(r) == FirstValue(selected.value.tags, KindKeys(kind).dataset)
    {
      if !IsSelectedSynced() then ""
      else
        var id := if kind == LabResource then DatasetBaseId(kind, selected.value.tags)
                  else DatasetId(KindKeys(kind), selected.value.tags);
        if id.Ok? then id.value else ""
    }

    /** The document id shown for the selection: the synced resource's document id, else "".
        `get_and_check_document_id` cannot raise on a synced resource, so the `except`
        branch of the source never applies. */
    function SelectedDocumentId(): (r: string)
      reads this
      ensures !IsSelectedSynced() ==> r == ""
      ensures IsSelectedSynced() ==> Some(r) == DocumentId(KindKeys(kind), selected.value.tags)
    {
      if !IsSelectedSynced() then ""
      else
        CheckDocumentId(KindKeys(kind), selected.value.tags).value
    }

    /** The sync date shown for the selection, written by `format` (`strftime`): "" when
        nothing synced is selected, when there is no sync date or when it is not a number. */
    function SelectedSyncDate(format: int -> string): (r: string)
      reads this
      ensures !IsSelectedSynced() ==> r == ""
      ensures IsSelectedSynced() && CheckSyncDate(KindKeys(kind), selected.value.tags).Ok? ==>
                r == format(CheckSyncDate(KindKeys(kind), selected.value.tags).value)
      ensures IsSelectedSynced() && !HasKey(selected.value.tags, KindKeys(kind).sync) ==> r == ""
    {
      if !IsSelectedSynced() then ""
      else
        var date := CheckSyncDate(KindKeys(kind), selected.value.tags);
        if date.Ok? then format(date.value) else ""
    }
  }
}
