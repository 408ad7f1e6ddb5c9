/** The link between a data-lab resource and a RAG platform, kept as three tags on the
    resource: the platform's document id, its dataset id and the sync time (milliseconds since
    the epoch, written with `str`). `RagResource`, `DatahubRagResource` and
    `DatahubRagFlowResource` share this logic and differ only in their tag keys, their
    supported extensions and their size limit, which are the `keys` and `limits` of the class
    below. */
module RagResource {
  import opened Wrappers
  import opened PyText
  import opened TagStore

  datatype TagKeys = TagKeys(doc: string, dataset: string, sync: string)

  /** `RagResource`'s keys. */
  const RAG_RESOURCE_KEYS: TagKeys := TagKeys("rag_document", "rag_dataset_id", "rag_sync")
  /** `DatahubRagResource`'s keys. */
  const DATAHUB_RAG_RESOURCE_KEYS: TagKeys := TagKeys("rag_document", "rag_dataset", "rag_sync")
  /** `DatahubRagFlowResource`'s keys. */
  const DATAHUB_RAGFLOW_RESOURCE_KEYS: TagKeys := TagKeys("ragflow_document", "ragflow_dataset", "ragflow_sync")

  /** The three wrapper classes: `RagResource` (rag_resource.py), `DatahubRagResource` and
      `DatahubRagFlowResource`. */
  datatype ResourceKind = LabResource | DatahubResource | DatahubRagFlowResource

  function KindKeys(kind: ResourceKind): (keys: TagKeys)
    ensures DistinctKeys(keys)
  {
    match kind
    case LabResource => RAG_RESOURCE_KEYS
    case DatahubResource => DATAHUB_RAG_RESOURCE_KEYS
    case DatahubRagFlowResource => DATAHUB_RAGFLOW_RESOURCE_KEYS
  }

  predicate DistinctKeys(keys: TagKeys)
  {
    keys.doc != keys.dataset && keys.doc != keys.sync && keys.dataset != keys.sync
  }

  function KeySet(keys: TagKeys): set<string> { {keys.doc, keys.dataset, keys.sync} }

  /** What the JSON check of `is_compatible_with_rag` finds in a `.json` file. */
  datatype JsonKind = RichTextJson | RichTextAggregateJson | OtherJson | MalformedJson

  /** The resource behind the model: a file (its path, extension, size in bytes, and for JSON
      what it holds) or something else. */
  datatype Content = FileContent(path: string, extension: string, size: int, json: JsonKind) | NotAFile

  datatype Limits = Limits(supportedExtensions: seq<string>, maxFileSizeMb: nat)

  /** The JSON `RichText.is_rich_text_json` or `RichTextAggregation.is_rich_text_aggregation_json`
      accepts. */
  predicate IsRichText(json: JsonKind) { json == RichTextJson || json == RichTextAggregateJson }

  /** `MAX_FILE_SIZE_MB * 1024 * 1024`. */
  function MaxBytes(limits: Limits): nat { limits.maxFileSizeMb * 1024 * 1024 }

  /** `is_compatible_with_rag`: a file with a supported extension, holding rich text when it
      is JSON, of at most the size limit. JSON that does not parse raises. */
  function IsCompatible(limits: Limits, content: Content): (r: Result<bool>)
    ensures r.Err? <==> content.FileContent? && content.extension in limits.supportedExtensions &&
                        content.extension == "json" && content.json == MalformedJson
    ensures r.Err? ==> r.kind == GenericException
    ensures r == Ok(true) <==>
              content.FileContent? && content.extension in limits.supportedExtensions &&
              (content.extension == "json" ==> IsRichText(content.json)) &&
              content.size <= MaxBytes(limits)
  {
    if !content.FileContent? then Ok(false)
    else if content.extension !in limits.supportedExtensions then Ok(false)
    else if content.extension == "json" && content.json == MalformedJson then Err(GenericException)
    else if content.extension == "json" && content.json == OtherJson then Ok(false)
    else if content.size > MaxBytes(limits) then Ok(false)
    else Ok(true)
  }

  /** The file `get_file` hands to the platform: the resource's own file, or the Markdown
      rendering of a rich-text JSON file written to `{tmp_dir}/{name}.md`. */
  datatype FileToSend = OriginalFile(path: string) | MarkdownFile(path: string)

  function GetFile(limits: Limits, content: Content, name: string, tmpDir: string): (r: Result<FileToSend>)
    ensures r.Ok? <==> IsCompatible(limits, content) == Ok(true)
    ensures r.Err? ==> r.kind == (if IsCompatible(limits, content).Err? then GenericException else ValueError)
    ensures r.Ok? && r.value.MarkdownFile? <==> r.Ok? && content.extension == "json"
    ensures r.Ok? && r.value.MarkdownFile? ==> r.value.path == tmpDir + "/" + name + ".md"
    ensures r.Ok? && r.value.OriginalFile? ==> r.value.path == content.path
  {
    var compatible :- IsCompatible(limits, content);
    if !compatible then Err(ValueError)
    else if content.extension == "json" then Ok(MarkdownFile(tmpDir + "/" + name + ".md"))
    else Ok(OriginalFile(content.path))
  }

  // ---------------------------------------------------------------- tag queries

  /** `get_document_id`: the first document tag's value; the resource is synced exactly when
      there is one. */
  function DocumentId(keys: TagKeys, tags: seq<Tag>): (r: Option<string>)
    ensures r.Some? <==> HasKey(tags, keys.doc)
    ensures r.Some? ==> Tag(keys.doc, r.value) in tags
  {
    FirstValue(tags, keys.doc)
  }

  /** `is_synced_with_rag`. */
  predicate IsSynced(keys: TagKeys, tags: seq<Tag>)
  {
    HasKey(tags, keys.doc)
  }

  /** `get_and_check_document_id`. */
  function CheckDocumentId(keys: TagKeys, tags: seq<Tag>): (r: Result<string>)
    ensures r.Ok? <==> IsSynced(keys, tags)
    ensures r.Ok? ==> Some(r.value) == DocumentId(keys, tags)
    ensures r.Err? ==> r.kind == ValueError
  {
    match DocumentId(keys, tags)
    case None => Err(ValueError)
    case Some(id) => Ok(id)
  }

  /** `get_dataset_base_id` / `get_dataset_id`: a ValueError without the dataset tag. */
  function DatasetId(keys: TagKeys, tags: seq<Tag>): (r: Result<string>)
    ensures r.Ok? <==> HasKey(tags, keys.dataset)
    ensures r.Ok? ==> Tag(keys.dataset, r.value) in tags
    ensures r.Err? ==> r.kind == ValueError
  {
    match FirstValue(tags, keys.dataset)
    case None => Err(ValueError)
    case Some(id) => Ok(id)
  }

  /** `get_sync_date`, in milliseconds: None without the sync tag, the ValueError of `int()`
      when its value is not an integer. */
  function SyncDate(keys: TagKeys, tags: seq<Tag>): (r: Result<Option<int>>)
    ensures r == Ok(None) <==> !HasKey(tags, keys.sync)
    ensures r.Err? ==> r.kind == ValueError
    ensures r.Ok? && r.value.Some? ==>
              exists v :: Tag(keys.sync, v) in tags && ParseInt(v) == Some(r.value.value)
  {
    match FirstValue(tags, keys.sync)
    case None => Ok(None)
    case Some(v) =>
      match ParseInt(v)
      case None => Err(ValueError)
      case Some(ms) => Ok(Some(ms))
  }

  /** `get_and_check_sync_date`. */
  function CheckSyncDate(keys: TagKeys, tags: seq<Tag>): (r: Result<int>)
    ensures r.Ok? <==> SyncDate(keys, tags).Ok? && SyncDate(keys, tags).value.Some?
    ensures r.Ok? ==> r.value == SyncDate(keys, tags).value.value
    ensures r.Err? ==> r.kind == ValueError
  {
    var date :- SyncDate(keys, tags);
    if date.None? then Err(ValueError) else Ok(date.value)
  }

  /** `is_up_to_date_in_rag`: never without a sync date, otherwise when the last sync is not
      older than the last modification. */
  function IsUpToDate(keys: TagKeys, tags: seq<Tag>, lastModifiedAt: int): (r: Result<bool>)
    ensures r.Err? <==> SyncDate(keys, tags).Err?
    ensures r == Ok(true) <==>
              SyncDate(keys, tags).Ok? && SyncDate(keys, tags).value.Some? &&
              SyncDate(keys, tags).value.value >= lastModifiedAt
  {
    var date :- SyncDate(keys, tags);
    if date.None? then Ok(false) else Ok(date.value >= lastModifiedAt)
  }

  /** `get_chunk_separator`: Markdown is cut at second-level headings, everything else at
      blank lines. The extension is what gws_core's `FileHelper` extracts from the path. */
  function ChunkSeparator(extension: string): (s: string)
    ensures extension == "md" ==> s == "## "
    ensures extension != "md" ==> s == "\n\n"
  {
    if extension == "md" then "## " else "\n\n"
  }

  /** `get_dataset_base_id`, which only `RagResource` defines: calling it on the two data hub
      wrappers is an AttributeError. */
  function DatasetBaseId(kind: ResourceKind, tags: seq<Tag>): (r: Result<string>)
    ensures kind == LabResource ==> r == DatasetId(RAG_RESOURCE_KEYS, tags)
    ensures kind != LabResource ==> r == Err(AttributeError)
  {
    if kind == LabResource then DatasetId(RAG_RESOURCE_KEYS, tags) else Err(AttributeError)
  }

  /** `get_datahub_key`: the first value of the data hub's key tag (whose key gws_core's
      `DataHubS3ServerService.KEY_TAG_NAME` fixes), a ValueError without one. */
  function DatahubKey(keyTagName: string, tags: seq<Tag>): (r: Result<string>)
    ensures r.Ok? <==> HasKey(tags, keyTagName)
    ensures r.Ok? ==> Tag(keyTagName, r.value) in tags
    ensures r.Err? ==> r.kind == ValueError
  {
    match FirstValue(tags, keyTagName)
    case None => Err(ValueError)
    case Some(v) => Ok(v)
  }

  // ---------------------------------------------------------------- DatahubRagFlowResource

  /** `DatahubRagFlowResource`'s own extensions and its 50 MB limit. */
  const RAGFLOW_RESOURCE_LIMITS: Limits :=
    Limits(["txt", "pdf", "docx", "doc", "pptx", "ppt", "md", "html", "htm", "xlsx", "xls", "csv", "json"], 50)

  /** `get_chunk_method`: the RagFlow chunking template chosen from the extension. */
  function ChunkMethod(extension: string): (m: string)
    ensures m == "paper" <==> extension == "pdf"
    ensures m == "book" <==> extension in {"docx", "doc"}
    ensures m == "manual" <==> extension in {"md", "pptx", "ppt"}
    ensures m == "table" <==> extension in {"xlsx", "xls", "csv"}
    ensures m == "naive" <==> extension !in {"pdf", "docx", "doc", "md", "pptx", "ppt", "xlsx", "xls", "csv"}
  {
    if extension == "pdf" then "paper"
    else if extension in ["docx", "doc"] then "book"
    else if extension == "md" then "manual"
    else if extension in ["pptx", "ppt"] then "manual"
    else if extension in ["xlsx", "xls", "csv"] then "table"
    else "naive"
  }

  /** `get_parser_method`: the same map, except that HTML pages are parsed as manuals. */
  function ParserMethod(extension: string): (m: string)
    ensures m == "manual" <==> extension in {"md", "html", "htm", "pptx", "ppt"}
  {
    if extension == "pdf" then "paper"
    else if extension in ["docx", "doc"] then "book"
    else if extension in ["md", "html", "htm"] then "manual"
    else if extension in ["pptx", "ppt"] then "manual"
    else if extension in ["xlsx", "xls", "csv"] then "table"
    else "naive"
  }

  /** The two maps agree on every extension but "html" and "htm", which are chunked naively
      and parsed as manuals. */
  lemma ParserMethodDiffersOnlyOnHtml(extension: string)
    ensures extension !in {"html", "htm"} ==> ParserMethod(extension) == ChunkMethod(extension)
    ensures extension in {"html", "htm"} ==> ChunkMethod(extension) == "naive" && ParserMethod(extension) == "manual"
  {
  }

  // ---------------------------------------------------------------- marking

  /** The tags `mark_resource_as_sent_to_rag` writes. */
  function MarkTags(keys: TagKeys, documentId: string, datasetId: string, nowMs: nat): (t: seq<Tag>)
    ensures KeysOf(t) == KeySet(keys)
  {
    var t := [Tag(keys.doc, documentId), Tag(keys.dataset, datasetId), Tag(keys.sync, NatToString(nowMs))];
    assert t[0] in t && t[1] in t && t[2] in t;
    t
  }

  class RagResource {
    const kind: ResourceKind
    const keys: TagKeys
    const limits: Limits
    const id: string
    const content: Content
    const lastModifiedAt: int
    var tags: seq<Tag>

    constructor (kind: ResourceKind, limits: Limits, id: string, content: Content, lastModifiedAt: int, tags: seq<Tag>)
      ensures this.kind == kind && keys == KindKeys(kind) && this.limits == limits && this.id == id
      ensures this.content == content && this.lastModifiedAt == lastModifiedAt && this.tags == tags
    {
      this.kind := kind;
      keys := KindKeys(kind);
      this.limits := limits;
      this.id := id;
      this.content := content;
      this.lastModifiedAt := lastModifiedAt;
      this.tags := tags;
    }

    /** `mark_resource_as_sent_to_rag` at time `nowMs`. */
    method Mark(documentId: string, datasetId: string, nowMs: nat)
      modifies this
      ensures tags == Replace(old(tags), MarkTags(keys, documentId, datasetId, nowMs))
    {
      tags := Replace(tags, MarkTags(keys, documentId, datasetId, nowMs));
    }

    /** `unmark_resource_as_sent_to_rag`: collects the tags of the three keys and deletes
        them, which removes exactly the three keys. */
    method Unmark()
      modifies this
      ensures tags == WithoutKeys(old(tags), KeySet(keys))
    {
      var collected := TagsByKey(tags, keys.doc) + TagsByKey(tags, keys.dataset) + TagsByKey(tags, keys.sync);
      DeleteIsWithoutKeys(tags, collected, KeySet(keys));
      tags := Delete(tags, collected);
    }
  }

  // ---------------------------------------------------------------- properties

  lemma {:induction false} HasKeyIffTagsByKey(tags: seq<Tag>, key: string)
    ensures HasKey(tags, key) <==> |TagsByKey(tags, key)| > 0
  {
    if HasKey(tags, key) {
      var t :| t in tags && t.key == key;
      assert t in TagsByKey(tags, key);
    }
    if |TagsByKey(tags, key)| > 0 {
      assert TagsByKey(tags, key)[0] in TagsByKey(tags, key);
    }
  }

  lemma TagsByKeyOfThree(a: Tag, b: Tag, c: Tag, key: string)
    ensures TagsByKey([a, b, c], key) ==
            (if a.key == key then [a] else []) + (if b.key == key then [b] else []) + (if c.key == key then [c] else [])
  {
    assert [a, b, c][1..] == [b, c];
    assert [b, c][1..] == [c];
    assert [c][1..] == [];
    calc {
      TagsByKey([a, b, c], key);
      (if a.key == key then [a] else []) + TagsByKey([b, c], key);
      (if a.key == key then [a] else []) + ((if b.key == key then [b] else []) + TagsByKey([c], key));
      (if a.key == key then [a] else []) + ((if b.key == key then [b] else []) + ((if c.key == key then [c] else []) + TagsByKey([], key)));
    }
  }

  /** Each platform key of the marked list has exactly the value just written. */
  lemma MarkedValues(keys: TagKeys, tags: seq<Tag>, documentId: string, datasetId: string, nowMs: nat)
    requires DistinctKeys(keys)
    ensures var marked := Replace(tags, MarkTags(keys, documentId, datasetId, nowMs));
            && FirstValue(marked, keys.doc) == Some(documentId)
            && FirstValue(marked, keys.dataset) == Some(datasetId)
            && FirstValue(marked, keys.sync) == Some(NatToString(nowMs))
  {
    var a, b, c := Tag(keys.doc, documentId), Tag(keys.dataset, datasetId), Tag(keys.sync, NatToString(nowMs));
    var added := MarkTags(keys, documentId, datasetId, nowMs);
    assert added == [a, b, c];
    MarkedValue(tags, added, a, b, c);
    MarkedValue(tags, added, b, a, c);
    MarkedValue(tags, added, c, a, b);
  }

  lemma MarkedValue(tags: seq<Tag>, added: seq<Tag>, t: Tag, u: Tag, v: Tag)
    requires t.key != u.key && t.key != v.key
    requires added == [t, u, v] || added == [u, t, v] || added == [u, v, t]
    ensures FirstValue(Replace(tags, added), t.key) == Some(t.value)
  {
    ReplaceByKey(tags, added, t.key);
    assert t in added;
    if added == [t, u, v] {
      TagsByKeyOfThree(t, u, v, t.key);
    } else if added == [u, t, v] {
      TagsByKeyOfThree(u, t, v, t.key);
    } else {
      TagsByKeyOfThree(u, v, t, t.key);
    }
  }

  /** After marking, the resource reads back as synced with the given document and dataset,
      synced at `nowMs`, up to date exactly when `nowMs` is not before the last modification,
      and every other tag key is as it was. */
  lemma MarkedResource(keys: TagKeys, tags: seq<Tag>, documentId: string, datasetId: string, nowMs: nat, lastModifiedAt: int)
    requires DistinctKeys(keys)
    ensures var marked := Replace(tags, MarkTags(keys, documentId, datasetId, nowMs));
            && DocumentId(keys, marked) == Some(documentId)
            && IsSynced(keys, marked)
            && DatasetId(keys, marked) == Ok(datasetId)
            && SyncDate(keys, marked) == Ok(Some(nowMs))
            && IsUpToDate(keys, marked, lastModifiedAt) == Ok(nowMs >= lastModifiedAt)
            && forall k :: k !in KeySet(keys) ==> TagsByKey(marked, k) == TagsByKey(tags, k)
  {
    var added := MarkTags(keys, documentId, datasetId, nowMs);
    var marked := Replace(tags, added);
    MarkedValues(keys, tags, documentId, datasetId, nowMs);
    ParseIntOfNatToString(nowMs);
    assert FirstValue(marked, keys.sync) == Some(NatToString(nowMs));
    assert ParseInt(NatToString(nowMs)) == Some(nowMs);
    assert SyncDate(keys, marked) == Ok(Some(nowMs));
    forall k | k !in KeySet(keys) ensures TagsByKey(marked, k) == TagsByKey(tags, k) {
      ReplaceByKey(tags, added, k);
    }
  }

  /** After unmarking, the resource reads back as never sent (no document id, no dataset, no
      sync date, not up to date), and every other tag key is as it was. */
  lemma UnmarkedResource(keys: TagKeys, tags: seq<Tag>, lastModifiedAt: int)
    ensures var unmarked := WithoutKeys(tags, KeySet(keys));
            && DocumentId(keys, unmarked) == None
            && !IsSynced(keys, unmarked)
            && DatasetId(keys, unmarked) == Err(ValueError)
            && SyncDate(keys, unmarked) == Ok(None)
            && IsUpToDate(keys, unmarked, lastModifiedAt) == Ok(false)
            && forall k :: k !in KeySet(keys) ==> TagsByKey(unmarked, k) == TagsByKey(tags, k)
  {
    var unmarked := WithoutKeys(tags, KeySet(keys));
    forall k ensures TagsByKey(unmarked, k) == (if k in KeySet(keys) then [] else TagsByKey(tags, k)) {
      TagsByKeyWithout(tags, KeySet(keys), k);
    }
    HasKeyIffTagsByKey(unmarked, keys.doc);
    HasKeyIffTagsByKey(unmarked, keys.dataset);
    HasKeyIffTagsByKey(unmarked, keys.sync);
  }

  /** Unmarking undoes marking: the tag list is the old one without the platform tags. */
  lemma UnmarkUndoesMark(keys: TagKeys, tags: seq<Tag>, documentId: string, datasetId: string, nowMs: nat)
    ensures WithoutKeys(Replace(tags, MarkTags(keys, documentId, datasetId, nowMs)), KeySet(keys)) ==
            WithoutKeys(tags, KeySet(keys))
  {
    var added := MarkTags(keys, documentId, datasetId, nowMs);
    WithoutKeysAppend(WithoutKeys(tags, KeySet(keys)), added, KeySet(keys));
    WithoutKeysTwice(tags, KeySet(keys), KeySet(keys));
    WithoutOwnKeys(added, KeySet(keys));
  }

  /** Marking again replaces the previous marking entirely. */
  lemma MarkTwice(keys: TagKeys, tags: seq<Tag>, doc1: string, ds1: string, t1: nat, doc2: string, ds2: string, t2: nat)
    ensures Replace(Replace(tags, MarkTags(keys, doc1, ds1, t1)), MarkTags(keys, doc2, ds2, t2)) ==
            Replace(tags, MarkTags(keys, doc2, ds2, t2))
  {
    ReplaceTwice(tags, MarkTags(keys, doc1, ds1, t1), MarkTags(keys, doc2, ds2, t2));
  }

  // ---------------------------------------------------------------- lookup by document id

  /** A resource as the tag search sees it. */
  datatype StoredResource = StoredResource(id: string, tags: seq<Tag>)

  /** `from_document_id`: the first resource carrying the document tag, if any. */
  function FindByDocumentId(store: seq<StoredResource>, keys: TagKeys, documentId: string): (r: Option<nat>)
    ensures r.Some? ==> r.value < |store| && Tag(keys.doc, documentId) in store[r.value].tags
    ensures r.Some? ==> forall j :: 0 <= j < r.value ==> Tag(keys.doc, documentId) !in store[j].tags
    ensures r.None? ==> forall j :: 0 <= j < |store| ==> Tag(keys.doc, documentId) !in store[j].tags
    decreases |store|
  {
    if |store| == 0 then None
    else if Tag(keys.doc, documentId) in store[0].tags then Some(0)
    else match FindByDocumentId(store[1..], keys, documentId)
      case None => None
      case Some(i) => Some(i + 1)
  }

  function FindById(store: seq<StoredResource>, id: string): (r: Option<nat>)
    ensures r.Some? ==> r.value < |store| && store[r.value].id == id
    ensures r.None? ==> forall j :: 0 <= j < |store| ==> store[j].id != id
    decreases |store|
  {
    if |store| == 0 then None
    else if store[0].id == id then Some(0)
    else match FindById(store[1..], id)
      case None => None
      case Some(i) => Some(i + 1)
  }

  /** `from_document_or_resource_id_and_check`: the id is tried as a document id first, then
      as a resource id; the resource-id lookup raises when nothing has that id. */
  function FromDocumentOrResourceId(store: seq<StoredResource>, keys: TagKeys, id: string): (r: Result<nat>)
    ensures FindByDocumentId(store, keys, id).Some? ==> r == Ok(FindByDocumentId(store, keys, id).value)
    ensures FindByDocumentId(store, keys, id).None? ==>
              (r.Ok? <==> exists j :: 0 <= j < |store| && store[j].id == id)
    ensures r.Ok? ==> r.value < |store|
    ensures r.Err? ==> r.kind == GenericException
  {
    match FindByDocumentId(store, keys, id)
    case Some(i) => Ok(i)
    case None =>
      match FindById(store, id)
      case Some(i) => Ok(i)
      case None => Err(GenericException)
  }
}
