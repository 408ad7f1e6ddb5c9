/** `BaseRagAppService`: keeps the data lab's resources and a RAG dataset in step. A resource
    is sent (uploaded, or updated when it is already linked), its document gets metadata, and
    the resource is tagged; when a later step fails the uploaded document is deleted again.
    The backend is the sequence of calls made on it; its answers are parameters. */
module RagAppService {
  import opened Wrappers
  import opened PyText
  import opened Seqs
  import opened TagStore
  import opened RagModels
  import opened RagResource

  const CONSTELLAB_RESOURCE_ID_METADATA_KEY: string := "constellab_resource_id"
  const ROOT_FOLDER_ID_METADATA_KEY: string := "root_folder_id"
  const CHAT_INPUT_ACCESS_KEY: string := "folder_"

  // ---------------------------------------------------------------- metadata

  /** `get_document_metadata_before_sync`: the id of the resource behind the document. */
  function BaseMetadata(resourceId: string): (m: map<string, string>)
    ensures m.Keys == {CONSTELLAB_RESOURCE_ID_METADATA_KEY}
    ensures m[CONSTELLAB_RESOURCE_ID_METADATA_KEY] == resourceId
  {
    map[CONSTELLAB_RESOURCE_ID_METADATA_KEY := resourceId]
  }

  /** The resource id and the id of the resource's root folder; a resource in no folder is a
      ValueError. */
  function FolderMetadata(resourceId: string, rootFolderId: Option<string>): (r: Result<map<string, string>>)
    ensures r.Err? <==> rootFolderId.None?
    ensures r.Err? ==> r.kind == ValueError
    ensures r.Ok? ==> r.value.Keys == {CONSTELLAB_RESOURCE_ID_METADATA_KEY, ROOT_FOLDER_ID_METADATA_KEY}
    ensures r.Ok? ==> r.value[CONSTELLAB_RESOURCE_ID_METADATA_KEY] == resourceId &&
                      r.value[ROOT_FOLDER_ID_METADATA_KEY] == rootFolderId.value
  {
    if rootFolderId.None? then Err(ValueError)
    else Ok(BaseMetadata(resourceId)[ROOT_FOLDER_ID_METADATA_KEY := rootFolderId.value])
  }

  // ---------------------------------------------------------------- send_resource_to_rag

  /** What the backend answers during one send: the document returned by the upload (or
      update) call or its exception, the outcome of the metadata update, and the outcome of
      tagging the resource (which raises, for instance, when no user is authenticated). */
  datatype SendAnswers = SendAnswers(uploaded: Result<RagDocument>, metadataCall: Outcome, tagging: Outcome)

  /** The calls one send makes, how it ends, and the document the resource gets linked to. */
  datatype SendResult = SendResult(calls: seq<RagCall>, outcome: Outcome, linkedDocument: Option<string>)

  /** The first call of a send: the linked document is updated when the resource is synced,
      a new document is uploaded otherwise. */
  function UploadCall(keys: TagKeys, tags: seq<Tag>, datasetId: string, path: string, fileName: string): (c: RagCall)
    ensures IsSynced(keys, tags) <==> c.UpdateAndParse?
    ensures IsSynced(keys, tags) ==> c == UpdateAndParse(path, datasetId, DocumentId(keys, tags).value, fileName)
    ensures !IsSynced(keys, tags) ==> c == UploadAndParse(path, datasetId, fileName)
  {
    if IsSynced(keys, tags) then UpdateAndParse(path, datasetId, DocumentId(keys, tags).value, fileName)
    else UploadAndParse(path, datasetId, fileName)
  }

  /** The steps of `send_resource_to_rag`, given the metadata `get_document_metadata_before_sync`
      produces (or the exception it raises) and the backend's answers. */
  function SendSteps(datasetId: string, limits: Limits, content: Content, keys: TagKeys, tags: seq<Tag>,
                     name: string, tmpDir: string, fileName: string,
                     metadata: Result<map<string, string>>, answers: SendAnswers): SendResult
  {
    match GetFile(limits, content, name, tmpDir)
    case Err(kind) => SendResult([], Fail(kind), None)
    case Ok(file) =>
      var upload := UploadCall(keys, tags, datasetId, file.path, fileName);
      match answers.uploaded
      case Err(kind) => SendResult([upload], Fail(kind), None)
      case Ok(document) =>
        var undo := DeleteDocument(datasetId, document.id);
        match metadata
        case Err(kind) => SendResult([upload, undo], Fail(kind), None)
        case Ok(m) =>
          var update := UpdateMetadata(datasetId, document.id, m);
          if answers.metadataCall.Fail? then SendResult([upload, update, undo], answers.metadataCall, None)
          else if answers.tagging.Fail? then SendResult([upload, update, undo], answers.tagging, None)
          else SendResult([upload, update], Pass, Some(document.id))
  }

  /** A send succeeds exactly when the resource is compatible and every step passes; it then
      links the resource to the document the backend returned. */
  lemma SendSucceeds(datasetId: string, limits: Limits, content: Content, keys: TagKeys, tags: seq<Tag>,
                     name: string, tmpDir: string, fileName: string,
                     metadata: Result<map<string, string>>, answers: SendAnswers)
    ensures var s := SendSteps(datasetId, limits, content, keys, tags, name, tmpDir, fileName, metadata, answers);
            && (s.outcome == Pass <==>
                  IsCompatible(limits, content) == Ok(true) && answers.uploaded.Ok? && metadata.Ok? &&
                  answers.metadataCall == Pass && answers.tagging == Pass)
            && (s.linkedDocument.Some? <==> s.outcome == Pass)
            && (s.linkedDocument.Some? ==> s.linkedDocument.value == answers.uploaded.value.id)
  {
  }

  /** No orphan document: once the backend has accepted a document, the send either links the
      resource to it or ends by deleting it from the same dataset. */
  lemma NoOrphanDocument(datasetId: string, limits: Limits, content: Content, keys: TagKeys, tags: seq<Tag>,
                         name: string, tmpDir: string, fileName: string,
                         metadata: Result<map<string, string>>, answers: SendAnswers)
    requires IsCompatible(limits, content) == Ok(true) && answers.uploaded.Ok?
    ensures var s := SendSteps(datasetId, limits, content, keys, tags, name, tmpDir, fileName, metadata, answers);
            && |s.calls| >= 2
            && (s.outcome == Pass ==>
                  s.linkedDocument == Some(answers.uploaded.value.id) &&
                  forall c :: c in s.calls ==> !c.DeleteDocument?)
            && (s.outcome.Fail? ==>
                  s.linkedDocument.None? &&
                  s.calls[|s.calls| - 1] == DeleteDocument(datasetId, answers.uploaded.value.id))
  {
  }

  /** An incompatible resource makes no call at all; a compatible one first uploads its file, or
      updates its linked document when it is synced. */
  lemma FirstCallUploadsOrUpdates(datasetId: string, limits: Limits, content: Content, keys: TagKeys, tags: seq<Tag>,
                                  name: string, tmpDir: string, fileName: string,
                                  metadata: Result<map<string, string>>, answers: SendAnswers)
    ensures var s := SendSteps(datasetId, limits, content, keys, tags, name, tmpDir, fileName, metadata, answers);
            && (IsCompatible(limits, content) != Ok(true) ==> s.calls == [] && s.outcome.Fail?)
            && (IsCompatible(limits, content) == Ok(true) ==>
                  |s.calls| >= 1 &&
                  s.calls[0] == UploadCall(keys, tags, datasetId, GetFile(limits, content, name, tmpDir).value.path, fileName))
  {
  }

  /** After a successful send, the resource reads back as synced with the returned document in
      this dataset, and up to date at any later modification time not after the send. */
  lemma SentResourceIsLinked(datasetId: string, limits: Limits, content: Content, keys: TagKeys, tags: seq<Tag>,
                             name: string, tmpDir: string, fileName: string,
                             metadata: Result<map<string, string>>, answers: SendAnswers, nowMs: nat, lastModifiedAt: int)
    requires DistinctKeys(keys)
    requires SendSteps(datasetId, limits, content, keys, tags, name, tmpDir, fileName, metadata, answers).outcome == Pass
    ensures var documentId := answers.uploaded.value.id;
            var marked := Replace(tags, MarkTags(keys, documentId, datasetId, nowMs));
            && DocumentId(keys, marked) == Some(documentId)
            && DatasetId(keys, marked) == Ok(datasetId)
            && (lastModifiedAt <= nowMs ==> IsUpToDate(keys, marked, lastModifiedAt) == Ok(true))
  {
    SendSucceeds(datasetId, limits, content, keys, tags, name, tmpDir, fileName, metadata, answers);
    MarkedResource(keys, tags, answers.uploaded.value.id, datasetId, nowMs, lastModifiedAt);
  }

  // ---------------------------------------------------------------- delete_resource_from_rag

  /** The calls `delete_resource_from_rag` makes, how it ends, and whether the resource gets
      unmarked, given the dataset id the resource's getter returns. */
  datatype DeleteResult = DeleteResult(calls: seq<RagCall>, outcome: Outcome, unmarked: bool)

  function DeleteSteps(keys: TagKeys, tags: seq<Tag>, datasetId: Result<string>, deleteCall: Outcome): (d: DeleteResult)
    ensures d.unmarked <==> d.outcome == Pass
    ensures d.outcome == Pass <==> IsSynced(keys, tags) && datasetId.Ok? && deleteCall == Pass
    ensures !IsSynced(keys, tags) ==> d == DeleteResult([], Fail(ValueError), false)
    ensures d.calls != [] <==> IsSynced(keys, tags) && datasetId.Ok?
    ensures d.calls != [] ==> d.calls == [DeleteDocument(datasetId.value, DocumentId(keys, tags).value)]
  {
    if !IsSynced(keys, tags) then DeleteResult([], Fail(ValueError), false)
    else match datasetId
      case Err(kind) => DeleteResult([], Fail(kind), false)
      case Ok(dataset) =>
        var call := DeleteDocument(dataset, DocumentId(keys, tags).value);
        if deleteCall.Fail? then DeleteResult([call], deleteCall, false)
        else DeleteResult([call], Pass, true)
  }

  // ---------------------------------------------------------------- selections

  /** A resource as the resource search returns it. */
  datatype ResourceModel = ResourceModel(id: string, content: Content, lastModifiedAt: int, tags: seq<Tag>)

  /** A backend document no data hub resource points to any more (`from_document_id` finds
      nothing). */
  predicate IsOrphan(store: seq<StoredResource>, d: RagDocument)
  {
    FindByDocumentId(store, DATAHUB_RAG_RESOURCE_KEYS, d.id).None?
  }

  /** The documents `get_rag_documents_to_delete` lists: exactly the dataset's documents that no
      resource carries the document tag of. */
  lemma OrphanDocuments(documents: seq<RagDocument>, store: seq<StoredResource>, d: RagDocument)
    ensures d in Filter(documents, d => IsOrphan(store, d)) <==>
            d in documents && forall j :: 0 <= j < |store| ==> Tag(DATAHUB_RAG_RESOURCE_KEYS.doc, d.id) !in store[j].tags
  {
    FilterMembers(documents, d => IsOrphan(store, d), d);
  }

  /** The test `get_all_resource_to_sync` applies to one resource: compatible and not up to
      date, where both checks can raise and the second runs only for compatible resources. */
  function NeedsSync(limits: Limits, m: ResourceModel): (r: Result<bool>)
    ensures r == Ok(true) <==>
              IsCompatible(limits, m.content) == Ok(true) &&
              IsUpToDate(DATAHUB_RAG_RESOURCE_KEYS, m.tags, m.lastModifiedAt) == Ok(false)
    ensures r.Err? <==>
              IsCompatible(limits, m.content).Err? ||
              (IsCompatible(limits, m.content) == Ok(true) && IsUpToDate(DATAHUB_RAG_RESOURCE_KEYS, m.tags, m.lastModifiedAt).Err?)
  {
    var compatible :- IsCompatible(limits, m.content);
    if !compatible then Ok(false)
    else
      var upToDate :- IsUpToDate(DATAHUB_RAG_RESOURCE_KEYS, m.tags, m.lastModifiedAt);
      Ok(!upToDate)
  }

  /** The resources to sync: without an exception, exactly the compatible resources that are
      not up to date; otherwise the exception of the first resource whose check raises. */
  lemma ResourcesToSync(limits: Limits, models: seq<ResourceModel>, m: ResourceModel)
    ensures var r := FilterOrFail(models, m => NeedsSync(limits, m));
            && (r.Ok? <==> forall k :: 0 <= k < |models| ==> NeedsSync(limits, models[k]).Ok?)
            && (r.Ok? ==> (m in r.value <==>
                             m in models && IsCompatible(limits, m.content) == Ok(true) &&
                             IsUpToDate(DATAHUB_RAG_RESOURCE_KEYS, m.tags, m.lastModifiedAt) == Ok(false)))
            && (r.Err? ==> exists k :: 0 <= k < |models| && NeedsSync(limits, models[k]) == Err(r.kind))
  {
    var p := m => NeedsSync(limits, m);
    FilterOrFailOk(models, p);
    if FilterOrFail(models, p).Ok? {
      FilterOrFailMembers(models, p, m);
    } else {
      FilterOrFailFirstError(models, p);
    }
  }

  predicate IsSyncedModel(m: ResourceModel)
  {
    IsSynced(DATAHUB_RAG_RESOURCE_KEYS, m.tags)
  }

  /** Every resource `get_all_synced_resources` returns is a `DatahubRagResource` whose document
      tag is set, and `get_dataset_base_id` is missing on that class: deleting it through
      `delete_resource_from_rag` can only raise. */
  lemma SyncedResourcesCannotBeDeletedAsWritten(models: seq<ResourceModel>, m: ResourceModel)
    requires m in Filter(models, IsSyncedModel)
    ensures IsSynced(KindKeys(DatahubResource), m.tags)
    ensures DeleteSteps(KindKeys(DatahubResource), m.tags, DatasetBaseId(DatahubResource, m.tags), Pass) ==
            DeleteResult([], Fail(AttributeError), false)
  {
  }

  // ---------------------------------------------------------------- chat filters

  /** `send_message_stream`'s inputs: the default filters updated with the caller's filters,
      which win on a shared key. */
  function MergeFilters(defaults: map<string, string>, filters: Option<map<string, string>>): (r: map<string, string>)
    ensures filters.None? ==> r == defaults
    ensures filters.Some? ==> r.Keys == defaults.Keys + filters.value.Keys
    ensures filters.Some? ==> forall k :: k in filters.value ==> r[k] == filters.value[k]
    ensures forall k :: k in defaults && (filters.None? || k !in filters.value) ==> r[k] == defaults[k]
  {
    if filters.None? then defaults else defaults + filters.value
  }

  /** The chat input naming the i-th folder: "folder_0", "folder_1", ... */
  function FolderKey(i: nat): string
  {
    CHAT_INPUT_ACCESS_KEY + NatToString(i)
  }

  /** The folder filter built by enumerating the folder ids. */
  function FolderFilterMap(ids: seq<string>): map<string, string>
  {
    if |ids| == 0 then map[]
    else FolderFilterMap(ids[..|ids| - 1])[FolderKey(|ids| - 1) := ids[|ids| - 1]]
  }

  /** Every key of the folder filter names the position of a folder. */
  lemma {:induction false} FolderKeyIndex(ids: seq<string>, k: string) returns (i: nat)
    requires k in FolderFilterMap(ids)
    ensures i < |ids| && k == FolderKey(i)
  {
    var n := |ids| - 1;
    if k == FolderKey(n) {
      i := n;
    } else {
      i := FolderKeyIndex(ids[..n], k);
    }
  }

  /** The folder filter has one entry per folder, keyed by its position, and nothing else. */
  lemma FolderFilterMapKeys(ids: seq<string>)
    ensures forall k :: k in FolderFilterMap(ids) <==> exists i :: 0 <= i < |ids| && k == FolderKey(i)
  {
    FolderFilterMapValues(ids);
    forall k | k in FolderFilterMap(ids)
      ensures exists i :: 0 <= i < |ids| && k == FolderKey(i)
    {
      var i := FolderKeyIndex(ids, k);
    }
  }

  lemma {:induction false} FolderFilterMapValues(ids: seq<string>)
    ensures forall i :: 0 <= i < |ids| ==> FolderKey(i) in FolderFilterMap(ids) && FolderFilterMap(ids)[FolderKey(i)] == ids[i]
  {
    if |ids| > 0 {
      var n := |ids| - 1;
      var init := ids[..n];
      FolderFilterMapValues(init);
      forall i | 0 <= i < |ids|
        ensures FolderKey(i) in FolderFilterMap(ids) && FolderFilterMap(ids)[FolderKey(i)] == ids[i]
      {
        if i < n {
          PrefixedNatInjective(CHAT_INPUT_ACCESS_KEY, i, n);
          assert init[i] == ids[i];
        }
      }
    }
  }

  /** The folder-filter loop of `get_chat_default_filters` and of `DatahubRagService`'s
      `send_message_stream`. */
  method FolderFilters(ids: seq<string>) returns (filters: map<string, string>)
    ensures filters == FolderFilterMap(ids)
  {
    filters := map[];
    var i := 0;
    while i < |ids|
      invariant 0 <= i <= |ids|
      invariant filters == FolderFilterMap(ids[..i])
    {
      PrefixSnoc(ids, i);
      filters := filters[FolderKey(i) := ids[i]];
      i := i + 1;
    }
    assert ids[..i] == ids;
  }

  // ---------------------------------------------------------------- the two sequences

  /** The sequence of `send_resource_to_rag`, returning the calls it makes on the backend. */
  method SendResource(resource: RagResource, datasetId: string, name: string, tmpDir: string, fileName: string,
                      metadata: Result<map<string, string>>, answers: SendAnswers, nowMs: nat)
    returns (made: seq<RagCall>, r: Outcome)
    modifies resource
    ensures var s := SendSteps(datasetId, resource.limits, resource.content, resource.keys, old(resource.tags),
                               name, tmpDir, fileName, metadata, answers);
            && made == s.calls
            && r == s.outcome
            && resource.tags == (if s.linkedDocument.Some?
                                 then Replace(old(resource.tags), MarkTags(resource.keys, s.linkedDocument.value, datasetId, nowMs))
                                 else old(resource.tags))
  {
    made := [];
    var compatible := IsCompatible(resource.limits, resource.content);
    if compatible.Err? {
      return [], Fail(compatible.kind);
    }
    if !compatible.value {
      return [], Fail(ValueError);
    }
    var file := GetFile(resource.limits, resource.content, name, tmpDir).value;
    var upload: RagCall;
    if IsSynced(resource.keys, resource.tags) {
      var documentId := CheckDocumentId(resource.keys, resource.tags).value;
      upload := UpdateAndParse(file.path, datasetId, documentId, fileName);
    } else {
      upload := UploadAndParse(file.path, datasetId, fileName);
    }
    made := made + [upload];
    if answers.uploaded.Err? {
      return made, Fail(answers.uploaded.kind);
    }
    var document := answers.uploaded.value;
    if metadata.Err? {
      made := made + [DeleteDocument(datasetId, document.id)];
      return made, Fail(metadata.kind);
    }
    made := made + [UpdateMetadata(datasetId, document.id, metadata.value)];
    if answers.metadataCall.Fail? {
      made := made + [DeleteDocument(datasetId, document.id)];
      return made, answers.metadataCall;
    }
    if answers.tagging.Fail? {
      made := made + [DeleteDocument(datasetId, document.id)];
      return made, answers.tagging;
    }
    resource.Mark(document.id, datasetId, nowMs);
    r := Pass;
  }

  /** The sequence of `delete_resource_from_rag`: refuse an unsynced resource, delete its
      document from the dataset the getter names, then unmark it. */
  method DeleteResource(resource: RagResource, datasetIdOf: Result<string>, deleteCall: Outcome)
    returns (made: seq<RagCall>, r: Outcome)
    modifies resource
    ensures var d := DeleteSteps(resource.keys, old(resource.tags), datasetIdOf, deleteCall);
            && made == d.calls
            && r == d.outcome
            && resource.tags == (if d.unmarked then WithoutKeys(old(resource.tags), KeySet(resource.keys)) else old(resource.tags))
  {
    if !IsSynced(resource.keys, resource.tags) {
      return [], Fail(ValueError);
    }
    if datasetIdOf.Err? {
      return [], Fail(datasetIdOf.kind);
    }
    var documentId := CheckDocumentId(resource.keys, resource.tags).value;
    made := [DeleteDocument(datasetIdOf.value, documentId)];
    if deleteCall.Fail? {
      return made, deleteCall;
    }
    resource.Unmark();
    r := Pass;
  }

  // ---------------------------------------------------------------- the service

  class RagAppService {
    const datasetId: string
    /** The calls made on the backend (`rag_service`) so far. */
    var calls: seq<RagCall>

    constructor (datasetId: string)
      ensures this.datasetId == datasetId && calls == []
    {
      this.datasetId := datasetId;
      calls := [];
    }

    /** `send_resource_to_rag`, where `metadata` is what `get_document_metadata_before_sync`
        returns for the resource: `BaseMetadata(resource.id)` in this class, `FolderMetadata`
        in the data hub app service. */
    method SendResourceToRag(resource: RagResource, name: string, tmpDir: string, fileName: string,
                             metadata: Result<map<string, string>>, answers: SendAnswers, nowMs: nat)
      returns (r: Outcome)
      modifies this, resource
      ensures var s := SendSteps(datasetId, resource.limits, resource.content, resource.keys, old(resource.tags),
                                 name, tmpDir, fileName, metadata, answers);
              && calls == old(calls) + s.calls
              && r == s.outcome
              && resource.tags == (if s.linkedDocument.Some?
                                   then Replace(old(resource.tags), MarkTags(resource.keys, s.linkedDocument.value, datasetId, nowMs))
                                   else old(resource.tags))
    {
      var made;
      made, r := SendResource(resource, datasetId, name, tmpDir, fileName, metadata, answers, nowMs);
      calls := calls + made;
    }

    /** `delete_resource_from_rag` as written: the dataset id comes from `get_dataset_base_id`,
        which only `RagResource` has, so a synced data hub resource raises AttributeError before
        anything is deleted. */
    method DeleteResourceFromRagAsWritten(resource: RagResource, deleteCall: Outcome) returns (r: Outcome)
      modifies this, resource
      ensures var d := DeleteSteps(resource.keys, old(resource.tags), DatasetBaseId(resource.kind, old(resource.tags)), deleteCall);
              && calls == old(calls) + d.calls
              && r == d.outcome
              && resource.tags == (if d.unmarked then WithoutKeys(old(resource.tags), KeySet(resource.keys)) else old(resource.tags))
      ensures resource.kind != LabResource && IsSynced(resource.keys, old(resource.tags)) ==>
                r == Fail(AttributeError) && calls == old(calls) && resource.tags == old(resource.tags)
    {
      var made;
      made, r := DeleteResource(resource, DatasetBaseId(resource.kind, resource.tags), deleteCall);
      calls := calls + made;
    }

    /** `delete_resource_from_rag` with the dataset getter the resource's class defines. */
    method DeleteResourceFromRag(resource: RagResource, deleteCall: Outcome) returns (r: Outcome)
      modifies this, resource
      ensures var d := DeleteSteps(resource.keys, old(resource.tags), DatasetId(resource.keys, old(resource.tags)), deleteCall);
              && calls == old(calls) + d.calls
              && r == d.outcome
              && resource.tags == (if d.unmarked then WithoutKeys(old(resource.tags), KeySet(resource.keys)) else old(resource.tags))
    {
      var made;
      made, r := DeleteResource(resource, DatasetId(resource.keys, resource.tags), deleteCall);
      calls := calls + made;
    }

    /** `delete_rag_document`. */
    method DeleteRagDocument(documentId: string)
      modifies this
      ensures calls == old(calls) + [DeleteDocument(datasetId, documentId)]
    {
      calls := calls + [DeleteDocument(datasetId, documentId)];
    }

    /** `get_rag_documents_to_delete` over the dataset's documents and the resources the tag
        search sees. */
    method GetRagDocumentsToDelete(documents: seq<RagDocument>, store: seq<StoredResource>) returns (toDelete: seq<RagDocument>)
      ensures toDelete == Filter(documents, d => IsOrphan(store, d))
    {
      toDelete := [];
      var i := 0;
      while i < |documents|
        invariant 0 <= i <= |documents|
        invariant toDelete == Filter(documents[..i], d => IsOrphan(store, d))
      {
        FilterSnoc(documents, d => IsOrphan(store, d), i);
        if FindByDocumentId(store, DATAHUB_RAG_RESOURCE_KEYS, documents[i].id).None? {
          toDelete := toDelete + [documents[i]];
        }
        i := i + 1;
      }
      assert documents[..i] == documents;
    }

    /** `get_all_resource_to_sync` over the resources `get_all_resources_to_send_to_rag`
        returns, checked against the data hub resources' limits. */
    method GetAllResourceToSync(limits: Limits, models: seq<ResourceModel>) returns (r: Result<seq<ResourceModel>>)
      ensures r == FilterOrFail(models, m => NeedsSync(limits, m))
    {
      var needsSync := m => NeedsSync(limits, m);
      var selected := [];
      var i := 0;
      while i < |models|
        invariant 0 <= i <= |models|
        invariant FilterOrFail(models[..i], needsSync) == Ok(selected)
      {
        FilterOrFailSnoc(models, needsSync, i);
        assert needsSync(models[i]) == NeedsSync(limits, models[i]);
        assert selected + [] == selected;
        var compatible := IsCompatible(limits, models[i].content);
        if compatible.Err? {
          FilterOrFailErrPrefix(models, needsSync, i + 1);
          return Err(compatible.kind);
        }
        if compatible.value {
          var upToDate := IsUpToDate(DATAHUB_RAG_RESOURCE_KEYS, models[i].tags, models[i].lastModifiedAt);
          if upToDate.Err? {
            FilterOrFailErrPrefix(models, needsSync, i + 1);
            return Err(upToDate.kind);
          }
          assert NeedsSync(limits, models[i]) == Ok(!upToDate.value);
          if !upToDate.value {
            selected := selected + [models[i]];
          }
        } else {
          assert NeedsSync(limits, models[i]) == Ok(false);
        }
        i := i + 1;
      }
      assert models[..i] == models;
      r := Ok(selected);
    }

    /** `get_all_synced_resources`. */
    method GetAllSyncedResources(models: seq<ResourceModel>) returns (synced: seq<ResourceModel>)
      ensures synced == Filter(models, IsSyncedModel)
    {
      synced := [];
      var i := 0;
      while i < |models|
        invariant 0 <= i <= |models|
        invariant synced == Filter(models[..i], IsSyncedModel)
      {
        FilterSnoc(models, IsSyncedModel, i);
        if IsSynced(DATAHUB_RAG_RESOURCE_KEYS, models[i].tags) {
          synced := synced + [models[i]];
        }
        i := i + 1;
      }
      assert models[..i] == models;
    }

    /** `send_message_stream`: the chat call receives the merged filters. */
    method SendMessageStream(query: string, defaults: map<string, string>, filters: Option<map<string, string>>)
      returns (inputs: map<string, string>)
      modifies this
      ensures inputs == MergeFilters(defaults, filters)
      ensures calls == old(calls) + [ChatStream(query, inputs)]
    {
      inputs := defaults;
      if filters.Some? {
        inputs := inputs + filters.value;
      }
      calls := calls + [ChatStream(query, inputs)];
    }
  }
}
