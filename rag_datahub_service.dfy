/** `DatahubRagService`: the older data hub synchronisation service. It sends data hub resources
    to any backend, optionally with their root folder as metadata, and puts the user's folder
    filter into every chat request. Its document and resource selections are those of
    `BaseRagAppService` (modelled in `RagAppService`). */
module RagDatahubService {
  import opened Wrappers
  import opened PyText
  import opened TagStore
  import opened RagModels
  import opened RagResource
  import opened RagAppService

  /** The metadata set after the upload: the resource id, plus the root folder when asked for,
      which fails with ValueError for a resource in no folder. */
  function SyncMetadata(setFolderMetadata: bool, resourceId: string, rootFolderId: Option<string>): (r: Result<map<string, string>>)
    ensures r.Err? <==> setFolderMetadata && rootFolderId.None?
    ensures r.Err? ==> r.kind == ValueError
    ensures r.Ok? ==> CONSTELLAB_RESOURCE_ID_METADATA_KEY in r.value && r.value[CONSTELLAB_RESOURCE_ID_METADATA_KEY] == resourceId
    ensures r.Ok? ==> (ROOT_FOLDER_ID_METADATA_KEY in r.value <==> setFolderMetadata)
    ensures r.Ok? && setFolderMetadata ==> r.value[ROOT_FOLDER_ID_METADATA_KEY] == rootFolderId.value
  {
    if setFolderMetadata then FolderMetadata(resourceId, rootFolderId) else Ok(BaseMetadata(resourceId))
  }

  /** The key a folder id gets in the chat inputs. */
  predicate IsFolderKeyOf(ids: seq<string>, k: string)
  {
    exists i :: 0 <= i < |ids| && k == FolderKey(i)
  }

  /** The chat inputs of `send_message_stream`: the caller's inputs (none is empty), updated
      with one entry per folder when the folder list is not empty. */
  function FolderInputs(inputs: Option<map<string, string>>, folderIds: Option<seq<string>>): map<string, string>
  {
    var given := inputs.GetOr(map[]);
    if folderIds.None? || |folderIds.value| == 0 then given
    else MergeFilters(given, Some(FolderFilterMap(folderIds.value)))
  }

  /** The folder entries win over the caller's inputs, and every other input is kept as
      given: a caller cannot replace the folder ids of the user. */
  lemma {:induction false} FolderInputsContents(inputs: Option<map<string, string>>, folderIds: Option<seq<string>>)
    ensures var r := FolderInputs(inputs, folderIds);
            var ids := folderIds.GetOr([]);
            && (forall i :: 0 <= i < |ids| ==> FolderKey(i) in r && r[FolderKey(i)] == ids[i])
            && (forall k :: k in r ==> (inputs.Some? && k in inputs.value) || IsFolderKeyOf(ids, k))
            && (forall k :: inputs.Some? && k in inputs.value && !IsFolderKeyOf(ids, k) ==>
                             k in r && r[k] == inputs.value[k])
  {
    var ids := folderIds.GetOr([]);
    FolderFilterMapKeys(ids);
    FolderFilterMapValues(ids);
  }

  class DatahubRagService {
    const datasetId: string
    /** The calls made on the backend (`rag_service`) so far. */
    var calls: seq<RagCall>

    constructor (datasetId: string)
      ensures this.datasetId == datasetId && calls == []
    {
      this.datasetId := datasetId;
      calls := [];
    }

    /** `send_resource_to_rag`: the sequence of the app service, with the metadata built after
        the upload, so a resource in no folder has its uploaded document deleted again. */
    method SendResourceToRag(resource: RagResource, setFolderMetadata: bool, rootFolderId: Option<string>,
                             name: string, tmpDir: string, fileName: string, answers: SendAnswers, nowMs: nat)
      returns (r: Outcome)
      modifies this, resource
      ensures var s := SendSteps(datasetId, resource.limits, resource.content, resource.keys, old(resource.tags),
                                 name, tmpDir, fileName, SyncMetadata(setFolderMetadata, resource.id, rootFolderId), answers);
              && calls == old(calls) + s.calls
              && r == s.outcome
              && resource.tags == (if s.linkedDocument.Some?
                                   then Replace(old(resource.tags), MarkTags(resource.keys, s.linkedDocument.value, datasetId, nowMs))
                                   else old(resource.tags))
    {
      var made;
      made, r := SendResource(resource, datasetId, name, tmpDir, fileName,
                              SyncMetadata(setFolderMetadata, resource.id, rootFolderId), answers, nowMs);
      calls := calls + made;
    }

    /** `delete_resource_from_rag`: the document is deleted from the dataset the resource's
        own dataset tag names. */
    method DeleteResourceFromRag(resource: RagResource, deleteCall: Outcome) returns (r: Outcome)
      modifies this, resource
      ensures var d := DeleteSteps(resource.keys, old(resource.tags), DatasetId(resource.keys, old(resource.tags)), deleteCall);
              && calls == old(calls) + d.calls
              && r == d.outcome
              && resource.tags == (if d.unmarked then WithoutKeys(old(resource.tags), KeySet(resource.keys)) else old(resource.tags))
    {
      var made;
      made, r := DeleteResource(resource, DatasetId(resource.keys, resource.tags), deleteCall);
      calls := calls + made;
    }

    /** `delete_rag_document`. */
    method DeleteRagDocument(documentId: string)
      modifies this
      ensures calls == old(calls) + [DeleteDocument(datasetId, documentId)]
    {
      calls := calls + [DeleteDocument(datasetId, documentId)];
    }

    /** `send_message_stream`: the folder filter of `userRootFolderIds` overrides the caller's
        inputs, with no limit on the number of folders. */
    method SendMessageStream(query: string, userRootFolderIds: Option<seq<string>>, inputs: Option<map<string, string>>)
      returns (sent: map<string, string>)
      modifies this
      ensures sent == FolderInputs(inputs, userRootFolderIds)
      ensures calls == old(calls) + [ChatStream(query, sent)]
    {
      sent := inputs.GetOr(map[]);
      if userRootFolderIds.Some? && |userRootFolderIds.value| > 0 {
        var folderFilter := FolderFilters(userRootFolderIds.value);
        sent := MergeFilters(sent, Some(folderFilter));
      }
      calls := calls + [ChatStream(query, sent)];
    }
  }
}
