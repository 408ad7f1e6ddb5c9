/** `DatahubRagAppService`: the app service for data hub documents on Dify. Each document's
    metadata holds its root folder, and a chat is filtered on the current user's root folders,
    at most twenty of them, loaded once and cached. */
module DatahubRagAppService {
  import opened Wrappers
  import opened PyText
  import opened TagStore
  import opened RagModels
  import opened RagResource
  import opened RagAppService

  const FOLDER_LIMIT: nat := 20

  /** The backend behind a `BaseRagService`. */
  datatype Backend = DifyBackend | RagFlowBackend

  /** The constructor's guard: only Dify supports metadata filtering in chats. */
  function CheckBackend(backend: Backend): (r: Outcome)
    ensures r == Pass <==> backend == DifyBackend
    ensures r.Fail? ==> r.kind == ValueError
  {
    if backend != DifyBackend then Fail(ValueError) else Pass
  }

  /** The cached folder ids never exceed the limit: entry i of the filter is the user's i-th
      root folder for i below twenty, and no folder after the twentieth appears. */
  lemma DefaultFiltersOfFolders(folders: seq<string>)
    ensures var filters := FolderFilterMap(Take(folders, FOLDER_LIMIT));
            && (forall i :: 0 <= i < |folders| && i < FOLDER_LIMIT ==> FolderKey(i) in filters && filters[FolderKey(i)] == folders[i])
            && (forall i :: FOLDER_LIMIT <= i ==> FolderKey(i) !in filters)
            && (forall k :: k in filters ==> exists i :: 0 <= i < FOLDER_LIMIT && k == FolderKey(i))
  {
    var ids := Take(folders, FOLDER_LIMIT);
    FolderFilterMapKeys(ids);
    FolderFilterMapValues(ids);
    forall i | FOLDER_LIMIT <= i
      ensures FolderKey(i) !in FolderFilterMap(ids)
    {
      forall j | 0 <= j < |ids|
        ensures FolderKey(i) != FolderKey(j)
      {
        PrefixedNatInjective(CHAT_INPUT_ACCESS_KEY, i, j);
      }
    }
  }

  class DatahubRagAppService {
    /** The inherited `BaseRagAppService` state: the dataset and the backend's calls. */
    const app: RagAppService
    /** `_current_user_folders_ids`: None until a non-empty folder list has been loaded. */
    var currentUserFolderIds: Option<seq<string>>

    predicate Valid()
      reads this
    {
      currentUserFolderIds.Some? ==> |currentUserFolderIds.value| <= FOLDER_LIMIT
    }

    constructor (app: RagAppService)
      ensures this.app == app && currentUserFolderIds.None? && Valid()
    {
      this.app := app;
      currentUserFolderIds := None;
    }

    /** `DatahubRagAppService(rag_service, dataset_id)`: a ValueError unless the backend is
        Dify. */
    static method Create(backend: Backend, datasetId: string) returns (r: Result<DatahubRagAppService>)
      ensures r.Ok? <==> backend == DifyBackend
      ensures r.Err? ==> r.kind == ValueError
      ensures r.Ok? ==> fresh(r.value) && fresh(r.value.app) && r.value.app.datasetId == datasetId &&
                        r.value.app.calls == [] && r.value.currentUserFolderIds.None? && r.value.Valid()
    {
      var guard := CheckBackend(backend);
      if guard.Fail? {
        return Err(guard.kind);
      }
      var app := new RagAppService(datasetId);
      var service := new DatahubRagAppService(app);
      r := Ok(service);
    }

    /** `get_chat_default_filters` as written, where `userRootFolders` is what the space
        service returns for the current user. A user with no root folder leaves the cache
        None, and enumerating None is a TypeError. */
    method GetChatDefaultFiltersAsWritten(userRootFolders: seq<string>) returns (r: Result<map<string, string>>)
      requires Valid()
      modifies this
      ensures Valid()
      ensures old(currentUserFolderIds).Some? ==> currentUserFolderIds == old(currentUserFolderIds)
      ensures old(currentUserFolderIds).None? ==>
                currentUserFolderIds == (if |userRootFolders| > 0 then Some(Take(userRootFolders, FOLDER_LIMIT)) else None)
      ensures r.Err? <==> currentUserFolderIds.None?
      ensures r.Err? ==> r.kind == TypeError
      ensures r.Ok? ==> r.value == FolderFilterMap(currentUserFolderIds.value)
    {
      if currentUserFolderIds.None? {
        if |userRootFolders| > 0 {
          currentUserFolderIds := Some(Take(userRootFolders, FOLDER_LIMIT));
        }
      }
      if currentUserFolderIds.None? {
        return Err(TypeError);
      }
      var filters := FolderFilters(currentUserFolderIds.value);
      r := Ok(filters);
    }

    /** `get_chat_default_filters` with an empty folder list cached as such: a user without
        root folders gets an empty filter instead of an exception. */
    method GetChatDefaultFilters(userRootFolders: seq<string>) returns (filters: map<string, string>)
      requires Valid()
      modifies this
      ensures Valid() && currentUserFolderIds.Some?
      ensures old(currentUserFolderIds).Some? ==> currentUserFolderIds == old(currentUserFolderIds)
      ensures old(currentUserFolderIds).None? ==> currentUserFolderIds == Some(Take(userRootFolders, FOLDER_LIMIT))
      ensures filters == FolderFilterMap(currentUserFolderIds.value)
      ensures userRootFolders == [] && old(currentUserFolderIds).None? ==> filters == map[]
    {
      if currentUserFolderIds.None? {
        currentUserFolderIds := Some(Take(userRootFolders, FOLDER_LIMIT));
      }
      filters := FolderFilters(currentUserFolderIds.value);
    }

    /** `send_resource_to_rag` with `get_document_metadata_before_sync` overridden: the
        metadata names the resource's root folder, and a resource in no folder fails with
        ValueError after the upload, which deletes the uploaded document again. */
    method SendResourceToRag(resource: RagResource, rootFolderId: Option<string>, name: string, tmpDir: string,
                             fileName: string, answers: SendAnswers, nowMs: nat)
      returns (r: Outcome)
      modifies app, resource
      ensures var s := SendSteps(app.datasetId, resource.limits, resource.content, resource.keys, old(resource.tags),
                                 name, tmpDir, fileName, FolderMetadata(resource.id, rootFolderId), answers);
              && app.calls == old(app.calls) + s.calls
              && r == s.outcome
              && resource.tags == (if s.linkedDocument.Some?
                                   then Replace(old(resource.tags), MarkTags(resource.keys, s.linkedDocument.value, app.datasetId, nowMs))
                                   else old(resource.tags))
    {
      r := app.SendResourceToRag(resource, name, tmpDir, fileName, FolderMetadata(resource.id, rootFolderId), answers, nowMs);
    }

    /** `send_message_stream`: the user's folder filter, updated with the caller's filters. */
    method SendMessageStream(query: string, userRootFolders: seq<string>, filters: Option<map<string, string>>)
      returns (inputs: map<string, string>)
      requires Valid()
      modifies this, app
      ensures Valid() && currentUserFolderIds.Some?
      ensures old(currentUserFolderIds).Some? ==> currentUserFolderIds == old(currentUserFolderIds)
      ensures inputs == MergeFilters(FolderFilterMap(currentUserFolderIds.value), filters)
      ensures app.calls == old(app.calls) + [ChatStream(query, inputs)]
    {
      var defaults := GetChatDefaultFilters(userRootFolders);
      inputs := app.SendMessageStream(query, defaults, filters);
    }

    /** `send_message_stream` as written: the default filters come from the as-written
        `get_chat_default_filters`, so a user with no root folder gets its TypeError and no
        chat call is made. */
    method SendMessageStreamAsWritten(query: string, userRootFolders: seq<string>, filters: Option<map<string, string>>)
      returns (r: Result<map<string, string>>)
      requires Valid()
      modifies this, app
      ensures Valid()
      ensures old(currentUserFolderIds).Some? ==> currentUserFolderIds == old(currentUserFolderIds)
      ensures r.Err? <==> currentUserFolderIds.None?
      ensures r.Err? <==> old(currentUserFolderIds).None? && userRootFolders == []
      ensures r.Err? ==> r.kind == TypeError && app.calls == old(app.calls)
      ensures r.Ok? ==> && r.value == MergeFilters(FolderFilterMap(currentUserFolderIds.value), filters)
                        && app.calls == old(app.calls) + [ChatStream(query, r.value)]
    {
      var defaults := GetChatDefaultFiltersAsWritten(userRootFolders);
      if defaults.Err? {
        return Err(defaults.kind);
      }
      var inputs := app.SendMessageStream(query, defaults.value, filters);
      r := Ok(inputs);
    }
  }

  /** The filter a user with folders gets: one entry per folder, at most twenty, whatever the
      caller adds under other keys. */
  lemma MessageInputsHoldFolders(folders: seq<string>, filters: map<string, string>, i: nat)
    requires i < |folders| && i < FOLDER_LIMIT && FolderKey(i) !in filters
    ensures var inputs := MergeFilters(FolderFilterMap(Take(folders, FOLDER_LIMIT)), Some(filters));
            FolderKey(i) in inputs && inputs[FolderKey(i)] == folders[i]
  {
    DefaultFiltersOfFolders(folders);
  }
}
