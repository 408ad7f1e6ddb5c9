# gws_ai_toolkit — a Dafny model of its core

gws_ai_toolkit connects Constellab (gws_core) resources to retrieval-augmented
generation (RAG) back ends and to OpenAI-based chat agents. This project models
the core of that package in Dafny and proves properties of the model:

- **RAG service layer** — the common service contract and its two back ends,
  Dify and RagFlow, with the data-hub variants: document upload, update,
  delete, parsing, chunk retrieval, chat streaming and its event fold, and the
  construction of the right service from a provider name (`BaseRagService`,
  `RagFlow`, `RagRagFlowService`, `RagDifyService`, `RagDatahubService`,
  `RagModels`).
- **RAG resources and their synchronisation** — the tags that mark a lab or
  data-hub resource as sent to a RAG dataset, the checks that decide whether a
  resource is compatible, the app services that send, update and delete
  resources and select them for a dataset, the `push_resources_to_ragflow`
  task, and the sync/unsync dialog states (`TagStore`, `RagResource`,
  `RagAppService`, `DatahubRagAppService`, `PushResources`, `SyncResource`,
  `ProgressDialog`).
- **Community downloads** — the tasks that fetch stories and answers from the
  Constellab community API, paginate, and build and tag the resulting files
  (`CommunityFiles`, `CommunityDownloads`, `CommunityAnswers`,
  `CommunityTasks`).
- **Chat** — chat messages and their persistence service, conversations
  (base, RAG, AI expert, table agent), the Reflex chat states, the
  conversation history with its labels, the doc-expert page state and the
  message-format migrations (`ChatMessages`, `ChatConversation`,
  `AiExpertConversation`, `ChatState`, `ConversationChatState`, `ChatHistory`,
  `DocExpertState`, `Migration`).
- **Agents** — the function-calling agent loop with its call budget, the
  event list, and the table agent with its sub-agent events
  (`FunctionAgent`, `AgentEvents`, `TableAgent`, `TableAgentEvents`,
  `TableAgentConversation`).
- **AI table** — data-frame items and Excel files with several sheets, the
  newer and the older table data and selection states, and cell-range
  selection (`DataFrameItems`, `ExcelFiles`, `AiTableData`,
  `AiTableLegacyData`, `AiTableSelection`, `AiTableLegacySelection`,
  `TableSelection`).
- **Statistics** — the test-selection decision tree, the result records and
  the pairwise post-hoc tests with their p-value correction
  (`StatsDecision`, `StatsResults`, `StatsPairwise`).
- **Configuration** — the configuration forms with their validators and the
  app configuration states (`ConfigForms`, `AppConfig`).

`PyText`, `PyDict`, `Seqs` and `Wrappers` hold the Python semantics the rest
relies on: slicing, `strip`, `split`, `int()`, dictionary update and
`Option`/`Result`. A Python exception is the `Err` of a `Result` with an
`ErrorKind` naming the exception class. Network calls, SDK calls, the clock,
files and the model's replies are parameters of the operations that use them.
Objects whose fields the Python updates in place (the Reflex states, the
conversations, the services with caches, `ExcelFile`) are Dafny classes with
`modifies` clauses.

Some behaviours a reader might expect of a RAG toolkit are not what the code does;
the model follows the code:

- the RAG adapters return chunks in the back end's order with the back end's
  own score, without rescaling or sorting;
- errors are the Python exceptions the code raises (`ValueError`,
  `TypeError`, `AttributeError`, …), not a typed error taxonomy;
- delete has no strict mode: a missing document is whatever the back end
  answers;
- no service advertises which retrieval methods it supports.

## Model

| member | source | states |
|---|---|---|
| BaseRagService.RagService.constructor | src/gws_ai_toolkit/rag/common/base_rag_service.py:16-18 | a service keeps the route and API key it was built with |
| BaseRagService.BaseUrl | src/gws_ai_toolkit/rag/common/base_rag_service.py:97-99 | the base URL fails with IndexError exactly when the route has fewer than three '/'-separated segments |
| BaseRagService.BaseUrlOfSchemeHostPath | src/gws_ai_toolkit/rag/common/base_rag_service.py:97-99 | "scheme://host/path" has base URL "scheme://host" |
| BaseRagService.BaseUrlOfSchemeHost | src/gws_ai_toolkit/rag/common/base_rag_service.py:97-99 | a route that is already "scheme://host" is its own base URL |
| BaseRagService.BaseUrlWithoutSeparatorFails | src/gws_ai_toolkit/rag/common/base_rag_service.py:97-99 | a route with no '/' at all raises IndexError |
| RagModels.AddSource | src/gws_ai_toolkit/rag/dify/rag_dify_service.py:130-138 | adding a source keeps the session id and appends exactly one chunk carrying the given document, chunk, score and content |
| RagModels.CredentialsRouteAndKey | src/gws_ai_toolkit/rag/ragflow/ragflow_service.py:437-441 | credentials succeed exactly when both 'route' and 'api_key' are present, return those two values, and fail with ValueError otherwise |
| RagFlow.RagFlowService.constructor | src/gws_ai_toolkit/rag/ragflow/ragflow_service.py:19-22 | the base URL loses its trailing '/' characters, the key is kept and no client exists yet |
| RagFlow.RagFlowService.GetClient | src/gws_ai_toolkit/rag/ragflow/ragflow_service.py:24-34 | the client is built from this service's key and URL, stored, and reused on every later call |
| RagFlow.Page | src/gws_ai_toolkit/rag/ragflow/ragflow_service.py:74-87 | a page never holds more items than the list |
| RagFlow.PageIsWindow | src/gws_ai_toolkit/rag/ragflow/ragflow_service.py:81-85 | page p of size n (p >= 1) is the slice [(p-1)n, pn) of the list clipped to its length |
| RagFlow.PageZeroIsEmpty | src/gws_ai_toolkit/rag/ragflow/ragflow_service.py:81-85 | page 0 is always empty |
| RagFlow.PageMinusOneCountsFromEnd | src/gws_ai_toolkit/rag/ragflow/ragflow_service.py:81-85 | page -1 is not empty: Python's negative slice bounds select the second-to-last block of the list |
| RagFlow.PagesCoverPrefix | src/gws_ai_toolkit/rag/ragflow/ragflow_service.py:81-85 | walking pages 1..k in order yields exactly the first k*n items, with nothing lost or repeated |
| RagFlow.FirstOrValueError | src/gws_ai_toolkit/rag/ragflow/ragflow_service.py:64-72 | a lookup by id returns the first match and fails with ValueError exactly when nothing matches |
| RagFlow.Wrapped | src/gws_ai_toolkit/rag/ragflow/ragflow_service.py:315-329 | the try/except wrapper keeps a success unchanged and turns every failure into RuntimeError |
| RagFlow.ListDocuments | src/gws_ai_toolkit/rag/ragflow/ragflow_service.py:137-153 | listing fails with RuntimeError exactly when the dataset is missing, and otherwise returns the requested page of its documents |
| PyText.BaseName | src/gws_ai_toolkit/rag/ragflow/ragflow_service.py:116 | the file name taken from a path holds no '/' |
| PyText.BaseNameIsTail | src/gws_ai_toolkit/rag/ragflow/ragflow_service.py:116 | the file name is the tail of the path after its last '/', or the whole path when it has none |
| PyText.BaseNameOfPath | src/gws_ai_toolkit/rag/ragflow/ragflow_service.py:116 | the file name of "dir/name" is "name" |
| RagFlow.DisplayName | src/gws_ai_toolkit/rag/ragflow/ragflow_service.py:114-116 | the i-th upload is named after the i-th filename when one is given and non-empty, and after the path's file name otherwise |
| RagFlow.UploadDisplayNames | src/gws_ai_toolkit/rag/ragflow/ragflow_service.py:105-129 | one display name per path, the i-th being DisplayName of the i-th path |
| RagFlow.UploadName | src/gws_ai_toolkit/rag/ragflow/ragflow_service.py:131-135 | a single upload is named after `filename` when given and non-empty, after the path's file name otherwise |
| RagFlow.FirstUploaded | src/gws_ai_toolkit/rag/ragflow/ragflow_service.py:131-135 | the uploaded document is the first of the response, and an empty response raises IndexError |
| RagFlow.AskStreamSession | src/gws_ai_toolkit/rag/ragflow/ragflow_service.py:395-416 | a missing chat is a RuntimeError; an existing session is reused exactly when a non-empty session id finds one, and otherwise "default_session" is created |
| RagDifyService.ParsedStatusOf | src/gws_ai_toolkit/rag/dify/rag_dify_service.py:27-43 | "completed", "indexing" and "error" map to DONE, RUNNING and ERROR, and every other indexing status to PENDING (each as an iff) |
| RagDifyService.ConvertDocument | src/gws_ai_toolkit/rag/dify/rag_dify_service.py:27-43 | a converted document keeps id and name, takes its size from the token count, its status from ParsedStatusOf, and its metadata from the meta fields (empty when absent) |
| RagDifyService.ConvertChunk | src/gws_ai_toolkit/rag/dify/rag_dify_service.py:45-53 | a converted chunk keeps the segment id, content, document id, document name and score |
| RagDifyService.UploadAndParse | src/gws_ai_toolkit/rag/dify/rag_dify_service.py:56-62 | upload succeeds exactly with send options (ValueError otherwise) and returns the converted uploaded document |
| RagDifyService.UpdateAndParse | src/gws_ai_toolkit/rag/dify/rag_dify_service.py:64-70 | update succeeds exactly with update options (ValueError otherwise) and returns the converted updated document |
| RagDifyService.ParseDocument | src/gws_ai_toolkit/rag/dify/rag_dify_service.py:84-85 | re-parsing is always NotImplementedError on Dify |
| RagDifyService.GetDocument | src/gws_ai_toolkit/rag/dify/rag_dify_service.py:96-101 | the result is None exactly when Dify has no such document, and otherwise the converted document |
| RagDifyService.RetrieveChunks | src/gws_ai_toolkit/rag/dify/rag_dify_service.py:103-113 | any document filter is refused with NotImplementedError; otherwise every search record is converted, in order |
| RagDifyService.SourceChunk | src/gws_ai_toolkit/rag/dify/rag_dify_service.py:130-138 | a Dify source becomes a chunk with no id and no content, keeping document id, name and score |
| RagDifyService.ResponseEvents | src/gws_ai_toolkit/rag/dify/rag_dify_service.py:120-141 | one Dify response yields at most one stream response |
| RagDifyService.ChatStream | src/gws_ai_toolkit/rag/dify/rag_dify_service.py:120-141 | the loop yields exactly the concatenated responses of the Dify stream, in order |
| RagDifyService.StreamEventsShape | src/gws_ai_toolkit/rag/dify/rag_dify_service.py:120-141 | one response per Dify message or message end and none for other events, and no text piece claims to restart the message |
| RagDifyService.EndResponseSources | src/gws_ai_toolkit/rag/dify/rag_dify_service.py:128-138 | a message end yields one end response carrying the conversation id and exactly one source per Dify source, in order |
| RagRagFlowService.ParsedStatusOf | src/gws_ai_toolkit/rag/ragflow/rag_ragflow_service.py:133-151 | "UNSTART", "DONE" and "RUNNING" map to PENDING, DONE and RUNNING, and every other run state to ERROR (each as an iff) |
| RagRagFlowService.ConvertDocument | src/gws_ai_toolkit/rag/ragflow/rag_ragflow_service.py:133-151 | a converted document keeps id, name and size, takes its status from ParsedStatusOf and has empty metadata |
| RagRagFlowService.ConvertChunk | src/gws_ai_toolkit/rag/ragflow/rag_ragflow_service.py:153-161 | a converted chunk keeps id, content, document id and name, and takes its score from the vector similarity |
| RagRagFlowService.EveryStatusReachable | src/gws_ai_toolkit/rag/ragflow/rag_ragflow_service.py:133-151 | every backend-neutral status is produced by some RagFlow run state |
| RagRagFlowService.AnswerEvents | src/gws_ai_toolkit/rag/ragflow/rag_ragflow_service.py:82-112 | one answer yields at most one stream response |
| RagRagFlowService.ChatStream | src/gws_ai_toolkit/rag/ragflow/rag_ragflow_service.py:82-112 | the loop yields exactly the concatenated responses of the answers, in order |
| RagRagFlowService.StreamEventsShape | src/gws_ai_toolkit/rag/ragflow/rag_ragflow_service.py:82-112 | one response per assistant answer and none for the others; every text piece restarts the message and every end response has at least one source |
| RagRagFlowService.EndResponseSources | src/gws_ai_toolkit/rag/ragflow/rag_ragflow_service.py:93-109 | an assistant answer with references yields one end response for its session whose sources are the references, one for one, with their similarity as score |
| RagRagFlowService.UploadAndParseCalls | src/gws_ai_toolkit/rag/ragflow/rag_ragflow_service.py:23-28 | upload-and-parse is exactly an upload under the name upload_document chooses, then a parse of the new document |
| RagRagFlowService.UpdateAndParseCallsAsWritten | src/gws_ai_toolkit/rag/ragflow/rag_ragflow_service.py:30-34 | as written, the update deletes the old document and then uploads under the path's own file name, ignoring the given file name |
| RagRagFlowService.UpdateAndParseCalls | src/gws_ai_toolkit/rag/ragflow/rag_ragflow_service.py:30-34 | the corrected update deletes the old document and then makes exactly the calls of a fresh upload-and-parse |
| RagRagFlowService.UpdateLosesFilename | src/gws_ai_toolkit/rag/ragflow/rag_ragflow_service.py:30-34 | on a concrete input the as-written update uploads as "f1.bin" where the corrected one keeps "report.pdf" |
| RagRagFlowService.UpdateKeepsUploadName | src/gws_ai_toolkit/rag/ragflow/rag_ragflow_service.py:30-34 | for every input, the corrected update uploads under the same name as a fresh upload |
| RagRagFlowService.GetDocument | src/gws_ai_toolkit/rag/ragflow/rag_ragflow_service.py:54-60 | the result is None exactly when the dataset or the document lookup finds nothing, and otherwise the first document found, converted |
| RagRagFlowService.RetrieveChunksAsWritten | src/gws_ai_toolkit/rag/ragflow/rag_ragflow_service.py:62-75 | as written, retrieval always raises TypeError, because it passes a keyword the service method does not accept |
| RagRagFlowService.RetrieveChunks | src/gws_ai_toolkit/rag/ragflow/rag_ragflow_service.py:62-75 | the corrected retrieval succeeds and returns the retrieved chunks, converted, that belong to the requested documents, in retrieval order and with their repetitions; with no filter it returns all of them in order |
| RagRagFlowService.FilteredChunks | src/gws_ai_toolkit/rag/ragflow/rag_ragflow_service.py:62-75 | the filtered chunks all belong to the requested documents, every converted chunk of a requested document is among them, and with no filter they are all the converted chunks |
| RagRagFlowService.RetrieveChunksAlwaysFails | src/gws_ai_toolkit/rag/ragflow/rag_ragflow_service.py:62-75 | the as-written retrieval fails for every query and filter |
| RagDatahubService.SyncMetadata | src/gws_ai_toolkit/rag/common/rag_datahub_service.py:66-80 | the metadata fails with ValueError exactly when folder metadata is asked for a resource in no folder; otherwise it holds the resource id, and the root folder id exactly when asked for |
| RagDatahubService.FolderInputsContents | src/gws_ai_toolkit/rag/common/rag_datahub_service.py:166-210 | every folder id is in the chat inputs under its own key, every other key comes from the caller's inputs, and every caller input not shadowed by a folder key is kept |
| RagDatahubService.DatahubRagService.constructor | src/gws_ai_toolkit/rag/common/rag_datahub_service.py:25-27 | a new service is bound to its dataset and has made no call |
| RagDatahubService.DatahubRagService.SendResourceToRag | src/gws_ai_toolkit/rag/common/rag_datahub_service.py:29-96 | the calls made are the upload sequence with the metadata built after the upload; the resource's tags are marked synced with the new document exactly when one was linked, and are unchanged otherwise |
| RagDatahubService.DatahubRagService.DeleteResourceFromRag | src/gws_ai_toolkit/rag/common/rag_datahub_service.py:98-110 | the document is deleted from the dataset named by the resource's tag, and the sync tags are removed exactly when the deletion unmarks the resource |
| RagDatahubService.DatahubRagService.DeleteRagDocument | src/gws_ai_toolkit/rag/common/rag_datahub_service.py:112-114 | exactly one deletion of that document from this dataset is recorded |
| RagDatahubService.DatahubRagService.SendMessageStream | src/gws_ai_toolkit/rag/common/rag_datahub_service.py:166-210 | the message is sent with the inputs FolderInputs builds, and exactly one chat call is recorded |
| TagStore.TagsByKey | src/gws_ai_toolkit/rag/common/rag_resource.py:84 | the tags returned for a key are exactly the tags of the list with that key |
| TagStore.FirstValue | src/gws_ai_toolkit/rag/common/rag_resource.py:78-85 | a first value exists exactly when the key is present, and it is the value of a tag with that key |
| TagStore.WithoutKeys | src/gws_ai_toolkit/rag/common/rag_resource.py:163-172 | the remaining tags are exactly those whose key is not removed |
| TagStore.Delete | src/gws_ai_toolkit/rag/common/rag_resource.py:172 | the remaining tags are exactly those not listed for deletion |
| TagStore.TagsByKeyWithout | src/gws_ai_toolkit/rag/common/rag_resource.py:163-172 | removing keys leaves every other key's tags as they were and none of the removed keys |
| TagStore.ReplaceByKey | src/gws_ai_toolkit/rag/common/rag_resource.py:161 | after a replace, a key of the new tags has exactly the new tags and every other key keeps exactly its old ones |
| TagStore.ReplaceTwice | src/gws_ai_toolkit/rag/common/rag_resource.py:152-161 | replacing twice, the second time with at least the same keys, is one replace with the second tags |
| TagStore.DeleteIsWithoutKeys | src/gws_ai_toolkit/rag/common/rag_resource.py:163-172 | deleting a list holding exactly the tags of some keys is removing those keys |
| RagResource.KindKeys | src/gws_ai_toolkit/rag/common/rag_resource.py:29-46 | each resource wrapper uses three distinct tag keys |
| RagResource.IsCompatible | src/gws_ai_toolkit/rag/common/rag_resource.py:52-76 | compatible exactly for a file with a supported extension, rich text when JSON, and at most the size limit; malformed JSON of a supported extension raises |
| RagResource.GetFile | src/gws_ai_toolkit/rag/common/rag_resource.py:124-150 | a file is returned exactly when the resource is compatible; JSON becomes a Markdown file named after the resource in the temporary directory, anything else is sent from its own path |
| RagResource.DocumentId | src/gws_ai_toolkit/rag/common/rag_resource.py:78-85 | a document id exists exactly when the document tag is present, and it is that tag's value |
| RagResource.CheckDocumentId | src/gws_ai_toolkit/rag/common/rag_resource.py:87-92 | the checked id succeeds exactly for a synced resource and is then its document id; ValueError otherwise |
| RagResource.DatasetId | src/gws_ai_toolkit/rag/common/rag_resource.py:115-122 | the dataset id exists exactly when the dataset tag is present and is its value; ValueError otherwise |
| RagResource.SyncDate | src/gws_ai_toolkit/rag/common/rag_resource.py:99-106 | no sync tag gives None; a sync tag parses as an integer, and a value that does not parse raises ValueError |
| RagResource.CheckSyncDate | src/gws_ai_toolkit/rag/common/rag_resource.py:108-113 | the checked sync date succeeds exactly when a sync date is present and valid, and is that date |
| RagResource.IsUpToDate | src/gws_ai_toolkit/rag/common/rag_resource.py:174-179 | up to date exactly when a sync date exists and is not older than the last modification; a bad sync tag raises |
| RagResource.ChunkSeparator | src/gws_ai_toolkit/rag/common/rag_resource.py:216-223 | Markdown is split at "## " and everything else at blank lines |
| RagResource.DatasetBaseId | src/gws_ai_toolkit/rag/common/rag_resource.py:115-122 | the lab resource reads its dataset tag, and the two data hub wrappers raise AttributeError because they lack the method |
| RagResource.DatahubKey | src/gws_ai_toolkit/rag/common/rag_resource.py:193-198 | the data hub key exists exactly when the key tag is present and is its first value; ValueError otherwise |
| RagResource.ChunkMethod | src/gws_ai_toolkit/rag/ragflow/datahub_ragflow_resource.py:140-156 | the chunking template is "paper", "book", "manual", "table" or "naive" exactly for the listed extension groups |
| RagResource.ParserMethod | src/gws_ai_toolkit/rag/ragflow/datahub_ragflow_resource.py:158-174 | the parser is "manual" exactly for Markdown, HTML and PowerPoint |
| RagResource.ParserMethodDiffersOnlyOnHtml | src/gws_ai_toolkit/rag/ragflow/datahub_ragflow_resource.py:140-174 | the two maps agree on every extension except "html" and "htm", which are chunked naively but parsed as manuals |
| RagResource.MarkTags | src/gws_ai_toolkit/rag/common/rag_resource.py:152-161 | marking writes tags for exactly the three platform keys |
| RagResource.RagResource.constructor | src/gws_ai_toolkit/rag/common/rag_resource.py:48-49 | a resource wrapper keeps its kind, keys, limits, id, content, modification time and tags |
| RagResource.RagResource.Mark | src/gws_ai_toolkit/rag/common/rag_resource.py:152-161 | marking replaces the tags with the three platform tags for the new document, dataset and time |
| RagResource.RagResource.Unmark | src/gws_ai_toolkit/rag/common/rag_resource.py:163-172 | unmarking removes exactly the three platform keys from the tags |
| RagResource.MarkedValues | src/gws_ai_toolkit/rag/common/rag_resource.py:152-161 | after marking, each platform key reads back the value just written |
| RagResource.MarkedResource | src/gws_ai_toolkit/rag/common/rag_resource.py:78-179 | after marking, the resource is synced with the given document and dataset at the given time, up to date exactly when that time is not before the last modification, and every other key is unchanged |
| RagResource.UnmarkedResource | src/gws_ai_toolkit/rag/common/rag_resource.py:78-179 | after unmarking, the resource has no document id, no dataset and no sync date, is not synced nor up to date, and every other key is unchanged |
| RagResource.UnmarkUndoesMark | src/gws_ai_toolkit/rag/common/rag_resource.py:152-172 | unmarking after marking leaves the old tags without the platform keys |
| RagResource.MarkTwice | src/gws_ai_toolkit/rag/common/rag_resource.py:152-161 | marking a second time replaces the first marking entirely |
| RagResource.FindByDocumentId | src/gws_ai_toolkit/rag/common/rag_resource.py:237-247 | the resource found is the first one carrying the document tag, and None means no resource carries it |
| RagResource.FindById | src/gws_ai_toolkit/rag/common/rag_resource.py:231-235 | the resource found has that id, and None means no resource has it |
| RagResource.FromDocumentOrResourceId | src/gws_ai_toolkit/rag/common/rag_resource.py:249-256 | a document-id match wins; otherwise the lookup succeeds exactly when some resource has the id, and raises otherwise |
| RagAppService.BaseMetadata | src/gws_ai_toolkit/rag/common/base_rag_app_service.py:94-100 | the metadata before sync holds exactly the resource id, under "constellab_resource_id" |
| RagAppService.FolderMetadata | src/gws_ai_toolkit/rag/common/datahub_rag_app_service.py:80-89 | the data hub metadata holds exactly the resource id and the root folder id, and a resource in no folder raises ValueError |
| RagAppService.UploadCall | src/gws_ai_toolkit/rag/common/base_rag_app_service.py:37-92 | a synced resource updates its linked document and any other resource uploads a new one |
| RagAppService.SendSucceeds | src/gws_ai_toolkit/rag/common/base_rag_app_service.py:37-92 | a send passes exactly when the resource is compatible and the upload, metadata and tagging steps all pass, and only then links the resource to the returned document |
| RagAppService.NoOrphanDocument | src/gws_ai_toolkit/rag/common/base_rag_app_service.py:37-92 | once the backend has accepted a document, a send either links the resource to it and deletes nothing, or fails and ends by deleting that document from the same dataset |
| RagAppService.FirstCallUploadsOrUpdates | src/gws_ai_toolkit/rag/common/base_rag_app_service.py:37-92 | an incompatible resource makes no call and fails; a compatible one first uploads its file or updates its linked document |
| RagAppService.SentResourceIsLinked | src/gws_ai_toolkit/rag/common/base_rag_app_service.py:37-92 | after a successful send the resource reads back as synced with the returned document in this dataset, and up to date for any modification not after the send |
| RagAppService.DeleteSteps | src/gws_ai_toolkit/rag/common/base_rag_app_service.py:102-114 | a deletion passes exactly when the resource is synced, its dataset is known and the backend deletion passes, and only then unmarks it; an unsynced resource raises ValueError without a call |
| RagAppService.OrphanDocuments | src/gws_ai_toolkit/rag/common/base_rag_app_service.py:120-131 | a document is listed for deletion exactly when it is in the dataset and no resource carries its document tag |
| RagAppService.NeedsSync | src/gws_ai_toolkit/rag/common/base_rag_app_service.py:134-145 | a resource needs syncing exactly when it is compatible and not up to date; either check may raise, the second only for a compatible resource |
| RagAppService.ResourcesToSync | src/gws_ai_toolkit/rag/common/base_rag_app_service.py:134-145 | without an exception the list is exactly the compatible resources that are not up to date; otherwise the exception is that of a resource whose check raises |
| RagAppService.SyncedResourcesCannotBeDeletedAsWritten | src/gws_ai_toolkit/rag/common/base_rag_app_service.py:102-114 | every resource the synced listing returns is synced, and as written deleting it raises AttributeError before any call |
| RagAppService.MergeFilters | src/gws_ai_toolkit/rag/common/base_rag_app_service.py:159-194 | the chat inputs hold the default and the caller's keys, a caller's filter wins on a shared key, and every other default is kept |
| RagAppService.FolderKeyIndex | src/gws_ai_toolkit/rag/common/datahub_rag_app_service.py:74-76 | every key of the folder filter is "folder_i" for the position i of a folder |
| RagAppService.FolderFilterMapKeys | src/gws_ai_toolkit/rag/common/datahub_rag_app_service.py:74-76 | the folder filter's keys are exactly "folder_i" for the positions i of the folder list |
| RagAppService.FolderFilterMapValues | src/gws_ai_toolkit/rag/common/datahub_rag_app_service.py:74-76 | "folder_i" maps to the i-th folder id |
| RagAppService.FolderFilters | src/gws_ai_toolkit/rag/common/datahub_rag_app_service.py:74-76 | the enumeration loop builds exactly the folder filter map |
| RagAppService.SendResource | src/gws_ai_toolkit/rag/common/base_rag_app_service.py:37-92 | the calls made and the outcome are those of the send sequence, and the resource's tags are marked synced with the linked document exactly when one was linked |
| RagAppService.DeleteResource | src/gws_ai_toolkit/rag/common/base_rag_app_service.py:102-114 | the calls made and the outcome are those of the deletion sequence, and the sync tags are removed exactly when the deletion unmarks the resource |
| RagAppService.RagAppService.constructor | src/gws_ai_toolkit/rag/common/base_rag_app_service.py:22-24 | a new app service is bound to its dataset and has made no call |
| RagAppService.RagAppService.SendResourceToRag | src/gws_ai_toolkit/rag/common/base_rag_app_service.py:37-92 | the calls recorded are those of the send sequence for the resource's metadata, and the tags are marked with the linked document exactly when one was linked |
| RagAppService.RagAppService.DeleteResourceFromRagAsWritten | src/gws_ai_toolkit/rag/common/base_rag_app_service.py:102-114 | as written, the dataset comes from a getter only the lab resource has, so deleting a synced data hub resource raises AttributeError and changes nothing |
| RagAppService.RagAppService.DeleteResourceFromRag | src/gws_ai_toolkit/rag/common/base_rag_app_service.py:102-114 | the corrected deletion deletes from the dataset the resource's own dataset tag names, and unmarks the resource exactly when the deletion passes |
| RagAppService.RagAppService.DeleteRagDocument | src/gws_ai_toolkit/rag/common/base_rag_app_service.py:116-118 | exactly one deletion of that document from this dataset is recorded |
| RagAppService.RagAppService.GetRagDocumentsToDelete | src/gws_ai_toolkit/rag/common/base_rag_app_service.py:120-131 | the documents returned are exactly the dataset's orphan documents, in order |
| RagAppService.RagAppService.GetAllResourceToSync | src/gws_ai_toolkit/rag/common/base_rag_app_service.py:134-145 | the loop returns exactly the resources that need syncing, or the first exception a check raises |
| RagAppService.RagAppService.GetAllSyncedResources | src/gws_ai_toolkit/rag/common/base_rag_app_service.py:147-157 | the loop returns exactly the resources whose document tag is set, in order |
| RagAppService.RagAppService.SendMessageStream | src/gws_ai_toolkit/rag/common/base_rag_app_service.py:159-194 | the chat call receives the merged default and caller filters, and exactly one chat call is recorded |
| DatahubRagAppService.CheckBackend | src/gws_ai_toolkit/rag/common/datahub_rag_app_service.py:36-42 | construction succeeds exactly with a Dify backend and raises ValueError otherwise |
| DatahubRagAppService.DefaultFiltersOfFolders | src/gws_ai_toolkit/rag/common/datahub_rag_app_service.py:58-78 | the cached filter maps "folder_i" to the user's i-th root folder for i below twenty and holds no other key |
| DatahubRagAppService.DatahubRagAppService.constructor | src/gws_ai_toolkit/rag/common/datahub_rag_app_service.py:36-42 | a new service wraps its app service and has no cached folder list |
| DatahubRagAppService.DatahubRagAppService.Create | src/gws_ai_toolkit/rag/common/datahub_rag_app_service.py:36-42 | construction succeeds exactly with a Dify backend, raising ValueError otherwise, and wraps a fresh app service on the dataset given |
| DatahubRagAppService.DatahubRagAppService.GetChatDefaultFiltersAsWritten | src/gws_ai_toolkit/rag/common/datahub_rag_app_service.py:58-78 | as written, a cached list is kept; otherwise at most twenty root folders are cached when the user has some; the call raises TypeError exactly when the cache is still empty, and otherwise returns the folder filter |
| DatahubRagAppService.DatahubRagAppService.GetChatDefaultFilters | src/gws_ai_toolkit/rag/common/datahub_rag_app_service.py:58-78 | the corrected filter always succeeds, caches at most twenty folders (an empty list for a user without folders), and returns the folder filter of the cache |
| DatahubRagAppService.DatahubRagAppService.SendResourceToRag | src/gws_ai_toolkit/rag/common/datahub_rag_app_service.py:80-89 | the send runs with the root-folder metadata, so a resource in no folder fails after the upload and its document is deleted again |
| DatahubRagAppService.DatahubRagAppService.SendMessageStream | src/gws_ai_toolkit/rag/common/datahub_rag_app_service.py:58-78 | the chat inputs are the user's folder filter updated with the caller's filters, and exactly one chat call is recorded |
| DatahubRagAppService.DatahubRagAppService.SendMessageStreamAsWritten | src/gws_ai_toolkit/rag/common/datahub_rag_app_service.py:58-78 | as written a user with no root folders and nothing cached gets TypeError and no chat call; otherwise the inputs are the folder filter updated with the caller's filters and exactly one chat call is recorded |
| DatahubRagAppService.MessageInputsHoldFolders | src/gws_ai_toolkit/rag/common/datahub_rag_app_service.py:58-78 | every one of the user's first twenty folders reaches the chat inputs unless the caller overrides its key |
| PushResources.FileName | src/gws_ai_toolkit/tasks/push_resources_to_ragflow.py:270-356 | a resource is reported under its file name when it has a non-empty one, and under its id otherwise |
| PushResources.Decide | src/gws_ai_toolkit/tasks/push_resources_to_ragflow.py:270-356 | a synced, up-to-date resource is skipped as already synced; otherwise an incompatible one is skipped; otherwise it is sent, as an update of its old document exactly when it is synced; a bad sync date or unparsable JSON raises |
| PushResources.SendFile | src/gws_ai_toolkit/tasks/push_resources_to_ragflow.py:358-413 | the upload succeeds exactly when the upload and parse calls succeed; the old document is removed unless its deletion fails, the new one is added and parsed, and the resource is marked synced with it only on success |
| PushResources.Step | src/gws_ai_toolkit/tasks/push_resources_to_ragflow.py:270-356 | every resource gives exactly one result under its own id, and a skipped resource changes nothing |
| PushResources.UploadedResourceIsSynced | src/gws_ai_toolkit/tasks/push_resources_to_ragflow.py:270-413 | a resource is uploaded exactly when it is sent and both calls succeed; it then counts as an update exactly when it was synced, and afterwards reads back as synced with the new parsed document in the task's dataset and up to date unless changed after the mark; a synced, up-to-date resource is skipped with nothing changed |
| PushResources.UpdateReplacesOldDocument | src/gws_ai_toolkit/tasks/push_resources_to_ragflow.py:358-413 | after an update whose old document was deleted, that document is gone from the dataset; a failed deletion does not change the result |
| PushResources.Record | src/gws_ai_toolkit/tasks/push_resources_to_ragflow.py:221-268 | recording a result adds exactly one entry to one of the three lists, keeps the earlier entries, and counts one more resource |
| PushResources.AdvanceAddsId | src/gws_ai_toolkit/tasks/push_resources_to_ragflow.py:221-268 | one turn of the loop adds exactly the resource's id to the ids reported |
| PushResources.ProcessTakesOne | src/gws_ai_toolkit/tasks/push_resources_to_ragflow.py:221-268 | below the error limit, the loop takes the next resource and continues with the rest |
| PushResources.RecordAddsId | src/gws_ai_toolkit/tasks/push_resources_to_ragflow.py:221-268 | recording a result adds its resource id to the ids reported |
| PushResources.ProcessCounts | src/gws_ai_toolkit/tasks/push_resources_to_ragflow.py:221-268 | the loop reports at most one entry per resource, never more than maxErrors failures, and stops early only when failures reach maxErrors |
| PushResources.ProcessIds | src/gws_ai_toolkit/tasks/push_resources_to_ragflow.py:221-268 | the ids reported are exactly the ids of the resources taken, each once |
| PushResources.UploadsPartition | src/gws_ai_toolkit/tasks/push_resources_to_ragflow.py:221-268 | uploaded, skipped and failed partition the first resources taken, failures never exceed maxErrors, stopping early means the limit was reached, and maxErrors = 0 processes nothing |
| PushResources.DeletionEntry | src/gws_ai_toolkit/tasks/push_resources_to_ragflow.py:162-219 | a deletion entry is the service's record, or for an exception an "Unknown" entry with neither deletion done and the error kept |
| PushResources.CreateReport | src/gws_ai_toolkit/tasks/push_resources_to_ragflow.py:447-473 | each count equals its list's length, the lists and totals are those given, and the tag filter reads key=value |
| PushResources.PushResourcesToRagflow.constructor | src/gws_ai_toolkit/tasks/push_resources_to_ragflow.py:101-160 | the task starts with the given tags and dataset documents and nothing parsed |
| PushResources.PushResourcesToRagflow.UploadResource | src/gws_ai_toolkit/tasks/push_resources_to_ragflow.py:358-413 | the new state and result are those of SendFile on the old state |
| PushResources.PushResourcesToRagflow.ProcessSingleUpload | src/gws_ai_toolkit/tasks/push_resources_to_ragflow.py:270-356 | the result and new state are those of Step on the old state |
| PushResources.PushResourcesToRagflow.TakeNext | src/gws_ai_toolkit/tasks/push_resources_to_ragflow.py:253-265 | one turn of the loop records the result and the new state as Advance does |
| PushResources.PushResourcesToRagflow.ProcessUploads | src/gws_ai_toolkit/tasks/push_resources_to_ragflow.py:221-268 | the loop's three lists and final state are those of Uploads; at most one entry per resource, at most maxErrors failures, and an early stop only at the error limit |
| PushResources.PushResourcesToRagflow.ProcessDeletions | src/gws_ai_toolkit/tasks/push_resources_to_ragflow.py:162-219 | one deletion entry per marked resource, in order, each DeletionEntry of its outcome |
| PushResources.PushResourcesToRagflow.Run | src/gws_ai_toolkit/tasks/push_resources_to_ragflow.py:101-160 | deletions come first, one entry each; the report counts the resources found, its lists are those of Uploads, the counts add up to at most the total and fall short only at the error limit |
| SyncResource.PyIndex | src/gws_ai_toolkit/rag/rag_app/_rag_app/rag_app/reflex/rag_chat/config/sync_resource/sync_resource_state.py:50-59 | indexing succeeds exactly for -len <= i < len, negative indices counting from the end, and raises IndexError otherwise |
| SyncResource.Wrap | src/gws_ai_toolkit/rag/rag_app/_rag_app/rag_app/reflex/rag_chat/config/sync_resource/sync_resource_state.py:61-67 | the moved hover index wraps below 0 to the last entry and at or past the end to the first |
| SyncResource.WrapRoundTrip | src/gws_ai_toolkit/rag/rag_app/_rag_app/rag_app/reflex/rag_chat/config/sync_resource/sync_resource_state.py:61-67 | moving down then up, or up then down, returns to the same entry |
| SyncResource.FirstWithId | src/gws_ai_toolkit/rag/rag_app/_rag_app/rag_app/reflex/rag_chat/config/sync_resource/sync_resource_state.py:84-94 | the position found holds the first resource with the id, and the list length means none has it |
| SyncResource.FirstWithIdOfEntry | src/gws_ai_toolkit/rag/rag_app/_rag_app/rag_app/reflex/rag_chat/config/sync_resource/sync_resource_state.py:50-59 | with distinct ids, looking up the id of the hovered entry finds that entry |
| SyncResource.SyncResourceState.constructor | src/gws_ai_toolkit/rag/rag_app/_rag_app/rag_app/reflex/rag_chat/config/sync_resource/sync_resource_state.py:18-31 | the search starts with empty text, a closed popover, hover index 0, no resources and no selection |
| SyncResource.SyncResourceState.SetText | src/gws_ai_toolkit/rag/rag_app/_rag_app/rag_app/reflex/rag_chat/config/sync_resource/sync_resource_state.py:33-45 | typing sets the text, forgets the selection, resets the hover index and lists the resources the search found |
| SyncResource.SyncResourceState.OnInputFocus | src/gws_ai_toolkit/rag/rag_app/_rag_app/rag_app/reflex/rag_chat/config/sync_resource/sync_resource_state.py:47-48 | focusing opens the popover and changes nothing else |
| SyncResource.SyncResourceState.UpdateHoverIndex | src/gws_ai_toolkit/rag/rag_app/_rag_app/rag_app/reflex/rag_chat/config/sync_resource/sync_resource_state.py:61-67 | the hover index moves by the wrapped shift and nothing else changes |
| SyncResource.SyncResourceState.SelectResource | src/gws_ai_toolkit/rag/rag_app/_rag_app/rag_app/reflex/rag_chat/config/sync_resource/sync_resource_state.py:84-94 | a listed id selects its first resource, closes the popover and shows its name; an unlisted id changes nothing |
| SyncResource.SyncResourceState.OnInputKeyDown | src/gws_ai_toolkit/rag/rag_app/_rag_app/rag_app/reflex/rag_chat/config/sync_resource/sync_resource_state.py:50-59 | as written: Enter raises IndexError exactly on an empty list; in this reflex copy the background handler it calls is never awaited, so nothing is selected, while the components copy selects the hovered resource; the arrows move the hover index with wrap-around; any other key changes nothing |
| SyncResource.SyncResourceState.OnInputKeyDownIntended | src/gws_ai_toolkit/rag/rag_app/_rag_app/rag_app/components/config/sync_resource/sync_resource_state.py:46-55 | as intended: Enter selects the hovered resource and raises IndexError exactly on an empty list; the arrows move the hover index with wrap-around; any other key changes nothing |
| SyncResource.SyncResourceState.NoResourcesFound | src/gws_ai_toolkit/rag/rag_app/_rag_app/rag_app/reflex/rag_chat/config/sync_resource/sync_resource_state.py:73-75 | true exactly when the search found nothing |
| SyncResource.SyncResourceState.SelectedResourceInfo | src/gws_ai_toolkit/rag/rag_app/_rag_app/rag_app/reflex/rag_chat/config/sync_resource/sync_resource_state.py:77-82 | information exists exactly when something is selected and carries its id and name |
| SyncResource.SyncResourceState.IsSelectedCompatible | src/gws_ai_toolkit/rag/rag_app/_rag_app/rag_app/reflex/rag_chat/config/sync_resource/sync_resource_state.py:96-101 | false without a selection, otherwise the compatibility check of the selected resource |
| SyncResource.SyncResourceState.SelectedDatasetId | src/gws_ai_toolkit/rag/rag_app/_rag_app/rag_app/reflex/rag_chat/config/sync_resource/sync_resource_state.py:110-118 | "" unless a synced resource is selected; a non-empty result is the value of the dataset tag |
| SyncResource.SyncResourceState.SelectedDocumentId | src/gws_ai_toolkit/rag/rag_app/_rag_app/rag_app/reflex/rag_chat/config/sync_resource/sync_resource_state.py:120-128 | "" unless a synced resource is selected, and otherwise its document id |
| SyncResource.SyncResourceState.SelectedSyncDate | src/gws_ai_toolkit/rag/rag_app/_rag_app/rag_app/reflex/rag_chat/config/sync_resource/sync_resource_state.py:130-139 | "" unless a synced resource with a sync tag is selected; a valid sync date is shown through the format |
| CommunityFiles.RagTagKeys | src/gws_ai_toolkit/services/community_resource_files_manager_service.py:93-114 | the RAG link consists of exactly three tag keys |
| CommunityFiles.CopiedTagsSound | src/gws_ai_toolkit/services/community_resource_files_manager_service.py:93-114 | the copy holds at most one tag per key, each the first tag of its key in the list, and one for every listed key the list has |
| CommunityFiles.CopiedTagsOfNone | src/gws_ai_toolkit/services/community_resource_files_manager_service.py:93-114 | a resource without tags passes none on |
| CommunityFiles.CopyRagTags | src/gws_ai_toolkit/services/community_resource_files_manager_service.py:93-114 | the copying loop returns exactly CopiedTags for the three RAG keys, hence at most three tags |
| CommunityFiles.ShouldUpdateResource | src/gws_ai_toolkit/services/community_resource_files_manager_service.py:117-150 | the download is skipped exactly when a resource exists whose stored date equals the non-empty new date; RAG tags are carried over exactly when an existing resource is replaced |
| CommunityFiles.ShouldUpdateCases | src/gws_ai_toolkit/services/community_resource_files_manager_service.py:117-150 | a new document is always downloaded with no tags to copy; an unchanged date skips; a changed or empty date replaces the resource and copies its RAG tags |
| CommunityFiles.FirstResult | src/gws_ai_toolkit/services/community_resource_files_manager_service.py:57-75 | the first search result is None exactly for an empty search and otherwise the first entry |
| CommunityFiles.SaveOrigin | src/gws_ai_toolkit/services/community_resource_files_manager_service.py:152-177 | a saved resource counts as generated exactly when a scenario and a task are both present |
| CommunityFiles.WithTagKeysSound | src/gws_ai_toolkit/services/community_resource_files_manager_service.py:42-55 | known keys keep their labels, every listed key ends up known, and every created key carries a label listed with it |
| CommunityFiles.Marked | src/gws_ai_toolkit/services/community_resource_files_manager_service.py:179-212 | marking never adds or removes a resource |
| CommunityFiles.MarkOne | src/gws_ai_toolkit/services/community_resource_files_manager_service.py:179-212 | marking an existing resource appends the deletion tag to its tags |
| CommunityFiles.MarkStep | src/gws_ai_toolkit/services/community_resource_files_manager_service.py:179-212 | marking one more listed id adds the deletion tag to it, and the count grows exactly when the resource exists |
| CommunityFiles.MarkedSound | src/gws_ai_toolkit/services/community_resource_files_manager_service.py:179-212 | every listed existing resource keeps its tags followed by the deletion tag, and every unlisted one is untouched |
| CommunityFiles.MarkEach | src/gws_ai_toolkit/services/community_resource_files_manager_service.py:179-212 | the loop produces the marked store and counts exactly the listed ids that exist |
| CommunityFiles.SearchSound | src/gws_ai_toolkit/services/community_resource_files_manager_service.py:77-91 | a tag search returns exactly the stored resources carrying every wanted tag, each once |
| CommunityFiles.FindByTagSound | src/gws_ai_toolkit/services/community_resource_files_manager_service.py:57-75 | a found resource exists and carries the tag, and None means no stored resource carries it |
| CommunityFiles.ResourceStore.constructor | src/gws_ai_toolkit/services/community_resource_files_manager_service.py:18-40 | the store starts with the given tag keys and no resource |
| CommunityFiles.ResourceStore.Save | src/gws_ai_toolkit/services/community_resource_files_manager_service.py:152-177 | saving stores the tags under a fresh id not used before and leaves every other resource and the tag keys alone |
| CommunityFiles.ResourceStore.Delete | src/gws_ai_toolkit/services/community_resource_files_manager_service.py:179-212 | deleting removes exactly that resource |
| CommunityFiles.ResourceStore.EnsureTagKeysExist | src/gws_ai_toolkit/services/community_resource_files_manager_service.py:42-55 | the tag keys become WithTagKeys of the old ones and the resources are untouched |
| CommunityFiles.ResourceStore.MarkResourcesForDeletion | src/gws_ai_toolkit/services/community_resource_files_manager_service.py:179-212 | every listed existing resource is tagged for deletion, and the count returned is the number of listed ids that exist |
| CommunityFiles.ResourceStore.HandleNoDocumentationCase | src/gws_ai_toolkit/services/community_resource_files_manager_service.py:214-246 | with no documentation left, every existing resource listed is tagged for deletion |
| CommunityFiles.ResourceStore.CopyRagTagsFromResourceId | src/gws_ai_toolkit/services/community_download_service.py:97-106 | a stored resource passes on its RAG tags and an unknown id passes none |
| CommunityDownloads.FixedTags | src/gws_ai_toolkit/tasks/download_brick_documentation.py:180-184 | a new file carries the send_to_rag tag of its kind and the id tag of its page, and never a modification-date tag among these |
| CommunityDownloads.NewFileTags | src/gws_ai_toolkit/tasks/download_brick_documentation.py:180-190 | a new file carries the fixed tags, the page's modification date when it has one, and every RAG tag copied from the file it replaces |
| CommunityDownloads.SavedFileIsUpToDate | src/gws_ai_toolkit/tasks/download_brick_documentation.py:150-190 | a file just saved for a dated page is skipped by the next run |
| CommunityDownloads.TallyAllTotal | src/gws_ai_toolkit/tasks/download_brick_documentation.py:129-217 | when every page is counted, the four counters add up to the number of pages |
| CommunityDownloads.DocOutcomeCases | src/gws_ai_toolkit/tasks/download_brick_documentation.py:135-217 | every page is counted once: skipped exactly when the stored file has the same non-empty date, failed when a needed download fails, updated when it replaces a stored file and downloaded when it is new |
| CommunityDownloads.ScannedOutcomes | src/gws_ai_toolkit/tasks/download_brick_documentation.py:135-217 | every page of a run is counted by DocOutcome, and its lookup found a file exactly when it saw that file's tags |
| CommunityDownloads.ScannedSnoc | src/gws_ai_toolkit/tasks/download_brick_documentation.py:135-217 | one more page step extends a run of the loop |
| CommunityDownloads.ProcessDocument | src/gws_ai_toolkit/tasks/download_brick_documentation.py:140-210 | one page looks its file up by id tag, is counted by DocOutcome, and changes the store as StoreStep says: a new file under the next id, the replaced one deleted on update, nothing otherwise |
| CommunityDownloads.SaveReplacing | src/gws_ai_toolkit/tasks/download_brick_documentation.py:192-203 | the new file is stored under the next id and the file it replaces, if any, is deleted |
| CommunityDownloads.CheckStep | src/gws_ai_toolkit/tasks/download_brick_documentation.py:147-149 | after one more page, a tracked file is checked exactly when some page so far found it |
| CommunityDownloads.CheckedAfterSound | src/gws_ai_toolkit/tasks/download_brick_documentation.py:120-149 | the checked map tracks exactly the existing files, and a file is checked exactly when some page's lookup found it |
| CommunityDownloads.AllCounted | src/gws_ai_toolkit/tasks/download_brick_documentation.py:135-217 | no page of a run is left uncounted |
| CommunityDownloads.UncheckedSound | src/gws_ai_toolkit/tasks/download_brick_documentation.py:219-220 | the sweep lists exactly the existing files that no page's lookup found |
| CommunityDownloads.VisitPage | src/gws_ai_toolkit/tasks/download_brick_documentation.py:135-217 | one pass counts the page, updates the checked map and the counters, and takes the store one page step |
| CommunityDownloads.ScanDocuments | src/gws_ai_toolkit/tasks/download_brick_documentation.py:120-217 | the loop takes the store from its old state through one page step per listed page to its final state; the counters tally the outcomes and the checked map records which existing files were found |
| CommunityDownloads.Reconcile | src/gws_ai_toolkit/tasks/download_brick_documentation.py:120-222 | a run of page steps from the old store, whose counters add up to the number of pages, followed by marking for deletion exactly the existing files no page found |
| CommunityAnswers.Lookup | src/gws_ai_toolkit/tasks/download_community_stories.py:276-279 | a field is found exactly when the dict has one of that name, and its value is that field's |
| CommunityAnswers.Converted | src/gws_ai_toolkit/tasks/download_community_stories.py:289-292 | one converted page per entry, in order |
| CommunityAnswers.ParseDocumentations | src/gws_ai_toolkit/tasks/download_bricks_documentation.py:438-481 | an answer that is not a list gives no page, and a list gives at most one page per entry |
| CommunityAnswers.FetchBrickDocumentations | src/gws_ai_toolkit/tasks/download_bricks_documentation.py:438-481 | the fetch loop returns exactly the pages of the dict entries of a list answer |
| CommunityAnswers.DocEntriesSound | src/gws_ai_toolkit/tasks/download_bricks_documentation.py:467-474 | every page comes from a dict entry of the list |
| CommunityAnswers.DocEntriesOfObjects | src/gws_ai_toolkit/tasks/download_bricks_documentation.py:467-474 | a list of dicts is converted whole, one page per entry, in order |
| CommunityAnswers.DocEntriesOfNoObject | src/gws_ai_toolkit/tasks/download_bricks_documentation.py:467-474 | a list holding no dict gives no page |
| CommunityAnswers.GroupDocs | src/gws_ai_toolkit/tasks/download_bricks_documentation.py:525-533 | a type group that is a list gives one page per entry, converted with the type; anything else gives none |
| CommunityAnswers.GroupsSound | src/gws_ai_toolkit/tasks/download_bricks_documentation.py:525-533 | every type keeps its name and position and its pages are those of GroupDocs |
| CommunityAnswers.ParseTechDocs | src/gws_ai_toolkit/tasks/download_bricks_documentation.py:503-542 | a dict answer gives one group per type (none for an error answer), and any non-dict answer raises AttributeError |
| CommunityAnswers.ParseTechDocsCounted | src/gws_ai_toolkit/tasks/download_brick_technical_documentation.py:270-300 | in the technical documentation task a dict answer parses as in ParseTechDocs, a number, boolean or null raises TypeError and a string or list AttributeError |
| CommunityAnswers.Typed | src/gws_ai_toolkit/tasks/download_brick_technical_documentation.py:123-128 | each page of a group is stamped with the group's type |
| CommunityAnswers.GroupsPageCount | src/gws_ai_toolkit/tasks/download_bricks_documentation.py:525-537 | grouping converts each listed entry into exactly one page |
| CommunityAnswers.FlattenedSound | src/gws_ai_toolkit/tasks/download_brick_technical_documentation.py:123-128 | the flattened list holds exactly the pages of every group, each stamped with its group's type |
| CommunityAnswers.FlattenTechDocs | src/gws_ai_toolkit/tasks/download_brick_technical_documentation.py:123-128 | the nested loop builds exactly the flattened list |
| CommunityAnswers.PageStories | src/gws_ai_toolkit/tasks/download_community_stories.py:270-292 | a page that is not a dict raises AttributeError; a dict without objects lists nothing; a non-empty dict as objects raises KeyError; a list of objects gives one story per object |
| CommunityAnswers.LastDefaultsToTrue | src/gws_ai_toolkit/tasks/download_community_stories.py:279 | a page without "last" ends the listing |
| CommunityAnswers.ReadsOnAll | src/gws_ai_toolkit/tasks/download_community_stories.py:251-296 | reading goes on past page n exactly when no page before it ends the listing |
| CommunityAnswers.ReadsOnPage | src/gws_ai_toolkit/tasks/download_community_stories.py:251-296 | a page before one that is read does not end the listing |
| CommunityAnswers.ReadsOnFromPages | src/gws_ai_toolkit/tasks/download_community_stories.py:251-296 | pages that do not end the listing are all read past |
| CommunityAnswers.ReadsOnBelow | src/gws_ai_toolkit/tasks/download_community_stories.py:251-296 | reading never goes past a page that ends the listing |
| CommunityAnswers.ReadStep | src/gws_ai_toolkit/tasks/download_community_stories.py:251-296 | reading one more page appends its stories after the others, and the page ends the listing exactly when it is the last page |
| CommunityAnswers.ReadNext | src/gws_ai_toolkit/tasks/download_community_stories.py:251-296 | reading the next page adds its stories, and the loop stops exactly when that page ends the listing |
| CommunityAnswers.ReadPage | src/gws_ai_toolkit/tasks/download_community_stories.py:251-296 | one turn of the loop reads the next page without passing a page that ends the listing |
| CommunityAnswers.FetchAllStories | src/gws_ai_toolkit/tasks/download_community_stories.py:240-299 | as written, when some page ends the listing, the loop stops at the first such page and returns the stories of every page read, in order, or the error of the page that raised |
| CommunityAnswers.UnendingListingReadsEveryPage | src/gws_ai_toolkit/tasks/download_community_stories.py:251-296 | when no page ends the listing, every page is read without error, so the loop as written never stops |
| CommunityAnswers.FetchStoriesWithFuel | src/gws_ai_toolkit/tasks/download_community_stories.py:240-299 | followed for a bounded number of pages, the loop gives what it returns when a page below the bound ends the listing (always so when such a page exists), and otherwise is still reading, no page so far having ended the listing |
| CommunityAnswers.StoriesUpToOk | src/gws_ai_toolkit/tasks/download_community_stories.py:289-292 | when every page reads, the listing is their stories in page order |
| CommunityTasks.TechMarkdown | src/gws_ai_toolkit/tasks/download_bricks_documentation.py:544-608 | a download gives content exactly for a 2xx reply with non-empty content, and never raises |
| CommunityTasks.ReconcileAndSummarize | src/gws_ai_toolkit/tasks/download_brick_documentation.py:120-237 | the reconciliation is a run of page steps from the old store, the summary accounts for every page, and exactly the unfound existing files are marked |
| CommunityTasks.DownloadBrickDocumentation | src/gws_ai_toolkit/tasks/download_brick_documentation.py:82-239 | the tag keys are created; an empty list ends with the store untouched; otherwise the brick's stored documentation files are reconciled with the list |
| CommunityTasks.DownloadBrickTechnicalDocumentation | src/gws_ai_toolkit/tasks/download_brick_technical_documentation.py:83-258 | the task succeeds exactly for a dict answer and otherwise leaves the store untouched; no group marks every stored technical file of the brick; otherwise the flattened pages are reconciled with those files |
| CommunityTasks.DownloadCommunityStories | src/gws_ai_toolkit/tasks/download_community_stories.py:82-238 | followed for a bounded number of pages: still reading leaves the store untouched; a failing page ends the task with its error and the store untouched; no story marks every stored story file; otherwise the stories are reconciled with them |
| CommunityTasks.ProcessBrickDocumentation | src/gws_ai_toolkit/tasks/download_bricks_documentation.py:155-288 | every listed page is counted once, and an empty list counts nothing and marks every stored documentation file of the brick |
| CommunityTasks.ProcessBrickTechnicalDocumentation | src/gws_ai_toolkit/tasks/download_bricks_documentation.py:290-436 | the brick's technical documentation succeeds exactly for a dict answer, leaves the store untouched otherwise, and counts every listed page once |
| CommunityTasks.DocCounts | src/gws_ai_toolkit/tasks/download_bricks_documentation.py:90-153 | one page count per answer |
| CommunityTasks.TechCounts | src/gws_ai_toolkit/tasks/download_bricks_documentation.py:90-153 | one page count per answer |
| CommunityTasks.DocCountsAll | src/gws_ai_toolkit/tasks/download_bricks_documentation.py:90-153 | each documentation count is the number of pages its answer lists |
| CommunityTasks.TechCountsAll | src/gws_ai_toolkit/tasks/download_bricks_documentation.py:90-153 | each technical documentation count is the number of pages its answer lists |
| CommunityTasks.DictsUpToAll | src/gws_ai_toolkit/tasks/download_bricks_documentation.py:90-153 | the brick loop gets past the first i bricks exactly when their technical answers are all dicts |
| CommunityTasks.DictsUpToFails | src/gws_ai_toolkit/tasks/download_bricks_documentation.py:90-153 | an answer that is not a dict makes every longer run of bricks fail |
| CommunityTasks.ProcessBrick | src/gws_ai_toolkit/tasks/download_bricks_documentation.py:90-153 | one brick counts all its documentation pages, and its technical documentation succeeds exactly for a dict answer and then counts all its pages |
| CommunityTasks.BrickStep | src/gws_ai_toolkit/tasks/download_bricks_documentation.py:90-153 | one turn adds the brick's page counts to the totals, and fails exactly when its technical answer is not a dict |
| CommunityTasks.ProcessBricks | src/gws_ai_toolkit/tasks/download_bricks_documentation.py:90-153 | the brick loop fails exactly when some technical answer is not a dict, and otherwise its totals add up every brick's pages |
| CommunityTasks.DownloadBricksDocumentation | src/gws_ai_toolkit/tasks/download_bricks_documentation.py:90-153 | the tag keys are created; the task fails exactly when some technical answer is not a dict, and otherwise counts every listed page of every brick once |
| StatsResults.NewResult | src/gws_ai_toolkit/stats/ai_table_stats_type.py:197-202 | a result keeps its name, text, values and details, and has a scientific rendering exactly for each value present |
| StatsResults.SummaryAppend | src/gws_ai_toolkit/stats/ai_table_stats_type.py:246-250 | adding a result adds its block at the end of the text summary, after a new line unless it is the first |
| StatsResults.ResultList.constructor | src/gws_ai_toolkit/stats/ai_table_stats_type.py:232-233 | a list built from None is empty, otherwise it holds the given results |
| StatsResults.ResultList.AddResult | src/gws_ai_toolkit/stats/ai_table_stats_type.py:235-236 | adding appends the result at the end |
| StatsResults.ResultList.GetLastResult | src/gws_ai_toolkit/stats/ai_table_stats_type.py:238-241 | the last result is None exactly for an empty list and otherwise the final entry |
| StatsResults.ResultList.GetAiTextSummary | src/gws_ai_toolkit/stats/ai_table_stats_type.py:246-250 | the summary loop produces one block per result, in order, separated by new lines |
| StatsResults.ResultList.ContainsTest | src/gws_ai_toolkit/stats/ai_table_stats_type.py:252-253 | true exactly when some result has that test name |
| StatsResults.AnyNamed | src/gws_ai_toolkit/stats/ai_table_stats_type.py:252-253 | the scan from the front finds a name exactly when some result has it |
| StatsResults.AddedResultIsFound | src/gws_ai_toolkit/stats/ai_table_stats_type.py:235-253 | a result added is found by its name, and every name found before is still found |
| StatsPairwise.IndexOf | src/gws_ai_toolkit/stats/ai_table_stats_tests_pairwise.py:35-41 | the position returned holds the column, and no earlier position does |
| StatsPairwise.CountMonotone | src/gws_ai_toolkit/stats/ai_table_stats_tests_pairwise.py:53-111 | a stronger condition counts no more indices |
| StatsPairwise.SumMonotone | src/gws_ai_toolkit/stats/ai_table_stats_tests_pairwise.py:89-111 | a smaller summand everywhere gives a smaller sum |
| StatsPairwise.GetSet | src/gws_ai_toolkit/stats/ai_table_stats_tests_pairwise.py:44-111 | setting a cell of the p-value matrix changes that cell only |
| StatsPairwise.GetClear | src/gws_ai_toolkit/stats/ai_table_stats_tests_pairwise.py:83-88 | clearing cells to NaN changes those cells only |
| StatsPairwise.PairwiseResult | src/gws_ai_toolkit/stats/ai_table_stats_tests_pairwise.py:18-146 | fewer than two columns or an unknown reference raise ValueError; a result carries the test's name, no global statistic or p-value, row names equal to the columns and at least one comparison |
| StatsPairwise.SetDiagonal | src/gws_ai_toolkit/stats/ai_table_stats_tests_pairwise.py:47-50 | the diagonal loop sets exactly the diagonal cells to the diagonal value |
| StatsPairwise.CompareWithReference | src/gws_ai_toolkit/stats/ai_table_stats_tests_pairwise.py:56-81 | the reference loop sets the reference row and column from each comparison sharing more than one row (NaN otherwise), counting the comparisons made and the significant ones |
| StatsPairwise.ClearOthers | src/gws_ai_toolkit/stats/ai_table_stats_tests_pairwise.py:83-88 | clearing the cells outside the reference row and column keeps the matrix of the reference mode |
| StatsPairwise.RowFilled | src/gws_ai_toolkit/stats/ai_table_stats_tests_pairwise.py:89-111 | a finished row of the all-pairs matrix is the start of the next one |
| StatsPairwise.CompareRow | src/gws_ai_toolkit/stats/ai_table_stats_tests_pairwise.py:91-111 | one row of the all-pairs loop fills that row and counts its compared and significant pairs with i < j |
| StatsPairwise.CompareAllPairs | src/gws_ai_toolkit/stats/ai_table_stats_tests_pairwise.py:89-111 | the all-pairs loop fills every cell from its own comparison (NaN when the columns share at most one row) and counts each compared and significant pair with i < j |
| StatsPairwise.PerformPairwiseAnalysis | src/gws_ai_toolkit/stats/ai_table_stats_tests_pairwise.py:18-146 | the step-by-step analysis returns exactly PairwiseResult |
| StatsPairwise.StudentIndependentPairwise | src/gws_ai_toolkit/stats/ai_table_stats_tests_pairwise.py:148-167 | the pairwise t-test is the analysis under its name with 1.0 on the diagonal |
| StatsPairwise.PearsonPairwise | src/gws_ai_toolkit/stats/ai_table_stats_tests_pairwise.py:174-193 | the pairwise Pearson test is the analysis under its name with 1.0 on the diagonal |
| StatsPairwise.SpearmanPairwise | src/gws_ai_toolkit/stats/ai_table_stats_tests_pairwise.py:195-216 | the pairwise Spearman test is the analysis under its name with 1.0 on the diagonal |
| StatsPairwise.SignificantAtMostTotal | src/gws_ai_toolkit/stats/ai_table_stats_tests_pairwise.py:53-111 | no more comparisons are significant than were made |
| StatsPairwise.ReferenceColumnOnly | src/gws_ai_toolkit/stats/ai_table_stats_tests_pairwise.py:56-81 | with a reference the result has only that column, holding for each column the p-value of its comparison with the reference (the diagonal for the reference itself, NaN when they share at most one row) |
| StatsPairwise.RowPairsCount | src/gws_ai_toolkit/stats/ai_table_stats_tests_pairwise.py:104-106 | the pairs counted in a row are exactly the compared pairs (k, j) with k < j |
| StatsPairwise.PairsBelowSplit | src/gws_ai_toolkit/stats/ai_table_stats_tests_pairwise.py:89-111 | the pairs of the first k rows are those of the first k-1 rows plus the disjoint pairs of row k-1 |
| StatsPairwise.PairsBelowCount | src/gws_ai_toolkit/stats/ai_table_stats_tests_pairwise.py:89-111 | the count after k rows is the number of compared unordered pairs among them |
| StatsPairwise.EachPairCountedOnce | src/gws_ai_toolkit/stats/ai_table_stats_tests_pairwise.py:104-108 | without a reference each unordered pair of columns sharing more than one row is counted exactly once |
| StatsPairwise.WordingFollowsTestName | src/gws_ai_toolkit/stats/ai_table_stats_tests_pairwise.py:123-133 | whatever the counts, the correlation tests report correlations and the pairwise t-test reports differences |
| StatsPairwise.PearsonMentionsCorrelation | src/gws_ai_toolkit/stats/ai_table_stats_tests_pairwise.py:124 | the Pearson test's name contains "correlation" in lower case |
| StatsPairwise.SpearmanMentionsCorrelation | src/gws_ai_toolkit/stats/ai_table_stats_tests_pairwise.py:124 | the Spearman test's name contains "correlation" in lower case |
| StatsPairwise.StudentOmitsCorrelation | src/gws_ai_toolkit/stats/ai_table_stats_tests_pairwise.py:124 | the pairwise t-test's name does not contain "correlation" |
| StatsDecision.DropNa | src/gws_ai_toolkit/rag/rag_app/_rag_app/rag_app/reflex/ai_table/stats/ai_table_stats_class.py:70 | the rows kept are exactly the rows without a missing value |
| StatsDecision.NormalityTest | src/gws_ai_toolkit/stats/ai_table_stats_class.py:233-266 | Shapiro-Wilk exactly below 50 rows, Kolmogorov-Smirnov exactly from 50 rows on |
| StatsDecision.NormalityTexts | src/gws_ai_toolkit/stats/ai_table_stats_class.py:233-266 | one text per column, each the result text of that column's normality test |
| StatsDecision.NormalityResults | src/gws_ai_toolkit/rag/rag_app/_rag_app/rag_app/reflex/ai_table/stats/ai_table_stats_class.py:207-240 | one result per column, each the result of that column's normality test, in column order |
| StatsDecision.QuantitativeSteps | src/gws_ai_toolkit/stats/ai_table_stats_class.py:136-231 | the quantitative analysis records the normality summary, then the homogeneity test, then the branch those two choose, and ends as that branch ends |
| StatsDecision.Correction | src/gws_ai_toolkit/stats/ai_table_stats_class.py:305-361 | Scheffe exactly for paired columns, Bonferroni exactly for fewer than 30 independent columns, Tukey HSD exactly from 30 independent columns on |
| StatsDecision.AiTableStats.constructor | src/gws_ai_toolkit/stats/ai_table_stats_class.py:92-96 | the analysis starts with an empty history on the frame as given; the older copy keeps only the rows without missing values |
| StatsDecision.AiTableStats.RecordTest | src/gws_ai_toolkit/stats/ai_table_stats_class.py:92-96 | recording appends the result to the history |
| StatsDecision.AiTableStats.TestNormality | src/gws_ai_toolkit/stats/ai_table_stats_class.py:233-266 | the column loop reports normal data exactly when every column passes, and records exactly the normality summary |
| StatsDecision.AiTableStats.TestHomogeneity | src/gws_ai_toolkit/stats/ai_table_stats_class.py:268-284 | variances are homogeneous exactly when the p-value of Bartlett (normal data) or Levene exceeds 0.05, and that result is recorded |
| StatsDecision.AiTableStats.AnalyzeQualitative | src/gws_ai_toolkit/stats/ai_table_stats_class.py:105-134 | the qualitative branch records the tests of QualitativeAnalysis and ends as it does |
| StatsDecision.AiTableStats.RunWithPostHoc | src/gws_ai_toolkit/stats/ai_table_stats_class.py:176-181 | the omnibus result is recorded, followed by the post-hoc result exactly when allowed and the omnibus p-value is below 0.05 |
| StatsDecision.AiTableStats.AnalyzeParametric | src/gws_ai_toolkit/stats/ai_table_stats_class.py:148-184 | the parametric branch records the tests of ParametricAnalysis and ends as it does, failing for more than two paired columns |
| StatsDecision.AiTableStats.AnalyzeNonParametric | src/gws_ai_toolkit/stats/ai_table_stats_class.py:184-231 | the non-parametric branch records the tests of NonParametricAnalysis and ends as it does |
| StatsDecision.AiTableStats.AnalyzeBranch | src/gws_ai_toolkit/stats/ai_table_stats_class.py:148-231 | the branch taken is the parametric one exactly when the path says so |
| StatsDecision.AiTableStats.ChoosePath | src/gws_ai_toolkit/stats/ai_table_stats_class.py:136-147 | the first two steps record the normality summary and the homogeneity test, and choose the parametric path exactly when ParametricPath holds |
| StatsDecision.AiTableStats.AnalyzeQuantitative | src/gws_ai_toolkit/stats/ai_table_stats_class.py:136-231 | the quantitative branch records the tests of QuantitativeAnalysis and ends as it does |
| StatsDecision.AiTableStats.RunStatisticalAnalysis | src/gws_ai_toolkit/stats/ai_table_stats_class.py:98-103 | the whole analysis records exactly the tests of StatisticalAnalysis and ends as it does |
| StatsDecision.AiTableStats.SuggestedAdditionalTests | src/gws_ai_toolkit/stats/ai_table_stats_class.py:286-303 | the pairwise t-test is suggested exactly when ANOVA was run and the pairwise t-test was not |
| StatsDecision.AiTableStats.RunStudentIndependentPairwise | src/gws_ai_toolkit/stats/ai_table_stats_class.py:305-361 | without ANOVA and Tukey HSD in the history it raises ValueError and records nothing; otherwise it records the raw pairwise result and its correction, returns the correction, and passes a pairwise error through |
| StatsDecision.ValidateData | src/gws_ai_toolkit/rag/rag_app/_rag_app/rag_app/reflex/ai_table/stats/ai_table_relation_stats.py:49-63 | the data pass exactly when there are at least two columns, all numeric, and a given reference names one of them; otherwise ValueError |
| StatsDecision.AiTableRelationStats.constructor | src/gws_ai_toolkit/rag/rag_app/_rag_app/rag_app/reflex/ai_table/stats/ai_table_relation_stats.py:44-47 | the analysis starts with an empty history on the frame and reference given |
| StatsDecision.AiTableRelationStats.RecordTest | src/gws_ai_toolkit/rag/rag_app/_rag_app/rag_app/reflex/ai_table/stats/ai_table_relation_stats.py:11-118 | recording appends the result to the history |
| StatsDecision.AiTableRelationStats.RunCorrelationAnalysis | src/gws_ai_toolkit/rag/rag_app/_rag_app/rag_app/reflex/ai_table/stats/ai_table_relation_stats.py:65-118 | as intended: the correlation analysis records exactly the tests of CorrelationAnalysis (Pearson then Spearman) and ends as it does |
| StatsDecision.AiTableRelationStats.RunCorrelationAnalysisAsWritten | src/gws_ai_toolkit/rag/rag_app/_rag_app/rag_app/reflex/ai_table/stats/ai_table_relation_stats.py:65-93 | as written the analysis records exactly what CorrelationAnalysisAsWritten gives and ends as it does |
| StatsDecision.AllNormalIff | src/gws_ai_toolkit/stats/ai_table_stats_class.py:233-266 | the data are normal exactly when every column's normality p-value exceeds 0.05 |
| StatsDecision.NormalityThenHomogeneity | src/gws_ai_toolkit/stats/ai_table_stats_class.py:136-147 | for quantitative data the summary comes first, names Shapiro-Wilk exactly below 50 rows, holds one text per column (the column results themselves in the older copy) and says normal exactly when every column passes; the homogeneity test comes second, Bartlett exactly for normal data |
| StatsDecision.HasTestIffNamed | src/gws_ai_toolkit/stats/ai_table_stats_class.py:286-303 | a test is in the history exactly when its name is among the recorded names |
| StatsDecision.BranchNames | src/gws_ai_toolkit/stats/ai_table_stats_class.py:148-231 | the names the chosen branch records, by path, column count and independence |
| StatsDecision.ParametricNames | src/gws_ai_toolkit/stats/ai_table_stats_class.py:148-184 | the names the parametric branch records |
| StatsDecision.NonParametricNames | src/gws_ai_toolkit/stats/ai_table_stats_class.py:184-231 | the names the non-parametric branch records |
| StatsDecision.QuantitativeNames | src/gws_ai_toolkit/stats/ai_table_stats_class.py:136-231 | the quantitative analysis records the summary name, the homogeneity name and the branch names |
| StatsDecision.AnalysisNames | src/gws_ai_toolkit/stats/ai_table_stats_class.py:98-231 | the names of a whole analysis: the qualitative test, or the summary, the homogeneity test and the branch |
| StatsDecision.AnalysisNamesSplit | src/gws_ai_toolkit/stats/ai_table_stats_class.py:98-231 | the names of an analysis are the early names followed, for quantitative data, by the branch names |
| StatsDecision.InBranchOnly | src/gws_ai_toolkit/stats/ai_table_stats_class.py:148-231 | a post-hoc or omnibus name unused before the branch is recorded exactly when the data are quantitative and the branch records it |
| StatsDecision.BranchAnova | src/gws_ai_toolkit/stats/ai_table_stats_class.py:167-181 | the branch records ANOVA exactly on the parametric path with more than two independent columns |
| StatsDecision.BranchTukey | src/gws_ai_toolkit/stats/ai_table_stats_class.py:167-181 | the branch records Tukey HSD exactly when it records ANOVA and ANOVA is significant |
| StatsDecision.BranchDunn | src/gws_ai_toolkit/stats/ai_table_stats_class.py:203-231 | the branch records Dunn exactly on the non-parametric path with more than two columns when Kruskal-Wallis or, in the current package, Friedman is significant |
| StatsDecision.AnovaIff | src/gws_ai_toolkit/stats/ai_table_stats_class.py:98-231 | ANOVA is run exactly for quantitative data on the parametric path with more than two independent columns |
| StatsDecision.TukeyIffSignificantAnova | src/gws_ai_toolkit/stats/ai_table_stats_class.py:167-181 | Tukey HSD is run exactly when ANOVA is run and significant |
| StatsDecision.DunnIffSignificant | src/gws_ai_toolkit/stats/ai_table_stats_class.py:203-231 | Dunn is run exactly when the non-parametric omnibus test of more than two columns is significant (Friedman only in the current package) |
| StatsDecision.CorrelationNames | src/gws_ai_toolkit/rag/rag_app/_rag_app/rag_app/reflex/ai_table/stats/ai_table_relation_stats.py:65-118 | a passing analysis records a Pearson result then a Spearman result, a failing one at most one result, and invalid data record nothing and fail with ValueError |
| StatsDecision.CorrelationAsWrittenFailsOnTwoColumns | src/gws_ai_toolkit/rag/rag_app/_rag_app/rag_app/reflex/ai_table/stats/ai_table_relation_stats.py:73-93 | as written every valid two-column analysis fails with AttributeError and records nothing, where the intended one passes with a Pearson then a Spearman result; on every other frame the two agree |
| StatsDecision.FailsIff | src/gws_ai_toolkit/stats/ai_table_stats_class.py:98-231 | the analysis fails with ValueError exactly for qualitative data with neither one nor two columns and for more than two paired columns on the parametric path |
| AgentEvents.AgentIdOf | src/gws_ai_toolkit/core/agents/table/agent_event_list.py:74-83 | only response events and user queries name an agent; text deltas and errors name none |
| AgentEvents.ResponseIdOf | src/gws_ai_toolkit/core/agents/table/agent_event_list.py:41-45 | a completed response carries its id, and text deltas, errors and user queries carry none |
| AgentEvents.ScanStep | src/gws_ai_toolkit/core/agents/table/agent_event_list.py:86-110 | a creation by the agent opens its response and is kept; the completion of an open response closes it and is kept; any other event is kept exactly while a response is open or when it names the agent |
| AgentEvents.KeepMaskPrefix | src/gws_ai_toolkit/core/agents/table/agent_event_list.py:74-112 | the filter decides each event from the events before it only |
| AgentEvents.KeepMaskAt | src/gws_ai_toolkit/core/agents/table/agent_event_list.py:74-112 | the filter keeps event i exactly as one scan step decides from the responses open before it |
| AgentEvents.OwnEventsKept | src/gws_ai_toolkit/core/agents/table/agent_event_list.py:109-110 | every event naming the agent is kept |
| AgentEvents.OpenUntilCompleted | src/gws_ai_toolkit/core/agents/table/agent_event_list.py:86-99 | a response the agent created stays open until an event completes it |
| AgentEvents.EventsOfOpenResponseKept | src/gws_ai_toolkit/core/agents/table/agent_event_list.py:47-112 | every event between the agent's response creation and its completion is kept, whichever agent emitted it |
| AgentEvents.OtherEventsOutsideDropped | src/gws_ai_toolkit/core/agents/table/agent_event_list.py:104-110 | outside the agent's open responses an event of another agent is dropped |
| AgentEvents.AgentEventList.constructor | src/gws_ai_toolkit/core/agents/table/agent_event_list.py:23-24 | the list holds the given events, or none |
| AgentEvents.AgentEventList.Append | src/gws_ai_toolkit/core/agents/table/agent_event_list.py:26-28 | appending adds the event at the end and keeps the others |
| AgentEvents.AgentEventList.LastEvent | src/gws_ai_toolkit/core/agents/table/agent_event_list.py:34-39 | None exactly when no event has the type, otherwise an event of the type after which none follows |
| AgentEvents.AgentEventList.GetEventsByResponseId | src/gws_ai_toolkit/core/agents/table/agent_event_list.py:41-45 | the events whose response id is the one asked, in order, and exactly those |
| AgentEvents.AgentEventList.GetAgentAndSubAgentsEvents | src/gws_ai_toolkit/core/agents/table/agent_event_list.py:47-112 | the scan returns the events the agent filter keeps, in order |
| AgentEvents.AgentEventList.FindCreateSubAgentEvent | src/gws_ai_toolkit/core/agents/table/agent_event_list.py:114-125 | None exactly when no sub-agent creation has the response id, otherwise the first one |
| FunctionAgent.NoteResult | src/gws_ai_toolkit/core/agents/base_function_agent_ai.py:77-84 | a function result counts only when it belongs to the last response, and a later error or success replaces the earlier one of its kind |
| FunctionAgent.NoteAll | src/gws_ai_toolkit/core/agents/base_function_agent_ai.py:70-84 | every event of the attempt is recorded, in order |
| FunctionAgent.AttemptStep | src/gws_ai_toolkit/core/agents/base_function_agent_ai.py:153-167 | a created or completed response becomes the last response id; other events leave it |
| FunctionAgent.NextAfter | src/gws_ai_toolkit/core/agents/base_function_agent_ai.py:87-113 | the loop stops exactly without a success and with no error or an error without call id; only an attempt ending on an error counts one more error |
| FunctionAgent.RunLoopBounds | src/gws_ai_toolkit/core/agents/base_function_agent_ai.py:56-113 | the loop makes at most ten calls and counts at most five errors, sends one request per call, and ends at its guard only when a limit is reached |
| FunctionAgent.FinalEventsAsWritten | src/gws_ai_toolkit/core/agents/base_function_agent_ai.py:115-125 | as written the call-limit error is yielded whenever ten calls were made, and the error-limit error whenever five errors were counted |
| FunctionAgent.FinalEvents | src/gws_ai_toolkit/core/agents/base_function_agent_ai.py:115-125 | the call-limit error is yielded exactly when the limit stopped the loop, and the error-limit error whenever five errors were counted |
| FunctionAgent.NineCallsThenAnswer | src/gws_ai_toolkit/core/agents/base_function_agent_ai.py:62-113 | nine attempts whose function succeeds, then one that answers without a function call |
| FunctionAgent.NineCallsThenAnswerRun | src/gws_ai_toolkit/core/agents/base_function_agent_ai.py:62-113 | that run makes ten calls without an error and ends on its own answer, not at the guard |
| FunctionAgent.MaxCallsReportedAfterNormalAnswer | src/gws_ai_toolkit/core/agents/base_function_agent_ai.py:121-125 | as written, a normal answer on the tenth call is still followed by the call-limit error |
| FunctionAgent.NoMaxCallsAfterNormalAnswer | src/gws_ai_toolkit/core/agents/base_function_agent_ai.py:115-125 | with the corrected ending the same run yields no error event |
| FunctionAgent.FunctionAgentAi.constructor | src/gws_ai_toolkit/core/agents/base_function_agent_ai.py:33-41 | the agent starts with no last response, no emitted event and no request sent |
| FunctionAgent.FunctionAgentAi.RunAttempt | src/gws_ai_toolkit/core/agents/base_function_agent_ai.py:70-84 | an attempt sends one request from the last response id, records every event of the stream as emitted and updates the last response id |
| FunctionAgent.FunctionAgentAi.CallAgentAsWritten | src/gws_ai_toolkit/core/agents/base_function_agent_ai.py:43-125 | the events of every attempt, in order, then the limit errors as written; every event but those is recorded as emitted |
| FunctionAgent.FunctionAgentAi.CallAgent | src/gws_ai_toolkit/core/agents/base_function_agent_ai.py:43-125 | the events of every attempt, in order, then the limit errors of the corrected ending; every event but those is recorded as emitted |
| FunctionAgent.FunctionAgentAi.Turn | src/gws_ai_toolkit/core/agents/base_function_agent_ai.py:64-113 | one turn of the loop makes one attempt and continues or stops as the whole run does |
| FunctionAgent.FunctionAgentAi.CallLoop | src/gws_ai_toolkit/core/agents/base_function_agent_ai.py:56-113 | the while loop computes exactly the run of the loop and records its events and requests |
| FunctionAgent.RunLoopStep | src/gws_ai_toolkit/core/agents/base_function_agent_ai.py:62-113 | below both limits, the run is one attempt followed by the rest of the loop, or that attempt alone when it stops the loop |
| TableAgent.CallError | src/gws_ai_toolkit/core/agents/table/table_agent_ai.py:143-155 | the function error answers the call: it carries the call's id and response id, the agent's id and the message |
| TableAgent.CollectTables | src/gws_ai_toolkit/core/agents/table/table_agent_ai.py:292 | the collection succeeds exactly when every name is found; its keys are exactly the names, each bound to the table found under it |
| TableAgent.CollectTablesInOrder | src/gws_ai_toolkit/core/agents/table/table_agent_ai.py:292 | with distinct names all found, the collected tables keep the order of the names |
| TableAgent.HandlePlot | src/gws_ai_toolkit/core/agents/table/table_agent_ai.py:157-194 | a plot request either fails with an error answering the call or hands the user's request to the plot sub-agent |
| TableAgent.HandleTransform | src/gws_ai_toolkit/core/agents/table/table_agent_ai.py:196-247 | a transform request either fails with an error answering the call or hands the user's request to the transform sub-agent |
| TableAgent.NoneMissing | src/gws_ai_toolkit/core/agents/table/table_agent_ai.py:281-282 | no name is reported missing exactly when every name is a key of the tables |
| TableAgent.MultiTableDelegated | src/gws_ai_toolkit/core/agents/table/table_agent_ai.py:249-312 | a multi-table request is handed on exactly when both lists are non-empty and every name is a key whose lookup succeeds |
| TableAgent.HandleMultiTable | src/gws_ai_toolkit/core/agents/table/table_agent_ai.py:249-312 | a multi-table request either fails with an error answering the call or hands the user's request to the multi-table sub-agent |
| TableAgent.FromCollected | src/gws_ai_toolkit/core/agents/table/table_agent_ai.py:292-312 | the request is handed on exactly when every lookup succeeded, with the collected tables and the output names |
| TableAgent.HandleFunctionCall | src/gws_ai_toolkit/core/agents/table/table_agent_ai.py:107-155 | a blank request and an unknown function fail with their messages; every failure answers the call; a dispatch hands on the user's request |
| TableAgent.DelegatedExactly | src/gws_ai_toolkit/core/agents/table/table_agent_ai.py:107-312 | a call reaches a sub-agent exactly when its request is not blank and the checks of its function pass |
| TableAgent.PutAll | src/gws_ai_toolkit/core/agents/table/table_agent_ai.py:391-392 | the keys set are those before plus the keys given that are not excluded, each bound to its new value, the others unchanged |
| TableAgent.RecordOutput | src/gws_ai_toolkit/core/agents/table/table_agent_ai.py:385-392 | after one event the output tables are those before plus the tables the event produced, which replace any table of the same name |
| TableAgent.OutputTables | src/gws_ai_toolkit/core/agents/table/table_agent_ai.py:382-394 | the output tables form a dictionary with distinct keys |
| TableAgent.OutputTablesNames | src/gws_ai_toolkit/core/agents/table/table_agent_ai.py:382-394 | a name is an output table exactly when some transform event produced it |
| TableAgent.OutputStep | src/gws_ai_toolkit/core/agents/table/table_agent_ai.py:385-392 | the output tables of the events are those of all but the last, with the last event recorded |
| TableAgent.LastOutputWins | src/gws_ai_toolkit/core/agents/table/table_agent_ai.py:382-394 | the table under a name is the one its last producer gave |
| TableAgent.RecordInput | src/gws_ai_toolkit/core/agents/table/table_agent_ai.py:412-417 | after one event the input tables still form a dictionary with distinct keys |
| TableAgent.InputTables | src/gws_ai_toolkit/core/agents/table/table_agent_ai.py:407-419 | the input tables form a dictionary with distinct keys |
| TableAgent.RecordInputHas | src/gws_ai_toolkit/core/agents/table/table_agent_ai.py:412-417 | a name is an input after one event exactly when it was before, or the agent's own query brought it in and it is not an output |
| TableAgent.InputTablesNames | src/gws_ai_toolkit/core/agents/table/table_agent_ai.py:407-419 | a name is an input table exactly when one of the agent's own queries brought it in and it is not an output |
| TableAgent.PlotsOf | src/gws_ai_toolkit/core/agents/table/table_agent_ai.py:400-403 | there are no more plots than events |
| TableAgent.PlotKeyInjective | src/gws_ai_toolkit/core/agents/table/table_agent_ai.py:402 | distinct plot counters give distinct keys |
| TableAgent.AddPlot | src/gws_ai_toolkit/core/agents/table/table_agent_ai.py:401-403 | the next plot goes under a new key, after the others |
| TableAgent.PlotsStep | src/gws_ai_toolkit/core/agents/table/table_agent_ai.py:400-403 | a plot event adds its plot under the next key; any other event leaves the plots as they are |
| TableAgent.PutEach | src/gws_ai_toolkit/core/agents/table/table_agent_ai.py:391-392 | the loop over a dictionary's items sets exactly what PutAll sets |
| TableAgent.TableAgentAi.constructor | src/gws_ai_toolkit/core/agents/table/table_agent_ai.py:76-82 | the agent keeps its id and its event list |
| TableAgent.TableAgentAi.GetOutputTables | src/gws_ai_toolkit/core/agents/table/table_agent_ai.py:382-394 | the loop computes the output tables of the agent's events |
| TableAgent.TableAgentAi.GetOutputPlots | src/gws_ai_toolkit/core/agents/table/table_agent_ai.py:396-405 | the plots are keyed plot_0, plot_1, ... in the order of the events |
| TableAgent.TableAgentAi.GetInputTables | src/gws_ai_toolkit/core/agents/table/table_agent_ai.py:407-419 | the loop computes the input tables of the agent's events, excluding every output name |
| TableAgent.SerializedIsFilterThenConvert | src/gws_ai_toolkit/core/agents/table/table_agent_ai_service.py:36-69 | the serialized events are the serializable events, in order, each converted |
| TableAgent.SerializedQueriesReadBack | src/gws_ai_toolkit/core/agents/table/table_agent_ai_service.py:36-69 | a serialized query belongs to the main agent and reads back as the original query from its tables |
| TableAgent.SerializeEvents | src/gws_ai_toolkit/core/agents/table/table_agent_ai_service.py:36-69 | the loop returns the serialized form of the agent's events |
| TableAgent.ResourceFor | src/gws_ai_toolkit/core/agents/table/table_agent_ai_service.py:152-162 | a table without model is saved under its key; a table with a stored model gives that model; an unknown model id raises |
| TableAgent.ModelsStep | src/gws_ai_toolkit/core/agents/table/table_agent_ai_service.py:152-162 | making the model of the next key extends the models by that key |
| TableAgent.ModelsDone | src/gws_ai_toolkit/core/agents/table/table_agent_ai_service.py:146-164 | models for every key give one model per key, each the one its table asks for |
| TableAgent.CreateTableResources | src/gws_ai_toolkit/core/agents/table/table_agent_ai_service.py:146-164 | the call succeeds exactly when every table's model can be made, and then holds one model per key, each the one its table asks for |
| TableAgentEvents.GetAndCheckTable | src/gws_ai_toolkit/core/agents/table/table_agent_event_base.py:70-78 | a table is found exactly when the name is not blank and its stripped form is a key, and it is the table under that key; a blank name and an unknown name get their own messages |
| TableAgentEvents.MultiToSerializable | src/gws_ai_toolkit/core/agents/table/table_agent_event_base.py:80-87 | the serializable form keeps the query, the agent and the output names, and names the tables by their keys in order |
| TableAgentEvents.PickTables | src/gws_ai_toolkit/core/agents/table/table_agent_event_base.py:89-101 | the tables read back are exactly the listed keys present in the store, each bound to its stored table |
| TableAgentEvents.PickAllTables | src/gws_ai_toolkit/core/agents/table/table_agent_event_base.py:89-101 | distinct keys that are all present are read back in their order |
| TableAgentEvents.PickOwnKeys | src/gws_ai_toolkit/core/agents/table/table_agent_event_base.py:89-101 | reading back a dictionary's own keys from a store that agrees with it gives the dictionary back |
| TableAgentEvents.MultiFromSerializable | src/gws_ai_toolkit/core/agents/table/table_agent_event_base.py:89-101 | the query read back keeps the query, the agent and the output names, and holds exactly the listed keys present in the store |
| TableAgentEvents.MultiRoundTrip | src/gws_ai_toolkit/core/agents/table/table_agent_event_base.py:80-101 | a multi-table query serialized and read back from a store holding its tables is the same query |
| TableAgentEvents.SingleToSerializable | src/gws_ai_toolkit/core/agents/table/table_agent_event_base.py:112-124 | a single-table query without table key raises ValueError; otherwise its form keeps the query, the agent and the key |
| TableAgentEvents.SingleFromSerializable | src/gws_ai_toolkit/core/agents/table/table_agent_event_base.py:126-139 | a key missing from the store raises KeyError; otherwise the query is rebuilt with the stored table and its key |
| TableAgentEvents.SingleRoundTrip | src/gws_ai_toolkit/core/agents/table/table_agent_event_base.py:112-139 | a single-table query with a key round-trips when its table is stored under that key |
| TableAgentEvents.TransformToSerializable | src/gws_ai_toolkit/core/agents/table/table_agent_event_base.py:153-167 | a transform query without table name raises ValueError; otherwise the name becomes the key and the query, agent and names are kept |
| TableAgentEvents.TransformFromSerializable | src/gws_ai_toolkit/core/agents/table/table_agent_event_base.py:169-183 | a key missing from the store raises KeyError; otherwise the query is rebuilt with the stored table and both names |
| TableAgentEvents.TransformRoundTrip | src/gws_ai_toolkit/core/agents/table/table_agent_event_base.py:153-183 | a transform query with a table name round-trips when its table is stored under that name |
| TableAgentConversation.TableTitle | src/gws_ai_toolkit/models/chat/conversation/ai_table_agent_chat_conversation.py:113-114 | a table keeps its own name, and an unnamed one takes the fallback |
| TableAgentConversation.MultiTableMessages | src/gws_ai_toolkit/models/chat/conversation/ai_table_agent_chat_conversation.py:123-137 | one table message per key, in order, each titled by the table's name or its key and carrying the response id |
| TableAgentConversation.MessagesToSave | src/gws_ai_toolkit/models/chat/conversation/ai_table_agent_chat_conversation.py:95-171 | a plot only when there is one, the transformed table titled "Transformed Data" when unnamed, one message per output of a multi-table transform, exactly one error message per error, and nothing for any other event |
| TableAgentConversation.MultiTableOneMessagePerTable | src/gws_ai_toolkit/models/chat/conversation/ai_table_agent_chat_conversation.py:123-137 | a multi-table transform yields one message per output table in order, each titled by the table's name or, when unnamed, its key |
| TableAgentConversation.SavedRecordsAt | src/gws_ai_toolkit/models/chat/conversation/ai_table_agent_chat_conversation.py:128-137 | the i-th saved row is the row of the i-th message under the i-th new id |
| TableAgentConversation.SaveOne | src/gws_ai_toolkit/models/chat/conversation/ai_table_agent_chat_conversation.py:107-108 | saving a message adds exactly its row to the stored messages, leaves the conversations, and yields the message with its new id |
| TableAgentConversation.SaveAll | src/gws_ai_toolkit/models/chat/conversation/ai_table_agent_chat_conversation.py:128-137 | the messages are saved one after the other in order, one row each, and each is yielded as saved |
| TableAgentConversation.AiTableAgentChatConversation.constructor | src/gws_ai_toolkit/models/chat/conversation/ai_table_agent_chat_conversation.py:43-53 | the chat is created in the ai_table mode with the agent's model and temperature, empty, and without a current response id |
| TableAgentConversation.AiTableAgentChatConversation.HandleTableAgentEvent | src/gws_ai_toolkit/models/chat/conversation/ai_table_agent_chat_conversation.py:84-171 | a text delta yields the streamed answer; a created response becomes current; a completed response forgets it and closes the answer without id, a sub-agent success closes it with the current id; plots, tables and errors are saved and yielded; saving without a conversation raises ValueError; anything else yields nothing |
| TableAgentConversation.AiTableAgentChatConversation.Close | src/gws_ai_toolkit/models/chat/conversation/ai_table_agent_chat_conversation.py:158-169 | closing without a conversation raises ValueError, without a current answer yields nothing, otherwise saves and yields the answer with the current response id, falling back to its own |
| TableSelection.RowCount | src/gws_ai_toolkit/apps/ai_table_standalone_app/_ai_table_standalone_app/ai_table_standalone_app/ai_table/ai_table_data_state.py:110-114 | the row count of the current frame, zero for an absent or empty frame |
| TableSelection.ColumnCount | src/gws_ai_toolkit/apps/ai_table_standalone_app/_ai_table_standalone_app/ai_table_standalone_app/ai_table/ai_table_data_state.py:116-120 | the column count of the current frame, zero for an absent or empty frame |
| TableSelection.OrderedRows | src/gws_ai_toolkit/apps/ai_table_standalone_app/_ai_table_standalone_app/ai_table_standalone_app/ai_table/selection/ai_table_selection_state.py:114-116 | the range of an inverted selection is swapped: the same two rows, smaller first |
| TableSelection.SelectionInfo | src/gws_ai_toolkit/apps/ai_table_standalone_app/_ai_table_standalone_app/ai_table_standalone_app/ai_table/selection/ai_table_selection_state.py:103-124 | "No valid selection" unless there is exactly one selection; a null selection raises AttributeError; otherwise the row count of the (swapped) range and the number of selected columns, or of all columns |
| TableSelection.Positions | src/gws_ai_toolkit/apps/ai_table_standalone_app/_ai_table_standalone_app/ai_table_standalone_app/ai_table/selection/ai_table_selection_state.py:75 | exactly the positions holding the label, in increasing order, none for an absent label |
| TableSelection.PositionsOfDistinct | src/gws_ai_toolkit/apps/ai_table_standalone_app/_ai_table_standalone_app/ai_table_standalone_app/ai_table/selection/ai_table_selection_state.py:75 | among distinct labels a present label is at exactly one position |
| TableSelection.LabelPositionsOfDistinct | src/gws_ai_toolkit/apps/ai_table_standalone_app/_ai_table_standalone_app/ai_table_standalone_app/ai_table/selection/ai_table_selection_state.py:75 | among distinct column labels, selecting present labels picks one column per label, the one carrying it, in the order asked |
| TableSelection.Project | src/gws_ai_toolkit/apps/ai_table_standalone_app/_ai_table_standalone_app/ai_table_standalone_app/ai_table/selection/ai_table_selection_state.py:75 | the projection keeps every row and takes the labels and the cells of the columns at the given positions, in order |
| TableSelection.SelectColumns | src/gws_ai_toolkit/apps/ai_table_standalone_app/_ai_table_standalone_app/ai_table_standalone_app/ai_table/selection/ai_table_selection_state.py:73-75 | selecting labels raises KeyError exactly when a label is not a column; otherwise every row is kept with the labels and cells of the selected positions, and over distinct labels the result has exactly the labels asked, each with its own column's cells |
| TableSelection.SliceRows | src/gws_ai_toolkit/apps/ai_table_standalone_app/_ai_table_standalone_app/ai_table_standalone_app/ai_table/selection/ai_table_selection_state.py:75-78 | an in-range positional slice keeps exactly the rows between its bounds and every column |
| TableSelection.LocRows | src/gws_ai_toolkit/ai_table_standalone_app/_ai_table_standalone_app/ai_table_standalone_app/ai_table/ai_table_data_state.py:230-232 | a label slice keeps the rows between both labels included, none when the end is before the start, and every column |
| TableSelection.WithHeader | src/gws_ai_toolkit/apps/ai_table_standalone_app/_ai_table_standalone_app/ai_table_standalone_app/ai_table/selection/ai_table_selection_state.py:80-85 | with the option on a non-empty frame the first row becomes the column labels and is dropped; otherwise the frame is unchanged |
| TableSelection.Extract | src/gws_ai_toolkit/apps/ai_table_standalone_app/_ai_table_standalone_app/ai_table_standalone_app/ai_table/selection/ai_table_selection_state.py:62-85 | fails with KeyError exactly when a selected label is not a column; otherwise the selected data with the header option applied |
| TableSelection.SelectedData | src/gws_ai_toolkit/apps/ai_table_standalone_app/_ai_table_standalone_app/ai_table_standalone_app/ai_table/selection/ai_table_selection_state.py:62-78 | KeyError exactly for a missing label; an in-range selection holds the rows of its swapped range, all of each row without a column list, and over distinct labels exactly the cells of the columns named, in the order named |
| TableSelection.ExtractCountsRows | src/gws_ai_toolkit/apps/ai_table_standalone_app/_ai_table_standalone_app/ai_table_standalone_app/ai_table/selection/ai_table_selection_state.py:62-85 | an in-range selection of all columns extracts exactly the rows of its swapped range, one fewer with the header option |
| TableSelection.ExtractByLabel | src/gws_ai_toolkit/ai_table_standalone_app/_ai_table_standalone_app/ai_table_standalone_app/ai_table/ai_table_data_state.py:223-242 | fails with KeyError exactly when a selected label is not a column; otherwise the selected data with the header option applied |
| TableSelection.SelectedDataByLabel | src/gws_ai_toolkit/ai_table_standalone_app/_ai_table_standalone_app/ai_table_standalone_app/ai_table/ai_table_data_state.py:223-236 | KeyError exactly for a missing label; an in-range selection holds the rows of its (unswapped) range with the cells of the columns named, and one dragged upwards holds no row |
| TableSelection.InvertedSelectionByLabelIsEmpty | src/gws_ai_toolkit/ai_table_standalone_app/_ai_table_standalone_app/ai_table_standalone_app/ai_table/ai_table_data_state.py:223-242 | without the swap an inverted selection extracts no row while its summary counts zero or fewer rows |
| TableSelection.RowDict | src/gws_ai_toolkit/apps/ai_table_standalone_app/_ai_table_standalone_app/ai_table_standalone_app/ai_table/ai_table_data_state.py:175-184 | a repeated column label raises ValueError; otherwise the grid row has exactly the labels as keys, each holding the text of its own cell, empty for a missing value |
| TableSelection.RowData | src/gws_ai_toolkit/apps/ai_table_standalone_app/_ai_table_standalone_app/ai_table_standalone_app/ai_table/ai_table_data_state.py:166-186 | no grid row for an absent or empty frame; ValueError for repeated labels; otherwise one row per frame row holding each cell's text under its label |
| AiTableSelection.Subtable | src/gws_ai_toolkit/apps/ai_table_standalone_app/_ai_table_standalone_app/ai_table_standalone_app/ai_table/selection/ai_table_selection_state.py:54-92 | nothing is added exactly for an absent or empty source; a null selection raises AttributeError and a bad column KeyError; otherwise the extracted frame as a table named after the source with "_subtable" |
| AiTableSelection.AiTableSelectionState.constructor | src/gws_ai_toolkit/apps/ai_table_standalone_app/_ai_table_standalone_app/ai_table_standalone_app/ai_table/selection/ai_table_selection_state.py:8-18 | no selection, the dialog closed and the header option off |
| AiTableSelection.AiTableSelectionState.OnCellSelectionChanged | src/gws_ai_toolkit/apps/ai_table_standalone_app/_ai_table_standalone_app/ai_table_standalone_app/ai_table/selection/ai_table_selection_state.py:20-23 | the selection becomes the one given; the dialog and the option are unchanged |
| AiTableSelection.AiTableSelectionState.OpenExtractDialog | src/gws_ai_toolkit/apps/ai_table_standalone_app/_ai_table_standalone_app/ai_table_standalone_app/ai_table/selection/ai_table_selection_state.py:25-28 | the dialog opens; the rest is unchanged |
| AiTableSelection.AiTableSelectionState.CloseExtractDialog | src/gws_ai_toolkit/apps/ai_table_standalone_app/_ai_table_standalone_app/ai_table_standalone_app/ai_table/selection/ai_table_selection_state.py:30-34 | the dialog closes and the header option is cleared; the selection is unchanged |
| AiTableSelection.AiTableSelectionState.ToggleFirstRowAsHeader | src/gws_ai_toolkit/apps/ai_table_standalone_app/_ai_table_standalone_app/ai_table_standalone_app/ai_table/selection/ai_table_selection_state.py:36-39 | the header option flips; the rest is unchanged |
| AiTableSelection.AiTableSelectionState.Info | src/gws_ai_toolkit/apps/ai_table_standalone_app/_ai_table_standalone_app/ai_table_standalone_app/ai_table/selection/ai_table_selection_state.py:103-124 | the summary of the swapped range, with the current frame's column count when the selection names no column, and that count's error when it fails |
| AiTableSelection.AiTableSelectionState.ExtractSelectionAsWritten | src/gws_ai_toolkit/apps/ai_table_standalone_app/_ai_table_standalone_app/ai_table_standalone_app/ai_table/selection/ai_table_selection_state.py:41-96 | as written, an extraction that reaches add_table fails with TypeError, adds nothing and leaves the dialog open; the earlier exits are those of Subtable |
| AiTableSelection.AiTableSelectionState.ExtractSelection | src/gws_ai_toolkit/apps/ai_table_standalone_app/_ai_table_standalone_app/ai_table_standalone_app/ai_table/selection/ai_table_selection_state.py:41-96 | an extraction that succeeds adds the subtable as the single sheet of a new current file and closes the dialog; every other exit leaves the files unchanged |
| AiTableLegacySelection.ItemName | src/gws_ai_toolkit/ai_table_standalone_app/_ai_table_standalone_app/ai_table_standalone_app/ai_table/selection/ai_table_selection_state.py:56-58 | the current table's name, or "table" without one |
| AiTableLegacySelection.AiTableSelectionState.constructor | src/gws_ai_toolkit/ai_table_standalone_app/_ai_table_standalone_app/ai_table_standalone_app/ai_table/selection/ai_table_selection_state.py:10-20 | no selection, the dialog closed and the header option off |
| AiTableLegacySelection.AiTableSelectionState.OnCellSelectionChanged | src/gws_ai_toolkit/ai_table_standalone_app/_ai_table_standalone_app/ai_table_standalone_app/ai_table/selection/ai_table_selection_state.py:22-25 | the selection becomes the one given; the dialog and the option are unchanged |
| AiTableLegacySelection.AiTableSelectionState.OpenExtractDialog | src/gws_ai_toolkit/ai_table_standalone_app/_ai_table_standalone_app/ai_table_standalone_app/ai_table/selection/ai_table_selection_state.py:27-30 | the dialog opens; the rest is unchanged |
| AiTableLegacySelection.AiTableSelectionState.CloseExtractDialog | src/gws_ai_toolkit/ai_table_standalone_app/_ai_table_standalone_app/ai_table_standalone_app/ai_table/selection/ai_table_selection_state.py:32-36 | the dialog closes and the header option is cleared; the selection is unchanged |
| AiTableLegacySelection.AiTableSelectionState.ToggleFirstRowAsHeader | src/gws_ai_toolkit/ai_table_standalone_app/_ai_table_standalone_app/ai_table_standalone_app/ai_table/selection/ai_table_selection_state.py:38-41 | the header option flips; the rest is unchanged |
| AiTableLegacySelection.AiTableSelectionState.Info | src/gws_ai_toolkit/ai_table_standalone_app/_ai_table_standalone_app/ai_table_standalone_app/ai_table/selection/ai_table_selection_state.py:104-125 | the summary of the swapped range with the current frame's column count |
| AiTableLegacySelection.AiTableSelectionState.ExtractSelectionAsWritten | src/gws_ai_toolkit/ai_table_standalone_app/_ai_table_standalone_app/ai_table_standalone_app/ai_table/selection/ai_table_selection_state.py:43-97 | as written, an extraction that reaches add_table on the older data state fails with AttributeError, adds nothing and leaves the dialog open |
| AiTableLegacySelection.AiTableSelectionState.ExtractSelection | src/gws_ai_toolkit/ai_table_standalone_app/_ai_table_standalone_app/ai_table_standalone_app/ai_table/selection/ai_table_selection_state.py:43-97 | a successful extraction adds the subtable under a transformed id as the current table and closes the dialog; every other exit leaves the data state unchanged |
| AiTableData.Clamp | src/gws_ai_toolkit/apps/ai_table_standalone_app/_ai_table_standalone_app/ai_table_standalone_app/ai_table/ai_table_data_state.py:67-70 | the zoom is kept between 10% and 300%, unchanged inside that range and set to the nearer bound outside it |
| AiTableData.Toggled | src/gws_ai_toolkit/apps/ai_table_standalone_app/_ai_table_standalone_app/ai_table_standalone_app/ai_table/ai_table_data_state.py:59-65 | toggling the open panel closes it; toggling another panel opens that one |
| AiTableData.ToggleTwice | src/gws_ai_toolkit/apps/ai_table_standalone_app/_ai_table_standalone_app/ai_table_standalone_app/ai_table/ai_table_data_state.py:59-65 | toggling the same panel twice restores it when it was open and leaves it open otherwise |
| AiTableData.ColumnDefs | src/gws_ai_toolkit/apps/ai_table_standalone_app/_ai_table_standalone_app/ai_table_standalone_app/ai_table/ai_table_data_state.py:133-164 | one column definition per column, in order, named after it: auto-sized by default, and in dense mode a dense header with width 80 for numeric columns and 120 for the others |
| AiTableData.AiTableDataState.constructor | src/gws_ai_toolkit/apps/ai_table_standalone_app/_ai_table_standalone_app/ai_table_standalone_app/ai_table/ai_table_data_state.py:21-31 | panel closed, zoom 100%, default column sizes, no file, no current table or sheet |
| AiTableData.AiTableDataState.CurrentItem | src/gws_ai_toolkit/apps/ai_table_standalone_app/_ai_table_standalone_app/ai_table_standalone_app/ai_table/ai_table_data_state.py:33-35 | the current file exactly when the current id is a key of the files |
| AiTableData.AiTableDataState.CurrentTable | src/gws_ai_toolkit/apps/ai_table_standalone_app/_ai_table_standalone_app/ai_table_standalone_app/ai_table/ai_table_data_state.py:37-42 | None without a current file, otherwise the current sheet of the current file, failing as its lookup fails |
| AiTableData.AiTableDataState.CurrentDataframe | src/gws_ai_toolkit/apps/ai_table_standalone_app/_ai_table_standalone_app/ai_table_standalone_app/ai_table/ai_table_data_state.py:44-50 | None without a current file, otherwise the frame of the current sheet, rectangular, failing as its lookup fails |
| AiTableData.AiTableDataState.SheetNames | src/gws_ai_toolkit/apps/ai_table_standalone_app/_ai_table_standalone_app/ai_table_standalone_app/ai_table/ai_table_data_state.py:97-103 | the sheet names of the current file, none without one |
| AiTableData.AiTableDataState.NbRows | src/gws_ai_toolkit/apps/ai_table_standalone_app/_ai_table_standalone_app/ai_table_standalone_app/ai_table/ai_table_data_state.py:110-114 | the row count of the current frame, zero when it is absent or empty |
| AiTableData.AiTableDataState.NbColumns | src/gws_ai_toolkit/apps/ai_table_standalone_app/_ai_table_standalone_app/ai_table_standalone_app/ai_table/ai_table_data_state.py:116-120 | the column count of the current frame, zero when it is absent or empty |
| AiTableData.AiTableDataState.AgGridColumnDefs | src/gws_ai_toolkit/apps/ai_table_standalone_app/_ai_table_standalone_app/ai_table_standalone_app/ai_table/ai_table_data_state.py:133-164 | one column definition per column of the current frame, by the size mode |
| AiTableData.AiTableDataState.AgGridRowData | src/gws_ai_toolkit/apps/ai_table_standalone_app/_ai_table_standalone_app/ai_table_standalone_app/ai_table/ai_table_data_state.py:166-186 | the lookup error of the current frame; no grid row for an absent or empty frame; ValueError for repeated labels; otherwise one grid row per row, each cell's text under its label |
| AiTableData.AiTableDataState.AutoSizeStrategy | src/gws_ai_toolkit/apps/ai_table_standalone_app/_ai_table_standalone_app/ai_table_standalone_app/ai_table/ai_table_data_state.py:122-131 | an auto-size strategy with widths 50 to 300 exactly in dense mode |
| AiTableData.AiTableDataState.SwitchSheet | src/gws_ai_toolkit/apps/ai_table_standalone_app/_ai_table_standalone_app/ai_table_standalone_app/ai_table/ai_table_data_state.py:52-57 | the sheet changes exactly when the current file has a sheet of that name; nothing else changes |
| AiTableData.AiTableDataState.ToggleRightPanelState | src/gws_ai_toolkit/apps/ai_table_standalone_app/_ai_table_standalone_app/ai_table_standalone_app/ai_table/ai_table_data_state.py:59-65 | the panel toggles, and is then open exactly when another panel than the open one was asked; nothing else changes |
| AiTableData.AiTableDataState.SetZoom | src/gws_ai_toolkit/apps/ai_table_standalone_app/_ai_table_standalone_app/ai_table_standalone_app/ai_table/ai_table_data_state.py:67-70 | the zoom becomes the clamped value; nothing else changes |
| AiTableData.AiTableDataState.ZoomIn | src/gws_ai_toolkit/apps/ai_table_standalone_app/_ai_table_standalone_app/ai_table_standalone_app/ai_table/ai_table_data_state.py:72-75 | the zoom grows by 10% up to 300%, never shrinking; nothing else changes |
| AiTableData.AiTableDataState.ZoomOut | src/gws_ai_toolkit/apps/ai_table_standalone_app/_ai_table_standalone_app/ai_table_standalone_app/ai_table/ai_table_data_state.py:77-80 | the zoom shrinks by 10% down to 10%, never growing; nothing else changes |
| AiTableData.AiTableDataState.SetColumnSizeMode | src/gws_ai_toolkit/apps/ai_table_standalone_app/_ai_table_standalone_app/ai_table_standalone_app/ai_table/ai_table_data_state.py:82-90 | the column size mode becomes the one asked; nothing else changes |
| AiTableData.AiTableDataState.SelectExcelFile | src/gws_ai_toolkit/apps/ai_table_standalone_app/_ai_table_standalone_app/ai_table_standalone_app/ai_table/ai_table_data_state.py:194-199 | a known file becomes current with its first sheet; an unknown id changes nothing |
| AiTableData.AiTableDataState.SelectTable | src/gws_ai_toolkit/apps/ai_table_standalone_app/_ai_table_standalone_app/ai_table_standalone_app/ai_table/ai_table_data_state.py:201-209 | as written, the first file asked for the sheet raises AttributeError, so with any file the call fails and nothing changes |
| AiTableData.AiTableDataState.SelectTableIntended | src/gws_ai_toolkit/apps/ai_table_standalone_app/_ai_table_standalone_app/ai_table_standalone_app/ai_table/ai_table_data_state.py:201-209 | the first file holding a sheet of that id becomes current on that sheet; without one nothing changes |
| AiTableData.AiTableDataState.RemoveCurrentTable | src/gws_ai_toolkit/apps/ai_table_standalone_app/_ai_table_standalone_app/ai_table_standalone_app/ai_table/ai_table_data_state.py:211-221 | a current file that exists is removed and the first remaining file, or none, becomes current; otherwise nothing changes |
| AiTableData.AiTableDataState.ExcelFileList | src/gws_ai_toolkit/apps/ai_table_standalone_app/_ai_table_standalone_app/ai_table_standalone_app/ai_table/ai_table_data_state.py:229-235 | one id and name pair per file, in order |
| AiTableData.AiTableDataState.AllTableItems | src/gws_ai_toolkit/apps/ai_table_standalone_app/_ai_table_standalone_app/ai_table_standalone_app/ai_table/ai_table_data_state.py:237-243 | one summary per file, in order |
| AiTableData.AiTableDataState.CountTables | src/gws_ai_toolkit/apps/ai_table_standalone_app/_ai_table_standalone_app/ai_table_standalone_app/ai_table/ai_table_data_state.py:298-300 | the number of files |
| AiTableData.AiTableDataState.GetTable | src/gws_ai_toolkit/apps/ai_table_standalone_app/_ai_table_standalone_app/ai_table_standalone_app/ai_table/ai_table_data_state.py:302-315 | None for an unknown id, otherwise that file's sheet, failing as its lookup fails |
| AiTableData.AiTableDataState.AddExcelFile | src/gws_ai_toolkit/apps/ai_table_standalone_app/_ai_table_standalone_app/ai_table_standalone_app/ai_table/ai_table_data_state.py:277-285 | the file is stored under its id and becomes current, and its first sheet is returned |
| AiTableData.AiTableDataState.AddTableAsWritten | src/gws_ai_toolkit/apps/ai_table_standalone_app/_ai_table_standalone_app/ai_table_standalone_app/ai_table/ai_table_data_state.py:268-275 | as written, building the file from the table raises TypeError and nothing changes |
| AiTableData.AiTableDataState.AddTable | src/gws_ai_toolkit/apps/ai_table_standalone_app/_ai_table_standalone_app/ai_table_standalone_app/ai_table/ai_table_data_state.py:268-275 | the table becomes the single sheet of a new current file under the id given, returned as its sheet; the other files are unchanged |
| AiTableData.AiTableDataState.AddResourceModel | src/gws_ai_toolkit/apps/ai_table_standalone_app/_ai_table_standalone_app/ai_table_standalone_app/ai_table/ai_table_data_state.py:287-296 | a missing resource or one that is not a table raises ValueError and changes nothing; a table becomes the single sheet of a new current file, returned as its transfer object, the other files unchanged; the sheet name, the panel, the zoom and the column mode are always unchanged |
| AiTableData.AiTableDataState.LoadFromResourceIdUrlParam | src/gws_ai_toolkit/apps/ai_table_standalone_app/_ai_table_standalone_app/ai_table_standalone_app/ai_table/ai_table_data_state.py:317-325 | no resource id does nothing; otherwise the load succeeds exactly for a table resource, which becomes the single sheet of a new current file with the other files unchanged, and a failure is a ValueError that changes nothing |
| AiTableData.AiTableDataState.AddResourceModelAsWritten | src/gws_ai_toolkit/apps/ai_table_standalone_app/_ai_table_standalone_app/ai_table_standalone_app/ai_table/ai_table_data_state.py:287-296 | as written, a missing or non-table resource raises ValueError and a table raises TypeError in add_table; nothing changes |
| AiTableData.AiTableDataState.LoadFromResourceIdUrlParamAsWritten | src/gws_ai_toolkit/apps/ai_table_standalone_app/_ai_table_standalone_app/ai_table_standalone_app/ai_table/ai_table_data_state.py:317-325 | as written the load passes only without a resource id, and fails with TypeError exactly for a table resource; the state is left as it was |
| AiTableData.AiTableDataState.AddFile | src/gws_ai_toolkit/apps/ai_table_standalone_app/_ai_table_standalone_app/ai_table_standalone_app/ai_table/ai_table_data_state.py:245-266 | an unsupported file raises ValueError and changes nothing; otherwise a new current file, named from the name, the file name or "table" made unique among the existing names, holding the imported sheets each renamed, with the other files, the sheet name, the panel, the zoom and the column mode unchanged |
| AiTableData.FirstSheetMatch | src/gws_ai_toolkit/apps/ai_table_standalone_app/_ai_table_standalone_app/ai_table_standalone_app/ai_table/ai_table_data_state.py:204-209 | the first file index holding the sheet, or the end when none does |
| AiTableData.FindSheet | src/gws_ai_toolkit/apps/ai_table_standalone_app/_ai_table_standalone_app/ai_table_standalone_app/ai_table/ai_table_data_state.py:204-209 | the search loop finds that first index |
| AiTableLegacyData.ItemFrame | src/gws_ai_toolkit/ai_table_standalone_app/_ai_table_standalone_app/ai_table_standalone_app/ai_table/ai_table_data_state.py:54-60 | the frame of a named sheet, or the item's default frame for any other name; always rectangular |
| AiTableLegacyData.ItemFromTable | src/gws_ai_toolkit/ai_table_standalone_app/_ai_table_standalone_app/ai_table_standalone_app/ai_table/ai_table_data_state.py:336 | an item made from a table has its name, no sheets and the table's frame |
| PyText.RFind | src/gws_ai_toolkit/ai_table_standalone_app/_ai_table_standalone_app/ai_table_standalone_app/ai_table/ai_table_data_state.py:72 | the last position of the character, or None exactly when it does not occur |
| AiTableLegacyData.Stem | src/gws_ai_toolkit/ai_table_standalone_app/_ai_table_standalone_app/ai_table_standalone_app/ai_table/ai_table_data_state.py:72 | the stem is a prefix of the name, the whole name when it has no dot |
| AiTableLegacyData.StemOfExtension | src/gws_ai_toolkit/ai_table_standalone_app/_ai_table_standalone_app/ai_table_standalone_app/ai_table/ai_table_data_state.py:72 | the stem of a name with an extension is the name without it |
| AiTableLegacyData.AiTableDataState.constructor | src/gws_ai_toolkit/ai_table_standalone_app/_ai_table_standalone_app/ai_table_standalone_app/ai_table/ai_table_data_state.py:25-41 | no file, the panel closed, plot chat mode, no table, the original table current, no selection, dialog closed, option off |
| AiTableLegacyData.AiTableDataState.CurrentItem | src/gws_ai_toolkit/ai_table_standalone_app/_ai_table_standalone_app/ai_table_standalone_app/ai_table/ai_table_data_state.py:43-45 | the current item exactly when the current id is a key of the tables |
| AiTableLegacyData.AiTableDataState.CurrentDataframe | src/gws_ai_toolkit/ai_table_standalone_app/_ai_table_standalone_app/ai_table_standalone_app/ai_table/ai_table_data_state.py:54-60 | the frame of the current sheet of the current item, rectangular, None without a current item |
| AiTableLegacyData.AiTableDataState.SetResource | src/gws_ai_toolkit/ai_table_standalone_app/_ai_table_standalone_app/ai_table_standalone_app/ai_table/ai_table_data_state.py:62-82 | the file path and name are set (the name given, or the file's stem), the loaded item is stored as the original table under that name and becomes current; nothing else changes |
| AiTableLegacyData.AiTableDataState.SwitchSheet | src/gws_ai_toolkit/ai_table_standalone_app/_ai_table_standalone_app/ai_table_standalone_app/ai_table/ai_table_data_state.py:84-89 | the sheet changes exactly when the current item has a sheet of that name; nothing else changes |
| AiTableLegacyData.AiTableDataState.ToggleRightPanelState | src/gws_ai_toolkit/ai_table_standalone_app/_ai_table_standalone_app/ai_table_standalone_app/ai_table/ai_table_data_state.py:91-97 | the panel toggles; nothing else changes |
| AiTableLegacyData.AiTableDataState.SetChatMode | src/gws_ai_toolkit/ai_table_standalone_app/_ai_table_standalone_app/ai_table_standalone_app/ai_table/ai_table_data_state.py:99-102 | the chat mode becomes the one asked; nothing else changes |
| AiTableLegacyData.AiTableDataState.SheetNames | src/gws_ai_toolkit/ai_table_standalone_app/_ai_table_standalone_app/ai_table_standalone_app/ai_table/ai_table_data_state.py:109-115 | the sheet names of the current item, none without one |
| AiTableLegacyData.AiTableDataState.NbRows | src/gws_ai_toolkit/ai_table_standalone_app/_ai_table_standalone_app/ai_table_standalone_app/ai_table/ai_table_data_state.py:122-126 | the row count of the current frame, zero when it is absent or empty |
| AiTableLegacyData.AiTableDataState.NbColumns | src/gws_ai_toolkit/ai_table_standalone_app/_ai_table_standalone_app/ai_table_standalone_app/ai_table/ai_table_data_state.py:128-132 | the column count of the current frame, zero when it is absent or empty |
| AiTableLegacyData.AiTableDataState.ColumnFields | src/gws_ai_toolkit/ai_table_standalone_app/_ai_table_standalone_app/ai_table_standalone_app/ai_table/ai_table_data_state.py:134-151 | one column definition per column of the current frame, named after it |
| AiTableLegacyData.AiTableDataState.AgGridRowData | src/gws_ai_toolkit/ai_table_standalone_app/_ai_table_standalone_app/ai_table_standalone_app/ai_table/ai_table_data_state.py:153-173 | no grid row for an absent or empty frame; ValueError for repeated labels; otherwise one grid row per row, each cell's text under its label |
| AiTableLegacyData.AiTableDataState.OnCellSelectionChanged | src/gws_ai_toolkit/ai_table_standalone_app/_ai_table_standalone_app/ai_table_standalone_app/ai_table/ai_table_data_state.py:182-185 | the selection becomes the one given; nothing else changes |
| AiTableLegacyData.AiTableDataState.OpenExtractDialog | src/gws_ai_toolkit/ai_table_standalone_app/_ai_table_standalone_app/ai_table_standalone_app/ai_table/ai_table_data_state.py:187-190 | the dialog opens; nothing else changes |
| AiTableLegacyData.AiTableDataState.CloseExtractDialog | src/gws_ai_toolkit/ai_table_standalone_app/_ai_table_standalone_app/ai_table_standalone_app/ai_table/ai_table_data_state.py:192-196 | the dialog closes and the header option is cleared; nothing else changes |
| AiTableLegacyData.AiTableDataState.ToggleFirstRowAsHeader | src/gws_ai_toolkit/ai_table_standalone_app/_ai_table_standalone_app/ai_table_standalone_app/ai_table/ai_table_data_state.py:198-201 | the header option flips; nothing else changes |
| AiTableLegacyData.AiTableDataState.SourceName | src/gws_ai_toolkit/ai_table_standalone_app/_ai_table_standalone_app/ai_table_standalone_app/ai_table/ai_table_data_state.py:213-217 | the file name for the original table, the current subtable's name otherwise, "table" when it is missing |
| AiTableLegacyData.AiTableDataState.LegacySubtable | src/gws_ai_toolkit/ai_table_standalone_app/_ai_table_standalone_app/ai_table_standalone_app/ai_table/ai_table_data_state.py:203-245 | nothing is added exactly for an absent or empty frame; otherwise the frame extracted by label named after the source with "_subtable", or the extraction's error |
| AiTableLegacyData.AiTableDataState.ExtractSelection | src/gws_ai_toolkit/ai_table_standalone_app/_ai_table_standalone_app/ai_table_standalone_app/ai_table/ai_table_data_state.py:203-252 | a successful extraction stores the subtable under a new transformed id as the current table and closes the dialog; every other exit changes nothing |
| AiTableLegacyData.AiTableDataState.SwitchToOriginal | src/gws_ai_toolkit/ai_table_standalone_app/_ai_table_standalone_app/ai_table_standalone_app/ai_table/ai_table_data_state.py:254-257 | the original table becomes current; nothing else changes |
| AiTableLegacyData.AiTableDataState.SwitchTable | src/gws_ai_toolkit/ai_table_standalone_app/_ai_table_standalone_app/ai_table_standalone_app/ai_table/ai_table_data_state.py:259-269 | the original or a known table becomes current; any other id changes nothing |
| AiTableLegacyData.AiTableDataState.RemoveCurrentTable | src/gws_ai_toolkit/ai_table_standalone_app/_ai_table_standalone_app/ai_table_standalone_app/ai_table/ai_table_data_state.py:271-284 | a current subtable is removed and the original becomes current; the original is never removed |
| AiTableLegacyData.AiTableDataState.Info | src/gws_ai_toolkit/ai_table_standalone_app/_ai_table_standalone_app/ai_table_standalone_app/ai_table/ai_table_data_state.py:291-305 | the summary of the unswapped range, with the selected column count or else the frame's |
| AiTableLegacyData.AiTableDataState.CurrentTableName | src/gws_ai_toolkit/ai_table_standalone_app/_ai_table_standalone_app/ai_table_standalone_app/ai_table/ai_table_data_state.py:307-314 | the file name for the original table, a known subtable's own name, "Unknown Table" for a missing one |
| AiTableLegacyData.AiTableDataState.SubtablesList | src/gws_ai_toolkit/ai_table_standalone_app/_ai_table_standalone_app/ai_table_standalone_app/ai_table/ai_table_data_state.py:316-326 | every table but the original is listed with its name, and nothing else is |
| AiTableLegacyData.AiTableDataState.SetCurrentTable | src/gws_ai_toolkit/ai_table_standalone_app/_ai_table_standalone_app/ai_table_standalone_app/ai_table/ai_table_data_state.py:328-337 | the table is stored under a new transformed id and becomes current; nothing else changes |
| ChatConversation.OrElse | src/gws_ai_toolkit/models/chat/conversation/base_chat_conversation.py:123-127 | the first value when it is truthy, the second otherwise |
| ChatConversation.BuildMessage | src/gws_ai_toolkit/models/chat/conversation/base_chat_conversation.py:115-131 | without a current answer the content alone; with one, the old content followed by the new when appending or the new content alone, the external id falling back to the old; the new content always ends the answer |
| ChatConversation.ConversationLabel | src/gws_ai_toolkit/models/chat/conversation/base_chat_conversation.py:76 | the label is the first 60 characters of the user message, or all of a shorter one |
| ChatConversation.BaseChatConversation.constructor | src/gws_ai_toolkit/models/chat/conversation/base_chat_conversation.py:29-36 | a conversation starts with its app, configuration, mode and service, no message, no current answer and no row |
| ChatConversation.BaseChatConversation.AddMessage | src/gws_ai_toolkit/models/chat/conversation/base_chat_conversation.py:87-89 | the message is appended; the current answer and the row are unchanged |
| ChatConversation.BaseChatConversation.CreateConversation | src/gws_ai_toolkit/models/chat/conversation/base_chat_conversation.py:68-85 | without a row a new one is saved labelled by the question; an existing row is kept; the question is saved and appended under its new id |
| ChatConversation.BaseChatConversation.CloseCurrentMessage | src/gws_ai_toolkit/models/chat/conversation/base_chat_conversation.py:91-113 | without a row it raises ValueError; without a current answer it returns None; otherwise it saves the answer with its external id and sources, returns it and clears the current answer |
| ChatConversation.BaseChatConversation.SetExternalConversationId | src/gws_ai_toolkit/models/chat/conversation/rag_chat_conversation.py:68-75 | the session id is stored on the row, in the service too; nothing else changes |
| ChatConversation.BaseChatConversation.LastUserMessage | src/gws_ai_toolkit/models/chat/conversation/base_chat_conversation.py:38-50 | without a row it raises ValueError, without messages IndexError, and when the last message is not a user text ValueError; otherwise its text |
| ChatConversation.BaseChatConversation.Receive | src/gws_ai_toolkit/models/chat/conversation/base_chat_conversation.py:52-58 | a streamed answer becomes current; any other message is appended and the current answer reset |
| ChatConversation.FoldPieces | src/gws_ai_toolkit/models/chat/conversation/rag_chat_conversation.py:56-60 | once there is a current answer, the stream keeps one |
| ChatConversation.StreamYields | src/gws_ai_toolkit/models/chat/conversation/rag_chat_conversation.py:56-60 | the stream yields exactly one update per piece and nothing for an end response |
| ChatConversation.StreamYieldsAt | src/gws_ai_toolkit/models/chat/conversation/rag_chat_conversation.py:56-60 | the update yielded for a piece comes after one update per earlier piece and carries the answer folded through that piece |
| ChatConversation.LastEnd | src/gws_ai_toolkit/models/chat/conversation/rag_chat_conversation.py:65-75 | the end response kept is the last end response of the stream, none exactly when the stream has no end response |
| ChatConversation.FoldPiecesFromScratch | src/gws_ai_toolkit/models/chat/conversation/rag_chat_conversation.py:56-60 | from no answer, the stream builds one exactly when it holds a piece, and its text is the pieces appended, a piece from the beginning replacing what came before |
| ChatConversation.RagChatConversation.constructor | src/gws_ai_toolkit/models/chat/conversation/rag_chat_conversation.py:21-26 | the conversation is created in the RAG mode with its app, configuration and chat id, empty |
| ChatConversation.RagChatConversation.ReadStream | src/gws_ai_toolkit/models/chat/conversation/rag_chat_conversation.py:28-64 | reading the stream builds the answer piece by piece, yields each update, keeps the last end response, and adds no message |
| ChatConversation.RagChatConversation.CallConversation | src/gws_ai_toolkit/models/chat/conversation/base_chat_conversation.py:38-58 | without a row it raises ValueError; otherwise the last user question is sent with the stored session, the last end response's session is stored, and the answer, if any, is saved and appended with the end response's sources |
| ChatMessages.JoinPath | src/gws_ai_toolkit/models/chat/chat_message.py:169-170 | an absolute name is kept; otherwise the folder followed by the name |
| ChatMessages.FilePathIfExists | src/gws_ai_toolkit/models/chat/chat_message.py:161-173 | the file's path exactly when the row names a file that exists in the conversation folder |
| ChatMessages.ToChatMessage | src/gws_ai_toolkit/models/chat/chat_message.py:84-159 | the message keeps the row's id, role, external id and sources; code, error and hint rows give their kinds, image and plotly rows give images and plots, and any other type gives text |
| ChatMessages.SavedFilename | src/gws_ai_toolkit/models/chat/chat_conversation_service.py:110-115 | a file is written exactly for a message holding an image or a plot |
| ChatMessages.NewRecord | src/gws_ai_toolkit/models/chat/chat_conversation_service.py:99-129 | the row keeps the id, conversation, role, type, external id and sources; text, hints and errors keep their text, code keeps its code, and the file name is that of the saved image or plot |
| ChatMessages.SavedMessageReadsBack | src/gws_ai_toolkit/models/chat/chat_conversation_service.py:85-136 | a message saved and read back is the same message under its new id |
| ChatMessages.TableMessageReadsBackAsText | src/gws_ai_toolkit/models/chat/chat_conversation_service.py:117-129 | a table message is saved without content and reads back as an empty text |
| ChatMessages.MessageTypeRegistry.constructor | src/gws_ai_toolkit/models/chat/message/chat_message_base.py:12-51 | the registry starts empty |
| ChatMessages.MessageTypeRegistry.RegisterType | src/gws_ai_toolkit/models/chat/message/chat_message_base.py:61-70 | the type is bound to its class; the other types are unchanged |
| ChatMessages.MessageTypeRegistry.FromChatMessageModel | src/gws_ai_toolkit/models/chat/message/chat_message_base.py:72-95 | a user row gives a user text; an assistant row gives its registered class, and raises ValueError exactly when its type is not registered |
| ChatMessages.BaseToChatMessageModel | src/gws_ai_toolkit/models/chat/message/chat_message_base.py:97-107 | the base class raises NotImplementedError |
| ChatMessages.NewRecords | src/gws_ai_toolkit/models/chat/chat_conversation_service.py:79-81 | no more rows than messages; which rows, and in which order, is stated by NewRecordsInOrder |
| ChatMessages.FreshIndices | src/gws_ai_toolkit/models/chat/chat_conversation_service.py:79-97 | exactly the positions of the messages without an id, in increasing order |
| ChatMessages.NewRecordsInOrder | src/gws_ai_toolkit/models/chat/chat_conversation_service.py:79-97 | one row per message without an id, in list order, each that message's row under its new id; messages with an id give none |
| ChatMessages.RecordFiles | src/gws_ai_toolkit/models/chat/chat_conversation_service.py:110-115 | every row naming a file contributes that file, joined to the folder |
| ChatMessages.NewRecordsOfFreshMessages | src/gws_ai_toolkit/models/chat/chat_conversation_service.py:79-81 | messages without id give one row each, in order, each under its new id |
| ChatMessages.ChatConversationService.constructor | src/gws_ai_toolkit/models/chat/chat_conversation_service.py:29-36 | the service starts with no app, conversation, message or file |
| ChatMessages.ChatConversationService.SaveMessage | src/gws_ai_toolkit/models/chat/chat_conversation_service.py:85-136 | a message with an id is returned as it is; otherwise one row is added, its image or plot file written, and the message returned under its new id |
| ChatMessages.ChatConversationService.SaveMessages | src/gws_ai_toolkit/models/chat/chat_conversation_service.py:79-81 | apps and conversations unchanged; the rows and the files of the messages without an id are appended, in order |
| ChatMessages.ChatConversationService.SaveConversation | src/gws_ai_toolkit/models/chat/chat_conversation_service.py:54-83 | raises exactly when the DTO names a conversation that does not exist, and then changes nothing; otherwise the row is created or updated with the given fields (label defaulting to empty), its app registered, and the rows and files of the messages without an id appended in order |
| ChatMessages.ChatConversationService.GetConversationsByChatApp | src/gws_ai_toolkit/models/chat/chat_conversation_service.py:38-52 | nothing for an unknown app, otherwise exactly the conversations of the app |
| ChatMessages.ChatConversationService.GetMessagesOfConversation | src/gws_ai_toolkit/models/chat/chat_conversation_service.py:138-154 | an unknown conversation raises; otherwise one message per row of the conversation, in order, each read from its row |
| ChatMessages.ChatConversationService.DeleteConversation | src/gws_ai_toolkit/models/chat/chat_conversation_service.py:169-178 | an unknown conversation raises and nothing changes; otherwise the conversation and its messages are deleted |
| ChatHistory.Ids | src/gws_ai_toolkit/rag/rag_app/_rag_app/rag_app/reflex/history/conversation_history_class.py:19 | the ids are exactly those of the messages |
| ChatHistory.UnseenSound | src/gws_ai_toolkit/rag/rag_app/_rag_app/rag_app/reflex/history/conversation_history_class.py:17-25 | the messages added come from the batch with new, distinct ids, and every message of the batch was added or had its id already |
| ChatHistory.AddingKeepsIdsDistinct | src/gws_ai_toolkit/rag/rag_app/_rag_app/rag_app/reflex/history/conversation_history_class.py:17-25 | adding messages to a conversation with distinct ids keeps them distinct |
| ChatHistory.AddingTwiceAddsNothing | src/gws_ai_toolkit/rag/rag_app/_rag_app/rag_app/reflex/history/conversation_history_class.py:17-25 | adding messages whose ids are all present adds nothing |
| ChatHistory.Label | src/gws_ai_toolkit/rag/rag_app/_rag_app/rag_app/reflex/history/conversation_history_class.py:35-38 | the stripped question, cut to 100 characters with "..." when longer |
| ChatHistory.FirstLabelled | src/gws_ai_toolkit/rag/rag_app/_rag_app/rag_app/reflex/history/conversation_history_class.py:32-40 | the first message giving a non-empty question, or the end |
| ChatHistory.LabelOfFirstQuestion | src/gws_ai_toolkit/rag/rag_app/_rag_app/rag_app/reflex/history/conversation_history_class.py:30-40 | a conversation opening with a user text question is labelled by that question |
| ChatHistory.Relabelled | src/gws_ai_toolkit/rag/rag_app/_rag_app/rag_app/reflex/history/conversation_history_class.py:30-40 | the label after update_label is that of the first user question when there is one, and the label it had otherwise |
| ChatHistory.LabelledHasUserMessage | src/gws_ai_toolkit/rag/rag_app/_rag_app/rag_app/reflex/history/conversation_history_class.py:32-33 | a message list that gives a label holds a user message, so whenever a label is meant to be set the code as written reaches `message.code` |
| ChatHistory.HelloRaisesAsWritten | src/gws_ai_toolkit/rag/rag_app/_rag_app/rag_app/reflex/history/conversation_history_class.py:30-40 | the single question "Hello" is meant to give the label "Hello", and as written its user message reaches `message.code` and raises |
| ChatHistory.ConversationHistory.constructor | src/gws_ai_toolkit/rag/rag_app/_rag_app/rag_app/reflex/history/conversation_history_class.py:9-15 | the conversation keeps its id, timestamp, configuration, messages and mode, with an empty label |
| ChatHistory.ConversationHistory.UpdateLabel | src/gws_ai_toolkit/rag/rag_app/_rag_app/rag_app/reflex/history/conversation_history_class.py:30-40 | the label becomes that of the first user question (Relabelled of the old label), and is kept when there is none; messages, timestamp, configuration and mode are unchanged |
| ChatHistory.ConversationHistory.UpdateLabelAsWritten | src/gws_ai_toolkit/rag/rag_app/_rag_app/rag_app/reflex/history/conversation_history_class.py:30-40 | as written the call raises AttributeError exactly when the conversation holds a user message, in particular whenever a label would be set, and changes nothing |
| ChatHistory.ConversationHistory.AppendUnseen | src/gws_ai_toolkit/rag/rag_app/_rag_app/rag_app/reflex/history/conversation_history_class.py:17-25 | the messages whose id is neither in the conversation nor earlier in the batch are appended in order; label, timestamp, configuration and mode are unchanged |
| ChatHistory.ConversationHistory.AddMessages | src/gws_ai_toolkit/rag/rag_app/_rag_app/rag_app/reflex/history/conversation_history_class.py:17-28 | the messages with new ids are appended in order; an empty label then becomes the first user question's label (and stays empty without one), a non-empty label is kept; timestamp, configuration and mode are unchanged |
| ChatHistory.ConversationHistory.AddMessagesAsWritten | src/gws_ai_toolkit/rag/rag_app/_rag_app/rag_app/reflex/history/conversation_history_class.py:17-28 | as written the messages are appended, the label is unchanged, and the call raises AttributeError exactly when the label was empty and the conversation now holds a user message |
| ChatHistory.ConversationHistory.MergeFrom | src/gws_ai_toolkit/rag/rag_app/_rag_app/rag_app/reflex/history/conversation_history_class.py:67-71 | merging adds the other conversation's unseen messages in order, sets an empty label from the merged messages, takes over the other's timestamp and configuration and keeps the mode |
| ChatHistory.IndexOfId | src/gws_ai_toolkit/rag/rag_app/_rag_app/rag_app/reflex/history/conversation_history_class.py:76-81 | the first conversation with the id, or the end |
| ChatHistory.IndexOfMember | src/gws_ai_toolkit/rag/rag_app/_rag_app/rag_app/reflex/history/conversation_history_class.py:76-81 | with distinct ids, looking up a listed conversation's id finds that conversation |
| ChatHistory.ConversationFullHistory.constructor | src/gws_ai_toolkit/rag/rag_app/_rag_app/rag_app/reflex/history/conversation_history_class.py:58-59 | the history holds the conversations given |
| ChatHistory.ConversationFullHistory.GetConversationById | src/gws_ai_toolkit/rag/rag_app/_rag_app/rag_app/reflex/history/conversation_history_class.py:76-81 | the first conversation with the id, None exactly when there is none |
| ChatHistory.ConversationFullHistory.MergeOrAppend | src/gws_ai_toolkit/rag/rag_app/_rag_app/rag_app/reflex/history/conversation_history_class.py:65-74 | a known id gets the unseen messages merged, an empty label set from them, the new timestamp and configuration and the same mode; an unknown id appends the conversation; other conversations are unchanged and ids stay distinct |
| ChatHistory.ConversationFullHistory.AddConversation | src/gws_ai_toolkit/rag/rag_app/_rag_app/rag_app/reflex/history/conversation_history_class.py:61-74 | the incoming conversation is first relabelled from its own messages; a new id appends it; a known one gets the unseen messages merged, the new timestamp and configuration and, when it is another object, an empty label set from the merged messages; the others are unchanged and ids stay distinct |
| ChatHistory.ConversationFullHistory.AddConversationAsWritten | src/gws_ai_toolkit/rag/rag_app/_rag_app/rag_app/reflex/history/conversation_history_class.py:61-74 | as written an incoming conversation with a user message raises AttributeError and nothing changes; otherwise it is appended, or merged, the merge raising after appending exactly when the stored label was empty and a user message is present, in which case timestamp and configuration are not updated |
| ChatState.UpdateCurrent | src/gws_ai_toolkit/rag/rag_app/_rag_app/rag_app/reflex/chat_base/chat_state_base.py:185-190 | while streaming the given message becomes the open one; once streaming stopped nothing changes |
| ChatState.Close | src/gws_ai_toolkit/rag/rag_app/_rag_app/rag_app/reflex/chat_base/chat_state_base.py:200-207 | the open message, if any, joins the finished ones and no message stays open; the streaming flag and response ids are untouched |
| ChatState.CloseIdempotent | src/gws_ai_toolkit/rag/rag_app/_rag_app/rag_app/reflex/chat_base/chat_state_base.py:200-207 | closing a second time changes nothing |
| ChatState.ResponseCompleted | src/gws_ai_toolkit/rag/rag_app/_rag_app/rag_app/reflex/chat_base/open_ai_chat_state_base.py:45-50 | the open message is closed, no response is current and the completed response becomes the previous one |
| ChatState.TextDelta | src/gws_ai_toolkit/rag/rag_app/_rag_app/rag_app/reflex/chat_base/open_ai_chat_state_base.py:52-72 | an open text message is extended by the delta; otherwise a new assistant text message stamped with the current response id is offered as the open one |
| ChatState.CodeDelta | src/gws_ai_toolkit/rag/rag_app/_rag_app/rag_app/reflex/chat_base/open_ai_chat_state_base.py:74-93 | an open code message is extended by the delta; otherwise a new assistant code message stamped with the current response id is offered as the open one |
| ChatState.TextDeltasBuildOneMessage | src/gws_ai_toolkit/rag/rag_app/_rag_app/rag_app/reflex/chat_base/open_ai_chat_state_base.py:52-72 | while streaming with nothing open, a run of text deltas builds exactly one message whose text is their concatenation and whose id is the first one drawn |
| ChatState.AnswerRoundTrip | src/gws_ai_toolkit/rag/rag_app/_rag_app/rag_app/reflex/chat_base/open_ai_chat_state_base.py:40-72 | created, streamed and completed, an answer joins the finished messages exactly once, stamped with its response id, which becomes the previous response |
| ChatState.Finished | src/gws_ai_toolkit/rag/rag_app/_rag_app/rag_app/reflex/chat_base/chat_state_base.py:163-183 | after a submit nothing is open and streaming has stopped, whatever the AI call did; the response ids are untouched |
| ChatState.FailureReplacesPartialAnswer | src/gws_ai_toolkit/rag/rag_app/_rag_app/rag_app/reflex/chat_base/chat_state_base.py:167-178 | when the AI call raises, the only message added is "Error: " followed by the error, and a partial answer is dropped |
| ChatState.SuccessKeepsOpenAnswer | src/gws_ai_toolkit/rag/rag_app/_rag_app/rag_app/reflex/chat_base/chat_state_base.py:179-183 | when the AI call returns, the open answer, if any, is kept as a finished message |
| ChatState.Displayed | src/gws_ai_toolkit/rag/rag_app/_rag_app/rag_app/reflex/chat_base/chat_state_base.py:93-103 | exactly the shown messages are displayed, in their order (the i-th displayed message is the message at the i-th shown position), never more than given: code only when code blocks are shown, a figure only when its file can be read |
| ChatState.ChatStateBase.constructor | src/gws_ai_toolkit/rag/rag_app/_rag_app/rag_app/reflex/chat_base/chat_state_base.py:26-80 | a new chat state holds no messages, no open message, no conversation ids and is not streaming |
| ChatState.ChatStateBase.CurrentResponseMessage | src/gws_ai_toolkit/rag/rag_app/_rag_app/rag_app/reflex/chat_base/chat_state_base.py:105-117 | the open message is returned exactly when there is one and it is shown |
| ChatState.ChatStateBase.MessagesToDisplay | src/gws_ai_toolkit/rag/rag_app/_rag_app/rag_app/reflex/chat_base/chat_state_base.py:93-103 | the messages displayed are Displayed of the chat's messages under the state's code-block setting |
| ChatState.ChatStateBase.BeginSubmit | src/gws_ai_toolkit/rag/rag_app/_rag_app/rag_app/reflex/chat_base/chat_state_base.py:146-161 | a blank message is ignored; otherwise the stripped message joins as a user text message and streaming starts; nothing else changes |
| ChatState.ChatStateBase.FinishSubmit | src/gws_ai_toolkit/rag/rag_app/_rag_app/rag_app/reflex/chat_base/chat_state_base.py:163-183 | the new state is the finished stream of the old one and the conversation ids are kept |
| ChatState.ChatStateBase.UpdateCurrentResponseMessage | src/gws_ai_toolkit/rag/rag_app/_rag_app/rag_app/reflex/chat_base/chat_state_base.py:185-190 | the state moves as UpdateCurrent says |
| ChatState.ChatStateBase.UpdateCurrentMessageSources | src/gws_ai_toolkit/rag/rag_app/_rag_app/rag_app/reflex/chat_base/chat_state_base.py:192-198 | while streaming, the open message takes the sources and nothing else changes; otherwise nothing changes |
| ChatState.ChatStateBase.CloseCurrentMessage | src/gws_ai_toolkit/rag/rag_app/_rag_app/rag_app/reflex/chat_base/chat_state_base.py:200-207 | the state moves as Close says |
| ChatState.ChatStateBase.SetExternalConversationId | src/gws_ai_toolkit/rag/rag_app/_rag_app/rag_app/reflex/chat_base/chat_state_base.py:209-210 | the external id is set and nothing else changes |
| ChatState.ChatStateBase.ClearChat | src/gws_ai_toolkit/rag/rag_app/_rag_app/rag_app/reflex/chat_base/chat_state_base.py:212-219 | everything is reset: no messages, nothing open, not streaming, no ids |
| ChatState.ChatStateBase.AddMessage | src/gws_ai_toolkit/rag/rag_app/_rag_app/rag_app/reflex/chat_base/chat_state_base.py:300-304 | while streaming the message joins the finished ones; otherwise nothing changes; the open message, the streaming flag and the conversation and response ids always stay |
| ChatState.ChatStateBase.HandleResponseCreated | src/gws_ai_toolkit/rag/rag_app/_rag_app/rag_app/reflex/chat_base/open_ai_chat_state_base.py:40-43 | the given response becomes the current one |
| ChatState.ChatStateBase.HandleResponseCompleted | src/gws_ai_toolkit/rag/rag_app/_rag_app/rag_app/reflex/chat_base/open_ai_chat_state_base.py:45-50 | the state moves as ResponseCompleted says |
| ChatState.ChatStateBase.HandleOutputTextDelta | src/gws_ai_toolkit/rag/rag_app/_rag_app/rag_app/reflex/chat_base/open_ai_chat_state_base.py:52-72 | the state moves as TextDelta says |
| ChatState.ChatStateBase.HandleCodeDelta | src/gws_ai_toolkit/rag/rag_app/_rag_app/rag_app/reflex/chat_base/open_ai_chat_state_base.py:74-93 | the state moves as CodeDelta says |
| ChatState.ChatStateBase.SaveConversationToHistory | src/gws_ai_toolkit/rag/rag_app/_rag_app/rag_app/reflex/chat_base/chat_state_base.py:339-361 | as intended: an empty chat saves nothing; otherwise the conversation id is drawn once and the conversation is appended with the state's configuration and the label of its first question, or merged into its earlier entry with only unseen messages added, stamped now, the configuration replaced and an empty label set from the merged messages |
| ChatState.ChatStateBase.SaveConversationToHistoryAsWritten | src/gws_ai_toolkit/rag/rag_app/_rag_app/rag_app/reflex/chat_base/chat_state_base.py:339-361 | as written: the call passes a keyword the history state does not accept, the error is logged, and the history never changes though the conversation id is drawn |
| ConversationChatState.Completed | src/gws_ai_toolkit/apps/rag_app/_rag_app/rag_app/reflex/chat_base/conversation_chat_state_base.py:128-138 | of what the conversation yields, only the finished messages count, never more than were yielded; that they are the finished messages in stream order is stated by CompletedInOrder |
| ConversationChatState.CompletedInOrder | src/gws_ai_toolkit/apps/rag_app/_rag_app/rag_app/reflex/chat_base/conversation_chat_state_base.py:128-138 | the completed messages are exactly the messages of the finished entries of the stream, in stream order |
| ConversationChatState.StreamingOnlyAddsNothing | src/gws_ai_toolkit/apps/rag_app/_rag_app/rag_app/reflex/chat_base/conversation_chat_state_base.py:128-134 | a stream of only partial answers adds no message |
| ConversationChatState.ConversationChatStateBase.constructor | src/gws_ai_toolkit/apps/rag_app/_rag_app/rag_app/reflex/chat_base/conversation_chat_state_base.py:49-61 | a new page is not streaming and holds no current answer, no messages and no conversation |
| ConversationChatState.ConversationChatStateBase.GetOrCreateConversation | src/gws_ai_toolkit/apps/rag_app/_rag_app/rag_app/reflex/chat_base/conversation_chat_state_base.py:87-96 | the first conversation created is kept and returned on every later call; the page's messages and streaming state are untouched |
| ConversationChatState.ConversationChatStateBase.SubmitInputForm | src/gws_ai_toolkit/apps/rag_app/_rag_app/rag_app/reflex/chat_base/conversation_chat_state_base.py:98-148 | a blank message or a submit while streaming changes nothing; otherwise the conversation is created on first use, the user message and then every finished answer join its messages, which the page shows, and at the end nothing streams or is current, the stream's failure being passed on |
| ConversationChatState.ConversationChatStateBase.ReadStream | src/gws_ai_toolkit/apps/rag_app/_rag_app/rag_app/reflex/chat_base/conversation_chat_state_base.py:126-148 | every finished message reaches the conversation; at the end no answer is current and the page shows the conversation's messages |
| ConversationChatState.ConversationChatStateBase.ClearChat | src/gws_ai_toolkit/apps/rag_app/_rag_app/rag_app/reflex/chat_base/conversation_chat_state_base.py:150-156 | the conversation is dropped and the page is empty and idle |
| ConversationChatState.ConversationChatStateBase.ShowEmptyChat | src/gws_ai_toolkit/apps/rag_app/_rag_app/rag_app/reflex/chat_base/conversation_chat_state_base.py:186-188 | the empty chat is shown only when no message, finished or streaming, is on screen; clearing the chat always shows it |
| AiExpertConversation.InsertEverywhere | src/gws_ai_toolkit/models/chat/conversation/ai_expert_chat_conversation.py:119-121 | replacing an empty placeholder puts the replacement before every character and at the end, so the prompt grows by that many copies |
| AiExpertConversation.ReplaceAbsent | src/gws_ai_toolkit/models/chat/conversation/ai_expert_chat_conversation.py:119-145 | a system prompt without the placeholder is used unchanged |
| AiExpertConversation.ReplaceWhole | src/gws_ai_toolkit/models/chat/conversation/ai_expert_chat_conversation.py:119-145 | a system prompt that is exactly the placeholder becomes the document text |
| AiExpertConversation.Replace | src/gws_ai_toolkit/models/chat/conversation/ai_expert_chat_conversation.py:119-145 | replacing a non-empty text by itself leaves the prompt unchanged |
| AiExpertConversation.IsImageFile | src/gws_ai_toolkit/models/chat/conversation/ai_expert_chat_conversation.py:296-298 | a file is an image only when its name ends in a dot and three or four characters |
| AiExpertConversation.ChunksText | src/gws_ai_toolkit/models/chat/conversation/ai_expert_chat_conversation.py:212-248 | no chunk is a ValueError; otherwise the chunks joined by newlines, which split back into the chunks unless a chunk itself holds a newline |
| AiExpertConversation.SplitJoinWhenNoSeparator | src/gws_ai_toolkit/models/chat/conversation/ai_expert_chat_conversation.py:230 | chunk texts without newlines are recovered from their newline-joined text |
| AiExpertConversation.SourceOf | src/gws_ai_toolkit/models/chat/conversation/ai_expert_chat_conversation.py:289-293 | a file is read from its container exactly when its id starts with "cfile_" and a container id is given |
| AiExpertConversation.LastIndexOf | src/gws_ai_toolkit/models/chat/conversation/ai_expert_chat_conversation.py:296 | the position of the last occurrence of the character, and none exactly when it does not occur |
| AiExpertConversation.Extension | src/gws_ai_toolkit/models/chat/conversation/ai_expert_chat_conversation.py:296 | the extension is empty or a suffix of the path that starts with its only dot |
| AiExpertConversation.NameExtension | src/gws_ai_toolkit/models/chat/conversation/ai_expert_chat_conversation.py:296 | the extension of a bare file name is empty or a suffix of the name that starts with its only dot |
| AiExpertConversation.AnnotationMessage | src/gws_ai_toolkit/models/chat/conversation/ai_expert_chat_conversation.py:260-314 | an assistant message stamped with the current response id: the download error as "[Error loading file: Error downloading file <id>: <error>]", an image for an image extension, else a text naming the generated file |
| AiExpertConversation.ExtensionOfName | src/gws_ai_toolkit/models/chat/conversation/ai_expert_chat_conversation.py:296 | the extension of a file name is everything from its last dot when something precedes that dot |
| AiExpertConversation.ImageIgnoresCase | src/gws_ai_toolkit/models/chat/conversation/ai_expert_chat_conversation.py:296-298 | a file is an image exactly when its lower-cased extension is one of png, jpg, jpeg, gif, bmp and webp |
| AiExpertConversation.HiddenFileIsNotImage | src/gws_ai_toolkit/models/chat/conversation/ai_expert_chat_conversation.py:296-298 | a dot file with no other dot has no extension and is never shown as an image |
| AiExpertConversation.AiExpertChatConversation.constructor | src/gws_ai_toolkit/models/chat/conversation/ai_expert_chat_conversation.py:64-83 | the conversation is in "ai_expert" mode, its stored configuration adds the resource id, and nothing is uploaded, cached or answered yet |
| AiExpertConversation.AiExpertChatConversation.HandleResponseCreated | src/gws_ai_toolkit/models/chat/conversation/ai_expert_chat_conversation.py:250-252 | the created response becomes the current one; nothing else changes |
| AiExpertConversation.AiExpertChatConversation.HandleResponseCompleted | src/gws_ai_toolkit/models/chat/conversation/ai_expert_chat_conversation.py:254-258 | a non-empty current response becomes the previous one and is cleared; without one nothing changes |
| AiExpertConversation.AiExpertChatConversation.GetDocumentChunksText | src/gws_ai_toolkit/models/chat/conversation/ai_expert_chat_conversation.py:212-231 | the chunk text is computed once per chunk count and then served from the cache; a document without chunks is a ValueError and caches nothing |
| AiExpertConversation.AiExpertChatConversation.UploadFileToOpenai | src/gws_ai_toolkit/models/chat/conversation/ai_expert_chat_conversation.py:191-210 | the document is uploaded at most once and its file id reused; without an API key, a loaded resource or a file resource it is a ValueError and nothing is uploaded |
| AiExpertConversation.AiExpertChatConversation.PrepareAnswer | src/gws_ai_toolkit/models/chat/conversation/ai_expert_chat_conversation.py:92-145 | without an API key nothing is prepared; full_file succeeds exactly when a file resource is loaded (or the file is already uploaded) and gives the code interpreter on it, failing with ValueError otherwise; relevant_chunks puts the relevant chunks in the instructions and fails when there are none; any other mode succeeds exactly when the first chunks can be read (always when already cached); the placeholder becomes the document name and text; a chunk request is made exactly when the first chunks are not cached, and without an API key nothing changes |
| AiExpertConversation.AiExpertChatConversation.HandleAnnotation | src/gws_ai_toolkit/models/chat/conversation/ai_expert_chat_conversation.py:260-282 | an event without a file annotation adds nothing; otherwise exactly the annotation's message is saved to the conversation |
| AiExpertConversation.UploadOnce | src/gws_ai_toolkit/models/chat/conversation/ai_expert_chat_conversation.py:191-210 | answering twice in full_file mode uploads the document once and prepares the same answer twice |
| DocExpertState.StatusOf | src/gws_ai_toolkit/rag/ragflow/doc_expert_ai_page_state.py:118-129 | the page shows the chat exactly when chunks are loaded, a not-yet-loaded document exactly when one is selected without chunks, the results exactly when only a search was run, and the search form otherwise |
| DocExpertState.DefaultConfig | src/gws_ai_toolkit/rag/ragflow/doc_expert_ai_page_state.py:19-27 | the default page configuration keeps the dataset given, has no summary prompt, and its system prompt holds the [DOC_CONTENT] placeholder |
| DocExpertState.DocAiExpertPageState.constructor | src/gws_ai_toolkit/rag/ragflow/doc_expert_ai_page_state.py:58-73 | a new state holds nothing but its key, its configuration, the chat key "<key>-chat" and the search settings 0.0, 0.3 and 5, so the page shows the search form |
| DocExpertState.DocAiExpertPageState.Reset | src/gws_ai_toolkit/rag/ragflow/doc_expert_ai_page_state.py:98-106 | the search, selection, chunks and chat are forgotten and the search form shows; the search settings stay |
| DocExpertState.DocAiExpertPageState.SelectDocumentAndNavigate | src/gws_ai_toolkit/rag/ragflow/doc_expert_ai_page_state.py:108-116 | the document is the only thing selected, so the page shows it as not loaded, and the router goes to the page's URL; the dataset and the search settings stay |
| DocExpertState.DocAiExpertPageState.SetDocumentsResult | src/gws_ai_toolkit/rag/ragflow/doc_expert_ai_page_state.py:137-141 | the results are stored and shown unless a document is selected; the query, dataset, search settings, selection and chat stay |
| DocExpertState.DocAiExpertPageState.SetSelectedDocumentChunks | src/gws_ai_toolkit/rag/ragflow/doc_expert_ai_page_state.py:185-189 | loaded chunks open the chat view; the query, dataset, search settings, selected document, results and chat stay |
| DocExpertState.DocAiExpertPageState.LoadChat | src/gws_ai_toolkit/rag/ragflow/doc_expert_ai_page_state.py:191-197 | the chat is opened once under the chat key with the first system prompt given and returned unchanged afterwards; nothing else changes |
| DocExpertState.Session.constructor | src/gws_ai_toolkit/rag/ragflow/doc_expert_ai_page_state.py:75-96 | a new session holds no page state |
| DocExpertState.Session.Init | src/gws_ai_toolkit/rag/ragflow/doc_expert_ai_page_state.py:75-87 | the state stored under the key is returned; without one a new state showing the search form is stored there |
| DocExpertState.Session.GetInstance | src/gws_ai_toolkit/rag/ragflow/doc_expert_ai_page_state.py:89-96 | the state stored under the key, and none exactly when nothing is stored there |
| ConfigForms.ValidateTemperature | src/gws_ai_toolkit/rag/rag_app/_rag_app/rag_app/reflex/ai_expert/ai_expert_config_state.py:100-106 | the temperature is accepted exactly when it parses as a number from 0.0 to 2.0, and is then that number; otherwise the error says it is not a number or out of range |
| ConfigForms.ValidateChunkCount | src/gws_ai_toolkit/rag/rag_app/_rag_app/rag_app/reflex/ai_expert/ai_expert_config_state.py:113-126 | a typed chunk count is accepted exactly when it parses as an integer from 1 to 100, and is then that integer; otherwise the error says which check failed |
| ConfigForms.ExpertChunkCount | src/gws_ai_toolkit/rag/rag_app/_rag_app/rag_app/reflex/ai_expert/ai_expert_config_state.py:113-126 | the chunk count is required in relevant_chunks mode, checked when given in the other modes and 5 when not given; an accepted count lies between 1 and 100 |
| ConfigForms.CheckExpertFields | src/gws_ai_toolkit/rag/rag_app/_rag_app/rag_app/reflex/ai_expert/ai_expert_config_state.py:80-161 | the form is accepted exactly when every check passes, in the order prompt, mode, model, temperature, chunk count, placeholder; the first failure gives the message; an accepted section holds the typed values, a prompt containing the placeholder, a temperature in range and a chunk count from 1 to 100 |
| ConfigForms.SubmitExpertForm | src/gws_ai_toolkit/rag/rag_app/_rag_app/rag_app/reflex/ai_expert/ai_expert_config_state.py:80-161 | the submitted fields are stripped and checked against the current placeholder |
| ConfigForms.ChunkFieldHiddenOnlyForFullFile | src/gws_ai_toolkit/rag/rag_app/_rag_app/rag_app/reflex/ai_expert/ai_expert_config_state.py:169-171 | among the expert modes the chunk-count field is hidden exactly in full_file mode |
| ConfigForms.ExpertResubmit | src/gws_ai_toolkit/rag/rag_app/_rag_app/rag_app/reflex/ai_expert/ai_expert_config_state.py:80-161 | an accepted section submitted again unchanged is accepted as the same section |
| ConfigForms.SubmitSimpleExpertForm | src/gws_ai_toolkit/rag/rag_app/_rag_app/rag_app/components/app_config/ai_expert_config_state.py:37-80 | accepted exactly for a non-empty prompt containing the current placeholder and one of the two modes; the section keeps the placeholder |
| ConfigForms.ValidateModelForm | src/gws_ai_toolkit/apps/ai_table_standalone_app/_ai_table_standalone_app/ai_table_standalone_app/ai_table/chat/table_agent/ai_table_agent_chat_config_state.py:54-79 | accepted exactly when a model is given and the temperature is a number from 0.0 to 2.0; the first failure gives the message |
| ConfigForms.SubmitAgentForm | src/gws_ai_toolkit/ai_table_standalone_app/_ai_table_standalone_app/ai_table_standalone_app/ai_table/chat/table_agent/ai_table_agent_chat_config_state.py:58-117 | the table agent page saves the model and temperature it validated, and nothing when validation fails |
| ConfigForms.SubmitPlotFileForm | src/gws_ai_toolkit/apps/ai_table_standalone_app/_ai_table_standalone_app/ai_table_standalone_app/ai_table/chat/plot_file/ai_table_plot_file_chat_config_state.py:56-130 | accepted exactly when the model form is; the saved section keeps the current prompt and placeholder and takes the validated model and the temperature parsed from the form |
| ConfigForms.SubmitTableChatForm | src/gws_ai_toolkit/rag/rag_app/_rag_app/rag_app/reflex/ai_table/chat/ai_table_chat_config_state.py:71-157 | accepted exactly for a non-empty prompt, a model, a temperature in range and a prompt containing the current placeholder, the first failure giving the message; the section keeps the placeholder |
| AppConfig.LoadFile | src/gws_ai_toolkit/rag/rag_app/_rag_app/rag_app/components/app_config/app_config_state.py:76-84 | a missing file or the empty path reads as an empty configuration, a JSON file as its content; only the components copy turns an unreadable file into a ValueError |
| AppConfig.Section | src/gws_ai_toolkit/apps/rag_app/_rag_app/rag_app/reflex/core/app_config_state.py:67-74 | the section stored under the key, or the type's default instance when there is none |
| AppConfig.SavedSectionReadsBack | src/gws_ai_toolkit/apps/rag_app/_rag_app/rag_app/reflex/core/app_config_state.py:83-113 | a section saved to a file is what a later load of that file returns under its key |
| AppConfig.Instance | src/gws_ai_toolkit/apps/rag_app/_rag_app/rag_app/reflex/core/app_config_state.py:115-126 | the reflex/core copies fail exactly when no subclass of the state is registered, with a ValueError in one copy and a generic exception in the other; the components copy never fails |
| AppConfig.AppConfigState.constructor | src/gws_ai_toolkit/rag/rag_app/_rag_app/rag_app/components/app_config/app_config_state.py:10-20 | a new state has an empty cache; the components copy starts from the default path, the others from no known path |
| AppConfig.AppConfigState.PathOf | src/gws_ai_toolkit/rag/rag_app/_rag_app/rag_app/components/app_config/app_config_state.py:36-44 | the cached path when there is one, else the loader's; without either it is a ValueError |
| AppConfig.AppConfigState.Loaded | src/gws_ai_toolkit/rag/rag_app/_rag_app/rag_app/reflex/core/app_config_state.py:44-53 | the cached configuration when it is not empty, else the file read at the path, and the path's error when there is none |
| AppConfig.AppConfigState.ConfigFilePath | src/gws_ai_toolkit/apps/rag_app/_rag_app/rag_app/reflex/core/app_config_state.py:48-50 | the path is looked up as PathOf says and kept; the configuration and the files are untouched |
| AppConfig.AppConfigState.Config | src/gws_ai_toolkit/apps/rag_app/_rag_app/rag_app/reflex/core/app_config_state.py:56-65 | the loaded configuration is returned and cached; on an error the cache is untouched |
| AppConfig.AppConfigState.GetConfigSection | src/gws_ai_toolkit/rag/rag_app/_rag_app/rag_app/reflex/core/app_config_state.py:55-59 | the section under the key in the loaded configuration, or the default instance; a load error is passed on |
| AppConfig.AppConfigState.UpdateConfigSection | src/gws_ai_toolkit/rag/rag_app/_rag_app/rag_app/reflex/core/app_config_state.py:68-98 | the section replaces the one under the key in the cached configuration; the whole configuration is written to the path exactly when the path is known and not empty and the file is writable, and otherwise nothing is written and a ValueError is returned |
| ProgressDialog.StatusOf | src/gws_ai_toolkit/rag/rag_app/_rag_app/rag_app/reflex/rag_chat/config/delete_expired_documents_dialog/delete_expired_documents_dialog_state.py:31-37 | pending exactly while the progress is negative, running exactly while it is below the item count, done exactly from the count on |
| ProgressDialog.TruncDiv | src/gws_ai_toolkit/rag/rag_app/_rag_app/rag_app/reflex/rag_chat/config/delete_expired_documents_dialog/delete_expired_documents_dialog_state.py:39-43 | the quotient truncated toward zero, as int() of a division gives |
| ProgressDialog.PercentBounds | src/gws_ai_toolkit/rag/rag_app/_rag_app/rag_app/reflex/rag_chat/config/delete_expired_documents_dialog/delete_expired_documents_dialog_state.py:39-43 | during a run the percentage lies between 0 and 100; it is 0 at the start and 100 at the end |
| ProgressDialog.ErrorLine | src/gws_ai_toolkit/rag/rag_app/_rag_app/rag_app/reflex/rag_chat/config/delete_expired_documents_dialog/delete_expired_documents_dialog_state.py:90-95 | the error line is `Error <verb> '<name>' <id>: <error>`, piece by piece |
| ProgressDialog.ServiceList | src/gws_ai_toolkit/rag/rag_app/_rag_app/rag_app/components/config/delete_expired_documents_dialog/delete_expired_documents_dialog_state.py:68-70 | a dialog that awaits the service gets its list, and the components delete dialog, which does not, gets an AttributeError |
| ProgressDialog.FailuresAtMostItems | src/gws_ai_toolkit/rag/rag_app/_rag_app/rag_app/reflex/rag_chat/config/delete_expired_documents_dialog/delete_expired_documents_dialog_state.py:86-98 | a run records at most one error line per item |
| ProgressDialog.EveryItemFailing | src/gws_ai_toolkit/rag/rag_app/_rag_app/rag_app/reflex/rag_chat/config/delete_expired_documents_dialog/delete_expired_documents_dialog_state.py:86-98 | when every item fails, the i-th error line is the i-th item's, so there is one per item in order |
| ProgressDialog.NoItemFailing | src/gws_ai_toolkit/rag/rag_app/_rag_app/rag_app/reflex/rag_chat/config/delete_expired_documents_dialog/delete_expired_documents_dialog_state.py:86-98 | when no item fails no error line is recorded |
| ProgressDialog.UnawaitedServiceFailsEveryItem | src/gws_ai_toolkit/rag/rag_app/_rag_app/rag_app/components/config/delete_expired_documents_dialog/delete_expired_documents_dialog_state.py:59-94 | as written the components delete dialog never refuses a user on loading and its load raises AttributeError, and, whoever the user is, every item of its run fails with the coroutine's AttributeError, one error line per item, in order |
| ProgressDialog.AwaitedChecksRefuse | src/gws_ai_toolkit/rag/rag_app/_rag_app/rag_app/components/config/unsync_all_resources_dialog/unsync_all_resources_dialog_state.py:56-91 | a dialog that awaits its user checks refuses an unauthenticated user on loading exactly when it checks on loading, and fails every item, one line each in order, when the user check fails |
| ProgressDialog.AwaitedServiceKeepsOutcomes | src/gws_ai_toolkit/rag/rag_app/_rag_app/rag_app/components/config/delete_expired_documents_dialog/delete_expired_documents_dialog_state.py:59-94 | a dialog that awaits the service lists what the service returns and records an error line exactly for the items whose operation fails |
| ProgressDialog.Dialog.constructor | src/gws_ai_toolkit/rag/rag_app/_rag_app/rag_app/reflex/rag_chat/config/delete_expired_documents_dialog/delete_expired_documents_dialog_state.py:11-17 | a new dialog is closed, holds no items and no errors and is pending |
| ProgressDialog.Dialog.OpenDialog | src/gws_ai_toolkit/rag/rag_app/_rag_app/rag_app/reflex/rag_chat/config/delete_expired_documents_dialog/delete_expired_documents_dialog_state.py:45-47 | the dialog opens; nothing else changes |
| ProgressDialog.Dialog.CloseDialog | src/gws_ai_toolkit/rag/rag_app/_rag_app/rag_app/reflex/rag_chat/config/delete_expired_documents_dialog/delete_expired_documents_dialog_state.py:49-52 | the dialog closes; nothing else changes |
| ProgressDialog.Dialog.Load | src/gws_ai_toolkit/rag/rag_app/_rag_app/rag_app/reflex/rag_chat/config/delete_expired_documents_dialog/delete_expired_documents_dialog_state.py:60-72 | the list is emptied and the progress reset to pending, then the service's list stored; when the service raises, or is not awaited (the components delete dialog, AttributeError), the empty list stays; the components copies that await their user check fail without a user and change nothing, while the components delete dialog, whose check is not awaited, never refuses |
| ProgressDialog.Dialog.OnDialogEvent | src/gws_ai_toolkit/rag/rag_app/_rag_app/rag_app/reflex/rag_chat/config/delete_expired_documents_dialog/delete_expired_documents_dialog_state.py:54-58 | opening loads the list, which is then shown as pending; closing changes nothing |
| ProgressDialog.Dialog.Run | src/gws_ai_toolkit/rag/rag_app/_rag_app/rag_app/reflex/rag_chat/config/delete_expired_documents_dialog/delete_expired_documents_dialog_state.py:74-98 | the progress restarts at 0 with no errors; without a user the reflex copies fail there; otherwise every item is processed once, in order, the run ends done, and the errors are exactly the lines of the failing items, every item failing in the components copies whose awaited user check fails, and in the components delete dialog, which checks no user, with the coroutine's AttributeError whoever the user is |
| Migration.MigratedRowKeepsSource | src/gws_ai_toolkit/core/migration_0.py:27-56 | a migrated row keeps its id, message, document and score and holds no list: a non-empty list leaves its first chunk, an empty list no chunk, and any other row is left as it is |
| Migration.SplitRows | src/gws_ai_toolkit/core/migration_0.py:44-52 | one new row per remaining chunk |
| Migration.SplitRowsAt | src/gws_ai_toolkit/core/migration_0.py:44-52 | the i-th new row carries the i-th remaining chunk, the source's message and document, and the chunk's own score when it has one, else the source's |
| Migration.NewRowsUpToCount | src/gws_ai_toolkit/core/migration_0.py:27-56 | the rows added for the first i sources number one per chunk after the first of each list |
| Migration.NewRowsCount | src/gws_ai_toolkit/core/migration_0.py:27-56 | the migration adds one row per chunk after the first of every list |
| Migration.NoNewRowsUpTo | src/gws_ai_toolkit/core/migration_0.py:28-35 | sources without a list add no row |
| Migration.NoNewRowsWhenMigrated | src/gws_ai_toolkit/core/migration_0.py:28-35 | a table already migrated gains no row |
| Migration.ChunksKept | src/gws_ai_toolkit/core/migration_0.py:36-52 | every chunk of a list ends up in exactly one row, in order: the first in its source, the rest in new rows |
| Migration.NewRowsUpToSnoc | src/gws_ai_toolkit/core/migration_0.py:27-52 | the rows added grow, source by source, by the rows of the next source |
| Migration.AddedStep | src/gws_ai_toolkit/core/migration_0.py:27-52 | the rows added so far grow by the rows of the next source |
| Migration.MigratedRows | src/gws_ai_toolkit/core/migration_0.py:27-56 | the rewritten table has as many rows as before |
| Migration.MigratedRowsAt | src/gws_ai_toolkit/core/migration_0.py:27-56 | each source is rewritten on its own |
| Migration.PartialStep | src/gws_ai_toolkit/core/migration_0.py:27-56 | one turn of the loop rewrites source i in place and appends its rows |
| Migration.PartialDone | src/gws_ai_toolkit/core/migration_0.py:27-56 | after the loop the table is the rewritten sources followed by the new rows |
| Migration.MigrateSource | src/gws_ai_toolkit/core/migration_0.py:28-56 | one source is rewritten as MigratedRow says and its remaining chunks become rows numbered from the next id |
| Migration.NewRowsUpToHoldOneChunk | src/gws_ai_toolkit/core/migration_0.py:44-52 | every row added for the first i sources holds a single chunk |
| Migration.NewRowsHoldOneChunk | src/gws_ai_toolkit/core/migration_0.py:44-52 | every row the migration adds holds a single chunk |
| Migration.MigratedRowsFixed | src/gws_ai_toolkit/core/migration_0.py:28-35 | rows that hold no list are left as they are |
| Migration.MigrationIdempotent | src/gws_ai_toolkit/core/migration_0.py:13-56 | on the table it produced the migration changes no row and adds none |
| Migration.SourceTable.constructor | src/gws_ai_toolkit/core/migration_0.py:13-26 | the table holds the given rows and next id |
| Migration.SourceTable.MigrateOne | src/gws_ai_toolkit/core/migration_0.py:27-56 | one pass of the loop keeps the table equal to the sources migrated so far followed by the rows added so far |
| Migration.SourceTable.Migrate | src/gws_ai_toolkit/core/migration_0.py:13-56 | the table becomes every source rewritten in place followed by one new row per chunk after the first of every list, the ids advancing by that many |
| Migration.UpdateRow | src/gws_ai_toolkit/core/migration_0.py:69-75 | a conversation's mode is replaced exactly when it is the old name, and nothing else changes |
| Migration.UpdateMode | src/gws_ai_toolkit/core/migration_0.py:69-75 | every conversation is updated on its own and none is added or removed |
| Migration.NewModeNameIdempotent | src/gws_ai_toolkit/core/migration_0.py:64-75 | a renamed mode is not renamed again |
| Migration.UpdatesRename | src/gws_ai_toolkit/core/migration_0.py:64-75 | the three updates in turn rename one conversation's mode: RAG to rag, "Ai Expert" to ai_expert, ai_table_unified to ai_table |
| Migration.MigrateModes | src/gws_ai_toolkit/core/migration_0.py:64-75 | the mode migration keeps every conversation and adds none |
| Migration.MigrateModesRenames | src/gws_ai_toolkit/core/migration_0.py:64-75 | each conversation's mode is renamed independently and nothing else changes |
| Migration.MigrateModesIdempotent | src/gws_ai_toolkit/core/migration_0.py:64-75 | running the mode migration twice is running it once |
| DataFrameItems.EmptyFrame | src/gws_ai_toolkit/core/dataframe_item.py:60 | an empty frame has no columns and no rows |
| DataFrameItems.Extension | src/gws_ai_toolkit/core/dataframe_item.py:36 | the extension is what follows the last dot of the lower-cased path (the whole path when it has no dot), so it holds no dot |
| DataFrameItems.Count | src/gws_ai_toolkit/core/dataframe_item.py:122 | the number of occurrences, positive exactly when the character occurs |
| DataFrameItems.Separator | src/gws_ai_toolkit/core/dataframe_item.py:119-125 | the separator is a semicolon exactly when semicolons outnumber commas in the sample, a comma otherwise |
| DataFrameItems.Filled | src/gws_ai_toolkit/core/dataframe_item.py:88-105 | filling a merged range keeps the frame's columns and row count |
| DataFrameItems.RowFilled | src/gws_ai_toolkit/core/dataframe_item.py:102-105 | filling part of a row keeps its length |
| DataFrameItems.FillRow | src/gws_ai_toolkit/core/dataframe_item.py:103-105 | the inner loop fills the row as RowFilled says |
| DataFrameItems.FillMerged | src/gws_ai_toolkit/core/dataframe_item.py:83-105 | one merged range, clamped to the frame, is filled as Filled says |
| DataFrameItems.FilledAll | src/gws_ai_toolkit/core/dataframe_item.py:83-107 | filling every merged range keeps the frame's columns and row count |
| DataFrameItems.HandleMergedCells | src/gws_ai_toolkit/core/dataframe_item.py:62-107 | the sheet's frame with every merged range filled in order |
| DataFrameItems.FilledAllUncovered | src/gws_ai_toolkit/core/dataframe_item.py:83-107 | a cell no merged range covers keeps the value read |
| DataFrameItems.FilledAllLastCovering | src/gws_ai_toolkit/core/dataframe_item.py:83-107 | a covered cell takes the top-left value of the last range that covers it |
| DataFrameItems.Indices | src/gws_ai_toolkit/core/dataframe_item.py:141 | the column indices in order |
| DataFrameItems.KeptColumns | src/gws_ai_toolkit/core/dataframe_item.py:141 | the kept columns are in range, each holds a value, and they are in increasing order |
| DataFrameItems.DropEmptyColumns | src/gws_ai_toolkit/core/dataframe_item.py:141 | dropping empty columns keeps every row and exactly the labels and cells of the kept columns, in their order |
| DataFrameItems.DropEmptyColumnsKeeps | src/gws_ai_toolkit/core/dataframe_item.py:141 | a column is kept exactly when it holds a value |
| DataFrameItems.SheetNames | src/gws_ai_toolkit/core/dataframe_item.py:31-43 | the cached names when there are some, else the workbook's sheets for an Excel file and none otherwise |
| DataFrameItems.ReadSheet | src/gws_ai_toolkit/core/dataframe_item.py:62-80 | reading a sheet succeeds exactly when it exists, giving its frame with the merged cells filled; an unknown sheet is a KeyError |
| DataFrameItems.LoadFrame | src/gws_ai_toolkit/core/dataframe_item.py:116-141 | a CSV file is read with the guessed separator from its first 1024 characters; an Excel file reads the sheet named, else the first sheet, else gives an empty frame, and fails with KeyError exactly when that sheet is unknown; anything else is an empty frame; empty columns are then dropped |
| DataFrameItems.CacheKey | src/gws_ai_toolkit/core/dataframe_item.py:112 | frames are cached under the sheet name, and under "default" for the empty name |
| DataFrameItems.DataFrameItem.constructor | src/gws_ai_toolkit/core/dataframe_item.py:24-29 | as intended: the item starts with no cached frame and no sheet-name cache |
| DataFrameItems.DataFrameItem.AsWritten | src/gws_ai_toolkit/core/dataframe_item.py:24-29 | as written: the item starts with no cached frame and an empty list as sheet-name cache, the state SheetNamesAsWritten starts from |
| DataFrameItems.DataFrameItem.GetSheetNames | src/gws_ai_toolkit/core/dataframe_item.py:31-43 | the names SheetNames gives, now cached; the frames are untouched |
| DataFrameItems.DataFrameItem.HasMultipleSheets | src/gws_ai_toolkit/core/dataframe_item.py:45-47 | true exactly when there is more than one sheet |
| DataFrameItems.DataFrameItem.GetDataframe | src/gws_ai_toolkit/core/dataframe_item.py:109-146 | a frame cached under the key is returned unchanged; otherwise the loaded frame is returned and cached, and a failure caches nothing |
| DataFrameItems.DataFrameItem.GetDefaultDataframe | src/gws_ai_toolkit/core/dataframe_item.py:49-60 | the CSV frame, the first sheet's frame of an Excel file, or an empty frame for an Excel file without sheets or any other file, served from the cache when present; an Excel file leaves its sheet names cached, and a frame loaded without error is cached under its key while the cache is otherwise unchanged |
| DataFrameItems.SheetNamesAsWritten | src/gws_ai_toolkit/core/dataframe_item.py:29-34 | with the cache starting as an empty list, a workbook with two sheets reports none |
| DataFrameItems.SheetNamesCorrected | src/gws_ai_toolkit/core/dataframe_item.py:31-60 | with the cache starting empty, an Excel file reports its workbook's sheets and its default frame is the first sheet's |
| ExcelFiles.EmptyTable | src/gws_ai_toolkit/core/excel_file.py:58 | an empty table is unnamed and has an empty frame |
| ExcelFiles.UniqueName | src/gws_ai_toolkit/core/excel_file.py:22-26 | the file name, followed by "_" and the sheet name when there is a non-empty one; it always starts with the file name |
| ExcelFiles.SheetTableName | src/gws_ai_toolkit/core/excel_file.py:105-114 | a sheet named like the file gives the file name, any other sheet the file name, "_" and the sheet name |
| ExcelFiles.ExcelFile.constructor | src/gws_ai_toolkit/core/excel_file.py:39-43 | a new file holds no table |
| ExcelFiles.ExcelFile.SheetNames | src/gws_ai_toolkit/core/excel_file.py:45-47 | exactly the sheets that hold a table |
| ExcelFiles.ExcelFile.DefaultTable | src/gws_ai_toolkit/core/excel_file.py:53-58 | the first sheet's table, or an empty table when there is none |
| ExcelFiles.ExcelFile.GetTable | src/gws_ai_toolkit/core/excel_file.py:60-65 | the default table for the empty name, the named sheet's table otherwise, and a KeyError for an unknown sheet |
| ExcelFiles.ExcelFile.GetTableDto | src/gws_ai_toolkit/core/excel_file.py:67-75 | exists exactly when the table does, and carries the file's id and name, the sheet name and the table |
| ExcelFiles.ExcelFile.GetDataframe | src/gws_ai_toolkit/core/excel_file.py:77-80 | exists exactly when the table does, and is its frame |
| ExcelFiles.ExcelFile.AddTable | src/gws_ai_toolkit/core/excel_file.py:82-84 | that sheet's table is set or replaced, a new sheet goes last, and no other sheet changes |
| ExcelFiles.ExcelFile.ToDto | src/gws_ai_toolkit/core/excel_file.py:118-124 | the file's id and name, with the sheet names only when there are several |
| ExcelFiles.FromTable | src/gws_ai_toolkit/core/excel_file.py:126-132 | a new file with exactly one sheet, keyed and named by the given name |
| ExcelFiles.ImportedTables | src/gws_ai_toolkit/core/excel_file.py:86-104 | a CSV file gives one table keyed by the file name, an Excel file its sheets; every table is well formed |
| ExcelFiles.RenamedStep | src/gws_ai_toolkit/core/excel_file.py:105-114 | adding the next sheet, renamed, extends the tables added so far by it |
| ExcelFiles.RenamedAll | src/gws_ai_toolkit/core/excel_file.py:105-114 | after the loop the tables are the sheets, in their order, each renamed after the file and the sheet |
| ExcelFiles.FromFile | src/gws_ai_toolkit/core/excel_file.py:86-116 | an unsupported file is a ValueError; otherwise a new file holding exactly the imported sheets, in order, each renamed after the file and the sheet |

## Left out

- I/O: HTTP calls to Dify, RagFlow and the community API, the OpenAI streams, the gws_core SDK (resource models, spaces, folders, credentials), file reading and writing, and the Reflex and Streamlit runtimes are parameters of the operations that use them. Their answers are the values the model is given.
- Concurrency: the async Reflex handlers run one at a time in the model. Interleaved handlers on one state are not modelled.
- Floating point: `float` becomes `real`. NaN, infinities and rounding are not modelled. ProgressDialog.Percent truncates the exact ratio; the float rounding of `progress / count * 100` in Python (which can land just below a whole number) is not modelled.
- Logging, progress messages and `Logger` calls are left out. They change no state the model keeps.
- ProgressDialog.Dialog.Run: gws_core's `AuthenticateUser` is not part of this model; handed the un-awaited `get_and_check_current_user()` coroutine by the components delete dialog, it is taken to accept it, so the item ends as its deletion does.
- TagStore: the gws_core tag operations `replace_tags`, `add_tag` and `delete_tags` are modelled by their documented effect (replace by key, append, remove by key and value). gws_core is not part of this model.
- PyText.Strip: only the ASCII characters Python treats as whitespace count as space (`PyText.IsSpace`: space, tab, the line breaks, vertical tab, form feed and 0x1C-0x1F); Python's non-ASCII whitespace (0x85, 0xA0 and the Unicode space separators) is not modelled.
- PyText.ParseInt: accepts an optional sign followed by decimal digits. Python's `int()` also accepts surrounding whitespace and `_` digit separators; the model returns `None` for those.
- FunctionAgent.AttemptStep: stamps `ResponseCreated` and `ResponseCompleted` with the agent id, where the source yields `ResponseCreatedEvent(response_id)` and a bare `ResponseCompletedEvent` (src/gws_ai_toolkit/core/agents/base_function_agent_ai.py:161,164). The event classes' own file is not part of this model.
- TableAgent.TableAgentAi: the table agent passes `skip_success_response=False` to a base `__init__` that has no such parameter (src/gws_ai_toolkit/core/agents/table/table_agent_ai.py:82 against src/gws_ai_toolkit/core/agents/base_function_agent_ai.py:33-41). The model follows the table agent's intent rather than the `TypeError` the mismatch raises.
- ChatMessages.ChatConversationService.SaveMessage: the conversations call `save_message`, while the service defines only `_save_message` (src/gws_ai_toolkit/models/chat/conversation/base_chat_conversation.py:83,106 against src/gws_ai_toolkit/models/chat/conversation/chat_conversation_service.py:85). The model assumes the public name exists, with the new message id as a parameter.
- ChatMessages.ChatConversationService.GetConversationsByChatApp: returns a set of conversations; the order of the source's list is lost.
- TableAgentConversation.AiTableAgentChatConversation.HandleTableAgentEvent: tables are values, so a rename the source applies in place to a shared `Table` object is not visible through other references.
- TableAgent.CreateTableResources: the same; the renamed table is a new value.
- ExcelFiles.FromFile: the same; sheets are values, and the file reading and its IO errors are parameters.
- RagDatahubService.DatahubRagService.SendMessageStream: the source writes the folder filter into the caller's `inputs` dict; the model returns a new map (`RagDatahubService.FolderInputs`) and the caller's dict is unchanged.
- AiTableLegacyData.ItemFrame and AiTableLegacyData.ItemFromTable stand for `core/table_item.py`, which is not part of this model; a table item is a value with a name, sheet names, sheets and a default frame.
- StatsDecision.AiTableStats.RunStudentIndependentPairwise: the statistical tests themselves (the t-test, the correction methods) are a parameter that maps p-values to corrected p-values; the model proves what is done with their results, not their numerics. The behaviour of the `AiTableStatsBase` helpers is assumed from their names.
- StatsPairwise.PerformPairwiseAnalysis: requires distinct column labels. pandas accepts a frame with a repeated label, and on it the label-based `.loc[col, col]`, `dataframe[[col1, col2]]` and `dataframe.loc[common_indices, col]` (src/gws_ai_toolkit/stats/ai_table_stats_tests_pairwise.py:18-146) address a block of cells or several columns per label, so what the test function and `float(p_value)` then do depends on pandas and scipy, which are not part of this model. The model indexes columns by position, which agrees with the labels only when they are distinct.
- StatsPairwise.StudentIndependentPairwise: requires distinct column labels. pandas accepts a frame with a repeated label, and on it the label-based `.loc[col, col]`, `dataframe[[col1, col2]]` and `dataframe.loc[common_indices, col]` (src/gws_ai_toolkit/stats/ai_table_stats_tests_pairwise.py:18-146) address a block of cells or several columns per label, so what the test function and `float(p_value)` then do depends on pandas and scipy, which are not part of this model. The model indexes columns by position, which agrees with the labels only when they are distinct.
- StatsPairwise.PearsonPairwise: requires distinct column labels. pandas accepts a frame with a repeated label, and on it the label-based `.loc[col, col]`, `dataframe[[col1, col2]]` and `dataframe.loc[common_indices, col]` (src/gws_ai_toolkit/stats/ai_table_stats_tests_pairwise.py:18-146) address a block of cells or several columns per label, so what the test function and `float(p_value)` then do depends on pandas and scipy, which are not part of this model. The model indexes columns by position, which agrees with the labels only when they are distinct.
- StatsPairwise.SpearmanPairwise: requires distinct column labels. pandas accepts a frame with a repeated label, and on it the label-based `.loc[col, col]`, `dataframe[[col1, col2]]` and `dataframe.loc[common_indices, col]` (src/gws_ai_toolkit/stats/ai_table_stats_tests_pairwise.py:18-146) address a block of cells or several columns per label, so what the test function and `float(p_value)` then do depends on pandas and scipy, which are not part of this model. The model indexes columns by position, which agrees with the labels only when they are distinct.
- StatsDecision.AiTableStats.RunStudentIndependentPairwise: requires distinct column labels, for the reason given for StatsPairwise.PerformPairwiseAnalysis, on which it calls (src/gws_ai_toolkit/stats/ai_table_stats_class.py:305-361).
- StatsDecision.AiTableRelationStats.RunCorrelationAnalysisAsWritten: requires distinct column labels, for the reason given for StatsPairwise.PerformPairwiseAnalysis, whose Pearson and Spearman analyses it runs (src/gws_ai_toolkit/rag/rag_app/_rag_app/rag_app/reflex/ai_table/stats/ai_table_relation_stats.py:65-93).
- StatsDecision.AiTableRelationStats.RunCorrelationAnalysis: requires distinct column labels, for the reason given for StatsPairwise.PerformPairwiseAnalysis, whose Pearson and Spearman analyses it runs (src/gws_ai_toolkit/rag/rag_app/_rag_app/rag_app/reflex/ai_table/stats/ai_table_relation_stats.py:65-118).
- StatsPairwise: the matrix of the pairwise test statistics is not modelled; the matrix of pairwise p-values is (`PairwiseDetails`).
- DataFrameItems: the IO errors of opening and reading CSV and Excel files are not modelled; the file content is a parameter.
- Migration.MigrateSource: a chunk that is not a dict (on which `.get` raises `AttributeError`) and a chunk whose `"score"` is `null` are not modelled; chunks are records with the three fields.
- CommunityAnswers.FetchAllStories: requires a page that ends the listing, because the source loop does not end otherwise (`CommunityAnswers.UnendingListingReadsEveryPage`).
- CommunityTasks.DownloadCommunityStories: follows the page loop for at most `fuel` pages, a bound of the model only (the source has none), through `CommunityAnswers.FetchStoriesWithFuel`; `None` stands for a listing still being read after `fuel` pages, which in the source goes on reading.
- StatsDecision.Named: the name lemmas assume every test is named after itself. In the RAG app's copy a Dunn test whose scikit-posthocs call raises is recorded as "Dunn (error)" (src/gws_ai_toolkit/rag/rag_app/_rag_app/rag_app/reflex/ai_table/stats/ai_table_stats_tests.py:457-466); for that copy the Dunn lemmas hold only for runs where the test succeeds.
- The conversations are modelled against the API their subclasses use: `config`, the `chat_configuration=` argument, `save_message`, `BaseChatConversationConfig` and `ChatConversationMode` (src/gws_ai_toolkit/models/chat/conversation/ai_table_agent_chat_conversation.py:12-16, src/gws_ai_toolkit/models/chat/conversation/ai_expert_chat_conversation.py:19-23), which the base class in this tree does not define (src/gws_ai_toolkit/models/chat/conversation/base_chat_conversation.py:17-131). As written, importing those subclasses raises ImportError; the model gives what they do with the API they expect.
- AiTableData.AiTableDataState.AddFile: gws_core's `Utils.generate_unique_str_for_list` is not part of this model; it is the parameter `unique`, taken to give a name outside the set of existing names, and which name it picks is not modelled.
- ChatHistory.ConversationFullHistory.AddConversation: when the incoming conversation is itself the stored one, the merge adds nothing, and its label is the one `update_label` set (stated for the incoming conversation); the merged conversation's label is stated for the other case only.
- ChatHistory.ConversationFullHistory.AddConversationAsWritten: gives the in-memory history up to the exception; the history state then logs the error and writes nothing, and that file write is left out with `_save_history`.
- Chat display: the conversion of messages for display (`messages_to_display`, images and Plotly figures), the image and Plotly message factories, `_save_image_to_temp`, the links that open a document or share a conversation, and the redirect to the AI expert page are presentation and are left out.
- The `configure_conversation_before_message` hook, `authenticate_user` and the `_after_message_added` no-op are left out: they add no behaviour to the core.
- `get_chat_app_name` and the other constant getters are left out; their constants appear as parameters.
- `ChatMessage.from_json` timestamp parsing is left out: a timestamp is an opaque value.
- The doc-expert page's trivial getters and setters and `get_document_url` are left out; the state transitions are modelled.
- Router navigation, `_save_history` (the JSON file write of the history) and `get_compatible_resource_explanation` (its user-facing text) are left out.
- SyncResource: `send_to_rag`, `delete_from_rag`, `parse_document`, `refresh` and `_load_rag_document` of the sync states call the app services modelled in `RagAppService`; the dialog states model their status and transitions, and the components-version `resources_infos` duplicates the modelled one.
- The `has_loaded` flags of the Reflex states are left out: they only guard reloading.
- The `chat_base` message classes (src/gws_ai_toolkit/rag/rag_app/_rag_app/rag_app/reflex/chat_base/chat_message_class.py:41-46, 78-123) carry a content and data but no code, filename or Plotly field, while `chat_state_base.py` builds code messages with `code=` (src/gws_ai_toolkit/rag/rag_app/_rag_app/rag_app/reflex/chat_base/chat_state_base.py:244-249). The model gives the message body `chat_state_base.py` builds (`LegacyMessage`) and does not model the validation error that mismatch raises; it does model the `code` read of `update_label` (`ChatHistory.ConversationHistory.UpdateLabelAsWritten`).
- PushResources: the resource name `"Unknown"` used when `get_resource` raises, the logs and progress, `str(e)` as the error text, the searches of `TagRagAppService` (parameters of the task), `delete_resource_from_rag_and_lab` (a parameter) and `_log_summary` are left out; the modelled outcome counts each resource once.
- The getters of `rag_datahub_service` that are the same as the base app service's are covered by the `RagAppService` members.
- `upload_documents` reading files from disk: the file content is a parameter.
- The table conversation's `_call_ai_chat`, `table_agent_ai`'s `_get_tools` and `_get_ai_instruction` (prompt text), `save_table_agent_ai`, and the internals of the plot, transform and multi-table sub-agents are left out; the sub-agents' event streams are parameters.
- `chat_conversation_service`'s `_create_sources_for_message` and its file writing are left out; `ChatMessageModel` duplicates `chat_message.py`, which is modelled.
- `AgentEventList.from_json_list` and `get_all` are serialisation and a plain getter; they are left out.

## Findings

| source | as written | input that shows it | evidently intended | confidence | as-written member | corrected member |
|---|---|---|---|---|---|---|
| src/gws_ai_toolkit/rag/ragflow/rag_ragflow_service.py:30-34 | `update_document_and_parse` calls `upload_document_and_parse(doc_path, dataset_id, filename)`, so the file name lands in the `options` parameter | path "/tmp/f1.bin" with file name "report.pdf" uploads as "f1.bin" (`RagRagFlowService.UpdateLosesFilename`) | the file name is passed as `filename` and the document keeps it | not executed | RagRagFlowService.UpdateAndParseCallsAsWritten | RagRagFlowService.UpdateAndParseCalls |
| src/gws_ai_toolkit/rag/common/datahub_rag_app_service.py:58-78 | when the user has no folders, the folder cache stays `None` and `enumerate(None)` raises `TypeError` | a user with an empty folder list | the default filters are empty | not executed | DatahubRagAppService.DatahubRagAppService.GetChatDefaultFiltersAsWritten | DatahubRagAppService.DatahubRagAppService.GetChatDefaultFilters |
| src/gws_ai_toolkit/rag/common/datahub_rag_app_service.py:58-78 | `send_message_stream` builds its inputs from `get_chat_default_filters`, so a user with no root folders gets the `TypeError` of that call before any chat call | a user with an empty folder list and no cached list | the chat runs with only the caller's filters | not executed | DatahubRagAppService.DatahubRagAppService.SendMessageStreamAsWritten | DatahubRagAppService.DatahubRagAppService.SendMessageStream |
| src/gws_ai_toolkit/rag/ragflow/rag_ragflow_service.py:62-75 | `retrieve_chunks` passes `document_ids=` to `RagFlowService.retrieve_chunks`, which has no such parameter (src/gws_ai_toolkit/rag/ragflow/ragflow_service.py:229-230), so every call raises `TypeError` (`RagRagFlowService.RetrieveChunksAlwaysFails`) | any query | the chunks of the dataset, restricted to the given documents | not executed | RagRagFlowService.RetrieveChunksAsWritten | RagRagFlowService.RetrieveChunks |
| src/gws_ai_toolkit/core/agents/base_function_agent_ai.py:121-125 | after the loop, `max_calls_reached` is yielded whenever the call count reached the limit, even when the last call answered normally | nine function calls followed by a plain answer (`FunctionAgent.MaxCallsReportedAfterNormalAnswer`) | the event only when the budget stopped the agent | not executed | FunctionAgent.FinalEventsAsWritten | FunctionAgent.FinalEvents |
| src/gws_ai_toolkit/rag/common/base_rag_app_service.py:102-114 | `delete_resource_from_rag` calls `get_dataset_base_id`, which a `DatahubRagResource` does not have, so `AttributeError` | any data-hub resource returned by `get_all_synced_resources` (`RagAppService.SyncedResourcesCannotBeDeletedAsWritten`) | the document is deleted from its dataset | not executed | RagAppService.RagAppService.DeleteResourceFromRagAsWritten | RagAppService.RagAppService.DeleteResourceFromRag |
| src/gws_ai_toolkit/core/dataframe_item.py:29-43 | the sheet-name cache starts as `[]` (`DataFrameItems.DataFrameItem.AsWritten`), which the `is None` test never treats as empty, so an Excel file reports no sheets | an Excel file with sheets "a" and "b" | the sheet names of the file | not executed | DataFrameItems.SheetNamesAsWritten | DataFrameItems.SheetNamesCorrected |
| src/gws_ai_toolkit/apps/ai_table_standalone_app/_ai_table_standalone_app/ai_table_standalone_app/ai_table/ai_table_data_state.py:268-275 | `add_table` calls `ExcelFile.from_table(table=table)` without the required `id_` and `name`, so `TypeError` | any table | the table is added as a new file and selected | not executed | AiTableData.AiTableDataState.AddTableAsWritten | AiTableData.AiTableDataState.AddTable |
| src/gws_ai_toolkit/apps/ai_table_standalone_app/_ai_table_standalone_app/ai_table_standalone_app/ai_table/ai_table_data_state.py:287-296 | `add_resource_model` ends in `add_table`, so a table resource fails with `TypeError` | an existing table resource | the resource's table is added | not executed | AiTableData.AiTableDataState.AddResourceModelAsWritten | AiTableData.AiTableDataState.AddResourceModel |
| src/gws_ai_toolkit/apps/ai_table_standalone_app/_ai_table_standalone_app/ai_table_standalone_app/ai_table/ai_table_data_state.py:317-325 | loading from the URL's resource id goes through `add_resource_model`, so `TypeError` | a non-empty resource id of a table | the table of the URL is loaded | not executed | AiTableData.AiTableDataState.LoadFromResourceIdUrlParamAsWritten | AiTableData.AiTableDataState.LoadFromResourceIdUrlParam |
| src/gws_ai_toolkit/apps/ai_table_standalone_app/_ai_table_standalone_app/ai_table_standalone_app/ai_table/selection/ai_table_selection_state.py:41-96 | extracting a selection ends in `data_state.add_table`, so `TypeError` | any valid selection | the selected cells become a new table | not executed | AiTableSelection.AiTableSelectionState.ExtractSelectionAsWritten | AiTableSelection.AiTableSelectionState.ExtractSelection |
| src/gws_ai_toolkit/apps/ai_table_standalone_app/_ai_table_standalone_app/ai_table_standalone_app/ai_table/ai_table_data_state.py:201-209 | `select_table` calls `get_sheet_name_from_id`, which `ExcelFile` does not define (src/gws_ai_toolkit/core/excel_file.py:22-132), so `AttributeError` | any loaded file | the file holding the given table becomes current, with its sheet | not executed | AiTableData.AiTableDataState.SelectTable | AiTableData.AiTableDataState.SelectTableIntended |
| src/gws_ai_toolkit/ai_table_standalone_app/_ai_table_standalone_app/ai_table_standalone_app/ai_table/selection/ai_table_selection_state.py:43-97 | the older selection state calls `data_state.add_table`, which the older data state does not define, so `AttributeError` | any valid selection | the selected cells become a new table | not executed | AiTableLegacySelection.AiTableSelectionState.ExtractSelectionAsWritten | AiTableLegacySelection.AiTableSelectionState.ExtractSelection |
| src/gws_ai_toolkit/rag/rag_app/_rag_app/rag_app/reflex/history/conversation_history_class.py:30-40 | `update_label` reads `message.code` of the first user message, and the `chat_base` message classes have no `code` field (src/gws_ai_toolkit/rag/rag_app/_rag_app/rag_app/reflex/chat_base/chat_message_class.py:41-46), so it raises `AttributeError`; `add_conversation` calls it first (:63), so a conversation with a user message is never added, and the history state logs the error | one user message "Hello" (`ChatHistory.HelloRaisesAsWritten`) | the label is the first hundred characters of the first user question, "Hello" here, and the conversation is added | not executed | ChatHistory.ConversationFullHistory.AddConversationAsWritten | ChatHistory.ConversationFullHistory.AddConversation |
| src/gws_ai_toolkit/rag/rag_app/_rag_app/rag_app/reflex/chat_base/chat_state_base.py:339-361 | saving to history passes `external_conversation_id=`, which `add_conversation` does not accept (src/gws_ai_toolkit/rag/rag_app/_rag_app/rag_app/reflex/history/conversation_history_state.py:64-68), so a logged `TypeError` and nothing saved | any conversation | the conversation is added to the history | not executed | ChatState.ChatStateBase.SaveConversationToHistoryAsWritten | ChatState.ChatStateBase.SaveConversationToHistory |
| src/gws_ai_toolkit/rag/rag_app/_rag_app/rag_app/reflex/rag_chat/config/sync_resource/sync_resource_state.py:50-55 | Enter calls `select_resource`, a background `async` event handler (:84-85), without awaiting it, so only a coroutine is created and nothing is selected | a non-empty resource list and the key "Enter" | the hovered resource is selected, as in the `components` copy | not executed | SyncResource.SyncResourceState.OnInputKeyDown | SyncResource.SyncResourceState.OnInputKeyDownIntended |
| src/gws_ai_toolkit/rag/rag_app/_rag_app/rag_app/reflex/ai_table/stats/ai_table_relation_stats.py:77-93 | the two-column branch calls `pearson_correlation_test` on the RAG app's `AiTableStatsTests`, which has no such method (its last method is `dunn_test`, src/gws_ai_toolkit/rag/rag_app/_rag_app/rag_app/reflex/ai_table/stats/ai_table_stats_tests.py:421), so `AttributeError` | any two numeric columns (`StatsDecision.CorrelationAsWrittenFailsOnTwoColumns`) | a Pearson result then a Spearman result | not executed | StatsDecision.AiTableRelationStats.RunCorrelationAnalysisAsWritten | StatsDecision.AiTableRelationStats.RunCorrelationAnalysis |
| src/gws_ai_toolkit/rag/rag_app/_rag_app/rag_app/components/config/delete_expired_documents_dialog/delete_expired_documents_dialog_state.py:59-94 | the dialog reads the asynchronous computed `get_dataset_rag_app_service` without `await` (:68, :81), so loading raises `AttributeError` after emptying the list, and each deletion fails with `'coroutine' object has no attribute 'delete_rag_document'`; it also calls `check_authentication()` (:61) and `get_and_check_current_user()` (:85) without `await`, so the truthy coroutine lets every user load and no user is checked in a run | opening the dialog, or running it on any list (`ProgressDialog.UnawaitedServiceFailsEveryItem`) | the service and the user checks are awaited, as in the `components` unsync dialog: an authenticated user's expired documents are listed and deleted, and anyone else is refused (`ProgressDialog.AwaitedChecksRefuse`) | not executed | ProgressDialog.UnawaitedServiceFailsEveryItem | ProgressDialog.AwaitedServiceKeepsOutcomes |
