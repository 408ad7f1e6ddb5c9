/** The backend-neutral records the RAG layer exchanges: documents, chunks and the two kinds
    of chat stream response (a text piece, or the end of the answer with its sources). */
module RagModels {
  import opened Wrappers

  datatype ParsedStatus = DONE | PENDING | RUNNING | ERROR

  datatype RagDocument = RagDocument(
    id: string,
    name: string,
    size: int,
    parsedStatus: ParsedStatus,
    metadata: map<string, string>)

  datatype RagChunk = RagChunk(
    id: string,
    content: Option<string>,
    documentId: string,
    documentName: string,
    score: real)

  /** `RagChatStreamResponse` (a piece of answer text) or `RagChatEndStreamResponse`
      (the conversation/session id and the sources of the answer). */
  datatype ChatStreamEvent =
    | StreamPiece(answer: string, isFromBeginning: bool)
    | EndResponse(sessionId: string, sources: seq<RagChunk>)

  /** `RagChatEndStreamResponse.add_source`: one more source chunk at the end. */
  function AddSource(e: ChatStreamEvent, documentId: string, documentName: string, chunkId: string,
                     score: real, content: Option<string>): (r: ChatStreamEvent)
    requires e.EndResponse?
    ensures r.EndResponse? && r.sessionId == e.sessionId
    ensures r.sources == e.sources + [RagChunk(chunkId, content, documentId, documentName, score)]
  {
    e.(sources := e.sources + [RagChunk(chunkId, content, documentId, documentName, score)])
  }

  /** The calls the application layer makes on a RAG backend, in order. Models of the
      services return these traces in place of performing network I/O. */
  datatype RagCall =
    | UploadAndParse(docPath: string, datasetId: string, filename: string)
    | UpdateAndParse(docPath: string, datasetId: string, documentId: string, filename: string)
    | UpdateMetadata(datasetId: string, documentId: string, metadata: map<string, string>)
    | DeleteDocument(datasetId: string, documentId: string)
    | ChatStream(query: string, inputs: map<string, string>)

  /** A `credentials.data` dictionary. */
  type Credentials = map<string, string>

  datatype RouteAndKey = RouteAndKey(route: string, apiKey: string)

  /** The credential check every backend's `from_credentials` performs: 'route' is checked
      first, then 'api_key'; a missing field is a ValueError. */
  function CredentialsRouteAndKey(c: Credentials): (r: Result<RouteAndKey>)
    ensures r.Ok? <==> "route" in c && "api_key" in c
    ensures r.Ok? ==> r.value.route == c["route"] && r.value.apiKey == c["api_key"]
    ensures r.Err? ==> r.kind == ValueError
  {
    if "route" !in c then Err(ValueError)
    else if "api_key" !in c then Err(ValueError)
    else Ok(RouteAndKey(c["route"], c["api_key"]))
  }
}
