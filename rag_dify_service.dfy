/** `RagDifyService`: the Dify backend behind the backend-neutral RAG interface. It converts
    Dify documents and search records, checks the option objects of uploads and updates, and
    maps Dify's message stream to stream responses. */
module RagDifyService {
  import opened Wrappers
  import opened RagModels

  /** The fields of a `DifyDatasetDocument` the adapter reads. */
  datatype DifyDocument = DifyDocument(
    id: string,
    name: string,
    tokens: int,
    indexingStatus: string,
    metaFields: Option<map<string, string>>)

  /** A `DifyChunkRecord`: a segment of a document and its search score. */
  datatype DifyChunkRecord = DifyChunkRecord(
    segmentId: string,
    content: Option<string>,
    documentId: string,
    documentName: string,
    score: real)

  /** The option object passed to an upload or an update. */
  datatype DocumentOptions = SendOptions | UpdateOptions | OtherOptions

  /** One source of a `DifySendEndMessageStreamResponse`. */
  datatype DifySource = DifySource(documentId: string, documentName: string, score: real)

  /** What `DifyService.send_message_stream` yields. */
  datatype DifyStreamResponse =
    | MessagePiece(answer: string)
    | MessageEnd(conversationId: string, sources: seq<DifySource>)
    | OtherResponse

  /** `status_mapping.get(indexing_status, 'PENDING')`. */
  function ParsedStatusOf(indexingStatus: string): (s: ParsedStatus)
    ensures s == DONE <==> indexingStatus == "completed"
    ensures s == RUNNING <==> indexingStatus == "indexing"
    ensures s == ERROR <==> indexingStatus == "error"
    ensures s == PENDING <==> indexingStatus !in {"completed", "indexing", "error"}
  {
    if indexingStatus == "completed" then DONE
    else if indexingStatus == "indexing" then RUNNING
    else if indexingStatus == "paused" then PENDING
    else if indexingStatus == "error" then ERROR
    else PENDING
  }

  function ConvertDocument(d: DifyDocument): (r: RagDocument)
    ensures r.id == d.id && r.name == d.name
    ensures r.size == d.tokens
    ensures r.parsedStatus == ParsedStatusOf(d.indexingStatus)
    ensures d.metaFields.None? ==> r.metadata == map[]
    ensures d.metaFields.Some? ==> r.metadata == d.metaFields.value
  {
    RagDocument(d.id, d.name, d.tokens, ParsedStatusOf(d.indexingStatus), d.metaFields.GetOr(map[]))
  }

  function ConvertChunk(c: DifyChunkRecord): (r: RagChunk)
    ensures r.id == c.segmentId && r.content == c.content
    ensures r.documentId == c.documentId && r.documentName == c.documentName
    ensures r.score == c.score
  {
    RagChunk(c.segmentId, c.content, c.documentId, c.documentName, c.score)
  }

  /** `upload_document_and_parse`: only `DifySendDocumentOptions` are accepted; the result is
      the document Dify returns (`sent`), converted. */
  function UploadAndParse(options: DocumentOptions, sent: DifyDocument): (r: Result<RagDocument>)
    ensures r.Ok? <==> options.SendOptions?
    ensures r.Err? ==> r.kind == ValueError
    ensures r.Ok? ==> r.value == ConvertDocument(sent)
  {
    if !options.SendOptions? then Err(ValueError) else Ok(ConvertDocument(sent))
  }

  /** `update_document_and_parse`: only `DifyUpdateDocumentOptions` are accepted. */
  function UpdateAndParse(options: DocumentOptions, updated: DifyDocument): (r: Result<RagDocument>)
    ensures r.Ok? <==> options.UpdateOptions?
    ensures r.Err? ==> r.kind == ValueError
    ensures r.Ok? ==> r.value == ConvertDocument(updated)
  {
    if !options.UpdateOptions? then Err(ValueError) else Ok(ConvertDocument(updated))
  }

  /** `parse_document`: Dify cannot re-parse a document. */
  function ParseDocument(datasetId: string, documentId: string): (r: Result<RagDocument>)
    ensures r == Err(NotImplementedError)
  {
    Err(NotImplementedError)
  }

  /** `get_document`: None when Dify has no such document. */
  function GetDocument(found: Option<DifyDocument>): (r: Option<RagDocument>)
    ensures r.None? <==> found.None?
    ensures r.Some? ==> r.value == ConvertDocument(found.value)
  {
    if found.None? then None else Some(ConvertDocument(found.value))
  }

  /** `retrieve_chunks`: any document filter is refused; otherwise each search record is
      converted, in order. */
  method RetrieveChunks(documentIds: Option<seq<string>>, records: seq<DifyChunkRecord>) returns (r: Result<seq<RagChunk>>)
    ensures r.Err? <==> documentIds.Some?
    ensures r.Err? ==> r.kind == NotImplementedError
    ensures r.Ok? ==> |r.value| == |records| &&
                      forall k :: 0 <= k < |records| ==> r.value[k] == ConvertChunk(records[k])
  {
    if documentIds.Some? {
      return Err(NotImplementedError);
    }
    var chunks := [];
    var i := 0;
    while i < |records|
      invariant 0 <= i <= |records|
      invariant |chunks| == i
      invariant forall k :: 0 <= k < i ==> chunks[k] == ConvertChunk(records[k])
    {
      chunks := chunks + [ConvertChunk(records[i])];
      i := i + 1;
    }
    r := Ok(chunks);
  }

  // ---------------------------------------------------------------- chat_stream

  /** The source `add_source` records for a Dify source: no chunk id and no content. */
  function SourceChunk(s: DifySource): (c: RagChunk)
    ensures c.id == "" && c.content.None?
    ensures c.documentId == s.documentId && c.documentName == s.documentName && c.score == s.score
  {
    RagChunk("", None, s.documentId, s.documentName, s.score)
  }

  /** The responses one Dify response produces. */
  function ResponseEvents(r: DifyStreamResponse): (events: seq<ChatStreamEvent>)
    ensures |events| <= 1
  {
    match r
    case MessagePiece(answer) => [StreamPiece(answer, false)]
    case MessageEnd(conversationId, sources) =>
      [EndResponse(conversationId, seq(|sources|, k requires 0 <= k < |sources| => SourceChunk(sources[k])))]
    case OtherResponse => []
  }

  /** Everything `chat_stream` yields, in order. */
  function StreamEvents(responses: seq<DifyStreamResponse>): seq<ChatStreamEvent>
  {
    if |responses| == 0 then []
    else StreamEvents(responses[..|responses| - 1]) + ResponseEvents(responses[|responses| - 1])
  }

  method ChatStream(responses: seq<DifyStreamResponse>) returns (events: seq<ChatStreamEvent>)
    ensures events == StreamEvents(responses)
  {
    events := [];
    var i := 0;
    while i < |responses|
      invariant 0 <= i <= |responses|
      invariant events == StreamEvents(responses[..i])
    {
      var response := responses[i];
      assert responses[..i + 1][..i] == responses[..i];
      assert StreamEvents(responses[..i + 1]) == StreamEvents(responses[..i]) + ResponseEvents(response);
      match response {
        case MessagePiece(answer) =>
          events := events + [StreamPiece(answer, false)];
        case MessageEnd(conversationId, sources) =>
          var chatEnd := EndResponse(conversationId, []);
          var j := 0;
          while j < |sources|
            invariant 0 <= j <= |sources|
            invariant chatEnd.EndResponse? && chatEnd.sessionId == conversationId
            invariant |chatEnd.sources| == j
            invariant forall k :: 0 <= k < j ==> chatEnd.sources[k] == SourceChunk(sources[k])
          {
            chatEnd := AddSource(chatEnd, sources[j].documentId, sources[j].documentName, "", sources[j].score, None);
            j := j + 1;
          }
          assert chatEnd.sources == seq(|sources|, k requires 0 <= k < |sources| => SourceChunk(sources[k]));
          events := events + [chatEnd];
        case OtherResponse =>
      }
      i := i + 1;
    }
    assert responses[..i] == responses;
  }

  function MessageCount(responses: seq<DifyStreamResponse>): nat
  {
    if |responses| == 0 then 0
    else MessageCount(responses[..|responses| - 1]) + (if responses[|responses| - 1].OtherResponse? then 0 else 1)
  }

  /** One response per Dify message or message end, none for other events; pieces never
      restart the message (Dify streams increments). */
  lemma {:induction false} StreamEventsShape(responses: seq<DifyStreamResponse>)
    ensures |StreamEvents(responses)| == MessageCount(responses)
    ensures forall e :: e in StreamEvents(responses) && e.StreamPiece? ==> !e.isFromBeginning
  {
    if |responses| > 0 {
      StreamEventsShape(responses[..|responses| - 1]);
    }
  }

  /** The end response carries the conversation id and one source per Dify source. */
  lemma EndResponseSources(conversationId: string, sources: seq<DifySource>)
    ensures ResponseEvents(MessageEnd(conversationId, sources)) ==
            [EndResponse(conversationId, ResponseEvents(MessageEnd(conversationId, sources))[0].sources)]
    ensures |ResponseEvents(MessageEnd(conversationId, sources))[0].sources| == |sources|
    ensures forall k :: 0 <= k < |sources| ==>
              ResponseEvents(MessageEnd(conversationId, sources))[0].sources[k].documentId == sources[k].documentId
  {
  }
}
