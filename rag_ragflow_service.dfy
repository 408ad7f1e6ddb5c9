/** `RagRagFlowService`: the RagFlow backend behind the backend-neutral RAG interface. It
    converts SDK documents and chunks, maps the answers of `ask_stream` to stream responses,
    and composes SDK calls for upload, update and lookup. */
module RagRagFlowService {
  import opened Wrappers
  import opened PyText
  import opened RagModels
  import RagFlow
  import Seqs

  /** The fields of a RagFlow SDK `Document` the adapter reads. */
  datatype SdkDocument = SdkDocument(id: string, name: string, size: int, run: string)

  /** The fields of a RagFlow SDK `Chunk` (and of a reference dictionary in an answer). */
  datatype SdkChunk = SdkChunk(
    id: string,
    content: Option<string>,
    documentId: string,
    documentName: string,
    vectorSimilarity: real)

  /** One answer yielded by `ask_stream`. An empty `reference` list stands for a missing one,
      which Python treats the same way. */
  datatype SdkAnswer = SdkAnswer(role: string, content: string, reference: seq<SdkChunk>, sessionId: string)

  /** The RagFlow parsing state of a document as a backend-neutral status. */
  function ParsedStatusOf(run: string): (s: ParsedStatus)
    ensures s == PENDING <==> run == "UNSTART"
    ensures s == DONE <==> run == "DONE"
    ensures s == RUNNING <==> run == "RUNNING"
    ensures s == ERROR <==> run != "UNSTART" && run != "DONE" && run != "RUNNING"
  {
    if run == "UNSTART" then PENDING
    else if run == "DONE" then DONE
    else if run == "RUNNING" then RUNNING
    else ERROR
  }

  function ConvertDocument(d: SdkDocument): (r: RagDocument)
    ensures r.id == d.id && r.name == d.name && r.size == d.size
    ensures r.parsedStatus == ParsedStatusOf(d.run)
    ensures r.metadata == map[]
  {
    RagDocument(d.id, d.name, d.size, ParsedStatusOf(d.run), map[])
  }

  function ConvertChunk(c: SdkChunk): (r: RagChunk)
    ensures r.id == c.id && r.content == c.content
    ensures r.documentId == c.documentId && r.documentName == c.documentName
    ensures r.score == c.vectorSimilarity
  {
    RagChunk(c.id, c.content, c.documentId, c.documentName, c.vectorSimilarity)
  }

  /** Every status is reachable: the conversion loses no state RagFlow can report. */
  lemma EveryStatusReachable(s: ParsedStatus)
    ensures exists run :: ParsedStatusOf(run) == s
  {
    match s
    case PENDING => assert ParsedStatusOf("UNSTART") == s;
    case DONE => assert ParsedStatusOf("DONE") == s;
    case RUNNING => assert ParsedStatusOf("RUNNING") == s;
    case ERROR => assert ParsedStatusOf("FAIL") == s;
  }

  // ---------------------------------------------------------------- chat_stream

  /** The responses one answer produces: nothing for a non-assistant answer, an end response
      with the references as sources when it has references, a text piece otherwise. */
  function AnswerEvents(a: SdkAnswer): (events: seq<ChatStreamEvent>)
    ensures |events| <= 1
  {
    if a.role != "assistant" then []
    else if |a.reference| > 0 then
      [EndResponse(a.sessionId, seq(|a.reference|, k requires 0 <= k < |a.reference| => ConvertChunk(a.reference[k])))]
    else [StreamPiece(a.content, true)]
  }

  /** Everything `chat_stream` yields for the answers `ask_stream` yields, in order. */
  function StreamEvents(answers: seq<SdkAnswer>): seq<ChatStreamEvent>
  {
    if |answers| == 0 then []
    else StreamEvents(answers[..|answers| - 1]) + AnswerEvents(answers[|answers| - 1])
  }

  method ChatStream(answers: seq<SdkAnswer>) returns (events: seq<ChatStreamEvent>)
    ensures events == StreamEvents(answers)
  {
    events := [];
    var i := 0;
    while i < |answers|
      invariant 0 <= i <= |answers|
      invariant events == StreamEvents(answers[..i])
    {
      var answer := answers[i];
      assert answers[..i + 1][..i] == answers[..i];
      assert StreamEvents(answers[..i + 1]) == StreamEvents(answers[..i]) + AnswerEvents(answer);
      if answer.role == "assistant" {
        if |answer.reference| > 0 {
          var sources := [];
          var j := 0;
          while j < |answer.reference|
            invariant 0 <= j <= |answer.reference|
            invariant |sources| == j
            invariant forall k :: 0 <= k < j ==> sources[k] == ConvertChunk(answer.reference[k])
          {
            sources := sources + [ConvertChunk(answer.reference[j])];
            j := j + 1;
          }
          assert sources == seq(|answer.reference|, k requires 0 <= k < |answer.reference| => ConvertChunk(answer.reference[k]));
          events := events + [EndResponse(answer.sessionId, sources)];
        } else {
          events := events + [StreamPiece(answer.content, true)];
        }
      }
      i := i + 1;
    }
    assert answers[..i] == answers;
  }

  function AssistantCount(answers: seq<SdkAnswer>): nat
  {
    if |answers| == 0 then 0
    else AssistantCount(answers[..|answers| - 1]) + (if answers[|answers| - 1].role == "assistant" then 1 else 0)
  }

  /** One response per assistant answer, none for the others; every text piece restarts the
      message and every end response carries at least one source. */
  lemma {:induction false} StreamEventsShape(answers: seq<SdkAnswer>)
    ensures |StreamEvents(answers)| == AssistantCount(answers)
    ensures forall e :: e in StreamEvents(answers) && e.StreamPiece? ==> e.isFromBeginning
    ensures forall e :: e in StreamEvents(answers) && e.EndResponse? ==> |e.sources| > 0
  {
    if |answers| > 0 {
      StreamEventsShape(answers[..|answers| - 1]);
    }
  }

  /** The sources of an end response are the answer's references, converted one by one. */
  lemma EndResponseSources(a: SdkAnswer)
    requires a.role == "assistant" && |a.reference| > 0
    ensures AnswerEvents(a) == [EndResponse(a.sessionId, AnswerEvents(a)[0].sources)]
    ensures |AnswerEvents(a)[0].sources| == |a.reference|
    ensures forall k :: 0 <= k < |a.reference| ==>
              AnswerEvents(a)[0].sources[k].score == a.reference[k].vectorSimilarity &&
              AnswerEvents(a)[0].sources[k].documentId == a.reference[k].documentId
  {
  }

  // ---------------------------------------------------------------- upload and update

  /** The RagFlow SDK calls the adapter makes, in order. */
  datatype SdkCall =
    | Upload(docPath: string, datasetId: string, displayName: string)
    | Parse(datasetId: string, documentIds: seq<string>)
    | Delete(datasetId: string, documentId: string)

  /** `upload_document_and_parse`: upload under the display name `upload_document` chooses,
      then start parsing the new document (whose id `newId` the SDK returns). */
  function UploadAndParseCalls(docPath: string, datasetId: string, filename: Option<string>, newId: string): (calls: seq<SdkCall>)
    ensures |calls| == 2
    ensures calls[0] == Upload(docPath, datasetId, RagFlow.UploadName(docPath, filename))
    ensures calls[1] == Parse(datasetId, [newId])
  {
    [Upload(docPath, datasetId, RagFlow.UploadName(docPath, filename)), Parse(datasetId, [newId])]
  }

  /** `update_document_and_parse` as written: the old document is deleted, then
      `upload_document_and_parse(doc_path, dataset_id, filename)` is called with `filename` in
      the position of `options`, so the upload runs with no file name. */
  function UpdateAndParseCallsAsWritten(docPath: string, datasetId: string, documentId: string,
                                        filename: Option<string>, newId: string): (calls: seq<SdkCall>)
    ensures |calls| == 3 && calls[0] == Delete(datasetId, documentId)
    ensures calls[1] == Upload(docPath, datasetId, BaseName(docPath))
  {
    [Delete(datasetId, documentId)] + UploadAndParseCalls(docPath, datasetId, None, newId)
  }

  /** The update passing `filename` by keyword: delete, then exactly the calls of a fresh
      upload under the same file name. */
  function UpdateAndParseCalls(docPath: string, datasetId: string, documentId: string,
                               filename: Option<string>, newId: string): (calls: seq<SdkCall>)
    ensures |calls| == 3 && calls[0] == Delete(datasetId, documentId)
    ensures calls[1..] == UploadAndParseCalls(docPath, datasetId, filename, newId)
  {
    [Delete(datasetId, documentId)] + UploadAndParseCalls(docPath, datasetId, filename, newId)
  }

  /** As written, updating a resource whose file lives at "/tmp/f1.bin" with the file name
      "report.pdf" re-uploads it as "f1.bin"; the corrected update keeps "report.pdf". */
  lemma UpdateLosesFilename()
    ensures UpdateAndParseCallsAsWritten("/tmp/f1.bin", "ds", "d1", Some("report.pdf"), "d2")[1].displayName == "f1.bin"
    ensures UpdateAndParseCalls("/tmp/f1.bin", "ds", "d1", Some("report.pdf"), "d2")[1].displayName == "report.pdf"
  {
    assert "/tmp/f1.bin" == "/tmp" + "/" + "f1.bin";
    BaseNameOfPath("/tmp", "f1.bin");
  }

  /** The corrected update uploads under the same name as a fresh upload, for every input. */
  lemma UpdateKeepsUploadName(docPath: string, datasetId: string, documentId: string,
                              filename: Option<string>, newId: string)
    ensures UpdateAndParseCalls(docPath, datasetId, documentId, filename, newId)[1].displayName ==
            UploadAndParseCalls(docPath, datasetId, filename, newId)[0].displayName
  {
  }

  // ---------------------------------------------------------------- lookups

  /** `get_document`: the dataset lookup and the document lookup both raise ValueError when
      nothing matches, and the adapter turns that into None. */
  function GetDocument(datasets: seq<string>, found: seq<SdkDocument>): (r: Option<RagDocument>)
    ensures r.None? <==> |datasets| == 0 || |found| == 0
    ensures r.Some? ==> r.value == ConvertDocument(found[0])
  {
    var lookup := RagFlow.FirstOrValueError(datasets);
    if lookup.Err? then None
    else
      var document := RagFlow.FirstOrValueError(found);
      if document.Err? then None else Some(ConvertDocument(document.value))
  }

  /** `retrieve_chunks` as written: it passes `document_ids=` to
      `RagFlowService.retrieve_chunks`, whose signature has no such parameter, so Python
      raises TypeError before any request, whatever the arguments. */
  function RetrieveChunksAsWritten(query: string, documentIds: Option<seq<string>>, retrieved: seq<SdkChunk>): (r: Result<seq<RagChunk>>)
    ensures r == Err(TypeError)
  {
    Err(TypeError)
  }

  predicate InDocuments(c: RagChunk, documentIds: Option<seq<string>>)
  {
    documentIds.None? || c.documentId in documentIds.value
  }

  /** The retrieved chunks, each converted, in order. */
  function ConvertedChunks(retrieved: seq<SdkChunk>): (r: seq<RagChunk>)
    ensures |r| == |retrieved|
    ensures forall k :: 0 <= k < |retrieved| ==> r[k] == ConvertChunk(retrieved[k])
  {
    seq(|retrieved|, k requires 0 <= k < |retrieved| => ConvertChunk(retrieved[k]))
  }

  /** The document filter as a predicate on converted chunks. */
  function KeepsDocuments(documentIds: Option<seq<string>>): RagChunk -> bool
  {
    (c: RagChunk) => InDocuments(c, documentIds)
  }

  /** The chunks the filter keeps are of the requested documents, every converted chunk of a
      requested document is kept, and without a filter every converted chunk is kept in order. */
  lemma {:induction false} FilteredChunks(retrieved: seq<SdkChunk>, documentIds: Option<seq<string>>)
    ensures var kept := Seqs.Filter(ConvertedChunks(retrieved), KeepsDocuments(documentIds));
            && (forall c :: c in kept ==> InDocuments(c, documentIds))
            && (forall k :: 0 <= k < |retrieved| && InDocuments(ConvertChunk(retrieved[k]), documentIds) ==>
                  ConvertChunk(retrieved[k]) in kept)
            && (documentIds.None? ==> kept == ConvertedChunks(retrieved))
  {
    var converted := ConvertedChunks(retrieved);
    var keep := KeepsDocuments(documentIds);
    forall k | 0 <= k < |retrieved| && InDocuments(ConvertChunk(retrieved[k]), documentIds)
      ensures ConvertChunk(retrieved[k]) in Seqs.Filter(converted, keep)
    {
      Seqs.FilterMembers(converted, keep, converted[k]);
    }
    if documentIds.None? {
      Seqs.FilterKeepsAll(converted, keep);
    }
  }

  /** `retrieve_chunks` with the document filter honoured: the retrieved chunks, converted,
      keeping those of the requested documents in their order and with their repetitions
      (all of them when no filter is given). */
  method RetrieveChunks(query: string, documentIds: Option<seq<string>>, retrieved: seq<SdkChunk>) returns (r: Result<seq<RagChunk>>)
    ensures r.Ok?
    ensures r.value == Seqs.Filter(ConvertedChunks(retrieved), KeepsDocuments(documentIds))
    ensures forall c :: c in r.value ==> InDocuments(c, documentIds)
    ensures forall k :: 0 <= k < |retrieved| && InDocuments(ConvertChunk(retrieved[k]), documentIds) ==>
              ConvertChunk(retrieved[k]) in r.value
    ensures documentIds.None? ==> r.value == ConvertedChunks(retrieved)
  {
    var converted := ConvertedChunks(retrieved);
    var keep := KeepsDocuments(documentIds);
    var chunks := [];
    var i := 0;
    while i < |retrieved|
      invariant 0 <= i <= |retrieved|
      invariant chunks == Seqs.Filter(converted[..i], keep)
    {
      var chunk := ConvertChunk(retrieved[i]);
      Seqs.FilterSnoc(converted, keep, i);
      if keep(chunk) {
        chunks := chunks + [chunk];
      }
      i := i + 1;
    }
    assert converted[..i] == converted;
    FilteredChunks(retrieved, documentIds);
    r := Ok(chunks);
  }

  /** The as-written retrieval fails for every query, while the corrected one succeeds. */
  lemma RetrieveChunksAlwaysFails(query: string, documentIds: Option<seq<string>>, retrieved: seq<SdkChunk>)
    ensures RetrieveChunksAsWritten(query, documentIds, retrieved).Err?
    ensures RetrieveChunksAsWritten(query, None, retrieved).kind == TypeError
  {
  }
}
