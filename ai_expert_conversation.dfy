/** `AiExpertChatConversation`: a chat about one document. Before each answer the document is
    put in front of the model in one of three ways (the uploaded file, the chunks relevant to
    the question, or the first chunks of the document, cached per chunk count); while the
    answer streams, the id of the response being produced is tracked so that the next
    question continues it; files the model generates become saved messages. */
module AiExpertConversation {
  import opened Wrappers
  import opened PyText
  import opened ChatMessages
  import opened ChatConversation

  // ---------------------------------------------------------------- prompt text

  /** `s.replace(old, new)`: every occurrence, left to right, without overlap. */
  function Replace(s: string, target: string, replacement: string): (r: string)
    ensures target != "" && replacement == target ==> r == s
    decreases |s|
  {
    if target == "" then InsertEverywhere(s, replacement)
    else if |s| < |target| then s
    else if s[..|target|] == target then replacement + Replace(s[|target|..], target, replacement)
    else [s[0]] + Replace(s[1..], target, replacement)
  }

  /** `s.replace("", new)`: the replacement text before every character and at the end. */
  function InsertEverywhere(s: string, replacement: string): (r: string)
    ensures |r| == |s| + (|s| + 1) * |replacement|
    decreases |s|
  {
    if |s| == 0 then replacement else replacement + [s[0]] + InsertEverywhere(s[1..], replacement)
  }

  /** A prompt without the placeholder is left as it is. */
  lemma {:induction false} ReplaceAbsent(s: string, target: string, replacement: string)
    requires target != "" && !Contains(s, target)
    ensures Replace(s, target, replacement) == s
    decreases |s|
  {
    if |s| >= |target| {
      assert !OccursAt(s, target, 0);
      if !Contains(s[1..], target) {
        ReplaceAbsent(s[1..], target, replacement);
      } else {
        var i :| 0 <= i <= |s[1..]| - |target| && OccursAt(s[1..], target, i);
        assert s[i + 1..i + 1 + |target|] == s[1..][i..i + |target|];
        assert OccursAt(s, target, i + 1);
      }
    }
  }

  /** A prompt that is exactly the placeholder becomes the replacement. */
  lemma ReplaceWhole(target: string, replacement: string)
    requires target != ""
    ensures Replace(target, target, replacement) == replacement
  {
    assert target[..|target|] == target;
    assert target[|target|..] == "";
  }

  /** `"\n".join(chunk.content for chunk in chunks)`; no chunk at all is a ValueError. */
  function ChunksText(contents: seq<string>): (r: Result<string>)
    ensures r.Err? <==> |contents| == 0
    ensures r.Err? ==> r.kind == ValueError
    ensures r.Ok? ==> Split(r.value, '\n') == contents || exists i :: 0 <= i < |contents| && '\n' in contents[i]
  {
    if |contents| == 0 then Err(ValueError)
    else
      var text := Join(contents, '\n');
      SplitJoinWhenNoSeparator(contents);
      Ok(text)
  }

  /** Joining lines that hold no newline and splitting the text again gives the lines back. */
  lemma {:induction false} SplitJoinWhenNoSeparator(parts: seq<string>)
    requires |parts| > 0
    ensures (forall i :: 0 <= i < |parts| ==> '\n' !in parts[i]) ==> Split(Join(parts, '\n'), '\n') == parts
    decreases |parts|
  {
    if forall i :: 0 <= i < |parts| ==> '\n' !in parts[i] {
      if |parts| == 1 {
        SplitWithoutSeparator(parts[0], '\n');
      } else {
        SplitJoinWhenNoSeparator(parts[1..]);
        assert forall i :: 0 <= i < |parts[1..]| ==> '\n' !in parts[1..][i];
        SplitAtFirstSeparator(parts[0], Join(parts[1..], '\n'), '\n');
      }
    }
  }

  // ---------------------------------------------------------------- generated files

  /** A file the model's answer points to: its id, its name and its container. */
  datatype FileAnnotation = FileAnnotation(fileId: string, filename: string, containerId: Option<string>)

  /** Where a generated file is downloaded from. */
  datatype DownloadSource = ContainerFiles | OpenAiFiles

  /** A file id starting with "cfile_" is read from its container when there is one. */
  function SourceOf(a: FileAnnotation): (r: DownloadSource)
    ensures r == ContainerFiles <==> |a.fileId| >= 6 && a.fileId[..6] == "cfile_" && Truthy(a.containerId)
  {
    if |a.fileId| >= 6 && a.fileId[..6] == "cfile_" && Truthy(a.containerId) then ContainerFiles else OpenAiFiles
  }

  /** The position of the last occurrence of `c`, if any. */
  function LastIndexOf(s: string, c: char): (r: Option<nat>)
    ensures r.None? <==> c !in s
    ensures r.Some? ==> r.value < |s| && s[r.value] == c && forall j :: r.value < j < |s| ==> s[j] != c
    decreases |s|
  {
    if |s| == 0 then None
    else if s[|s| - 1] == c then Some(|s| - 1)
    else LastIndexOf(s[..|s| - 1], c)
  }

  /** The extension `os.path.splitext` finds: from the last dot of the last path component,
      provided something other than dots comes before that dot in the component. */
  function Extension(path: string): (r: string)
    ensures r != "" ==> r[0] == '.' && '.' !in r[1..]
    ensures r != "" ==> |r| <= |path| && path[|path| - |r|..] == r
  {
    var start := match LastIndexOf(path, '/') case None => 0 case Some(i) => i + 1;
    NameExtension(path[start..])
  }

  /** The extension of a file name without directory. */
  function NameExtension(name: string): (r: string)
    ensures r != "" ==> r[0] == '.' && '.' !in r[1..]
    ensures r != "" ==> |r| <= |name| && name[|name| - |r|..] == r
  {
    match LastIndexOf(name, '.')
    case None => ""
    case Some(d) =>
      if HasStem(name, d) then
        assert name[d..][1..] == name[d + 1..];
        name[d..]
      else ""
  }

  /** Something other than a dot comes before position `d`. */
  predicate HasStem(name: string, d: nat)
  {
    exists k :: 0 <= k < d && k < |name| && name[k] != '.'
  }

  const ImageExtensions: seq<string> := [".png", ".jpg", ".jpeg", ".gif", ".bmp", ".webp"]

  /** An image file name ends in a dot followed by three or four characters. */
  predicate IsImageFile(filename: string): (r: bool)
    ensures r ==> 4 <= |Extension(filename)| <= 5 && filename[|filename| - |Extension(filename)|] == '.'
  {
    var e := Extension(filename);
    ImageExtensionLength(e);
    LowerAscii(e) in ImageExtensions
  }

  /** Every image extension has three or four letters after its dot. */
  lemma ImageExtensionLength(e: string)
    ensures LowerAscii(e) in ImageExtensions ==> 4 <= |e| <= 5
  {
    ImageExtensionsAreShort(LowerAscii(e));
  }

  lemma ImageExtensionsAreShort(l: string)
    ensures l in ImageExtensions ==> 4 <= |l| <= 5
  {
    assert forall k :: 0 <= k < |ImageExtensions| ==> 4 <= |ImageExtensions[k]| <= 5;
  }

  /** `_handle_output_text_annotation_added` and `_extract_file_from_response`: an image is
      shown as an image, any other file as a text that names it; a download or decoding that
      fails (its message given as `failure`) becomes an error message. */
  function AnnotationMessage(a: FileAnnotation, externalId: Option<string>, failure: Option<string>): (r: ChatMessage)
    ensures r.role == AssistantRole && r.externalId == externalId && r.id.None?
    ensures failure.Some? ==> r.payload == ErrorPayload("[Error loading file: Error downloading file " + a.fileId + ": " + failure.value + "]")
    ensures failure.None? && IsImageFile(a.filename) ==> r.payload == ImagePayload(true)
    ensures failure.None? && !IsImageFile(a.filename) ==> r.payload == TextPayload("File '" + a.filename + "' has been generated.")
  {
    var payload :=
      if failure.Some? then ErrorPayload("[Error loading file: Error downloading file " + a.fileId + ": " + failure.value + "]")
      else if IsImageFile(a.filename) then ImagePayload(true)
      else TextPayload("File '" + a.filename + "' has been generated.");
    ChatMessage(None, AssistantRole, externalId, [], payload)
  }

  /** The extension of a bare file name whose last dot is at `d` and has something other than
      a dot before it. */
  lemma ExtensionOfName(name: string, d: nat)
    requires '/' !in name && d < |name| && name[d] == '.'
    requires forall j :: d < j < |name| ==> name[j] != '.'
    requires 0 < d && name[0] != '.'
    ensures Extension(name) == name[d..]
  {
    assert LastIndexOf(name, '/') == None;
    assert name[0..] == name;
    assert LastIndexOf(name, '.') == Some(d);
    assert HasStem(name, d);
  }

  /** Whether a bare file name is an image depends only on its lower-cased extension, so the
      case of the extension does not matter. */
  lemma ImageIgnoresCase(name: string, d: nat)
    requires '/' !in name && d < |name| && name[d] == '.'
    requires forall j :: d < j < |name| ==> name[j] != '.'
    requires 0 < d && name[0] != '.'
    ensures IsImageFile(name) <==> LowerAscii(name[d..]) in ImageExtensions
  {
    ExtensionOfName(name, d);
  }

  /** A hidden file with no other dot has no extension, so it is never an image, whatever it
      is named after. */
  lemma HiddenFileIsNotImage(name: string)
    requires '/' !in name && 0 < |name| && name[0] == '.'
    requires forall j :: 0 < j < |name| ==> name[j] != '.'
    ensures !IsImageFile(name)
  {
    assert LastIndexOf(name, '/') == None;
    assert name[0..] == name;
    assert LastIndexOf(name, '.') == Some(0);
    assert !HasStem(name, 0);
    assert Extension(name) == "";
  }

  // ---------------------------------------------------------------- the conversation

  /** The processing modes of the configuration. */
  datatype Tool = CodeInterpreter(fileIds: seq<string>)

  /** The instructions and tools an answer is requested with. */
  datatype Setup = Setup(instructions: string, tools: seq<Tool>)

  /** What the services answer when asked: the client (None when the API key is not set), the
      uploaded file's id, whether the resource is loaded and is a file, the chunks of the
      document and the chunks relevant to the question. */
  datatype Oracle = Oracle(apiKeySet: bool, resourceLoaded: bool, resourceIsFile: bool, uploadedFileId: string,
                           documentChunks: seq<string>, relevantChunks: Result<seq<string>>)

  class AiExpertChatConversation {
    const base: BaseChatConversation
    const mode: string
    const maxChunks: int
    const systemPrompt: string
    const placeholder: string
    const documentName: string
    /** `openai_file_id`: the document once uploaded. */
    var openaiFileId: Option<string>
    /** `_document_chunks_text`: the text of the first chunks, per chunk count. */
    var documentChunksText: map<int, string>
    var previousExternalResponseId: Option<string>
    var currentExternalResponseId: Option<string>
    /** The uploads made to OpenAI so far. */
    var uploads: nat
    /** The requests for the document's chunks made so far. */
    var chunkRequests: nat

    /** The stored configuration is the chat configuration with the resource id added, so
        that the conversation can be restored. */
    constructor (chatAppName: string, chatConfiguration: map<string, string>, resourceId: string, mode: string,
                 maxChunks: int, systemPrompt: string, placeholder: string, documentName: string,
                 service: ChatConversationService)
      ensures fresh(base) && base.mode == "ai_expert" && base.chatAppName == chatAppName
      ensures base.configuration == chatConfiguration["resource_id" := resourceId]
      ensures base.service == service && base.conversation.None? && base.chatMessages == [] && base.current.None? && base.Valid()
      ensures this.mode == mode && this.maxChunks == maxChunks && this.systemPrompt == systemPrompt
      ensures this.placeholder == placeholder && this.documentName == documentName
      ensures openaiFileId.None? && documentChunksText == map[] && uploads == 0 && chunkRequests == 0
      ensures previousExternalResponseId.None? && currentExternalResponseId.None?
    {
      base := new BaseChatConversation(chatAppName, chatConfiguration["resource_id" := resourceId], "ai_expert", service);
      this.mode := mode;
      this.maxChunks := maxChunks;
      this.systemPrompt := systemPrompt;
      this.placeholder := placeholder;
      this.documentName := documentName;
      openaiFileId := None;
      documentChunksText := map[];
      previousExternalResponseId := None;
      currentExternalResponseId := None;
      uploads := 0;
      chunkRequests := 0;
    }

    /** `_handle_response_created`: the response being produced. */
    method HandleResponseCreated(responseId: string)
      modifies this
      ensures currentExternalResponseId == Some(responseId)
      ensures previousExternalResponseId == old(previousExternalResponseId)
      ensures openaiFileId == old(openaiFileId) && documentChunksText == old(documentChunksText)
      ensures uploads == old(uploads) && chunkRequests == old(chunkRequests)
    {
      currentExternalResponseId := Some(responseId);
    }

    /** `_handle_response_completed`: a completed response becomes the one the next request
        continues; with no (or an empty) current id nothing changes. */
    method HandleResponseCompleted()
      modifies this
      ensures Truthy(old(currentExternalResponseId)) ==>
                previousExternalResponseId == old(currentExternalResponseId) && currentExternalResponseId.None?
      ensures !Truthy(old(currentExternalResponseId)) ==>
                previousExternalResponseId == old(previousExternalResponseId) && currentExternalResponseId == old(currentExternalResponseId)
      ensures openaiFileId == old(openaiFileId) && documentChunksText == old(documentChunksText)
      ensures uploads == old(uploads) && chunkRequests == old(chunkRequests)
    {
      if Truthy(currentExternalResponseId) {
        previousExternalResponseId := currentExternalResponseId;
        currentExternalResponseId := None;
      }
    }

    /** `_get_document_chunks_text`: the text of the first chunks, computed once per chunk
        count; a document without chunks is a ValueError and caches nothing. */
    method GetDocumentChunksText(count: int, chunks: seq<string>) returns (r: Result<string>)
      modifies this
      ensures count in old(documentChunksText) ==>
                r == Ok(old(documentChunksText)[count]) && documentChunksText == old(documentChunksText)
                && chunkRequests == old(chunkRequests)
      ensures count !in old(documentChunksText) ==> chunkRequests == old(chunkRequests) + 1 && r == ChunksText(chunks)
      ensures count !in old(documentChunksText) && r.Err? ==> documentChunksText == old(documentChunksText)
      ensures count !in old(documentChunksText) && r.Ok? ==> documentChunksText == old(documentChunksText)[count := r.value]
      ensures openaiFileId == old(openaiFileId) && uploads == old(uploads)
      ensures previousExternalResponseId == old(previousExternalResponseId) && currentExternalResponseId == old(currentExternalResponseId)
    {
      if count in documentChunksText {
        return Ok(documentChunksText[count]);
      }
      chunkRequests := chunkRequests + 1;
      r := ChunksText(chunks);
      if r.Ok? {
        documentChunksText := documentChunksText[count := r.value];
      }
    }

    /** `_upload_file_to_openai`: the file is uploaded once and its id reused; without an API
        key, a loaded resource, or a file resource, it is a ValueError. */
    method UploadFileToOpenai(oracle: Oracle) returns (r: Result<string>)
      modifies this
      ensures Truthy(old(openaiFileId)) ==> r == Ok(old(openaiFileId).value) && uploads == old(uploads) && openaiFileId == old(openaiFileId)
      ensures !Truthy(old(openaiFileId)) ==>
                && (r.Ok? <==> oracle.resourceLoaded && oracle.apiKeySet && oracle.resourceIsFile)
                && (r.Err? ==> r.kind == ValueError && uploads == old(uploads) && openaiFileId == old(openaiFileId))
                && (r.Ok? ==> r.value == oracle.uploadedFileId && openaiFileId == Some(oracle.uploadedFileId)
                              && uploads == old(uploads) + 1)
      ensures documentChunksText == old(documentChunksText) && chunkRequests == old(chunkRequests)
      ensures previousExternalResponseId == old(previousExternalResponseId) && currentExternalResponseId == old(currentExternalResponseId)
    {
      if Truthy(openaiFileId) {
        return Ok(openaiFileId.value);
      }
      if !oracle.resourceLoaded || !oracle.apiKeySet || !oracle.resourceIsFile {
        return Err(ValueError);
      }
      uploads := uploads + 1;
      openaiFileId := Some(oracle.uploadedFileId);
      r := Ok(oracle.uploadedFileId);
    }

    /** The mode branching of `_call_ai_chat`: full_file uploads the document and gives the
        model the code interpreter on it; relevant_chunks puts the chunks relevant to the
        question in the instructions; any other mode puts the first chunks there. Without an
        API key nothing is done. */
    method PrepareAnswer(oracle: Oracle) returns (r: Result<Setup>)
      modifies this
      ensures !oracle.apiKeySet ==> r == Err(ValueError)
      ensures r.Ok? ==> (|r.value.tools| > 0 <==> mode == "full_file")
      ensures r.Ok? && mode == "full_file" ==>
                openaiFileId.Some? && r.value.tools == [CodeInterpreter([openaiFileId.value])]
                && r.value.instructions == Replace(systemPrompt, placeholder, documentName + "\n" + openaiFileId.value)
      ensures mode == "relevant_chunks" && oracle.apiKeySet ==>
                && (oracle.relevantChunks.Err? ==> r == Err(oracle.relevantChunks.kind))
                && (oracle.relevantChunks.Ok? ==> (r.Ok? <==> |oracle.relevantChunks.value| > 0))
      ensures r.Ok? && mode == "relevant_chunks" ==>
                r.value.instructions == Replace(systemPrompt, placeholder, documentName + "\n" + ChunksText(oracle.relevantChunks.value).value)
      ensures r.Ok? && mode != "full_file" && mode != "relevant_chunks" ==>
                maxChunks in documentChunksText
                && r.value.instructions == Replace(systemPrompt, placeholder, documentName + "\n" + documentChunksText[maxChunks])
      ensures mode == "full_file" && !Truthy(old(openaiFileId)) && oracle.apiKeySet ==>
                && (r.Ok? <==> oracle.resourceLoaded && oracle.resourceIsFile)
                && (r.Err? ==> r.kind == ValueError && uploads == old(uploads) && openaiFileId == old(openaiFileId))
      ensures mode != "full_file" && mode != "relevant_chunks" && oracle.apiKeySet ==>
                && (maxChunks in old(documentChunksText) ==> r.Ok? && documentChunksText == old(documentChunksText))
                && (maxChunks !in old(documentChunksText) ==>
                      && (r.Ok? <==> ChunksText(oracle.documentChunks).Ok?)
                      && (r.Err? ==> r.kind == ChunksText(oracle.documentChunks).kind)
                      && (r.Ok? ==> documentChunksText == old(documentChunksText)[maxChunks := ChunksText(oracle.documentChunks).value]))
      ensures mode != "full_file" ==> uploads == old(uploads) && openaiFileId == old(openaiFileId)
      ensures mode == "full_file" && Truthy(old(openaiFileId)) ==>
                uploads == old(uploads) && openaiFileId == old(openaiFileId) && (oracle.apiKeySet ==> r.Ok?)
      ensures mode == "full_file" && !Truthy(old(openaiFileId)) && r.Ok? ==>
                uploads == old(uploads) + 1 && openaiFileId == Some(oracle.uploadedFileId)
      ensures mode == "full_file" || mode == "relevant_chunks" ==> documentChunksText == old(documentChunksText)
      ensures !oracle.apiKeySet ==>
                uploads == old(uploads) && openaiFileId == old(openaiFileId) && documentChunksText == old(documentChunksText)
      ensures mode == "full_file" || mode == "relevant_chunks" || !oracle.apiKeySet ==> chunkRequests == old(chunkRequests)
      ensures mode != "full_file" && mode != "relevant_chunks" && oracle.apiKeySet ==>
                chunkRequests == old(chunkRequests) + (if maxChunks in old(documentChunksText) then 0 else 1)
      ensures previousExternalResponseId == old(previousExternalResponseId) && currentExternalResponseId == old(currentExternalResponseId)
    {
      if !oracle.apiKeySet {
        return Err(ValueError);
      }
      if mode == "full_file" {
        var fileId := UploadFileToOpenai(oracle);
        if fileId.Err? {
          return Err(fileId.kind);
        }
        r := Ok(Setup(Replace(systemPrompt, placeholder, documentName + "\n" + fileId.value), [CodeInterpreter([fileId.value])]));
      } else if mode == "relevant_chunks" {
        if oracle.relevantChunks.Err? {
          return Err(oracle.relevantChunks.kind);
        }
        var text := ChunksText(oracle.relevantChunks.value);
        if text.Err? {
          return Err(text.kind);
        }
        r := Ok(Setup(Replace(systemPrompt, placeholder, documentName + "\n" + text.value), []));
      } else {
        var text := GetDocumentChunksText(maxChunks, oracle.documentChunks);
        if text.Err? {
          return Err(text.kind);
        }
        r := Ok(Setup(Replace(systemPrompt, placeholder, documentName + "\n" + text.value), []));
      }
    }

    /** A generated file is saved as a message of the conversation, with the response being
        produced as its external id. */
    method HandleAnnotation(a: Option<FileAnnotation>, failure: Option<string>, newId: string) returns (r: Result<Option<ChatMessage>>)
      requires base.Valid()
      modifies base.service
      ensures base.Valid()
      ensures a.None? ==> r == Ok(None) && base.service.messages == old(base.service.messages)
      ensures a.Some? && base.conversation.None? ==> r == Err(ValueError) && base.service.messages == old(base.service.messages)
      ensures a.Some? && base.conversation.Some? ==>
                var m := AnnotationMessage(a.value, currentExternalResponseId, failure);
                && base.service.messages == old(base.service.messages) + [NewRecord(base.conversation.value.id, m, newId)]
                && r.Ok? && r.value.Some?
      ensures base.service.conversations == old(base.service.conversations)
    {
      if a.None? {
        return Ok(None);
      }
      if base.conversation.None? {
        return Err(ValueError);
      }
      var m := AnnotationMessage(a.value, currentExternalResponseId, failure);
      var saved := base.service.SaveMessage(base.conversation.value.id, m, newId);
      r := Ok(Some(saved));
    }
  }

  /** Answering twice in full_file mode uploads the document once. */
  method UploadOnce(c: AiExpertChatConversation, oracle: Oracle) returns (first: Result<Setup>, second: Result<Setup>)
    requires c.mode == "full_file" && c.openaiFileId.None? && oracle.uploadedFileId != ""
    modifies c
    ensures first.Ok? ==> second.Ok? && second.value == first.value && c.uploads == old(c.uploads) + 1
  {
    first := c.PrepareAnswer(oracle);
    second := c.PrepareAnswer(oracle);
  }
}
