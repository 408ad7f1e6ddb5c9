/** Chat messages as the front end sees them (the DTOs), as the database stores them (one
    `ChatMessage` row per message), the conversion between the two, the class-level registry
    that picks a message class for a stored row, and the conversation service that saves
    conversations and messages. */
module ChatMessages {
  import opened Wrappers
  import opened PyText
  import opened RagModels
  import opened Seqs

  datatype Role = UserRole | AssistantRole

  /** What a message carries besides the fields every message has. Images and figures are
      only present or absent here: their pixels and traces are not modelled. */
  datatype Payload =
    | TextPayload(content: string)
    | ImagePayload(hasImage: bool)
    | CodePayload(code: string)
    | PlotlyPayload(hasFigure: bool)
    | ErrorPayload(error: string)
    | HintPayload(content: string)
    | TablePayload(tableName: string)

  /** A message DTO: `id`, `role`, `external_id` and `sources` of `ChatMessageBase`, plus the
      payload of its subclass. A missing source list is the empty list. */
  datatype ChatMessage = ChatMessage(id: Option<string>, role: Role, externalId: Option<string>,
                                     sources: seq<RagChunk>, payload: Payload)

  /** `ChatUserMessageText(content=...)`. */
  function UserText(content: string): ChatMessage
  {
    ChatMessage(None, UserRole, None, [], TextPayload(content))
  }

  /** `ChatMessageText` from the assistant. */
  function AssistantText(content: string, externalId: Option<string>, sources: seq<RagChunk>): ChatMessage
  {
    ChatMessage(None, AssistantRole, externalId, sources, TextPayload(content))
  }

  predicate IsUserText(m: ChatMessage)
  {
    m.role == UserRole && m.payload.TextPayload?
  }

  /** The `type` field each DTO class declares. */
  function TypeName(p: Payload): string
  {
    match p
    case TextPayload(_) => "text"
    case ImagePayload(_) => "image"
    case CodePayload(_) => "code"
    case PlotlyPayload(_) => "plotly"
    case ErrorPayload(_) => "error"
    case HintPayload(_) => "hint"
    case TablePayload(_) => "table"
  }

  /** The six DTO classes of the front-end union `ChatMessageDTO`. */
  predicate IsDtoPayload(p: Payload)
  {
    !p.TablePayload?
  }

  /** Python's truth value of an optional string: None and "" are false. */
  predicate Truthy(s: Option<string>)
  {
    s.Some? && s.value != ""
  }

  // ---------------------------------------------------------------- stored rows

  /** A row of the chat message table. */
  datatype MessageRecord = MessageRecord(
    id: string,
    conversationId: string,
    role: Role,
    typeName: string,
    externalId: Option<string>,
    message: string,
    filename: Option<string>,
    data: map<string, string>,
    sources: seq<RagChunk>)

  /** `os.path.join(folder, name)`: an absolute name wins, otherwise one separator between. */
  function JoinPath(folder: string, name: string): (r: string)
    ensures |name| > 0 && name[0] == '/' ==> r == name
    ensures !(|name| > 0 && name[0] == '/') ==> |r| >= |folder| + |name| && r[..|folder|] == folder && r[|r| - |name|..] == name
  {
    if |name| > 0 && name[0] == '/' then name
    else if folder == "" || folder[|folder| - 1] == '/' then folder + name
    else folder + "/" + name
  }

  /** `_get_filepath_if_exists`: the file of the row, only when it names one that exists. */
  function FilePathIfExists(r: MessageRecord, folder: string, existing: set<string>): (p: Option<string>)
    ensures p.Some? <==> Truthy(r.filename) && JoinPath(folder, r.filename.value) in existing
    ensures p.Some? ==> p.value == JoinPath(folder, r.filename.value) && p.value in existing
  {
    if Truthy(r.filename) && JoinPath(folder, r.filename.value) in existing
    then Some(JoinPath(folder, r.filename.value)) else None
  }

  /** `ChatMessage.to_chat_message`: the DTO of a row, chosen by its type; an unknown type
      reads as text. An image or figure is present when its file exists. */
  function ToChatMessage(r: MessageRecord, folder: string, existing: set<string>): (m: ChatMessage)
    ensures m.id == Some(r.id) && m.role == r.role && m.externalId == r.externalId && m.sources == r.sources
    ensures r.typeName == "code" ==> m.payload == CodePayload(if "code" in r.data then r.data["code"] else "")
    ensures r.typeName == "error" ==> m.payload == ErrorPayload(r.message)
    ensures r.typeName == "hint" ==> m.payload == HintPayload(r.message)
    ensures r.typeName == "image" ==> m.payload == ImagePayload(FilePathIfExists(r, folder, existing).Some?)
    ensures r.typeName == "plotly" ==> m.payload == PlotlyPayload(FilePathIfExists(r, folder, existing).Some?)
    ensures r.typeName !in {"image", "code", "plotly", "error", "hint"} ==> m.payload == TextPayload(r.message)
  {
    var payload :=
      if r.typeName == "text" then TextPayload(r.message)
      else if r.typeName == "image" then ImagePayload(FilePathIfExists(r, folder, existing).Some?)
      else if r.typeName == "code" then CodePayload(if "code" in r.data then r.data["code"] else "")
      else if r.typeName == "plotly" then PlotlyPayload(FilePathIfExists(r, folder, existing).Some?)
      else if r.typeName == "error" then ErrorPayload(r.message)
      else if r.typeName == "hint" then HintPayload(r.message)
      else TextPayload(r.message);
    ChatMessage(Some(r.id), r.role, r.externalId, r.sources, payload)
  }

  /** The file `_save_message` writes for an image or a figure, if any. */
  function SavedFilename(m: ChatMessage, id: string): (f: Option<string>)
    ensures f.Some? <==> m.payload == ImagePayload(true) || m.payload == PlotlyPayload(true)
  {
    match m.payload
    case ImagePayload(true) => Some("image_" + id + ".png")
    case PlotlyPayload(true) => Some("plot_" + id + ".json")
    case _ => None
  }

  /** The row `_save_message` writes for a message without an id: text and hint keep their
      content, an error its text, every other type an empty message; only code has data. */
  function NewRecord(conversationId: string, m: ChatMessage, id: string): (r: MessageRecord)
    ensures r.id == id && r.conversationId == conversationId && r.role == m.role
    ensures r.typeName == TypeName(m.payload) && r.externalId == m.externalId && r.sources == m.sources
    ensures r.message == (match m.payload
                          case TextPayload(c) => c
                          case HintPayload(c) => c
                          case ErrorPayload(e) => e
                          case _ => "")
    ensures r.data == (if m.payload.CodePayload? then map["code" := m.payload.code] else map[])
    ensures r.filename == SavedFilename(m, id)
  {
    var message := match m.payload
                   case TextPayload(c) => c
                   case HintPayload(c) => c
                   case ErrorPayload(e) => e
                   case _ => "";
    var data := if m.payload.CodePayload? then map["code" := m.payload.code] else map[];
    MessageRecord(id, conversationId, m.role, TypeName(m.payload), m.externalId, message,
                  SavedFilename(m, id), data, m.sources)
  }

  /** Saving a DTO of the front-end union and reading the row back gives the same message
      with its new id: nothing of the six DTO types is lost by the storage format. */
  lemma SavedMessageReadsBack(conversationId: string, m: ChatMessage, id: string, folder: string, existing: set<string>)
    requires IsDtoPayload(m.payload)
    requires SavedFilename(m, id).Some? ==> JoinPath(folder, SavedFilename(m, id).value) in existing
    ensures ToChatMessage(NewRecord(conversationId, m, id), folder, existing) == m.(id := Some(id))
  {
    var r := NewRecord(conversationId, m, id);
    match m.payload
    case ImagePayload(b) =>
      assert FilePathIfExists(r, folder, existing).Some? == b;
    case PlotlyPayload(b) =>
      assert FilePathIfExists(r, folder, existing).Some? == b;
    case _ =>
  }

  /** A table message is not one of the six: it reads back as an empty text. */
  lemma TableMessageReadsBackAsText(conversationId: string, m: ChatMessage, id: string, folder: string, existing: set<string>)
    requires m.payload.TablePayload?
    ensures ToChatMessage(NewRecord(conversationId, m, id), folder, existing).payload == TextPayload("")
  {
  }

  // ---------------------------------------------------------------- the class registry

  /** The message classes a stored row can be handed to. */
  datatype MessageClass = UserTextClass | TextClass | ImageClass | CodeClass | PlotlyClass | ErrorClass
                        | HintClass | TableClass | DataframeClass

  /** `ChatMessageBase._type_registry`, a class-level dictionary from type name to class. */
  class MessageTypeRegistry {
    var registry: map<string, MessageClass>

    constructor ()
      ensures registry == map[]
    {
      registry := map[];
    }

    /** `register_type`: the type now maps to the class, replacing any earlier entry. */
    method RegisterType(messageType: string, messageClass: MessageClass)
      modifies this
      ensures registry == old(registry)[messageType := messageClass]
      ensures registry[messageType] == messageClass
      ensures forall t :: t in old(registry) && t != messageType ==> t in registry && registry[t] == old(registry)[t]
    {
      registry := registry[messageType := messageClass];
    }

    /** `from_chat_message_model`: a user row is always a user text; any other row goes to
        the class registered for its type, and an unregistered type is a ValueError. */
    method FromChatMessageModel(r: MessageRecord) returns (c: Result<MessageClass>)
      ensures r.role == UserRole ==> c == Ok(UserTextClass)
      ensures r.role == AssistantRole && r.typeName in registry ==> c == Ok(registry[r.typeName])
      ensures c.Err? <==> r.role == AssistantRole && r.typeName !in registry
      ensures c.Err? ==> c.kind == ValueError
    {
      if r.role == UserRole {
        return Ok(UserTextClass);
      }
      if r.typeName in registry {
        return Ok(registry[r.typeName]);
      }
      c := Err(ValueError);
    }
  }

  /** `ChatMessageBase.to_chat_message_model`: subclasses must override it. */
  function BaseToChatMessageModel(m: ChatMessage): (r: Result<MessageRecord>)
    ensures r == Err(NotImplementedError)
  {
    Err(NotImplementedError)
  }

  // ---------------------------------------------------------------- the conversation service

  /** A row of the conversation table. */
  datatype ConversationRecord = ConversationRecord(
    id: string,
    chatAppName: string,
    configuration: map<string, string>,
    mode: string,
    labelText: string,
    externalConversationId: Option<string>)

  /** `SaveChatConversationDTO`. */
  datatype SaveConversationDto = SaveConversationDto(
    id: Option<string>,
    chatAppName: string,
    configuration: map<string, string>,
    mode: string,
    labelText: Option<string>,
    externalConversationId: Option<string>,
    messages: seq<ChatMessage>)

  /** The positions of the messages without an id, in increasing order. */
  function FreshIndices(messages: seq<ChatMessage>): (f: seq<nat>)
    ensures forall k :: 0 <= k < |f| ==> f[k] < |messages| && !Truthy(messages[f[k]].id)
    ensures forall i :: 0 <= i < |messages| && !Truthy(messages[i].id) ==> i in f
    ensures forall a, b :: 0 <= a < b < |f| ==> f[a] < f[b]
    decreases |messages|
  {
    if |messages| == 0 then []
    else
      var n := |messages| - 1;
      FreshIndices(messages[..n]) + (if Truthy(messages[n].id) then [] else [n])
  }

  /** The rows `save_conversation` writes for the messages without an id, with the given new
      ids (see `NewRecordsInOrder`). */
  function NewRecords(conversationId: string, messages: seq<ChatMessage>, ids: seq<string>): (rs: seq<MessageRecord>)
    requires |ids| == |messages|
    ensures |rs| <= |messages|
    decreases |messages|
  {
    if |messages| == 0 then []
    else
      var n := |messages| - 1;
      NewRecords(conversationId, messages[..n], ids[..n]) +
      (if Truthy(messages[n].id) then [] else [NewRecord(conversationId, messages[n], ids[n])])
  }

  /** One row per message without an id, in the order of the list, each that message's row
      under its new id; messages with an id get none. */
  lemma {:induction false} NewRecordsInOrder(conversationId: string, messages: seq<ChatMessage>, ids: seq<string>)
    requires |ids| == |messages|
    ensures var rs := NewRecords(conversationId, messages, ids);
            var f := FreshIndices(messages);
            && |rs| == |f|
            && forall k :: 0 <= k < |rs| ==> rs[k] == NewRecord(conversationId, messages[f[k]], ids[f[k]])
    decreases |messages|
  {
    if |messages| > 0 {
      var n := |messages| - 1;
      var pm, pi := messages[..n], ids[..n];
      NewRecordsInOrder(conversationId, pm, pi);
      var rs0, f0 := NewRecords(conversationId, pm, pi), FreshIndices(pm);
      var tail := if Truthy(messages[n].id) then [] else [NewRecord(conversationId, messages[n], ids[n])];
      assert NewRecords(conversationId, messages, ids) == rs0 + tail;
      assert FreshIndices(messages) == f0 + (if Truthy(messages[n].id) then [] else [n]);
      forall k | 0 <= k < |f0|
        ensures rs0[k] == NewRecord(conversationId, messages[f0[k]], ids[f0[k]])
      {
        assert messages[f0[k]] == pm[f0[k]] && ids[f0[k]] == pi[f0[k]];
      }
    }
  }

  /** Every message without an id gets a row, in the order of the list. */
  lemma {:induction false} NewRecordsOfFreshMessages(conversationId: string, messages: seq<ChatMessage>, ids: seq<string>)
    requires |ids| == |messages|
    requires forall i :: 0 <= i < |messages| ==> !Truthy(messages[i].id)
    ensures |NewRecords(conversationId, messages, ids)| == |messages|
    ensures forall i :: 0 <= i < |messages| ==>
              NewRecords(conversationId, messages, ids)[i] == NewRecord(conversationId, messages[i], ids[i])
    decreases |messages|
  {
    if |messages| > 0 {
      var n := |messages| - 1;
      var pm, pi := messages[..n], ids[..n];
      forall i | 0 <= i < |pm|
        ensures !Truthy(pm[i].id)
      {
        assert pm[i] == messages[i];
      }
      NewRecordsOfFreshMessages(conversationId, pm, pi);
      var front := NewRecords(conversationId, pm, pi);
      var rs := NewRecords(conversationId, messages, ids);
      assert rs == front + [NewRecord(conversationId, messages[n], ids[n])];
      forall i | 0 <= i < |messages|
        ensures rs[i] == NewRecord(conversationId, messages[i], ids[i])
      {
        if i < n {
          assert rs[i] == front[i];
          assert pm[i] == messages[i] && pi[i] == ids[i];
        }
      }
    }
  }

  /** One turn of the message loop of `save_conversation`: saving message `i` extends the
      rows and files written for the messages before it. */
  lemma SaveStep(id: string, folder: string, dtoMessages: seq<ChatMessage>, ids: seq<string>, i: nat,
                 rows0: seq<MessageRecord>, files0: set<string>,
                 rows1: seq<MessageRecord>, files1: set<string>,
                 rows2: seq<MessageRecord>, files2: set<string>)
    requires |ids| == |dtoMessages| && i < |dtoMessages|
    requires rows1 == rows0 + NewRecords(id, dtoMessages[..i], ids[..i])
    requires files1 == files0 + RecordFiles(folder, NewRecords(id, dtoMessages[..i], ids[..i]))
    requires Truthy(dtoMessages[i].id) ==> rows2 == rows1 && files2 == files1
    requires !Truthy(dtoMessages[i].id) ==> rows2 == rows1 + [NewRecord(id, dtoMessages[i], ids[i])]
    requires !Truthy(dtoMessages[i].id) ==>
               files2 == files1 + (if SavedFilename(dtoMessages[i], ids[i]).Some?
                                   then {JoinPath(folder, SavedFilename(dtoMessages[i], ids[i]).value)}
                                   else {})
    ensures rows2 == rows0 + NewRecords(id, dtoMessages[..i + 1], ids[..i + 1])
    ensures files2 == files0 + RecordFiles(folder, NewRecords(id, dtoMessages[..i + 1], ids[..i + 1]))
  {
    var before := NewRecords(id, dtoMessages[..i], ids[..i]);
    var rec := NewRecord(id, dtoMessages[i], ids[i]);
    NewRecordsSnoc(id, dtoMessages, ids, i);
    if Truthy(dtoMessages[i].id) {
      assert NewRecords(id, dtoMessages[..i + 1], ids[..i + 1]) == before;
    } else {
      assert NewRecords(id, dtoMessages[..i + 1], ids[..i + 1]) == before + [rec];
      RecordFilesSnoc(folder, before, rec);
    }
  }

  /** The files the rows name, joined to the conversation's folder. */
  function RecordFiles(folder: string, rs: seq<MessageRecord>): (files: set<string>)
    ensures forall k :: 0 <= k < |rs| && rs[k].filename.Some? ==> JoinPath(folder, rs[k].filename.value) in files
    decreases |rs|
  {
    if |rs| == 0 then {}
    else
      var n := |rs| - 1;
      var init := RecordFiles(folder, rs[..n]);
      assert forall k :: 0 <= k < n ==> rs[..n][k] == rs[k];
      init + (if rs[n].filename.Some? then {JoinPath(folder, rs[n].filename.value)} else {})
  }

  lemma NewRecordsSnoc(conversationId: string, messages: seq<ChatMessage>, ids: seq<string>, i: nat)
    requires |ids| == |messages| && i < |messages|
    ensures NewRecords(conversationId, messages[..i + 1], ids[..i + 1]) ==
            NewRecords(conversationId, messages[..i], ids[..i])
            + (if Truthy(messages[i].id) then [] else [NewRecord(conversationId, messages[i], ids[i])])
  {
    PrefixSnoc(messages, i);
    PrefixSnoc(ids, i);
    assert messages[..i + 1][..i] == messages[..i];
    assert ids[..i + 1][..i] == ids[..i];
  }

  lemma RecordFilesSnoc(folder: string, rs: seq<MessageRecord>, r: MessageRecord)
    ensures RecordFiles(folder, rs + [r]) ==
            RecordFiles(folder, rs) + (if r.filename.Some? then {JoinPath(folder, r.filename.value)} else {})
  {
    assert (rs + [r])[..|rs|] == rs;
  }

  /** `ChatConversationService` over the database it writes: the chat apps, conversations,
      message rows and conversation files. */
  class ChatConversationService {
    /** `BrickService.get_brick_extension_dir('gws_ai_toolkit', ...)` without the sub-path. */
    const extensionDir: string
    var chatApps: set<string>
    var conversations: map<string, ConversationRecord>
    var messages: seq<MessageRecord>
    var files: set<string>

    constructor (extensionDir: string)
      ensures this.extensionDir == extensionDir
      ensures chatApps == {} && conversations == map[] && messages == [] && files == {}
    {
      this.extensionDir := extensionDir;
      chatApps := {};
      conversations := map[];
      messages := [];
      files := {};
    }

    /** `get_conversation_folder_path`. */
    function FolderPath(conversationId: string): string
    {
      JoinPath(extensionDir, JoinPath("chat_conversations", conversationId))
    }

    /** `_save_message`: a message that already has an id is returned as it is; otherwise its
        row and file are written and the row is read back. */
    method SaveMessage(conversationId: string, m: ChatMessage, newId: string) returns (saved: ChatMessage)
      modifies this
      ensures Truthy(m.id) ==> saved == m && messages == old(messages) && files == old(files)
      ensures !Truthy(m.id) ==> messages == old(messages) + [NewRecord(conversationId, m, newId)]
      ensures !Truthy(m.id) ==> files == old(files) + (if SavedFilename(m, newId).Some?
                                                        then {JoinPath(FolderPath(conversationId), SavedFilename(m, newId).value)}
                                                        else {})
      ensures !Truthy(m.id) && IsDtoPayload(m.payload) ==> saved == m.(id := Some(newId))
      ensures chatApps == old(chatApps) && conversations == old(conversations)
    {
      if Truthy(m.id) {
        return m;
      }
      var folder := FolderPath(conversationId);
      var record := NewRecord(conversationId, m, newId);
      if record.filename.Some? {
        files := files + {JoinPath(folder, record.filename.value)};
      }
      messages := messages + [record];
      saved := ToChatMessage(record, folder, files);
      if IsDtoPayload(m.payload) {
        SavedMessageReadsBack(conversationId, m, newId, folder, files);
      }
    }

    /** The message loop of `save_conversation`: each message is saved in order. */
    method SaveMessages(id: string, dtoMessages: seq<ChatMessage>, newMessageIds: seq<string>)
      requires |newMessageIds| == |dtoMessages|
      modifies this
      ensures chatApps == old(chatApps) && conversations == old(conversations)
      ensures messages == old(messages) + NewRecords(id, dtoMessages, newMessageIds)
      ensures files == old(files) + RecordFiles(FolderPath(id), NewRecords(id, dtoMessages, newMessageIds))
    {
      var i := 0;
      while i < |dtoMessages|
        invariant 0 <= i <= |dtoMessages|
        invariant chatApps == old(chatApps) && conversations == old(conversations)
        invariant messages == old(messages) + NewRecords(id, dtoMessages[..i], newMessageIds[..i])
        invariant files == old(files) + RecordFiles(FolderPath(id), NewRecords(id, dtoMessages[..i], newMessageIds[..i]))
      {
        ghost var messagesBefore, filesBefore := messages, files;
        var _ := SaveMessage(id, dtoMessages[i], newMessageIds[i]);
        SaveStep(id, FolderPath(id), dtoMessages, newMessageIds, i, old(messages), old(files),
                 messagesBefore, filesBefore, messages, files);
        i := i + 1;
      }
      assert dtoMessages[..i] == dtoMessages;
      assert newMessageIds[..i] == newMessageIds;
    }

    /** `save_conversation`: the chat app is created if needed, the conversation is the one
        with the DTO's id (which must exist) or a new one, its fields are overwritten, and the
        DTO's messages are saved in order. */
    method SaveConversation(dto: SaveConversationDto, newConversationId: string, newMessageIds: seq<string>)
      returns (r: Result<ConversationRecord>)
      requires |newMessageIds| == |dto.messages|
      modifies this
      ensures r.Err? <==> Truthy(dto.id) && dto.id.value !in old(conversations)
      ensures r.Err? ==> r.kind == GenericException && messages == old(messages)
      ensures r.Err? ==> chatApps == old(chatApps) && conversations == old(conversations) && files == old(files)
      ensures r.Ok? ==> r.value.id == (if Truthy(dto.id) then dto.id.value else newConversationId)
      ensures r.Ok? ==> r.value == ConversationRecord(r.value.id, dto.chatAppName, dto.configuration, dto.mode,
                                                      dto.labelText.GetOr(""), dto.externalConversationId)
      ensures r.Ok? ==> conversations == old(conversations)[r.value.id := r.value]
      ensures r.Ok? ==> chatApps == old(chatApps) + {dto.chatAppName}
      ensures r.Ok? ==> messages == old(messages) + NewRecords(r.value.id, dto.messages, newMessageIds)
      ensures r.Ok? ==> files == old(files) + RecordFiles(FolderPath(r.value.id), NewRecords(r.value.id, dto.messages, newMessageIds))
    {
      var id := newConversationId;
      if Truthy(dto.id) {
        if dto.id.value !in conversations {
          return Err(GenericException);
        }
        id := dto.id.value;
      }
      chatApps := chatApps + {dto.chatAppName};
      var conversation := ConversationRecord(id, dto.chatAppName, dto.configuration, dto.mode,
                                             dto.labelText.GetOr(""), dto.externalConversationId);
      conversations := conversations[id := conversation];
      SaveMessages(id, dto.messages, newMessageIds);
      r := Ok(conversation);
    }
    /** The rows of one conversation, in creation order. */
    function RowsOf(conversationId: string): seq<MessageRecord>
      reads this
    {
      Filter(messages, (r: MessageRecord) => r.conversationId == conversationId)
    }

    /** `get_conversations_by_chat_app`: the conversations of the app, none when the app does
        not exist. */
    method GetConversationsByChatApp(chatAppName: string) returns (r: set<ConversationRecord>)
      ensures chatAppName !in chatApps ==> r == {}
      ensures chatAppName in chatApps ==>
                forall c :: c in r <==> c in conversations.Values && c.chatAppName == chatAppName
    {
      if chatAppName !in chatApps {
        return {};
      }
      r := set c | c in conversations.Values && c.chatAppName == chatAppName;
    }

    /** `get_messages_of_conversation`: a missing conversation is an error; otherwise every row
        of the conversation, read back in creation order. */
    method GetMessagesOfConversation(conversationId: string) returns (r: Result<seq<ChatMessage>>)
      ensures r.Err? <==> conversationId !in conversations
      ensures r.Err? ==> r.kind == GenericException
      ensures r.Ok? ==> |r.value| == |RowsOf(conversationId)|
      ensures r.Ok? ==> forall i :: 0 <= i < |r.value| ==>
                r.value[i] == ToChatMessage(RowsOf(conversationId)[i], FolderPath(conversationId), files)
    {
      if conversationId !in conversations {
        return Err(GenericException);
      }
      var rows := RowsOf(conversationId);
      var folder := FolderPath(conversationId);
      var out: seq<ChatMessage> := [];
      var i := 0;
      while i < |rows|
        invariant 0 <= i <= |rows| && |out| == i
        invariant forall j :: 0 <= j < i ==> out[j] == ToChatMessage(rows[j], folder, files)
      {
        out := out + [ToChatMessage(rows[i], folder, files)];
        i := i + 1;
      }
      r := Ok(out);
    }

    /** `delete_conversation`: a missing conversation is an error; otherwise the conversation
        and, by cascade, its message rows are gone, and every other row stays. */
    method DeleteConversation(conversationId: string) returns (r: Outcome)
      modifies this
      ensures r.Fail? <==> conversationId !in old(conversations)
      ensures r.Fail? ==> r.kind == GenericException && conversations == old(conversations) && messages == old(messages)
      ensures r == Pass ==> conversations == old(conversations) - {conversationId}
      ensures r == Pass ==> messages == Filter(old(messages), (m: MessageRecord) => m.conversationId != conversationId)
      ensures chatApps == old(chatApps) && files == old(files)
    {
      if conversationId !in conversations {
        return Fail(GenericException);
      }
      conversations := conversations - {conversationId};
      messages := Filter(messages, (m: MessageRecord) => m.conversationId != conversationId);
      r := Pass;
    }
  }
}
