/** `BaseChatConversation`: the messages of one chat, the assistant answer being streamed, and
    the conversation row they are saved under; and `RagChatConversation`, which streams the
    answer of a RAG backend into it. */
module ChatConversation {
  import opened Wrappers
  import Seqs
  import opened PyText
  import opened RagModels
  import opened ChatMessages

  /** `AssistantStreamingResponse`: the answer so far, never saved. */
  datatype Streaming = Streaming(content: string, externalId: Option<string>)

  /** What a conversation yields: a new state of the streamed answer, or a saved message. */
  datatype Yielded = StreamingUpdate(streaming: Streaming) | Complete(message: ChatMessage)

  /** Python's `a or b` on optional strings. */
  function OrElse(a: Option<string>, b: Option<string>): (r: Option<string>)
    ensures Truthy(a) ==> r == a
    ensures !Truthy(a) ==> r == b
  {
    if Truthy(a) then a else b
  }

  /** `build_current_message`: the first piece starts the answer; later pieces are appended
      or replace the text, and keep the earlier external id unless a new one is given. */
  function BuildMessage(current: Option<Streaming>, content: string, append: bool, externalId: Option<string>): (r: Streaming)
    ensures current.None? ==> r == Streaming(content, externalId)
    ensures current.Some? ==> r.externalId == OrElse(externalId, current.value.externalId)
    ensures current.Some? && append ==> r.content == current.value.content + content
    ensures current.Some? && !append ==> r.content == content
    ensures r.content[|r.content| - |content|..] == content
  {
    if current.None? then Streaming(content, externalId)
    else if append then Streaming(current.value.content + content, OrElse(externalId, current.value.externalId))
    else Streaming(content, OrElse(externalId, current.value.externalId))
  }

  /** The label of a new conversation: the first sixty characters of the user message. */
  function ConversationLabel(userMessage: string): (r: string)
    ensures |r| == if |userMessage| < 60 then |userMessage| else 60
    ensures userMessage[..|r|] == r
  {
    Take(userMessage, 60)
  }

  class BaseChatConversation {
    const chatAppName: string
    const configuration: map<string, string>
    const mode: string
    /** The database behind `_conversation_service`. */
    const service: ChatConversationService
    var chatMessages: seq<ChatMessage>
    var current: Option<Streaming>
    /** `_conversation`: the row of this chat, once created. */
    var conversation: Option<ConversationRecord>

    /** The conversation row held here is the one in the database. */
    predicate Valid()
      reads this, service
    {
      conversation.Some? ==> conversation.value.id in service.conversations &&
                             service.conversations[conversation.value.id] == conversation.value
    }

    constructor (chatAppName: string, configuration: map<string, string>, mode: string, service: ChatConversationService)
      ensures this.chatAppName == chatAppName && this.configuration == configuration && this.mode == mode
      ensures this.service == service
      ensures chatMessages == [] && current.None? && conversation.None? && Valid()
    {
      this.chatAppName := chatAppName;
      this.configuration := configuration;
      this.mode := mode;
      this.service := service;
      chatMessages := [];
      current := None;
      conversation := None;
    }

    /** `add_message`. */
    method AddMessage(m: ChatMessage)
      modifies this
      ensures chatMessages == old(chatMessages) + [m]
      ensures current == old(current) && conversation == old(conversation)
    {
      chatMessages := chatMessages + [m];
    }

    /** `create_conversation`: the row is created on the first message only, labelled with its
        first sixty characters; the user message is saved and added to the chat. */
    method CreateConversation(userMessage: string, newConversationId: string, newMessageId: string)
      requires Valid()
      modifies this, service
      ensures Valid() && conversation.Some?
      ensures old(conversation).Some? ==> conversation == old(conversation) && service.conversations == old(service.conversations)
      ensures old(conversation).None? ==>
                conversation == Some(ConversationRecord(newConversationId, chatAppName, configuration, mode,
                                                        ConversationLabel(userMessage), None))
      ensures chatMessages == old(chatMessages) + [UserText(userMessage).(id := Some(newMessageId))]
      ensures service.messages == old(service.messages) + [NewRecord(conversation.value.id, UserText(userMessage), newMessageId)]
      ensures current == old(current)
    {
      if conversation.None? {
        var dto := SaveConversationDto(None, chatAppName, configuration, mode, Some(ConversationLabel(userMessage)), None, []);
        var created := service.SaveConversation(dto, newConversationId, []);
        assert created.Ok?;
        conversation := Some(created.value);
      }
      var saved := service.SaveMessage(conversation.value.id, UserText(userMessage), newMessageId);
      AddMessage(saved);
    }

    /** `close_current_message`: without a conversation this is a ValueError; without a
        streamed answer there is nothing to close; otherwise the answer is saved as a text
        message, with the given external id or else the streamed one, and stops being current. */
    method CloseCurrentMessage(externalId: Option<string>, sources: Option<seq<RagChunk>>, newId: string)
      returns (r: Result<Option<ChatMessage>>)
      requires Valid()
      modifies this, service
      ensures Valid() && conversation == old(conversation) && chatMessages == old(chatMessages)
      ensures service.conversations == old(service.conversations)
      ensures old(conversation).None? ==> r == Err(ValueError) && current == old(current) && service.messages == old(service.messages)
      ensures old(conversation).Some? && old(current).None? ==> r == Ok(None) && current.None? && service.messages == old(service.messages)
      ensures old(conversation).Some? && old(current).Some? ==>
                var text := AssistantText(old(current).value.content, OrElse(externalId, old(current).value.externalId), sources.GetOr([]));
                && r == Ok(Some(text.(id := Some(newId))))
                && current.None?
                && service.messages == old(service.messages) + [NewRecord(conversation.value.id, text, newId)]
    {
      if conversation.None? {
        return Err(ValueError);
      }
      if current.None? {
        return Ok(None);
      }
      var text := AssistantText(current.value.content, OrElse(externalId, current.value.externalId), sources.GetOr([]));
      var saved := service.SaveMessage(conversation.value.id, text, newId);
      current := None;
      r := Ok(Some(saved));
    }

    /** The backend session of the conversation is stored on its row. */
    method SetExternalConversationId(sessionId: string)
      requires Valid() && conversation.Some?
      modifies this, service
      ensures Valid()
      ensures conversation == Some(old(conversation).value.(externalConversationId := Some(sessionId)))
      ensures service.conversations == old(service.conversations)[conversation.value.id := conversation.value]
      ensures service.messages == old(service.messages) && service.files == old(service.files)
      ensures chatMessages == old(chatMessages) && current == old(current)
    {
      var saved := conversation.value.(externalConversationId := Some(sessionId));
      conversation := Some(saved);
      service.conversations := service.conversations[saved.id := saved];
    }

    /** The guard of `call_conversation`: a conversation must exist, and the last message must
        be a user text, whose content is the question; an empty chat fails on its last index. */
    method LastUserMessage() returns (r: Result<string>)
      ensures conversation.None? ==> r == Err(ValueError)
      ensures conversation.Some? && chatMessages == [] ==> r == Err(IndexError)
      ensures conversation.Some? && chatMessages != [] && !IsUserText(Last(chatMessages)) ==> r == Err(ValueError)
      ensures r.Ok? <==> conversation.Some? && chatMessages != [] && IsUserText(Last(chatMessages))
      ensures r.Ok? ==> r.value == Last(chatMessages).payload.content
    {
      if conversation.None? {
        return Err(ValueError);
      }
      if |chatMessages| == 0 {
        return Err(IndexError);
      }
      var last := chatMessages[|chatMessages| - 1];
      if !IsUserText(last) {
        return Err(ValueError);
      }
      r := Ok(last.payload.content);
    }

    /** The body of the loop of `call_conversation`: a streamed answer becomes the current
        one; any other message is added to the chat and ends the current answer. */
    method Receive(y: Yielded)
      modifies this
      ensures y.StreamingUpdate? ==> current == Some(y.streaming) && chatMessages == old(chatMessages)
      ensures y.Complete? ==> current.None? && chatMessages == old(chatMessages) + [y.message]
      ensures conversation == old(conversation)
    {
      match y
      case StreamingUpdate(s) =>
        current := Some(s);
      case Complete(m) =>
        AddMessage(m);
        current := None;
    }
  }

  // ---------------------------------------------------------------- RAG conversations

  /** The streamed answer after the pieces of a backend stream, from the given one. */
  function FoldPieces(start: Option<Streaming>, events: seq<ChatStreamEvent>): (r: Option<Streaming>)
    ensures start.Some? ==> r.Some?
    decreases |events|
  {
    if |events| == 0 then start
    else
      var before := FoldPieces(start, events[..|events| - 1]);
      match events[|events| - 1]
      case StreamPiece(answer, fromBeginning) => Some(BuildMessage(before, answer, !fromBeginning, None))
      case EndResponse(_, _) => before
  }

  /** The number of pieces in a stream. */
  function PieceCount(events: seq<ChatStreamEvent>): (n: nat)
    ensures n <= |events|
    decreases |events|
  {
    if |events| == 0 then 0
    else PieceCount(events[..|events| - 1]) + (if events[|events| - 1].StreamPiece? then 1 else 0)
  }

  /** The updates yielded while reading the stream: one per piece, each an update. */
  function StreamYields(start: Option<Streaming>, events: seq<ChatStreamEvent>): (r: seq<Yielded>)
    ensures |r| == PieceCount(events)
    ensures forall k :: 0 <= k < |r| ==> r[k].StreamingUpdate?
    decreases |events|
  {
    if |events| == 0 then []
    else
      var n := |events| - 1;
      StreamYields(start, events[..n]) +
      (match events[n]
       case StreamPiece(answer, fromBeginning) => [StreamingUpdate(BuildMessage(FoldPieces(start, events[..n]), answer, !fromBeginning, None))]
       case EndResponse(_, _) => [])
  }

  /** The piece at position `j` yields the update after the pieces before it, and it carries
      the answer folded through that piece. */
  lemma {:induction false} StreamYieldsAt(start: Option<Streaming>, events: seq<ChatStreamEvent>, j: nat)
    requires j < |events| && events[j].StreamPiece?
    ensures var k := PieceCount(events[..j]);
            && k < |StreamYields(start, events)|
            && FoldPieces(start, events[..j + 1]).Some?
            && StreamYields(start, events)[k] == StreamingUpdate(FoldPieces(start, events[..j + 1]).value)
    decreases |events|
  {
    var n := |events| - 1;
    var before := StreamYields(start, events[..n]);
    var all := StreamYields(start, events);
    StreamYieldsExtend(start, events);
    if j == n {
      StreamYieldsLast(start, events);
    } else {
      var init := events[..n];
      StreamYieldsAt(start, init, j);
      assert init[..j] == events[..j];
      assert init[..j + 1] == events[..j + 1];
      var k := PieceCount(events[..j]);
      assert k < |before| && before[k] == StreamingUpdate(FoldPieces(start, events[..j + 1]).value);
      Seqs.PrefixAt(all, before, k);
    }
  }

  /** Reading one more event keeps the updates yielded before it. */
  lemma StreamYieldsExtend(start: Option<Streaming>, events: seq<ChatStreamEvent>)
    requires |events| > 0
    ensures var before := StreamYields(start, events[..|events| - 1]);
            var all := StreamYields(start, events);
            |all| >= |before| && all[..|before|] == before
  {
    var n := |events| - 1;
    var before := StreamYields(start, events[..n]);
    match events[n]
    case StreamPiece(answer, fromBeginning) =>
      assert StreamYields(start, events) == before + [StreamingUpdate(BuildMessage(FoldPieces(start, events[..n]), answer, !fromBeginning, None))];
    case EndResponse(_, _) =>
  }

  /** A last event that is a piece yields the answer folded through the whole stream. */
  lemma StreamYieldsLast(start: Option<Streaming>, events: seq<ChatStreamEvent>)
    requires |events| > 0 && events[|events| - 1].StreamPiece?
    ensures var k := PieceCount(events[..|events| - 1]);
            && k < |StreamYields(start, events)|
            && FoldPieces(start, events[..|events|]).Some?
            && StreamYields(start, events)[k] == StreamingUpdate(FoldPieces(start, events[..|events|]).value)
  {
    var n := |events| - 1;
    assert events[..n + 1] == events;
    var m := BuildMessage(FoldPieces(start, events[..n]), events[n].answer, !events[n].isFromBeginning, None);
    assert StreamYields(start, events) == StreamYields(start, events[..n]) + [StreamingUpdate(m)];
    assert FoldPieces(start, events) == Some(m);
  }

  /** The last end-of-stream response: none exactly when the stream has no end response, and
      otherwise one with no end response after it. */
  function LastEnd(events: seq<ChatStreamEvent>): (r: Option<ChatStreamEvent>)
    ensures r.None? <==> forall i :: 0 <= i < |events| ==> !events[i].EndResponse?
    ensures r.Some? ==> exists i :: 0 <= i < |events| && events[i] == r.value && r.value.EndResponse?
                          && forall j :: i < j < |events| ==> !events[j].EndResponse?
    decreases |events|
  {
    if |events| == 0 then None
    else if events[|events| - 1].EndResponse? then Some(events[|events| - 1])
    else
      var n := |events| - 1;
      var r := LastEnd(events[..n]);
      LastEndSkipsTail(events, events[..n], r);
      r
  }

  /** An answer that is not an end response leaves the last end response of the events before it
      in place. */
  lemma LastEndSkipsTail(events: seq<ChatStreamEvent>, front: seq<ChatStreamEvent>, r: Option<ChatStreamEvent>)
    requires |events| > 0 && !events[|events| - 1].EndResponse? && front == events[..|events| - 1]
    requires r.None? <==> forall i :: 0 <= i < |front| ==> !front[i].EndResponse?
    requires r.Some? ==> exists i :: 0 <= i < |front| && front[i] == r.value && r.value.EndResponse?
                          && forall j :: i < j < |front| ==> !front[j].EndResponse?
    ensures r.None? <==> forall i :: 0 <= i < |events| ==> !events[i].EndResponse?
    ensures r.Some? ==> exists i :: 0 <= i < |events| && events[i] == r.value && r.value.EndResponse?
                          && forall j :: i < j < |events| ==> !events[j].EndResponse?
  {
    var n := |events| - 1;
    assert forall i :: 0 <= i < n ==> front[i] == events[i];
    if r.Some? {
      var i :| 0 <= i < n && front[i] == r.value && r.value.EndResponse?
               && forall j :: i < j < n ==> !front[j].EndResponse?;
      assert events[i] == r.value;
      assert forall j :: i < j < |events| ==> !events[j].EndResponse?;
    }
  }

  /** Whether the stream has a piece at all. */
  predicate HasPiece(events: seq<ChatStreamEvent>)
  {
    exists i :: 0 <= i < |events| && events[i].StreamPiece?
  }

  /** The answer text of a stream read from scratch: the pieces since the last one that
      restarts the answer, concatenated. */
  function AnswerText(events: seq<ChatStreamEvent>): string
    decreases |events|
  {
    if |events| == 0 then ""
    else
      var n := |events| - 1;
      match events[n]
      case StreamPiece(answer, fromBeginning) => if fromBeginning then answer else AnswerText(events[..n]) + answer
      case EndResponse(_, _) => AnswerText(events[..n])
  }

  /** Read from no answer, the stream yields an answer exactly when it has a piece, and that
      answer is the text of the pieces since the last restart, with no external id. */
  lemma {:induction false} FoldPiecesFromScratch(events: seq<ChatStreamEvent>)
    ensures FoldPieces(None, events).Some? <==> HasPiece(events)
    ensures FoldPieces(None, events).Some? ==> FoldPieces(None, events).value == Streaming(AnswerText(events), None)
    ensures !HasPiece(events) ==> AnswerText(events) == ""
    decreases |events|
  {
    if |events| > 0 {
      var n := |events| - 1;
      FoldPiecesFromScratch(events[..n]);
      assert HasPiece(events) <==> HasPiece(events[..n]) || events[n].StreamPiece? by {
        if HasPiece(events[..n]) {
          var i :| 0 <= i < n && events[..n][i].StreamPiece?;
          assert events[i].StreamPiece?;
        }
        if HasPiece(events) && !events[n].StreamPiece? {
          var i :| 0 <= i < |events| && events[i].StreamPiece?;
          assert events[..n][i].StreamPiece?;
        }
      }
    }
  }

  /** The end-of-stream sources, or none when there is no end response. */
  function EndSources(events: seq<ChatStreamEvent>): seq<RagChunk>
  {
    if LastEnd(events).Some? then LastEnd(events).value.sources else []
  }

  /** The request `RagChatConversation` sends to the app service. */
  datatype ChatRequest = ChatRequest(query: string, conversationId: Option<string>, chatId: string)

  class RagChatConversation {
    /** The inherited conversation state. */
    const base: BaseChatConversation
    const ragChatId: string
    /** The requests sent to `rag_app_service.send_message_stream` so far. */
    var requests: seq<ChatRequest>

    /** `RagChatConversation(...)`: a conversation in mode "RAG". */
    constructor (chatAppName: string, configuration: map<string, string>, ragChatId: string, service: ChatConversationService)
      ensures fresh(base) && base.mode == "RAG" && base.chatAppName == chatAppName && base.configuration == configuration
      ensures base.service == service && base.chatMessages == [] && base.current.None? && base.conversation.None? && base.Valid()
      ensures this.ragChatId == ragChatId && requests == []
    {
      base := new BaseChatConversation(chatAppName, configuration, "RAG", service);
      this.ragChatId := ragChatId;
      requests := [];
    }

    /** The loop of `call_ai_chat` over the backend stream, with each yielded update received
        by `call_conversation`: the pieces build the streamed answer, and the last end response
        is kept. */
    method ReadStream(events: seq<ChatStreamEvent>) returns (yielded: seq<Yielded>, end: Option<ChatStreamEvent>)
      modifies base
      ensures base.current == FoldPieces(old(base.current), events)
      ensures yielded == StreamYields(old(base.current), events)
      ensures end == LastEnd(events)
      ensures base.chatMessages == old(base.chatMessages) && base.conversation == old(base.conversation)
    {
      yielded := [];
      end := None;
      var i := 0;
      while i < |events|
        invariant 0 <= i <= |events|
        invariant base.current == FoldPieces(old(base.current), events[..i])
        invariant yielded == StreamYields(old(base.current), events[..i])
        invariant end == LastEnd(events[..i])
        invariant base.chatMessages == old(base.chatMessages) && base.conversation == old(base.conversation)
      {
        assert events[..i + 1][..i] == events[..i];
        match events[i] {
          case StreamPiece(answer, fromBeginning) =>
            var update := BuildMessage(base.current, answer, !fromBeginning, None);
            yielded := yielded + [StreamingUpdate(update)];
            base.Receive(StreamingUpdate(update));
          case EndResponse(_, _) =>
            end := Some(events[i]);
        }
        i := i + 1;
      }
      assert events[..i] == events;
    }

    /** `call_conversation` with `call_ai_chat`: the question is sent with the backend session
        of the conversation; each piece of the backend's answer `events` is yielded as the new
        streamed answer; then the session id of the last end response, when there is one, is
        stored on the conversation, and the answer is saved with that response's sources. */
    method CallConversation(events: seq<ChatStreamEvent>, newId: string) returns (r: Result<seq<Yielded>>)
      requires base.Valid()
      modifies this, base, base.service
      ensures base.Valid()
      ensures old(base.conversation).None? ==> r == Err(ValueError)
      ensures r.Err? ==> requests == old(requests) && base.chatMessages == old(base.chatMessages)
      ensures r.Ok? ==> old(base.conversation).Some? && old(base.chatMessages) != [] && IsUserText(Last(old(base.chatMessages)))
      ensures r.Ok? ==>
                var question := Last(old(base.chatMessages)).payload.content;
                var answer := FoldPieces(old(base.current), events);
                var end := LastEnd(events);
                var session := if end.Some? && end.value.sessionId != "" then Some(end.value.sessionId) else None;
                var conv := old(base.conversation).value;
                var saved := if session.Some? then conv.(externalConversationId := session) else conv;
                var text := if answer.Some? then AssistantText(answer.value.content, answer.value.externalId, EndSources(events))
                            else AssistantText("", None, []);
                && requests == old(requests) + [ChatRequest(question, conv.externalConversationId, ragChatId)]
                && base.conversation == Some(saved)
                && base.service.conversations == old(base.service.conversations)[conv.id := saved]
                && base.current.None?
                && (answer.None? ==> r.value == StreamYields(old(base.current), events) && base.chatMessages == old(base.chatMessages))
                && (answer.Some? ==>
                      && r.value == StreamYields(old(base.current), events) + [Complete(text.(id := Some(newId)))]
                      && base.chatMessages == old(base.chatMessages) + [text.(id := Some(newId))]
                      && base.service.messages == old(base.service.messages) + [NewRecord(conv.id, text, newId)])
    {
      var question := base.LastUserMessage();
      if question.Err? {
        return Err(question.kind);
      }
      var conv := base.conversation.value;
      requests := requests + [ChatRequest(question.value, conv.externalConversationId, ragChatId)];
      var yielded, end := ReadStream(events);
      var sources: seq<RagChunk> := [];
      if end.Some? {
        if |end.value.sources| > 0 {
          sources := end.value.sources;
        }
        if end.value.sessionId != "" {
          base.SetExternalConversationId(end.value.sessionId);
        }
      }
      var closed := base.CloseCurrentMessage(None, Some(sources), newId);
      if closed.value.Some? {
        yielded := yielded + [Complete(closed.value.value)];
        base.Receive(Complete(closed.value.value));
      }
      r := Ok(yielded);
    }
  }
}
