/** The chat state of the `reflex/chat_base` pages (`ChatStateBase`) with the OpenAI stream
    handlers its `OpenAiChatStateBase` mixin adds: the list of finished messages, the message
    being streamed, the streaming flag, the conversation ids and the ids of the current and
    previous OpenAI responses.

    The stream handlers are specified by functions on a `Stream` value (the part of the state
    they touch); each handler method moves its object's `Stream` exactly as its function does.
    The callers close the current message at every output item boundary, so a text delta
    after a code delta starts a new message only after the code message was closed. */
module ChatState {
  import opened Wrappers
  import opened PyText
  import opened RagModels
  import opened ChatMessages
  import opened ChatHistory
  import opened Seqs

  /** The part of the state the stream handlers read and write. */
  datatype Stream = Stream(chat: seq<LegacyMessage>, current: Option<LegacyMessage>, streaming: bool,
                           responseId: Option<string>, previousResponseId: Option<string>)

  /** `update_current_response_message`: ignored once streaming stopped. */
  function UpdateCurrent(s: Stream, m: LegacyMessage): (t: Stream)
    ensures s.streaming ==> t == s.(current := Some(m))
    ensures !s.streaming ==> t == s
  {
    if s.streaming then s.(current := Some(m)) else s
  }

  /** `close_current_message`: the streamed message, if any, joins the finished ones. */
  function Close(s: Stream): (t: Stream)
    ensures t.current.None?
    ensures t.chat == s.chat + (if s.current.Some? then [s.current.value] else [])
    ensures t.streaming == s.streaming && t.responseId == s.responseId && t.previousResponseId == s.previousResponseId
  {
    if s.current.Some? then s.(chat := s.chat + [s.current.value], current := None) else s
  }

  /** Closing twice is closing once. */
  lemma CloseIdempotent(s: Stream)
    ensures Close(Close(s)) == Close(s)
  {
  }

  /** `handle_response_created`. */
  function ResponseCreated(s: Stream, id: string): Stream
  {
    s.(responseId := Some(id))
  }

  /** `handle_response_completed`: the message is closed and the response becomes the
      previous one, which the next request continues from. */
  function ResponseCompleted(s: Stream): (t: Stream)
    ensures t.current.None? && t.responseId.None? && t.previousResponseId == s.responseId
    ensures t.chat == Close(s).chat
  {
    Close(s).(previousResponseId := s.responseId, responseId := None)
  }

  /** `create_text_message` from the assistant. */
  function AssistantMessage(id: string, externalId: Option<string>, body: Body): LegacyMessage
  {
    LegacyMessage(id, AssistantRole, externalId, [], body)
  }

  /** `handle_output_text_delta`: the text extends the streamed text message, or starts a new
      one stamped with the current response id. */
  function TextDelta(s: Stream, text: string, newId: string): (t: Stream)
    ensures s.current.Some? && s.current.value.body.TextBody? ==>
              t == s.(current := Some(s.current.value.(body := TextBody(s.current.value.body.content + text))))
    ensures !(s.current.Some? && s.current.value.body.TextBody?) ==>
              t == UpdateCurrent(s, AssistantMessage(newId, s.responseId, TextBody(text)))
  {
    if s.current.Some? && s.current.value.body.TextBody? then
      s.(current := Some(s.current.value.(body := TextBody(s.current.value.body.content + text))))
    else UpdateCurrent(s, AssistantMessage(newId, s.responseId, TextBody(text)))
  }

  /** `handle_code_interpreter_call_code_delta`: the same for code. */
  function CodeDelta(s: Stream, code: string, newId: string): (t: Stream)
    ensures s.current.Some? && s.current.value.body.CodeBody? ==>
              t == s.(current := Some(s.current.value.(body := CodeBody(s.current.value.body.code + code))))
    ensures !(s.current.Some? && s.current.value.body.CodeBody?) ==>
              t == UpdateCurrent(s, AssistantMessage(newId, s.responseId, CodeBody(code)))
  {
    if s.current.Some? && s.current.value.body.CodeBody? then
      s.(current := Some(s.current.value.(body := CodeBody(s.current.value.body.code + code))))
    else UpdateCurrent(s, AssistantMessage(newId, s.responseId, CodeBody(code)))
  }

  /** A run of text deltas, the i-th offering `ids[i]` for a new message. */
  function TextDeltas(s: Stream, texts: seq<string>, ids: seq<string>): Stream
    requires |ids| == |texts|
    decreases |texts|
  {
    if |texts| == 0 then s
    else TextDelta(TextDeltas(s, texts[..|texts| - 1], ids[..|ids| - 1]), texts[|texts| - 1], ids[|ids| - 1])
  }

  function Concat(texts: seq<string>): string
    decreases |texts|
  {
    if |texts| == 0 then "" else Concat(texts[..|texts| - 1]) + texts[|texts| - 1]
  }

  /** While streaming with no message open, a run of text deltas builds one message: its id
      is the first offered id, it carries the current response id and its text is the
      concatenation of the deltas; the finished messages are untouched. */
  lemma {:induction false} TextDeltasBuildOneMessage(s: Stream, texts: seq<string>, ids: seq<string>)
    requires s.streaming && s.current.None?
    requires |ids| == |texts| > 0
    ensures TextDeltas(s, texts, ids) == s.(current := Some(AssistantMessage(ids[0], s.responseId, TextBody(Concat(texts)))))
    decreases |texts|
  {
    var n := |texts|;
    if n == 1 {
      assert texts[..0] == [] && ids[..0] == [];
      assert Concat(texts) == Concat([]) + texts[0] == texts[0];
      assert TextDeltas(s, texts, ids) == TextDelta(s, texts[0], ids[0]);
    } else {
      TextDeltasBuildOneMessage(s, texts[..n - 1], ids[..n - 1]);
      assert ids[..n - 1][0] == ids[0];
      assert Concat(texts) == Concat(texts[..n - 1]) + texts[n - 1];
    }
  }

  /** A whole answer: created, streamed as text deltas, completed. The finished messages gain
      exactly that answer, stamped with the response id, which becomes the previous one. */
  lemma AnswerRoundTrip(s: Stream, responseId: string, texts: seq<string>, ids: seq<string>)
    requires s.streaming && s.current.None?
    requires |ids| == |texts| > 0
    ensures var t := ResponseCompleted(TextDeltas(ResponseCreated(s, responseId), texts, ids));
            && t.chat == s.chat + [AssistantMessage(ids[0], Some(responseId), TextBody(Concat(texts)))]
            && t.current.None? && t.previousResponseId == Some(responseId) && t.responseId.None?
  {
    TextDeltasBuildOneMessage(ResponseCreated(s, responseId), texts, ids);
  }

  /** The end of `submit_input_form`: when `call_ai_chat` raised, the error becomes the
      streamed message (replacing any partial answer) and is closed; then streaming stops
      and whatever is still open is closed. */
  function Finished(s: Stream, failure: Option<string>, errorId: string): (t: Stream)
    ensures t.current.None? && !t.streaming
    ensures t.responseId == s.responseId && t.previousResponseId == s.previousResponseId
  {
    var reported := if failure.Some? then Close(UpdateCurrent(s, AssistantMessage(errorId, None, TextBody("Error: " + failure.value)))) else s;
    Close(reported.(streaming := false))
  }

  /** When the AI call raises while streaming, the finished messages gain exactly the error
      message; a partial answer that was open is dropped. */
  lemma FailureReplacesPartialAnswer(s: Stream, error: string, errorId: string)
    requires s.streaming
    ensures Finished(s, Some(error), errorId).chat == s.chat + [AssistantMessage(errorId, None, TextBody("Error: " + error))]
  {
  }

  /** When the AI call succeeds, the open message, if any, is kept. */
  lemma SuccessKeepsOpenAnswer(s: Stream, errorId: string)
    ensures Finished(s, None, errorId).chat == s.chat + (if s.current.Some? then [s.current.value] else [])
  {
  }

  /** Whether `messages_to_display` shows a message: code only when code blocks are shown,
      and a figure only when its file can be read. */
  predicate Shown(m: LegacyMessage, showCode: bool, readable: string -> bool)
  {
    (showCode || !m.body.CodeBody?) && (!m.body.PlotlyBody? || readable(m.body.filename))
  }

  function ShownBy(showCode: bool, readable: string -> bool): LegacyMessage -> bool
  {
    (m: LegacyMessage) => Shown(m, showCode, readable)
  }

  /** `messages_to_display`: exactly the shown messages, in the order of the chat. */
  function Displayed(messages: seq<LegacyMessage>, showCode: bool, readable: string -> bool): (r: seq<LegacyMessage>)
    ensures |r| <= |messages|
    ensures forall m :: m in r <==> m in messages && Shown(m, showCode, readable)
    ensures var f := KeptIndices(messages, ShownBy(showCode, readable));
            && |r| == |f|
            && (forall k :: 0 <= k < |r| ==> r[k] == messages[f[k]])
            && (forall a, b :: 0 <= a < b < |f| ==> f[a] < f[b])
            && (forall i :: 0 <= i < |messages| && Shown(messages[i], showCode, readable) ==> i in f)
  {
    var p := ShownBy(showCode, readable);
    FilterInOrder(messages, p);
    assert forall m :: m in Filter(messages, p) <==> m in messages && Shown(m, showCode, readable) by {
      forall m
        ensures m in Filter(messages, p) <==> m in messages && Shown(m, showCode, readable)
      {
        FilterMembers(messages, p, m);
      }
    }
    Filter(messages, p)
  }

  class ChatStateBase {
    const showChatCodeBlock: bool
    var chatMessages: seq<LegacyMessage>
    var currentResponse: Option<LegacyMessage>
    var isStreaming: bool
    var conversationId: Option<string>
    var externalConversationId: Option<string>
    var currentResponseId: Option<string>
    var previousResponseId: Option<string>

    constructor (showChatCodeBlock: bool)
      ensures this.showChatCodeBlock == showChatCodeBlock
      ensures chatMessages == [] && currentResponse.None? && !isStreaming
      ensures conversationId.None? && externalConversationId.None?
      ensures currentResponseId.None? && previousResponseId.None?
    {
      this.showChatCodeBlock := showChatCodeBlock;
      chatMessages := [];
      currentResponse := None;
      isStreaming := false;
      conversationId := None;
      externalConversationId := None;
      currentResponseId := None;
      previousResponseId := None;
    }

    function Snapshot(): Stream
      reads this
    {
      Stream(chatMessages, currentResponse, isStreaming, currentResponseId, previousResponseId)
    }

    /** `current_response_message`: the streamed message when there is one to show. */
    function CurrentResponseMessage(readable: string -> bool): (r: Option<LegacyMessage>)
      reads this
      ensures r.Some? <==> currentResponse.Some? && Shown(currentResponse.value, showChatCodeBlock, readable)
      ensures r.Some? ==> r == currentResponse
    {
      if currentResponse.Some? && Shown(currentResponse.value, showChatCodeBlock, readable) then currentResponse else None
    }

    /** `messages_to_display`. */
    function MessagesToDisplay(readable: string -> bool): (r: seq<LegacyMessage>)
      reads this
      ensures !showChatCodeBlock ==> forall m :: m in r ==> !m.body.CodeBody?
      ensures forall m :: m in chatMessages && m.body.TextBody? ==> m in r
      ensures r == Displayed(chatMessages, showChatCodeBlock, readable)
    {
      Displayed(chatMessages, showChatCodeBlock, readable)
    }

    /** The first half of `submit_input_form`: a blank message is ignored; otherwise the
        stripped message is added as a user text message and streaming starts. */
    method BeginSubmit(form: map<string, string>, newId: string) returns (started: bool)
      modifies this
      ensures var message := Strip(if "message" in form then form["message"] else "");
              && (started <==> message != "")
              && (started ==> chatMessages == old(chatMessages) + [LegacyMessage(newId, UserRole, None, [], TextBody(message))] && isStreaming)
      ensures !started ==> chatMessages == old(chatMessages) && isStreaming == old(isStreaming)
      ensures currentResponse == old(currentResponse) && conversationId == old(conversationId)
      ensures currentResponseId == old(currentResponseId) && previousResponseId == old(previousResponseId)
      ensures externalConversationId == old(externalConversationId)
    {
      var message := Strip(if "message" in form then form["message"] else "");
      if message == "" {
        return false;
      }
      chatMessages := chatMessages + [LegacyMessage(newId, UserRole, None, [], TextBody(message))];
      isStreaming := true;
      started := true;
    }

    /** The second half of `submit_input_form`, once `call_ai_chat` returned or raised. */
    method FinishSubmit(failure: Option<string>, errorId: string)
      modifies this
      ensures Snapshot() == Finished(old(Snapshot()), failure, errorId)
      ensures conversationId == old(conversationId) && externalConversationId == old(externalConversationId)
    {
      if failure.Some? {
        UpdateCurrentResponseMessage(AssistantMessage(errorId, None, TextBody("Error: " + failure.value)));
        CloseCurrentMessage();
      }
      isStreaming := false;
      CloseCurrentMessage();
    }

    method UpdateCurrentResponseMessage(m: LegacyMessage)
      modifies this
      ensures Snapshot() == UpdateCurrent(old(Snapshot()), m)
      ensures conversationId == old(conversationId) && externalConversationId == old(externalConversationId)
    {
      if isStreaming {
        currentResponse := Some(m);
      }
    }

    /** `update_current_message_sources`: while streaming, the open message takes the
        sources. */
    method UpdateCurrentMessageSources(sources: seq<RagChunk>)
      modifies this
      ensures isStreaming && old(currentResponse).Some? ==> currentResponse == Some(old(currentResponse).value.(sources := sources))
      ensures !(isStreaming && old(currentResponse).Some?) ==> currentResponse == old(currentResponse)
      ensures chatMessages == old(chatMessages) && isStreaming == old(isStreaming)
      ensures currentResponseId == old(currentResponseId) && previousResponseId == old(previousResponseId)
      ensures conversationId == old(conversationId) && externalConversationId == old(externalConversationId)
    {
      if isStreaming && currentResponse.Some? {
        currentResponse := Some(currentResponse.value.(sources := sources));
      }
    }

    method CloseCurrentMessage()
      modifies this
      ensures Snapshot() == Close(old(Snapshot()))
      ensures conversationId == old(conversationId) && externalConversationId == old(externalConversationId)
    {
      if currentResponse.Some? {
        chatMessages := chatMessages + [currentResponse.value];
        currentResponse := None;
      }
    }

    method SetExternalConversationId(id: string)
      modifies this
      ensures externalConversationId == Some(id)
      ensures Snapshot() == old(Snapshot()) && conversationId == old(conversationId)
    {
      externalConversationId := Some(id);
    }

    /** `clear_chat` with the OpenAI `_after_chat_cleared` hook: everything is reset. */
    method ClearChat()
      modifies this
      ensures Snapshot() == Stream([], None, false, None, None)
      ensures conversationId.None? && externalConversationId.None?
    {
      chatMessages := [];
      currentResponse := None;
      conversationId := None;
      externalConversationId := None;
      isStreaming := false;
      previousResponseId := None;
      currentResponseId := None;
    }

    /** `add_message`: only while streaming. */
    method AddMessage(m: LegacyMessage)
      modifies this
      ensures isStreaming ==> chatMessages == old(chatMessages) + [m]
      ensures !isStreaming ==> chatMessages == old(chatMessages)
      ensures currentResponse == old(currentResponse) && isStreaming == old(isStreaming)
      ensures conversationId == old(conversationId) && externalConversationId == old(externalConversationId)
      ensures currentResponseId == old(currentResponseId) && previousResponseId == old(previousResponseId)
    {
      if isStreaming {
        chatMessages := chatMessages + [m];
      }
    }

    method HandleResponseCreated(id: string)
      modifies this
      ensures Snapshot() == ResponseCreated(old(Snapshot()), id)
    {
      currentResponseId := Some(id);
    }

    method HandleResponseCompleted()
      modifies this
      ensures Snapshot() == ResponseCompleted(old(Snapshot()))
    {
      CloseCurrentMessage();
      previousResponseId := currentResponseId;
      currentResponseId := None;
    }

    method HandleOutputTextDelta(text: string, newId: string)
      modifies this
      ensures Snapshot() == TextDelta(old(Snapshot()), text, newId)
      ensures conversationId == old(conversationId)
    {
      if currentResponse.Some? && currentResponse.value.body.TextBody? {
        currentResponse := Some(currentResponse.value.(body := TextBody(currentResponse.value.body.content + text)));
      } else {
        UpdateCurrentResponseMessage(AssistantMessage(newId, currentResponseId, TextBody(text)));
      }
    }

    method HandleCodeDelta(code: string, newId: string)
      modifies this
      ensures Snapshot() == CodeDelta(old(Snapshot()), code, newId)
      ensures conversationId == old(conversationId)
    {
      if currentResponse.Some? && currentResponse.value.body.CodeBody? {
        currentResponse := Some(currentResponse.value.(body := CodeBody(currentResponse.value.body.code + code)));
      } else {
        UpdateCurrentResponseMessage(AssistantMessage(newId, currentResponseId, CodeBody(code)));
      }
    }

    /** `save_conversation_to_history`, as the history state's `add_conversation` receives
        it: nothing happens for an empty chat; otherwise the conversation id is drawn once
        and the conversation, stamped `now`, is merged into the history. */
    method SaveConversationToHistory(mode: string, configuration: map<string, string>, newConversationId: string,
                                     now: int, history: ConversationFullHistory)
      requires history.Valid()
      modifies this, history, set c | c in history.conversations
      ensures history.Valid()
      ensures old(chatMessages) == [] ==> conversationId == old(conversationId) && history.conversations == old(history.conversations)
      ensures old(chatMessages) != [] ==> conversationId == Some(old(conversationId).GetOr(newConversationId))
      ensures old(chatMessages) != [] ==>
                var i := IndexOfId(old(history.conversations), conversationId.value);
                && (i == |old(history.conversations)| ==>
                      && |history.conversations| == i + 1 && history.conversations[..i] == old(history.conversations)
                      && history.conversations[i].conversationId == conversationId.value
                      && history.conversations[i].messages == chatMessages
                      && history.conversations[i].mode == mode && history.conversations[i].timestamp == now
                      && history.conversations[i].configuration == configuration
                      && history.conversations[i].labelText == Relabelled("", chatMessages))
                && (i < |old(history.conversations)| ==>
                      && history.conversations == old(history.conversations)
                      && history.conversations[i].messages == old(history.conversations[i].messages) +
                                                              Unseen(Ids(old(history.conversations[i].messages)), chatMessages)
                      && history.conversations[i].timestamp == now
                      && history.conversations[i].configuration == configuration
                      && history.conversations[i].labelText == (if old(history.conversations[i].labelText) == ""
                                                                then Relabelled("", history.conversations[i].messages)
                                                                else old(history.conversations[i].labelText)))
      ensures Snapshot() == old(Snapshot())
    {
      if chatMessages == [] {
        return;
      }
      if conversationId.None? {
        conversationId := Some(newConversationId);
      }
      var conversation := new ConversationHistory(conversationId.value, now, configuration, chatMessages, mode);
      history.AddConversation(conversation);
    }

    /** `save_conversation_to_history` as written: the history state's `add_conversation`
        has no `external_conversation_id` parameter, so the call raises a TypeError, which is
        logged; the conversation id is drawn but the history never changes. */
    method SaveConversationToHistoryAsWritten(newConversationId: string, history: ConversationFullHistory)
      modifies this
      ensures old(chatMessages) == [] ==> conversationId == old(conversationId)
      ensures old(chatMessages) != [] ==> conversationId == Some(old(conversationId).GetOr(newConversationId))
      ensures history.conversations == old(history.conversations)
      ensures Snapshot() == old(Snapshot())
    {
      if chatMessages == [] {
        return;
      }
      if conversationId.None? {
        conversationId := Some(newConversationId);
      }
    }
  }
}
