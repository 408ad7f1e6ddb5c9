/** `AiTableAgentChatConversation`: a chat whose answers come from the table agent. Each agent
    event becomes the messages the chat yields: streamed text, saved plot, table and error
    messages, and the closing of the streamed answer when a response completes. */
module TableAgentConversation {
  import opened Wrappers
  import opened PyDict
  import opened Seqs
  import opened ChatMessages
  import opened ChatConversation
  import opened AgentEvents
  import opened TableAgent

  /** The name shown for a table: its own name, or the fallback when it has none. */
  function TableTitle(t: TableValue, fallback: string): (r: string)
    ensures t.name != "" ==> r == t.name
    ensures t.name == "" ==> r == fallback
  {
    if t.name == "" then fallback else t.name
  }

  function TableMessage(title: string, externalId: Option<string>): ChatMessage
  {
    ChatMessage(None, AssistantRole, externalId, [], TablePayload(title))
  }

  /** The table messages of a multi-table transform, one per table in the order of the
      dictionary; an unnamed table takes its key. */
  function MultiTableMessages(tables: Dict<TableValue>, keys: seq<string>, responseId: string): (r: seq<ChatMessage>)
    requires forall k :: k in keys ==> k in tables.entries
    ensures |r| == |keys|
    ensures forall i :: 0 <= i < |keys| ==> r[i] == TableMessage(TableTitle(tables.entries[keys[i]], keys[i]), Some(responseId))
    decreases |keys|
  {
    if |keys| == 0 then []
    else
      var n := |keys| - 1;
      MultiTableMessages(tables, keys[..n], responseId) + [TableMessage(TableTitle(tables.entries[keys[n]], keys[n]), Some(responseId))]
  }

  /** The messages an agent event has saved: a plot when there is one, the transformed table
      (named "Transformed Data" when it has no name), one table per output of a multi-table
      transform, an error message for an error; nothing for any other event. */
  function MessagesToSave(e: AgentEvent): (r: seq<ChatMessage>)
    requires WellFormedEvent(e)
    ensures e.FunctionSuccess? && e.result.PlotResult? ==>
              r == if e.result.plot.None? then [] else [ChatMessage(None, AssistantRole, Some(e.responseId), [], PlotlyPayload(true))]
    ensures e.FunctionSuccess? && e.result.TableResult? ==>
              r == [TableMessage(TableTitle(e.result.table, "Transformed Data"), Some(e.responseId))]
    ensures e.FunctionSuccess? && e.result.MultiTableResult? ==> |r| == |e.result.tables.keys|
    ensures e.FunctionError? || e.ErrorEvent? ==>
              r == [ChatMessage(None, AssistantRole, ResponseIdOf(e), [], ErrorPayload(e.message))]
    ensures !(e.FunctionSuccess? && !e.result.PlainResult?) && !e.FunctionError? && !e.ErrorEvent? ==> r == []
  {
    if e.FunctionSuccess? && e.result.PlotResult? then
      if e.result.plot.None? then [] else [ChatMessage(None, AssistantRole, Some(e.responseId), [], PlotlyPayload(true))]
    else if e.FunctionSuccess? && e.result.TableResult? then
      [TableMessage(TableTitle(e.result.table, "Transformed Data"), Some(e.responseId))]
    else if e.FunctionSuccess? && e.result.MultiTableResult? then
      MultiTableMessages(e.result.tables, e.result.tables.keys, e.responseId)
    else if e.FunctionError? || e.ErrorEvent? then
      [ChatMessage(None, AssistantRole, ResponseIdOf(e), [], ErrorPayload(e.message))]
    else []
  }

  /** A multi-table transform yields one message per output table, in order; an unnamed table
      is shown under its key. */
  lemma MultiTableOneMessagePerTable(e: AgentEvent, i: nat)
    requires WellFormedEvent(e) && e.FunctionSuccess? && e.result.MultiTableResult?
    requires i < |e.result.tables.keys|
    ensures var k := e.result.tables.keys[i];
            var t := e.result.tables.entries[k];
            && |MessagesToSave(e)| == |e.result.tables.keys|
            && MessagesToSave(e)[i].payload == TablePayload(if t.name == "" then k else t.name)
            && MessagesToSave(e)[i].externalId == Some(e.responseId)
  {
  }

  /** The rows saved for messages saved one after the other. */
  function SavedRecords(conversationId: string, messages: seq<ChatMessage>, ids: seq<string>): (rs: seq<MessageRecord>)
    requires |ids| >= |messages|
    ensures |rs| == |messages|
    decreases |messages|
  {
    if |messages| == 0 then []
    else
      var n := |messages| - 1;
      SavedRecords(conversationId, messages[..n], ids) + [NewRecord(conversationId, messages[n], ids[n])]
  }

  /** The i-th saved row is the row of the i-th message under the i-th id. */
  lemma {:induction false} SavedRecordsAt(conversationId: string, messages: seq<ChatMessage>, ids: seq<string>, i: nat)
    requires |ids| >= |messages| && i < |messages|
    ensures SavedRecords(conversationId, messages, ids)[i] == NewRecord(conversationId, messages[i], ids[i])
    decreases |messages|
  {
    var n := |messages| - 1;
    if i < n {
      SavedRecordsAt(conversationId, messages[..n], ids, i);
    }
  }

  /** What saving a message without an id yields: the saved message, which is the message
      with its new id when its payload is a DTO. */
  predicate SavedAs(y: Yielded, m: ChatMessage, newId: string)
  {
    y.Complete? && (IsDtoPayload(m.payload) ==> y == Complete(m.(id := Some(newId))))
  }

  /** Saves a message that has no id yet under a new id. */
  method SaveOne(service: ChatConversationService, conversationId: string, m: ChatMessage, newId: string)
    returns (y: Yielded)
    requires m.id.None?
    modifies service
    ensures service.messages == old(service.messages) + [NewRecord(conversationId, m, newId)]
    ensures service.conversations == old(service.conversations)
    ensures SavedAs(y, m, newId)
  {
    var saved := service.SaveMessage(conversationId, m, newId);
    y := Complete(saved);
  }

  /** Saves the messages one after the other, each under the next id. */
  method SaveAll(service: ChatConversationService, conversationId: string, messages: seq<ChatMessage>, ids: seq<string>)
    returns (yielded: seq<Yielded>)
    requires |ids| >= |messages|
    requires forall i :: 0 <= i < |messages| ==> messages[i].id.None?
    modifies service
    ensures service.messages == old(service.messages) + SavedRecords(conversationId, messages, ids)
    ensures service.conversations == old(service.conversations)
    ensures |yielded| == |messages|
    ensures forall i :: 0 <= i < |messages| ==> yielded[i].Complete?
    ensures forall i :: 0 <= i < |messages| && IsDtoPayload(messages[i].payload) ==>
              yielded[i] == Complete(messages[i].(id := Some(ids[i])))
  {
    yielded := [];
    var i := 0;
    while i < |messages|
      invariant 0 <= i <= |messages|
      invariant service.messages == old(service.messages) + SavedRecords(conversationId, messages[..i], ids)
      invariant service.conversations == old(service.conversations)
      invariant |yielded| == i
      invariant forall j :: 0 <= j < i ==> SavedAs(yielded[j], messages[j], ids[j])
    {
      PrefixSnoc(messages, i);
      ConcatAssoc(old(service.messages), SavedRecords(conversationId, messages[..i], ids), [NewRecord(conversationId, messages[i], ids[i])]);
      var y := SaveOne(service, conversationId, messages[i], ids[i]);
      forall j | 0 <= j < i + 1
        ensures SavedAs((yielded + [y])[j], messages[j], ids[j])
      {
        if j < i {
          assert (yielded + [y])[j] == yielded[j];
        }
      }
      yielded := yielded + [y];
      i := i + 1;
    }
    assert messages[..i] == messages;
  }

  class AiTableAgentChatConversation {
    const base: BaseChatConversation
    /** `_current_external_response_id`: the response being streamed. */
    var currentExternalResponseId: Option<string>

    /** The chat is created in the ai_table mode with the agent's model and temperature as
        its configuration. */
    constructor (chatAppName: string, model: string, temperature: string, service: ChatConversationService)
      ensures fresh(base) && base.mode == "ai_table" && base.chatAppName == chatAppName
      ensures base.configuration == map["model" := model, "temperature" := temperature]
      ensures base.service == service && base.chatMessages == [] && base.current.None? && base.conversation.None? && base.Valid()
      ensures currentExternalResponseId.None?
    {
      base := new BaseChatConversation(chatAppName, map["model" := model, "temperature" := temperature], "ai_table", service);
      currentExternalResponseId := None;
    }

    /** `_handle_table_agent_event`. A text delta yields the streamed answer with it appended;
        a response being created becomes the current one; a completed response, and the
        success of a sub-agent, close the streamed answer; plots, tables and errors are saved
        as messages; anything else yields nothing. Saving needs the conversation row. */
    method HandleTableAgentEvent(e: AgentEvent, newIds: seq<string>) returns (r: Result<seq<Yielded>>)
      requires base.Valid() && WellFormedEvent(e) && |newIds| >= |MessagesToSave(e)| && |newIds| >= 1
      modifies this, base, base.service
      ensures base.Valid() && base.conversation == old(base.conversation) && base.chatMessages == old(base.chatMessages)
      ensures e.TextDelta? ==>
                r == Ok([StreamingUpdate(BuildMessage(old(base.current), e.delta, true, old(currentExternalResponseId)))])
                && base.current == old(base.current) && base.service.messages == old(base.service.messages)
      ensures e.ResponseCreated? ==> r == Ok([]) && currentExternalResponseId == Some(e.responseId)
                                     && base.service.messages == old(base.service.messages)
      ensures e.ResponseCompleted? ==> currentExternalResponseId.None?
      ensures (e.ResponseCompleted? || e.SubAgentSuccess?) ==>
                && (old(base.conversation).None? ==> r == Err(ValueError))
                && (old(base.conversation).Some? && old(base.current).None? ==> r == Ok([]))
                && (old(base.conversation).Some? && old(base.current).Some? ==>
                      var id := if e.SubAgentSuccess? then old(currentExternalResponseId) else None;
                      var text := AssistantText(old(base.current).value.content, OrElse(id, old(base.current).value.externalId), []);
                      && r == Ok([Complete(text.(id := Some(newIds[0])))])
                      && base.current.None?
                      && base.service.messages == old(base.service.messages) + [NewRecord(base.conversation.value.id, text, newIds[0])])
      ensures !(e.TextDelta? || e.ResponseCreated? || e.ResponseCompleted? || e.SubAgentSuccess?) ==>
                && base.current == old(base.current)
                && currentExternalResponseId == old(currentExternalResponseId)
                && (|MessagesToSave(e)| == 0 ==> r == Ok([]) && base.service.messages == old(base.service.messages))
                && (|MessagesToSave(e)| > 0 && old(base.conversation).None? ==> r == Err(ValueError))
                && (|MessagesToSave(e)| > 0 && old(base.conversation).Some? ==>
                      && r.Ok? && |r.value| == |MessagesToSave(e)|
                      && base.service.messages == old(base.service.messages)
                                                  + SavedRecords(base.conversation.value.id, MessagesToSave(e), newIds))
    {
      if e.TextDelta? {
        r := Ok([StreamingUpdate(BuildMessage(base.current, e.delta, true, currentExternalResponseId))]);
      } else if e.ResponseCreated? {
        currentExternalResponseId := Some(e.responseId);
        r := Ok([]);
      } else if e.ResponseCompleted? {
        currentExternalResponseId := None;
        r := Close(newIds[0]);
      } else if e.SubAgentSuccess? {
        r := Close(newIds[0]);
      } else {
        var messages := MessagesToSave(e);
        if |messages| == 0 {
          r := Ok([]);
        } else if base.conversation.None? {
          r := Err(ValueError);
        } else {
          var yielded := SaveAll(base.service, base.conversation.value.id, messages, newIds);
          r := Ok(yielded);
        }
      }
    }

    /** `close_current_message(external_id=self._current_external_response_id)`, as a list of
        messages. */
    method Close(newId: string) returns (r: Result<seq<Yielded>>)
      requires base.Valid()
      modifies base, base.service
      ensures base.Valid() && base.conversation == old(base.conversation) && base.chatMessages == old(base.chatMessages)
      ensures old(base.conversation).None? ==> r == Err(ValueError) && base.service.messages == old(base.service.messages)
      ensures old(base.conversation).Some? && old(base.current).None? ==> r == Ok([]) && base.service.messages == old(base.service.messages)
      ensures old(base.conversation).Some? && old(base.current).Some? ==>
                var text := AssistantText(old(base.current).value.content, OrElse(currentExternalResponseId, old(base.current).value.externalId), []);
                && r == Ok([Complete(text.(id := Some(newId)))])
                && base.current.None?
                && base.service.messages == old(base.service.messages) + [NewRecord(base.conversation.value.id, text, newId)]
    {
      var closed := base.CloseCurrentMessage(currentExternalResponseId, None, newId);
      if closed.Err? {
        return Err(closed.kind);
      }
      r := if closed.value.Some? then Ok([Complete(closed.value.value)]) else Ok([]);
    }
  }
}
