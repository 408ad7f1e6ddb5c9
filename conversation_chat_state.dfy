/** `ConversationChatStateBase` of the apps package: a chat page whose messages live in a
    `BaseChatConversation`. A submit creates the conversation on first use, saves the user
    message through it, then reads what the conversation's `call_conversation` yields: a
    streamed answer becomes the page's current response; a finished message ends it and the
    page takes the conversation's messages again. */
module ConversationChatState {
  import opened Wrappers
  import opened PyText
  import opened ChatMessages
  import opened ChatConversation
  import opened Seqs

  function IsComplete(): Yielded -> bool
  {
    (y: Yielded) => y.Complete?
  }

  /** The finished messages among what `call_conversation` yields, in order (see
      `CompletedInOrder`). */
  function Completed(stream: seq<Yielded>): (r: seq<ChatMessage>)
    ensures |r| <= |stream|
    decreases |stream|
  {
    if |stream| == 0 then []
    else Completed(stream[..|stream| - 1]) + (if stream[|stream| - 1].Complete? then [stream[|stream| - 1].message] else [])
  }

  /** One message for each finished item, taken at the items' increasing positions. */
  lemma {:induction false} CompletedInOrder(stream: seq<Yielded>)
    ensures var f := KeptIndices(stream, IsComplete());
            && |Completed(stream)| == |f|
            && forall k :: 0 <= k < |f| ==> stream[f[k]].Complete? && Completed(stream)[k] == stream[f[k]].message
    decreases |stream|
  {
    if |stream| > 0 {
      var n := |stream| - 1;
      CompletedInOrder(stream[..n]);
      assert forall i :: 0 <= i < n ==> stream[..n][i] == stream[i];
    }
  }

  /** Reading one more yielded value. */
  lemma CompletedSnoc(stream: seq<Yielded>, i: nat)
    requires i < |stream|
    ensures Completed(stream[..i + 1]) == Completed(stream[..i]) + (if stream[i].Complete? then [stream[i].message] else [])
  {
    assert stream[..i + 1][..i] == stream[..i];
  }

  /** Streamed updates add no message. */
  lemma {:induction false} StreamingOnlyAddsNothing(stream: seq<Yielded>)
    requires forall i :: 0 <= i < |stream| ==> stream[i].StreamingUpdate?
    ensures Completed(stream) == []
    decreases |stream|
  {
    if |stream| > 0 {
      StreamingOnlyAddsNothing(stream[..|stream| - 1]);
    }
  }

  class ConversationChatStateBase {
    var isStreaming: bool
    var currentResponse: Option<Streaming>
    var chatMessages: seq<ChatMessage>
    var conversation: Option<BaseChatConversation>

    constructor ()
      ensures !isStreaming && currentResponse.None? && chatMessages == [] && conversation.None?
    {
      isStreaming := false;
      currentResponse := None;
      chatMessages := [];
      conversation := None;
    }

    /** The conversation object and its database. */
    function ConversationFrame(): set<object>
      reads this
    {
      if conversation.Some? then {conversation.value, conversation.value.service} else {}
    }

    /** `get_or_create_conversation`: the conversation `create_conversation` gives is kept for
        the rest of the session. */
    method GetOrCreateConversation(created: BaseChatConversation) returns (c: BaseChatConversation)
      modifies this
      ensures old(conversation).Some? ==> c == old(conversation).value
      ensures old(conversation).None? ==> c == created
      ensures conversation == Some(c)
      ensures isStreaming == old(isStreaming) && currentResponse == old(currentResponse) && chatMessages == old(chatMessages)
    {
      if conversation.None? {
        conversation := Some(created);
      }
      c := conversation.value;
    }

    /** `submit_input_form`. A blank message, or a submit while an answer is streaming, is
        ignored. Otherwise the user message is saved through the conversation, every
        yielded value is handled in order, and at the end (also when the stream raised,
        `failure`) no answer is current, streaming has stopped and the page shows the
        conversation's messages: those it had, the user message and every finished message
        the stream yielded. */
    method SubmitInputForm(form: map<string, string>, created: BaseChatConversation, newConversationId: string,
                           newMessageId: string, stream: seq<Yielded>, failure: Option<ErrorKind>)
      returns (r: Outcome)
      requires conversation.Some? ==> conversation.value.Valid()
      requires conversation.None? ==> created.Valid()
      modifies this, created, created.service, ConversationFrame()
      ensures var message := Strip(if "message" in form then form["message"] else "");
              message == "" || old(isStreaming) ==>
                r == Pass && conversation == old(conversation) && chatMessages == old(chatMessages) &&
                isStreaming == old(isStreaming) && currentResponse == old(currentResponse)
      ensures var message := Strip(if "message" in form then form["message"] else "");
              message != "" && !old(isStreaming) ==>
                && conversation.Some?
                && (old(conversation).Some? ==> conversation == old(conversation))
                && (old(conversation).None? ==> conversation == Some(created))
                && chatMessages == conversation.value.chatMessages
                && chatMessages == old(if conversation.Some? then conversation.value.chatMessages else created.chatMessages) +
                                   [UserText(message).(id := Some(newMessageId))] + Completed(stream)
                && !isStreaming && currentResponse.None?
                && conversation.value.conversation.Some?
                && (failure.Some? ==> r == Fail(failure.value))
                && (failure.None? ==> r == Pass)
    {
      r := Pass;
      var message := Strip(if "message" in form then form["message"] else "");
      if message == "" || isStreaming {
        return;
      }
      r := SubmitMessage(message, created, newConversationId, newMessageId, stream, failure);
    }

    /** The part of `submit_input_form` that runs for a message that is not blank while no
        answer is streaming. */
    method SubmitMessage(message: string, created: BaseChatConversation, newConversationId: string,
                         newMessageId: string, stream: seq<Yielded>, failure: Option<ErrorKind>)
      returns (r: Outcome)
      requires !isStreaming
      requires conversation.Some? ==> conversation.value.Valid()
      requires conversation.None? ==> created.Valid()
      modifies this, created, created.service, ConversationFrame()
      ensures && conversation.Some?
              && (old(conversation).Some? ==> conversation == old(conversation))
              && (old(conversation).None? ==> conversation == Some(created))
              && chatMessages == conversation.value.chatMessages
              && chatMessages == old(if conversation.Some? then conversation.value.chatMessages else created.chatMessages) +
                                 [UserText(message).(id := Some(newMessageId))] + Completed(stream)
              && !isStreaming && currentResponse.None?
              && conversation.value.conversation.Some?
              && (failure.Some? ==> r == Fail(failure.value))
              && (failure.None? ==> r == Pass)
    {
      ghost var before := if conversation.Some? then conversation.value.chatMessages else created.chatMessages;
      ghost var user := UserText(message).(id := Some(newMessageId));
      isStreaming := true;
      var c := GetOrCreateConversation(created);
      assert c.chatMessages == before && c.Valid();
      c.CreateConversation(message, newConversationId, newMessageId);
      assert c.chatMessages == before + [user] && c.conversation.Some?;
      chatMessages := c.chatMessages;
      ReadStream(c, stream);
      isStreaming := false;
      r := if failure.Some? then Fail(failure.value) else Pass;
    }

    /** The loop over `call_conversation` and the `finally` block of `submit_input_form`:
        every yielded value reaches the conversation, and at the end no answer is current and
        the page shows the conversation's messages. */
    method ReadStream(c: BaseChatConversation, stream: seq<Yielded>)
      requires conversation == Some(c)
      modifies this, c
      ensures c.chatMessages == old(c.chatMessages) + Completed(stream)
      ensures c.conversation == old(c.conversation)
      ensures conversation == old(conversation) && isStreaming == old(isStreaming)
      ensures currentResponse.None? && chatMessages == c.chatMessages
    {
      var i := 0;
      while i < |stream|
        invariant 0 <= i <= |stream|
        invariant conversation == old(conversation) && isStreaming == old(isStreaming)
        invariant c.conversation == old(c.conversation)
        invariant c.chatMessages == old(c.chatMessages) + Completed(stream[..i])
      {
        var y := stream[i];
        CompletedSnoc(stream, i);
        c.Receive(y);
        if y.StreamingUpdate? {
          currentResponse := Some(y.streaming);
        } else {
          currentResponse := None;
          chatMessages := c.chatMessages;
        }
        i := i + 1;
      }
      assert stream[..i] == stream;
      currentResponse := None;
      chatMessages := c.chatMessages;
    }

    /** `clear_chat`: the conversation is dropped; the next submit creates a new one. */
    method ClearChat()
      modifies this
      ensures conversation.None? && chatMessages == [] && currentResponse.None? && !isStreaming
      ensures ShowEmptyChat()
    {
      conversation := None;
      chatMessages := [];
      currentResponse := None;
      isStreaming := false;
    }

    /** `show_empty_chat`: the empty chat is shown only when no message, finished or
        streaming, is on screen. */
    predicate ShowEmptyChat(): (r: bool)
      reads this
      ensures r ==> |chatMessages| == 0 && currentResponse.None? && !isStreaming
    {
      |chatMessages| == 0 && currentResponse.None? && !isStreaming
    }
  }
}
