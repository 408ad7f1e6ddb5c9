/** The conversation history of the `reflex` chat pages: the messages of the `chat_base`
    package, one `ConversationHistory` per conversation (its messages, without duplicate ids,
    and a label taken from the first user question) and the `ConversationFullHistory` that
    merges a saved conversation into the existing one with the same id. */
module ChatHistory {
  import opened Wrappers
  import opened PyText
  import opened RagModels
  import opened ChatMessages

  /** What a message of the `chat_base` package carries: text, code, or the file name of a
      saved image or figure. */
  datatype Body = TextBody(content: string) | CodeBody(code: string) | ImageBody(filename: string) | PlotlyBody(filename: string)

  /** A `chat_base` message: a mandatory id, the role, the id of the response in the external
      system, the sources of the answer and the body. */
  datatype LegacyMessage = LegacyMessage(id: string, role: Role, externalId: Option<string>,
                                         sources: seq<RagChunk>, body: Body)

  function Ids(messages: seq<LegacyMessage>): (ids: set<string>)
    ensures forall m :: m in messages ==> m.id in ids
    ensures forall id :: id in ids ==> exists m :: m in messages && m.id == id
  {
    set m | m in messages :: m.id
  }

  predicate DistinctIds(messages: seq<LegacyMessage>)
  {
    forall a, b :: 0 <= a < b < |messages| ==> messages[a].id != messages[b].id
  }

  /** The messages of `batch` kept by `add_messages`, in order: those whose id is neither in
      `seen` nor taken by an earlier message of the batch. */
  function Unseen(seen: set<string>, batch: seq<LegacyMessage>): (kept: seq<LegacyMessage>)
    decreases |batch|
  {
    if |batch| == 0 then []
    else if batch[0].id in seen then Unseen(seen, batch[1..])
    else [batch[0]] + Unseen(seen + {batch[0].id}, batch[1..])
  }

  /** The kept messages come from the batch, have ids outside `seen` and distinct ids, and
      every message of the batch is kept or has its id in `seen` or among the kept ones. */
  lemma {:induction false} UnseenSound(seen: set<string>, batch: seq<LegacyMessage>)
    ensures forall m :: m in Unseen(seen, batch) ==> m in batch && m.id !in seen
    ensures DistinctIds(Unseen(seen, batch))
    ensures forall m :: m in batch ==> m.id in seen || m.id in Ids(Unseen(seen, batch))
    decreases |batch|
  {
    if |batch| > 0 {
      var rest := batch[1..];
      if batch[0].id in seen {
        UnseenSound(seen, rest);
      } else {
        var seen' := seen + {batch[0].id};
        UnseenSound(seen', rest);
        UnseenSoundStep(seen, batch, Unseen(seen', rest));
      }
    }
  }

  /** The step of `UnseenSound` for a first message whose id is new, given the facts for the
      messages kept from the rest of the batch. */
  lemma UnseenSoundStep(seen: set<string>, batch: seq<LegacyMessage>, tail: seq<LegacyMessage>)
    requires |batch| > 0 && batch[0].id !in seen
    requires forall m :: m in tail ==> m in batch[1..] && m.id !in seen + {batch[0].id}
    requires DistinctIds(tail)
    requires forall m :: m in batch[1..] ==> m.id in seen + {batch[0].id} || m.id in Ids(tail)
    ensures forall m :: m in [batch[0]] + tail ==> m in batch && m.id !in seen
    ensures DistinctIds([batch[0]] + tail)
    ensures forall m :: m in batch ==> m.id in seen || m.id in Ids([batch[0]] + tail)
  {
    var kept := [batch[0]] + tail;
    assert kept[1..] == tail;
    forall m | m in kept
      ensures m in batch && m.id !in seen
    {
      if m != batch[0] {
        assert m in tail;
        assert m in batch[1..];
      }
    }
    forall a, b | 0 <= a < b < |kept|
      ensures kept[a].id != kept[b].id
    {
      assert kept[b] == tail[b - 1];
      assert kept[b] in tail;
      if a > 0 {
        assert kept[a] == tail[a - 1];
      }
    }
    forall m | m in batch
      ensures m.id in seen || m.id in Ids(kept)
    {
      if m == batch[0] {
        assert kept[0] == m;
      } else {
        assert m in batch[1..];
        if m.id == batch[0].id {
          assert kept[0].id == m.id;
        } else if m.id !in seen {
          var w :| w in tail && w.id == m.id;
          assert w in kept;
        }
      }
    }
  }

  /** Adding messages to a conversation whose ids are distinct keeps them distinct. */
  lemma AddingKeepsIdsDistinct(messages: seq<LegacyMessage>, batch: seq<LegacyMessage>)
    requires DistinctIds(messages)
    ensures DistinctIds(messages + Unseen(Ids(messages), batch))
  {
    var kept := Unseen(Ids(messages), batch);
    UnseenSound(Ids(messages), batch);
    var all := messages + kept;
    forall a, b | 0 <= a < b < |all|
      ensures all[a].id != all[b].id
    {
      if b >= |messages| {
        assert all[b] == kept[b - |messages|];
        assert all[b] in kept;
        if a < |messages| {
          assert all[a] in messages;
        } else {
          assert all[a] == kept[a - |messages|];
        }
      }
    }
  }

  /** Adding the same messages a second time adds nothing. */
  lemma {:induction false} AddingTwiceAddsNothing(seen: set<string>, batch: seq<LegacyMessage>)
    requires forall m :: m in batch ==> m.id in seen
    ensures Unseen(seen, batch) == []
    decreases |batch|
  {
    if |batch| > 0 {
      assert batch[0] in batch;
      forall m | m in batch[1..]
        ensures m.id in seen
      {
        assert m in batch;
      }
      AddingTwiceAddsNothing(seen, batch[1..]);
    }
  }

  /** A label: the stripped question cut to 100 characters, with "..." when it was longer. */
  function Label(question: string): (l: string)
    ensures |l| <= 103
    ensures |Strip(question)| <= 100 ==> l == Strip(question)
    ensures |Strip(question)| > 100 ==> l == Strip(question)[..100] + "..."
  {
    var stripped := Strip(question);
    Take(stripped, 100) + (if |stripped| > 100 then "..." else "")
  }

  /** The question a user message asks: the content of a text message. */
  function QuestionOf(m: LegacyMessage): Option<string>
  {
    if m.role == UserRole && m.body.TextBody? then Some(m.body.content) else None
  }

  /** The position of the first message that gives a label (a truthy question), or the
      length of the list. */
  function FirstLabelled(messages: seq<LegacyMessage>, question: LegacyMessage -> Option<string>): (i: nat)
    ensures i <= |messages|
    ensures i < |messages| ==> question(messages[i]).Some? && question(messages[i]).value != ""
    ensures forall j :: 0 <= j < i ==> question(messages[j]).None? || question(messages[j]).value == ""
    decreases |messages|
  {
    if |messages| == 0 then 0
    else if question(messages[0]).Some? && question(messages[0]).value != "" then 0
    else 1 + FirstLabelled(messages[1..], question)
  }

  /** The label `update_label` sets from a list of messages, if any. */
  function LabelFrom(messages: seq<LegacyMessage>, question: LegacyMessage -> Option<string>): Option<string>
  {
    var i := FirstLabelled(messages, question);
    if i < |messages| then Some(Label(question(messages[i]).value)) else None
  }

  /** A conversation whose first message is a user's non-empty question gets a label from
      that question. */
  lemma LabelOfFirstQuestion(messages: seq<LegacyMessage>)
    requires |messages| > 0 && messages[0].role == UserRole && messages[0].body.TextBody? && messages[0].body.content != ""
    ensures LabelFrom(messages, QuestionOf) == Some(Label(messages[0].body.content))
  {
  }

  /** The label after `update_label`: the label of the first user question, or the label
      it had when there is none. */
  function Relabelled(current: string, messages: seq<LegacyMessage>): (l: string)
    ensures LabelFrom(messages, QuestionOf).Some? ==> l == LabelFrom(messages, QuestionOf).value
    ensures LabelFrom(messages, QuestionOf).None? ==> l == current
  {
    match LabelFrom(messages, QuestionOf)
    case Some(question) => question
    case None => current
  }

  /** Setting an empty label again after `update_label` keeps the label it set. */
  lemma RelabelledTwice(current: string, messages: seq<LegacyMessage>)
    ensures var l := Relabelled(current, messages);
            (if l == "" then Relabelled("", messages) else l) == l
  {
  }

  /** Whether the list holds a user message. As written, `update_label` reads the `code` of
      the first one, and the `chat_base` message classes have no such field. */
  predicate HasUserMessage(messages: seq<LegacyMessage>)
  {
    exists j :: 0 <= j < |messages| && messages[j].role == UserRole
  }

  /** A list that gives a label holds a user message: whenever the label is meant to be set,
      the code as written raises instead. */
  lemma LabelledHasUserMessage(messages: seq<LegacyMessage>)
    ensures LabelFrom(messages, QuestionOf).Some? ==> HasUserMessage(messages)
  {
    var i := FirstLabelled(messages, QuestionOf);
    if i < |messages| {
      assert messages[i].role == UserRole;
    }
  }

  lemma LabelOfHello()
    ensures Label("Hello") == "Hello"
  {
    var q := "Hello";
    assert q[0] == 'H' && !IsSpace(q[0]);
    assert LStripSpace(q) == q;
    assert q[|q| - 1] == 'o' && !IsSpace(q[|q| - 1]);
    assert RStripSpace(q) == q;
  }

  /** "Hello" as the only message: the question is meant to give the label "Hello", while
      the code as written reaches a user message and raises. */
  lemma HelloRaisesAsWritten()
    ensures var hello := LegacyMessage("m1", UserRole, None, [], TextBody("Hello"));
            HasUserMessage([hello]) && LabelFrom([hello], QuestionOf) == Some("Hello")
  {
    var hello := LegacyMessage("m1", UserRole, None, [], TextBody("Hello"));
    assert [hello][0].role == UserRole;
    LabelOfFirstQuestion([hello]);
    LabelOfHello();
  }

  class ConversationHistory {
    const conversationId: string
    /** The `datetime`, as a number. */
    var timestamp: int
    /** The configuration dictionary, its values written as text. */
    var configuration: map<string, string>
    var messages: seq<LegacyMessage>
    var mode: string
    /** `label`. */
    var labelText: string

    constructor (conversationId: string, timestamp: int, configuration: map<string, string>,
                 messages: seq<LegacyMessage>, mode: string)
      ensures this.conversationId == conversationId && this.timestamp == timestamp
      ensures this.configuration == configuration && this.messages == messages
      ensures this.mode == mode && labelText == ""
    {
      this.conversationId := conversationId;
      this.timestamp := timestamp;
      this.configuration := configuration;
      this.messages := messages;
      this.mode := mode;
      labelText := "";
    }

    /** `update_label`: the label of the first user question, when there is one; otherwise
        the label is unchanged. */
    method UpdateLabel()
      modifies this
      ensures LabelFrom(messages, QuestionOf).Some? ==> labelText == LabelFrom(messages, QuestionOf).value
      ensures LabelFrom(messages, QuestionOf).None? ==> labelText == old(labelText)
      ensures labelText == Relabelled(old(labelText), messages)
      ensures messages == old(messages) && timestamp == old(timestamp)
      ensures configuration == old(configuration) && mode == old(mode)
    {
      var ms := messages;
      ghost var first := FirstLabelled(ms, QuestionOf);
      var i := 0;
      while i < |ms|
        invariant 0 <= i <= first
      {
        var question := QuestionOf(ms[i]);
        if question.Some? && question.value != "" {
          assert i == first;
          labelText := Label(question.value);
          return;
        }
        i := i + 1;
      }
    }

    /** `update_label` as written: the first user message's `code` is read before any label
        is set, so the call raises AttributeError exactly when the list holds a user message,
        and changes nothing either way. */
    method UpdateLabelAsWritten() returns (r: Outcome)
      ensures r.Fail? <==> HasUserMessage(messages)
      ensures r.Fail? ==> r.kind == AttributeError
      ensures LabelFrom(messages, QuestionOf).Some? ==> r.Fail?
    {
      LabelledHasUserMessage(messages);
      var i := 0;
      while i < |messages|
        invariant 0 <= i <= |messages|
        invariant forall j :: 0 <= j < i ==> messages[j].role != UserRole
      {
        if messages[i].role == UserRole {
          return Fail(AttributeError);
        }
        i := i + 1;
      }
      return Pass;
    }

    /** The loop of `add_messages`: appends, in order, the messages whose id is not already in
        the conversation or earlier in the batch. */
    method AppendUnseen(batch: seq<LegacyMessage>)
      modifies this
      ensures messages == old(messages) + Unseen(Ids(old(messages)), batch)
      ensures labelText == old(labelText)
      ensures timestamp == old(timestamp) && configuration == old(configuration) && mode == old(mode)
    {
      var seen := Ids(messages);
      var i := 0;
      while i < |batch|
        invariant 0 <= i <= |batch|
        invariant seen == Ids(messages)
        invariant messages + Unseen(seen, batch[i..]) == old(messages) + Unseen(Ids(old(messages)), batch)
        invariant labelText == old(labelText)
        invariant timestamp == old(timestamp) && configuration == old(configuration) && mode == old(mode)
      {
        var m := batch[i];
        assert batch[i..][1..] == batch[i + 1..];
        if m.id !in seen {
          messages := messages + [m];
          seen := seen + {m.id};
        }
        i := i + 1;
      }
    }

    /** `add_messages`: the messages with new ids are appended, then the label is set if it
        is empty. */
    method AddMessages(batch: seq<LegacyMessage>)
      modifies this
      ensures messages == old(messages) + Unseen(Ids(old(messages)), batch)
      ensures old(labelText) != "" ==> labelText == old(labelText)
      ensures old(labelText) == "" && LabelFrom(messages, QuestionOf).Some? ==> labelText == LabelFrom(messages, QuestionOf).value
      ensures old(labelText) == "" && LabelFrom(messages, QuestionOf).None? ==> labelText == ""
      ensures timestamp == old(timestamp) && configuration == old(configuration) && mode == old(mode)
    {
      AppendUnseen(batch);
      if labelText == "" {
        UpdateLabel();
      }
    }

    /** `add_messages` as written: the messages are appended, and then, for an empty label,
        `update_label` raises as soon as the conversation holds a user message. */
    method AddMessagesAsWritten(batch: seq<LegacyMessage>) returns (r: Outcome)
      modifies this
      ensures messages == old(messages) + Unseen(Ids(old(messages)), batch)
      ensures labelText == old(labelText)
      ensures r.Fail? <==> old(labelText) == "" && HasUserMessage(messages)
      ensures r.Fail? ==> r.kind == AttributeError
      ensures timestamp == old(timestamp) && configuration == old(configuration) && mode == old(mode)
    {
      AppendUnseen(batch);
      r := Pass;
      if labelText == "" {
        r := UpdateLabelAsWritten();
      }
    }

    /** The merge step of `add_conversation`: the other conversation's messages are added
        without duplicates, and its timestamp and configuration taken over. */
    method MergeFrom(other: ConversationHistory)
      modifies this
      ensures messages == old(messages) + Unseen(Ids(old(messages)), old(other.messages))
      ensures labelText == (if old(labelText) == "" then Relabelled("", messages) else old(labelText))
      ensures timestamp == old(other.timestamp) && configuration == old(other.configuration) && mode == old(mode)
    {
      var batch := other.messages;
      var stamp, config := other.timestamp, other.configuration;
      AddMessages(batch);
      timestamp := stamp;
      configuration := config;
    }
  }

  /** The position of the first conversation with the given id, or the length of the list. */
  function IndexOfId(conversations: seq<ConversationHistory>, id: string): (i: nat)
    ensures i <= |conversations|
    ensures i < |conversations| ==> conversations[i].conversationId == id
    ensures forall j :: 0 <= j < i ==> conversations[j].conversationId != id
    decreases |conversations|
  {
    if |conversations| == 0 then 0
    else if conversations[0].conversationId == id then 0
    else 1 + IndexOfId(conversations[1..], id)
  }

  /** With distinct ids, a listed conversation is the first one with its id. */
  lemma IndexOfMember(conversations: seq<ConversationHistory>, c: ConversationHistory)
    requires forall a, b :: 0 <= a < b < |conversations| ==> conversations[a].conversationId != conversations[b].conversationId
    requires c in conversations
    ensures IndexOfId(conversations, c.conversationId) < |conversations|
    ensures conversations[IndexOfId(conversations, c.conversationId)] == c
  {
    var k :| 0 <= k < |conversations| && conversations[k] == c;
    assert IndexOfId(conversations, c.conversationId) <= k;
  }

  class ConversationFullHistory {
    var conversations: seq<ConversationHistory>

    /** No two conversations share an id (so no conversation is listed twice). */
    predicate Valid()
      reads this
    {
      forall a, b :: 0 <= a < b < |conversations| ==> conversations[a].conversationId != conversations[b].conversationId
    }

    constructor (conversations: seq<ConversationHistory>)
      ensures this.conversations == conversations
    {
      this.conversations := conversations;
    }

    /** `get_conversation_by_id`: the first conversation with that id, or None. */
    method GetConversationById(id: string) returns (r: Option<ConversationHistory>)
      ensures IndexOfId(conversations, id) < |conversations| ==> r == Some(conversations[IndexOfId(conversations, id)])
      ensures r.None? <==> forall c :: c in conversations ==> c.conversationId != id
    {
      var i := 0;
      while i < |conversations|
        invariant 0 <= i <= |conversations| && i <= IndexOfId(conversations, id)
      {
        if conversations[i].conversationId == id {
          return Some(conversations[i]);
        }
        i := i + 1;
      }
      return None;
    }

    /** The merge or append step of `add_conversation`: the conversation is merged into the
        one with the same id (its messages added without duplicates, its timestamp and
        configuration taken over, an empty label set from the merged messages) or, when there
        is none, appended. */
    method MergeOrAppend(incoming: ConversationHistory)
      requires Valid()
      modifies this, set c | c in conversations
      ensures Valid()
      ensures var i := IndexOfId(old(conversations), incoming.conversationId);
              && (i == |old(conversations)| ==> conversations == old(conversations) + [incoming])
              && (i < |old(conversations)| ==>
                    && conversations == old(conversations)
                    && conversations[i].messages == old(conversations[i].messages) +
                                                    Unseen(Ids(old(conversations[i].messages)), old(incoming.messages))
                    && conversations[i].labelText == (if old(conversations[i].labelText) == ""
                                                      then Relabelled("", conversations[i].messages)
                                                      else old(conversations[i].labelText))
                    && conversations[i].mode == old(conversations[i].mode)
                    && conversations[i].timestamp == old(incoming.timestamp)
                    && conversations[i].configuration == old(incoming.configuration))
      ensures forall c :: c in old(conversations) && c.conversationId != incoming.conversationId ==>
                c.messages == old(c.messages) && c.labelText == old(c.labelText) && c.timestamp == old(c.timestamp)
    {
      var found := GetConversationById(incoming.conversationId);
      if found.Some? {
        found.value.MergeFrom(incoming);
      } else {
        conversations := conversations + [incoming];
      }
    }

    /** `add_conversation`: the new conversation's label is set, then it is merged or
        appended. */
    method AddConversation(incoming: ConversationHistory)
      requires Valid()
      modifies this, incoming, set c | c in conversations
      ensures Valid()
      ensures var i := IndexOfId(old(conversations), incoming.conversationId);
              && (i == |old(conversations)| ==> conversations == old(conversations) + [incoming])
              && (i < |old(conversations)| ==>
                    && conversations == old(conversations)
                    && conversations[i].messages == old(conversations[i].messages) +
                                                    Unseen(Ids(old(conversations[i].messages)), old(incoming.messages))
                    && conversations[i].timestamp == old(incoming.timestamp)
                    && conversations[i].configuration == old(incoming.configuration))
      ensures var i := IndexOfId(old(conversations), incoming.conversationId);
              i < |old(conversations)| && old(conversations)[i] != incoming ==>
                conversations[i].labelText == (if old(conversations[i].labelText) == ""
                                               then Relabelled("", conversations[i].messages)
                                               else old(conversations[i].labelText))
      ensures incoming.labelText == Relabelled(old(incoming.labelText), old(incoming.messages))
      ensures incoming.messages == old(incoming.messages) && incoming.mode == old(incoming.mode)
      ensures incoming.timestamp == old(incoming.timestamp) && incoming.configuration == old(incoming.configuration)
      ensures forall c :: c in old(conversations) && c.conversationId != incoming.conversationId ==>
                c.messages == old(c.messages) && c.labelText == old(c.labelText) && c.timestamp == old(c.timestamp)
    {
      ghost var i := IndexOfId(conversations, incoming.conversationId);
      incoming.UpdateLabel();
      ghost var relabelled := incoming.labelText;
      ghost var ms := incoming.messages;
      assert forall c :: c in conversations ==>
               c.messages == old(c.messages) && c.timestamp == old(c.timestamp) &&
               c.configuration == old(c.configuration) && c.mode == old(c.mode);
      assert forall c :: c in conversations && c != incoming ==> c.labelText == old(c.labelText);
      if incoming in conversations {
        // A conversation merged into itself: every message is already there, and the label
        // just set is kept.
        IndexOfMember(conversations, incoming);
        AddingTwiceAddsNothing(Ids(ms), ms);
        RelabelledTwice(old(incoming.labelText), ms);
      }
      MergeOrAppend(incoming);
      if old(incoming in conversations) {
        assert incoming.messages == ms + [] == ms;
      }
    }

    /** `add_conversation` as written. The new conversation's `update_label` raises first when
        it holds a user message, and then nothing changes. Otherwise it is merged or appended
        as intended, except that the merge's `add_messages` raises, after appending, when the
        merged conversation has an empty label and holds a user message; its timestamp and
        configuration are then not updated. */
    method AddConversationAsWritten(incoming: ConversationHistory) returns (r: Outcome)
      requires Valid()
      modifies this, set c | c in conversations
      ensures Valid()
      ensures r.Fail? ==> r.kind == AttributeError
      ensures HasUserMessage(incoming.messages) ==>
                && r.Fail? && conversations == old(conversations)
                && forall c :: c in old(conversations) ==>
                     c.messages == old(c.messages) && c.labelText == old(c.labelText) &&
                     c.timestamp == old(c.timestamp) && c.configuration == old(c.configuration)
      ensures var i := IndexOfId(old(conversations), incoming.conversationId);
              && (!HasUserMessage(incoming.messages) && i == |old(conversations)| ==>
                    r.Pass? && conversations == old(conversations) + [incoming])
              && (!HasUserMessage(incoming.messages) && i < |old(conversations)| ==>
                    && conversations == old(conversations)
                    && conversations[i].messages == old(conversations[i].messages) +
                                                    Unseen(Ids(old(conversations[i].messages)), old(incoming.messages))
                    && conversations[i].labelText == old(conversations[i].labelText)
                    && (r.Fail? <==> old(conversations[i].labelText) == "" && HasUserMessage(conversations[i].messages))
                    && (r.Pass? ==> conversations[i].timestamp == old(incoming.timestamp) &&
                                    conversations[i].configuration == old(incoming.configuration))
                    && (r.Fail? ==> conversations[i].timestamp == old(conversations[i].timestamp) &&
                                    conversations[i].configuration == old(conversations[i].configuration)))
      ensures forall c :: c in old(conversations) && c.conversationId != incoming.conversationId ==>
                c.messages == old(c.messages) && c.labelText == old(c.labelText) && c.timestamp == old(c.timestamp)
    {
      r := incoming.UpdateLabelAsWritten();
      if r.Fail? {
        return;
      }
      var found := GetConversationById(incoming.conversationId);
      if found.Some? {
        var c := found.value;
        var batch := incoming.messages;
        ghost var before := c.messages;
        r := c.AddMessagesAsWritten(batch);
        if c == incoming {
          AddingTwiceAddsNothing(Ids(before), batch);
        }
        if r.Fail? {
          return;
        }
        c.timestamp := incoming.timestamp;
        c.configuration := incoming.configuration;
      } else {
        conversations := conversations + [incoming];
      }
    }
  }
}
