/** The events an agent emits, and `AgentEventList`, the ordered list of them with its queries:
    the latest event of a kind, the events of one response, the events of one agent together
    with those of the sub-agents it calls, and the sub-agent creation of a response. */
module AgentEvents {
  import opened Wrappers
  import opened PyDict
  import opened Seqs

  /** A table handed to or produced by an agent: the resource it was loaded from, if saved,
      its name, and its cells. */
  datatype TableValue = TableValue(modelId: Option<string>, name: string, cells: seq<seq<string>>)

  /** What a successful function call produced. */
  datatype SuccessResult =
    | PlainResult
    | PlotResult(plot: Option<string>)
    | TableResult(tableName: string, table: TableValue)
    | MultiTableResult(tables: Dict<TableValue>)

  /** The arguments of a function call: its string arguments and its list arguments. */
  datatype Arguments = Arguments(strings: map<string, string>, lists: map<string, seq<string>>)

  datatype AgentEvent =
    | TextDelta(delta: string)
    | ResponseCreated(agentId: string, responseId: string)
    | ResponseCompleted(agentId: string, completedId: Option<string>)
    | FunctionCall(agentId: string, responseId: string, callId: string, functionName: string, arguments: Arguments)
    | FunctionSuccess(agentId: string, responseId: string, callId: string, functionResponse: string, result: SuccessResult)
    | FunctionError(agentId: string, responseId: string, errorCallId: Option<string>, message: string)
    | ErrorEvent(message: string, errorType: string)
    | UserQueryTables(agentId: string, query: string, tables: Dict<TableValue>, outputTableNames: Option<seq<string>>)
    | UserQueryTable(agentId: string, query: string, table: TableValue, tableKey: Option<string>)
    | UserQueryTableTransform(agentId: string, query: string, table: TableValue, tableName: Option<string>,
                              outputTableName: Option<string>)
    | CreateSubAgent(agentId: string, responseId: string, subAgentId: string)
    | SubAgentSuccess(agentId: string, responseId: string)
    | ResponseFullText(agentId: string, responseId: string, text: string)

  /** The agent an event names (`agent_id` of response events and user queries). */
  function AgentIdOf(e: AgentEvent): (r: Option<string>)
    ensures r.None? <==> e.TextDelta? || e.ErrorEvent?
  {
    match e
    case TextDelta(_) => None
    case ErrorEvent(_, _) => None
    case _ => Some(e.agentId)
  }

  /** `getattr(event, "response_id", None)`. */
  function ResponseIdOf(e: AgentEvent): (r: Option<string>)
    ensures e.ResponseCompleted? ==> r == e.completedId
    ensures r.Some? ==> !(e.TextDelta? || e.ErrorEvent? || e.UserQueryTables? || e.UserQueryTable? || e.UserQueryTableTransform?)
  {
    match e
    case ResponseCreated(_, id) => Some(id)
    case ResponseCompleted(_, id) => id
    case FunctionCall(_, id, _, _, _) => Some(id)
    case FunctionSuccess(_, id, _, _, _) => Some(id)
    case FunctionError(_, id, _, _) => Some(id)
    case CreateSubAgent(_, id, _) => Some(id)
    case SubAgentSuccess(_, id) => Some(id)
    case ResponseFullText(_, id, _) => Some(id)
    case _ => None
  }

  /** The classes `last_event` can be asked for. */
  datatype EventType = TextDeltaType | ResponseCreatedType | ResponseCompletedType | FunctionCallType
                     | FunctionSuccessType | FunctionErrorType | ErrorType | UserQueryType | CreateSubAgentType
                     | SubAgentSuccessType | ResponseFullTextType

  /** `isinstance(event, t)`; the three user queries share their base class. */
  predicate IsOfType(e: AgentEvent, t: EventType)
  {
    match t
    case TextDeltaType => e.TextDelta?
    case ResponseCreatedType => e.ResponseCreated?
    case ResponseCompletedType => e.ResponseCompleted?
    case FunctionCallType => e.FunctionCall?
    case FunctionSuccessType => e.FunctionSuccess?
    case FunctionErrorType => e.FunctionError?
    case ErrorType => e.ErrorEvent?
    case UserQueryType => e.UserQueryTables? || e.UserQueryTable? || e.UserQueryTableTransform?
    case CreateSubAgentType => e.CreateSubAgent?
    case SubAgentSuccessType => e.SubAgentSuccess?
    case ResponseFullTextType => e.ResponseFullText?
  }

  // ---------------------------------------------------------------- the agent filter

  /** The elements of `xs` where `keep` holds: a subsequence of `xs` by construction. */
  function Select<T>(xs: seq<T>, keep: seq<bool>): (r: seq<T>)
    requires |keep| == |xs|
    ensures |r| <= |xs|
    decreases |xs|
  {
    if |xs| == 0 then []
    else
      var n := |xs| - 1;
      Select(xs[..n], keep[..n]) + (if keep[n] then [xs[n]] else [])
  }

  /** One step of `get_agent_and_sub_agents_events`: whether the event is kept, and the
      responses of the agent still open after it. */
  function ScanStep(active: set<string>, e: AgentEvent, agentId: string): (r: (bool, set<string>))
    ensures e.ResponseCreated? && e.agentId == agentId ==> r == (true, active + {e.responseId})
    ensures !(e.ResponseCreated? && e.agentId == agentId) && e.ResponseCompleted? && e.completedId.Some? && e.completedId.value in active
            ==> r == (true, active - {e.completedId.value})
    ensures !(e.ResponseCreated? && e.agentId == agentId) && !(e.ResponseCompleted? && e.completedId.Some? && e.completedId.value in active)
            ==> r == (active != {} || AgentIdOf(e) == Some(agentId), active)
  {
    if e.ResponseCreated? && e.agentId == agentId then (true, active + {e.responseId})
    else if e.ResponseCompleted? && e.completedId.Some? && e.completedId.value in active then (true, active - {e.completedId.value})
    else (active != {} || AgentIdOf(e) == Some(agentId), active)
  }

  /** The open responses after a prefix of the events. */
  function ActiveAfter(events: seq<AgentEvent>, agentId: string): set<string>
    decreases |events|
  {
    if |events| == 0 then {}
    else ScanStep(ActiveAfter(events[..|events| - 1], agentId), events[|events| - 1], agentId).1
  }

  /** Which events the agent filter keeps. */
  function KeepMask(events: seq<AgentEvent>, agentId: string): (r: seq<bool>)
    ensures |r| == |events|
    decreases |events|
  {
    if |events| == 0 then []
    else
      var n := |events| - 1;
      KeepMask(events[..n], agentId) + [ScanStep(ActiveAfter(events[..n], agentId), events[n], agentId).0]
  }

  /** Scanning one more event: the open responses and the kept events of the longer prefix
      follow from those of the shorter one by one step. */
  lemma ScanSnoc(events: seq<AgentEvent>, agentId: string, i: nat)
    requires i < |events|
    ensures var step := ScanStep(ActiveAfter(events[..i], agentId), events[i], agentId);
            && ActiveAfter(events[..i + 1], agentId) == step.1
            && Select(events[..i + 1], KeepMask(events[..i + 1], agentId)) ==
               Select(events[..i], KeepMask(events[..i], agentId)) + (if step.0 then [events[i]] else [])
  {
    PrefixSnoc(events, i);
  }

  /** The mask of a prefix is the prefix of the mask. */
  lemma {:induction false} KeepMaskPrefix(events: seq<AgentEvent>, agentId: string, k: nat)
    requires k <= |events|
    ensures KeepMask(events[..k], agentId) == KeepMask(events, agentId)[..k]
    decreases |events|
  {
    if k < |events| {
      var n := |events| - 1;
      assert events[..n][..k] == events[..k];
      KeepMaskPrefix(events[..n], agentId, k);
    } else {
      assert events[..k] == events;
    }
  }

  /** Entry i of the mask is the step on event i from the responses open before it. */
  lemma KeepMaskAt(events: seq<AgentEvent>, agentId: string, i: nat)
    requires i < |events|
    ensures KeepMask(events, agentId)[i] == ScanStep(ActiveAfter(events[..i], agentId), events[i], agentId).0
  {
    KeepMaskPrefix(events, agentId, i + 1);
    PrefixSnoc(events, i);
  }

  /** Every event that names the agent is kept. */
  lemma OwnEventsKept(events: seq<AgentEvent>, agentId: string, i: nat)
    requires i < |events| && AgentIdOf(events[i]) == Some(agentId)
    ensures KeepMask(events, agentId)[i]
  {
    KeepMaskAt(events, agentId, i);
  }

  /** Whether the agent's response `rid` is completed at some event strictly between i and j. */
  predicate CompletedBetween(events: seq<AgentEvent>, rid: string, i: nat, j: nat)
    requires i <= j <= |events|
  {
    exists k :: i < k < j && events[k].ResponseCompleted? && events[k].completedId == Some(rid)
  }

  /** A response of the agent stays open until it is completed. */
  lemma {:induction false} OpenUntilCompleted(events: seq<AgentEvent>, agentId: string, i: nat, j: nat)
    requires i < j <= |events|
    requires events[i].ResponseCreated? && events[i].agentId == agentId
    requires !CompletedBetween(events, events[i].responseId, i, j)
    ensures events[i].responseId in ActiveAfter(events[..j], agentId)
    decreases j
  {
    var rid := events[i].responseId;
    assert events[..j][..j - 1] == events[..j - 1];
    if j == i + 1 {
    } else {
      assert !CompletedBetween(events, rid, i, j - 1);
      OpenUntilCompleted(events, agentId, i, j - 1);
      assert !(events[j - 1].ResponseCompleted? && events[j - 1].completedId == Some(rid));
    }
  }

  /** Every event from a response the agent created up to its completion is kept, whichever
      agent emitted it: the events of sub-agents called during the response come along. */
  lemma EventsOfOpenResponseKept(events: seq<AgentEvent>, agentId: string, i: nat, j: nat)
    requires i < j < |events|
    requires events[i].ResponseCreated? && events[i].agentId == agentId
    requires !CompletedBetween(events, events[i].responseId, i, j)
    ensures KeepMask(events, agentId)[j]
  {
    OpenUntilCompleted(events, agentId, i, j);
    KeepMaskAt(events, agentId, j);
  }

  /** Outside the agent's open responses, an event of another agent is dropped. */
  lemma OtherEventsOutsideDropped(events: seq<AgentEvent>, agentId: string, i: nat)
    requires i < |events| && ActiveAfter(events[..i], agentId) == {} && AgentIdOf(events[i]) != Some(agentId)
    ensures !KeepMask(events, agentId)[i]
  {
    KeepMaskAt(events, agentId, i);
  }

  // ---------------------------------------------------------------- the list

  class AgentEventList {
    var events: seq<AgentEvent>

    /** `AgentEventList(events)`: the given list, or an empty one. */
    constructor (initial: Option<seq<AgentEvent>>)
      ensures events == initial.GetOr([])
    {
      events := initial.GetOr([]);
    }

    /** `append`: one event at the end, the others unchanged. */
    method Append(e: AgentEvent)
      modifies this
      ensures events == old(events) + [e]
    {
      events := events + [e];
    }

    /** `last_event`: the latest event of the type, or None when there is none. */
    method LastEvent(t: EventType) returns (r: Option<AgentEvent>)
      ensures r.None? <==> forall i :: 0 <= i < |events| ==> !IsOfType(events[i], t)
      ensures r.Some? ==> exists i :: 0 <= i < |events| && events[i] == r.value && IsOfType(r.value, t) &&
                                      forall j :: i < j < |events| ==> !IsOfType(events[j], t)
    {
      var i := |events|;
      while i > 0
        invariant 0 <= i <= |events|
        invariant forall j :: i <= j < |events| ==> !IsOfType(events[j], t)
      {
        i := i - 1;
        if IsOfType(events[i], t) {
          return Some(events[i]);
        }
      }
      r := None;
    }

    /** `get_events_by_response_id`: the events of the response, in order. */
    method GetEventsByResponseId(responseId: string) returns (r: seq<AgentEvent>)
      ensures r == Filter(events, (e: AgentEvent) => ResponseIdOf(e) == Some(responseId))
      ensures forall e :: e in r <==> e in events && ResponseIdOf(e) == Some(responseId)
    {
      var p := (e: AgentEvent) => ResponseIdOf(e) == Some(responseId);
      r := [];
      var i := 0;
      while i < |events|
        invariant 0 <= i <= |events|
        invariant r == Filter(events[..i], p)
      {
        FilterSnoc(events, p, i);
        if ResponseIdOf(events[i]) == Some(responseId) {
          r := r + [events[i]];
        }
        i := i + 1;
      }
      assert events[..i] == events;
      forall e
        ensures e in r <==> e in events && ResponseIdOf(e) == Some(responseId)
      {
        FilterMembers(events, p, e);
      }
    }

    /** `get_agent_and_sub_agents_events`: the events the agent filter keeps, in order. */
    method GetAgentAndSubAgentsEvents(agentId: string) returns (r: seq<AgentEvent>)
      ensures r == Select(events, KeepMask(events, agentId))
    {
      r := [];
      var active: set<string> := {};
      var i := 0;
      while i < |events|
        invariant 0 <= i <= |events|
        invariant active == ActiveAfter(events[..i], agentId)
        invariant r == Select(events[..i], KeepMask(events[..i], agentId))
      {
        var e := events[i];
        ScanSnoc(events, agentId, i);
        ghost var step := ScanStep(active, e, agentId);
        ghost var r0 := r;
        if e.ResponseCreated? && e.agentId == agentId {
          assert step == (true, active + {e.responseId});
          active := active + {e.responseId};
          r := r + [e];
        } else if e.ResponseCompleted? && e.completedId.Some? && e.completedId.value in active {
          assert step == (true, active - {e.completedId.value});
          r := r + [e];
          active := active - {e.completedId.value};
        } else if |active| > 0 {
          assert step == (true, active);
          r := r + [e];
        } else if AgentIdOf(e) == Some(agentId) {
          assert step == (true, active);
          r := r + [e];
        } else {
          assert step == (false, active);
        }
        assert active == step.1 && r == r0 + (if step.0 then [e] else []);
        i := i + 1;
      }
      assert events[..i] == events;
    }

    /** `find_create_sub_agent_event`: the first sub-agent creation of the response, or None. */
    method FindCreateSubAgentEvent(responseId: string) returns (r: Option<AgentEvent>)
      ensures r.None? <==> forall i :: 0 <= i < |events| ==> !(events[i].CreateSubAgent? && events[i].responseId == responseId)
      ensures r.Some? ==> exists i :: 0 <= i < |events| && events[i] == r.value && r.value.CreateSubAgent? &&
                                      r.value.responseId == responseId &&
                                      forall j :: 0 <= j < i ==> !(events[j].CreateSubAgent? && events[j].responseId == responseId)
    {
      var i := 0;
      while i < |events|
        invariant 0 <= i <= |events|
        invariant forall j :: 0 <= j < i ==> !(events[j].CreateSubAgent? && events[j].responseId == responseId)
      {
        if events[i].CreateSubAgent? && events[i].responseId == responseId {
          return Some(events[i]);
        }
        i := i + 1;
      }
      r := None;
    }
  }
}
