/** `TableAgentAi`, the main table agent, and `TableAgentAiService`: the dispatch of the
    model's function calls to the plot, transform and multi-table sub-agents, the tables and
    plots read back from the agent's events, and the conversion of those events for replay.
    The sub-agents themselves are not modelled: a dispatch ends with the query it would hand
    them. */
module TableAgent {
  import opened Wrappers
  import opened PyText
  import opened PyDict
  import opened Seqs
  import opened AgentEvents
  import opened TableAgentEvents

  // ---------------------------------------------------------------- dispatch

  /** The outcome of `_handle_function_call`: an error event, or the query handed to the
      sub-agent that `call_sub_agent` would run. */
  datatype Handled = Failed(error: AgentEvent) | Delegated(subQuery: AgentEvent)

  predicate IsUserQuery(e: AgentEvent)
  {
    e.UserQueryTables? || e.UserQueryTable? || e.UserQueryTableTransform?
  }

  /** `arguments.get(key, "")` and `arguments.get(key, [])`. */
  function GetString(args: Arguments, key: string): string
  {
    if key in args.strings then args.strings[key] else ""
  }

  function GetList(args: Arguments, key: string): seq<string>
  {
    if key in args.lists then args.lists[key] else []
  }

  /** A `FunctionErrorEvent` answering the call. */
  function CallError(agentId: string, call: AgentEvent, message: string): (r: AgentEvent)
    requires call.FunctionCall?
    ensures r.FunctionError? && r.errorCallId == Some(call.callId) && r.responseId == call.responseId
    ensures r.agentId == agentId && r.message == message
  {
    FunctionError(agentId, call.responseId, Some(call.callId), message)
  }

  /** The outcome of the dictionary comprehension of the multi-table request: the tables
      looked up name by name, or the message of the first lookup that raises. */
  datatype Collected = CollectedTables(tables: Dict<TableValue>) | CollectFailed(message: string)

  /** `{name: user_query.get_and_check_table(name) for name in table_names}`: each name is a
      key, bound to the table found under its stripped form. */
  function CollectTables(names: seq<string>, tables: Dict<TableValue>): (r: Collected)
    ensures r.CollectedTables? <==> forall n :: n in names ==> GetAndCheckTable(tables, n).Found?
    ensures r.CollectedTables? ==> Valid(r.tables)
    ensures r.CollectedTables? ==> forall k :: k in r.tables.entries <==> k in names
    ensures r.CollectedTables? ==> forall k :: k in r.tables.entries ==> r.tables.entries[k] == GetAndCheckTable(tables, k).table
    decreases |names|
  {
    if |names| == 0 then CollectedTables(Empty())
    else
      var n := |names| - 1;
      assert forall k :: k in names <==> k in names[..n] || k == names[n];
      match CollectTables(names[..n], tables)
      case CollectFailed(m) => CollectFailed(m)
      case CollectedTables(d) =>
        match GetAndCheckTable(tables, names[n])
        case NotFound(m) => CollectFailed(m)
        case Found(t) => CollectedTables(Put(d, names[n], t))
  }

  /** Collecting one more name, new and found, appends it. */
  lemma CollectSnoc(init: seq<string>, k: string, tables: Dict<TableValue>)
    requires CollectTables(init, tables).CollectedTables? && CollectTables(init, tables).tables.keys == init
    requires k !in init && GetAndCheckTable(tables, k).Found?
    ensures CollectTables(init + [k], tables).CollectedTables?
    ensures CollectTables(init + [k], tables).tables.keys == init + [k]
  {
    var names := init + [k];
    assert names[..|init|] == init;
    assert k !in CollectTables(init, tables).tables.entries;
  }

  /** With distinct names that are all found, the collected tables keep the order of the
      names. */
  lemma {:induction false} CollectTablesInOrder(names: seq<string>, tables: Dict<TableValue>)
    requires forall i, j :: 0 <= i < j < |names| ==> names[i] != names[j]
    requires forall n :: n in names ==> GetAndCheckTable(tables, n).Found?
    ensures CollectTables(names, tables).tables.keys == names
    decreases |names|
  {
    if |names| > 0 {
      var n := |names| - 1;
      var init := names[..n];
      DistinctPrefix(names, n);
      PrefixMembers(names, n);
      CollectTablesInOrder(init, tables);
      LastIsNew(names);
      CollectSnoc(init, names[n], tables);
      InitLast(names);
    }
  }

  /** `_handle_plot_request`: the named table is looked up; its error message is the
      function error. */
  function HandlePlot(agentId: string, call: AgentEvent, request: string, userQuery: AgentEvent, subAgentId: string): (r: Handled)
    requires call.FunctionCall? && userQuery.UserQueryTables?
    ensures r.Failed? ==> r.error.FunctionError? && r.error == CallError(agentId, call, r.error.message)
    ensures r.Delegated? ==> IsUserQuery(r.subQuery) && AgentIdOf(r.subQuery) == Some(subAgentId) && r.subQuery.query == request
  {
    match GetAndCheckTable(userQuery.tables, GetString(call.arguments, "table_name"))
    case NotFound(m) => Failed(CallError(agentId, call, m))
    case Found(t) => Delegated(UserQueryTable(subAgentId, request, t, None))
  }

  /** `_handle_transform_request`: the table is looked up, then the output name must not be
      blank. The sub-query keeps the table name as the model gave it. */
  function HandleTransform(agentId: string, call: AgentEvent, request: string, userQuery: AgentEvent, subAgentId: string): (r: Handled)
    requires call.FunctionCall? && userQuery.UserQueryTables?
    ensures r.Failed? ==> r.error.FunctionError? && r.error == CallError(agentId, call, r.error.message)
    ensures r.Delegated? ==> IsUserQuery(r.subQuery) && AgentIdOf(r.subQuery) == Some(subAgentId) && r.subQuery.query == request
  {
    var name := GetString(call.arguments, "table_name");
    match GetAndCheckTable(userQuery.tables, name)
    case NotFound(m) => Failed(CallError(agentId, call, m))
    case Found(t) =>
      var output := GetString(call.arguments, "output_table_name");
      if IsBlank(output) then Failed(CallError(agentId, call, "No output_table_name provided in function arguments."))
      else Delegated(UserQueryTableTransform(subAgentId, request, t, Some(name), Some(output)))
  }

  /** The test "the name is not a key of the tables". */
  function Missing(tables: Dict<TableValue>): string -> bool
  {
    n => n !in tables.entries
  }

  /** No name is missing exactly when every name is a key. */
  lemma NoneMissing(names: seq<string>, tables: Dict<TableValue>)
    ensures |Filter(names, Missing(tables))| == 0 <==> forall n :: n in names ==> n in tables.entries
  {
    var missing := Filter(names, Missing(tables));
    forall n | n in names
      ensures n in missing <==> n !in tables.entries
    {
      FilterMembers(names, Missing(tables), n);
    }
    if |missing| > 0 {
      FilterMembers(names, Missing(tables), missing[0]);
    }
  }

  /** A request for several tables is handed on exactly when both lists are non-empty and
      every name is a key that is found. */
  lemma MultiTableDelegated(agentId: string, call: AgentEvent, request: string, userQuery: AgentEvent, subAgentId: string)
    requires call.FunctionCall? && userQuery.UserQueryTables?
    ensures var names := GetList(call.arguments, "table_names");
            HandleMultiTable(agentId, call, request, userQuery, subAgentId).Delegated? <==>
              && |names| > 0 && |GetList(call.arguments, "output_table_names")| > 0
              && (forall n :: n in names ==> n in userQuery.tables.entries)
              && (forall n :: n in names ==> GetAndCheckTable(userQuery.tables, n).Found?)
  {
    NoneMissing(GetList(call.arguments, "table_names"), userQuery.tables);
  }

  /** `_handle_multi_table_transform_request`: both lists must be non-empty, every name must
      be a key as given, and a lookup that still raises surfaces through the handler's
      `except` clause. */
  function HandleMultiTable(agentId: string, call: AgentEvent, request: string, userQuery: AgentEvent, subAgentId: string): (r: Handled)
    requires call.FunctionCall? && userQuery.UserQueryTables?
    ensures r.Failed? ==> r.error.FunctionError? && r.error == CallError(agentId, call, r.error.message)
    ensures r.Delegated? ==> IsUserQuery(r.subQuery) && AgentIdOf(r.subQuery) == Some(subAgentId) && r.subQuery.query == request
  {
    var names := GetList(call.arguments, "table_names");
    var outputs := GetList(call.arguments, "output_table_names");
    var tables := userQuery.tables;
    if |names| == 0 then Failed(CallError(agentId, call, "No table_names provided in function arguments."))
    else if |outputs| == 0 then Failed(CallError(agentId, call, "No output_table_names provided in function arguments."))
    else
      var missing := Filter(names, Missing(tables));
      if |missing| > 0 then
        Failed(CallError(agentId, call, "Tables not found: " + JoinWith(missing, ", ") + ". Available tables: " + JoinWith(tables.keys, ", ")))
      else
        FromCollected(agentId, call, request, CollectTables(names, tables), outputs, subAgentId)
  }

  /** The end of the multi-table request: the collected tables go to the sub-agent, a lookup
      that raised becomes the handler's error. */
  function FromCollected(agentId: string, call: AgentEvent, request: string, c: Collected, outputs: seq<string>, subAgentId: string): (r: Handled)
    requires call.FunctionCall?
    ensures r.Failed? ==> r.error.FunctionError? && r.error == CallError(agentId, call, r.error.message)
    ensures r.Delegated? <==> c.CollectedTables?
    ensures r.Delegated? ==> r.subQuery == UserQueryTables(subAgentId, request, c.tables, Some(outputs))
    ensures r.Delegated? ==> IsUserQuery(r.subQuery) && AgentIdOf(r.subQuery) == Some(subAgentId) && r.subQuery.query == request
  {
    match c
    case CollectFailed(m) => Failed(CallError(agentId, call, "Error handling transform_multiple_tables: " + m))
    case CollectedTables(d) => Delegated(UserQueryTables(subAgentId, request, d, Some(outputs)))
  }

  /** `_handle_function_call`: a blank user request and an unknown function name are errors;
      the three functions are dispatched by name. */
  function HandleFunctionCall(agentId: string, call: AgentEvent, userQuery: AgentEvent, subAgentId: string): (r: Handled)
    requires call.FunctionCall? && userQuery.UserQueryTables?
    ensures r.Failed? ==> r.error.FunctionError? && r.error.agentId == agentId
                          && r.error.errorCallId == Some(call.callId) && r.error.responseId == call.responseId
    ensures IsBlank(GetString(call.arguments, "user_request")) ==>
              r == Failed(CallError(agentId, call, "No user request provided in function arguments."))
    ensures !IsBlank(GetString(call.arguments, "user_request"))
            && call.functionName !in {"generate_plot", "transform_table", "transform_multiple_tables"} ==>
              r == Failed(CallError(agentId, call, "Unknown function: " + call.functionName))
    ensures r.Delegated? ==> IsUserQuery(r.subQuery) && AgentIdOf(r.subQuery) == Some(subAgentId)
                             && r.subQuery.query == GetString(call.arguments, "user_request")
  {
    var request := GetString(call.arguments, "user_request");
    if IsBlank(request) then Failed(CallError(agentId, call, "No user request provided in function arguments."))
    else if call.functionName == "generate_plot" then HandlePlot(agentId, call, request, userQuery, subAgentId)
    else if call.functionName == "transform_table" then HandleTransform(agentId, call, request, userQuery, subAgentId)
    else if call.functionName == "transform_multiple_tables" then HandleMultiTable(agentId, call, request, userQuery, subAgentId)
    else Failed(CallError(agentId, call, "Unknown function: " + call.functionName))
  }

  /** A call is handed to a sub-agent exactly when its request is not blank and its checks
      pass: for a plot the table exists, for a transform the table exists and the output name
      is not blank, for several tables both lists are non-empty and every name is found. */
  lemma DelegatedExactly(agentId: string, call: AgentEvent, userQuery: AgentEvent, subAgentId: string)
    requires call.FunctionCall? && userQuery.UserQueryTables?
    ensures var args := call.arguments;
            var tables := userQuery.tables;
            var names := GetList(args, "table_names");
            HandleFunctionCall(agentId, call, userQuery, subAgentId).Delegated? <==>
              && !IsBlank(GetString(args, "user_request"))
              && (|| (call.functionName == "generate_plot" && GetAndCheckTable(tables, GetString(args, "table_name")).Found?)
                  || (call.functionName == "transform_table" && GetAndCheckTable(tables, GetString(args, "table_name")).Found?
                      && !IsBlank(GetString(args, "output_table_name")))
                  || (call.functionName == "transform_multiple_tables" && |names| > 0
                      && |GetList(args, "output_table_names")| > 0
                      && (forall n :: n in names ==> n in tables.entries)
                      && (forall n :: n in names ==> GetAndCheckTable(tables, n).Found?)))
  {
    if call.functionName == "transform_multiple_tables" {
      MultiTableDelegated(agentId, call, GetString(call.arguments, "user_request"), userQuery, subAgentId);
    }
  }

  // ---------------------------------------------------------------- tables and plots read back

  /** Every dictionary an event holds has distinct keys that are exactly its map's keys. */
  predicate WellFormedEvent(e: AgentEvent)
  {
    && (e.UserQueryTables? ==> Valid(e.tables))
    && (e.FunctionSuccess? && e.result.MultiTableResult? ==> Valid(e.result.tables))
  }

  predicate WellFormed(events: seq<AgentEvent>)
  {
    forall i :: 0 <= i < |events| ==> WellFormedEvent(events[i])
  }

  /** The keys among `keys` that are not excluded, set in order to their value in `m`. */
  function PutAll(d: Dict<TableValue>, keys: seq<string>, m: map<string, TableValue>, excluded: set<string>): (r: Dict<TableValue>)
    requires Valid(d) && forall k :: k in keys ==> k in m
    ensures Valid(r)
    ensures forall k :: k in r.entries <==> k in d.entries || (k in keys && k !in excluded)
    ensures forall k :: k in r.entries ==> r.entries[k] == if k in keys && k !in excluded then m[k] else d.entries[k]
    decreases |keys|
  {
    if |keys| == 0 then d
    else
      var n := |keys| - 1;
      assert forall k :: k in keys <==> k in keys[..n] || k == keys[n];
      var before := PutAll(d, keys[..n], m, excluded);
      if keys[n] in excluded then before else Put(before, keys[n], m[keys[n]])
  }

  /** The event produced the table named `k`: a single transform output, or one of the
      outputs of a multi-table transform. */
  predicate Writes(e: AgentEvent, k: string)
  {
    e.FunctionSuccess? && ((e.result.TableResult? && e.result.tableName == k)
                           || (e.result.MultiTableResult? && k in e.result.tables.entries))
  }

  function Written(e: AgentEvent, k: string): TableValue
    requires Writes(e, k)
  {
    if e.result.TableResult? then e.result.table else e.result.tables.entries[k]
  }

  /** The output tables after one more event. */
  function RecordOutput(d: Dict<TableValue>, e: AgentEvent): (r: Dict<TableValue>)
    requires Valid(d) && WellFormedEvent(e)
    ensures Valid(r)
    ensures forall k :: k in r.entries <==> k in d.entries || Writes(e, k)
    ensures forall k :: k in r.entries ==> r.entries[k] == if Writes(e, k) then Written(e, k) else d.entries[k]
  {
    if e.FunctionSuccess? && e.result.TableResult? then Put(d, e.result.tableName, e.result.table)
    else if e.FunctionSuccess? && e.result.MultiTableResult? then
      PutAll(d, e.result.tables.keys, e.result.tables.entries, {})
    else d
  }

  /** `get_output_tables`: every output table of the events, by name. */
  function OutputTables(events: seq<AgentEvent>): (r: Dict<TableValue>)
    requires WellFormed(events)
    ensures Valid(r)
    decreases |events|
  {
    if |events| == 0 then Empty()
    else RecordOutput(OutputTables(events[..|events| - 1]), events[|events| - 1])
  }

  /** Some event produced the table named `k`. */
  predicate Produced(events: seq<AgentEvent>, k: string)
  {
    exists i :: 0 <= i < |events| && Writes(events[i], k)
  }

  lemma ProducedSnoc(events: seq<AgentEvent>, k: string)
    requires |events| > 0
    ensures Produced(events, k) <==> Produced(events[..|events| - 1], k) || Writes(events[|events| - 1], k)
  {
    var n := |events| - 1;
    if Produced(events[..n], k) {
      var i :| 0 <= i < n && Writes(events[..n][i], k);
      assert Writes(events[i], k);
    }
    if Produced(events, k) {
      var i :| 0 <= i < |events| && Writes(events[i], k);
      if i < n {
        assert Writes(events[..n][i], k);
      }
    }
  }

  /** A name is an output table exactly when some event produced it. */
  lemma {:induction false} OutputTablesNames(events: seq<AgentEvent>, k: string)
    requires WellFormed(events)
    ensures k in OutputTables(events).entries <==> Produced(events, k)
    decreases |events|
  {
    if |events| > 0 {
      var n := |events| - 1;
      WellFormedPrefix(events, n);
      OutputTablesNames(events[..n], k);
      ProducedSnoc(events, k);
    }
  }

  /** A prefix of well-formed events is well formed. */
  lemma WellFormedPrefix(events: seq<AgentEvent>, n: nat)
    requires WellFormed(events) && n <= |events|
    ensures WellFormed(events[..n])
  {
    assert forall j :: 0 <= j < n ==> events[..n][j] == events[j];
  }

  /** The output tables of non-empty events: those of the prefix, with the last event's
      outputs recorded. */
  lemma OutputStep(events: seq<AgentEvent>)
    requires WellFormed(events) && |events| > 0
    ensures WellFormed(events[..|events| - 1])
    ensures OutputTables(events) == RecordOutput(OutputTables(events[..|events| - 1]), events[|events| - 1])
  {
    WellFormedPrefix(events, |events| - 1);
  }

  /** The last producer of a name before the end is the last producer in the prefix too. */
  lemma LastWriterInPrefix(events: seq<AgentEvent>, prefix: seq<AgentEvent>, k: string, i: nat)
    requires |events| > 0 && prefix == events[..|events| - 1]
    requires i < |prefix| && Writes(events[i], k)
    requires forall j :: i < j < |events| ==> !Writes(events[j], k)
    ensures Writes(prefix[i], k)
    ensures forall j :: i < j < |prefix| ==> !Writes(prefix[j], k)
    ensures !Writes(events[|events| - 1], k)
  {
    assert forall j :: 0 <= j < |prefix| ==> prefix[j] == events[j];
  }

  /** A later event that produces a name overwrites an earlier one: the table under a name is
      the one its last producer gave. */
  lemma {:induction false} LastOutputWins(events: seq<AgentEvent>, k: string, i: nat)
    requires WellFormed(events) && i < |events| && Writes(events[i], k)
    requires forall j :: i < j < |events| ==> !Writes(events[j], k)
    ensures k in OutputTables(events).entries && OutputTables(events).entries[k] == Written(events[i], k)
    decreases |events|
  {
    var n := |events| - 1;
    OutputStep(events);
    if i < n {
      LastWriterInPrefix(events, events[..n], k, i);
      LastOutputWins(events[..n], k, i);
    }
  }

  /** The tables the agent's own queries brought in, except output names. */
  function RecordInput(d: Dict<TableValue>, e: AgentEvent, agentId: string, outputs: set<string>): (r: Dict<TableValue>)
    requires Valid(d) && WellFormedEvent(e)
    ensures Valid(r)
  {
    if e.UserQueryTables? && e.agentId == agentId then PutAll(d, e.tables.keys, e.tables.entries, outputs) else d
  }

  /** `get_input_tables`, with the output names given. */
  function InputTables(events: seq<AgentEvent>, agentId: string, outputs: set<string>): (r: Dict<TableValue>)
    requires WellFormed(events)
    ensures Valid(r)
    decreases |events|
  {
    if |events| == 0 then Empty()
    else RecordInput(InputTables(events[..|events| - 1], agentId, outputs), events[|events| - 1], agentId, outputs)
  }

  /** The event is a query of the agent that brought in the table `k`. */
  predicate BringsIn(e: AgentEvent, agentId: string, k: string)
  {
    e.UserQueryTables? && e.agentId == agentId && k in e.tables.entries
  }

  /** One of the agent's own queries brought in the table `k`. */
  predicate BroughtIn(events: seq<AgentEvent>, agentId: string, k: string)
  {
    exists i :: 0 <= i < |events| && BringsIn(events[i], agentId, k)
  }

  lemma BroughtInSnoc(events: seq<AgentEvent>, agentId: string, k: string)
    requires |events| > 0
    ensures BroughtIn(events, agentId, k) <==> BroughtIn(events[..|events| - 1], agentId, k) || BringsIn(events[|events| - 1], agentId, k)
  {
    var n := |events| - 1;
    if BroughtIn(events[..n], agentId, k) {
      var i :| 0 <= i < n && BringsIn(events[..n][i], agentId, k);
      assert BringsIn(events[i], agentId, k);
    }
    if BroughtIn(events, agentId, k) {
      var i :| 0 <= i < |events| && BringsIn(events[i], agentId, k);
      if i < n {
        assert BringsIn(events[..n][i], agentId, k);
      }
    }
  }

  /** One event of `get_input_tables`: a name is an input afterwards when it was before or the
      event brought it in and it is not an output. */
  lemma RecordInputHas(d: Dict<TableValue>, e: AgentEvent, agentId: string, outputs: set<string>, k: string)
    requires Valid(d) && WellFormedEvent(e)
    ensures k in RecordInput(d, e, agentId, outputs).entries <==> k in d.entries || (k !in outputs && BringsIn(e, agentId, k))
  {
    if e.UserQueryTables? && e.agentId == agentId {
      assert k in e.tables.entries <==> k in e.tables.keys;
    }
  }

  /** An input table is a table of one of the agent's own queries that is not an output. */
  lemma {:induction false} InputTablesNames(events: seq<AgentEvent>, agentId: string, outputs: set<string>, k: string)
    requires WellFormed(events)
    ensures k in InputTables(events, agentId, outputs).entries <==> k !in outputs && BroughtIn(events, agentId, k)
    decreases |events|
  {
    if |events| > 0 {
      var n := |events| - 1;
      var e := events[n];
      WellFormedPrefix(events, n);
      InputTablesNames(events[..n], agentId, outputs, k);
      BroughtInSnoc(events, agentId, k);
      RecordInputHas(InputTables(events[..n], agentId, outputs), e, agentId, outputs, k);
    }
  }

  /** A generated plot: a success whose result is a plot. */
  predicate IsPlot(e: AgentEvent)
  {
    e.FunctionSuccess? && e.result.PlotResult?
  }

  /** The plots of the events, in order. */
  function PlotsOf(events: seq<AgentEvent>): (r: seq<Option<string>>)
    ensures |r| <= |events|
    decreases |events|
  {
    if |events| == 0 then []
    else
      var n := |events| - 1;
      PlotsOf(events[..n]) + (if IsPlot(events[n]) then [events[n].result.plot] else [])
  }

  /** The key of the i-th plot. */
  function PlotKey(i: nat): string
  {
    "plot_" + NatToString(i)
  }

  /** Distinct plots get distinct keys. */
  lemma PlotKeyInjective(i: nat, j: nat)
    ensures PlotKey(i) == PlotKey(j) ==> i == j
  {
    PrefixedNatInjective("plot_", i, j);
  }

  /** The dictionary holds `items` in order under key(0), key(1), ... */
  predicate Numbered<V(==)>(d: Dict<V>, items: seq<V>, key: nat -> string)
  {
    && Valid(d) && |d.keys| == |items|
    && (forall j :: 0 <= j < |items| ==> d.keys[j] == key(j))
    && (forall j :: 0 <= j < |items| ==> key(j) in d.entries && d.entries[key(j)] == items[j])
  }

  /** Under an injective numbering the next key is new, so the next item goes after the others. */
  lemma NumberedSnoc<V>(d: Dict<V>, items: seq<V>, item: V, key: nat -> string)
    requires Numbered(d, items, key)
    requires forall i, j :: key(i) == key(j) ==> i == j
    ensures Numbered(Put(d, key(|items|), item), items + [item], key)
  {
    var n := |items|;
    assert key(n) !in d.entries;
    var r := Put(d, key(n), item);
    assert r.keys == d.keys + [key(n)];
    forall j | 0 <= j < n
      ensures r.entries[key(j)] == items[j]
    {
      assert key(j) != key(n);
    }
  }

  /** The dictionary holds the plots in order under plot_0, plot_1, ... */
  predicate PlotsDict(d: Dict<Option<string>>, plots: seq<Option<string>>)
  {
    Numbered(d, plots, PlotKey)
  }

  /** The next plot key is new, so the next plot is added after the others. */
  lemma AddPlot(d: Dict<Option<string>>, plots: seq<Option<string>>, plot: Option<string>)
    requires PlotsDict(d, plots)
    ensures PlotsDict(Put(d, PlotKey(|plots|), plot), plots + [plot])
  {
    forall i: nat, j: nat
      ensures PlotKey(i) == PlotKey(j) ==> i == j
    {
      PlotKeyInjective(i, j);
    }
    NumberedSnoc(d, plots, plot, PlotKey);
  }

  /** One event of `get_output_plots`: a plot is added under the next key, anything else
      leaves the plots as they are. */
  lemma PlotsStep(d: Dict<Option<string>>, events: seq<AgentEvent>, i: nat)
    requires i < |events| && PlotsDict(d, PlotsOf(events[..i]))
    ensures var plots := PlotsOf(events[..i]);
            && (IsPlot(events[i]) ==> PlotsDict(Put(d, PlotKey(|plots|), events[i].result.plot), PlotsOf(events[..i + 1]))
                                      && |PlotsOf(events[..i + 1])| == |plots| + 1)
            && (!IsPlot(events[i]) ==> PlotsOf(events[..i + 1]) == plots)
  {
    PrefixSnoc(events, i);
    if IsPlot(events[i]) {
      AddPlot(d, PlotsOf(events[..i]), events[i].result.plot);
    }
  }

  /** `for key, table in tables.items(): if key not in excluded: d[key] = table`. */
  method PutEach(d: Dict<TableValue>, tables: Dict<TableValue>, excluded: set<string>) returns (r: Dict<TableValue>)
    requires Valid(d) && Valid(tables)
    ensures r == PutAll(d, tables.keys, tables.entries, excluded)
  {
    r := d;
    var j := 0;
    while j < |tables.keys|
      invariant 0 <= j <= |tables.keys|
      invariant r == PutAll(d, tables.keys[..j], tables.entries, excluded)
    {
      PrefixSnoc(tables.keys, j);
      if tables.keys[j] !in excluded {
        r := Put(r, tables.keys[j], tables.entries[tables.keys[j]]);
      }
      j := j + 1;
    }
    assert tables.keys[..j] == tables.keys;
  }

  // ---------------------------------------------------------------- the agent

  class TableAgentAi {
    /** The agent's id, stamped on its own events. */
    const id: string
    /** `_event_list`: every event of the agent and of its sub-agents. */
    const eventList: AgentEventList

    constructor (id: string, eventList: AgentEventList)
      ensures this.id == id && this.eventList == eventList
    {
      this.id := id;
      this.eventList := eventList;
    }

    /** `get_output_tables`. */
    method GetOutputTables() returns (r: Dict<TableValue>)
      requires WellFormed(eventList.events)
      ensures r == OutputTables(eventList.events)
    {
      var events := eventList.events;
      r := Empty();
      var i := 0;
      while i < |events|
        invariant 0 <= i <= |events|
        invariant r == OutputTables(events[..i])
      {
        PrefixSnoc(events, i);
        var e := events[i];
        if e.FunctionSuccess? && e.result.TableResult? {
          r := Put(r, e.result.tableName, e.result.table);
        }
        if e.FunctionSuccess? && e.result.MultiTableResult? {
          r := PutEach(r, e.result.tables, {});
        }
        i := i + 1;
      }
      assert events[..i] == events;
    }

    /** `get_output_plots`: the plots keyed plot_0, plot_1, ... in the order of the events. */
    method GetOutputPlots() returns (r: Dict<Option<string>>)
      ensures PlotsDict(r, PlotsOf(eventList.events))
    {
      var events := eventList.events;
      r := Empty();
      var counter := 0;
      var i := 0;
      while i < |events|
        invariant 0 <= i <= |events|
        invariant PlotsDict(r, PlotsOf(events[..i]))
        invariant counter == |PlotsOf(events[..i])|
      {
        PlotsStep(r, events, i);
        if IsPlot(events[i]) {
          r := Put(r, PlotKey(counter), events[i].result.plot);
          counter := counter + 1;
        }
        i := i + 1;
      }
      assert events[..i] == events;
    }

    /** `get_input_tables`. */
    method GetInputTables() returns (r: Dict<TableValue>)
      requires WellFormed(eventList.events)
      ensures r == InputTables(eventList.events, id, OutputTables(eventList.events).entries.Keys)
    {
      var outputTables := GetOutputTables();
      var outputs := outputTables.entries.Keys;
      var events := eventList.events;
      r := Empty();
      var i := 0;
      while i < |events|
        invariant 0 <= i <= |events|
        invariant r == InputTables(events[..i], id, outputs)
      {
        PrefixSnoc(events, i);
        var e := events[i];
        if e.UserQueryTables? && e.agentId == id {
          r := PutEach(r, e.tables, outputs);
        }
        i := i + 1;
      }
      assert events[..i] == events;
    }
  }

  // ---------------------------------------------------------------- the service

  /** An entry of the serialized events: a converted user query, or an event kept as is. */
  datatype SerializedEvent = SerializedQuery(query: SerializableQuery) | KeptEvent(event: AgentEvent)

  /** The main agent's multi-table queries are converted; function calls, full texts and
      sub-agent creations and successes are kept; everything else is dropped. */
  predicate Serializable(e: AgentEvent, mainId: string)
  {
    (e.UserQueryTables? && e.agentId == mainId) || e.FunctionCall? || e.ResponseFullText? || e.CreateSubAgent? || e.SubAgentSuccess?
  }

  function Serialize(e: AgentEvent, mainId: string): SerializedEvent
  {
    if e.UserQueryTables? && e.agentId == mainId then SerializedQuery(MultiToSerializable(e)) else KeptEvent(e)
  }

  /** The loop of `serialize_events` over a list of events. */
  function SerializedOf(events: seq<AgentEvent>, mainId: string): (r: seq<SerializedEvent>)
    decreases |events|
  {
    if |events| == 0 then []
    else
      var n := |events| - 1;
      SerializedOf(events[..n], mainId) + (if Serializable(events[n], mainId) then [Serialize(events[n], mainId)] else [])
  }

  /** The serialized events are the serializable events, in order, each converted. */
  lemma {:induction false} SerializedIsFilterThenConvert(events: seq<AgentEvent>, mainId: string)
    ensures var kept := Filter(events, e => Serializable(e, mainId));
            SerializedOf(events, mainId) == seq(|kept|, i requires 0 <= i < |kept| => Serialize(kept[i], mainId))
    decreases |events|
  {
    if |events| > 0 {
      var n := |events| - 1;
      SerializedIsFilterThenConvert(events[..n], mainId);
      assert events[..n + 1] == events;
      FilterSnoc(events, e => Serializable(e, mainId), n);
    }
  }

  /** Every serialized query is the main agent's and reads back from its own tables. */
  lemma SerializedQueriesReadBack(e: AgentEvent, mainId: string, tables: map<string, TableValue>)
    requires Serializable(e, mainId) && e.UserQueryTables? && Valid(e.tables)
    requires forall k :: k in e.tables.entries ==> k in tables && tables[k] == e.tables.entries[k]
    ensures Serialize(e, mainId).SerializedQuery?
    ensures Serialize(e, mainId).query.agentId == mainId
    ensures MultiFromSerializable(Serialize(e, mainId).query, tables) == e
  {
    MultiRoundTrip(e, tables);
  }

  /** `TableAgentAiService.serialize_events`. */
  method SerializeEvents(agent: TableAgentAi) returns (r: seq<SerializedEvent>)
    ensures r == SerializedOf(agent.eventList.events, agent.id)
  {
    var events := agent.eventList.events;
    r := [];
    var i := 0;
    while i < |events|
      invariant 0 <= i <= |events|
      invariant r == SerializedOf(events[..i], agent.id)
    {
      PrefixSnoc(events, i);
      var e := events[i];
      if e.UserQueryTables? && e.agentId == agent.id {
        r := r + [SerializedQuery(MultiToSerializable(e))];
      } else if e.FunctionCall? || e.ResponseFullText? || e.CreateSubAgent? || e.SubAgentSuccess? {
        r := r + [KeptEvent(e)];
      }
      i := i + 1;
    }
    assert events[..i] == events;
  }

  /** The resource model of a table: saved from the table, or the one already stored. */
  datatype ResourceRef = SavedTable(table: TableValue) | StoredModel(id: string)

  /** One table of `create_table_resources`: renamed to its key, saved when it has no model,
      else fetched by id, which raises when no such model is stored. */
  function ResourceFor(key: string, t: TableValue, stored: set<string>): (r: Result<ResourceRef>)
    ensures t.modelId.None? ==> r == Ok(SavedTable(t.(name := key)))
    ensures t.modelId.Some? && t.modelId.value in stored ==> r == Ok(StoredModel(t.modelId.value))
    ensures t.modelId.Some? && t.modelId.value !in stored ==> r.Err?
  {
    if t.modelId.None? then Ok(SavedTable(t.(name := key)))
    else if t.modelId.value in stored then Ok(StoredModel(t.modelId.value))
    else Err(GenericException)
  }

  /** The models made for the first `i` keys of the tables: one per key, each the one its
      table asks for. */
  ghost predicate ModelsUpTo(tables: Dict<TableValue>, stored: set<string>, models: map<string, ResourceRef>, i: nat)
    requires Valid(tables) && i <= |tables.keys|
  {
    && (forall k :: k in models <==> k in tables.keys[..i])
    && (forall j :: 0 <= j < i ==> ResourceFor(tables.keys[j], tables.entries[tables.keys[j]], stored).Ok?)
    && (forall k :: k in models ==> k in tables.entries && models[k] == ResourceFor(k, tables.entries[k], stored).value)
  }

  /** Making the model of the next key extends the models by it. */
  lemma ModelsStep(tables: Dict<TableValue>, stored: set<string>, models: map<string, ResourceRef>, i: nat)
    requires Valid(tables) && i < |tables.keys|
    requires ModelsUpTo(tables, stored, models, i)
    requires ResourceFor(tables.keys[i], tables.entries[tables.keys[i]], stored).Ok?
    ensures ModelsUpTo(tables, stored, models[tables.keys[i] := ResourceFor(tables.keys[i], tables.entries[tables.keys[i]], stored).value], i + 1)
  {
    var key := tables.keys[i];
    var next := models[key := ResourceFor(key, tables.entries[key], stored).value];
    assert tables.keys[..i + 1] == tables.keys[..i] + [key];
    forall k
      ensures k in next <==> k in tables.keys[..i + 1]
    {
    }
    forall j | 0 <= j < i + 1
      ensures ResourceFor(tables.keys[j], tables.entries[tables.keys[j]], stored).Ok?
    {
    }
    forall k | k in next
      ensures k in tables.entries && next[k] == ResourceFor(k, tables.entries[k], stored).value
    {
      if k != key {
        assert k in models;
      }
    }
  }

  /** Models for every key answer the postcondition of `create_table_resources`. */
  lemma ModelsDone(tables: Dict<TableValue>, stored: set<string>, models: map<string, ResourceRef>)
    requires Valid(tables)
    requires ModelsUpTo(tables, stored, models, |tables.keys|)
    ensures forall k :: k in tables.entries ==> ResourceFor(k, tables.entries[k], stored).Ok?
    ensures models.Keys == tables.entries.Keys
    ensures forall k :: k in models ==> models[k] == ResourceFor(k, tables.entries[k], stored).value
  {
    assert tables.keys[..|tables.keys|] == tables.keys;
    forall k | k in tables.entries
      ensures ResourceFor(k, tables.entries[k], stored).Ok?
    {
      var j :| 0 <= j < |tables.keys| && tables.keys[j] == k;
    }
  }

  /** `TableAgentAiService.create_table_resources`: one model per key, or the first lookup
      that fails. */
  method CreateTableResources(tables: Dict<TableValue>, stored: set<string>) returns (r: Result<map<string, ResourceRef>>)
    requires Valid(tables)
    ensures r.Ok? <==> forall k :: k in tables.entries ==> ResourceFor(k, tables.entries[k], stored).Ok?
    ensures r.Ok? ==> r.value.Keys == tables.entries.Keys
    ensures r.Ok? ==> forall k :: k in r.value ==> r.value[k] == ResourceFor(k, tables.entries[k], stored).value
  {
    var models: map<string, ResourceRef> := map[];
    var i := 0;
    while i < |tables.keys|
      invariant 0 <= i <= |tables.keys|
      invariant ModelsUpTo(tables, stored, models, i)
    {
      var key := tables.keys[i];
      var model := ResourceFor(key, tables.entries[key], stored);
      if model.Err? {
        return Err(model.kind);
      }
      ModelsStep(tables, stored, models, i);
      models := models[key := model.value];
      i := i + 1;
    }
    ModelsDone(tables, stored, models);
    r := Ok(models);
  }
}
