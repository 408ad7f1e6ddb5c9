/** The user-query events of the table agents (`table_agent_event_base.py`): the lookup of a
    table by the name the model gives, and the conversion of each query event to and from its
    serializable form, which names tables by key instead of holding them. */
module TableAgentEvents {
  import opened Wrappers
  import opened PyText
  import opened PyDict
  import opened AgentEvents
  import opened Seqs

  // ---------------------------------------------------------------- table lookup

  /** The outcome of `get_and_check_table`: the table, or the message of the exception. */
  datatype Lookup = Found(table: TableValue) | NotFound(message: string)

  const NoTableNameMessage := "No table name provided in function arguments."

  function TableNotFoundMessage(name: string, tables: Dict<TableValue>): string
  {
    "Table '" + name + "' not found. Available tables: " + JoinWith(tables.keys, ", ")
  }

  /** `UserQueryMultiTablesEvent.get_and_check_table`: a blank name is refused, the name is
      stripped, and a name that is not a key of the event's tables is refused. */
  function GetAndCheckTable(tables: Dict<TableValue>, name: string): (r: Lookup)
    ensures r.Found? <==> !IsBlank(name) && Strip(name) in tables.entries
    ensures r.Found? ==> r.table == tables.entries[Strip(name)]
    ensures IsBlank(name) ==> r == NotFound(NoTableNameMessage)
    ensures !IsBlank(name) && Strip(name) !in tables.entries ==> r == NotFound(TableNotFoundMessage(Strip(name), tables))
  {
    if IsBlank(name) then NotFound(NoTableNameMessage)
    else
      var key := Strip(name);
      if key !in tables.entries then NotFound(TableNotFoundMessage(key, tables))
      else Found(tables.entries[key])
  }

  // ---------------------------------------------------------------- serializable forms

  /** The serializable query events: tables are named by key. */
  datatype SerializableQuery =
    | SerialTables(query: string, agentId: string, tableKeys: seq<string>, outputTableNames: Option<seq<string>>)
    | SerialTable(query: string, agentId: string, tableKey: string)
    | SerialTableTransform(query: string, agentId: string, tableKey: string, tableName: Option<string>,
                           outputTableName: Option<string>)

  /** `UserQueryMultiTablesEvent.to_serializable`: the keys of the tables, in their order. */
  function MultiToSerializable(e: AgentEvent): (r: SerializableQuery)
    requires e.UserQueryTables?
    ensures r.SerialTables? && r.query == e.query && r.agentId == e.agentId
    ensures r.tableKeys == e.tables.keys && r.outputTableNames == e.outputTableNames
  {
    SerialTables(e.query, e.agentId, e.tables.keys, e.outputTableNames)
  }

  /** `{key: tables[key] for key in keys if key in tables}`. */
  function PickTables(keys: seq<string>, tables: map<string, TableValue>): (r: Dict<TableValue>)
    ensures Valid(r)
    ensures forall k :: k in r.entries <==> k in keys && k in tables
    ensures forall k :: k in r.entries ==> r.entries[k] == tables[k]
    ensures forall k :: k in r.keys ==> k in keys
    decreases |keys|
  {
    if |keys| == 0 then Empty()
    else
      var n := |keys| - 1;
      var before := PickTables(keys[..n], tables);
      assert forall k :: k in keys <==> k in keys[..n] || k == keys[n];
      if keys[n] in tables then Put(before, keys[n], tables[keys[n]]) else before
  }

  /** Picking one more key, new and present, appends it. */
  lemma PickSnoc(init: seq<string>, k: string, tables: map<string, TableValue>)
    requires PickTables(init, tables).keys == init
    requires k !in init && k in tables
    ensures PickTables(init + [k], tables).keys == init + [k]
  {
    var keys := init + [k];
    assert keys[..|init|] == init;
    assert k !in PickTables(init, tables).entries;
  }

  /** A prefix of present keys holds present keys. */
  lemma PrefixPresent(keys: seq<string>, tables: map<string, TableValue>, n: nat)
    requires n <= |keys|
    requires forall i :: 0 <= i < |keys| ==> keys[i] in tables
    ensures forall i :: 0 <= i < n ==> keys[..n][i] in tables
  {
    assert forall i :: 0 <= i < n ==> keys[..n][i] == keys[i];
  }

  /** Keys that are distinct and all present are picked in their order. */
  lemma {:induction false} PickAllTables(keys: seq<string>, tables: map<string, TableValue>)
    requires forall i, j :: 0 <= i < j < |keys| ==> keys[i] != keys[j]
    requires forall i :: 0 <= i < |keys| ==> keys[i] in tables
    ensures PickTables(keys, tables).keys == keys
    decreases |keys|
  {
    if |keys| > 0 {
      var n := |keys| - 1;
      var init := keys[..n];
      DistinctPrefix(keys, n);
      PrefixPresent(keys, tables, n);
      PickAllTables(init, tables);
      LastIsNew(keys);
      PickSnoc(init, keys[n], tables);
      InitLast(keys);
    }
  }

  /** Picking the keys of a dict from tables that agree with it gives the dict back. */
  lemma PickOwnKeys(d: Dict<TableValue>, tables: map<string, TableValue>)
    requires Valid(d)
    requires forall k :: k in d.entries ==> k in tables && tables[k] == d.entries[k]
    ensures PickTables(d.keys, tables) == d
  {
    var picked := PickTables(d.keys, tables);
    PickAllTables(d.keys, tables);
    SameKeysSameDomain(picked, d);
    forall k | k in picked.entries
      ensures picked.entries[k] == d.entries[k]
    {
    }
    SameMaps(picked.entries, d.entries);
  }

  /** `UserQueryMultiTablesEvent.from_serializable`: only the keys present in the given tables
      are kept. */
  function MultiFromSerializable(s: SerializableQuery, tables: map<string, TableValue>): (r: AgentEvent)
    requires s.SerialTables?
    ensures r.UserQueryTables? && r.query == s.query && r.agentId == s.agentId
    ensures r.outputTableNames == s.outputTableNames
    ensures Valid(r.tables)
    ensures forall k :: k in r.tables.entries <==> k in s.tableKeys && k in tables
  {
    UserQueryTables(s.agentId, s.query, PickTables(s.tableKeys, tables), s.outputTableNames)
  }

  /** Serializing a multi-table query and reading it back with its own tables gives the query
      back. */
  lemma MultiRoundTrip(e: AgentEvent, tables: map<string, TableValue>)
    requires e.UserQueryTables? && Valid(e.tables)
    requires forall k :: k in e.tables.entries ==> k in tables && tables[k] == e.tables.entries[k]
    ensures MultiFromSerializable(MultiToSerializable(e), tables) == e
  {
    PickOwnKeys(e.tables, tables);
  }

  /** `UserQueryTableEvent.to_serializable`: the event needs its table key. */
  function SingleToSerializable(e: AgentEvent): (r: Result<SerializableQuery>)
    requires e.UserQueryTable?
    ensures r.Err? <==> e.tableKey.None?
    ensures r.Err? ==> r.kind == ValueError
    ensures r.Ok? ==> r.value == SerialTable(e.query, e.agentId, e.tableKey.value)
  {
    if e.tableKey.None? then Err(ValueError) else Ok(SerialTable(e.query, e.agentId, e.tableKey.value))
  }

  /** `UserQueryTableEvent.from_serializable`: a key missing from the tables raises KeyError. */
  function SingleFromSerializable(s: SerializableQuery, tables: map<string, TableValue>): (r: Result<AgentEvent>)
    requires s.SerialTable?
    ensures r.Err? <==> s.tableKey !in tables
    ensures r.Err? ==> r.kind == KeyError
    ensures r.Ok? ==> r.value == UserQueryTable(s.agentId, s.query, tables[s.tableKey], Some(s.tableKey))
  {
    if s.tableKey !in tables then Err(KeyError)
    else Ok(UserQueryTable(s.agentId, s.query, tables[s.tableKey], Some(s.tableKey)))
  }

  /** A single-table query with a key round-trips through its serializable form. */
  lemma SingleRoundTrip(e: AgentEvent, tables: map<string, TableValue>)
    requires e.UserQueryTable? && e.tableKey.Some?
    requires e.tableKey.value in tables && tables[e.tableKey.value] == e.table
    ensures SingleToSerializable(e).Ok?
    ensures SingleFromSerializable(SingleToSerializable(e).value, tables) == Ok(e)
  {
  }

  /** `UserQueryTableTransformEvent.to_serializable`: the table name is the key; the event
      needs one. */
  function TransformToSerializable(e: AgentEvent): (r: Result<SerializableQuery>)
    requires e.UserQueryTableTransform?
    ensures r.Err? <==> e.tableName.None?
    ensures r.Err? ==> r.kind == ValueError
    ensures r.Ok? ==> r.value.SerialTableTransform? && r.value.tableKey == e.tableName.value
                      && r.value.tableName == e.tableName && r.value.outputTableName == e.outputTableName
                      && r.value.query == e.query && r.value.agentId == e.agentId
  {
    if e.tableName.None? then Err(ValueError)
    else Ok(SerialTableTransform(e.query, e.agentId, e.tableName.value, e.tableName, e.outputTableName))
  }

  /** `UserQueryTableTransformEvent.from_serializable`: a key missing from the tables raises
      KeyError. */
  function TransformFromSerializable(s: SerializableQuery, tables: map<string, TableValue>): (r: Result<AgentEvent>)
    requires s.SerialTableTransform?
    ensures r.Err? <==> s.tableKey !in tables
    ensures r.Err? ==> r.kind == KeyError
    ensures r.Ok? ==> r.value == UserQueryTableTransform(s.agentId, s.query, tables[s.tableKey], s.tableName, s.outputTableName)
  {
    if s.tableKey !in tables then Err(KeyError)
    else Ok(UserQueryTableTransform(s.agentId, s.query, tables[s.tableKey], s.tableName, s.outputTableName))
  }

  /** A transform query with a table name round-trips when its table is stored under that
      name. */
  lemma TransformRoundTrip(e: AgentEvent, tables: map<string, TableValue>)
    requires e.UserQueryTableTransform? && e.tableName.Some?
    requires e.tableName.value in tables && tables[e.tableName.value] == e.table
    ensures TransformToSerializable(e).Ok?
    ensures TransformFromSerializable(TransformToSerializable(e).value, tables) == Ok(e)
  {
  }
}
