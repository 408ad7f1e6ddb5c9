/** `ExcelFile`: the tables of one CSV or Excel file, keyed by sheet name in the order they were
    added, with the data transfer objects the table views receive. */
module ExcelFiles {
  import opened Wrappers
  import opened PyDict
  import opened DataFrameItems
  import opened Seqs

  /** A gws_core `Table`: its name and its data. */
  datatype Table = Table(name: string, frame: DataFrame)

  /** `Table()`: an unnamed table without data. */
  function EmptyTable(): (t: Table)
    ensures t.frame == EmptyFrame() && t.name == ""
  {
    Table("", EmptyFrame())
  }

  /** `ExcelFileDTO`: the sheet names are given only when there are several. */
  datatype ExcelFileDto = ExcelFileDto(id: string, name: string, sheets: Option<seq<string>>)

  /** `ExcelSheetDTO`. */
  datatype ExcelSheetDto = ExcelSheetDto(id: string, name: string, sheetName: Option<string>, table: Table)

  /** `get_unique_name`: the file name, followed by the sheet name when there is one. */
  function UniqueName(dto: ExcelSheetDto): (r: string)
    ensures dto.sheetName.Some? && dto.sheetName.value != "" ==> r == dto.name + "_" + dto.sheetName.value
    ensures dto.sheetName.None? || dto.sheetName.value == "" ==> r == dto.name
    ensures r[..|dto.name|] == dto.name
  {
    if dto.sheetName.Some? && dto.sheetName.value != "" then dto.name + "_" + dto.sheetName.value else dto.name
  }

  /** The name `from_file` gives the table of a sheet: the file name for the sheet named like the
      file, the file name and the sheet name otherwise. */
  function SheetTableName(name: string, sheetName: string): (r: string)
    ensures sheetName == name ==> r == name
    ensures sheetName != name ==> r == name + "_" + sheetName
  {
    if sheetName == name then name else name + "_" + sheetName
  }

  class ExcelFile {
    const id: string
    const name: string
    const resourceModelId: Option<string>
    /** `_tables`. */
    var tables: Dict<Table>

    predicate Valid()
      reads this
    {
      && PyDict.Valid(tables)
      && (forall s :: s in tables.entries ==> Rectangular(tables.entries[s].frame))
    }

    constructor (id: string, name: string, resourceModelId: Option<string>)
      ensures Valid()
      ensures this.id == id && this.name == name && this.resourceModelId == resourceModelId
      ensures tables == Empty()
    {
      this.id := id;
      this.name := name;
      this.resourceModelId := resourceModelId;
      tables := Empty();
    }

    /** `get_sheet_names`: the sheets in the order they were added. */
    function SheetNames(): (names: seq<string>)
      reads this
      requires Valid()
      ensures forall s :: s in names <==> s in tables.entries
    {
      tables.keys
    }

    /** `has_multiple_sheets`. */
    predicate HasMultipleSheets()
      reads this
      requires Valid()
    {
      |SheetNames()| > 1
    }

    /** `get_default_table`: the first sheet's table, or an empty table. */
    function DefaultTable(): (t: Table)
      reads this
      requires Valid()
      ensures tables.keys != [] ==> t == tables.entries[tables.keys[0]]
      ensures tables.keys == [] ==> t == EmptyTable()
    {
      var names := SheetNames();
      if |names| > 0 then tables.entries[names[0]] else EmptyTable()
    }

    /** `get_table`: the default table for the empty name, the named sheet's otherwise; an
        unknown sheet is a `KeyError`. */
    function GetTable(sheetName: string): (r: Result<Table>)
      reads this
      requires Valid()
      ensures sheetName == "" ==> r == Ok(DefaultTable())
      ensures sheetName != "" && sheetName in tables.entries ==> r == Ok(tables.entries[sheetName])
      ensures sheetName != "" && sheetName !in tables.entries ==> r == Err(KeyError)
    {
      if sheetName == "" then Ok(DefaultTable())
      else if sheetName in tables.entries then Ok(tables.entries[sheetName])
      else Err(KeyError)
    }

    /** `get_table_dto`. */
    function GetTableDto(sheetName: string): (r: Result<ExcelSheetDto>)
      reads this
      requires Valid()
      ensures r.Ok? <==> GetTable(sheetName).Ok?
      ensures r.Ok? ==> r.value == ExcelSheetDto(id, name, Some(sheetName), GetTable(sheetName).value)
    {
      var table :- GetTable(sheetName);
      Ok(ExcelSheetDto(id, name, Some(sheetName), table))
    }

    /** `get_dataframe`. */
    function GetDataframe(sheetName: string): (r: Result<DataFrame>)
      reads this
      requires Valid()
      ensures r.Ok? <==> GetTable(sheetName).Ok?
      ensures r.Ok? ==> r.value == GetTable(sheetName).value.frame
      ensures r.Ok? ==> Rectangular(r.value)
    {
      var table :- GetTable(sheetName);
      Ok(table.frame)
    }

    /** `add_table`: that sheet's table is set or replaced and no other sheet changes. */
    method AddTable(sheetName: string, table: Table)
      requires Valid() && Rectangular(table.frame)
      modifies this
      ensures Valid()
      ensures tables.entries == old(tables.entries)[sheetName := table]
      ensures sheetName in old(tables.entries) ==> tables.keys == old(tables.keys)
      ensures sheetName !in old(tables.entries) ==> tables.keys == old(tables.keys) + [sheetName]
    {
      tables := Put(tables, sheetName, table);
    }

    /** `to_dto`: the sheet names only when there are several. */
    function ToDto(): (dto: ExcelFileDto)
      reads this
      requires Valid()
      ensures dto.id == id && dto.name == name
      ensures dto.sheets.Some? <==> |tables.keys| > 1
      ensures dto.sheets.Some? ==> dto.sheets.value == tables.keys
    {
      ExcelFileDto(id, name, if HasMultipleSheets() then Some(SheetNames()) else None)
    }
  }

  /** `from_table`: one sheet, keyed by the name, whose table takes that name. */
  method FromTable(id: string, name: string, table: Table, resourceModelId: Option<string>) returns (item: ExcelFile)
    requires Rectangular(table.frame)
    ensures fresh(item) && item.Valid()
    ensures item.id == id && item.name == name && item.resourceModelId == resourceModelId
    ensures item.tables.keys == [name]
    ensures item.tables.entries == map[name := table.(name := name)]
  {
    item := new ExcelFile(id, name, resourceModelId);
    item.AddTable(name, table.(name := name));
  }

  /** What the importer reads from a file: whether `File.is_csv_or_excel` accepts it, the table
      of a CSV file, and the sheets of an Excel workbook in workbook order. */
  datatype Imported = Imported(supported: bool, csvTable: Table, sheets: Dict<Table>)

  /** Every imported table is a well-formed frame. */
  predicate WellFormed(imported: Imported)
  {
    && PyDict.Valid(imported.sheets)
    && Rectangular(imported.csvTable.frame)
    && (forall s :: s in imported.sheets.entries ==> Rectangular(imported.sheets.entries[s].frame))
  }

  /** The tables `from_file` imports, keyed by sheet, before they are renamed. */
  function ImportedTables(name: string, extension: string, imported: Imported): (tables: Dict<Table>)
    requires WellFormed(imported)
    ensures PyDict.Valid(tables)
    ensures forall s :: s in tables.entries ==> Rectangular(tables.entries[s].frame)
    ensures extension == "csv" ==> tables.keys == [name]
    ensures extension != "csv" ==> tables == imported.sheets
  {
    if extension == "csv" then Dict([name], map[name := imported.csvTable.(name := name)])
    else imported.sheets
  }

  /** The tables `from_file` has added after the first `k` sheets: those sheets in order,
      each renamed after the file and the sheet. */
  ghost predicate RenamedUpTo(done: Dict<Table>, name: string, sheets: Dict<Table>, k: nat)
    requires k <= |sheets.keys|
  {
    && done.keys == sheets.keys[..k]
    && (forall s :: s in done.entries <==> s in sheets.keys[..k])
    && (forall s :: s in done.entries ==>
          s in sheets.entries && done.entries[s] == sheets.entries[s].(name := SheetTableName(name, s)))
  }

  /** Adding the next sheet, renamed, extends the added tables by it. */
  lemma RenamedStep(done: Dict<Table>, name: string, sheets: Dict<Table>, k: nat)
    requires PyDict.Valid(sheets) && k < |sheets.keys|
    requires RenamedUpTo(done, name, sheets, k)
    ensures sheets.keys[k] !in done.entries
    ensures var s := sheets.keys[k];
            RenamedUpTo(Dict(done.keys + [s], done.entries[s := sheets.entries[s].(name := SheetTableName(name, s))]),
                        name, sheets, k + 1)
  {
    var s := sheets.keys[k];
    LastIsNew(sheets.keys[..k + 1]);
    PrefixSnoc(sheets.keys, k);
    assert sheets.keys[..k + 1] == sheets.keys[..k] + [s];
  }

  /** All sheets added: the tables are the sheets, renamed, in their order. */
  lemma RenamedAll(done: Dict<Table>, name: string, sheets: Dict<Table>)
    requires PyDict.Valid(sheets) && RenamedUpTo(done, name, sheets, |sheets.keys|)
    ensures done.keys == sheets.keys
    ensures forall s :: s in done.entries ==> s in sheets.entries
    ensures forall s :: s in sheets.entries ==>
              s in done.entries && done.entries[s] == sheets.entries[s].(name := SheetTableName(name, s))
  {
    assert sheets.keys[..|sheets.keys|] == sheets.keys;
  }

  /** `from_file`: an unsupported file is a `ValueError`; otherwise each imported sheet is added
      in order under its sheet name, its table renamed after the file and the sheet. */
  method FromFile(id: string, name: string, extension: string, imported: Imported,
                  resourceModelId: Option<string>) returns (r: Result<ExcelFile>)
    requires WellFormed(imported)
    ensures !imported.supported ==> r == Err(ValueError)
    ensures imported.supported ==> r.Ok?
    ensures r.Ok? ==>
              var sheets := ImportedTables(name, extension, imported);
              && fresh(r.value) && r.value.Valid()
              && r.value.id == id && r.value.name == name && r.value.resourceModelId == resourceModelId
              && r.value.tables.keys == sheets.keys
              && (forall s :: s in sheets.entries ==>
                    s in r.value.tables.entries
                    && r.value.tables.entries[s] == sheets.entries[s].(name := SheetTableName(name, s)))
              && (forall s :: s in r.value.tables.entries ==> s in sheets.entries)
  {
    if !imported.supported {
      return Err(ValueError);
    }
    var item := new ExcelFile(id, name, resourceModelId);
    var sheets := ImportedTables(name, extension, imported);
    var k := 0;
    while k < |sheets.keys|
      invariant 0 <= k <= |sheets.keys|
      invariant item.Valid()
      invariant RenamedUpTo(item.tables, name, sheets, k)
    {
      var sheetName := sheets.keys[k];
      RenamedStep(item.tables, name, sheets, k);
      item.AddTable(sheetName, sheets.entries[sheetName].(name := SheetTableName(name, sheetName)));
      k := k + 1;
    }
    RenamedAll(item.tables, name, sheets);
    r := Ok(item);
  }
}
