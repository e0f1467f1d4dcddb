/** The relational data client of data_lib: the `CREATE TABLE` builder, the
    row conversion stub and the `DataClient` operations of the Postgres
    adapter. The connection is modelled by the list of statement texts the
    adapter has handed to it, so no I/O takes place. */
module DataClients {
  import opened Wrappers
  import opened Strings
  import opened DataSerialization

  /** A backend-native result row. Its columns are never read by the
      modelled code, so it stays opaque. */
  type Row

  /** Why the backend refused a query or a statement. */
  datatype BackendError = BackendError(message: string)

  /** A panic of the adapter: indexing the first entry of an empty
      consumable, or `unwrap` on a failed `execute`, whose payload is the
      backend's error. */
  datatype Abort = IndexPanicked | ExecutionPanicked(error: BackendError)

  const CreatePrefix: string := "CREATE TABLE "
  const Postfix: string := " )"
  const ColumnSeparator: char := ','
  const MaterialsQuery: string := "SELECT * FROM materials_list"

  /** `make_table_query_string`: the table name `rows[0]`, an opening
      parenthesis, the column definitions `rows[1..]` joined by bare commas,
      and a space before the closing parenthesis. Every entry is copied
      verbatim; nothing is escaped. Empty input is outside the domain:
      `make_table_query_string` indexes `rows[0]` and panics. */
  function MakeTableQueryString(rows: seq<string>): (query: string)
    requires |rows| >= 1
    ensures |query| == 16 + SumLengths(rows) + SeparatorCount(|rows| - 1)
    ensures query[..|CreatePrefix| + |rows[0]| + 1] == CreatePrefix + rows[0] + "("
    ensures query[|query| - |Postfix|..] == Postfix
    ensures query[|CreatePrefix| + |rows[0]| + 1..|query| - |Postfix|] == Join(rows[1..], [ColumnSeparator])
  {
    var prefix := CreatePrefix;
    var firstArgument := rows[0];
    var columnNamesAndTypes := Join(rows[1..], [ColumnSeparator]);
    JoinLength(rows[1..], [ColumnSeparator]);
    prefix + (firstArgument + "(") + columnNamesAndTypes + Postfix
  }

  /** Column definitions of a statement body: none for the empty string,
      otherwise the comma-separated pieces. */
  function SplitColumns(s: string): (columns: seq<string>)
    ensures s != "" ==> |columns| >= 1
  {
    if s == "" then [] else Split(s, ColumnSeparator)
  }

  /** Reads the text between `"CREATE TABLE "` and `" )"`: the table name
      runs up to the first `(`, the column definitions follow it. */
  function ParseBody(body: string): (rows: Option<seq<string>>)
    ensures rows.Some? ==> |rows.value| >= 1 && '(' !in rows.value[0]
  {
    match IndexOf(body, '(')
    case None => None
    case Some(i) => Some([body[..i]] + SplitColumns(body[i + 1..]))
  }

  /** Reads a `CREATE TABLE` statement of the shape the builder produces
      back into `[table name, column definitions...]`; `None` when the text
      lacks the prefix, the closing `" )"` or the opening parenthesis. */
  function ParseCreateTable(query: string): (rows: Option<seq<string>>)
    ensures rows.Some? ==> |rows.value| >= 1 && '(' !in rows.value[0]
  {
    if |query| < |CreatePrefix| + |Postfix|
       || query[..|CreatePrefix|] != CreatePrefix
       || query[|query| - |Postfix|..] != Postfix
    then None
    else ParseBody(query[|CreatePrefix|..|query| - |Postfix|])
  }

  /** A statement wrapped in the builder's prefix and postfix is parsed by
      its body alone. */
  lemma ParseWrapped(body: string)
    ensures ParseCreateTable(CreatePrefix + body + Postfix) == ParseBody(body)
  {
    var query := CreatePrefix + body + Postfix;
    assert query[..|CreatePrefix|] == CreatePrefix;
    assert query[|query| - |Postfix|..] == Postfix;
    assert query[|CreatePrefix|..|query| - |Postfix|] == body;
  }

  /** Every statement that parses carries the builder's prefix and postfix
      around the body it was parsed from. */
  lemma ParsedIsWrapped(query: string)
    requires ParseCreateTable(query).Some?
    ensures query == CreatePrefix + query[|CreatePrefix|..|query| - |Postfix|] + Postfix
  {
    var body := query[|CreatePrefix|..|query| - |Postfix|];
    assert query == query[..|CreatePrefix|] + body + query[|query| - |Postfix|..];
  }

  /** The first `(` after a parenthesis-free name is the one following it. */
  lemma IndexOfAfterName(name: string, rest: string)
    requires '(' !in name
    ensures IndexOf(name + "(" + rest, '(') == Some(|name|)
  {
    var s := name + "(" + rest;
    assert s[|name|] == '(';
    assert forall k :: 0 <= k < |name| ==> s[k] == name[k];
  }

  /** A schema descriptor the builder's output can be read back from: a
      table name without `(` and non-empty column definitions without
      commas. */
  predicate Unambiguous(rows: seq<string>)
  {
    && |rows| >= 1
    && '(' !in rows[0]
    && forall i :: 1 <= i < |rows| ==> rows[i] != "" && ColumnSeparator !in rows[i]
  }

  /** Reading the builder's output back yields the rows it was built from,
      for every unambiguous schema descriptor. */
  lemma ParseMakeTable(rows: seq<string>)
    requires Unambiguous(rows)
    ensures ParseCreateTable(MakeTableQueryString(rows)) == Some(rows)
  {
    var cols := Join(rows[1..], [ColumnSeparator]);
    var body := rows[0] + "(" + cols;
    assert MakeTableQueryString(rows) == CreatePrefix + body + Postfix;
    ParseWrapped(body);
    IndexOfAfterName(rows[0], cols);
    assert body[..|rows[0]|] == rows[0];
    assert body[|rows[0]| + 1..] == cols;
    if |rows| == 1 {
      assert SplitColumns(cols) == [];
    } else {
      forall i | 0 <= i < |rows[1..]|
        ensures ColumnSeparator !in rows[1..][i]
      {
        assert rows[1..][i] == rows[i + 1];
      }
      SplitJoin(rows[1..], ColumnSeparator);
      JoinLength(rows[1..], [ColumnSeparator]);
      assert SumLengths(rows[1..]) >= |rows[1]|;
      assert SplitColumns(cols) == rows[1..];
    }
    assert [rows[0]] + rows[1..] == rows;
  }

  /** Joining the split column definitions gives the text back. */
  lemma JoinSplitColumns(tail: string)
    ensures Join(SplitColumns(tail), [ColumnSeparator]) == tail
  {
    if tail != "" {
      JoinSplit(tail, ColumnSeparator);
    }
  }

  /** A body that parses is the table name, `(`, and the joined column
      definitions. */
  lemma RebuildBody(body: string)
    requires ParseBody(body).Some?
    ensures ParseBody(body).value[0] + "(" + Join(ParseBody(body).value[1..], [ColumnSeparator]) == body
  {
    var i := IndexOf(body, '(').value;
    var name, tail := body[..i], body[i + 1..];
    var columns := SplitColumns(tail);
    var rows := [name] + columns;
    assert ParseBody(body).value == rows;
    assert rows[0] == name;
    assert rows[1..] == columns;
    JoinSplitColumns(tail);
    SplitAround(body, i);
  }

  /** A string is the part before position `i`, the character there, and
      the part after it. */
  lemma SplitAround(s: string, i: nat)
    requires i < |s|
    ensures s == s[..i] + [s[i]] + s[i + 1..]
  {
  }

  /** Rebuilding a statement that parses reproduces it character for
      character, so the builder's wire format is exactly the parsed shape. */
  lemma MakeTableParse(query: string)
    requires ParseCreateTable(query).Some?
    ensures MakeTableQueryString(ParseCreateTable(query).value) == query
  {
    var body := query[|CreatePrefix|..|query| - |Postfix|];
    ParsedIsWrapped(query);
    RebuildBody(body);
  }

  /** The column list of the crate's unit test, joined by one comma. */
  lemma UnitTestColumns()
    ensures Join([" id SERIAL PRIMARY KEY", " dummy_column VARCHAR NOT NULL"], [ColumnSeparator])
            == " id SERIAL PRIMARY KEY" + "," + " dummy_column VARCHAR NOT NULL"
  {
    assert [" id SERIAL PRIMARY KEY", " dummy_column VARCHAR NOT NULL"][1..] == [" dummy_column VARCHAR NOT NULL"];
  }

  /** The expected text of the crate's unit test up to the first comma. */
  lemma UnitTestTextHead()
    ensures "CREATE TABLE test (" + " id SERIAL PRIMARY KEY" + ","
            == "CREATE TABLE test ( id SERIAL PRIMARY KEY,"
  {
    assert "CREATE TABLE test (" + " id SERIAL PRIMARY KEY" == "CREATE TABLE test ( id SERIAL PRIMARY KEY";
  }

  /** The expected text of the crate's unit test from the first comma on. */
  lemma UnitTestTextTail()
    ensures "CREATE TABLE test ( id SERIAL PRIMARY KEY," + " dummy_column VARCHAR NOT NULL" + " )"
            == "CREATE TABLE test ( id SERIAL PRIMARY KEY, dummy_column VARCHAR NOT NULL )"
  {
  }

  /** The expected text of the crate's unit test, assembled piece by piece.
      The pieces are parameters fixed by the requires so that the solver
      reasons about short string literals only. */
  lemma UnitTestText(p: string, a: string, b: string)
    requires p == "CREATE TABLE test ("
    requires a == " id SERIAL PRIMARY KEY"
    requires b == " dummy_column VARCHAR NOT NULL"
    ensures p + (a + "," + b) + " )"
            == "CREATE TABLE test ( id SERIAL PRIMARY KEY, dummy_column VARCHAR NOT NULL )"
  {
    assert p + (a + "," + b) + " )" == ((p + a) + ",") + b + " )";
    UnitTestTextHead();
    UnitTestTextTail();
  }

  /** The statement pinned by the crate's unit test. */
  lemma UnitTestStatement()
    ensures MakeTableQueryString(["test ", " id SERIAL PRIMARY KEY", " dummy_column VARCHAR NOT NULL"])
            == "CREATE TABLE test ( id SERIAL PRIMARY KEY, dummy_column VARCHAR NOT NULL )"
  {
    var rows := ["test ", " id SERIAL PRIMARY KEY", " dummy_column VARCHAR NOT NULL"];
    assert rows[1..] == [" id SERIAL PRIMARY KEY", " dummy_column VARCHAR NOT NULL"];
    UnitTestColumns();
    assert CreatePrefix + ("test " + "(") == "CREATE TABLE test (";
    UnitTestText("CREATE TABLE test (", " id SERIAL PRIMARY KEY", " dummy_column VARCHAR NOT NULL");
  }

  /** A table name alone yields `"CREATE TABLE " + name + "( )"`: the empty
      join leaves only the space before the closing parenthesis. */
  lemma NoColumns(name: string)
    ensures MakeTableQueryString([name]) == CreatePrefix + name + "( )"
  {
    assert [name][1..] == [];
  }

  /** The Postgres adapter: its connection parameters and the ordered list
      of statement texts it has submitted over its connection. */
  datatype Adapter = Adapter(
    userName: string,
    passWord: string,
    hostName: string,
    dataBase: string,
    port: string,
    submitted: seq<string>)

  /** Contribution of one row to `rows_to_string`: the loop body is empty,
      so each row adds no entry. */
  function RowStrings(row: Row): (entries: seq<string>)
  {
    []
  }

  /** `rows_to_string`: visits the rows in order, appending each row's
      contribution to an initially empty vector. */
  function RowsToString(rows: seq<Row>): (strings: seq<string>)
    ensures strings == []
  {
    if |rows| == 0 then []
    else RowStrings(rows[0]) + RowsToString(rows[1..])
  }

  /** `get_consumable_from_data`: wraps the converted rows. It reads no
      adapter state, so its result depends on the rows alone, and with the
      conversion a stub the container is always empty. */
  function GetConsumableFromData(dataset: seq<Row>): (c: Consumable)
    ensures c.GetData() == []
  {
    New(RowsToString(dataset))
  }

  /** `client.execute(statement)` followed by `unwrap`: the backend's
      outcome (rows affected, or its error) is a parameter. On success the
      statement is appended to the submitted list; an error panics with that
      error as payload. */
  function Execute(a: Adapter, statement: string, outcome: Result<nat, BackendError>): (r: Result<Adapter, Abort>)
    ensures r.Success? <==> outcome.Success?
    ensures r.Success? ==> (r.value.submitted == a.submitted + [statement]
                            && r.value.(submitted := a.submitted) == a)
    ensures r.Failure? ==> r.error == ExecutionPanicked(outcome.error)
  {
    match outcome
    case Success(_) => Success(a.(submitted := a.submitted + [statement]))
    case Failure(e) => Failure(ExecutionPanicked(e))
  }

  /** `make_table_from_consumable`: builds the DDL for the consumable and
      executes it. An empty consumable panics while the statement is built,
      before anything reaches the backend. */
  function MakeTableFromConsumable(a: Adapter, table: Consumable, outcome: Result<nat, BackendError>): (r: Result<Adapter, Abort>)
    ensures r.Success? <==> (|table.GetData()| >= 1 && outcome.Success?)
    ensures |table.GetData()| == 0 ==> r == Failure(IndexPanicked)
    ensures |table.GetData()| >= 1 && outcome.Failure? ==> r == Failure(ExecutionPanicked(outcome.error))
    ensures r.Success? ==> (|r.value.submitted| == |a.submitted| + 1
                            && r.value.submitted[..|a.submitted|] == a.submitted
                            && r.value.submitted[|a.submitted|] == MakeTableQueryString(table.GetData()))
    ensures r.Success? ==> r.value.(submitted := a.submitted) == a
  {
    if |table.GetData()| == 0 then Failure(IndexPanicked)
    else Execute(a, MakeTableQueryString(table.GetData()), outcome)
  }

  /** `import_data`: submits exactly one statement, the `CREATE TABLE` built
      from the consumable's entries, and leaves the connection parameters as
      they were. An empty consumable, or a statement the backend refuses,
      aborts the adapter. */
  function ImportData(a: Adapter, data: Consumable, outcome: Result<nat, BackendError>): (r: Result<Adapter, Abort>)
    ensures r.Success? <==> (|data.GetData()| >= 1 && outcome.Success?)
    ensures |data.GetData()| == 0 ==> r == Failure(IndexPanicked)
    ensures |data.GetData()| >= 1 && outcome.Failure? ==> r == Failure(ExecutionPanicked(outcome.error))
    ensures r.Success? ==> r.value.submitted == a.submitted + [MakeTableQueryString(data.GetData())]
    ensures r.Success? ==> r.value.(submitted := a.submitted) == a
  {
    MakeTableFromConsumable(a, data, outcome)
  }

  /** Importing what the read path produces always panics: the converted
      consumable is empty, so the table name cannot be indexed, and nothing
      is sent to the backend. */
  lemma ImportOfReadPathPanics(a: Adapter, dataset: seq<Row>, outcome: Result<nat, BackendError>)
    ensures ImportData(a, GetConsumableFromData(dataset), outcome) == Failure(IndexPanicked)
  {
    var c := GetConsumableFromData(dataset);
    assert |c.GetData()| == 0;
  }

  /** `get_data_by_title`: sends the fixed query for the materials table;
      the query's outcome comes from the backend and is a parameter here.
      A failed query is swallowed into `None`; rows become a consumable. */
  function GetDataByTitle(a: Adapter, outcome: Result<seq<Row>, BackendError>): (r: (Adapter, Option<Consumable>))
    ensures r.0.submitted == a.submitted + [MaterialsQuery]
    ensures r.0.(submitted := a.submitted) == a
    ensures r.1.Some? <==> outcome.Success?
    ensures r.1.Some? ==> r.1.value.GetData() == []
  {
    var a' := a.(submitted := a.submitted + [MaterialsQuery]);
    match outcome
    case Success(dataset) => (a', Some(GetConsumableFromData(dataset)))
    case Failure(_) => (a', None)
  }
}
