# data_lib: consumable container and Postgres DDL builder

A Dafny model of the `data_lib` crate of Foundation_Sim. The crate defines a
backend-agnostic container of string entries (`Consumable`), a `DataClient`
capability trait, and one concrete client, `PostgresSQLClient`, which turns a
consumable describing `[table name, column definition, ...]` into a
`CREATE TABLE` statement and executes it.

Files and modules:

- `wrappers.dfy` (`Wrappers`): `Option` and `Result`.
- `strings.dfy` (`Strings`): `Join`, the slice `join` of the Rust standard
  library, with its length, and a `Split` on one separator character that
  `Join` always undoes (`JoinSplit`) and that undoes `Join` on a non-empty
  list of separator-free parts (`SplitJoin`).
- `data_serialization.dfy` (`DataSerialization`): `Consumable`, `New`,
  `GetData`.
- `data_clients.dfy` (`DataClients`): `MakeTableQueryString` and a reader
  `ParseCreateTable` for the statements it produces, `RowsToString`,
  `GetConsumableFromData`, `MakeTableFromConsumable`, `ImportData`,
  `GetDataByTitle`, and the `Adapter` state.

The backend connection is modelled by the `submitted` field of `Adapter`: the
ordered list of statement texts the client has handed to its connection.
`Execute` appends to it. What the backend answers to a statement or a query
is a parameter (`outcome`: a success value or a `BackendError`), so no I/O
happens. A panic of the code is an `Abort` value: `IndexPanicked` for
indexing an empty consumable, `ExecutionPanicked` carrying the backend's
error for `unwrap` on a failed `execute`.
Backend rows are an opaque type `Row`, because the modelled code never reads
their columns.

In three places the code's behaviour may surprise a reader; the model
follows the code:

- A table name with no column definitions yields `CREATE TABLE <name>( )`,
  with a space before the closing parenthesis, not `CREATE TABLE <name>()`.
- An empty schema descriptor is not reported as an error. The code indexes
  `rows[0]` and panics. `MakeTableQueryString` therefore requires at least
  one entry, and the adapter functions that call it return an
  `IndexPanicked` abort for an empty consumable.
- `rows_to_string` is a stub whose loop body is empty, so every row list
  converts to the empty list. No row codec exists in the code.

## Model

| member | source | states |
|---|---|---|
| DataSerialization.New | data_lib/src/lib.rs:19-24 | `get_data` of a freshly built consumable returns the dataset it was built from, same entries in the same order |
| Strings.JoinLength | data_lib/src/lib.rs:105 | `join` output is as long as all parts together plus one separator per gap between adjacent parts |
| Strings.JoinSmall | data_lib/src/lib.rs:105 | joining an empty slice gives the empty string; joining one part gives that part |
| Strings.SplitJoin | data_lib/src/lib.rs:105 | the comma join keeps every column definition verbatim: splitting the joined text at commas gives the parts back when there is at least one part and none contains a comma |
| DataClients.MakeTableQueryString | data_lib/src/lib.rs:101-111 | the statement starts with `CREATE TABLE `, the table name and `(`, ends with ` )`, holds the comma-joined column definitions in between, and is 16 characters longer than all entries together plus one comma per gap between column definitions; requires a non-empty input |
| DataClients.ParseMakeTable | data_lib/src/lib.rs:101-111 | reading a built statement back yields exactly the table name and column definitions it was built from, whenever the name has no `(` and the definitions are non-empty and comma-free |
| DataClients.MakeTableParse | data_lib/src/lib.rs:101-111 | every text of the statement shape (prefix, name, `(`, columns, ` )`) is what the builder produces from its parsed parts, so the builder adds nothing and escapes nothing |
| DataClients.NoColumns | data_lib/src/lib.rs:101-111 | a table name alone yields `CREATE TABLE <name>( )` |
| DataClients.UnitTestStatement | data_lib/src/lib.rs:161-176 | the unit test's input yields exactly `CREATE TABLE test ( id SERIAL PRIMARY KEY, dummy_column VARCHAR NOT NULL )` |
| DataClients.RowsToString | data_lib/src/lib.rs:86-93 | the row conversion visits every row and appends nothing, so its result is empty for every input |
| DataClients.GetConsumableFromData | data_lib/src/lib.rs:125-131 | the consumable built from any row list holds no entries, and building it depends on the rows alone |
| DataClients.Execute | data_lib/src/lib.rs:98 | a successful execution appends the statement to the submitted list and changes nothing else; a backend error ends in a panic whose payload is that error |
| DataClients.MakeTableFromConsumable | data_lib/src/lib.rs:95-99 | succeeds exactly when the consumable is non-empty and the backend succeeds; then exactly one statement, the `CREATE TABLE` built from the consumable, is added after the earlier ones and nothing else changes; an empty consumable panics on indexing before anything is sent; a backend error panics with that error |
| DataClients.ImportData | data_lib/src/lib.rs:133-135 | as `make_table_from_consumable`: on success the submitted list grows by exactly the built statement and the connection parameters are unchanged; an empty consumable gives the index panic, a backend error the execution panic carrying it |
| DataClients.ImportOfReadPathPanics | data_lib/src/lib.rs:125-135 | importing the consumable produced by the crate's own read path always panics on indexing, for every row list and every backend answer |
| DataClients.GetDataByTitle | data_lib/src/lib.rs:116-124 | sends exactly the materials query; returns a consumable exactly when the query succeeds, and that consumable is empty; a failed query becomes `None` |

## Left out

- `PostgresSQLClient::new` (connection setup through the `postgres` crate): a foreign call; the model starts from an `Adapter` value that already holds its parameters.
- `load_materials_list`: database I/O whose loop discards the values it reads.
- `DataFormat`: a one-variant tag with no behaviour attached to it.
- The `DataClient` trait as a generic interface: its three operations are modelled as functions on the one implementing adapter, since only one backend exists.
- A row codec, decode errors and row round trips: the code has none; `rows_to_string` is an empty loop.
- Connection teardown and the `can_connect_to_backend` test: they need a live server and carry no logic.
- DataClients.Execute: the text sent to the backend is recorded, but SQL semantics (whether the table exists afterwards) are not modelled.
- DataClients.GetDataByTitle: the query's outcome is a parameter, and the query text is recorded in the same list as executed statements.
