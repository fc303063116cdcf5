# fullmetal_utils ingestion core, modelled in Dafny

This project models the part of fullmetal_utils that sits between loosely
typed row dictionaries and SQLAlchemy:

- **Type inference by elimination** (`column_datatype`). The Python class
  relations it depends on are an explicit `isinstance` relation over tagged
  values: `bool` is an `int`, `datetime` is a `date`, and the tuple
  `(int, float)` accepts ints, bools and floats.
- **The two conversion tables** (`_type_convert`, `_sql_to_python`) and the
  exact-type picker `get_sql_type`.
- **Table creation.** Column building, the bare-string primary key, the
  autoincrement flag, `if_exists='replace'` and the zip of names with
  inferred types.
- **Primary-key detection**, in both the current and the older variant.
- **The fast/slow insert dispatch**, in both variants.
- **`Table.insert_all`**: create the table when the catalog lacks it, then
  always insert.

The database is a `Database` class. It holds a catalog (table to
description), the rows of each table, the log of DDL statements, and the
committed units of work. A `Session` class holds pending statements until
`Commit`. Methods that change state are proved against pure functions of
the old state:

- `Store.AfterDrop` and `Store.AfterCreate` for DDL;
- `Create.CreateTableEffect` for `create_table_with_engine`;
- `Store.ApplyStatements` for a commit.

The lemmas state what the source promises about those functions.

Modules, one per concern: `Wrappers`, `PyTypes`, `TypeConvert`, `Schema`,
`Constraints`, `LegacyConstraints`, `Store`, `Create`, `Insert`,
`LegacyInsert`, `TableFacade`.

Behaviour that comes from the code as written, and that the model
reproduces:

- **A bool keeps `int`.** `bool` is a subclass of `int`, so a bool passes
  `isinstance(v, int)` and does not remove `int` from the candidates.
- **Any two survivors give `int`.** The two-survivor test in
  `column_datatype` compares a set with an equal set, so it is always
  true, whichever two candidates survive. An all-datetime column therefore
  infers to `int` and is created as an `Integer` column.
- **Float columns infer to the tuple.** The tuple `(int, float)` never
  equals `Union[float, int]`, so a lone surviving tuple is returned as is
  and never turned into `float`. The tuple is not a key of
  `_type_convert`, so creating a table from such rows raises `KeyError`,
  before any DDL.
- **`None` counts as type evidence.** A `None` value is an instance of no
  candidate, so it removes every candidate.
- **Some columns fall back to `str`.** An all-bool column keeps three
  candidates. A column holding `None` keeps none. Both infer to `str`.
- **A key name that is not a column makes no key column.** So
  `insert_all(rows, ['id'])` on rows without an `id` key creates a table
  with no primary key, and the rows then go through the slow path.
- **An existing table name fails in `sa.Table`.** The metadata is
  reflected from the database, so it already holds every existing table;
  `sa.Table(name, metadata, *cols)` with columns then raises
  `InvalidRequestError` before any DROP or CREATE, even with
  `if_exists='replace'`. With no columns it hands back the reflected
  table, so `'replace'` drops and recreates that table, empty.
- **Unnamed keys become `"None"`.** The current primary-key lookup passes
  the name through `str()`, so an unnamed key is reported as the string
  `"None"`.
- **The older lookup can raise `IndexError`.** With no primary-key
  constraint at all, it returns `()`, and `missing_primary_key` then raises
  `IndexError`.

## Model

| member | source | states |
|---|---|---|
| PyTypes.TypeOf | src/fullmetal_utils/fullmetalalchemy/type_convert.py:75 | the exact class of a value is one it is an instance of |
| TypeConvert.TypeConvertOrderIsKeys | src/fullmetal_utils/fullmetalalchemy/type_convert.py:20-33 | the declared key order lists each key of `_type_convert` exactly once |
| TypeConvert.SqlTypeFor | src/fullmetal_utils/fullmetalalchemy/type_convert.py:12-33 | `sql_type` is defined exactly on the twelve keys; it fails for `NoneType`, other classes, the `(int, float)` tuple and the `Union` |
| TypeConvert.PythonTypeFor | src/fullmetal_utils/fullmetalalchemy/type_convert.py:16-66 | `python_type` is defined on every SQL type of the table, and never yields `float` |
| TypeConvert.RoundTrip | src/fullmetal_utils/fullmetalalchemy/type_convert.py:12-66 | `python_type(sql_type(t)) == t` for every key except `float` |
| TypeConvert.FloatComesBackAsDecimal | src/fullmetal_utils/fullmetalalchemy/type_convert.py:20-45 | `float` maps to `Float`, which maps back to `Decimal` |
| TypeConvert.DecimalFamily | src/fullmetal_utils/fullmetalalchemy/type_convert.py:45-50 | an SQL type maps back to `Decimal` exactly when it is one of Float, REAL, FLOAT, Numeric, NUMERIC, DECIMAL |
| TypeConvert.FirstExactKey | src/fullmetal_utils/fullmetalalchemy/type_convert.py:74-75 | the search finds the first key that is every value's exact type, and none is found only when no key is |
| TypeConvert.GetSqlType | src/fullmetal_utils/fullmetalalchemy/type_convert.py:73-77 | the result is always a value of `_type_convert` |
| TypeConvert.GetSqlTypeIsExpected | src/fullmetal_utils/fullmetalalchemy/type_convert.py:73-77 | `get_sql_type` equals an independent rule: `Integer` for an empty column, the table's type for the values' common exact type, `Unicode` otherwise |
| TypeConvert.AllBoolIsBoolean | src/fullmetal_utils/fullmetalalchemy/type_convert.py:73-76 | an all-bool column gives `Boolean`, although every bool is an instance of `int` |
| TypeConvert.MixedIsUnicode | src/fullmetal_utils/fullmetalalchemy/type_convert.py:73-77 | two values of different exact type give `Unicode` |
| TypeConvert.GetSqlTypes | src/fullmetal_utils/fullmetalalchemy/type_convert.py:69-70 | one SQL type per column, in column order, each as `get_sql_type` picks it |
| Create.EliminateKeepsInstances | src/fullmetal_utils/fullmetalalchemy/create.py:77-79 | one pass leaves exactly the candidates the value is an instance of, and keeps them distinct |
| Create.IndexOf | src/fullmetal_utils/fullmetalalchemy/create.py:79 | `dtypes.index(x)` is the first position holding `x` |
| Create.VisitCandidate | src/fullmetal_utils/fullmetalalchemy/create.py:77-79 | visiting the next candidate of the copy pops it exactly when the value is not an instance of it, extending the filtered prefix by one |
| Create.PopNonInstances | src/fullmetal_utils/fullmetalalchemy/create.py:77-79 | popping at `dtypes.index(dtype)` while iterating a copy leaves the order-preserving filter of the list |
| Create.ColumnDatatype | src/fullmetal_utils/fullmetalalchemy/create.py:70-87 | the nested popping loop returns the length rule applied to the candidates no value eliminated |
| Create.SurvivorsAreCommon | src/fullmetal_utils/fullmetalalchemy/create.py:71-79 | the survivors are exactly the candidates every value is an instance of, in candidate order; nothing removed comes back |
| Create.InferenceDependsOnlyOnSatisfiedCandidates | src/fullmetal_utils/fullmetalalchemy/create.py:76-87 | two columns satisfying the same candidates infer the same type |
| Create.InferenceIgnoresOrder | src/fullmetal_utils/fullmetalalchemy/create.py:76-87 | reordering a column's values does not change the inferred type |
| Create.IntCandidates | src/fullmetal_utils/fullmetalalchemy/create.py:71-79 | an int is an instance of `int` and `(int, float)` only |
| Create.BoolCandidates | src/fullmetal_utils/fullmetalalchemy/create.py:71-79 | a bool is an instance of `int`, `(int, float)` and `bool` only |
| Create.FloatCandidates | src/fullmetal_utils/fullmetalalchemy/create.py:71-79 | a float is an instance of `(int, float)` only |
| Create.DateTimeCandidates | src/fullmetal_utils/fullmetalalchemy/create.py:71-79 | a datetime is an instance of `datetime` and `date` only |
| Create.NoneCandidates | src/fullmetal_utils/fullmetalalchemy/create.py:71-79 | `None` is an instance of no candidate |
| Create.OtherCandidates | src/fullmetal_utils/fullmetalalchemy/create.py:71-79 | a value of an unlisted class is an instance of no candidate |
| Create.EmptyColumnIsStr | src/fullmetal_utils/fullmetalalchemy/create.py:71-87 | no values keep all twelve candidates and give `str` |
| Create.IntColumnIsInt | src/fullmetal_utils/fullmetalalchemy/create.py:80-82 | ints, with bools beside them, keep two candidates and give `int` |
| Create.DateTimeColumnIsInt | src/fullmetal_utils/fullmetalalchemy/create.py:80-82 | datetimes keep `datetime` and `date`, and the tautological test gives `int` |
| Create.FloatColumnIsTuple | src/fullmetal_utils/fullmetalalchemy/create.py:83-86 | numbers with at least one float keep only the tuple, which is returned, not `float` |
| Create.BoolColumnIsStr | src/fullmetal_utils/fullmetalalchemy/create.py:72-87 | bools keep three candidates and give `str` |
| Create.UnlistedValueGivesStr | src/fullmetal_utils/fullmetalalchemy/create.py:72-87 | one `None` or unlisted value empties the candidates and gives `str` |
| Create.InferredTypeIsCandidate | src/fullmetal_utils/fullmetalalchemy/create.py:80-87 | the result is a candidate, never `float` nor the `Union`; a result other than `int`/`str` is a sole survivor every value is an instance of |
| Create.ColumnsFor | src/fullmetal_utils/fullmetalalchemy/create.py:44-56 | one column per entry in order, each a key column with the caller's autoincrement exactly when its name is in the key list; otherwise KeyError on the first type `_type_convert` lacks |
| Create.FailureIsFinal | src/fullmetal_utils/fullmetalalchemy/create.py:46-47 | after a failed lookup, later entries change nothing |
| Create.LookupFails | src/fullmetal_utils/fullmetalalchemy/create.py:46-47 | a failed `_type_convert` lookup after successful ones ends the loop with KeyError of that type |
| Create.LookupSucceeds | src/fullmetal_utils/fullmetalalchemy/create.py:47-56 | a successful lookup appends exactly the column built for that entry |
| Create.BuildColumns | src/fullmetal_utils/fullmetalalchemy/create.py:44-56 | the loop, with its rebinding of a bare-string key, builds what `ColumnsFor` describes |
| Create.PrimaryKeyColumnNames | src/fullmetal_utils/fullmetalalchemy/create.py:50-59 | the key of the built table names exactly the columns flagged as key |
| Create.DeclareTable | src/fullmetal_utils/fullmetalalchemy/create.py:58-59 | against metadata reflected from the database, declaring an existing name with columns raises `TableAlreadyDefined`; with no columns it yields the stored table; a new name yields the given columns |
| Create.CreateTableWithEngine | src/fullmetal_utils/fullmetalalchemy/create.py:14-67 | result and new database are those of `CreateTableEffect`: build columns, declare against the reflected metadata, optional DROP, CREATE, reflect back |
| Create.UnconvertibleTypeIssuesNoDdl | src/fullmetal_utils/fullmetalalchemy/create.py:44-66 | the first unconvertible type raises KeyError and the database is unchanged, with no DDL logged |
| Create.ExistingNameRaisesBeforeDdl | src/fullmetal_utils/fullmetalalchemy/create.py:58-59 | an existing name with convertible columns raises `TableAlreadyDefined` with the database unchanged, whatever `if_exists` is |
| Create.CreateDdlSequence | src/fullmetal_utils/fullmetalalchemy/create.py:58-66 | an existing name with columns raises before any DDL; otherwise `replace` logs DROP before CREATE, other values log CREATE only; success iff the name is free or (no columns and `replace`); other tables and committed rows untouched |
| Create.CreatedTable | src/fullmetal_utils/fullmetalalchemy/create.py:44-67 | a created table is cataloged with no rows; for a new name it has the requested columns, its key reads back as `("None", key columns)`, and it is missing a key iff no column name is in `primary_key`; an existing name succeeds only with no columns, recreating the stored table |
| Create.ColumnNames | src/fullmetal_utils/fullmetalalchemy/create.py:112 | the column names, in data order |
| Create.InferredTypes | src/fullmetal_utils/fullmetalalchemy/create.py:111 | one inferred type per column, in data order |
| Create.Zip | src/fullmetal_utils/fullmetalalchemy/create.py:113 | `zip` pairs entries up to the shorter length |
| Create.CreateTableFromRowsWithEngine | src/fullmetal_utils/fullmetalalchemy/create.py:90-114 | infers a type per column when none are given, zips with names, and has the effect of `create_table_with_engine` on them, passing `primary_key` (a name or a list of names) through unchanged |
| Create.InferredColumnsConvertible | src/fullmetal_utils/fullmetalalchemy/create.py:110-113 | inferred columns are one per data column; each type converts unless it is the tuple |
| Create.CandidateConverts | src/fullmetal_utils/fullmetalalchemy/create.py:71-75 | every candidate except the tuple is a key of `_type_convert` |
| Create.InferredCreationFailsOnTuple | src/fullmetal_utils/fullmetalalchemy/create.py:110-114 | with inferred types, creation fails with KeyError on the tuple and no change iff some column infers to the tuple |
| Create.FloatColumnBlocksCreation | src/fullmetal_utils/fullmetalalchemy/create.py:83-114 | a float column makes creation from rows fail, with the database unchanged |
| Create.DateTimeColumnCreatedAsInteger | src/fullmetal_utils/fullmetalalchemy/create.py:80-114 | a datetime column is created as `Integer` |
| Constraints.FirstPrimaryKey | src/fullmetal_utils/fullmetalalchemy/constraints.py:30-32 | finds the first primary-key constraint, and none only when there is none |
| Constraints.NameString | src/fullmetal_utils/fullmetalalchemy/constraints.py:33 | `str()` leaves a name unchanged |
| Constraints.GetPrimaryKeyConstraintsWithTable | src/fullmetal_utils/fullmetalalchemy/constraints.py:5-34 | name as a string and columns of the first key constraint; `(None, [])` exactly when there is none |
| Constraints.MissingPrimaryKeyWithTable | src/fullmetal_utils/fullmetalalchemy/constraints.py:37-62 | true iff the first key constraint, if any, has no columns |
| Constraints.LaterConstraintsIgnored | src/fullmetal_utils/fullmetalalchemy/constraints.py:30-33 | constraints after the first key constraint do not change the result |
| Constraints.UnnamedPrimaryKeyIsStringNone | src/fullmetal_utils/fullmetalalchemy/constraints.py:26-33 | an unnamed key is reported under the string `"None"` |
| Constraints.XyHasPrimaryKey | src/fullmetal_utils/fullmetalalchemy/constraints.py:55-59 | the docstring's table `xy`, keyed on `id`, is not missing a key |
| LegacyConstraints.GetPrimaryKeyConstraints | src/fullmetal_utils/constraints.py:6-35 | name unconverted and columns of the first key constraint; `()` exactly when there is none |
| LegacyConstraints.MissingPrimaryKey | src/fullmetal_utils/constraints.py:38-63 | IndexError exactly when there is no key constraint; otherwise true iff its column list is empty |
| LegacyConstraints.AgreesWithNewerVariant | src/fullmetal_utils/constraints.py:31-63 | with a key constraint both variants agree up to `str()` of the name; without one the older raises where the newer answers "missing" |
| Store.ApplyStatement | src/fullmetal_utils/fullmetalalchemy/insert.py:107 | a statement appends its records, in order, to its table only |
| Store.ApplyStatements | src/fullmetal_utils/fullmetalalchemy/insert.py:20 | a unit of work applied statement by statement keeps the set of tables |
| Store.AfterDrop | src/fullmetal_utils/fullmetalalchemy/create.py:60-63 | DROP IF EXISTS removes the table and its rows, logs the statement, and keeps every other table |
| Store.AfterCreate | src/fullmetal_utils/fullmetalalchemy/create.py:64-66 | CREATE is logged; it fails on an existing name with nothing else changed, else adds an empty table |
| Store.Database.TableNames | src/fullmetal_utils/fullmetalalchemy/tables.py:16-35 | the names of exactly the cataloged tables of the schema |
| Store.Database.GetTableFromEngine | src/fullmetal_utils/fullmetalalchemy/sa_orm.py:51-78 | reflection succeeds exactly for a cataloged table and returns its description |
| Store.Database.GetClass | src/fullmetal_utils/fullmetalalchemy/sa_orm.py:118-153 | a mapped class exists exactly for a cataloged table with key columns; otherwise MissingPrimaryKey |
| Store.Database.DropTableIfExists | src/fullmetal_utils/fullmetalalchemy/create.py:60-63 | new state is `AfterDrop` of the old |
| Store.Database.CreateTable | src/fullmetal_utils/fullmetalalchemy/create.py:64-66 | outcome and new state are `AfterCreate` of the old |
| Store.Session.constructor | src/fullmetal_utils/fullmetalalchemy/insert.py:18 | a new session has nothing pending |
| Store.Session.Execute | src/fullmetal_utils/fullmetalalchemy/insert.py:107 | a statement on a cataloged table is queued; otherwise NoSuchTable and nothing queued |
| Store.Session.Commit | src/fullmetal_utils/fullmetalalchemy/insert.py:20 | the pending statements are applied to the rows and recorded as one transaction |
| Insert.ChosenStatement | src/fullmetal_utils/fullmetalalchemy/insert.py:45-48 | a multi-row execute exactly when the table has no key columns, else one bulk insert, both carrying all records |
| Insert.InsertRecordsSlowWithSession | src/fullmetal_utils/fullmetalalchemy/insert.py:84-107 | on a cataloged table queues one multi-row execute carrying every record; otherwise NoSuchTable and nothing queued |
| Insert.InsertRecordsFastWithSession | src/fullmetal_utils/fullmetalalchemy/insert.py:51-81 | MissingPrimaryKey, nothing queued, when the key has no columns; otherwise succeeds iff the mapped class exists, queuing one bulk insert of every record |
| Insert.InsertRecordsWithSession | src/fullmetal_utils/fullmetalalchemy/insert.py:23-48 | queues exactly the chosen statement; on a table reflected from the catalog it always succeeds, so the fast-path guard never fires |
| Insert.InsertRecordsWithEngine | src/fullmetal_utils/fullmetalalchemy/insert.py:11-20 | succeeds iff the table is cataloged; then commits once, one transaction holding the chosen statement, rows appended; on failure nothing changes |
| Insert.EmptyTableKeepsInputOrder | tests/test_inserts.py:31-43 | records inserted into an empty table sit in input order |
| LegacyInsert.InsertRecordsSlowSession | src/fullmetal_utils/insert.py:71-94 | queues one execute carrying every record; never commits |
| LegacyInsert.InsertRecordsFastSession | src/fullmetal_utils/insert.py:38-68 | IndexError with no key constraint, MissingPrimaryKey with an empty one, else succeeds iff the mapped class exists, queuing one bulk insert; never commits |
| LegacyInsert.InsertRecordsSession | src/fullmetal_utils/insert.py:10-35 | IndexError with no key constraint; otherwise queues what the newer dispatcher queues and succeeds on a reflected table; never commits |
| TableFacade.Table.constructor | src/fullmetal_utils/table.py:15-23 | keeps `engine`, `name` and `schema` unchanged |
| TableFacade.Table.InsertAll | src/fullmetal_utils/table.py:42-50 | a cataloged name is only inserted into; a new name is created from the rows (`error`, no autoincrement, `pks` a name or a list of names, passed through) and then inserted into once |
| TableFacade.NewTableOutcome | src/fullmetal_utils/table.py:47-48 | for a new name, creation fails with nothing written iff some column infers to the tuple; otherwise the table exists, empty |
| TableFacade.DefaultKeysTakeSlowPath | src/fullmetal_utils/table.py:42-50 | with the default `pks=[]` a newly created table gets the following insert as one multi-row execute |

## Left out

- Insert.InsertRecordsWithSession: the documented string form of `table` (src/fullmetal_utils/fullmetalalchemy/insert.py:33-35, used at tests/test_inserts.py:52) is not modelled; the model takes a reflected table only. As written, a string reaches `table.constraints` (src/fullmetal_utils/fullmetalalchemy/constraints.py:30) and raises `AttributeError`.
- LegacyInsert.InsertRecordsSession: the documented string form of `table` (src/fullmetal_utils/insert.py:20-22) is not modelled either; as written, a string raises `AttributeError` at `table.constraints` (src/fullmetal_utils/constraints.py:31).
- The reshape of rows into columns (`tinytim.row_dicts_to_data`, `column_names`, create.py:109 and 112) is not part of this model. `CreateTableFromRowsWithEngine` and `Table.InsertAll` take the column-oriented data as an argument, and nothing ties it to the rows.
- Insert.EmptyTableKeepsInputOrder: the ids 1, 2, 3 that an autoincrement key assigns are not computed. Only the insertion order they follow is stated.
- Names imported in the source but defined under other names are modelled as the functions they evidently mean. These are `sa_orm.get_metadata_with_engine` (create.py:58), the imports of table.py:5-9 and `get_class_with_session` (fullmetalalchemy/insert.py:8), which point to the `_with_engine` / `_from_session` functions.
- The package's exceptions module is not part of this model. `MissingPrimaryKey` is an error value.
- Reflection, metadata and automap are stated abstractly. A reflected table is the stored description. A mapped class exists exactly when the table has key columns.
- Declaring a new table with no columns runs `CREATE TABLE` with an empty column list; whether the database accepts that is not modelled, and the model lets it succeed.
- SQL execution is an append of records to a table's row sequence. Driver batching, constraint violations, rollback details, SQL text and the engine's connection handling are left out. DDL takes effect as soon as it is executed.
- Values are tagged kinds. Floats and decimals are mathematical reals, so floating-point rounding is not modelled. `Union[float, int]` is a distinct type object that nothing equals except itself.
- A table SQLAlchemy builds always carries a primary-key constraint. The model also allows constraint lists without one, to state what the older `missing_primary_key` does with them.
- The other members of `Table` (`__repr__`, `columns`, `rows`, `column_names`, `column_types`) only read through SQLAlchemy and are left out.
- `get_class_from_engine`, `drop_tables_with_engine`, `select`, `columns`, `database` and `connections` are engine plumbing and are left out.
