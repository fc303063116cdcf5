/** The backing database as the core sees it through SQLAlchemy: a catalog of
    table descriptions, the rows of each table, the DDL statements issued
    against it, and the units of work committed through sessions. The
    reflection helpers of sa_orm.py and tables.py are stated here as reads of
    the catalog. */
module Store {
  import opened Wrappers
  import opened Schema
  import Constraints

  /** A DML statement a session executes. */
  datatype Statement =
    | InsertMany(target: TableRef, records: seq<Record>)          // session.execute(table.insert(), records)
    | BulkInsertMappings(target: TableRef, records: seq<Record>)  // session.bulk_insert_mappings(mapper, records)

  /** A DDL statement executed on an engine connection. */
  datatype Ddl = DropTableIfExists(target: TableRef) | CreateTable(target: TableRef, def: TableDef)

  /** A snapshot of everything a `Database` holds. */
  datatype DbState = DbState(
    catalog: map<TableRef, TableDef>,
    rows: map<TableRef, seq<Record>>,
    ddlLog: seq<Ddl>,
    transactions: seq<seq<Statement>>)
  {
    predicate Valid() { rows.Keys == catalog.Keys }
  }

  /** The rows after a statement: its records appended to its table, in order. */
  function ApplyStatement(rows: map<TableRef, seq<Record>>, s: Statement): (r: map<TableRef, seq<Record>>)
    requires s.target in rows
    ensures r.Keys == rows.Keys
    ensures r[s.target] == rows[s.target] + s.records
    ensures forall t :: t in rows && t != s.target ==> r[t] == rows[t]
  {
    rows[s.target := rows[s.target] + s.records]
  }

  predicate TargetsIn(stmts: seq<Statement>, tables: set<TableRef>)
  {
    forall i :: 0 <= i < |stmts| ==> stmts[i].target in tables
  }

  /** The rows after a unit of work: its statements applied in order. */
  function ApplyStatements(rows: map<TableRef, seq<Record>>, stmts: seq<Statement>): (r: map<TableRef, seq<Record>>)
    requires TargetsIn(stmts, rows.Keys)
    ensures r.Keys == rows.Keys
    decreases |stmts|
  {
    if stmts == [] then rows
    else ApplyStatements(ApplyStatement(rows, stmts[0]), stmts[1..])
  }

  /** The database after `DROP TABLE IF EXISTS ref`: the table and its rows
      are gone (if they were there), the statement is logged, nothing else
      changes. */
  function AfterDrop(s: DbState, ref: TableRef): (t: DbState)
    requires s.Valid()
    ensures t.Valid()
    ensures ref !in t.catalog && t.ddlLog == s.ddlLog + [DropTableIfExists(ref)]
    ensures forall other :: other != ref ==>
              (other in t.catalog <==> other in s.catalog) &&
              (other in s.catalog ==> t.catalog[other] == s.catalog[other] && t.rows[other] == s.rows[other])
    ensures t.transactions == s.transactions
  {
    DbState(s.catalog - {ref}, s.rows - {ref}, s.ddlLog + [DropTableIfExists(ref)], s.transactions)
  }

  /** The outcome of `CREATE TABLE ref (def)` and the database after it: the
      statement is logged either way; it fails on a name the catalog already
      holds, and otherwise adds the table with no rows. */
  function AfterCreate(s: DbState, ref: TableRef, def: TableDef): (r: (Outcome<Error>, DbState))
    requires s.Valid()
    ensures r.1.Valid()
    ensures r.1.ddlLog == s.ddlLog + [CreateTable(ref, def)] && r.1.transactions == s.transactions
    ensures r.0.Fail? <==> ref in s.catalog
    ensures r.0.Fail? ==> r.0.error == TableAlreadyExists(ref) && r.1.catalog == s.catalog && r.1.rows == s.rows
    ensures r.0.Pass? ==> r.1.catalog == s.catalog[ref := def] && r.1.rows == s.rows[ref := []]
  {
    var logged := s.(ddlLog := s.ddlLog + [CreateTable(ref, def)]);
    if ref in s.catalog then (Fail(TableAlreadyExists(ref)), logged)
    else (Pass, logged.(catalog := s.catalog[ref := def], rows := s.rows[ref := []]))
  }

  class Database {
    var catalog: map<TableRef, TableDef>
    var rows: map<TableRef, seq<Record>>
    var ddlLog: seq<Ddl>
    var transactions: seq<seq<Statement>>

    ghost predicate Valid()
      reads this
    {
      rows.Keys == catalog.Keys
    }

    function State(): (s: DbState)
      reads this
      ensures s.Valid() <==> Valid()
    {
      DbState(catalog, rows, ddlLog, transactions)
    }

    constructor ()
      ensures Valid()
      ensures catalog == map[] && rows == map[] && ddlLog == [] && transactions == []
    {
      catalog, rows, ddlLog, transactions := map[], map[], [], [];
    }

    /** `get_table_names_with_engine(engine, schema)`. */
    function TableNames(schema: Option<string>): (names: set<string>)
      reads this
      ensures forall n :: n in names <==> TableRef(schema, n) in catalog
    {
      set t | t in catalog && t.schema == schema :: t.name
    }

    /** `get_table_from_engine(name, engine, schema)`: reflect one table. */
    function GetTableFromEngine(name: string, schema: Option<string>): (r: Result<SaTable, Error>)
      reads this
      ensures r.Success? <==> TableRef(schema, name) in catalog
      ensures r.Success? ==> r.value.ref == TableRef(schema, name) && r.value.def == catalog[TableRef(schema, name)]
      ensures r.Failure? ==> r.error == NoSuchTable(TableRef(schema, name))
    {
      var ref := TableRef(schema, name);
      if ref in catalog then Success(SaTable(ref, catalog[ref])) else Failure(NoSuchTable(ref))
    }

    /** `get_class_from_session` / `get_class`: automap generates a mapped
        class only for a table that has a primary key. */
    function GetClass(ref: TableRef): (r: Outcome<Error>)
      reads this
      ensures r.Pass? <==> ref in catalog && !Constraints.NoPrimaryKeyColumns(catalog[ref].constraints)
      ensures r.Fail? && ref in catalog ==> r.error == MissingPrimaryKey
    {
      if ref !in catalog then Fail(NoSuchTable(ref))
      else if Constraints.MissingPrimaryKeyWithTable(SaTable(ref, catalog[ref])) then Fail(MissingPrimaryKey)
      else Pass
    }

    /** `DropTable(table, if_exists=True)` executed on a connection. */
    method DropTableIfExists(ref: TableRef)
      requires Valid()
      modifies this
      ensures Valid()
      ensures State() == AfterDrop(old(State()), ref)
    {
      catalog := catalog - {ref};
      rows := rows - {ref};
      ddlLog := ddlLog + [Ddl.DropTableIfExists(ref)];
    }

    /** `CreateTable(table)` executed on a connection: fails on an existing name. */
    method CreateTable(ref: TableRef, def: TableDef) returns (o: Outcome<Error>)
      requires Valid()
      modifies this
      ensures Valid()
      ensures (o, State()) == AfterCreate(old(State()), ref, def)
    {
      ddlLog := ddlLog + [Ddl.CreateTable(ref, def)];
      if ref in catalog {
        o := Fail(TableAlreadyExists(ref));
      } else {
        catalog := catalog[ref := def];
        rows := rows[ref := []];
        o := Pass;
      }
    }
  }

  /** `sqlalchemy.orm.Session`: statements run inside one unit of work and
      reach the database's rows only when it commits; a session that is
      closed without committing leaves the database as it was. */
  class Session {
    const db: Database
    var pending: seq<Statement>

    ghost predicate Valid()
      reads this, db
    {
      db.Valid() && TargetsIn(pending, db.catalog.Keys)
    }

    constructor (db: Database)
      requires db.Valid()
      ensures Valid() && this.db == db && pending == []
    {
      this.db := db;
      pending := [];
    }

    /** Execute one statement; it fails on a table the catalog does not hold. */
    method Execute(s: Statement) returns (o: Outcome<Error>)
      requires Valid()
      modifies this
      ensures Valid()
      ensures o.Pass? <==> s.target in db.catalog
      ensures o.Fail? ==> o.error == NoSuchTable(s.target) && pending == old(pending)
      ensures o.Pass? ==> pending == old(pending) + [s]
    {
      if s.target in db.catalog {
        pending := pending + [s];
        o := Pass;
      } else {
        o := Fail(NoSuchTable(s.target));
      }
    }

    /** `session.commit()`: the unit of work becomes one committed transaction. */
    method Commit()
      requires Valid()
      modifies this, db
      ensures Valid() && pending == []
      ensures db.rows == ApplyStatements(old(db.rows), old(pending))
      ensures db.transactions == old(db.transactions) + [old(pending)]
      ensures db.catalog == old(db.catalog) && db.ddlLog == old(db.ddlLog)
    {
      db.rows := ApplyStatements(db.rows, pending);
      db.transactions := db.transactions + [pending];
      pending := [];
    }
  }
}
