/** Record insertion with a choice of strategy (fullmetalalchemy/insert.py):
    a table without primary-key columns takes the slow path, one multi-row
    `execute`; a table with one takes the fast path, one
    `bulk_insert_mappings` through an automapped class. */
module Insert {
  import opened Wrappers
  import opened Schema
  import opened Store
  import Constraints

  /** The one statement the dispatcher issues for `records` on `table`. */
  function ChosenStatement(table: SaTable, records: seq<Record>): (s: Statement)
    ensures s.target == table.ref && s.records == records
    ensures s.InsertMany? <==> Constraints.NoPrimaryKeyColumns(table.Constraints())
  {
    if Constraints.MissingPrimaryKeyWithTable(table) then InsertMany(table.ref, records)
    else BulkInsertMappings(table.ref, records)
  }

  /** `insert_records_slow_with_session`: one execute carrying every record. */
  method InsertRecordsSlowWithSession(table: SaTable, records: seq<Record>, session: Session) returns (o: Outcome<Error>)
    requires session.Valid()
    modifies session
    ensures session.Valid()
    ensures o.Pass? <==> table.ref in session.db.catalog
    ensures o.Pass? ==> session.pending == old(session.pending) + [InsertMany(table.ref, records)]
    ensures o.Fail? ==> o.error == NoSuchTable(table.ref) && session.pending == old(session.pending)
  {
    o := session.Execute(InsertMany(table.ref, records));
  }

  /** `insert_records_fast_with_session`: refuses a table without primary-key
      columns before touching the session, then one bulk insert of every
      record through the mapped class. */
  method InsertRecordsFastWithSession(table: SaTable, records: seq<Record>, session: Session) returns (o: Outcome<Error>)
    requires session.Valid()
    modifies session
    ensures session.Valid()
    ensures Constraints.MissingPrimaryKeyWithTable(table) ==> o == Fail(MissingPrimaryKey)
    ensures !Constraints.MissingPrimaryKeyWithTable(table) ==> (o.Pass? <==> session.db.GetClass(table.ref).Pass?)
    ensures o.Pass? ==> session.pending == old(session.pending) + [BulkInsertMappings(table.ref, records)]
    ensures o.Fail? ==> session.pending == old(session.pending)
  {
    if Constraints.MissingPrimaryKeyWithTable(table) {
      return Fail(MissingPrimaryKey);
    }
    var mapped := session.db.GetClass(table.ref);
    if mapped.Fail? {
      return mapped;
    }
    o := session.Execute(BulkInsertMappings(table.ref, records));
  }

  /** `insert_records_with_session`: exactly one of the two paths runs. A
      table reflected from the same catalog never fails, so the fast path's
      MissingPrimaryKey guard is never reached through here. */
  method InsertRecordsWithSession(table: SaTable, records: seq<Record>, session: Session) returns (o: Outcome<Error>)
    requires session.Valid()
    modifies session
    ensures session.Valid()
    ensures o.Pass? ==> session.pending == old(session.pending) + [ChosenStatement(table, records)]
    ensures o.Fail? ==> session.pending == old(session.pending)
    ensures Constraints.MissingPrimaryKeyWithTable(table) ==> (o.Pass? <==> table.ref in session.db.catalog)
    ensures Constraints.MissingPrimaryKeyWithTable(table) && o.Fail? ==> o.error == NoSuchTable(table.ref)
    ensures session.db.GetTableFromEngine(table.ref.name, table.ref.schema) == Success(table) ==> o.Pass?
  {
    if Constraints.MissingPrimaryKeyWithTable(table) {
      o := InsertRecordsSlowWithSession(table, records, session);
    } else {
      o := InsertRecordsFastWithSession(table, records, session);
    }
  }

  /** `insert_records_with_engine`: reflect the table, insert in a new
      session, commit once after the insert returns; nothing is committed
      when reflection or the insert fails. */
  method InsertRecordsWithEngine(tableName: string, records: seq<Record>, db: Database, schema: Option<string> := None)
    returns (o: Outcome<Error>)
    requires db.Valid()
    modifies db
    ensures db.Valid()
    ensures db.catalog == old(db.catalog) && db.ddlLog == old(db.ddlLog)
    ensures o.Pass? <==> TableRef(schema, tableName) in old(db.catalog)
    ensures o.Fail? ==> o.error == NoSuchTable(TableRef(schema, tableName))
    ensures o.Fail? ==> db.rows == old(db.rows) && db.transactions == old(db.transactions)
    ensures o.Pass? ==>
      var ref := TableRef(schema, tableName);
      && db.transactions == old(db.transactions) + [[ChosenStatement(SaTable(ref, old(db.catalog)[ref]), records)]]
      && db.rows == old(db.rows)[ref := old(db.rows)[ref] + records]
  {
    var table := db.GetTableFromEngine(tableName, schema);
    if table.Failure? {
      return Fail(table.error);
    }
    var session := new Session(db);
    o := InsertRecordsWithSession(table.value, records, session);
    if o.Pass? {
      ghost var unit := session.pending;
      assert unit == [ChosenStatement(table.value, records)];
      session.Commit();
      assert ApplyStatements(old(db.rows), unit) == ApplyStatement(old(db.rows), unit[0]);
    }
  }

  /** Rows inserted into an empty table sit in input order, so the ids an
      autoincrement key hands out, 1, 2, 3, follow the input order. */
  lemma EmptyTableKeepsInputOrder(rows: map<TableRef, seq<Record>>, table: SaTable, records: seq<Record>, k: nat)
    requires table.ref in rows && rows[table.ref] == [] && k < |records|
    ensures var after := ApplyStatements(rows, [ChosenStatement(table, records)]);
            |after[table.ref]| == |records| && after[table.ref][k] == records[k]
  {
    var st := ChosenStatement(table, records);
    assert [st][1..] == [];
    assert ApplyStatements(rows, [st]) == ApplyStatement(rows, st);
  }
}
