/** The older record insertion (insert.py at the package root): the same
    dispatch on sessions, driven by the older primary-key check, which
    raises IndexError for a table with no primary-key constraint at all.
    Nothing here commits; that is left to the caller's session. */
module LegacyInsert {
  import opened Wrappers
  import opened Schema
  import opened Store
  import Constraints
  import LegacyConstraints
  import Insert

  /** `insert_records_slow_session`: one execute carrying every record. */
  method InsertRecordsSlowSession(table: SaTable, records: seq<Record>, session: Session) returns (o: Outcome<Error>)
    requires session.Valid()
    modifies session
    ensures session.Valid()
    ensures session.db.transactions == old(session.db.transactions)
    ensures o.Pass? <==> table.ref in session.db.catalog
    ensures o.Pass? ==> session.pending == old(session.pending) + [InsertMany(table.ref, records)]
    ensures o.Fail? ==> session.pending == old(session.pending)
  {
    o := session.Execute(InsertMany(table.ref, records));
  }

  /** `insert_records_fast_session`: refuses a table without primary-key
      columns, then one bulk insert through the mapped class. */
  method InsertRecordsFastSession(table: SaTable, records: seq<Record>, session: Session) returns (o: Outcome<Error>)
    requires session.Valid()
    modifies session
    ensures session.Valid()
    ensures session.db.transactions == old(session.db.transactions)
    ensures LegacyConstraints.MissingPrimaryKey(table) == Success(true) ==> o == Fail(MissingPrimaryKey)
    ensures LegacyConstraints.MissingPrimaryKey(table) == Failure(IndexError) ==> o == Fail(IndexError)
    ensures LegacyConstraints.MissingPrimaryKey(table) == Success(false) ==> (o.Pass? <==> session.db.GetClass(table.ref).Pass?)
    ensures o.Pass? ==> session.pending == old(session.pending) + [BulkInsertMappings(table.ref, records)]
    ensures o.Fail? ==> session.pending == old(session.pending)
  {
    var missing := LegacyConstraints.MissingPrimaryKey(table);
    if missing.Failure? {
      return Fail(missing.error);
    }
    if missing.value {
      return Fail(MissingPrimaryKey);
    }
    var mapped := session.db.GetClass(table.ref);
    if mapped.Fail? {
      return mapped;
    }
    o := session.Execute(BulkInsertMappings(table.ref, records));
  }

  /** `insert_records_session`. Where a primary-key constraint exists it
      issues what the newer dispatcher issues; where none exists the check
      itself raises IndexError and nothing is executed. */
  method InsertRecordsSession(table: SaTable, records: seq<Record>, session: Session) returns (o: Outcome<Error>)
    requires session.Valid()
    modifies session
    ensures session.Valid()
    ensures session.db.transactions == old(session.db.transactions)
    ensures !Constraints.HasPrimaryKeyConstraint(table.Constraints()) ==> o == Fail(IndexError)
    ensures o.Pass? ==> session.pending == old(session.pending) + [Insert.ChosenStatement(table, records)]
    ensures o.Fail? ==> session.pending == old(session.pending)
    ensures (Constraints.HasPrimaryKeyConstraint(table.Constraints())
             && session.db.GetTableFromEngine(table.ref.name, table.ref.schema) == Success(table)) ==> o.Pass?
  {
    LegacyConstraints.AgreesWithNewerVariant(table);
    var missing := LegacyConstraints.MissingPrimaryKey(table);
    if missing.Failure? {
      return Fail(missing.error);
    }
    if missing.value {
      o := InsertRecordsSlowSession(table, records, session);
    } else {
      o := InsertRecordsFastSession(table, records, session);
    }
  }
}
