/** The `Table` object of table.py: a handle on one named table of a
    database, whose `insert_all` creates the table from the rows when the
    catalog does not hold it yet and then inserts the rows. */
module TableFacade {
  import opened Wrappers
  import opened PyTypes
  import opened Schema
  import opened Store
  import Insert
  import Create

  class Table {
    const engine: Database
    const name: string
    const schema: Option<string>

    /** `Table(engine, name, schema)` keeps its three arguments. */
    constructor (engine: Database, name: string, schema: Option<string> := None)
      ensures this.engine == engine && this.name == name && this.schema == schema
    {
      this.engine := engine;
      this.name := name;
      this.schema := schema;
    }

    /** `insert_all(rows, pks)`. `data` is the column-oriented form of
        `rows` that creation infers the column types from. Creation uses
        `if_exists='error'` and `autoincrement=False`; the insert runs once,
        after any creation, and commits once. */
    method InsertAll(rows: seq<Record>, data: ColumnData, pks: Create.PrimaryKeyArg := Create.KeyNames([])) returns (o: Outcome<Error>)
      requires engine.Valid() && DistinctNames(data)
      modifies engine
      ensures engine.Valid()
      ensures o.Pass? ==> TableRef(schema, name) in engine.catalog
      // the name is already in the catalog: no DDL, only the insert
      ensures TableRef(schema, name) in old(engine.catalog) ==>
                var ref := TableRef(schema, name);
                && o.Pass?
                && engine.catalog == old(engine.catalog) && engine.ddlLog == old(engine.ddlLog)
                && engine.transactions
                   == old(engine.transactions) + [[Insert.ChosenStatement(SaTable(ref, old(engine.catalog)[ref]), rows)]]
                && engine.rows == old(engine.rows)[ref := old(engine.rows)[ref] + rows]
      // the name is new: create from the rows, then insert into the new table
      ensures TableRef(schema, name) !in old(engine.catalog) ==>
                var ref := TableRef(schema, name);
                var created := Create.CreateTableEffect(old(engine.State()), name, Create.RowColumns(data, None),
                                                        pks, schema, AutoBool(false), Some("error"));
                && (created.0.Failure? ==> o == Fail(created.0.error) && engine.State() == created.1)
                && (created.0.Success? ==>
                      && o.Pass?
                      && engine.catalog == created.1.catalog && engine.ddlLog == created.1.ddlLog
                      && engine.transactions == created.1.transactions + [[Insert.ChosenStatement(created.0.value, rows)]]
                      && engine.rows == created.1.rows[ref := rows])
    {
      if name !in engine.TableNames(schema) {
        var created := Create.CreateTableFromRowsWithEngine(name, data, pks, engine, schema := schema);
        if created.Failure? {
          return Fail(created.error);
        }
        Create.CreatedTable(old(engine.State()), name, Create.RowColumns(data, None), pks,
                            schema, AutoBool(false), Some("error"));
        assert [] + rows == rows;
      }
      o := Insert.InsertRecordsWithEngine(name, rows, engine, schema);
    }
  }

  /** When the table is new, `insert_all` fails, with nothing written,
      exactly when some column of the rows infers to the `(int, float)`
      tuple; otherwise the created table holds exactly the rows. */
  lemma NewTableOutcome(s: DbState, name: string, schema: Option<string>, data: ColumnData, pks: Create.PrimaryKeyArg)
    requires s.Valid() && TableRef(schema, name) !in s.catalog
    ensures var created := Create.CreateTableEffect(s, name, Create.RowColumns(data, None), pks,
                                                    schema, AutoBool(false), Some("error"));
            && (created.0.Failure? <==> exists i :: 0 <= i < |data| && Create.InferredType(data[i].1) == IntOrFloatTuple)
            && (created.0.Failure? ==> created.0.error == KeyError(IntOrFloatTuple) && created.1 == s)
            && (created.0.Success? ==> created.0.value.ref == TableRef(schema, name)
                                       && created.1.rows[TableRef(schema, name)] == [])
  {
    var columns := Create.RowColumns(data, None);
    var created := Create.CreateTableEffect(s, name, columns, pks, schema, AutoBool(false), Some("error"));
    Create.InferredCreationFailsOnTuple(s, name, data, pks, schema, AutoBool(false), Some("error"));
    if !exists i :: 0 <= i < |data| && Create.InferredType(data[i].1) == IntOrFloatTuple {
      Create.InferredColumnsConvertible(data);
      assert Create.ColumnsFor(columns, Create.PrimaryKeyList(pks), AutoBool(false)).Success?;
      Create.CreateDdlSequence(s, name, columns, pks, schema, AutoBool(false), Some("error"));
      Create.CreatedTable(s, name, columns, pks, schema, AutoBool(false), Some("error"));
    }
  }

  /** With the default `pks=[]` the created table has no primary-key column,
      so the insert that follows takes the slow path: one `execute` of all
      the rows. */
  lemma DefaultKeysTakeSlowPath(s: DbState, name: string, schema: Option<string>, data: ColumnData, rows: seq<Record>)
    requires s.Valid()
    ensures var created := Create.CreateTableEffect(s, name, Create.RowColumns(data, None), Create.KeyNames([]),
                                                    schema, AutoBool(false), Some("error"));
            created.0.Success? && TableRef(schema, name) !in s.catalog ==>
              Insert.ChosenStatement(created.0.value, rows) == InsertMany(TableRef(schema, name), rows)
  {
    Create.CreatedTable(s, name, Create.RowColumns(data, None), Create.KeyNames([]), schema, AutoBool(false), Some("error"));
  }
}
