/** The entities the ingestion layer passes between its parts: table names,
    column and constraint descriptions as SQLAlchemy reflects them, row
    records, and the errors the core can raise. */
module Schema {
  import opened Wrappers
  import opened PyTypes
  import opened TypeConvert

  /** A table, named within an optional schema (namespace). */
  datatype TableRef = TableRef(schema: Option<string>, name: string)

  /** A row dictionary: column name to value. */
  type Record = map<string, Value>

  /** SQLAlchemy's `autoincrement` argument: `Union[bool, Literal['auto', 'ignore_fk']]`. */
  datatype Autoincrement = AutoBool(on: bool) | AutoAuto | AutoIgnoreFk

  /** One `sa.Column`: name, SQL type, primary-key flag, autoincrement setting. */
  datatype ColumnDef = ColumnDef(name: string, sqlType: SqlType, primaryKey: bool, autoincrement: Autoincrement)

  /** An entry of `table.constraints`. */
  datatype Constraint =
    | PrimaryKeyConstraint(name: Option<string>, columns: seq<string>)
    | UniqueConstraint(name: Option<string>, columns: seq<string>)
    | ForeignKeyConstraint(name: Option<string>, columns: seq<string>)
    | CheckConstraint(name: Option<string>)

  /** What the catalog stores for a table. */
  datatype TableDef = TableDef(columns: seq<ColumnDef>, constraints: seq<Constraint>)

  /** A reflected `sa.Table`: where it lives and what the catalog said about it. */
  datatype SaTable = SaTable(ref: TableRef, def: TableDef)
  {
    function Constraints(): seq<Constraint> { def.constraints }
  }

  /** The exceptions the modelled code raises. */
  datatype Error =
    | KeyError(key: PyType)          // a Python type missing from `_type_convert`
    | MissingPrimaryKey              // fullmetalalchemy.exceptions.MissingPrimaryKey
    | NoSuchTable(table: TableRef)   // reflecting a table the catalog does not hold
    | TableAlreadyExists(table: TableRef)  // CREATE TABLE on an existing name
    | TableAlreadyDefined(table: TableRef) // `sa.Table` with columns on a name the metadata holds (InvalidRequestError)
    | IndexError                     // subscripting an empty tuple
}
