/** Conversion between Python types and SQLAlchemy column types
    (fullmetalalchemy/type_convert.py): two constant dictionaries, two
    lookups through them, and a picker that chooses an SQL type for a column
    from the exact Python types of its values. */
module TypeConvert {
  import opened Wrappers
  import opened PyTypes

  /** The SQLAlchemy type classes the two tables mention, plus any other. */
  datatype SqlType =
    | Integer | SmallInteger | SMALLINT | BigInteger | BIGINT | INTEGER
    | Unicode | NVARCHAR | NCHAR
    | Float | REAL | FLOAT | Numeric | NUMERIC | DECIMAL
    | DateTime | TIMESTAMP | DATETIME
    | LargeBinary | BLOB
    | Boolean | BOOLEAN | MatchType
    | Date | DATE | Time | TIME | Interval
    | ARRAY | JSON
    | OtherSqlType(name: string)   // e.g. String, VARCHAR, Text

  /** The keys of `_type_convert` in the order the dictionary declares them;
      `get_sql_type` searches them in this order. */
  const TypeConvertOrder: seq<PyType> :=
    [PyInt, PyStr, PyFloat, PyDecimal, PyDateTime, PyBytes, PyBool,
     PyDate, PyTime, PyTimeDelta, PyList, PyDict]

  /** `_type_convert`: Python type to SQL type. */
  const TypeConvertTable: map<PyType, SqlType> := map[
    PyInt := Integer, PyStr := Unicode, PyFloat := Float, PyDecimal := Numeric,
    PyDateTime := DateTime, PyBytes := LargeBinary, PyBool := Boolean,
    PyDate := Date, PyTime := Time, PyTimeDelta := Interval,
    PyList := ARRAY, PyDict := JSON]

  /** The declared key order lists each key of `_type_convert` exactly once. */
  lemma TypeConvertOrderIsKeys()
    ensures forall t :: t in TypeConvertOrder <==> t in TypeConvertTable
    ensures forall i, j :: 0 <= i < j < |TypeConvertOrder| ==> TypeConvertOrder[i] != TypeConvertOrder[j]
  {
  }

  /** `sql_type(t)`: `None` stands for the KeyError the lookup raises. */
  function SqlTypeFor(t: PyType): (r: Option<SqlType>)
    ensures r.Some? <==> !(t.PyNoneType? || t.PyClass? || t.IntOrFloatTuple? || t.UnionFloatInt?)
    ensures r.Some? <==> t in TypeConvertOrder
  {
    if t in TypeConvertTable then Some(TypeConvertTable[t]) else None
  }

  /** `python_type(s)`: the lookup in `_sql_to_python`, whose thirty entries
      are the cases below, grouped by the Python type they map to; `None`
      stands for the KeyError the lookup raises. */
  function PythonTypeFor(s: SqlType): (r: Option<PyType>)
    ensures r.Some? <==> !s.OtherSqlType?
    ensures r.Some? ==> r.value in TypeConvertTable && !r.value.PyFloat?
  {
    match s
    case Integer | SmallInteger | SMALLINT | BigInteger | BIGINT | INTEGER => Some(PyInt)
    case Unicode | NVARCHAR | NCHAR => Some(PyStr)
    case Float | REAL | FLOAT | Numeric | NUMERIC | DECIMAL => Some(PyDecimal)
    case DateTime | TIMESTAMP | DATETIME => Some(PyDateTime)
    case LargeBinary | BLOB => Some(PyBytes)
    case Boolean | BOOLEAN | MatchType => Some(PyBool)
    case Date | DATE => Some(PyDate)
    case Time | TIME => Some(PyTime)
    case Interval => Some(PyTimeDelta)
    case ARRAY => Some(PyList)
    case JSON => Some(PyDict)
    case OtherSqlType(_) => None
  }

  /** Every Python type the first table accepts, except `float`, survives the
      trip to SQL and back. */
  lemma RoundTrip(t: PyType)
    requires SqlTypeFor(t).Some? && t != PyFloat
    ensures PythonTypeFor(SqlTypeFor(t).value) == Some(t)
  {
  }

  /** `float` goes to `Float`, which comes back as `Decimal`. */
  lemma FloatComesBackAsDecimal()
    ensures SqlTypeFor(PyFloat) == Some(Float)
    ensures PythonTypeFor(Float) == Some(PyDecimal)
  {
  }

  /** Exactly the floating-point and fixed-point SQL types map back to `Decimal`. */
  lemma DecimalFamily(s: SqlType)
    ensures PythonTypeFor(s) == Some(PyDecimal) <==> s in {Float, REAL, FLOAT, Numeric, NUMERIC, DECIMAL}
  {
  }

  /** Every value in the column has exactly the type `t` (`type(val) == t`). */
  predicate AllExactly(values: seq<Value>, t: PyType)
  {
    forall i :: 0 <= i < |values| ==> TypeOf(values[i]) == t
  }

  /** The position of the first of `keys` that every value has exactly. */
  function FirstExactKey(keys: seq<PyType>, values: seq<Value>): (r: Option<nat>)
    ensures r.Some? ==> r.value < |keys| && AllExactly(values, keys[r.value])
    ensures r.Some? ==> forall j :: 0 <= j < r.value ==> !AllExactly(values, keys[j])
    ensures r.None? ==> forall j :: 0 <= j < |keys| ==> !AllExactly(values, keys[j])
  {
    if keys == [] then None
    else if AllExactly(values, keys[0]) then Some(0)
    else match FirstExactKey(keys[1..], values)
      case None => None
      case Some(k) => Some(k + 1)
  }

  /** `get_sql_type(values)`: the SQL type of the first key, in declared
      order, that is the exact type of every value; `Unicode` when none is. */
  function GetSqlType(values: seq<Value>): (r: SqlType)
    ensures r in TypeConvertTable.Values
  {
    match FirstExactKey(TypeConvertOrder, values)
    case Some(k) => TypeConvertTable[TypeConvertOrder[k]]
    case None => TypeConvertTable[PyStr]
  }

  /** An independent statement of what `get_sql_type` picks: `Integer` for an
      empty column (it vacuously matches the first key), the SQL type of the
      values' common exact type when there is one and the table knows it,
      and `Unicode` otherwise. */
  function ExpectedSqlType(values: seq<Value>): SqlType
  {
    if values == [] then Integer
    else if AllExactly(values, TypeOf(values[0])) && TypeOf(values[0]) in TypeConvertTable
    then TypeConvertTable[TypeOf(values[0])]
    else Unicode
  }

  lemma {:induction false} GetSqlTypeIsExpected(values: seq<Value>)
    ensures GetSqlType(values) == ExpectedSqlType(values)
  {
    if values == [] {
      assert AllExactly(values, TypeConvertOrder[0]);
    } else {
      var t := TypeOf(values[0]);
      var inTable := SqlTypeFor(t).Some?;   // t is a key, so it is in the declared order
      match FirstExactKey(TypeConvertOrder, values)
      case Some(k) =>
        assert TypeConvertOrder[k] == t;
      case None =>
        if inTable {
          var j :| 0 <= j < |TypeConvertOrder| && TypeConvertOrder[j] == t;
          assert !AllExactly(values, t);
        }
    }
  }

  /** An all-bool column is `Boolean`, not `Integer`: the test is on the exact
      type, although every bool is an instance of `int`. */
  lemma {:induction false} AllBoolIsBoolean(values: seq<Value>)
    requires |values| > 0 && forall i :: 0 <= i < |values| ==> values[i].VBool?
    ensures GetSqlType(values) == Boolean
    ensures forall i :: 0 <= i < |values| ==> IsInstance(values[i], PyInt)
  {
    GetSqlTypeIsExpected(values);
  }

  /** A column whose values differ in exact type falls back to `Unicode`. */
  lemma {:induction false} MixedIsUnicode(values: seq<Value>, i: nat, j: nat)
    requires i < |values| && j < |values| && TypeOf(values[i]) != TypeOf(values[j])
    ensures GetSqlType(values) == Unicode
  {
    GetSqlTypeIsExpected(values);
  }

  /** `get_sql_types(data)`: one SQL type per column, in column order. */
  function GetSqlTypes(data: ColumnData): (r: seq<SqlType>)
    ensures |r| == |data|
    ensures forall i :: 0 <= i < |data| ==> r[i] == ExpectedSqlType(data[i].1)
  {
    if data == [] then []
    else
      GetSqlTypeIsExpected(data[0].1);
      [GetSqlType(data[0].1)] + GetSqlTypes(data[1..])
  }
}
