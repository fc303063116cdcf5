/** The fragment of Python's runtime type system the ingestion layer inspects:
    the kinds of value a row dictionary may hold, the class-info objects the
    source compares them against, and the two relations it uses on them,
    `isinstance` (which follows subclassing) and `type(v) == t` (which does not). */
module PyTypes {

  /** A value found in a row dictionary, tagged by its runtime class. */
  datatype Value =
    | VInt(i: int)
    | VBool(b: bool)
    | VFloat(f: real)
    | VStr(s: string)
    | VDecimal(d: real)
    | VDateTime(stamp: int)
    | VDate(day: int)
    | VTime(seconds: int)
    | VTimeDelta(delta: int)
    | VBytes(bytes: seq<bv8>)
    | VList(items: seq<Value>)
    | VDict(entries: map<string, Value>)
    | VNone
    | VOther(cls: string)   // an instance of any other class, named by its class

  /** A Python class-info object as the source passes them around: a class,
      the tuple `(int, float)`, or the typing object `Union[float, int]`. */
  datatype PyType =
    | PyInt | PyStr | PyFloat | PyDecimal | PyDateTime | PyBytes | PyBool
    | PyDate | PyTime | PyTimeDelta | PyList | PyDict
    | PyNoneType
    | PyClass(name: string)  // any other class
    | IntOrFloatTuple        // the tuple (int, float)
    | UnionFloatInt          // typing.Union[float, int]

  /** `isinstance(v, t)`. `bool` is a subclass of `int` and `datetime` a
      subclass of `date`; a tuple (and, from Python 3.10, a Union) accepts a
      value that is an instance of any of its members. */
  predicate IsInstance(v: Value, t: PyType)
  {
    match t
    case PyInt => v.VInt? || v.VBool?
    case PyStr => v.VStr?
    case PyFloat => v.VFloat?
    case PyDecimal => v.VDecimal?
    case PyDateTime => v.VDateTime?
    case PyBytes => v.VBytes?
    case PyBool => v.VBool?
    case PyDate => v.VDate? || v.VDateTime?
    case PyTime => v.VTime?
    case PyTimeDelta => v.VTimeDelta?
    case PyList => v.VList?
    case PyDict => v.VDict?
    case PyNoneType => v.VNone?
    case PyClass(n) => v.VOther? && v.cls == n
    case IntOrFloatTuple => v.VInt? || v.VBool? || v.VFloat?  // int or float
    case UnionFloatInt => v.VFloat? || v.VInt? || v.VBool?    // float or int
  }

  /** `type(v)`: the exact class of a value, ignoring subclassing. */
  function TypeOf(v: Value): (t: PyType)
    ensures IsInstance(v, t)
  {
    match v
    case VInt(_) => PyInt
    case VBool(_) => PyBool
    case VFloat(_) => PyFloat
    case VStr(_) => PyStr
    case VDecimal(_) => PyDecimal
    case VDateTime(_) => PyDateTime
    case VDate(_) => PyDate
    case VTime(_) => PyTime
    case VTimeDelta(_) => PyTimeDelta
    case VBytes(_) => PyBytes
    case VList(_) => PyList
    case VDict(_) => PyDict
    case VNone => PyNoneType
    case VOther(n) => PyClass(n)
  }

  /** The column-oriented form of a batch of rows: column names, in order,
      each with the values found in that column. */
  type ColumnData = seq<(string, seq<Value>)>

  /** The column names are the keys of a dict, so no name occurs twice. */
  predicate DistinctNames(data: ColumnData)
  {
    forall i, j :: 0 <= i < j < |data| ==> data[i].0 != data[j].0
  }
}
