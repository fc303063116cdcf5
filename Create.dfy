/** Table creation (fullmetalalchemy/create.py): inferring a column's Python
    type from its values by elimination, turning a column-to-type mapping
    into SQLAlchemy columns, and issuing the drop and create statements. */
module Create {
  import opened Wrappers
  import opened PyTypes
  import opened TypeConvert
  import opened Schema
  import opened Store
  import Constraints

  // ---------------------------------------------------------------------
  // column_datatype: type inference by elimination

  /** The twelve candidates `column_datatype` starts from, in its order. */
  const Candidates: seq<PyType> :=
    [PyInt, PyStr, IntOrFloatTuple, PyDecimal, PyDateTime, PyBytes, PyBool,
     PyDate, PyTime, PyTimeDelta, PyList, PyDict]

  predicate Distinct(ts: seq<PyType>)
  {
    forall i, j :: 0 <= i < j < |ts| ==> ts[i] != ts[j]
  }

  /** The candidates of `ts` that `v` is an instance of, in order: what one
      pass of the inner loop leaves in the list. */
  function Eliminate(ts: seq<PyType>, v: Value): seq<PyType>
  {
    if ts == [] then []
    else (if IsInstance(v, ts[0]) then [ts[0]] else []) + Eliminate(ts[1..], v)
  }

  /** The candidate list after the outer loop has seen `values`, value by value. */
  function Survivors(values: seq<Value>): seq<PyType>
    decreases |values|
  {
    if values == [] then Candidates
    else Eliminate(Survivors(values[..|values| - 1]), values[|values| - 1])
  }

  /** The length-based rule applied to the survivors. The two-survivor test
      compares a set with an equal set, so it always holds, whatever the two
      survivors are; and no survivor is ever the typing object
      `Union[float, int]`, so the `float` branch is never taken. */
  function Resolve(dtypes: seq<PyType>): PyType
  {
    if |dtypes| == 2 && {PyInt, UnionFloatInt} == {PyInt, UnionFloatInt} then PyInt
    else if |dtypes| == 1 then (if dtypes[0] == UnionFloatInt then PyFloat else dtypes[0])
    else PyStr
  }

  function InferredType(values: seq<Value>): PyType
  {
    Resolve(Survivors(values))
  }

  /** `dtypes.index(x)`. */
  function IndexOf(s: seq<PyType>, x: PyType): (k: nat)
    requires x in s
    ensures k < |s| && s[k] == x && x !in s[..k]
  {
    if s[0] == x then 0 else 1 + IndexOf(s[1..], x)
  }

  lemma {:induction false} EliminateKeepsInstances(ts: seq<PyType>, v: Value)
    ensures forall t :: t in Eliminate(ts, v) <==> t in ts && IsInstance(v, t)
    ensures Distinct(ts) ==> Distinct(Eliminate(ts, v))
  {
    if ts != [] {
      EliminateKeepsInstances(ts[1..], v);
    }
  }

  lemma {:induction false} EliminateAppend(ts: seq<PyType>, t: PyType, v: Value)
    ensures Eliminate(ts + [t], v) == Eliminate(ts, v) + (if IsInstance(v, t) then [t] else [])
  {
    if ts != [] {
      assert (ts + [t])[1..] == ts[1..] + [t];
      EliminateAppend(ts[1..], t, v);
    }
  }

  /** The position of each candidate in `Candidates`. */
  function CandidatePosition(t: PyType): int
  {
    match t
    case PyInt => 0
    case PyStr => 1
    case IntOrFloatTuple => 2
    case PyDecimal => 3
    case PyDateTime => 4
    case PyBytes => 5
    case PyBool => 6
    case PyDate => 7
    case PyTime => 8
    case PyTimeDelta => 9
    case PyList => 10
    case PyDict => 11
    case _ => -1
  }

  lemma CandidatesAreDistinct()
    ensures Distinct(Candidates)
  {
    assert forall i :: 0 <= i < |Candidates| ==> CandidatePosition(Candidates[i]) == i;
  }

  lemma {:induction false} SurvivorsAreDistinct(values: seq<Value>)
    ensures Distinct(Survivors(values))
    decreases |values|
  {
    if values == [] {
      CandidatesAreDistinct();
    } else {
      SurvivorsAreDistinct(values[..|values| - 1]);
      EliminateKeepsInstances(Survivors(values[..|values| - 1]), values[|values| - 1]);
    }
  }

  lemma SurvivorsStep(values: seq<Value>, i: nat)
    requires i < |values|
    ensures Survivors(values[..i + 1]) == Eliminate(Survivors(values[..i]), values[i])
  {
    assert values[..i + 1][..i] == values[..i];
  }

  /** Popping a candidate the value is not an instance of, at the place
      `dtypes.index` finds it, keeps the list equal to the filtered prefix of
      the snapshot followed by the part still to be visited. */
  lemma {:induction false} PopStep(dtypes: seq<PyType>, snapshot: seq<PyType>, j: nat, value: Value)
    requires Distinct(snapshot) && j < |snapshot| && !IsInstance(value, snapshot[j])
    requires dtypes == Eliminate(snapshot[..j], value) + snapshot[j..]
    ensures snapshot[j] in dtypes
    ensures var k := IndexOf(dtypes, snapshot[j]);
            dtypes[..k] + dtypes[k + 1..] == Eliminate(snapshot[..j + 1], value) + snapshot[j + 1..]
  {
    var dtype := snapshot[j];
    var kept := Eliminate(snapshot[..j], value);
    var rest := snapshot[j..];
    EliminateKeepsInstances(snapshot[..j], value);
    assert dtype !in snapshot[..j];
    assert dtype !in kept;
    assert rest[0] == dtype && rest[1..] == snapshot[j + 1..];
    IndexOfConcat(kept, rest, dtype);
    assert IndexOf(rest, dtype) == 0;
    assert dtypes[..|kept|] == kept;
    assert dtypes[|kept| + 1..] == rest[1..];
    assert snapshot[..j + 1] == snapshot[..j] + [dtype];
    EliminateAppend(snapshot[..j], dtype, value);
  }

  /** `(a + b).index(x)` skips all of `a` when `x` is not in it. */
  lemma {:induction false} IndexOfConcat(a: seq<PyType>, b: seq<PyType>, x: PyType)
    requires x !in a && x in b
    ensures x in a + b && IndexOf(a + b, x) == |a| + IndexOf(b, x)
  {
    if a == [] {
      assert a + b == b;
    } else {
      assert (a + b)[1..] == a[1..] + b;
      IndexOfConcat(a[1..], b, x);
    }
  }

  /** Keeping a candidate the value is an instance of moves it from the part
      still to be visited to the filtered prefix. */
  lemma KeepStep(snapshot: seq<PyType>, j: nat, value: Value)
    requires j < |snapshot| && IsInstance(value, snapshot[j])
    ensures Eliminate(snapshot[..j], value) + snapshot[j..] == Eliminate(snapshot[..j + 1], value) + snapshot[j + 1..]
  {
    assert snapshot[..j + 1] == snapshot[..j] + [snapshot[j]];
    assert snapshot[j..] == [snapshot[j]] + snapshot[j + 1..];
    EliminateAppend(snapshot[..j], snapshot[j], value);
  }

  /** One pass of the inner loop of `column_datatype`: walk a copy of the
      candidate list and pop, where `dtypes.index` finds it, every candidate
      `value` is not an instance of. */
  method PopNonInstances(dtypes: seq<PyType>, value: Value) returns (r: seq<PyType>)
    requires Distinct(dtypes)
    ensures r == Eliminate(dtypes, value)
  {
    r := dtypes;
    var snapshot := dtypes;   // list(dtypes)
    var j := 0;
    assert snapshot[..0] == [];
    while j < |snapshot|
      invariant 0 <= j <= |snapshot|
      invariant r == Eliminate(snapshot[..j], value) + snapshot[j..]
    {
      r := VisitCandidate(r, snapshot, j, value);
      j := j + 1;
    }
    assert snapshot[..j] == snapshot;
  }

  /** The body of the inner loop for the candidate `snapshot[j]`: pop it
      from `dtypes` at `dtypes.index(dtype)` unless `value` is an instance of it. */
  method VisitCandidate(dtypes: seq<PyType>, snapshot: seq<PyType>, j: nat, value: Value) returns (r: seq<PyType>)
    requires Distinct(snapshot) && j < |snapshot|
    requires dtypes == Eliminate(snapshot[..j], value) + snapshot[j..]
    ensures r == Eliminate(snapshot[..j + 1], value) + snapshot[j + 1..]
  {
    var dtype := snapshot[j];
    if !IsInstance(value, dtype) {
      PopStep(dtypes, snapshot, j, value);
      var k := IndexOf(dtypes, dtype);
      r := dtypes[..k] + dtypes[k + 1..];
    } else {
      KeepStep(snapshot, j, value);
      r := dtypes;
    }
  }

  /** `column_datatype(values)`: the outer loop narrows the candidate list
      value by value; the length of what is left then decides the result. */
  method ColumnDatatype(values: seq<Value>) returns (t: PyType)
    ensures t == InferredType(values)
  {
    var dtypes := Candidates;
    var i := 0;
    while i < |values|
      invariant 0 <= i <= |values|
      invariant dtypes == Survivors(values[..i])
    {
      SurvivorsAreDistinct(values[..i]);
      dtypes := PopNonInstances(dtypes, values[i]);
      SurvivorsStep(values, i);
      i := i + 1;
    }
    assert values[..i] == values;
    if |dtypes| == 2 && {PyInt, UnionFloatInt} == {PyInt, UnionFloatInt} {
      return PyInt;
    }
    if |dtypes| == 1 {
      if dtypes[0] == UnionFloatInt {
        return PyFloat;
      }
      return dtypes[0];
    }
    return PyStr;
  }

  /** Every value is an instance of `t`. */
  predicate AllInstances(values: seq<Value>, t: PyType)
  {
    forall i :: 0 <= i < |values| ==> IsInstance(values[i], t)
  }

  /** An independent statement of what elimination leaves: the candidates of
      `ts` that every value is an instance of, in order. */
  function CommonTypes(ts: seq<PyType>, values: seq<Value>): seq<PyType>
  {
    if ts == [] then []
    else (if AllInstances(values, ts[0]) then [ts[0]] else []) + CommonTypes(ts[1..], values)
  }

  lemma {:induction false} CommonOfNoValues(ts: seq<PyType>)
    ensures CommonTypes(ts, []) == ts
  {
    if ts != [] {
      CommonOfNoValues(ts[1..]);
    }
  }

  lemma {:induction false} EliminateCommon(ts: seq<PyType>, values: seq<Value>, v: Value)
    ensures Eliminate(CommonTypes(ts, values), v) == CommonTypes(ts, values + [v])
  {
    if ts != [] {
      var t := ts[0];
      assert AllInstances(values + [v], t) <==> AllInstances(values, t) && IsInstance(v, t) by {
        if AllInstances(values, t) && IsInstance(v, t) {
          forall i | 0 <= i < |values + [v]| ensures IsInstance((values + [v])[i], t) {
            if i < |values| {
              assert (values + [v])[i] == values[i];
            }
          }
        }
        if AllInstances(values + [v], t) {
          forall i | 0 <= i < |values| ensures IsInstance(values[i], t) {
            assert (values + [v])[i] == values[i];
          }
          assert (values + [v])[|values|] == v;
        }
      }
      EliminateCommon(ts[1..], values, v);
      if AllInstances(values, t) {
        var rest := CommonTypes(ts[1..], values);
        assert CommonTypes(ts, values) == [t] + rest;
        assert ([t] + rest)[0] == t && ([t] + rest)[1..] == rest;
        assert Eliminate([t] + rest, v) == (if IsInstance(v, t) then [t] else []) + Eliminate(rest, v);
        if IsInstance(v, t) {
          assert CommonTypes(ts, values + [v]) == [t] + CommonTypes(ts[1..], values + [v]);
        } else {
          assert CommonTypes(ts, values + [v]) == CommonTypes(ts[1..], values + [v]);
        }
      } else {
        assert CommonTypes(ts, values) == CommonTypes(ts[1..], values);
        assert CommonTypes(ts, values + [v]) == CommonTypes(ts[1..], values + [v]);
      }
    }
  }

  /** Popping value by value leaves exactly the candidates every value is an
      instance of: nothing removed is ever put back. */
  lemma {:induction false} SurvivorsAreCommon(values: seq<Value>)
    ensures Survivors(values) == CommonTypes(Candidates, values)
    decreases |values|
  {
    if values == [] {
      CommonOfNoValues(Candidates);
    } else {
      var init := values[..|values| - 1];
      var last := values[|values| - 1];
      SurvivorsAreCommon(init);
      EliminateCommon(Candidates, init, last);
      assert init + [last] == values;
    }
  }

  lemma {:induction false} CommonDependsOnlyOnSatisfied(ts: seq<PyType>, vs: seq<Value>, ws: seq<Value>)
    requires forall t :: t in ts ==> (AllInstances(vs, t) <==> AllInstances(ws, t))
    ensures CommonTypes(ts, vs) == CommonTypes(ts, ws)
  {
    if ts != [] {
      CommonDependsOnlyOnSatisfied(ts[1..], vs, ws);
    }
  }

  /** The inferred type depends only on which candidates every value is an
      instance of. */
  lemma InferenceDependsOnlyOnSatisfiedCandidates(vs: seq<Value>, ws: seq<Value>)
    requires forall t :: t in Candidates ==> (AllInstances(vs, t) <==> AllInstances(ws, t))
    ensures InferredType(vs) == InferredType(ws)
  {
    SurvivorsAreCommon(vs);
    SurvivorsAreCommon(ws);
    CommonDependsOnlyOnSatisfied(Candidates, vs, ws);
  }

  /** Reordering (or repeating) the values does not change the inferred type. */
  lemma InferenceIgnoresOrder(vs: seq<Value>, ws: seq<Value>)
    requires multiset(vs) == multiset(ws)
    ensures InferredType(vs) == InferredType(ws)
  {
    forall t | t in Candidates ensures AllInstances(vs, t) <==> AllInstances(ws, t) {
      if AllInstances(vs, t) {
        forall i | 0 <= i < |ws| ensures IsInstance(ws[i], t) {
          assert ws[i] in multiset(ws);
          var k :| 0 <= k < |vs| && vs[k] == ws[i];
        }
      }
      if AllInstances(ws, t) {
        forall i | 0 <= i < |vs| ensures IsInstance(vs[i], t) {
          assert vs[i] in multiset(vs);
          var k :| 0 <= k < |ws| && ws[k] == vs[i];
        }
      }
    }
    InferenceDependsOnlyOnSatisfiedCandidates(vs, ws);
  }

  /** When one value's candidates are shared by all values, elimination
      leaves exactly that value's candidates. */
  lemma {:induction false} CommonIsWitnessClass(ts: seq<PyType>, values: seq<Value>, k: nat)
    requires k < |values|
    requires forall t :: t in ts && IsInstance(values[k], t) ==> AllInstances(values, t)
    ensures CommonTypes(ts, values) == Eliminate(ts, values[k])
  {
    if ts != [] {
      CommonIsWitnessClass(ts[1..], values, k);
    }
  }

  function Keep(v: Value, t: PyType): seq<PyType>
  {
    if IsInstance(v, t) then [t] else []
  }

  lemma EliminateCons(t: PyType, ts: seq<PyType>, v: Value)
    ensures Eliminate([t] + ts, v) == Keep(v, t) + Eliminate(ts, v)
  {
    assert ([t] + ts)[1..] == ts;
  }

  lemma CandidatesUnrolled(v: Value)
    ensures Eliminate(Candidates, v) == Keep(v, PyInt) + (Keep(v, PyStr) + (Keep(v, IntOrFloatTuple) + (Keep(v, PyDecimal) + (Keep(v, PyDateTime) + (Keep(v, PyBytes) + (Keep(v, PyBool) + (Keep(v, PyDate) + (Keep(v, PyTime) + (Keep(v, PyTimeDelta) + (Keep(v, PyList) + (Keep(v, PyDict))))))))))))
  {
    var e: seq<PyType> := [];
    EliminateCons(PyDict, e, v);
    e := [PyDict] + e;
    EliminateCons(PyList, e, v);
    e := [PyList] + e;
    EliminateCons(PyTimeDelta, e, v);
    e := [PyTimeDelta] + e;
    EliminateCons(PyTime, e, v);
    e := [PyTime] + e;
    EliminateCons(PyDate, e, v);
    e := [PyDate] + e;
    EliminateCons(PyBool, e, v);
    e := [PyBool] + e;
    EliminateCons(PyBytes, e, v);
    e := [PyBytes] + e;
    EliminateCons(PyDateTime, e, v);
    e := [PyDateTime] + e;
    EliminateCons(PyDecimal, e, v);
    e := [PyDecimal] + e;
    EliminateCons(IntOrFloatTuple, e, v);
    e := [IntOrFloatTuple] + e;
    EliminateCons(PyStr, e, v);
    e := [PyStr] + e;
    EliminateCons(PyInt, e, v);
    e := [PyInt] + e;
    assert e == Candidates;
  }

  /** Elimination works candidate by candidate, so it distributes over `+`. */
  lemma {:induction false} EliminateConcat(a: seq<PyType>, b: seq<PyType>, v: Value)
    ensures Eliminate(a + b, v) == Eliminate(a, v) + Eliminate(b, v)
  {
    if a == [] {
      assert a + b == b;
    } else {
      assert (a + b)[1..] == a[1..] + b;
      EliminateConcat(a[1..], b, v);
      var k := if IsInstance(v, a[0]) then [a[0]] else [];
      assert k + (Eliminate(a[1..], v) + Eliminate(b, v)) == (k + Eliminate(a[1..], v)) + Eliminate(b, v);
    }
  }

  /** The candidates each kind of value is an instance of. */
  lemma IntCandidates(v: Value)
    requires v.VInt?
    ensures Eliminate(Candidates, v) == [PyInt, IntOrFloatTuple]
  {
    CandidatesUnrolled(v);
  }

  lemma BoolCandidates(v: Value)
    requires v.VBool?
    ensures Eliminate(Candidates, v) == [PyInt, IntOrFloatTuple, PyBool]
  {
    CandidatesUnrolled(v);
  }

  lemma FloatCandidates(v: Value)
    requires v.VFloat?
    ensures Eliminate(Candidates, v) == [IntOrFloatTuple]
  {
    CandidatesUnrolled(v);
  }

  lemma DateTimeCandidates(v: Value)
    requires v.VDateTime?
    ensures Eliminate(Candidates, v) == [PyDateTime, PyDate]
  {
    var before := [PyInt, PyStr, IntOrFloatTuple, PyDecimal];
    var between := [PyBytes, PyBool];
    var after := [PyTime, PyTimeDelta, PyList, PyDict];
    assert Candidates == before + ([PyDateTime] + (between + ([PyDate] + after)));
    EliminateAll(before, v);
    EliminateAll(between, v);
    EliminateAll(after, v);
    EliminateConcat(before, [PyDateTime] + (between + ([PyDate] + after)), v);
    EliminateCons(PyDateTime, between + ([PyDate] + after), v);
    EliminateConcat(between, [PyDate] + after, v);
    EliminateCons(PyDate, after, v);
  }

  /** A value that is an instance of none of `ts` eliminates all of them. */
  lemma {:induction false} EliminateAll(ts: seq<PyType>, v: Value)
    requires forall i :: 0 <= i < |ts| ==> !IsInstance(v, ts[i])
    ensures Eliminate(ts, v) == []
  {
    if ts != [] {
      EliminateAll(ts[1..], v);
    }
  }

  lemma NoneCandidates(v: Value)
    requires v.VNone?
    ensures Eliminate(Candidates, v) == []
  {
    EliminateAll(Candidates, v);
  }

  lemma OtherCandidates(v: Value)
    requires v.VOther?
    ensures Eliminate(Candidates, v) == []
  {
    EliminateAll(Candidates, v);
  }

  lemma {:induction false} CommonMembers(ts: seq<PyType>, values: seq<Value>)
    ensures forall t :: t in CommonTypes(ts, values) <==> t in ts && AllInstances(values, t)
  {
    if ts != [] {
      CommonMembers(ts[1..], values);
    }
  }

  /** When one value's candidates are shared by every value, inference ends
      with exactly that value's candidates. */
  lemma WitnessDecides(values: seq<Value>, k: nat)
    requires k < |values|
    requires forall t :: t in Candidates && IsInstance(values[k], t) ==> AllInstances(values, t)
    ensures Survivors(values) == Eliminate(Candidates, values[k])
  {
    SurvivorsAreCommon(values);
    CommonIsWitnessClass(Candidates, values, k);
  }

  /** When a value's candidates are all shared by every value, the witness
      condition of `WitnessDecides` holds. */
  lemma OnlyShared(values: seq<Value>, k: nat, shared: seq<PyType>)
    requires k < |values| && Eliminate(Candidates, values[k]) == shared
    requires forall j :: 0 <= j < |shared| ==> AllInstances(values, shared[j])
    ensures forall t :: t in Candidates && IsInstance(values[k], t) ==> AllInstances(values, t)
  {
    EliminateKeepsInstances(Candidates, values[k]);
  }

  /** A value whose candidates every value shares decides the survivors. */
  lemma ColumnKeeps(values: seq<Value>, k: nat, shared: seq<PyType>)
    requires k < |values| && Eliminate(Candidates, values[k]) == shared
    requires forall j :: 0 <= j < |shared| ==> AllInstances(values, shared[j])
    ensures Survivors(values) == shared
  {
    OnlyShared(values, k, shared);
    WitnessDecides(values, k);
  }

  /** No values: all twelve candidates survive and the result is `str`. */
  lemma EmptyColumnIsStr()
    ensures Survivors([]) == Candidates
    ensures InferredType([]) == PyStr
  {
  }

  /** A column of ints (bools allowed beside them) keeps `int` and
      `(int, float)`: two survivors, so `int`. */
  lemma IntColumnIsInt(values: seq<Value>)
    requires exists k :: 0 <= k < |values| && values[k].VInt?
    requires forall i :: 0 <= i < |values| ==> values[i].VInt? || values[i].VBool?
    ensures Survivors(values) == [PyInt, IntOrFloatTuple]
    ensures InferredType(values) == PyInt
  {
    var k :| 0 <= k < |values| && values[k].VInt?;
    IntsAndBoolsAreInts(values);
    IntCandidates(values[k]);
    ColumnKeeps(values, k, [PyInt, IntOrFloatTuple]);
  }

  /** A column of datetimes keeps `datetime` and `date`: also two survivors,
      so the tautological set test answers `int`. */
  lemma DateTimeColumnIsInt(values: seq<Value>)
    requires |values| > 0
    requires forall i :: 0 <= i < |values| ==> values[i].VDateTime?
    ensures Survivors(values) == [PyDateTime, PyDate]
    ensures InferredType(values) == PyInt
  {
    DateTimesAreDates(values);
    DateTimeCandidates(values[0]);
    ColumnKeeps(values, 0, [PyDateTime, PyDate]);
  }

  /** A column of numbers with at least one float keeps only the tuple
      `(int, float)`, which is returned as it is: never `float`. */
  lemma FloatColumnIsTuple(values: seq<Value>)
    requires exists k :: 0 <= k < |values| && values[k].VFloat?
    requires forall i :: 0 <= i < |values| ==> values[i].VInt? || values[i].VBool? || values[i].VFloat?
    ensures Survivors(values) == [IntOrFloatTuple]
    ensures InferredType(values) == IntOrFloatTuple
  {
    var k :| 0 <= k < |values| && values[k].VFloat?;
    NumbersAreTupleInstances(values);
    FloatCandidates(values[k]);
    ColumnKeeps(values, k, [IntOrFloatTuple]);
  }

  lemma DateTimesAreDates(values: seq<Value>)
    requires forall i :: 0 <= i < |values| ==> values[i].VDateTime?
    ensures AllInstances(values, PyDateTime) && AllInstances(values, PyDate)
  {
  }

  lemma NumbersAreTupleInstances(values: seq<Value>)
    requires forall i :: 0 <= i < |values| ==> values[i].VInt? || values[i].VBool? || values[i].VFloat?
    ensures AllInstances(values, IntOrFloatTuple)
  {
  }

  lemma IntsAndBoolsAreInts(values: seq<Value>)
    requires forall i :: 0 <= i < |values| ==> values[i].VInt? || values[i].VBool?
    ensures AllInstances(values, PyInt) && AllInstances(values, IntOrFloatTuple)
  {
  }

  lemma BoolsAreInts(values: seq<Value>)
    requires forall i :: 0 <= i < |values| ==> values[i].VBool?
    ensures AllInstances(values, PyInt) && AllInstances(values, IntOrFloatTuple) && AllInstances(values, PyBool)
  {
  }

  /** A column of bools keeps `int`, `(int, float)` and `bool`: three
      survivors, so `str`. */
  lemma BoolColumnIsStr(values: seq<Value>)
    requires |values| > 0
    requires forall i :: 0 <= i < |values| ==> values[i].VBool?
    ensures Survivors(values) == [PyInt, IntOrFloatTuple, PyBool]
    ensures InferredType(values) == PyStr
  {
    var shared := [PyInt, IntOrFloatTuple, PyBool];
    BoolsAreInts(values);
    forall j | 0 <= j < |shared| ensures AllInstances(values, shared[j]) {
    }
    BoolCandidates(values[0]);
    OnlyShared(values, 0, shared);
    WitnessDecides(values, 0);
  }

  /** One `None` (or a value of an unlisted class) removes every candidate,
      so the result is `str`. */
  lemma UnlistedValueGivesStr(values: seq<Value>, k: nat)
    requires k < |values| && (values[k].VNone? || values[k].VOther?)
    ensures Survivors(values) == []
    ensures InferredType(values) == PyStr
  {
    if values[k].VNone? {
      NoneCandidates(values[k]);
    } else {
      OtherCandidates(values[k]);
    }
    ColumnKeeps(values, k, []);
  }

  /** The result is always one of the candidates (`str` among them), so it
      is never `float` nor the `Union` the code compares against; and a
      result other than the two fallbacks is a type every value is an
      instance of. */
  lemma InferredTypeIsCandidate(values: seq<Value>)
    ensures InferredType(values) in Candidates
    ensures InferredType(values) != PyFloat && InferredType(values) != UnionFloatInt
    ensures InferredType(values) != PyStr && InferredType(values) != PyInt ==>
              |Survivors(values)| == 1 && AllInstances(values, InferredType(values))
  {
    SurvivorsAreCommon(values);
    CommonMembers(Candidates, values);
    var S := Survivors(values);
    if |S| == 1 {
      assert S[0] in S;
    }
  }

  // ---------------------------------------------------------------------
  // create_table_with_engine: columns, then DROP/CREATE

  /** The `primary_key` argument: one column name, or a sequence of them. */
  datatype PrimaryKeyArg = KeyName(name: string) | KeyNames(names: seq<string>)

  /** The list the membership test runs against: a bare string is first
      rebound to a one-element list. */
  function PrimaryKeyList(pk: PrimaryKeyArg): seq<string>
  {
    match pk
    case KeyName(n) => [n]
    case KeyNames(ns) => ns
  }

  /** What `sa.Column` the loop builds for one column whose type converted to
      `sqlType`: a primary-key column carries the caller's `autoincrement`,
      any other keeps SQLAlchemy's default `"auto"`. */
  function ColumnFor(name: string, sqlType: SqlType, pkNames: seq<string>, autoincrement: Autoincrement): ColumnDef
  {
    if name in pkNames then ColumnDef(name, sqlType, true, autoincrement)
    else ColumnDef(name, sqlType, false, AutoAuto)
  }

  /** `c` is the column the source builds for the entry `column` of `columns`. */
  predicate Describes(c: ColumnDef, column: (string, PyType), pkNames: seq<string>, autoincrement: Autoincrement)
  {
    c.name == column.0
    && column.1 in TypeConvertTable && c.sqlType == TypeConvertTable[column.1]
    && (c.primaryKey <==> column.0 in pkNames)
    && c.autoincrement == (if c.primaryKey then autoincrement else AutoAuto)
  }

  /** Entry `i` is the first whose Python type `_type_convert` lacks. */
  predicate FirstUnconvertible(columns: seq<(string, PyType)>, i: int)
  {
    0 <= i < |columns| && columns[i].1 !in TypeConvertTable
    && forall j :: 0 <= j < i ==> columns[j].1 in TypeConvertTable
  }

  /** The column list the loop builds, or the KeyError of the first
      lookup that fails. */
  function ColumnsFor(columns: seq<(string, PyType)>, pkNames: seq<string>, autoincrement: Autoincrement)
    : (r: Result<seq<ColumnDef>, Error>)
    ensures r.Success? <==> forall i :: 0 <= i < |columns| ==> columns[i].1 in TypeConvertTable
    ensures r.Success? ==> |r.value| == |columns|
    ensures r.Success? ==> forall i :: 0 <= i < |columns| ==> Describes(r.value[i], columns[i], pkNames, autoincrement)
    ensures r.Failure? ==> exists i :: FirstUnconvertible(columns, i) && r.error == KeyError(columns[i].1)
    decreases |columns|
  {
    if columns == [] then Success([])
    else
      var n := |columns| - 1;
      var before := ColumnsFor(columns[..n], pkNames, autoincrement);
      if before.Failure? then
        FirstUnconvertibleOfPrefix(columns, n, before.error);
        before
      else if columns[n].1 !in TypeConvertTable then
        assert FirstUnconvertible(columns, n);
        Failure(KeyError(columns[n].1))
      else
        var cols := before.value + [ColumnFor(columns[n].0, TypeConvertTable[columns[n].1], pkNames, autoincrement)];
        assert forall i :: 0 <= i < n ==> cols[i] == before.value[i] && columns[i] == columns[..n][i];
        Success(cols)
  }

  /** The first entry of a prefix that fails is the first of the whole. */
  lemma FirstUnconvertibleOfPrefix(columns: seq<(string, PyType)>, n: nat, e: Error)
    requires n <= |columns|
    requires exists i :: FirstUnconvertible(columns[..n], i) && e == KeyError(columns[..n][i].1)
    ensures exists i :: FirstUnconvertible(columns, i) && e == KeyError(columns[i].1)
  {
    var i :| FirstUnconvertible(columns[..n], i) && e == KeyError(columns[..n][i].1);
    assert FirstUnconvertible(columns, i);
  }

  /** Only one entry can be the first that fails. */
  lemma FirstUnconvertibleIsUnique(columns: seq<(string, PyType)>, i: int, j: int)
    requires FirstUnconvertible(columns, i) && FirstUnconvertible(columns, j)
    ensures i == j
  {
  }

  /** Once a lookup has failed, the entries after it change nothing. */
  lemma {:induction false} FailureIsFinal(columns: seq<(string, PyType)>, m: nat, pkNames: seq<string>, autoincrement: Autoincrement)
    requires m <= |columns| && ColumnsFor(columns[..m], pkNames, autoincrement).Failure?
    ensures ColumnsFor(columns, pkNames, autoincrement) == ColumnsFor(columns[..m], pkNames, autoincrement)
    decreases |columns|
  {
    if m < |columns| {
      var n := |columns| - 1;
      assert columns[..n][..m] == columns[..m];
      FailureIsFinal(columns[..n], m, pkNames, autoincrement);
      FailureExtends(columns, pkNames, autoincrement);
    } else {
      assert columns[..m] == columns;
    }
  }

  lemma FailureExtends(columns: seq<(string, PyType)>, pkNames: seq<string>, autoincrement: Autoincrement)
    requires columns != [] && ColumnsFor(columns[..|columns| - 1], pkNames, autoincrement).Failure?
    ensures ColumnsFor(columns, pkNames, autoincrement) == ColumnsFor(columns[..|columns| - 1], pkNames, autoincrement)
  {
  }

  /** A failed lookup after successful ones ends the whole loop with its KeyError. */
  lemma LookupFails(columns: seq<(string, PyType)>, i: nat, pkNames: seq<string>, autoincrement: Autoincrement)
    requires i < |columns| && ColumnsFor(columns[..i], pkNames, autoincrement).Success?
    requires columns[i].1 !in TypeConvertTable
    ensures ColumnsFor(columns, pkNames, autoincrement) == Failure(KeyError(columns[i].1))
  {
    assert columns[..i + 1][..i] == columns[..i];
    FailureIsFinal(columns, i + 1, pkNames, autoincrement);
  }

  /** A successful lookup appends the column built for the entry. */
  lemma LookupSucceeds(columns: seq<(string, PyType)>, i: nat, pkNames: seq<string>, autoincrement: Autoincrement,
                       cols: seq<ColumnDef>)
    requires i < |columns| && ColumnsFor(columns[..i], pkNames, autoincrement) == Success(cols)
    requires columns[i].1 in TypeConvertTable
    ensures ColumnsFor(columns[..i + 1], pkNames, autoincrement)
         == Success(cols + [ColumnFor(columns[i].0, TypeConvertTable[columns[i].1], pkNames, autoincrement)])
  {
    assert columns[..i + 1][..i] == columns[..i];
  }

  /** The loop of `create_table_with_engine`: look each type up, rebind a bare
      string key to a list, build a primary-key or a plain column, append. */
  method BuildColumns(columns: seq<(string, PyType)>, primaryKey: PrimaryKeyArg, autoincrement: Autoincrement)
    returns (r: Result<seq<ColumnDef>, Error>)
    ensures r == ColumnsFor(columns, PrimaryKeyList(primaryKey), autoincrement)
  {
    var cols: seq<ColumnDef> := [];
    var pk := primaryKey;
    for i := 0 to |columns|
      invariant pk == primaryKey || pk == KeyNames(PrimaryKeyList(primaryKey))
      invariant ColumnsFor(columns[..i], PrimaryKeyList(primaryKey), autoincrement) == Success(cols)
    {
      var (colName, pythonType) := columns[i];
      if pythonType !in TypeConvertTable {
        LookupFails(columns, i, PrimaryKeyList(primaryKey), autoincrement);
        return Failure(KeyError(pythonType));
      }
      var saType := TypeConvertTable[pythonType];
      if pk.KeyName? {
        pk := KeyNames([pk.name]);
      }
      var col;
      if colName in pk.names {
        col := ColumnDef(colName, saType, true, autoincrement);
      } else {
        col := ColumnDef(colName, saType, false, AutoAuto);
      }
      LookupSucceeds(columns, i, PrimaryKeyList(primaryKey), autoincrement, cols);
      cols := cols + [col];
    }
    assert columns[..|columns|] == columns;
    r := Success(cols);
  }

  /** The names of the primary-key columns, in column order: what SQLAlchemy
      gathers into the table's `PrimaryKeyConstraint`. */
  function PrimaryKeyColumnNames(cols: seq<ColumnDef>): (r: seq<string>)
    ensures |r| <= |cols|
    ensures forall n :: n in r <==> exists i :: 0 <= i < |cols| && cols[i].primaryKey && cols[i].name == n
  {
    if cols == [] then []
    else (if cols[0].primaryKey then [cols[0].name] else []) + PrimaryKeyColumnNames(cols[1..])
  }

  /** The table `sa.Table(name, metadata, *cols)` describes: its columns and
      the unnamed primary-key constraint every SQLAlchemy table carries. */
  function TableDefFor(cols: seq<ColumnDef>): TableDef
  {
    TableDef(cols, [PrimaryKeyConstraint(None, PrimaryKeyColumnNames(cols))])
  }

  /** The table description `sa.Table(name, metadata, *cols, schema=schema)`
      yields when the metadata was reflected from the database in state `s`:
      a name the catalog already holds is already defined in that metadata,
      so declaring it again with columns raises, while declaring it with no
      columns hands back the reflected table. */
  function DeclareTable(s: DbState, ref: TableRef, cols: seq<ColumnDef>): (r: Result<TableDef, Error>)
    ensures r.Failure? <==> ref in s.catalog && cols != []
    ensures r.Failure? ==> r.error == TableAlreadyDefined(ref)
    ensures r.Success? && ref in s.catalog ==> r.value == s.catalog[ref]
    ensures r.Success? && ref !in s.catalog ==> r.value.columns == cols
  {
    if ref !in s.catalog then Success(TableDefFor(cols))
    else if cols == [] then Success(s.catalog[ref])
    else Failure(TableAlreadyDefined(ref))
  }

  /** The result of `create_table_with_engine` and the database after it:
      a failed type lookup raises before any DDL, and so does declaring a
      table with columns under a name the reflected metadata already holds;
      otherwise `'replace'` drops the table if it exists, CREATE TABLE runs,
      and the created table is reflected back. */
  function CreateTableEffect(s: DbState, name: string, columns: seq<(string, PyType)>, primaryKey: PrimaryKeyArg,
                             schema: Option<string>, autoincrement: Autoincrement, ifExists: Option<string>)
    : (r: (Result<SaTable, Error>, DbState))
    requires s.Valid()
    ensures r.1.Valid()
  {
    match ColumnsFor(columns, PrimaryKeyList(primaryKey), autoincrement)
    case Failure(e) => (Failure(e), s)
    case Success(cols) =>
      var ref := TableRef(schema, name);
      match DeclareTable(s, ref, cols)
      case Failure(e) => (Failure(e), s)
      case Success(def) =>
        var cleared := if ifExists == Some("replace") then AfterDrop(s, ref) else s;
        var created := AfterCreate(cleared, ref, def);
        if created.0.Fail? then (Failure(created.0.error), created.1)
        else (Success(SaTable(ref, def)), created.1)
  }

  /** `create_table_with_engine(name, columns, primary_key, engine, schema,
      autoincrement, if_exists)`. */
  method CreateTableWithEngine(name: string, columns: seq<(string, PyType)>, primaryKey: PrimaryKeyArg, db: Database,
                               schema: Option<string> := None, autoincrement: Autoincrement := AutoBool(false),
                               ifExists: Option<string> := Some("error"))
    returns (r: Result<SaTable, Error>)
    requires db.Valid()
    modifies db
    ensures db.Valid()
    ensures (r, db.State()) == CreateTableEffect(old(db.State()), name, columns, primaryKey, schema, autoincrement, ifExists)
  {
    var cols := BuildColumns(columns, primaryKey, autoincrement);
    if cols.Failure? {
      return Failure(cols.error);
    }
    var ref := TableRef(schema, name);
    // the metadata is reflected from the database: it holds every existing table
    var reflected := db.GetTableFromEngine(name, schema);
    var def := TableDefFor(cols.value);
    if reflected.Success? {
      if cols.value != [] {
        return Failure(TableAlreadyDefined(ref));
      }
      def := reflected.value.def;
    }
    if ifExists == Some("replace") {
      db.DropTableIfExists(ref);
    }
    var o := db.CreateTable(ref, def);
    if o.Fail? {
      return Failure(o.error);
    }
    r := db.GetTableFromEngine(name, schema);
  }

  /** A type lookup that fails raises KeyError before any DDL: the database
      is left exactly as it was. */
  lemma UnconvertibleTypeIssuesNoDdl(s: DbState, name: string, columns: seq<(string, PyType)>, primaryKey: PrimaryKeyArg,
                                     schema: Option<string>, autoincrement: Autoincrement, ifExists: Option<string>, i: nat)
    requires s.Valid() && FirstUnconvertible(columns, i)
    ensures CreateTableEffect(s, name, columns, primaryKey, schema, autoincrement, ifExists) == (Failure(KeyError(columns[i].1)), s)
  {
    var built := ColumnsFor(columns, PrimaryKeyList(primaryKey), autoincrement);
    var j :| FirstUnconvertible(columns, j) && built.error == KeyError(columns[j].1);
    FirstUnconvertibleIsUnique(columns, i, j);
  }

  /** Declaring columns under a name the database already holds raises
      `InvalidRequestError` before any DDL, whatever `if_exists` says: even
      `'replace'` never reaches its DROP. */
  lemma ExistingNameRaisesBeforeDdl(s: DbState, name: string, columns: seq<(string, PyType)>, primaryKey: PrimaryKeyArg,
                                    schema: Option<string>, autoincrement: Autoincrement, ifExists: Option<string>)
    requires s.Valid() && TableRef(schema, name) in s.catalog && columns != []
    requires forall i :: 0 <= i < |columns| ==> columns[i].1 in TypeConvertTable
    ensures CreateTableEffect(s, name, columns, primaryKey, schema, autoincrement, ifExists)
         == (Failure(TableAlreadyDefined(TableRef(schema, name))), s)
  {
  }

  /** Once the columns are built: a name already held with columns given
      raises before any DDL; otherwise `'replace'` logs a DROP before the
      CREATE, any other `if_exists` goes straight to CREATE;
      creation succeeds exactly when the name is new, or when no columns
      were given and `'replace'` drops and recreates the reflected table;
      the committed rows and every other table are untouched. */
  lemma CreateDdlSequence(s: DbState, name: string, columns: seq<(string, PyType)>, primaryKey: PrimaryKeyArg,
                          schema: Option<string>, autoincrement: Autoincrement, ifExists: Option<string>)
    requires s.Valid() && ColumnsFor(columns, PrimaryKeyList(primaryKey), autoincrement).Success?
    ensures var r := CreateTableEffect(s, name, columns, primaryKey, schema, autoincrement, ifExists);
            var ref := TableRef(schema, name);
            ref in s.catalog && columns != [] ==> r == (Failure(TableAlreadyDefined(ref)), s)
    ensures var r := CreateTableEffect(s, name, columns, primaryKey, schema, autoincrement, ifExists);
            var ref := TableRef(schema, name);
            var def := if ref in s.catalog then s.catalog[ref]
                       else TableDefFor(ColumnsFor(columns, PrimaryKeyList(primaryKey), autoincrement).value);
            ref !in s.catalog || columns == [] ==>
            && r.1.ddlLog == s.ddlLog + (if ifExists == Some("replace") then [DropTableIfExists(ref)] else []) + [CreateTable(ref, def)]
            && r.1.transactions == s.transactions
            && (r.0.Success? <==> ifExists == Some("replace") || ref !in s.catalog)
            && (r.0.Success? ==> r.0.value == SaTable(ref, def))
            && (r.0.Failure? ==> r.0.error == TableAlreadyExists(ref) && r.1.catalog == s.catalog && r.1.rows == s.rows)
            && (forall other :: other != ref ==>
                  (other in r.1.catalog <==> other in s.catalog) &&
                  (other in s.catalog ==> r.1.catalog[other] == s.catalog[other] && r.1.rows[other] == s.rows[other]))
  {
  }

  lemma {:induction false} NoPrimaryKeyColumnNames(cols: seq<ColumnDef>)
    ensures PrimaryKeyColumnNames(cols) == [] <==> forall i :: 0 <= i < |cols| ==> !cols[i].primaryKey
  {
    if cols != [] {
      NoPrimaryKeyColumnNames(cols[1..]);
      if !cols[0].primaryKey {
        forall i | 0 < i < |cols| ensures cols[i] == cols[1..][i - 1] {
        }
      }
    }
  }

  /** A created table is in the catalog with no rows. A name that was new
      gets the requested columns, in order; its primary key, as
      `get_primary_key_constraints_with_table` reports it, is the string
      `"None"` with the key columns in column order; and it is missing a
      primary key exactly when no column name is in `primary_key`. A name
      that was already held can only succeed with no columns, recreating
      the reflected table. */
  lemma CreatedTable(s: DbState, name: string, columns: seq<(string, PyType)>, primaryKey: PrimaryKeyArg,
                     schema: Option<string>, autoincrement: Autoincrement, ifExists: Option<string>)
    requires s.Valid()
    ensures var r := CreateTableEffect(s, name, columns, primaryKey, schema, autoincrement, ifExists);
            r.0.Success? ==>
              var t := r.0.value;
              && t.ref == TableRef(schema, name) && t.ref in r.1.catalog
              && r.1.catalog[t.ref] == t.def && r.1.rows[t.ref] == []
    ensures var r := CreateTableEffect(s, name, columns, primaryKey, schema, autoincrement, ifExists);
            r.0.Success? && TableRef(schema, name) in s.catalog ==>
              columns == [] && r.0.value.def == s.catalog[TableRef(schema, name)]
    ensures var r := CreateTableEffect(s, name, columns, primaryKey, schema, autoincrement, ifExists);
            r.0.Success? && TableRef(schema, name) !in s.catalog ==>
              var t := r.0.value;
              && |t.def.columns| == |columns|
              && (forall i :: 0 <= i < |columns| ==> Describes(t.def.columns[i], columns[i], PrimaryKeyList(primaryKey), autoincrement))
              && Constraints.GetPrimaryKeyConstraintsWithTable(t) == Constraints.PrimaryKeyInfo(Some("None"), PrimaryKeyColumnNames(t.def.columns))
              && (Constraints.MissingPrimaryKeyWithTable(t) <==> forall i :: 0 <= i < |columns| ==> columns[i].0 !in PrimaryKeyList(primaryKey))
  {
    var r := CreateTableEffect(s, name, columns, primaryKey, schema, autoincrement, ifExists);
    if r.0.Success? && TableRef(schema, name) !in s.catalog {
      var t := r.0.value;
      var cols := ColumnsFor(columns, PrimaryKeyList(primaryKey), autoincrement).value;
      assert t.def == TableDefFor(cols);
      Constraints.UnnamedPrimaryKeyIsStringNone(t, PrimaryKeyColumnNames(cols));
      NoPrimaryKeyColumnNames(cols);
    }
  }

  // ---------------------------------------------------------------------
  // create_table_from_rows_with_engine: one inferred type per column

  function ColumnNames(data: ColumnData): (names: seq<string>)
    ensures |names| == |data| && forall i :: 0 <= i < |data| ==> names[i] == data[i].0
  {
    seq(|data|, i requires 0 <= i < |data| => data[i].0)
  }

  /** `[column_datatype(values) for values in data.values()]`. */
  function InferredTypes(data: ColumnData): (types: seq<PyType>)
    ensures |types| == |data| && forall i :: 0 <= i < |data| ==> types[i] == InferredType(data[i].1)
  {
    seq(|data|, i requires 0 <= i < |data| => InferredType(data[i].1))
  }

  /** `zip(a, b)`: pairs up to the shorter of the two. */
  function Zip<A, B>(a: seq<A>, b: seq<B>): (r: seq<(A, B)>)
    ensures |r| == if |a| <= |b| then |a| else |b|
    ensures forall i :: 0 <= i < |r| ==> r[i] == (a[i], b[i])
  {
    if a == [] || b == [] then [] else [(a[0], b[0])] + Zip(a[1..], b[1..])
  }

  /** `dict(zip(column_names(data), column_types))`, the types inferred when
      none are given; when the names are distinct, as the keys of a dict
      are, the dict keeps every pair, in order. */
  function RowColumns(data: ColumnData, columnTypes: Option<seq<PyType>>): seq<(string, PyType)>
  {
    Zip(ColumnNames(data), if columnTypes.None? then InferredTypes(data) else columnTypes.value)
  }

  /** `create_table_from_rows_with_engine`, from the column-oriented data
      the rows reshape into. */
  method CreateTableFromRowsWithEngine(tableName: string, data: ColumnData, primaryKey: PrimaryKeyArg, db: Database,
                                       columnTypes: Option<seq<PyType>> := None, schema: Option<string> := None,
                                       autoincrement: Autoincrement := AutoBool(false),
                                       ifExists: Option<string> := Some("error"))
    returns (r: Result<SaTable, Error>)
    requires db.Valid() && DistinctNames(data)
    modifies db
    ensures db.Valid()
    ensures (r, db.State())
         == CreateTableEffect(old(db.State()), tableName, RowColumns(data, columnTypes), primaryKey,
                              schema, autoincrement, ifExists)
  {
    var types: seq<PyType>;
    if columnTypes.None? {
      types := [];
      for i := 0 to |data|
        invariant types == InferredTypes(data[..i])
        modifies {}
      {
        var t := ColumnDatatype(data[i].1);
        assert data[..i + 1] == data[..i] + [data[i]];
        types := types + [t];
      }
      assert data[..|data|] == data;
    } else {
      types := columnTypes.value;
    }
    var cols := Zip(ColumnNames(data), types);
    r := CreateTableWithEngine(tableName, cols, primaryKey, db, schema, autoincrement, ifExists);
  }

  /** Every inferred column type converts except the `(int, float)` tuple. */
  lemma InferredColumnsConvertible(data: ColumnData)
    ensures var columns := RowColumns(data, None);
            |columns| == |data|
            && forall i :: 0 <= i < |columns| ==>
                 columns[i].1 == InferredType(data[i].1)
                 && (columns[i].1 in TypeConvertTable <==> columns[i].1 != IntOrFloatTuple)
  {
    var columns := RowColumns(data, None);
    forall i | 0 <= i < |columns|
      ensures columns[i].1 == InferredType(data[i].1)
      ensures columns[i].1 in TypeConvertTable <==> columns[i].1 != IntOrFloatTuple
    {
      InferredTypeIsCandidate(data[i].1);
      CandidateConverts(columns[i].1);
    }
  }

  /** `_type_convert` holds every candidate except the tuple. */
  lemma CandidateConverts(t: PyType)
    requires t in Candidates
    ensures t in TypeConvertTable <==> t != IntOrFloatTuple
  {
  }

  /** With inferred types, creation fails with KeyError on the `(int, float)`
      tuple, before any DDL, exactly when some column infers to that tuple:
      it is the only inferred type `_type_convert` lacks. */
  lemma {:induction false} InferredCreationFailsOnTuple(s: DbState, tableName: string, data: ColumnData, primaryKey: PrimaryKeyArg,
                                                         schema: Option<string>, autoincrement: Autoincrement, ifExists: Option<string>)
    requires s.Valid()
    ensures var r := CreateTableEffect(s, tableName, RowColumns(data, None), primaryKey, schema, autoincrement, ifExists);
            (exists i :: 0 <= i < |data| && InferredType(data[i].1) == IntOrFloatTuple)
              <==> r == (Failure(KeyError(IntOrFloatTuple)), s)
  {
    var columns := RowColumns(data, None);
    InferredColumnsConvertible(data);
    var r := CreateTableEffect(s, tableName, columns, primaryKey, schema, autoincrement, ifExists);
    var built := ColumnsFor(columns, PrimaryKeyList(primaryKey), autoincrement);
    if exists i :: 0 <= i < |data| && InferredType(data[i].1) == IntOrFloatTuple {
      var i :| 0 <= i < |data| && InferredType(data[i].1) == IntOrFloatTuple;
      assert columns[i].1 !in TypeConvertTable;
      assert built.Failure?;
      var j :| FirstUnconvertible(columns, j) && built.error == KeyError(columns[j].1);
      UnconvertibleTypeIssuesNoDdl(s, tableName, columns, primaryKey, schema, autoincrement, ifExists, j);
    } else {
      assert built.Success?;
      CreateDdlSequence(s, tableName, columns, primaryKey, schema, autoincrement, ifExists);
      if TableRef(schema, tableName) !in s.catalog || columns == [] {
        assert |r.1.ddlLog| > |s.ddlLog|;
      }
    }
  }

  /** A column of floats (ints and bools beside them allowed) makes creation
      from rows fail, leaving the database untouched. */
  lemma FloatColumnBlocksCreation(s: DbState, tableName: string, data: ColumnData, primaryKey: PrimaryKeyArg,
                                  schema: Option<string>, autoincrement: Autoincrement, ifExists: Option<string>, i: nat)
    requires s.Valid() && i < |data|
    requires exists k :: 0 <= k < |data[i].1| && data[i].1[k].VFloat?
    requires forall k :: 0 <= k < |data[i].1| ==> data[i].1[k].VInt? || data[i].1[k].VBool? || data[i].1[k].VFloat?
    ensures CreateTableEffect(s, tableName, RowColumns(data, None), primaryKey, schema, autoincrement, ifExists)
         == (Failure(KeyError(IntOrFloatTuple)), s)
  {
    FloatColumnIsTuple(data[i].1);
    InferredCreationFailsOnTuple(s, tableName, data, primaryKey, schema, autoincrement, ifExists);
  }

  /** A column of datetimes is created as an Integer column. */
  lemma DateTimeColumnCreatedAsInteger(s: DbState, tableName: string, data: ColumnData, primaryKey: PrimaryKeyArg,
                                       schema: Option<string>, autoincrement: Autoincrement, ifExists: Option<string>, i: nat)
    requires s.Valid() && i < |data| && |data[i].1| > 0
    requires forall k :: 0 <= k < |data[i].1| ==> data[i].1[k].VDateTime?
    ensures var r := CreateTableEffect(s, tableName, RowColumns(data, None), primaryKey, schema, autoincrement, ifExists);
            r.0.Success? ==> |r.0.value.def.columns| == |data| && r.0.value.def.columns[i].sqlType == Integer
  {
    var columns := RowColumns(data, None);
    DateTimeColumnIsInt(data[i].1);
    assert |columns| == |data| && columns[i].1 == PyInt;
    assert TypeConvertTable[PyInt] == Integer;
    CreatedTable(s, tableName, columns, primaryKey, schema, autoincrement, ifExists);
    var r := CreateTableEffect(s, tableName, columns, primaryKey, schema, autoincrement, ifExists);
    if r.0.Success? {
      assert Describes(r.0.value.def.columns[i], columns[i], PrimaryKeyList(primaryKey), autoincrement);
    }
  }
}
