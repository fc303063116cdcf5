/** Primary-key detection on a reflected table
    (fullmetalalchemy/constraints.py). */
module Constraints {
  import opened Wrappers
  import opened Schema

  /** `k` is the position of the first primary-key constraint. */
  predicate IsFirstPrimaryKey(cons: seq<Constraint>, k: int)
  {
    0 <= k < |cons| && cons[k].PrimaryKeyConstraint?
    && forall j :: 0 <= j < k ==> !cons[j].PrimaryKeyConstraint?
  }

  predicate HasPrimaryKeyConstraint(cons: seq<Constraint>)
  {
    exists k :: 0 <= k < |cons| && cons[k].PrimaryKeyConstraint?
  }

  /** The search loop `for con in cons: if isinstance(con, PrimaryKeyConstraint)`. */
  function FirstPrimaryKey(cons: seq<Constraint>): (r: Option<nat>)
    ensures r.Some? ==> IsFirstPrimaryKey(cons, r.value)
    ensures r.None? <==> !HasPrimaryKeyConstraint(cons)
  {
    if cons == [] then None
    else if cons[0].PrimaryKeyConstraint? then Some(0)
    else match FirstPrimaryKey(cons[1..])
      case None => None
      case Some(k) => Some(k + 1)
  }

  /** Python's `str()` applied to a constraint name: `None` becomes `"None"`. */
  function NameString(name: Option<string>): (s: string)
    ensures name.Some? ==> s == name.value
  {
    match name
    case None => "None"
    case Some(n) => n
  }

  /** The tuple `(name, column names)`; the first component is Python's `None`
      when `name` is `None`. */
  datatype PrimaryKeyInfo = PrimaryKeyInfo(name: Option<string>, columns: seq<string>)

  /** `get_primary_key_constraints_with_table(table)`. */
  function GetPrimaryKeyConstraintsWithTable(table: SaTable): (r: PrimaryKeyInfo)
    ensures forall k :: IsFirstPrimaryKey(table.Constraints(), k) ==>
              r == PrimaryKeyInfo(Some(NameString(table.Constraints()[k].name)), table.Constraints()[k].columns)
    ensures !HasPrimaryKeyConstraint(table.Constraints()) <==> r.name.None?
    ensures r.name.None? ==> r.columns == []
  {
    var cons := table.Constraints();
    match FirstPrimaryKey(cons)
    case Some(k) => PrimaryKeyInfo(Some(NameString(cons[k].name)), cons[k].columns)
    case None => PrimaryKeyInfo(None, [])
  }

  /** A table has no primary key when there is no primary-key constraint or
      the first one covers no column. */
  predicate NoPrimaryKeyColumns(cons: seq<Constraint>)
  {
    forall k :: 0 <= k < |cons| && IsFirstPrimaryKey(cons, k) ==> cons[k].columns == []
  }

  /** `missing_primary_key_with_table(table)`. */
  function MissingPrimaryKeyWithTable(table: SaTable): (b: bool)
    ensures b <==> NoPrimaryKeyColumns(table.Constraints())
  {
    GetPrimaryKeyConstraintsWithTable(table).columns == []
  }

  /** Constraints after the first primary-key constraint do not matter. */
  lemma {:induction false} LaterConstraintsIgnored(cons: seq<Constraint>, more: seq<Constraint>, ref: TableRef, columns: seq<ColumnDef>)
    requires HasPrimaryKeyConstraint(cons)
    ensures GetPrimaryKeyConstraintsWithTable(SaTable(ref, TableDef(columns, cons + more)))
         == GetPrimaryKeyConstraintsWithTable(SaTable(ref, TableDef(columns, cons)))
  {
    var k := FirstPrimaryKey(cons).value;
    assert IsFirstPrimaryKey(cons + more, k);
  }

  /** An unnamed primary key is reported under the name `"None"`, a string,
      where the docstring example shows Python's `None`. */
  lemma UnnamedPrimaryKeyIsStringNone(table: SaTable, columns: seq<string>)
    requires table.Constraints() == [PrimaryKeyConstraint(None, columns)]
    ensures GetPrimaryKeyConstraintsWithTable(table) == PrimaryKeyInfo(Some("None"), columns)
  {
    assert IsFirstPrimaryKey(table.Constraints(), 0);
  }

  /** The docstring's table `xy` has primary key `id` and is not missing one. */
  lemma XyHasPrimaryKey(table: SaTable)
    requires table.Constraints() == [PrimaryKeyConstraint(None, ["id"])]
    ensures !MissingPrimaryKeyWithTable(table)
  {
    assert IsFirstPrimaryKey(table.Constraints(), 0);
  }
}
