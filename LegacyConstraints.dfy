/** The older primary-key detection (constraints.py at the package root): the
    same search, but the name is not converted and the no-key result is an
    empty tuple. */
module LegacyConstraints {
  import opened Wrappers
  import opened Schema
  import Constraints

  /** Either `(name, column names)` or the empty tuple `()`. */
  datatype PrimaryKeyTuple = Pair(name: Option<string>, columns: seq<string>) | EmptyTuple

  /** `get_primary_key_constraints(table)`. */
  function GetPrimaryKeyConstraints(table: SaTable): (r: PrimaryKeyTuple)
    ensures r.EmptyTuple? <==> !Constraints.HasPrimaryKeyConstraint(table.Constraints())
    ensures forall k :: Constraints.IsFirstPrimaryKey(table.Constraints(), k) ==>
              r == Pair(table.Constraints()[k].name, table.Constraints()[k].columns)
  {
    var cons := table.Constraints();
    match Constraints.FirstPrimaryKey(cons)
    case Some(k) => Pair(cons[k].name, cons[k].columns)
    case None => EmptyTuple
  }

  /** `pks[1]` on a result tuple: an IndexError on `()`. */
  function Second(pks: PrimaryKeyTuple): Result<seq<string>, Error>
  {
    match pks
    case Pair(_, columns) => Success(columns)
    case EmptyTuple => Failure(IndexError)
  }

  /** `missing_primary_key(table)`. */
  function MissingPrimaryKey(table: SaTable): (r: Result<bool, Error>)
    ensures r.Failure? <==> !Constraints.HasPrimaryKeyConstraint(table.Constraints())
    ensures r.Failure? ==> r.error == IndexError
    ensures r.Success? ==> (r.value <==> Constraints.NoPrimaryKeyColumns(table.Constraints()))
  {
    match Second(GetPrimaryKeyConstraints(table))
    case Success(columns) => Success(columns == [])
    case Failure(e) => Failure(e)
  }

  /** The two variants agree on the column list whenever a primary-key
      constraint exists; the name differs only for an unnamed constraint,
      `None` here and `"None"` there. Without one, the newer variant answers
      "missing" and this one raises IndexError. */
  lemma {:induction false} AgreesWithNewerVariant(table: SaTable)
    ensures Constraints.HasPrimaryKeyConstraint(table.Constraints()) ==>
              && MissingPrimaryKey(table) == Success(Constraints.MissingPrimaryKeyWithTable(table))
              && GetPrimaryKeyConstraints(table).columns == Constraints.GetPrimaryKeyConstraintsWithTable(table).columns
              && Constraints.GetPrimaryKeyConstraintsWithTable(table).name
                 == Some(Constraints.NameString(GetPrimaryKeyConstraints(table).name))
    ensures !Constraints.HasPrimaryKeyConstraint(table.Constraints()) ==>
              MissingPrimaryKey(table) == Failure(IndexError) && Constraints.MissingPrimaryKeyWithTable(table)
  {
    var cons := table.Constraints();
    if Constraints.HasPrimaryKeyConstraint(cons) {
      var k := Constraints.FirstPrimaryKey(cons).value;
      assert Constraints.IsFirstPrimaryKey(cons, k);
    }
  }
}
