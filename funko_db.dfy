/**
 * The inventory store (`FunkoDB` in funko_db.py): the `funko_pops` table of the
 * user's own collection, keyed by an AUTOINCREMENT id. The table is a sequence of
 * rows in storage (rowid) order.
 */
module Inventory {
  import opened Wrappers
  import opened FunkoPops

  /** One row of `funko_pops`. `name`, `series` and `item_number` are NOT NULL columns. */
  datatype Row = Row(
    id: int,
    barcode: Option<string>,
    name: string,
    series: string,
    itemNumber: string,
    marketValue: real,
    year: Option<string>)

  /** What a store call raises instead of returning. */
  datatype DbError =
    | NoSuchTable       // sqlite3.OperationalError: `create_table` has not run
    | NotNullViolation  // sqlite3.IntegrityError: NULL into a NOT NULL column
    | MissingArgument   // TypeError: a call that omits a required argument

  /** One executed `update_market_value_by_barcode_and_year` statement: its key and value. */
  datatype ValueWrite = ValueWrite(barcode: Option<string>, year: Option<string>, value: real)

  /** SQL `=`: NULL is equal to nothing, not even to NULL. */
  predicate SqlEq(a: Option<string>, b: Option<string>) {
    a.Some? && b.Some? && a.value == b.value
  }

  /** `WHERE barcode=? AND year=?` holds of the row. */
  predicate KeyMatches(r: Row, barcode: Option<string>, year: Option<string>) {
    SqlEq(r.barcode, barcode) && SqlEq(r.year, year)
  }

  /** None of the NOT NULL columns would receive NULL from this record. */
  predicate Persistable(p: Pop) {
    p.name.Some? && p.series.Some? && p.itemNumber.Some?
  }

  /** The row that INSERT or UPDATE writes for a record: image path and the rest are not stored. */
  function RowOf(id: int, p: Pop): Row
    requires Persistable(p)
  {
    Row(id, p.barcode, p.name.value, p.series.value, p.itemNumber.value, p.marketValue, p.year)
  }

  /** The record `get_all_funkos` builds from a row; the row has no image path. */
  function PopOf(r: Row): Pop {
    FromDetailed(r.id, r.barcode, Some(r.name), Some(r.series), Some(r.itemNumber), r.marketValue, r.year, None)
  }

  /** The records `get_all_funkos` reads back, in storage order. */
  function Snapshot(rows: seq<Row>): (s: seq<Pop>)
    ensures |s| == |rows|
    ensures forall i :: 0 <= i < |rows| ==> s[i] == PopOf(rows[i]) && s[i].id == rows[i].id
  {
    seq(|rows|, i requires 0 <= i < |rows| => PopOf(rows[i]))
  }

  /** Storage order is id order: every id is larger than the ids stored before it. */
  predicate IdsIncreasing(rows: seq<Row>) {
    forall i, j :: 0 <= i < j < |rows| ==> rows[i].id < rows[j].id
  }

  predicate HasId(rows: seq<Row>, id: int) {
    exists i :: 0 <= i < |rows| && rows[i].id == id
  }

  /** `UPDATE funko_pops SET market_value=? WHERE barcode=? AND year=?`. */
  function WithValueByKey(rows: seq<Row>, barcode: Option<string>, year: Option<string>, value: real): (r: seq<Row>)
    ensures |r| == |rows|
    ensures forall i :: 0 <= i < |rows| && KeyMatches(rows[i], barcode, year) ==> r[i] == rows[i].(marketValue := value)
    ensures forall i :: 0 <= i < |rows| && !KeyMatches(rows[i], barcode, year) ==> r[i] == rows[i]
  {
    if rows == [] then []
    else
      var head := if KeyMatches(rows[0], barcode, year) then rows[0].(marketValue := value) else rows[0];
      [head] + WithValueByKey(rows[1..], barcode, year, value)
  }

  /** `UPDATE funko_pops SET ... WHERE id=?` with every stored column taken from `row`. */
  function ReplaceById(rows: seq<Row>, row: Row): (r: seq<Row>)
    ensures |r| == |rows|
    ensures forall i :: 0 <= i < |rows| && rows[i].id == row.id ==> r[i] == row
    ensures forall i :: 0 <= i < |rows| && rows[i].id != row.id ==> r[i] == rows[i]
  {
    if rows == [] then []
    else [if rows[0].id == row.id then row else rows[0]] + ReplaceById(rows[1..], row)
  }

  /** `DELETE FROM funko_pops WHERE id=?`. */
  function RemoveId(rows: seq<Row>, id: int): (r: seq<Row>)
    ensures |r| <= |rows|
    ensures forall i :: 0 <= i < |r| ==> r[i] in rows && r[i].id != id
    ensures IdsIncreasing(rows) ==> IdsIncreasing(r)
  {
    if rows == [] then []
    else if rows[0].id == id then RemoveId(rows[1..], id)
    else [rows[0]] + RemoveId(rows[1..], id)
  }

  /** A NULL barcode or year matches no row, so the by-key update then changes nothing. */
  lemma {:induction false} NullKeyMatchesNothing(rows: seq<Row>, barcode: Option<string>, year: Option<string>, value: real)
    requires barcode.None? || year.None?
    ensures WithValueByKey(rows, barcode, year, value) == rows
  {
    if rows != [] {
      NullKeyMatchesNothing(rows[1..], barcode, year, value);
    }
  }

  /** Deleting a stored id removes exactly that row and keeps the others in order. */
  lemma {:induction false} RemoveStoredId(rows: seq<Row>, k: nat)
    requires IdsIncreasing(rows) && k < |rows|
    ensures RemoveId(rows, rows[k].id) == rows[..k] + rows[k + 1..]
  {
    var tail := rows[1..];
    TailAfterFirst(rows);
    if k == 0 {
      RemoveAbsentId(tail, rows[0].id);
      assert rows[..0] + rows[1..] == tail;
    } else {
      assert tail[k - 1] == rows[k];
      RemoveStoredId(tail, k - 1);
      assert rows[0].id != rows[k].id;
      assert rows[..k] + rows[k + 1..] == [rows[0]] + (tail[..k - 1] + tail[k..]);
    }
  }

  /** Past the first row, ids still increase and the first row's id is not there. */
  lemma TailAfterFirst(rows: seq<Row>)
    requires IdsIncreasing(rows) && rows != []
    ensures IdsIncreasing(rows[1..]) && !HasId(rows[1..], rows[0].id)
  {
    var tail := rows[1..];
    forall i, j | 0 <= i < j < |tail| ensures tail[i].id < tail[j].id {
      assert tail[i] == rows[i + 1] && tail[j] == rows[j + 1];
    }
    forall i | 0 <= i < |tail| ensures tail[i].id != rows[0].id {
      assert tail[i] == rows[i + 1];
    }
  }

  /** Deleting an id no row has leaves the table as it was. */
  lemma {:induction false} RemoveAbsentId(rows: seq<Row>, id: int)
    requires !HasId(rows, id)
    ensures RemoveId(rows, id) == rows
  {
    if rows != [] {
      assert !HasId(rows[1..], id) by {
        forall i | 0 <= i < |rows[1..]| ensures rows[1..][i].id != id {
          assert rows[1..][i] == rows[i + 1];
        }
      }
      RemoveAbsentId(rows[1..], id);
    }
  }

  /** The by-key update is idempotent: writing the same value twice equals writing it once. */
  lemma ValueByKeyIdempotent(rows: seq<Row>, barcode: Option<string>, year: Option<string>, value: real)
    ensures WithValueByKey(WithValueByKey(rows, barcode, year, value), barcode, year, value)
         == WithValueByKey(rows, barcode, year, value)
  {
    var once := WithValueByKey(rows, barcode, year, value);
    var twice := WithValueByKey(once, barcode, year, value);
    assert forall i :: 0 <= i < |rows| ==> twice[i] == once[i];
  }

  /** The `funko_pops` table of one database file. */
  class FunkoDB {
    /** `CREATE TABLE` has run. */
    var tableExists: bool
    /** The rows in storage order. */
    var rows: seq<Row>
    /** The id AUTOINCREMENT hands out next: one more than the largest id ever issued. */
    var nextId: int
    /** Every id issued so far, including ids of deleted rows. */
    ghost var issued: set<int>
    /** Every by-key value update executed against the table, in order. */
    ghost var writes: seq<ValueWrite>

    ghost predicate Valid()
      reads this
    {
      && 1 <= nextId
      && IdsIncreasing(rows)
      && (forall i :: 0 <= i < |rows| ==> rows[i].id in issued)
      && (forall id :: id in issued ==> 1 <= id < nextId)
      && (!tableExists ==> rows == [])
    }

    /** A database file in which the table has not been created yet. */
    constructor ()
      ensures Valid() && !tableExists && rows == [] && issued == {} && writes == []
    {
      tableExists, rows, nextId := false, [], 1;
      issued, writes := {}, [];
    }

    /** `create_table`: `CREATE TABLE IF NOT EXISTS`, so existing rows are kept. */
    method CreateTable()
      requires Valid()
      modifies this
      ensures Valid() && tableExists
      ensures rows == old(rows) && nextId == old(nextId) && issued == old(issued) && writes == old(writes)
    {
      tableExists := true;
    }

    /** `add_funko`: appends one row under a fresh id and returns that id. */
    method AddFunko(p: Pop) returns (r: Result<int, DbError>)
      requires Valid()
      modifies this
      ensures Valid() && tableExists == old(tableExists)
      ensures !old(tableExists) ==> r == Failure(NoSuchTable) && unchanged(this)
      ensures old(tableExists) && !Persistable(p) ==> r == Failure(NotNullViolation) && unchanged(this)
      ensures old(tableExists) && Persistable(p) ==>
        && r.Success?
        && r.value !in old(issued)
        && (forall id :: id in old(issued) ==> id < r.value)
        && issued == old(issued) + {r.value} && writes == old(writes)
        && rows == old(rows) + [RowOf(r.value, p)]
    {
      if !tableExists {
        return Failure(NoSuchTable);
      }
      if !Persistable(p) {
        return Failure(NotNullViolation);
      }
      var id := nextId;
      rows := rows + [RowOf(id, p)];
      nextId := nextId + 1;
      issued := issued + {id};
      return Success(id);
    }

    /** `get_all_funkos`: one record per row, in storage order, each carrying its row's id. */
    method GetAllFunkos() returns (r: Result<seq<Pop>, DbError>)
      requires Valid()
      ensures !tableExists ==> r == Failure(NoSuchTable)
      ensures tableExists ==> r == Success(Snapshot(rows))
    {
      if !tableExists {
        return Failure(NoSuchTable);
      }
      var funkos: seq<Pop> := [];
      for i := 0 to |rows|
        invariant |funkos| == i
        invariant forall k :: 0 <= k < i ==> funkos[k] == PopOf(rows[k])
      {
        var row := rows[i];
        funkos := funkos + [FromDetailed(row.id, row.barcode, Some(row.name), Some(row.series),
                                         Some(row.itemNumber), row.marketValue, row.year, None)];
      }
      assert funkos == Snapshot(rows);
      return Success(funkos);
    }

    /**
     * `get_all_funkos` as written: `from_detailed` is called without its required
     * `image_path`, so the first row raises TypeError and only an empty table reads back.
     */
    method GetAllFunkosAsWritten() returns (r: Result<seq<Pop>, DbError>)
      requires Valid()
      ensures !tableExists ==> r == Failure(NoSuchTable)
      ensures tableExists && |rows| > 0 ==> r == Failure(MissingArgument)
      ensures tableExists && rows == [] ==> r == Success([])
    {
      if !tableExists {
        return Failure(NoSuchTable);
      }
      if |rows| > 0 {
        return Failure(MissingArgument);
      }
      return Success([]);
    }

    /**
     * `update_funko`: replaces the six stored columns of the row whose id is `p.id`.
     * An id no row has changes nothing.
     */
    method UpdateFunko(p: Pop) returns (o: Outcome<DbError>)
      requires Valid()
      modifies this
      ensures Valid()
      ensures tableExists == old(tableExists) && nextId == old(nextId) && issued == old(issued)
      ensures writes == old(writes)
      ensures !old(tableExists) ==> o == Fail(NoSuchTable) && rows == old(rows)
      ensures old(tableExists) && !HasId(old(rows), p.id) ==> o == Pass && rows == old(rows)
      ensures old(tableExists) && HasId(old(rows), p.id) && !Persistable(p) ==>
        o == Fail(NotNullViolation) && rows == old(rows)
      ensures old(tableExists) && HasId(old(rows), p.id) && Persistable(p) ==>
        o == Pass && rows == ReplaceById(old(rows), RowOf(p.id, p))
    {
      if !tableExists {
        return Fail(NoSuchTable);
      }
      if !HasId(rows, p.id) {
        return Pass;
      }
      if !Persistable(p) {
        return Fail(NotNullViolation);
      }
      rows := ReplaceById(rows, RowOf(p.id, p));
      return Pass;
    }

    /** `delete_funko`: removes the row with this id, if there is one. */
    method DeleteFunko(id: int) returns (o: Outcome<DbError>)
      requires Valid()
      modifies this
      ensures Valid()
      ensures tableExists == old(tableExists) && nextId == old(nextId) && issued == old(issued)
      ensures writes == old(writes)
      ensures !old(tableExists) ==> o == Fail(NoSuchTable) && rows == old(rows)
      ensures old(tableExists) ==> o == Pass && rows == RemoveId(old(rows), id)
    {
      if !tableExists {
        return Fail(NoSuchTable);
      }
      rows := RemoveId(rows, id);
      return Pass;
    }

    /** `update_market_value_by_barcode_and_year`: sets the value of every row with this key. */
    method UpdateMarketValueByBarcodeAndYear(barcode: Option<string>, year: Option<string>, value: real)
      returns (o: Outcome<DbError>)
      requires Valid()
      modifies this
      ensures Valid()
      ensures tableExists == old(tableExists) && nextId == old(nextId) && issued == old(issued)
      ensures !old(tableExists) ==> o == Fail(NoSuchTable) && rows == old(rows)
      ensures old(tableExists) ==> o == Pass && rows == WithValueByKey(old(rows), barcode, year, value)
      ensures writes == if old(tableExists) then old(writes) + [ValueWrite(barcode, year, value)] else old(writes)
    {
      if !tableExists {
        return Fail(NoSuchTable);
      }
      rows := WithValueByKey(rows, barcode, year, value);
      writes := writes + [ValueWrite(barcode, year, value)];
      return Pass;
    }
  }
}
