/**
 * The reference store (`FirebaseDB` in firebase_db.py): the local `firebase_funkos`
 * table of market values, whose primary key is `(barcode, year)`. Rows are kept in
 * storage (rowid) order; an upsert on an existing key rewrites that row in place.
 */
module Reference {
  import opened Wrappers
  import opened FunkoPops

  /** One row of `firebase_funkos`. */
  datatype RefRow = RefRow(barcode: string, name: string, marketValue: real, year: string)

  predicate HasKey(r: RefRow, barcode: string, year: string) {
    r.barcode == barcode && r.year == year
  }

  /** The primary key: no two rows share `(barcode, year)`. */
  predicate KeysUnique(rows: seq<RefRow>) {
    forall i, j :: 0 <= i < j < |rows| ==> !HasKey(rows[j], rows[i].barcode, rows[i].year)
  }

  /** Python truthiness of the optional `year` argument: `None` and `""` are false. */
  predicate Truthy(year: Option<string>) {
    year.Some? && year.value != ""
  }

  /** The position of the first row with this key. */
  function FindKey(rows: seq<RefRow>, barcode: string, year: string): (r: Option<nat>)
    ensures r.Some? ==> r.value < |rows| && HasKey(rows[r.value], barcode, year)
    ensures r.Some? ==> forall j :: 0 <= j < r.value ==> !HasKey(rows[j], barcode, year)
    ensures r.None? <==> forall j :: 0 <= j < |rows| ==> !HasKey(rows[j], barcode, year)
  {
    if rows == [] then None
    else if HasKey(rows[0], barcode, year) then Some(0)
    else match FindKey(rows[1..], barcode, year)
      case None => None
      case Some(i) => Some(i + 1)
  }

  /** The position of the first row with this barcode, whatever its year. */
  function FindBarcode(rows: seq<RefRow>, barcode: string): (r: Option<nat>)
    ensures r.Some? ==> r.value < |rows| && rows[r.value].barcode == barcode
    ensures r.Some? ==> forall j :: 0 <= j < r.value ==> rows[j].barcode != barcode
    ensures r.None? <==> forall j :: 0 <= j < |rows| ==> rows[j].barcode != barcode
  {
    if rows == [] then None
    else if rows[0].barcode == barcode then Some(0)
    else match FindBarcode(rows[1..], barcode)
      case None => None
      case Some(i) => Some(i + 1)
  }

  /** The row stored under a key, if any. */
  function Lookup(rows: seq<RefRow>, barcode: string, year: string): Option<RefRow> {
    match FindKey(rows, barcode, year)
    case None => None
    case Some(i) => Some(rows[i])
  }

  /** The records `get_all_funkos` reads back, in storage order; none carries an id. */
  function Records(rows: seq<RefRow>): (s: seq<Pop>)
    ensures |s| == |rows|
    ensures forall i :: 0 <= i < |rows| ==>
      s[i] == FromFirebaseFunkos(Some(rows[i].barcode), Some(rows[i].name), rows[i].marketValue, Some(rows[i].year))
    ensures forall i :: 0 <= i < |rows| ==> s[i].id == UnsavedId
  {
    seq(|rows|, i requires 0 <= i < |rows| =>
      FromFirebaseFunkos(Some(rows[i].barcode), Some(rows[i].name), rows[i].marketValue, Some(rows[i].year)))
  }

  /**
   * `INSERT ... ON CONFLICT(barcode, year) DO UPDATE SET name, marketValue`: a new key
   * adds one row at the end; an existing key has its name and value overwritten in place.
   */
  function Upsert(rows: seq<RefRow>, barcode: string, name: string, value: real, year: string): (r: seq<RefRow>)
    ensures FindKey(rows, barcode, year).None? ==> |r| == |rows| + 1 && r[|rows|] == RefRow(barcode, name, value, year)
    ensures FindKey(rows, barcode, year).Some? ==> |r| == |rows|
    ensures forall i :: 0 <= i < |rows| ==> r[i].barcode == rows[i].barcode && r[i].year == rows[i].year
    ensures forall i :: 0 <= i < |rows| && HasKey(rows[i], barcode, year) && KeysUnique(rows) ==>
      r[i] == RefRow(barcode, name, value, year)
    ensures forall i :: 0 <= i < |rows| && !HasKey(rows[i], barcode, year) ==> r[i] == rows[i]
  {
    match FindKey(rows, barcode, year)
    case Some(i) => rows[i := rows[i].(name := name, marketValue := value)]
    case None => rows + [RefRow(barcode, name, value, year)]
  }

  /** The primary key survives every upsert. */
  lemma UpsertKeepsKeysUnique(rows: seq<RefRow>, barcode: string, name: string, value: real, year: string)
    requires KeysUnique(rows)
    ensures KeysUnique(Upsert(rows, barcode, name, value, year))
  {
    var r := Upsert(rows, barcode, name, value, year);
    forall i, j | 0 <= i < j < |r| ensures !HasKey(r[j], r[i].barcode, r[i].year) {
      if j == |rows| {
        assert FindKey(rows, barcode, year).None?;
        assert !HasKey(rows[i], barcode, year);
      }
    }
  }

  /** After an upsert the key holds the new name and value; every other key reads as before. */
  lemma LookupAfterUpsert(rows: seq<RefRow>, barcode: string, name: string, value: real, year: string,
                          b: string, y: string)
    ensures Lookup(Upsert(rows, barcode, name, value, year), b, y)
         == if b == barcode && y == year then Some(RefRow(barcode, name, value, year)) else Lookup(rows, b, y)
  {
    var r := Upsert(rows, barcode, name, value, year);
    if b == barcode && y == year {
      match FindKey(rows, barcode, year)
      case None =>
        assert FindKey(r, b, y) == Some(|rows|);
      case Some(i) =>
        assert FindKey(r, b, y) == Some(i);
    } else {
      match FindKey(rows, b, y)
      case None =>
        assert FindKey(r, b, y).None?;
      case Some(i) =>
        assert FindKey(r, b, y) == Some(i);
    }
  }

  /** Upserting the same arguments twice leaves the table an upsert leaves once. */
  lemma UpsertIdempotent(rows: seq<RefRow>, barcode: string, name: string, value: real, year: string)
    ensures Upsert(Upsert(rows, barcode, name, value, year), barcode, name, value, year)
         == Upsert(rows, barcode, name, value, year)
  {
    var once := Upsert(rows, barcode, name, value, year);
    match FindKey(rows, barcode, year)
    case None =>
      assert FindKey(once, barcode, year) == Some(|rows|);
    case Some(i) =>
      assert FindKey(once, barcode, year) == Some(i);
  }

  /** The local `firebase_funkos` table of one database file. */
  class FirebaseDB {
    /** `CREATE TABLE` has run. */
    var tableExists: bool
    /** The rows in storage order. */
    var rows: seq<RefRow>

    ghost predicate Valid()
      reads this
    {
      KeysUnique(rows) && (!tableExists ==> rows == [])
    }

    /** A database file in which the table has not been created yet. */
    constructor ()
      ensures Valid() && !tableExists && rows == []
    {
      tableExists, rows := false, [];
    }

    /** `create_table`: `CREATE TABLE IF NOT EXISTS`, so existing rows are kept. */
    method CreateTable()
      requires Valid()
      modifies this
      ensures Valid() && tableExists && rows == old(rows)
    {
      tableExists := true;
    }

    /**
     * `upsert_funko`. Without the table the SQL error is caught and logged, and nothing
     * changes.
     */
    method UpsertFunko(barcode: string, name: string, value: real, year: string)
      requires Valid()
      modifies this
      ensures Valid() && tableExists == old(tableExists)
      ensures rows == if old(tableExists) then Upsert(old(rows), barcode, name, value, year) else old(rows)
    {
      if tableExists {
        UpsertKeepsKeysUnique(rows, barcode, name, value, year);
        rows := Upsert(rows, barcode, name, value, year);
      }
    }

    /**
     * `get_market_value`: with a truthy year, the value stored under `(barcode, year)`;
     * otherwise the value of a row with this barcode (the query has no ORDER BY; the
     * model takes the first in storage order). `None` when nothing matches or the
     * table is missing.
     */
    function GetMarketValue(barcode: string, year: Option<string>): (r: Option<real>)
      reads this
      ensures !tableExists ==> r.None?
      ensures tableExists && Truthy(year) ==>
        (r.Some? <==> exists i :: 0 <= i < |rows| && HasKey(rows[i], barcode, year.value))
      ensures tableExists && Truthy(year) && KeysUnique(rows) ==>
        forall i :: 0 <= i < |rows| && HasKey(rows[i], barcode, year.value) ==> r == Some(rows[i].marketValue)
      ensures tableExists && !Truthy(year) ==>
        (r.Some? <==> exists i :: 0 <= i < |rows| && rows[i].barcode == barcode)
      ensures r.Some? ==> exists i :: 0 <= i < |rows| && rows[i].barcode == barcode && rows[i].marketValue == r.value
    {
      if !tableExists then None
      else if Truthy(year) then
        match FindKey(rows, barcode, year.value)
        case None => None
        case Some(i) => Some(rows[i].marketValue)
      else
        match FindBarcode(rows, barcode)
        case None => None
        case Some(i) => Some(rows[i].marketValue)
    }

    /**
     * `get_all_funkos`: one record per row, in storage order, with barcode, name, value
     * and year and no id. Without the table the error is caught and the list is empty.
     */
    method GetAllFunkos() returns (funkos: seq<Pop>)
      requires Valid()
      ensures funkos == Records(rows)
    {
      funkos := [];
      for i := 0 to |rows|
        invariant |funkos| == i
        invariant forall k :: 0 <= k < i ==>
          funkos[k] == FromFirebaseFunkos(Some(rows[k].barcode), Some(rows[k].name), rows[k].marketValue, Some(rows[k].year))
      {
        var row := rows[i];
        funkos := funkos + [FromFirebaseFunkos(Some(row.barcode), Some(row.name), row.marketValue, Some(row.year))];
      }
    }
  }
}
