/**
 * The reconciliation pass (`SyncApp.sync_market_values` in sync_app.py): read both
 * stores, and for every inventory record in storage order look for the first
 * reference record with the same barcode and year; on a match, write the reference
 * value into every inventory row with that key.
 *
 * Each record's message concatenates its name and year before anything else happens
 * for it, so a record without a year raises TypeError there and ends the pass; the
 * writes of the records before it stay.
 */
module Reconciliation {
  import opened Wrappers
  import opened FunkoPops
  import opened Inventory
  import Reference

  /** Python `==` on both key fields (so `None == None` holds, unlike in SQL). */
  predicate SameKey(p: Pop, barcode: Option<string>, year: Option<string>) {
    p.barcode == barcode && p.year == year
  }

  /** The position of the first reference record with this key. */
  function FirstMatch(barcode: Option<string>, year: Option<string>, refs: seq<Pop>): (r: Option<nat>)
    ensures r.Some? ==> r.value < |refs| && SameKey(refs[r.value], barcode, year)
    ensures r.Some? ==> forall j :: 0 <= j < r.value ==> !SameKey(refs[j], barcode, year)
    ensures r.None? <==> forall j :: 0 <= j < |refs| ==> !SameKey(refs[j], barcode, year)
  {
    if refs == [] then None
    else if SameKey(refs[0], barcode, year) then Some(0)
    else match FirstMatch(barcode, year, refs[1..])
      case None => None
      case Some(i) => Some(i + 1)
  }

  /** The reference value for a key: that of the first matching reference record. */
  function RefValue(barcode: Option<string>, year: Option<string>, refs: seq<Pop>): Option<real> {
    match FirstMatch(barcode, year, refs)
    case None => None
    case Some(j) => Some(refs[j].marketValue)
  }

  /** The record's message can be built: name and year are both text. */
  predicate Printable(p: Pop) {
    p.name.Some? && p.year.Some?
  }

  /** How many records the pass gets through: up to the first one it cannot print. */
  function StopAt(todo: seq<Pop>): (k: nat)
    ensures k <= |todo|
    ensures forall j :: 0 <= j < k ==> Printable(todo[j])
    ensures k < |todo| ==> !Printable(todo[k])
  {
    if todo == [] || !Printable(todo[0]) then 0 else 1 + StopAt(todo[1..])
  }

  /** The inventory rows after the pass has handled one record. */
  function Step(rows: seq<Row>, p: Pop, refs: seq<Pop>): (r: seq<Row>)
    ensures |r| == |rows|
    ensures FirstMatch(p.barcode, p.year, refs).None? ==> r == rows
  {
    match FirstMatch(p.barcode, p.year, refs)
    case None => rows
    case Some(j) => WithValueByKey(rows, p.barcode, p.year, refs[j].marketValue)
  }

  /**
   * On a match every row with the record's key, in the SQL sense, takes the first
   * matching reference value, and every other row is kept.
   */
  lemma StepPointwise(rows: seq<Row>, p: Pop, refs: seq<Pop>, i: nat)
    requires i < |rows| && FirstMatch(p.barcode, p.year, refs).Some?
    ensures Step(rows, p, refs)[i] == if KeyMatches(rows[i], p.barcode, p.year)
      then rows[i].(marketValue := refs[FirstMatch(p.barcode, p.year, refs).value].marketValue)
      else rows[i]
  {
  }

  /** The inventory rows after the pass has handled the records `todo`, in order. */
  function Apply(rows: seq<Row>, todo: seq<Pop>, refs: seq<Pop>): (r: seq<Row>)
    ensures |r| == |rows|
    ensures forall i :: 0 <= i < |rows| ==> r[i] == rows[i].(marketValue := r[i].marketValue)
    decreases |todo|
  {
    if todo == [] then rows
    else Step(Apply(rows, todo[..|todo| - 1], refs), todo[|todo| - 1], refs)
  }

  /** The by-key update one handled record issues: one on a match, none on a miss. */
  function StepWrites(p: Pop, refs: seq<Pop>): (r: seq<ValueWrite>)
    ensures r == [] <==> FirstMatch(p.barcode, p.year, refs).None?
    ensures r != [] ==> r == [ValueWrite(p.barcode, p.year, refs[FirstMatch(p.barcode, p.year, refs).value].marketValue)]
  {
    match FirstMatch(p.barcode, p.year, refs)
    case None => []
    case Some(j) => [ValueWrite(p.barcode, p.year, refs[j].marketValue)]
  }

  /** The written value is some reference record's value. */
  predicate FromReference(w: ValueWrite, refs: seq<Pop>) {
    exists j :: 0 <= j < |refs| && w.value == refs[j].marketValue
  }

  /**
   * The by-key updates the pass issues for the records `todo`, in order: one per
   * record that has a reference record with its key, carrying the record's own
   * barcode and year and that reference value; none for a record without one.
   */
  function IssuedWrites(todo: seq<Pop>, refs: seq<Pop>): (r: seq<ValueWrite>)
    ensures |r| <= |todo|
    decreases |todo|
  {
    if todo == [] then [] else IssuedWrites(todo[..|todo| - 1], refs) + StepWrites(todo[|todo| - 1], refs)
  }

  /** Every value the pass writes is taken from a reference record. */
  lemma {:induction false} IssuedWritesFromReference(todo: seq<Pop>, refs: seq<Pop>)
    ensures forall k :: 0 <= k < |IssuedWrites(todo, refs)| ==> FromReference(IssuedWrites(todo, refs)[k], refs)
    decreases |todo|
  {
    if todo != [] {
      var p := todo[|todo| - 1];
      var last := StepWrites(p, refs);
      IssuedWritesFromReference(todo[..|todo| - 1], refs);
      if last != [] {
        var j := FirstMatch(p.barcode, p.year, refs).value;
        assert FromReference(last[0], refs) by { assert last[0].value == refs[j].marketValue; }
      }
    }
  }

  /** Some handled record names this row's key, in the SQL sense. */
  predicate Touched(r: Row, todo: seq<Pop>) {
    exists k :: 0 <= k < |todo| && KeyMatches(r, todo[k].barcode, todo[k].year)
  }

  /** A row after the pass: the reference value if a handled record named its key and the key has one. */
  function Reconciled(r: Row, todo: seq<Pop>, refs: seq<Pop>): Row {
    if Touched(r, todo) && RefValue(r.barcode, r.year, refs).Some? then
      r.(marketValue := RefValue(r.barcode, r.year, refs).value)
    else r
  }

  /** Row by row, the pass sets exactly the values `Reconciled` describes. */
  lemma {:induction false} ApplyPointwise(rows: seq<Row>, todo: seq<Pop>, refs: seq<Pop>, i: nat)
    requires i < |rows|
    ensures Apply(rows, todo, refs)[i] == Reconciled(rows[i], todo, refs)
    decreases |todo|
  {
    if todo != [] {
      var n := |todo| - 1;
      var p := todo[n];
      var init := todo[..n];
      var prev := Apply(rows, init, refs);
      ApplyPointwise(rows, init, refs, i);
      assert forall k :: 0 <= k < n ==> init[k] == todo[k];
      if KeyMatches(rows[i], p.barcode, p.year) {
        assert RefValue(rows[i].barcode, rows[i].year, refs) == RefValue(p.barcode, p.year, refs);
        assert Touched(rows[i], todo);
      } else {
        assert Touched(rows[i], todo) <==> Touched(rows[i], init);
        assert KeyMatches(prev[i], p.barcode, p.year) == KeyMatches(rows[i], p.barcode, p.year);
      }
    }
  }

  /** The row after a full pass over the whole store, stated without reference to the pass. */
  function Expected(r: Row, refs: seq<Pop>): Row {
    if r.barcode.Some? && r.year.Some? && RefValue(r.barcode, r.year, refs).Some? then
      r.(marketValue := RefValue(r.barcode, r.year, refs).value)
    else r
  }

  /**
   * A pass over every stored record sets each row with a barcode and a year to the
   * value of the first reference record with that key, when there is one, and leaves
   * every other row as it was.
   */
  lemma FullPass(rows: seq<Row>, refs: seq<Pop>)
    ensures forall i :: 0 <= i < |rows| ==> Apply(rows, Snapshot(rows), refs)[i] == Expected(rows[i], refs)
  {
    var todo := Snapshot(rows);
    forall i | 0 <= i < |rows| ensures Apply(rows, todo, refs)[i] == Expected(rows[i], refs) {
      ApplyPointwise(rows, todo, refs, i);
      if rows[i].barcode.Some? && rows[i].year.Some? {
        assert KeyMatches(rows[i], todo[i].barcode, todo[i].year);
      }
    }
  }

  /** A second full pass against the same reference data changes nothing. */
  lemma FullPassIdempotent(rows: seq<Row>, refs: seq<Pop>)
    ensures Apply(Apply(rows, Snapshot(rows), refs), Snapshot(Apply(rows, Snapshot(rows), refs)), refs)
         == Apply(rows, Snapshot(rows), refs)
  {
    var once := Apply(rows, Snapshot(rows), refs);
    var twice := Apply(once, Snapshot(once), refs);
    FullPass(rows, refs);
    FullPass(once, refs);
    forall i | 0 <= i < |rows| ensures twice[i] == once[i] {
      assert once[i] == Expected(rows[i], refs);
    }
  }

  /** Two record lists that name the same keys, position by position. */
  predicate SameKeys(todo: seq<Pop>, again: seq<Pop>) {
    && |todo| == |again|
    && forall k :: 0 <= k < |todo| ==> again[k].barcode == todo[k].barcode && again[k].year == todo[k].year
  }

  /**
   * Handling the same keys again against the same reference data leaves the rows of
   * the first run as they are: every touched row already holds its key's value.
   */
  lemma ApplyAgain(rows: seq<Row>, todo: seq<Pop>, again: seq<Pop>, refs: seq<Pop>)
    requires SameKeys(todo, again)
    ensures Apply(Apply(rows, todo, refs), again, refs) == Apply(rows, todo, refs)
  {
    var once := Apply(rows, todo, refs);
    var twice := Apply(once, again, refs);
    forall i | 0 <= i < |rows| ensures twice[i] == once[i] {
      ApplyPointwise(rows, todo, refs, i);
      ApplyPointwise(once, again, refs, i);
      if Touched(rows[i], todo) {
        var k :| 0 <= k < |todo| && KeyMatches(rows[i], todo[k].barcode, todo[k].year);
        assert KeyMatches(once[i], again[k].barcode, again[k].year);
      }
      if Touched(once[i], again) {
        var k :| 0 <= k < |again| && KeyMatches(once[i], again[k].barcode, again[k].year);
        assert KeyMatches(rows[i], todo[k].barcode, todo[k].year);
      }
    }
  }

  /**
   * A pass that stopped early (at a record without a name or a year) is idempotent
   * too: it stops at the same record the second time, and the records before it
   * find their rows already reconciled.
   */
  lemma AbortedPassIdempotent(rows: seq<Row>, refs: seq<Pop>)
    ensures var todo := Snapshot(rows);
      var once := Apply(rows, todo[..StopAt(todo)], refs);
      var again := Snapshot(once);
      Apply(once, again[..StopAt(again)], refs) == once
  {
    var todo := Snapshot(rows);
    var n := StopAt(todo);
    var once := Apply(rows, todo[..n], refs);
    var again := Snapshot(once);
    assert forall k :: 0 <= k < |todo| ==> Printable(again[k]) == Printable(todo[k]);
    StopAtIs(again, n);
    ApplyAgain(rows, todo[..n], again[..n], refs);
  }

  /** Why the pass stopped early. */
  datatype PassError =
    | NoInventoryTable  // the inventory read raised: its table does not exist
    | NoneInMessage     // TypeError: a record's name or year is None in the message

  /**
   * One turn of the outer loop: scan the reference records for the first with this
   * record's key, print, and on a match write the value. `false` when the message
   * raises, which happens before the write.
   */
  method HandleRecord(inventory: FunkoDB, p: Pop, refs: seq<Pop>) returns (printed: bool)
    requires inventory.Valid() && inventory.tableExists
    modifies inventory
    ensures inventory.Valid() && inventory.tableExists
    ensures inventory.nextId == old(inventory.nextId) && inventory.issued == old(inventory.issued)
    ensures printed == Printable(p)
    ensures printed ==> inventory.rows == Step(old(inventory.rows), p, refs)
    ensures !printed ==> inventory.rows == old(inventory.rows)
    ensures inventory.writes == old(inventory.writes) + if printed then StepWrites(p, refs) else []
  {
    var j := 0;
    while j < |refs|
      invariant 0 <= j <= |refs|
      invariant forall m :: 0 <= m < j ==> !SameKey(refs[m], p.barcode, p.year)
    {
      if p.barcode == refs[j].barcode && p.year == refs[j].year {
        if !Printable(p) {
          return false;
        }
        assert FirstMatch(p.barcode, p.year, refs) == Some(j);
        var written := inventory.UpdateMarketValueByBarcodeAndYear(p.barcode, p.year, refs[j].marketValue);
        return true;
      }
      j := j + 1;
    }
    return Printable(p);
  }

  /** `StopAt` is pinned down by its contract. */
  lemma StopAtIs(todo: seq<Pop>, i: nat)
    requires i <= |todo|
    requires forall k :: 0 <= k < i ==> Printable(todo[k])
    requires i < |todo| ==> !Printable(todo[i])
    ensures StopAt(todo) == i
  {
  }

  /** Handling one more record extends both the rows and the write log by that record's step. */
  lemma HandledOneMore(rows: seq<Row>, logged: seq<ValueWrite>, todo: seq<Pop>, i: nat, refs: seq<Pop>)
    requires i < |todo|
    ensures Apply(rows, todo[..i + 1], refs) == Step(Apply(rows, todo[..i], refs), todo[i], refs)
    ensures logged + IssuedWrites(todo[..i + 1], refs) == logged + IssuedWrites(todo[..i], refs) + StepWrites(todo[i], refs)
  {
    assert todo[..i + 1][..i] == todo[..i];
  }

  /**
   * The outer loop of `sync_market_values` over the records read from the inventory
   * store: each is handled in order until one cannot be printed.
   */
  method HandleAll(inventory: FunkoDB, personal: seq<Pop>, refs: seq<Pop>) returns (completed: bool)
    requires inventory.Valid() && inventory.tableExists
    modifies inventory
    ensures inventory.Valid() && inventory.tableExists
    ensures inventory.nextId == old(inventory.nextId) && inventory.issued == old(inventory.issued)
    ensures inventory.rows == Apply(old(inventory.rows), personal[..StopAt(personal)], refs)
    ensures inventory.writes == old(inventory.writes) + IssuedWrites(personal[..StopAt(personal)], refs)
    ensures completed <==> StopAt(personal) == |personal|
  {
    ghost var start := inventory.rows;
    ghost var logged := inventory.writes;
    var i := 0;
    while i < |personal|
      invariant 0 <= i <= |personal|
      invariant inventory.Valid() && inventory.tableExists
      invariant inventory.nextId == old(inventory.nextId) && inventory.issued == old(inventory.issued)
      invariant forall k :: 0 <= k < i ==> Printable(personal[k])
      invariant inventory.rows == Apply(start, personal[..i], refs)
      invariant inventory.writes == logged + IssuedWrites(personal[..i], refs)
    {
      var printed := HandleRecord(inventory, personal[i], refs);
      if !printed {
        StopAtIs(personal, i);
        return false;
      }
      HandledOneMore(start, logged, personal, i, refs);
      i := i + 1;
    }
    StopAtIs(personal, i);
    assert personal[..|personal|] == personal;
    return true;
  }

  /**
   * `sync_market_values`: reads both stores, then runs the outer loop. Only the
   * inventory store is written.
   */
  method SyncMarketValues(inventory: FunkoDB, reference: Reference.FirebaseDB) returns (o: Outcome<PassError>)
    requires inventory.Valid() && reference.Valid()
    modifies inventory
    ensures inventory.Valid()
    ensures inventory.tableExists == old(inventory.tableExists)
    ensures inventory.nextId == old(inventory.nextId) && inventory.issued == old(inventory.issued)
    ensures !old(inventory.tableExists) ==>
      o == Fail(NoInventoryTable) && inventory.rows == old(inventory.rows) && inventory.writes == old(inventory.writes)
    ensures old(inventory.tableExists) ==>
      var todo := Snapshot(old(inventory.rows));
      && inventory.rows == Apply(old(inventory.rows), todo[..StopAt(todo)], Reference.Records(reference.rows))
      && inventory.writes == old(inventory.writes) + IssuedWrites(todo[..StopAt(todo)], Reference.Records(reference.rows))
      && (o == Pass <==> StopAt(todo) == |todo|)
      && (o.Fail? ==> o.error == NoneInMessage)
  {
    var refs := reference.GetAllFunkos();
    var got := inventory.GetAllFunkos();
    if got.Failure? {
      return Fail(NoInventoryTable);
    }
    var personal := got.value;
    var completed := HandleAll(inventory, personal, refs);
    o := if completed then Pass else Fail(NoneInMessage);
  }
}
