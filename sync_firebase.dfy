/**
 * The import pass (`SyncFirebase.sync_firebase` in sync_firebase.py): ensure the
 * reference table exists, fetch every remote record, and upsert each one in order
 * under its `(barcode, release year)` key.
 */
module ImportPass {
  import opened Wrappers
  import opened Reference
  import Firestore

  /** The reference rows after upserting the fetched records one after another. */
  function UpsertAll(rows: seq<RefRow>, funkos: seq<Firestore.RemoteFunko>): (r: seq<RefRow>)
    ensures |rows| <= |r| <= |rows| + |funkos|
    decreases |funkos|
  {
    if funkos == [] then rows
    else
      var f := funkos[|funkos| - 1];
      Upsert(UpsertAll(rows, funkos[..|funkos| - 1]), f.barcode, f.name, f.marketValue, f.releaseYear)
  }

  predicate RecordHasKey(f: Firestore.RemoteFunko, barcode: string, year: string) {
    f.barcode == barcode && f.releaseYear == year
  }

  /** The position of the last fetched record with this key. */
  function LastWithKey(funkos: seq<Firestore.RemoteFunko>, barcode: string, year: string): (r: Option<nat>)
    ensures r.Some? ==> r.value < |funkos| && RecordHasKey(funkos[r.value], barcode, year)
    ensures r.Some? ==> forall j :: r.value < j < |funkos| ==> !RecordHasKey(funkos[j], barcode, year)
    ensures r.None? <==> forall j :: 0 <= j < |funkos| ==> !RecordHasKey(funkos[j], barcode, year)
  {
    if funkos == [] then None
    else if RecordHasKey(funkos[|funkos| - 1], barcode, year) then Some(|funkos| - 1)
    else LastWithKey(funkos[..|funkos| - 1], barcode, year)
  }

  /** The pass only appends: every row already stored keeps its key and its position. */
  lemma {:induction false} UpsertAllKeepsStoredKeys(rows: seq<RefRow>, funkos: seq<Firestore.RemoteFunko>, i: nat)
    requires i < |rows|
    ensures UpsertAll(rows, funkos)[i].barcode == rows[i].barcode && UpsertAll(rows, funkos)[i].year == rows[i].year
    decreases |funkos|
  {
    if funkos != [] {
      UpsertAllKeepsStoredKeys(rows, funkos[..|funkos| - 1], i);
    }
  }

  /** The primary key holds after the whole pass. */
  lemma {:induction false} UpsertAllKeepsKeysUnique(rows: seq<RefRow>, funkos: seq<Firestore.RemoteFunko>)
    requires KeysUnique(rows)
    ensures KeysUnique(UpsertAll(rows, funkos))
    decreases |funkos|
  {
    if funkos != [] {
      var f := funkos[|funkos| - 1];
      UpsertAllKeepsKeysUnique(rows, funkos[..|funkos| - 1]);
      UpsertKeepsKeysUnique(UpsertAll(rows, funkos[..|funkos| - 1]), f.barcode, f.name, f.marketValue, f.releaseYear);
    }
  }

  /**
   * Last write wins: a key some fetched record carries holds the name and value of the
   * last such record; every other key reads as it did before the pass.
   */
  lemma {:induction false} LastWriteWins(rows: seq<RefRow>, funkos: seq<Firestore.RemoteFunko>, barcode: string, year: string)
    ensures Lookup(UpsertAll(rows, funkos), barcode, year) ==
      match LastWithKey(funkos, barcode, year)
      case None => Lookup(rows, barcode, year)
      case Some(k) => Some(RefRow(barcode, funkos[k].name, funkos[k].marketValue, year))
    decreases |funkos|
  {
    if funkos != [] {
      var n := |funkos| - 1;
      var f := funkos[n];
      var init := funkos[..n];
      var prev := UpsertAll(rows, init);
      assert UpsertAll(rows, funkos) == Upsert(prev, f.barcode, f.name, f.marketValue, f.releaseYear);
      LookupAfterUpsert(prev, f.barcode, f.name, f.marketValue, f.releaseYear, barcode, year);
      if RecordHasKey(f, barcode, year) {
        assert LastWithKey(funkos, barcode, year) == Some(n);
      } else {
        assert LastWithKey(funkos, barcode, year) == LastWithKey(init, barcode, year);
        LastWriteWins(rows, init, barcode, year);
        match LastWithKey(init, barcode, year)
        case None =>
        case Some(k) => assert init[k] == funkos[k];
      }
    }
  }

  /** A failure the model gives a name to. */
  datatype ImportError = MissingServiceAccountPath

  /**
   * The pass with the connection built from `client` (the outcome of initialising the
   * SDK from a service-account file). An unreachable service yields no records, so the
   * table is only created.
   */
  method SyncFirebase(reference: FirebaseDB, client: Option<Firestore.FirestoreClient>, conv: Firestore.PyConversions)
    requires reference.Valid()
    modifies reference
    ensures reference.Valid() && reference.tableExists
    ensures reference.rows == UpsertAll(old(reference.rows), Firestore.Fetch(client, conv))
  {
    reference.CreateTable();
    var connection := new Firestore.FirestoreConnection(client);
    var funkos := connection.GetAllFunkos(conv);
    UpsertEach(reference, funkos);
  }

  /** The loop of the pass: each fetched record is upserted once, in fetch order. */
  method UpsertEach(reference: FirebaseDB, funkos: seq<Firestore.RemoteFunko>)
    requires reference.Valid() && reference.tableExists
    modifies reference
    ensures reference.Valid() && reference.tableExists
    ensures reference.rows == UpsertAll(old(reference.rows), funkos)
  {
    ghost var start := reference.rows;
    for i := 0 to |funkos|
      invariant reference.Valid() && reference.tableExists
      invariant reference.rows == UpsertAll(start, funkos[..i])
    {
      var f := funkos[i];
      assert funkos[..i + 1][..i] == funkos[..i];
      reference.UpsertFunko(f.barcode, f.name, f.marketValue, f.releaseYear);
    }
    assert funkos[..|funkos|] == funkos;
  }

  /**
   * The pass as written: the connection is built with no service-account path, which
   * the connection's initialiser requires, so the call raises right after the table
   * is created and nothing is imported.
   */
  method SyncFirebaseAsWritten(reference: FirebaseDB) returns (o: Outcome<ImportError>)
    requires reference.Valid()
    modifies reference
    ensures reference.Valid() && reference.tableExists && reference.rows == old(reference.rows)
    ensures o == Fail(MissingServiceAccountPath)
  {
    reference.CreateTable();
    o := Fail(MissingServiceAccountPath);
  }
}
