/**
 * The remote normaliser (`FirestoreConnection` in firestore_connection.py). A remote
 * document is a field-to-value map; each logical field of the normalised record takes
 * the first truthy value among an ordered list of alternate field names, or a default.
 * The remote collection itself is an input of the model.
 */
module Firestore {
  import opened Wrappers

  /** A document field value as the normaliser sees it. */
  datatype Value = Null | Text(s: string) | Int(i: int) | Float(x: real)

  /** Python truthiness: `None`, `""`, `0` and `0.0` are false. */
  predicate Truthy(v: Value) {
    match v
    case Null => false
    case Text(s) => s != ""
    case Int(i) => i != 0
    case Float(x) => x != 0.0
  }

  /** A document of the `funkos` collection: its id and `to_dict()` (`{}` when that is `None`). */
  datatype Document = Document(id: string, data: map<string, Value>)

  /**
   * The two Python conversions whose text formats the model does not spell out:
   * `str` of a float, and `float` of a string (`None` where Python raises ValueError).
   */
  datatype PyConversions = PyConversions(floatRepr: real -> string, parseFloat: string -> Option<real>)

  /** A normalised record (the `Funko` the source builds) tagged with its document id. */
  datatype RemoteFunko = RemoteFunko(
    firestoreId: string,
    name: string,
    series: string,
    itemNo: string,
    releaseYear: string,
    barcode: string,
    marketValue: real,
    imagePath: string,
    notes: string)

  // The alternate field names of each logical field, in the order they are tried.
  const NameKeys: seq<string> := ["name", "title"]
  const SeriesKeys: seq<string> := ["series"]
  const ItemNoKeys: seq<string> := ["item_no", "itemNo"]
  const ReleaseYearKeys: seq<string> := ["release_year", "releaseYear"]
  const BarcodeKeys: seq<string> := ["barcode"]
  const MarketValueKeys: seq<string> := ["marketValue", "market_value", "value"]
  const ImageKeys: seq<string> := ["image_path", "image"]
  const NotesKeys: seq<string> := ["notes"]

  /** Every field name the normaliser ever reads. */
  predicate ReadKey(key: string) {
    key in NameKeys || key in SeriesKeys || key in ItemNoKeys || key in ReleaseYearKeys
    || key in BarcodeKeys || key in MarketValueKeys || key in ImageKeys || key in NotesKeys
  }

  /** `data.get(key)` is truthy. */
  predicate Present(data: map<string, Value>, key: string) {
    key in data && Truthy(data[key])
  }

  /** `data.get(k1) or data.get(k2) or ...`: the position of the first truthy alternate. */
  function FirstTruthy(data: map<string, Value>, keys: seq<string>): (r: Option<nat>)
    ensures r.Some? ==> r.value < |keys| && Present(data, keys[r.value])
    ensures r.Some? ==> forall j :: 0 <= j < r.value ==> !Present(data, keys[j])
    ensures r.None? <==> forall j :: 0 <= j < |keys| ==> !Present(data, keys[j])
  {
    if keys == [] then None
    else if Present(data, keys[0]) then Some(0)
    else match FirstTruthy(data, keys[1..])
      case None => None
      case Some(i) => Some(i + 1)
  }

  /** The number a run of decimal digits denotes, read most significant first. */
  function DigitsValue(r: string): int {
    if r == [] then 0 else DigitsValue(r[..|r| - 1]) * 10 + (r[|r| - 1] as int - '0' as int)
  }

  /** Decimal digits of a natural number, most significant first. */
  function DigitsText(n: nat): (r: string)
    ensures |r| > 0
    ensures forall k :: 0 <= k < |r| ==> '0' <= r[k] <= '9'
    ensures r[0] == '0' ==> n == 0
    ensures DigitsValue(r) == n
  {
    var last := ['0' + (n % 10) as char];
    if n < 10 then last
    else
      var front := DigitsText(n / 10);
      assert (front + last)[..|front|] == front;
      front + last
  }

  /** Python `str(v)`. */
  function Str(v: Value, conv: PyConversions): string {
    match v
    case Null => "None"
    case Text(s) => s
    case Int(i) => if i < 0 then "-" + DigitsText(-i) else DigitsText(i)
    case Float(x) => conv.floatRepr(x)
  }

  /** Python `float(v)`: `None` where it raises. */
  function ToFloat(v: Value, conv: PyConversions): Option<real> {
    match v
    case Null => None
    case Text(s) => conv.parseFloat(s)
    case Int(i) => Some(i as real)
    case Float(x) => Some(x)
  }

  /** A text field: the first truthy alternate as text, else `""`. */
  function TextField(data: map<string, Value>, keys: seq<string>, conv: PyConversions): string {
    match FirstTruthy(data, keys)
    case None => ""
    case Some(i) => Str(data[keys[i]], conv)
  }

  /** The market value: the first truthy alternate as a float, else `0.0`; `None` if `float` raises. */
  function ValueField(data: map<string, Value>, conv: PyConversions): Option<real> {
    match FirstTruthy(data, MarketValueKeys)
    case None => Some(0.0)
    case Some(i) => ToFloat(data[MarketValueKeys[i]], conv)
  }

  /** One document's record, or `None` when building it raises. */
  function Normalize(doc: Document, conv: PyConversions): (r: Option<RemoteFunko>)
    ensures r.None? <==> ValueField(doc.data, conv).None?
    ensures r.Some? ==> r.value.firestoreId == doc.id && r.value.marketValue == ValueField(doc.data, conv).value
  {
    var data := doc.data;
    match ValueField(data, conv)
    case None => None
    case Some(value) =>
      Some(RemoteFunko(
        doc.id,
        TextField(data, NameKeys, conv),
        TextField(data, SeriesKeys, conv),
        TextField(data, ItemNoKeys, conv),
        TextField(data, ReleaseYearKeys, conv),
        TextField(data, BarcodeKeys, conv),
        value,
        TextField(data, ImageKeys, conv),
        TextField(data, NotesKeys, conv)))
  }

  /**
   * What the loop accumulates: the records of the documents in order, up to the
   * first document whose record raises, which ends the scan.
   */
  function NormalizeAll(docs: seq<Document>, conv: PyConversions): (r: seq<RemoteFunko>)
    ensures |r| <= |docs|
    ensures forall i :: 0 <= i < |r| ==> Normalize(docs[i], conv) == Some(r[i])
    ensures forall i :: 0 <= i < |r| ==> r[i].firestoreId == docs[i].id
    ensures |r| < |docs| ==> Normalize(docs[|r|], conv).None?
  {
    if docs == [] then []
    else match Normalize(docs[0], conv)
      case None => []
      case Some(f) => [f] + NormalizeAll(docs[1..], conv)
  }

  /** The characterisation of `NormalizeAll` determines it: any such list is that list. */
  lemma {:induction false} NormalizedPrefixIsAll(docs: seq<Document>, conv: PyConversions, funkos: seq<RemoteFunko>)
    requires |funkos| <= |docs|
    requires forall i :: 0 <= i < |funkos| ==> Normalize(docs[i], conv) == Some(funkos[i])
    requires |funkos| < |docs| ==> Normalize(docs[|funkos|], conv).None?
    ensures funkos == NormalizeAll(docs, conv)
  {
    if docs != [] && funkos != [] {
      assert Normalize(docs[0], conv) == Some(funkos[0]);
      forall i | 0 <= i < |funkos[1..]| ensures Normalize(docs[1..][i], conv) == Some(funkos[1..][i]) {
        assert docs[1..][i] == docs[i + 1];
      }
      if |funkos[1..]| < |docs[1..]| {
        assert docs[1..][|funkos[1..]|] == docs[|funkos|];
      }
      NormalizedPrefixIsAll(docs[1..], conv, funkos[1..]);
      assert funkos == [funkos[0]] + funkos[1..];
    }
  }

  /** When every document normalises, there is one record per document. */
  lemma EveryDocumentYieldsARecord(docs: seq<Document>, conv: PyConversions)
    requires forall i :: 0 <= i < |docs| ==> Normalize(docs[i], conv).Some?
    ensures |NormalizeAll(docs, conv)| == |docs|
  {
  }

  /** `name` is the first truthy of `name`, then `title`, else `""`. */
  lemma NameFallback(doc: Document, conv: PyConversions)
    requires Normalize(doc, conv).Some?
    ensures Normalize(doc, conv).value.name ==
      if Present(doc.data, "name") then Str(doc.data["name"], conv)
      else if Present(doc.data, "title") then Str(doc.data["title"], conv)
      else ""
  {
    var d := doc.data;
    if !Present(d, "name") {
      assert NameKeys[0] == "name" && NameKeys[1] == "title";
      assert FirstTruthy(d, NameKeys) == (if Present(d, "title") then Some(1) else None);
    }
  }

  /**
   * `barcode`, `series` and `notes` each read their one field, else `""`; the image path
   * reads `image_path`, then `image`, else `""`.
   */
  lemma OtherTextFallbacks(doc: Document, conv: PyConversions)
    requires Normalize(doc, conv).Some?
    ensures Normalize(doc, conv).value.barcode ==
      if Present(doc.data, "barcode") then Str(doc.data["barcode"], conv) else ""
    ensures Normalize(doc, conv).value.series ==
      if Present(doc.data, "series") then Str(doc.data["series"], conv) else ""
    ensures Normalize(doc, conv).value.notes ==
      if Present(doc.data, "notes") then Str(doc.data["notes"], conv) else ""
    ensures Normalize(doc, conv).value.imagePath ==
      if Present(doc.data, "image_path") then Str(doc.data["image_path"], conv)
      else if Present(doc.data, "image") then Str(doc.data["image"], conv)
      else ""
  {
    var d := doc.data;
    assert BarcodeKeys[0] == "barcode" && SeriesKeys[0] == "series" && NotesKeys[0] == "notes";
    if !Present(d, "image_path") {
      assert ImageKeys[0] == "image_path" && ImageKeys[1] == "image";
      assert FirstTruthy(d, ImageKeys) == (if Present(d, "image") then Some(1) else None);
    }
  }

  /** `item_no` looks at `item_no` then `itemNo` only; `release_year` at `release_year` then `releaseYear` only. */
  lemma ItemNoAndYearFallback(doc: Document, conv: PyConversions)
    requires Normalize(doc, conv).Some?
    ensures Normalize(doc, conv).value.itemNo ==
      if Present(doc.data, "item_no") then Str(doc.data["item_no"], conv)
      else if Present(doc.data, "itemNo") then Str(doc.data["itemNo"], conv)
      else ""
    ensures Normalize(doc, conv).value.releaseYear ==
      if Present(doc.data, "release_year") then Str(doc.data["release_year"], conv)
      else if Present(doc.data, "releaseYear") then Str(doc.data["releaseYear"], conv)
      else ""
  {
    var d := doc.data;
    if !Present(d, "item_no") {
      assert ItemNoKeys[0] == "item_no" && ItemNoKeys[1] == "itemNo";
      assert FirstTruthy(d, ItemNoKeys) == (if Present(d, "itemNo") then Some(1) else None);
    }
    if !Present(d, "release_year") {
      assert ReleaseYearKeys[0] == "release_year" && ReleaseYearKeys[1] == "releaseYear";
      assert FirstTruthy(d, ReleaseYearKeys) == (if Present(d, "releaseYear") then Some(1) else None);
    }
  }

  /**
   * The market value is the first truthy of `marketValue`, `market_value`, `value`,
   * converted with `float`, else 0.0; so a stored 0 falls through to the next name.
   * The document fails exactly when the chosen value is text `float` rejects.
   */
  lemma MarketValueFallback(doc: Document, conv: PyConversions)
    ensures ValueField(doc.data, conv) ==
      if Present(doc.data, "marketValue") then ToFloat(doc.data["marketValue"], conv)
      else if Present(doc.data, "market_value") then ToFloat(doc.data["market_value"], conv)
      else if Present(doc.data, "value") then ToFloat(doc.data["value"], conv)
      else Some(0.0)
    ensures Normalize(doc, conv).None? <==> ValueField(doc.data, conv).None?
  {
    var d := doc.data;
    assert MarketValueKeys[0] == "marketValue" && MarketValueKeys[1] == "market_value";
    assert MarketValueKeys[2] == "value";
    if !Present(d, "marketValue") {
      assert MarketValueKeys[1..][0] == "market_value" && MarketValueKeys[1..][1..] == ["value"];
      if !Present(d, "market_value") {
        assert FirstTruthy(d, MarketValueKeys[1..][1..]) == (if Present(d, "value") then Some(0) else None);
      }
    }
  }

  /** A document with no fields at all still yields a record, with every default. */
  lemma EmptyDocumentDefaults(id: string, conv: PyConversions)
    ensures Normalize(Document(id, map[]), conv) == Some(RemoteFunko(id, "", "", "", "", "", 0.0, "", ""))
  {
    var d: map<string, Value> := map[];
    assert FirstTruthy(d, NameKeys).None?;
    assert FirstTruthy(d, SeriesKeys).None?;
    assert FirstTruthy(d, ItemNoKeys).None?;
    assert FirstTruthy(d, ReleaseYearKeys).None?;
    assert FirstTruthy(d, BarcodeKeys).None?;
    assert FirstTruthy(d, MarketValueKeys).None?;
    assert FirstTruthy(d, ImageKeys).None?;
    assert FirstTruthy(d, NotesKeys).None?;
  }

  /** A field name outside the alternate lists (such as `itemNumber` or `year`) has no effect. */
  lemma UnreadKeyIgnored(doc: Document, key: string, v: Value, conv: PyConversions)
    requires !ReadKey(key)
    ensures Normalize(Document(doc.id, doc.data[key := v]), conv) == Normalize(doc, conv)
  {
    var d := doc.data;
    var d' := d[key := v];
    forall keys: seq<string> | key !in keys ensures FirstTruthy(d', keys) == FirstTruthy(d, keys) {
      UnreadKeyIgnoredBy(d, key, v, keys);
    }
  }

  lemma {:induction false} UnreadKeyIgnoredBy(d: map<string, Value>, key: string, v: Value, keys: seq<string>)
    requires key !in keys
    ensures FirstTruthy(d[key := v], keys) == FirstTruthy(d, keys)
  {
    if keys != [] {
      assert keys[0] != key;
      UnreadKeyIgnoredBy(d, key, v, keys[1..]);
    }
  }

  /** What the Firestore client reaches: the `funkos` collection, or `None` when `get()` raises. */
  datatype FirestoreClient = FirestoreClient(funkos: Option<seq<Document>>)

  /** The records `get_all_funkos` returns for a client state. */
  function Fetch(db: Option<FirestoreClient>, conv: PyConversions): seq<RemoteFunko> {
    if db.None? || db.value.funkos.None? then [] else NormalizeAll(db.value.funkos.value, conv)
  }

  /** A connection; `db` stays `None` when initialisation failed. */
  class FirestoreConnection {
    var db: Option<FirestoreClient>

    /**
     * `__init__`: `client` is the outcome of loading the credentials and initialising
     * the SDK, `None` when any step raised.
     */
    constructor (client: Option<FirestoreClient>)
      ensures db == client
    {
      db := client;
    }

    /**
     * `get_all_funkos`: no client, or a failing `get()`, gives an empty list; otherwise
     * one record per document in order, until a document raises.
     */
    method GetAllFunkos(conv: PyConversions) returns (funkos: seq<RemoteFunko>)
      ensures db.None? ==> funkos == []
      ensures db.Some? && db.value.funkos.None? ==> funkos == []
      ensures db.Some? && db.value.funkos.Some? ==> funkos == NormalizeAll(db.value.funkos.value, conv)
      ensures funkos == Fetch(db, conv)
    {
      funkos := [];
      if db.None? || db.value.funkos.None? {
        return;
      }
      var docs := db.value.funkos.value;
      var i := 0;
      while i < |docs|
        invariant 0 <= i <= |docs| && |funkos| == i
        invariant forall k :: 0 <= k < i ==> Normalize(docs[k], conv) == Some(funkos[k])
      {
        var f := Normalize(docs[i], conv);
        if f.None? {
          break;
        }
        funkos := funkos + [f.value];
        i := i + 1;
      }
      NormalizedPrefixIsAll(docs, conv, funkos);
    }
  }
}
