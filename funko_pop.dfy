/**
 * The catalog record (`FunkoPop` in funko_pop.py): a dataclass whose fields all
 * have defaults, four classmethod "constructors" that each fill a fixed subset of
 * fields, `get_info`, and one getter and one setter per field.
 */
module FunkoPops {
  import opened Wrappers

  /** The id a record carries until the inventory store has assigned one. */
  const UnsavedId: int := -1

  /** One record as a value. Optional text fields are `None` until set. */
  datatype Pop = Pop(
    id: int,
    barcode: Option<string>,
    name: Option<string>,
    series: Option<string>,
    itemNumber: Option<string>,
    year: Option<string>,
    variant: Option<string>,
    exclusive: Option<string>,
    condition: Option<string>,
    purchasePrice: Option<string>,
    marketValue: real,
    firestoreId: Option<string>,
    imagePath: Option<string>)

  /** Every field that defaults to `None` is still unset. */
  predicate OptionalFieldsUnset(p: Pop) {
    && p.barcode.None? && p.name.None? && p.series.None? && p.itemNumber.None?
    && p.year.None? && p.variant.None? && p.exclusive.None? && p.condition.None?
    && p.purchasePrice.None? && p.firestoreId.None? && p.imagePath.None?
  }

  /** `FunkoPop()` with no arguments. */
  function Default(): (p: Pop)
    ensures p.id == UnsavedId && p.marketValue == 0.0
    ensures OptionalFieldsUnset(p)
  {
    Pop(-1, None, None, None, None, None, None, None, None, None, 0.0, None, None)
  }

  /** `from_basic`: the four identifying fields; everything else keeps its default. */
  function FromBasic(barcode: Option<string>, name: Option<string>, series: Option<string>,
                     itemNumber: Option<string>): (p: Pop)
    ensures p == Default().(barcode := barcode, name := name, series := series, itemNumber := itemNumber)
    ensures p.id == UnsavedId && p.year.None? && p.marketValue == 0.0
  {
    Pop(-1, barcode, name, series, itemNumber, None, None, None, None, None, 0.0, None, None)
  }

  /** `from_detailed`: a record read back from the inventory store, id included. */
  function FromDetailed(id: int, barcode: Option<string>, name: Option<string>, series: Option<string>,
                        itemNumber: Option<string>, marketValue: real, year: Option<string>,
                        imagePath: Option<string>): (p: Pop)
    ensures p == Default().(id := id, barcode := barcode, name := name, series := series,
                            itemNumber := itemNumber, marketValue := marketValue, year := year,
                            imagePath := imagePath)
    ensures p.variant.None? && p.exclusive.None? && p.condition.None?
    ensures p.purchasePrice.None? && p.firestoreId.None?
  {
    Pop(id, barcode, name, series, itemNumber, year, None, None, None, None, marketValue, None, imagePath)
  }

  /** `from_firebase_funkos`: a reference record; it is never given an id. */
  function FromFirebaseFunkos(barcode: Option<string>, name: Option<string>, marketValue: real,
                              year: Option<string>): (p: Pop)
    ensures p == Default().(barcode := barcode, name := name, marketValue := marketValue, year := year)
    ensures p.id == UnsavedId && p.series.None? && p.itemNumber.None? && p.imagePath.None?
  {
    Pop(-1, barcode, name, None, None, year, None, None, None, None, marketValue, None, None)
  }

  /** `from_sqlite`: every stored column except the id, which stays unsaved. */
  function FromSqlite(barcode: Option<string>, name: Option<string>, series: Option<string>,
                      itemNumber: Option<string>, marketValue: real, year: Option<string>,
                      imagePath: Option<string>): (p: Pop)
    ensures p == Default().(barcode := barcode, name := name, series := series, itemNumber := itemNumber,
                            marketValue := marketValue, year := year, imagePath := imagePath)
    ensures p.id == UnsavedId
  {
    Pop(-1, barcode, name, series, itemNumber, year, None, None, None, None, marketValue, None, imagePath)
  }

  /** A value of the dictionary `get_info` returns. */
  datatype InfoEntry = Text(text: Option<string>) | Money(amount: real)

  const InfoKeys: set<string> :=
    {"name", "series", "barcode", "market_value", "image_path", "item_number", "year"}

  /**
   * `get_info`: the display dictionary. The text fields pass through unchanged under
   * their own keys; the market value is the amount that the source formats with two
   * decimals (the formatting itself is not modelled).
   */
  function GetInfo(p: Pop): (info: map<string, InfoEntry>)
    ensures info.Keys == InfoKeys
    ensures info["name"] == Text(p.name) && info["series"] == Text(p.series)
    ensures info["barcode"] == Text(p.barcode) && info["image_path"] == Text(p.imagePath)
    ensures info["item_number"] == Text(p.itemNumber) && info["year"] == Text(p.year)
    ensures info["market_value"] == Money(p.marketValue)
  {
    map["name" := Text(p.name), "series" := Text(p.series), "barcode" := Text(p.barcode),
        "market_value" := Money(p.marketValue), "image_path" := Text(p.imagePath),
        "item_number" := Text(p.itemNumber), "year" := Text(p.year)]
  }

  /** A `FunkoPop` instance: the same fields, updated in place by the setters. */
  class FunkoPop {
    var id: int
    var barcode: Option<string>
    var name: Option<string>
    var series: Option<string>
    var itemNumber: Option<string>
    var year: Option<string>
    var variant: Option<string>
    var exclusive: Option<string>
    var condition: Option<string>
    var purchasePrice: Option<string>
    var marketValue: real
    var firestoreId: Option<string>
    var imagePath: Option<string>

    /** The instance's current field values. */
    function Value(): Pop
      reads this
    {
      Pop(id, barcode, name, series, itemNumber, year, variant, exclusive, condition,
          purchasePrice, marketValue, firestoreId, imagePath)
    }

    /** `cls(...)`: a new instance holding the given field values. */
    constructor (p: Pop)
      ensures Value() == p
    {
      id, barcode, name, series, itemNumber := p.id, p.barcode, p.name, p.series, p.itemNumber;
      year, variant, exclusive, condition := p.year, p.variant, p.exclusive, p.condition;
      purchasePrice, marketValue, firestoreId, imagePath := p.purchasePrice, p.marketValue, p.firestoreId, p.imagePath;
    }

    function GetFirestoreId(): Option<string> reads this { firestoreId }
    function GetId(): int reads this { id }
    function GetBarcode(): Option<string> reads this { barcode }
    function GetName(): Option<string> reads this { name }
    function GetSeries(): Option<string> reads this { series }
    function GetItemNumber(): Option<string> reads this { itemNumber }
    function GetYear(): Option<string> reads this { year }
    function GetVariant(): Option<string> reads this { variant }
    function GetExclusive(): Option<string> reads this { exclusive }
    function GetCondition(): Option<string> reads this { condition }
    function GetPurchasePrice(): Option<string> reads this { purchasePrice }
    function GetMarketValue(): real reads this { marketValue }

    method SetFirestoreId(firestoreId: Option<string>)
      modifies this
      ensures Value() == old(Value()).(firestoreId := firestoreId) && GetFirestoreId() == firestoreId
    {
      this.firestoreId := firestoreId;
    }

    method SetId(id: int)
      modifies this
      ensures Value() == old(Value()).(id := id) && GetId() == id
    {
      this.id := id;
    }

    method SetBarcode(barcode: Option<string>)
      modifies this
      ensures Value() == old(Value()).(barcode := barcode) && GetBarcode() == barcode
    {
      this.barcode := barcode;
    }

    /** The source also calls a module-local stub `FunkoDB.update_funko` that only logs. */
    method SetName(name: Option<string>)
      modifies this
      ensures Value() == old(Value()).(name := name) && GetName() == name
    {
      this.name := name;
    }

    method SetSeries(series: Option<string>)
      modifies this
      ensures Value() == old(Value()).(series := series) && GetSeries() == series
    {
      this.series := series;
    }

    method SetItemNumber(itemNumber: Option<string>)
      modifies this
      ensures Value() == old(Value()).(itemNumber := itemNumber) && GetItemNumber() == itemNumber
    {
      this.itemNumber := itemNumber;
    }

    method SetYear(year: Option<string>)
      modifies this
      ensures Value() == old(Value()).(year := year) && GetYear() == year
    {
      this.year := year;
    }

    method SetVariant(variant: Option<string>)
      modifies this
      ensures Value() == old(Value()).(variant := variant) && GetVariant() == variant
    {
      this.variant := variant;
    }

    method SetExclusive(exclusive: Option<string>)
      modifies this
      ensures Value() == old(Value()).(exclusive := exclusive) && GetExclusive() == exclusive
    {
      this.exclusive := exclusive;
    }

    method SetCondition(condition: Option<string>)
      modifies this
      ensures Value() == old(Value()).(condition := condition) && GetCondition() == condition
    {
      this.condition := condition;
    }

    method SetPurchasePrice(purchasePrice: Option<string>)
      modifies this
      ensures Value() == old(Value()).(purchasePrice := purchasePrice) && GetPurchasePrice() == purchasePrice
    {
      this.purchasePrice := purchasePrice;
    }

    /** No sign check: a negative amount is stored as given. */
    method SetMarketValue(marketValue: real)
      modifies this
      ensures Value() == old(Value()).(marketValue := marketValue) && GetMarketValue() == marketValue
    {
      this.marketValue := marketValue;
    }
  }
}
