/**
 * The edit dialog (`PopDetailsDialog` in pop_details_dialog.py): six text fields
 * filled from a record; Save copies them back onto the record and replaces the
 * record's row in the inventory store; Cancel closes without doing either.
 */
module DetailsDialog {
  import opened Wrappers
  import opened FunkoPops
  import opened Inventory

  /** How the dialog stands. */
  datatype DialogState = Open | Accepted | Rejected

  /** Why Save did not close the dialog. */
  datatype SaveError =
    | ValueNotANumber      // ValueError from `float` of the value field
    | StoreFailed(e: DbError)

  /** `QLineEdit(text)`: `None` shows as an empty field. */
  function FieldText(text: Option<string>): string {
    if text.None? then "" else text.value
  }

  /** The record after Save has copied the five text fields. */
  function WithTexts(p: Pop, barcode: string, name: string, series: string, itemNumber: string,
                     year: string): (q: Pop)
    ensures Persistable(q) && q.id == p.id && q.marketValue == p.marketValue
    ensures q.barcode == Some(barcode) && q.name == Some(name) && q.series == Some(series)
    ensures q.itemNumber == Some(itemNumber) && q.year == Some(year)
    ensures q.imagePath == p.imagePath && q.firestoreId == p.firestoreId && q.variant == p.variant
    ensures q.exclusive == p.exclusive && q.condition == p.condition && q.purchasePrice == p.purchasePrice
  {
    p.(barcode := Some(barcode), name := Some(name), series := Some(series),
       itemNumber := Some(itemNumber), year := Some(year))
  }

  class PopDetailsDialog {
    /** The record being edited, shared with the caller. */
    const funko: FunkoPop
    var barcodeText: string
    var nameText: string
    var seriesText: string
    var itemNumberText: string
    var yearText: string
    var valueText: string
    var state: DialogState

    /** Opens on `funko`; `render` is Python `str` of a float. */
    constructor (funko: FunkoPop, render: real -> string)
      ensures this.funko == funko && state == Open
      ensures barcodeText == FieldText(funko.barcode) && nameText == FieldText(funko.name)
      ensures seriesText == FieldText(funko.series) && itemNumberText == FieldText(funko.itemNumber)
      ensures yearText == FieldText(funko.year) && valueText == render(funko.marketValue)
    {
      this.funko := funko;
      barcodeText := FieldText(funko.barcode);
      nameText := FieldText(funko.name);
      seriesText := FieldText(funko.series);
      itemNumberText := FieldText(funko.itemNumber);
      yearText := FieldText(funko.year);
      valueText := render(funko.marketValue);
      state := Open;
    }

    /**
     * `save_changes`. The five text fields are copied onto the record one by one; then
     * the value field is converted (`parse` is Python `float`, `None` where it raises),
     * which stops Save with the text fields already copied. Otherwise the value is
     * stored with no sign check, the row with the record's id is replaced, and the
     * dialog is accepted. A store error also leaves the dialog open.
     */
    method SaveChanges(store: FunkoDB, parse: string -> Option<real>) returns (o: Outcome<SaveError>)
      requires store.Valid()
      modifies this, funko, store
      ensures store.Valid() && store.tableExists == old(store.tableExists)
      ensures store.nextId == old(store.nextId) && store.issued == old(store.issued) && store.writes == old(store.writes)
      ensures funko.id == old(funko.id)
      ensures parse(valueText) == None ==>
        && o == Fail(ValueNotANumber) && state == old(state)
        && funko.Value() == WithTexts(old(funko.Value()), barcodeText, nameText, seriesText, itemNumberText, yearText)
        && store.rows == old(store.rows)
      ensures parse(valueText) != None ==>
        var saved := WithTexts(old(funko.Value()), barcodeText, nameText, seriesText, itemNumberText, yearText)
                       .(marketValue := parse(valueText).value);
        && funko.Value() == saved
        && (!old(store.tableExists) ==> o == Fail(StoreFailed(NoSuchTable)) && state == old(state) && store.rows == old(store.rows))
        && (old(store.tableExists) ==> o == Pass && state == Accepted)
        && (old(store.tableExists) && HasId(old(store.rows), saved.id) ==> store.rows == ReplaceById(old(store.rows), RowOf(saved.id, saved)))
        && (old(store.tableExists) && !HasId(old(store.rows), saved.id) ==> store.rows == old(store.rows))
      ensures barcodeText == old(barcodeText) && nameText == old(nameText) && seriesText == old(seriesText)
      ensures itemNumberText == old(itemNumberText) && yearText == old(yearText) && valueText == old(valueText)
    {
      funko.SetBarcode(Some(barcodeText));
      funko.SetName(Some(nameText));
      funko.SetSeries(Some(seriesText));
      funko.SetItemNumber(Some(itemNumberText));
      funko.SetYear(Some(yearText));
      var value := parse(valueText);
      if value.None? {
        return Fail(ValueNotANumber);
      }
      funko.SetMarketValue(value.value);
      var written := store.UpdateFunko(funko.Value());
      if written.Fail? {
        return Fail(StoreFailed(written.error));
      }
      state := Accepted;
      return Pass;
    }

    /** Cancel (`reject`): closes the dialog; the record and the store are not touched. */
    method Cancel()
      modifies this
      ensures state == Rejected
      ensures barcodeText == old(barcodeText) && nameText == old(nameText) && seriesText == old(seriesText)
      ensures itemNumberText == old(itemNumberText) && yearText == old(yearText) && valueText == old(valueText)
    {
      state := Rejected;
    }
  }
}
