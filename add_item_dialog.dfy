/**
 * The add dialog (`AddItemDialog` in add_item_dialog.py): five text inputs, a
 * read-only market value fixed at "0.00", and an optional image path. Create
 * strips the inputs, refuses the form unless all five are non-empty, and otherwise
 * builds the new record and closes the dialog as accepted.
 */
module AddItem {
  import opened Wrappers
  import opened FunkoPops

  /** Python `str.isspace` for one character: the characters `str.strip()` removes. */
  predicate IsSpace(c: char) {
    || '\t' <= c <= '\r' || '\U{1C}' <= c <= '\U{1F}' || c == ' ' || c == '\U{85}' || c == '\U{A0}'
    || c == '\U{1680}' || '\U{2000}' <= c <= '\U{200A}' || c == '\U{2028}' || c == '\U{2029}'
    || c == '\U{202F}' || c == '\U{205F}' || c == '\U{3000}'
  }

  predicate IsDigit(c: char) {
    '0' <= c <= '9'
  }

  /** How many whitespace characters `s` starts with. */
  function LeadingSpace(s: string): (k: nat)
    ensures k <= |s|
    ensures forall j :: 0 <= j < k ==> IsSpace(s[j])
    ensures k < |s| ==> !IsSpace(s[k])
  {
    if s == [] || !IsSpace(s[0]) then 0 else 1 + LeadingSpace(s[1..])
  }

  /** Where the whitespace `s` ends with begins. */
  function TrailingSpaceStart(s: string): (k: nat)
    ensures k <= |s|
    ensures forall j :: k <= j < |s| ==> IsSpace(s[j])
    ensures 0 < k ==> !IsSpace(s[k - 1])
  {
    if s == [] || !IsSpace(s[|s| - 1]) then |s| else TrailingSpaceStart(s[..|s| - 1])
  }

  /** `r` is `s[i..j]`, and only whitespace lies before `i` and from `j` on. */
  predicate TrimmedAt(s: string, r: string, i: int, j: int) {
    && 0 <= i <= j <= |s| && r == s[i..j]
    && (forall k :: 0 <= k < i ==> IsSpace(s[k]))
    && (forall k :: j <= k < |s| ==> IsSpace(s[k]))
  }

  /**
   * Python `str.strip()`: `s` without its leading and trailing whitespace. It is the
   * slice of `s` left after cutting whitespace from both ends, and starts and ends
   * with non-whitespace; so it is empty exactly when `s` is all whitespace, and a
   * string without whitespace is left as it is.
   */
  function Strip(s: string): (r: string)
    ensures exists i, j :: TrimmedAt(s, r, i, j)
    ensures r == "" <==> forall j :: 0 <= j < |s| ==> IsSpace(s[j])
    ensures r != "" ==> !IsSpace(r[0]) && !IsSpace(r[|r| - 1])
    ensures (forall j :: 0 <= j < |s| ==> !IsSpace(s[j])) ==> r == s
  {
    var i := LeadingSpace(s);
    var rest := s[i..];
    StripFacts(s, i, rest, TrailingSpaceStart(rest));
    StripSlice(s, i, rest, TrailingSpaceStart(rest));
    rest[..TrailingSpaceStart(rest)]
  }

  lemma StripFacts(s: string, i: nat, rest: string, e: nat)
    requires i == LeadingSpace(s) && rest == s[i..] && e == TrailingSpaceStart(rest)
    ensures rest[..e] == "" <==> forall j :: 0 <= j < |s| ==> IsSpace(s[j])
    ensures rest[..e] != "" ==> !IsSpace(rest[..e][0]) && !IsSpace(rest[..e][e - 1])
    ensures (forall j :: 0 <= j < |s| ==> !IsSpace(s[j])) ==> rest[..e] == s
  {
    if e != 0 {
      assert rest[..e][0] == rest[0] == s[i];
      assert rest[..e][e - 1] == rest[e - 1];
    }
    if forall j :: 0 <= j < |s| ==> !IsSpace(s[j]) {
      if |s| > 0 {
        assert !IsSpace(s[0]);
        assert i == 0;
        assert rest == s;
        assert !IsSpace(rest[|rest| - 1]);
      }
    }
  }

  /** The stripped string is the slice between the leading and the trailing whitespace. */
  lemma StripSlice(s: string, i: nat, rest: string, e: nat)
    requires i == LeadingSpace(s) && rest == s[i..] && e == TrailingSpaceStart(rest)
    ensures exists a, b :: TrimmedAt(s, rest[..e], a, b)
  {
    forall k | i + e <= k < |s| ensures IsSpace(s[k]) {
      assert s[k] == rest[k - i];
    }
    assert rest[..e] == s[i..i + e];
    assert TrimmedAt(s, rest[..e], i, i + e);
  }

  /** The required-field check: every stripped input is non-empty. */
  predicate AllFilled(name: string, series: string, barcode: string, itemNo: string, releaseYear: string) {
    name != "" && series != "" && barcode != "" && itemNo != "" && releaseYear != ""
  }

  /**
   * What the barcode field's validator lets the field hold: up to 15 digits. Text
   * matching `[0-9]{1,15}` is acceptable and the empty field is intermediate; any other
   * edit is refused.
   */
  predicate BarcodeInput(s: string) {
    |s| <= 15 && forall j :: 0 <= j < |s| ==> IsDigit(s[j])
  }

  /** The validator's text has no whitespace, so stripping keeps it. */
  lemma StripKeepsBarcodeInput(s: string)
    requires BarcodeInput(s)
    ensures Strip(s) == s
  {
    forall j | 0 <= j < |s| ensures !IsSpace(s[j]) {
      assert IsDigit(s[j]);
    }
  }

  /** The longest text the release-year field holds. */
  const YearMaxLength: nat := 4

  /** The market value the read-only field shows; `float("0.00")` is 0.0. */
  const DefaultMarketValue: real := 0.0

  /** The record the dialog builds from stripped, non-empty inputs. */
  function NewPop(name: string, series: string, barcode: string, itemNo: string, releaseYear: string,
                  imagePath: string): (p: Pop)
    ensures p.id == UnsavedId && p.marketValue == DefaultMarketValue
    ensures p.name == Some(name) && p.series == Some(series) && p.barcode == Some(barcode)
    ensures p.itemNumber == Some(itemNo) && p.year == Some(releaseYear) && p.imagePath == Some(imagePath)
    ensures p.variant.None? && p.exclusive.None? && p.condition.None?
    ensures p.purchasePrice.None? && p.firestoreId.None?
  {
    Default().(name := Some(name), series := Some(series), barcode := Some(barcode),
               marketValue := DefaultMarketValue, imagePath := Some(imagePath),
               itemNumber := Some(itemNo), year := Some(releaseYear))
  }

  datatype DialogState = Open | Accepted | Rejected

  /** Why Create did not close the dialog. */
  datatype CreateError =
    | MissingField       // "All required fields must be filled out."
    | UnexpectedKeyword  // TypeError: the record has no `itemNo` or `releaseYear` field

  class AddItemDialog {
    var nameText: string
    var seriesText: string
    var barcodeText: string
    var itemNoText: string
    var releaseYearText: string
    /** The chosen image file, `""` until one is chosen. */
    var imagePath: string
    /** The record built by Create, `None` until then. */
    var newPop: Option<Pop>
    var state: DialogState

    /** The input constraints the two restricted fields keep. */
    ghost predicate Valid()
      reads this
    {
      BarcodeInput(barcodeText) && |releaseYearText| <= YearMaxLength
    }

    constructor ()
      ensures Valid() && state == Open && newPop == None && imagePath == ""
      ensures nameText == "" && seriesText == "" && barcodeText == "" && itemNoText == "" && releaseYearText == ""
    {
      nameText, seriesText, barcodeText, itemNoText, releaseYearText := "", "", "", "", "";
      imagePath := "";
      newPop := None;
      state := Open;
    }

    /** An edit of the barcode field: kept when the validator allows it, refused otherwise. */
    method EditBarcode(text: string)
      requires Valid()
      modifies this
      ensures Valid()
      ensures barcodeText == if BarcodeInput(text) then text else old(barcodeText)
      ensures nameText == old(nameText) && seriesText == old(seriesText) && itemNoText == old(itemNoText)
      ensures releaseYearText == old(releaseYearText) && imagePath == old(imagePath)
      ensures newPop == old(newPop) && state == old(state)
    {
      if BarcodeInput(text) {
        barcodeText := text;
      }
    }

    /** An edit of the release-year field: text past the maximum length is cut off. */
    method EditReleaseYear(text: string)
      requires Valid()
      modifies this
      ensures Valid()
      ensures releaseYearText == if |text| <= YearMaxLength then text else text[..YearMaxLength]
      ensures nameText == old(nameText) && seriesText == old(seriesText) && itemNoText == old(itemNoText)
      ensures barcodeText == old(barcodeText) && imagePath == old(imagePath)
      ensures newPop == old(newPop) && state == old(state)
    {
      if |text| <= YearMaxLength {
        releaseYearText := text;
      } else {
        releaseYearText := text[..YearMaxLength];
      }
    }

    /** `open_file_dialog`: a chosen file replaces the image path; a cancelled chooser (`""`) does not. */
    method ChooseImage(path: string)
      requires Valid()
      modifies this
      ensures Valid()
      ensures imagePath == if path != "" then path else old(imagePath)
      ensures nameText == old(nameText) && seriesText == old(seriesText) && itemNoText == old(itemNoText)
      ensures barcodeText == old(barcodeText) && releaseYearText == old(releaseYearText)
      ensures newPop == old(newPop) && state == old(state)
    {
      if path != "" {
        imagePath := path;
      }
    }

    /**
     * `create_and_accept` with the record built from the fields it has (`item_number`
     * and `year`). A missing field leaves `newPop` and the dialog as they were; an
     * accepted record has a barcode of 1 to 15 digits and the market value 0.0.
     */
    method CreateAndAccept() returns (o: Outcome<CreateError>)
      requires Valid()
      modifies this
      ensures Valid()
      ensures var name, series, barcode := Strip(old(nameText)), Strip(old(seriesText)), Strip(old(barcodeText));
        var itemNo, year := Strip(old(itemNoText)), Strip(old(releaseYearText));
        && (!AllFilled(name, series, barcode, itemNo, year) ==>
              o == Fail(MissingField) && newPop == old(newPop) && state == old(state))
        && (AllFilled(name, series, barcode, itemNo, year) ==>
              o == Pass && state == Accepted && newPop == Some(NewPop(name, series, barcode, itemNo, year, old(imagePath))))
      ensures o == Pass ==>
        && newPop.Some? && newPop.value.barcode.Some?
        && 1 <= |newPop.value.barcode.value| <= 15
        && (forall j :: 0 <= j < |newPop.value.barcode.value| ==> IsDigit(newPop.value.barcode.value[j]))
      ensures nameText == old(nameText) && seriesText == old(seriesText) && barcodeText == old(barcodeText)
      ensures itemNoText == old(itemNoText) && releaseYearText == old(releaseYearText) && imagePath == old(imagePath)
    {
      var name := Strip(nameText);
      var series := Strip(seriesText);
      var barcode := Strip(barcodeText);
      var itemNo := Strip(itemNoText);
      var releaseYear := Strip(releaseYearText);
      if !AllFilled(name, series, barcode, itemNo, releaseYear) {
        return Fail(MissingField);
      }
      StripKeepsBarcodeInput(barcodeText);
      newPop := Some(NewPop(name, series, barcode, itemNo, releaseYear, imagePath));
      state := Accepted;
      return Pass;
    }

    /**
     * `create_and_accept` as written: past the field check the record is built with
     * keywords it does not have, which raises before `newPop` is set, so the dialog
     * is never accepted.
     */
    method CreateAndAcceptAsWritten() returns (o: Outcome<CreateError>)
      requires Valid()
      modifies this
      ensures Valid() && newPop == old(newPop) && state == old(state)
      ensures var name, series, barcode := Strip(old(nameText)), Strip(old(seriesText)), Strip(old(barcodeText));
        var itemNo, year := Strip(old(itemNoText)), Strip(old(releaseYearText));
        o == if AllFilled(name, series, barcode, itemNo, year) then Fail(UnexpectedKeyword) else Fail(MissingField)
    {
      var name := Strip(nameText);
      var series := Strip(seriesText);
      var barcode := Strip(barcodeText);
      var itemNo := Strip(itemNoText);
      var releaseYear := Strip(releaseYearText);
      if !AllFilled(name, series, barcode, itemNo, releaseYear) {
        return Fail(MissingField);
      }
      return Fail(UnexpectedKeyword);
    }

    /** Cancel (`reject`): closes the dialog without building a record. */
    method Cancel()
      requires Valid()
      modifies this
      ensures Valid() && state == Rejected && newPop == old(newPop)
      ensures nameText == old(nameText) && seriesText == old(seriesText) && barcodeText == old(barcodeText)
      ensures itemNoText == old(itemNoText) && releaseYearText == old(releaseYearText) && imagePath == old(imagePath)
    {
      state := Rejected;
    }
  }
}
