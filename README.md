# PopKollectUI market-value pipeline, in Dafny

PopKollectUI keeps a personal inventory of Funko Pop figures in a local SQLite
table (`funko_pops`). It keeps market values in two stages:

- **Import pass.** It pulls a catalogue of reference records from a remote
  Firestore collection. It normalises each document and upserts it into a second
  local table (`firebase_funkos`), keyed by `(barcode, year)`.
- **Reconciliation pass.** It walks the inventory. For each record it looks up the
  first reference record with the same barcode and year, and writes that value back
  into every inventory row with that key.

Around these passes sit the catalog record with its constructors, getters and
setters, the two stores, the edit and add dialogs, the main window's grid
bookkeeping, and the wrapping `FlowLayout`.

Each source file is one Dafny module, and every module is imported by name:

| file | module | source |
|---|---|---|
| wrappers.dfy | `Wrappers` | `Option`, `Result` and `Outcome` (a call that either passes or fails with an error) |
| funko_pop.dfy | `FunkoPops` | funko_pop.py |
| funko_db.dfy | `Inventory` | funko_db.py |
| firebase_db.dfy | `Reference` | firebase_db.py |
| firestore_connection.dfy | `Firestore` | firestore_connection.py |
| sync_firebase.dfy | `ImportPass` | sync_firebase.py |
| sync_app.dfy | `Reconciliation` | sync_app.py |
| pop_details_dialog.dfy | `DetailsDialog` | pop_details_dialog.py |
| add_item_dialog.dfy | `AddItem` | add_item_dialog.py |
| main.dfy | `MainWindow` | main.py |
| flow_layout.dfy | `Flow` | flow_layout.py |

How the model represents each part of the source:

- **Tables.** Each table is a class that holds its rows as a sequence in storage
  order. A call the source makes on a missing table or with NULL in a NOT NULL
  column returns an error value instead of raising.
- **Objects the source mutates.** The record object, the dialogs, the main window,
  the layout and its items are classes whose methods update their fields.
- **Pure parts.** The classmethod constructors, `get_info`, the per-field fallback
  chain, the upsert and by-key update semantics, and the layout arithmetic are
  functions. Lemmas state their properties.
- **Loops.** Each loop in the source is a method proved against a specification
  function:
  - `Firestore.FirestoreConnection.GetAllFunkos` against `NormalizeAll`.
  - `ImportPass.SyncFirebase` against `UpsertAll`.
  - `Reconciliation.HandleAll` against `Apply`.
  - `Flow.FlowLayout.DoLayout` against `Run`, `Position` and `LayoutHeight`.
  - `MainWindow.Home.RefreshUi` against the grid invariant `PlacedInOrder`.
- **Getters.** The getters `FunkoPops.FunkoPop.GetX` are plain field reads. The
  setters' contracts name them.

## Model

| member | source | states |
|---|---|---|
| FunkoPops.Default | funko_pop.py:47-61 | a fresh record has id -1, market value 0.0 and every optional field `None` |
| FunkoPops.FromBasic | funko_pop.py:65-68 | sets exactly barcode, name, series and item number; every other field keeps its default, so id is -1 and year is `None` |
| FunkoPops.FromDetailed | funko_pop.py:70-74 | sets id, barcode, name, series, item number, market value, year and image path from its arguments; variant, exclusive, condition, purchase price and Firestore id stay `None` |
| FunkoPops.FromFirebaseFunkos | funko_pop.py:76-79 | sets only barcode, name, market value and year, so id stays -1 and series, item number and image path stay `None` |
| FunkoPops.FromSqlite | funko_pop.py:81-85 | sets every stored column and the image path, but never the id, which stays -1 |
| FunkoPops.GetInfo | funko_pop.py:87-99 | the dictionary has exactly the seven keys; name, series, barcode, image path, item number and year pass through unchanged; the market value entry carries the record's amount |
| FunkoPops.FunkoPop.constructor | funko_pop.py:47-61 | the new instance holds exactly the given field values |
| FunkoPops.FunkoPop.SetFirestoreId | funko_pop.py:102-106 | only the Firestore id changes, and its getter then returns the new value |
| FunkoPops.FunkoPop.SetId | funko_pop.py:108-112 | only the id changes, and its getter then returns the new value |
| FunkoPops.FunkoPop.SetBarcode | funko_pop.py:114-118 | only the barcode changes, and its getter then returns the new value |
| FunkoPops.FunkoPop.SetName | funko_pop.py:120-126 | only the name changes, and its getter then returns the new value |
| FunkoPops.FunkoPop.SetSeries | funko_pop.py:128-134 | only the series changes, and its getter then returns the new value |
| FunkoPops.FunkoPop.SetItemNumber | funko_pop.py:136-142 | only the item number changes, and its getter then returns the new value |
| FunkoPops.FunkoPop.SetYear | funko_pop.py:144-148 | only the year changes, and its getter then returns the new value |
| FunkoPops.FunkoPop.SetVariant | funko_pop.py:150-154 | only the variant changes, and its getter then returns the new value |
| FunkoPops.FunkoPop.SetExclusive | funko_pop.py:156-160 | only the exclusive field changes, and its getter then returns the new value |
| FunkoPops.FunkoPop.SetCondition | funko_pop.py:162-166 | only the condition changes, and its getter then returns the new value |
| FunkoPops.FunkoPop.SetPurchasePrice | funko_pop.py:168-172 | only the purchase price changes, and its getter then returns the new value |
| FunkoPops.FunkoPop.SetMarketValue | funko_pop.py:174-181 | any value is accepted, negative ones included; only the market value changes, and its getter then returns it |
| Inventory.WithValueByKey | funko_db.py:106-112 | every row whose barcode and year equal the key in the SQL sense gets the new value, with its other columns unchanged; every other row is unchanged; the row count is kept |
| Inventory.NullKeyMatchesNothing | funko_db.py:108 | a NULL barcode or a NULL year matches no row, so the by-key update then leaves the table as it was |
| Inventory.ValueByKeyIdempotent | funko_db.py:106-112 | repeating the by-key update with the same arguments changes nothing more |
| Inventory.ReplaceById | funko_db.py:73-94 | the row with the record's id takes the new columns; every other row is unchanged; the row count is kept |
| Inventory.RemoveId | funko_db.py:97-103 | no row with that id remains, every remaining row was there before, and increasing id order is kept |
| Inventory.RemoveStoredId | funko_db.py:97-103 | deleting a stored id removes exactly that row and keeps the others in order |
| Inventory.RemoveAbsentId | funko_db.py:97-103 | deleting an id no row has leaves the table unchanged |
| Inventory.FunkoDB.constructor | funko_db.py:6-7 | a database file without the table and with no ids issued |
| Inventory.FunkoDB.CreateTable | funko_db.py:10-28 | afterwards the table exists; existing rows and the id counter are kept, so repeating it is harmless |
| Inventory.FunkoDB.AddFunko | funko_db.py:31-48 | appends one row under a fresh id, larger than every id issued before, and returns that id; the row holds barcode, name, series, item number, value and year but not the image path; a missing table or a NULL in a NOT NULL column is an error and changes nothing |
| Inventory.FunkoDB.GetAllFunkos | funko_db.py:51-70 | returns `Snapshot` of the rows; a missing table is an error |
| Inventory.Snapshot | funko_db.py:51-70 | the inventory read: one record per row, in storage order, each with its row's id |
| Inventory.FunkoDB.GetAllFunkosAsWritten | funko_db.py:60-68 | as written, any non-empty table fails with a missing-argument error; only an empty table reads back |
| Inventory.FunkoDB.UpdateFunko | funko_db.py:73-94 | replaces the six stored columns of the row with the record's id; an absent id changes nothing; ids, the counter and the other rows are unchanged |
| Inventory.FunkoDB.DeleteFunko | funko_db.py:97-103 | removes the row with that id and nothing else; an absent id changes nothing |
| Inventory.FunkoDB.UpdateMarketValueByBarcodeAndYear | funko_db.py:106-112 | the table becomes the by-key update of the old table: zero, one or many rows get the value; the executed statement, with its key and value, is appended to the write log; without the table nothing is written |
| Reference.FindKey | firebase_db.py:52-54 | returns the first row with this exact `(barcode, year)`; `None` exactly when no row has it |
| Reference.FindBarcode | firebase_db.py:55-57 | returns the first row with this barcode, whatever its year; `None` exactly when no row has it |
| Reference.Upsert | firebase_db.py:33-39 | a new key adds exactly one row at the end; an existing key has its name and value overwritten in place and keeps the row count; rows with other keys are unchanged; no row's key changes |
| Reference.UpsertKeepsKeysUnique | firebase_db.py:18 | the `(barcode, year)` primary key is never duplicated by an upsert |
| Reference.LookupAfterUpsert | firebase_db.py:33-39 | after an upsert, its key reads back the new name and value, and every other key reads as before |
| Reference.UpsertIdempotent | firebase_db.py:33-39 | upserting the same arguments twice leaves the same table as upserting once |
| Reference.FirebaseDB.constructor | firebase_db.py:6-7 | a database file without the table |
| Reference.FirebaseDB.CreateTable | firebase_db.py:10-26 | afterwards the table exists and existing rows are kept |
| Reference.FirebaseDB.UpsertFunko | firebase_db.py:29-47 | the table becomes the upsert of the old table; without the table the error is swallowed and nothing changes; the key stays unique |
| Reference.FirebaseDB.GetMarketValue | firebase_db.py:50-68 | with a truthy year: the value of the exact `(barcode, year)` row, `None` exactly when there is none; with a falsy year (`None` or `""`): some row with that barcode, `None` exactly when there is none; `None` without the table |
| Reference.FirebaseDB.GetAllFunkos | firebase_db.py:71-90 | returns `Records` of the rows |
| Reference.Records | firebase_db.py:71-90 | the reference read: one record per row, in storage order, carrying barcode, name, value and year with id -1 |
| Firestore.FirstTruthy | firestore_connection.py:127-134 | the position of the first alternate name whose value is truthy; every earlier one is absent or falsy; `None` exactly when all are |
| Firestore.Normalize | firestore_connection.py:123-135 | one document's record: it raises exactly when the value field's `float` fails; otherwise the record carries the document's id and that value; its seven text fields are stated by `NameFallback`, `ItemNoAndYearFallback` and `OtherTextFallbacks` |
| Firestore.DigitsText | firestore_connection.py:129-131 | Python `str` of a non-negative int: a non-empty run of decimal digits with no leading zero, which reads back (`DigitsValue`) as the number itself |
| Firestore.NormalizeAll | firestore_connection.py:120-146 | one record per document in document order, each tagged with its document's id, up to the first document whose record raises |
| Firestore.NormalizedPrefixIsAll | firestore_connection.py:120-146 | any list with those properties is the list `NormalizeAll` gives, so the loop's result is determined |
| Firestore.EveryDocumentYieldsARecord | firestore_connection.py:121-142 | when no document raises, there is exactly one record per document |
| Firestore.NameFallback | firestore_connection.py:127 | name is the first truthy of `name`, then `title`, else `""` |
| Firestore.ItemNoAndYearFallback | firestore_connection.py:129-130 | item number reads only `item_no` then `itemNo`, release year only `release_year` then `releaseYear`; each defaults to `""` |
| Firestore.OtherTextFallbacks | firestore_connection.py:128-134 | barcode, series and notes each read their one field, else `""`; the image path reads `image_path`, then `image`, else `""`; the barcode is rendered with Python `str`, as are non-text values of the other three (the source passes those through) |
| Firestore.MarketValueFallback | firestore_connection.py:132 | value is `float` of the first truthy of `marketValue`, `market_value`, `value`, else 0.0, so a stored 0 falls through; the document raises exactly when that `float` fails |
| Firestore.EmptyDocumentDefaults | firestore_connection.py:123-135 | a document with no fields still yields a record with every default and its own id |
| Firestore.UnreadKeyIgnored | firestore_connection.py:125-134 | a field whose name is in no alternate list has no effect on the record |
| Firestore.FirestoreConnection.constructor | firestore_connection.py:24-54 | the connection's client is the outcome of initialisation, `None` when it failed |
| Firestore.FirestoreConnection.GetAllFunkos | firestore_connection.py:110-146 | no client, or a failing `get()`, gives an empty list; otherwise it returns `NormalizeAll` of the collection |
| ImportPass.LastWithKey | sync_firebase.py:16-17 | the position of the last fetched record with a key; no later record has it; `None` exactly when none has |
| ImportPass.UpsertAll | sync_firebase.py:16-17 | the rows after upserting each fetched record in order: no row is lost and at most one row per record is added; its content is stated by `LastWriteWins` |
| ImportPass.UpsertAllKeepsStoredKeys | sync_firebase.py:16-17 | the pass only appends: every row stored before keeps its position and its key |
| ImportPass.UpsertAllKeepsKeysUnique | sync_firebase.py:16-17 | the primary key holds after the whole pass |
| ImportPass.LastWriteWins | sync_firebase.py:16-17 | after the pass, each fetched key holds the name and value of the last fetched record with that key; every other key reads as before |
| ImportPass.SyncFirebase | sync_firebase.py:6-20 | the table is ensured, then the rows become every fetched record upserted once, in fetch order; an empty fetch leaves the rows as they were |
| ImportPass.UpsertEach | sync_firebase.py:16-17 | the loop: the rows become `UpsertAll` of the fetched records, each upserted once in fetch order |
| ImportPass.SyncFirebaseAsWritten | sync_firebase.py:8-12 | as written, the table is created and then the connection call fails, so nothing is imported |
| Reconciliation.FirstMatch | sync_app.py:19-21 | the first reference record with an equal barcode and an equal year; `None` exactly when none has both |
| Reconciliation.StopAt | sync_app.py:22 | the pass gets through every record before the first one whose name or year is `None`, and no further |
| Reconciliation.Step | sync_app.py:19-30 | one handled record: the row count is kept, and a record with no reference match leaves every row as it was |
| Reconciliation.StepPointwise | sync_app.py:19-30 | on a match, each row with the record's key in the SQL sense takes the first matching reference value and every other row is kept |
| Reconciliation.Apply | sync_app.py:17-30 | the pass only ever changes market values; every other column and the row count are kept |
| Reconciliation.StepWrites | sync_app.py:19-27 | one handled record issues one by-key update, with its own barcode and year and the first matching reference value, exactly when a reference record matches; otherwise none |
| Reconciliation.IssuedWrites | sync_app.py:17-27 | the updates a run of records issues, in order: at most one per record |
| Reconciliation.IssuedWritesFromReference | sync_app.py:24-27 | every value the pass writes is some reference record's value |
| Reconciliation.ApplyPointwise | sync_app.py:17-30 | a row ends with the first matching reference value if some handled record named its key and the key has a reference record; otherwise it keeps its value |
| Reconciliation.FullPass | sync_app.py:17-33 | a full pass sets each row with a barcode and a year to the value of the first reference record with that key, so rows that share a barcode but differ in year get their own year's value; every other row is unchanged |
| Reconciliation.FullPassIdempotent | sync_app.py:17-30 | a second full pass against the same reference data leaves the inventory identical |
| Reconciliation.ApplyAgain | sync_app.py:17-30 | a second pass over records with the same keys as the first (in the same order) leaves the rows as the first pass left them |
| Reconciliation.AbortedPassIdempotent | sync_app.py:12-30 | rerunning the pass on the inventory a pass left, even one that stopped at a record it could not print, changes no row: it re-reads the same keys and stops at the same record |
| Reconciliation.HandleRecord | sync_app.py:18-33 | one record: on a match exactly one by-key update is issued, with the record's own barcode and year and the first matching reference value, even when the value is already equal; on a miss nothing is written; a record whose name or year is `None` raises at the message and writes nothing |
| Reconciliation.HandleAll | sync_app.py:17-33 | visits the records in order, each once; the inventory ends as `Apply` of the records it got through, the updates issued are `IssuedWrites` of them, in order, and the loop completes exactly when none raised |
| Reconciliation.HandledOneMore | sync_app.py:17-30 | handling one more record extends the rows by its `Step` and the write log by its `StepWrites` |
| Reconciliation.SyncMarketValues | sync_app.py:6-34 | reads both stores, writes only the inventory, and leaves it as `Apply` of the records before the first one that raises, having issued `IssuedWrites` of them; a missing inventory table fails before any write |
| DetailsDialog.WithTexts | pop_details_dialog.py:62-66 | the record after the field copy: five text fields set; id, market value, variant, exclusive, condition, purchase price, image path and Firestore id kept; so all NOT NULL columns are present |
| DetailsDialog.PopDetailsDialog.constructor | pop_details_dialog.py:20-25 | the six fields show the record's values, with `None` shown as empty |
| DetailsDialog.PopDetailsDialog.SaveChanges | pop_details_dialog.py:60-70 | copies the five text fields onto the record and keeps its id; an unparsable value stops Save before any store write; otherwise the value is stored with no sign check, only the row with that id is replaced, and the dialog is accepted; the id counter, the issued ids and the write log are unchanged |
| DetailsDialog.PopDetailsDialog.Cancel | pop_details_dialog.py:58 | closes the dialog; the fields are untouched, and so are the record and the store, which are outside its frame |
| AddItem.Strip | add_item_dialog.py:100-104 | Python `str.strip`: a slice of the input with only whitespace before and after it; empty exactly when the input is all whitespace; otherwise it neither starts nor ends with whitespace; input without whitespace is kept as it is |
| AddItem.StripSlice | add_item_dialog.py:100-104 | the stripped text is the slice between the leading and the trailing whitespace |
| AddItem.StripKeepsBarcodeInput | add_item_dialog.py:102 | text the barcode validator allows has no whitespace, so stripping keeps it |
| AddItem.NewPop | add_item_dialog.py:122-130 | the accepted record: the stripped name, series, barcode, item number and year, the chosen image path, value 0.0 and id -1 |
| AddItem.AddItemDialog.constructor | add_item_dialog.py:13-18 | empty fields, no image path, no record built, dialog open |
| AddItem.AddItemDialog.EditBarcode | add_item_dialog.py:28-30 | the barcode field only ever holds at most 15 digits; an edit the validator refuses is dropped |
| AddItem.AddItemDialog.EditReleaseYear | add_item_dialog.py:35 | the year field never holds more than 4 characters; longer text is cut off |
| AddItem.AddItemDialog.ChooseImage | add_item_dialog.py:81-95 | a chosen file replaces the image path; a cancelled chooser keeps it |
| AddItem.AddItemDialog.CreateAndAccept | add_item_dialog.py:98-133 | any field empty after stripping: the form is refused and no record is built; otherwise the dialog is accepted with `NewPop` of the stripped inputs, whose barcode has 1 to 15 digits and whose value is 0.0 |
| AddItem.AddItemDialog.CreateAndAcceptAsWritten | add_item_dialog.py:122-130 | as written, a complete form fails with an unexpected keyword error and the dialog is never accepted |
| AddItem.AddItemDialog.Cancel | add_item_dialog.py:69-70 | closes the dialog without building a record; the five inputs, the image path and the validators' guarantees are kept |
| MainWindow.GridAdvance | main.py:182-185 | after `n` containers the counter is `(n / 4, n % 4)`; the column wraps to 0 exactly when the row advances |
| MainWindow.Home.constructor | main.py:21-32 | the window starts showing every stored record, with nothing selected |
| MainWindow.Home.AddPopToUi | main.py:174-185 | the container goes into the current cell; the column stays in `[0, 4)`; the row advances by one exactly when the column wraps to 0 |
| MainWindow.Home.RefreshUi | main.py:223-248 | the counters are reset, every stored record is added once in order, and they end at `(n / 4, n % 4)`; nothing is selected and Edit and Delete are disabled |
| MainWindow.Home.DisplayPopDetails | main.py:187-190 | the clicked record becomes the selection and Edit and Delete are enabled |
| MainWindow.Home.DeleteFunko | main.py:250-268 | a confirmed delete removes exactly the selected id from the store and clears the selection; declining, or having nothing selected, changes nothing; the id counter, the issued ids and the write log are unchanged |
| MainWindow.Home.OpenAddItemDialogAsWritten | main.py:167-172 | as written, an accepted dialog refreshes the window, but the store is not written, so the new record is not shown |
| MainWindow.Home.OpenAddItemDialog | main.py:167-172 | an accepted record is added to the store under a fresh id before the refresh, so the window then shows it last; a record the store refuses and a cancelled dialog add nothing; the write log is unchanged, and the issued ids grow by exactly the new id, or not at all |
| Flow.Run | flow_layout.py:90-109 | the running state after placing items in order: the current line's height is never negative; its meaning is stated by `RunInvariant` |
| Flow.FewerLinesThanItems | flow_layout.py:94-103 | a line is closed only by a later item, so there are fewer closed lines than items |
| Flow.Position | flow_layout.py:91-106 | item `k` keeps its size hint and lands at the cursor, or at the left edge when it wraps; `FirstItemAtOrigin` and `NextPosition` state where |
| Flow.PositionFromCursor | flow_layout.py:91-109 | item `k` lands where the cursor stands once its line is settled, and the pass then advances past it |
| Flow.LayoutHeight | flow_layout.py:111-117 | no items give just the bottom margin, and with non-negative spacing the height is at least the closed lines plus the bottom margin; `LayoutHeightIsLines` states it exactly |
| Flow.RunInvariant | flow_layout.py:90-109 | while the pass runs, every closed line has positive height, the running total is the closed lines plus the spacing between them, and the row is below them |
| Flow.WrapKeepsInvariant | flow_layout.py:97-103 | closing a line keeps that meaning of the running state |
| Flow.LayoutHeightIsLines | flow_layout.py:97-99 | the returned height is the sum of the line heights, plus the spacing between consecutive lines, plus the bottom margin; with no items, just the bottom margin |
| Flow.FirstItemAtOrigin | flow_layout.py:78-86 | the first item goes to the top-left corner inside the margins |
| Flow.NextPosition | flow_layout.py:94-109 | the next item either follows one width and one spacing to the right on the same row, or, when it overflows the right edge and the line has height, starts at the left edge `lineHeight + spacing` lower |
| Flow.WrapMovesDown | flow_layout.py:94-103 | a wrapped item lands strictly lower than the one before it, at the left edge |
| Flow.LayoutItem.constructor | flow_layout.py:23-24 | an item with its size hint and no geometry yet |
| Flow.LayoutItem.SetGeometry | flow_layout.py:106 | the item takes the given geometry |
| Flow.FlowLayout.constructor | flow_layout.py:11-16 | spacing -1 becomes 10; one margin on all four sides, where a negative margin means the style's margin |
| Flow.FlowLayout.AddItem | flow_layout.py:26-27 | appends at the end; the count grows by one |
| Flow.FlowLayout.Count | flow_layout.py:29-30 | the number of items |
| Flow.FlowLayout.ItemAt | flow_layout.py:32-35 | the item at the index when `0 <= index < count`, else `None` |
| Flow.FlowLayout.TakeAt | flow_layout.py:37-40 | removes and returns the item at the index, shifting later items down; out of range, `None` and no change |
| Flow.FlowLayout.Dispose | flow_layout.py:18-21 | taking the first item until there is none leaves the layout empty |
| Flow.FlowLayout.PlaceItem | flow_layout.py:106 | setting one item's geometry touches no other item |
| Flow.FlowLayout.DoLayout | flow_layout.py:76-117 | returns the layout height, and unless `testOnly` places every item where the pass puts it; with `testOnly` no geometry changes |
| Flow.FlowLayout.HeightForWidth | flow_layout.py:48-49 | the layout height for a rectangle that wide at the origin, with no geometry changed |
| Flow.FlowLayout.SetGeometry | flow_layout.py:52-55 | records the rectangle, places every item where the pass puts it, and returns the layout height |
| Flow.FlowLayout.MinimumSize | flow_layout.py:65-74 | the current width (400 when not positive) and the test-only height, each widened by the margins; the bottom margin is counted twice |

## Left out

- Qt presentation is not modelled: widgets, styles, pixmaps, message boxes, signals, and the grid and scroll widgets. clickable_container.py is not part of this model. Only the counters, validation, selection state and store effects are kept.
- export_sql_excel.py is not part of this model. It does pandas and Excel file export and file dialogs, which are pure I/O.
- The Firebase SDK and the network are left out. Credential loading and app initialisation become the constructor's `client` argument. The remote collection is an input sequence of documents. The remote writes `add_funko` and `update_market_value` (firestore_connection.py:57-108) are not modelled.
- funko_model.py is not part of this model. The remote record is `Firestore.RemoteFunko`, with the fields the normaliser fills.
- sync_firebase.py:17 reads `f.year`, but the normalised record exposes `release_year`. The import pass uses the release year.
- Floating point is not modelled. Market values are opaque reals that are only copied. These conversions are parameters of the model:
  - `str` of a float and `float` of text (firestore_connection.py:129-133, pop_details_dialog.py:25 and 67);
  - the `:.2f` formatting in `get_info`.
- Firestore field values are limited to None, text, integer and float. Other types are not modelled. A non-text value in a text field is rendered with Python `str`.
- SQLite mechanics are not modelled: connections, commits, and printing of caught errors. A table is a sequence in rowid order.
- The stray `conn.commit()` after the try (firebase_db.py:47) is not modelled. It would raise only if `connect` itself had failed.
- Reference.FirebaseDB.GetMarketValue: with a falsy year, the contract promises only some row with that barcode. The query has no ORDER BY, so SQLite does not fix which row comes back. The model's body takes the first in storage order.
- Flow.RunInvariant, Flow.LayoutHeightIsLines and Flow.WrapMovesDown assume a non-negative spacing. A negative spacing passed to the constructor is outside these lemmas.
- Flow.FlowLayout keeps each item at most once (its `Valid`). Qt never adds the same item twice.
- The parent `setMinimumHeight` call in `setGeometry` (flow_layout.py:56-59) is not modelled. `Flow.FlowLayout.SetGeometry` returns the height it would pass.
- The style's default margin is a constructor parameter. The size hint of each item is fixed.
- `expandingDirections`, `hasHeightForWidth`, `sizeHint` and `addWidget` of the layout are constant answers or one-line delegations and are not modelled.
- MainWindow.Home holds the displayed records as values, not shared objects. The grid cells stand for the containers.
- `open_edit_pop_dialog` and its result code 99 path in main.py are not modelled. The edit dialog itself is modelled as `DetailsDialog`.
- sync_app.py:24 assigns `personal_funko.market_value` on a record that is discarded afterwards. The model keeps only the store write.
- The ValueError branch for the read-only "0.00" in add_item_dialog.py:116-119 is not modelled. The text is fixed, so the branch is unreachable.
- The mock `FunkoDB.update_funko` in funko_pop.py:42-45 is not modelled. Some setters call it, but it only logs.
- The `__main__` blocks in funko_pop.py, funko_db.py and sync_firebase.py are not modelled. They call names that do not exist.
- `print` and traceback output are not modelled.
- Four places where the code's behaviour differs from what one might expect are modelled as the code does them:
  - The reconciliation pass writes on every match, even when the value is already equal.
  - No market value is ever checked for a negative sign.
  - The item number and the release year each have only two alternate field names.
  - A document that raises during import ends the scan rather than being skipped.
- MainWindow.Home.constructor, MainWindow.Home.RefreshUi, MainWindow.Home.DeleteFunko, MainWindow.Home.OpenAddItemDialog and Reconciliation.SyncMarketValues read the inventory through the corrected `Inventory.FunkoDB.GetAllFunkos`. As written, that read raises for any non-empty table (see Findings, funko_db.py:60-68). So the real window's start-up (main.py:32, through its refresh) and refresh (main.py:236) raise once the store holds a row, and the reconciliation pass raises at its inventory read (sync_app.py:12) before any write. These members state the behaviour once that read is corrected.
- Reference.RefRow: the key columns are non-NULL text. The table's schema would allow NULL in the composite key, and SQLite treats NULLs there as distinct, but the only caller passes `str` of each field.
- The reconciliation pass has no per-record error handling. A record whose name or year is `None` raises at its message and ends the pass. This is modelled as `Reconciliation.StopAt`.

## Findings

| source | as written | input that shows it | evidently intended | confidence | as-written member | corrected member |
|---|---|---|---|---|---|---|
| funko_db.py:60-68 | `from_detailed` is called without its required `image_path` argument, so reading back any non-empty table raises TypeError; the window's start-up and refresh and the reconciliation pass, which all read the inventory this way, raise with it | a table holding one row | one record per row, with no image path | high, not executed | Inventory.FunkoDB.GetAllFunkosAsWritten | Inventory.FunkoDB.GetAllFunkos |
| add_item_dialog.py:122-130 | `FunkoPop` is given the keywords `itemNo` and `releaseYear`, which it lacks, so a complete form raises TypeError and is never accepted | every field filled in | build the record with `item_number` and `year` and accept | high, not executed | AddItem.AddItemDialog.CreateAndAcceptAsWritten | AddItem.AddItemDialog.CreateAndAccept |
| main.py:167-172 | the accepted dialog's `new_pop` is only tested for truth and the window refreshed; nothing writes it to the inventory store, so the new record never appears | any accepted add dialog | add the record to the store, then refresh | medium, not executed | MainWindow.Home.OpenAddItemDialogAsWritten | MainWindow.Home.OpenAddItemDialog |
| sync_firebase.py:12 | `FirestoreConnection()` is called without the required service-account path, so the import pass raises right after creating the table | any call of the pass | connect with a service-account path and import every fetched record | high, not executed | ImportPass.SyncFirebaseAsWritten | ImportPass.SyncFirebase |
