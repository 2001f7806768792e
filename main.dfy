/**
 * The main window (`Home` in main.py), reduced to its bookkeeping: the records on
 * show, the grid cell each one went into, the selected record, the enabled state of
 * Edit and Delete, and the effect of Delete on the inventory store.
 */
module MainWindow {
  import opened Wrappers
  import opened FunkoPops
  import opened Inventory

  /** Records per grid row. */
  const MaxCols: int := 4

  /** One placed container: its grid cell and the record it shows. */
  datatype Cell = Cell(row: int, col: int, pop: Pop)

  /** The `k`-th container added since the grid was cleared goes here. */
  predicate PlacedInOrder(cells: seq<Cell>) {
    forall k :: 0 <= k < |cells| ==> cells[k].row == k / MaxCols && cells[k].col == k % MaxCols
  }

  /** The grid counter after `n` containers: the column wraps to 0 and the row advances together. */
  lemma {:induction false} GridAdvance(n: nat)
    ensures n % MaxCols + 1 < MaxCols ==> (n + 1) / MaxCols == n / MaxCols && (n + 1) % MaxCols == n % MaxCols + 1
    ensures n % MaxCols + 1 == MaxCols ==> (n + 1) / MaxCols == n / MaxCols + 1 && (n + 1) % MaxCols == 0
  {
    var q, r := n / MaxCols, n % MaxCols;
    assert n == q * MaxCols + r && 0 <= r < MaxCols;
    if r + 1 < MaxCols {
      assert n + 1 == q * MaxCols + (r + 1);
    } else {
      assert n + 1 == (q + 1) * MaxCols + 0;
    }
  }

  class Home {
    /** The inventory store; its table is created when the program loads. */
    const store: FunkoDB
    /** The records last read from the store, in storage order. */
    var inventory: seq<Pop>
    var cells: seq<Cell>
    var gridRow: int
    var gridCol: int
    var currentPop: Option<Pop>
    var editEnabled: bool
    var deleteEnabled: bool

    ghost predicate Valid()
      reads this, store
    {
      && store.Valid() && store.tableExists
      && PlacedInOrder(cells)
      && gridRow == |cells| / MaxCols && gridCol == |cells| % MaxCols
    }

    /** The window state `refresh_ui` leaves: every stored record in its cell, nothing selected. */
    ghost predicate ShowsStore()
      reads this, store
    {
      && |inventory| == |store.rows|
      && (forall k :: 0 <= k < |store.rows| ==> inventory[k] == PopOf(store.rows[k]))
      && |cells| == |inventory|
      && (forall k :: 0 <= k < |cells| ==> cells[k].pop == inventory[k])
      && currentPop == None && !editEnabled && !deleteEnabled
    }

    /** `__init__`: the counters start at (0, 0), then the window is refreshed. */
    constructor (store: FunkoDB)
      requires store.Valid() && store.tableExists
      ensures this.store == store && Valid() && ShowsStore()
      ensures gridRow == |store.rows| / MaxCols && gridCol == |store.rows| % MaxCols
    {
      this.store := store;
      inventory, cells := [], [];
      gridRow, gridCol := 0, 0;
      currentPop := None;
      editEnabled, deleteEnabled := false, false;
      new;
      RefreshUi();
    }

    /**
     * `add_pop_to_ui`: the container goes into the current cell; the column then
     * advances, wrapping to 0 at `MaxCols` and advancing the row exactly then.
     */
    method AddPopToUi(p: Pop)
      requires Valid()
      modifies this
      ensures Valid()
      ensures cells == old(cells) + [Cell(old(gridRow), old(gridCol), p)]
      ensures 0 <= gridCol < MaxCols
      ensures old(gridCol) + 1 < MaxCols ==> gridRow == old(gridRow) && gridCol == old(gridCol) + 1
      ensures old(gridCol) + 1 == MaxCols ==> gridRow == old(gridRow) + 1 && gridCol == 0
      ensures inventory == old(inventory) && currentPop == old(currentPop)
      ensures editEnabled == old(editEnabled) && deleteEnabled == old(deleteEnabled)
    {
      GridAdvance(|cells|);
      cells := cells + [Cell(gridRow, gridCol, p)];
      gridCol := gridCol + 1;
      if gridCol >= MaxCols {
        gridCol := 0;
        gridRow := gridRow + 1;
      }
    }

    /**
     * `refresh_ui`: clear the grid, reset the counters, read every stored record and add
     * each once, in order; then nothing is selected and Edit and Delete are disabled.
     * With `n` records the counters end at `(n / MaxCols, n % MaxCols)`.
     */
    method RefreshUi()
      requires store.Valid() && store.tableExists
      modifies this
      ensures Valid() && ShowsStore()
      ensures gridRow == |store.rows| / MaxCols && gridCol == |store.rows| % MaxCols
    {
      cells := [];
      gridRow, gridCol := 0, 0;
      var read := store.GetAllFunkos();
      inventory := read.value;
      for i := 0 to |inventory|
        invariant Valid() && |cells| == i
        invariant |inventory| == |store.rows|
        invariant forall k :: 0 <= k < |store.rows| ==> inventory[k] == PopOf(store.rows[k])
        invariant forall k :: 0 <= k < i ==> cells[k].pop == inventory[k]
      {
        AddPopToUi(inventory[i]);
      }
      editEnabled, deleteEnabled := false, false;
      currentPop := None;
    }

    /** `display_pop_details`: the clicked record becomes the selection and Edit and Delete are enabled. */
    method DisplayPopDetails(p: Pop)
      requires Valid()
      modifies this
      ensures Valid()
      ensures currentPop == Some(p) && editEnabled && deleteEnabled
      ensures inventory == old(inventory) && cells == old(cells)
    {
      currentPop := Some(p);
      editEnabled, deleteEnabled := true, true;
    }

    /**
     * `delete_funko`: with a selection and a confirmed prompt, the selected record's id is
     * deleted from the store and the window refreshed. Declining, or having nothing
     * selected, changes nothing.
     */
    method DeleteFunko(confirmed: bool)
      requires Valid()
      modifies this, store
      ensures Valid()
      ensures store.nextId == old(store.nextId) && store.issued == old(store.issued) && store.writes == old(store.writes)
      ensures old(currentPop).Some? && confirmed ==>
        store.rows == RemoveId(old(store.rows), old(currentPop).value.id) && ShowsStore()
      ensures !(old(currentPop).Some? && confirmed) ==>
        && store.rows == old(store.rows) && currentPop == old(currentPop)
        && inventory == old(inventory) && cells == old(cells)
        && editEnabled == old(editEnabled) && deleteEnabled == old(deleteEnabled)
    {
      if currentPop.Some? && confirmed {
        var deleted := store.DeleteFunko(currentPop.value.id);
        currentPop := None;
        editEnabled, deleteEnabled := false, false;
        RefreshUi();
      }
    }

    /**
     * `open_add_item_dialog` as written: `created` is the dialog's `new_pop` when it was
     * accepted. A created record triggers a refresh, but nothing writes it to the store,
     * so the refreshed window does not show it.
     */
    method OpenAddItemDialogAsWritten(created: Option<Pop>)
      requires Valid()
      modifies this
      ensures Valid() && store.rows == old(store.rows)
      ensures created.Some? ==> ShowsStore()
      ensures created.None? ==> inventory == old(inventory) && cells == old(cells) && currentPop == old(currentPop)
    {
      if created.Some? {
        RefreshUi();
      }
    }

    /**
     * `open_add_item_dialog` storing what the dialog created: an accepted record is
     * added to the store (with a fresh id) before the window is refreshed, so the
     * refreshed grid ends with it. A record the store refuses is not added.
     */
    method OpenAddItemDialog(created: Option<Pop>) returns (added: Option<int>)
      requires Valid()
      modifies this, store
      ensures Valid()
      ensures store.writes == old(store.writes)
      ensures added.Some? ==> store.issued == old(store.issued) + {added.value}
      ensures added.None? ==> store.issued == old(store.issued)
      ensures created.None? ==>
        && added == None && store.rows == old(store.rows)
        && inventory == old(inventory) && cells == old(cells) && currentPop == old(currentPop)
      ensures created.Some? && Persistable(created.value) ==>
        && added.Some? && added.value !in old(store.issued)
        && store.rows == old(store.rows) + [RowOf(added.value, created.value)]
        && ShowsStore()
      ensures created.Some? && !Persistable(created.value) ==>
        added == None && store.rows == old(store.rows) && ShowsStore()
    {
      added := None;
      if created.Some? {
        var r := store.AddFunko(created.value);
        if r.Success? {
          added := Some(r.value);
        }
        RefreshUi();
      }
    }
  }
}
