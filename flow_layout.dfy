/**
 * The wrapping layout (`FlowLayout` in flow_layout.py): an ordered list of items, and
 * a single left-to-right pass that places each item on the current line or, when it
 * overflows the right edge of a line that already has height, on a new line below.
 * The pass returns the height the items need.
 */
module Flow {
  import opened Wrappers

  /** `QSize`. */
  datatype Size = Size(width: int, height: int)

  /** `QRect`. Qt's `right()` is the last column inside the rectangle. */
  datatype Rect = Rect(x: int, y: int, width: int, height: int) {
    function Right(): int {
      x + width - 1
    }
  }

  /** The layout's contents margins. */
  datatype Margins = Margins(left: int, top: int, right: int, bottom: int)

  /** What one layout pass works within: the target rectangle, the margins and the spacing. */
  datatype Config = Config(rect: Rect, margins: Margins, spacing: int) {
    /** Where every line starts. */
    function X0(): int { rect.x + margins.left }
    /** Where the first line starts. */
    function Y0(): int { rect.y + margins.top }
    /** The right edge an item may not pass on a line that already has height. */
    function Limit(): int { rect.Right() - margins.right }
  }

  /** The spacing used when none is given. */
  const DefaultSpacing: int := 10

  /**
   * The pass's running state: the next position, the current line's height, the
   * height accumulated for closed lines, and (for the proofs) the closed lines' heights.
   */
  datatype Cursor = Cursor(x: int, y: int, lineHeight: int, total: int, lines: seq<int>)

  function Start(cfg: Config): Cursor {
    Cursor(cfg.X0(), cfg.Y0(), 0, 0, [])
  }

  function Max(a: int, b: int): int {
    if a >= b then a else b
  }

  /** The item does not fit on the current line, and the line already has height. */
  predicate Wraps(cfg: Config, c: Cursor, s: Size) {
    c.x + s.width > cfg.Limit() && c.lineHeight > 0
  }

  /** The cursor the item is placed at: after closing the line when the item wraps. */
  function LineFor(cfg: Config, c: Cursor, s: Size): Cursor {
    if Wraps(cfg, c, s) then
      Cursor(cfg.X0(), c.y + c.lineHeight + cfg.spacing, 0,
             (if c.total > 0 then c.total + cfg.spacing else c.total) + c.lineHeight,
             c.lines + [c.lineHeight])
    else c
  }

  /** The cursor after placing one item. */
  function Advance(cfg: Config, c: Cursor, s: Size): Cursor {
    var d := LineFor(cfg, c, s);
    d.(x := d.x + s.width + cfg.spacing, lineHeight := Max(d.lineHeight, s.height))
  }

  /** The cursor after placing every item of `sizes`, in order. */
  function Run(cfg: Config, sizes: seq<Size>): (r: Cursor)
    ensures r.lineHeight >= 0
    decreases |sizes|
  {
    if sizes == [] then Start(cfg)
    else Advance(cfg, Run(cfg, sizes[..|sizes| - 1]), sizes[|sizes| - 1])
  }

  /** The geometry the pass gives item `k`. */
  function Position(cfg: Config, sizes: seq<Size>, k: nat): (r: Rect)
    requires k < |sizes|
    ensures r.width == sizes[k].width && r.height == sizes[k].height
    ensures r.x == Run(cfg, sizes[..k]).x || r.x == cfg.X0()
  {
    var d := LineFor(cfg, Run(cfg, sizes[..k]), sizes[k]);
    Rect(d.x, d.y, sizes[k].width, sizes[k].height)
  }

  /** A line is only closed by a later item, so there are fewer closed lines than items. */
  lemma {:induction false} FewerLinesThanItems(cfg: Config, sizes: seq<Size>)
    ensures |Run(cfg, sizes).lines| <= |sizes|
    ensures sizes != [] ==> |Run(cfg, sizes).lines| < |sizes|
    decreases |sizes|
  {
    if |sizes| > 1 {
      FewerLinesThanItems(cfg, sizes[..|sizes| - 1]);
    }
  }

  /** Item `k` is placed where the cursor stands after its line is settled, and the pass then advances past it. */
  lemma PositionFromCursor(cfg: Config, sizes: seq<Size>, k: nat)
    requires k < |sizes|
    ensures var d := LineFor(cfg, Run(cfg, sizes[..k]), sizes[k]);
      Position(cfg, sizes, k) == Rect(d.x, d.y, sizes[k].width, sizes[k].height)
    ensures Run(cfg, sizes[..k + 1]) == Advance(cfg, Run(cfg, sizes[..k]), sizes[k])
  {
    assert sizes[..k + 1][..k] == sizes[..k];
  }

  /** The pass's result: the last line is closed if it has height, then the bottom margin is added. */
  function LayoutHeight(cfg: Config, sizes: seq<Size>): (r: int)
    ensures sizes == [] ==> r == cfg.margins.bottom
    ensures cfg.spacing >= 0 ==> r >= Run(cfg, sizes).total + cfg.margins.bottom
  {
    var c := Run(cfg, sizes);
    (if c.lineHeight > 0 then (if c.total > 0 then c.total + cfg.spacing else c.total) + c.lineHeight else c.total)
    + cfg.margins.bottom
  }

  function Sum(hs: seq<int>): int
    decreases |hs|
  {
    if hs == [] then 0 else Sum(hs[..|hs| - 1]) + hs[|hs| - 1]
  }

  /** Line heights with `spacing` between consecutive lines. */
  function SumWithGaps(hs: seq<int>, spacing: int): int {
    if hs == [] then 0 else Sum(hs) + (|hs| - 1) * spacing
  }

  /** Every line the pass produces, the last (still open) one included if it has height. */
  function AllLines(c: Cursor): seq<int> {
    c.lines + (if c.lineHeight > 0 then [c.lineHeight] else [])
  }

  lemma SumSnoc(hs: seq<int>, h: int)
    ensures Sum(hs + [h]) == Sum(hs) + h
  {
    assert (hs + [h])[..|hs|] == hs;
  }

  /**
   * What the running state means: every closed line has positive height; the
   * accumulated total is the closed lines with a gap between each two (for a
   * non-negative spacing); and the cursor's row is below the closed lines and their gaps.
   */
  lemma {:induction false} RunInvariant(cfg: Config, sizes: seq<Size>)
    requires cfg.spacing >= 0
    ensures var c := Run(cfg, sizes);
      && c.lineHeight >= 0
      && (forall i :: 0 <= i < |c.lines| ==> c.lines[i] > 0)
      && c.total == SumWithGaps(c.lines, cfg.spacing)
      && c.y == cfg.Y0() + Sum(c.lines) + |c.lines| * cfg.spacing
    decreases |sizes|
  {
    if sizes != [] {
      var n := |sizes| - 1;
      var c := Run(cfg, sizes[..n]);
      RunInvariant(cfg, sizes[..n]);
      var d := LineFor(cfg, c, sizes[n]);
      if Wraps(cfg, c, sizes[n]) {
        WrapKeepsInvariant(cfg, c);
      }
      assert Run(cfg, sizes) == d.(x := d.x + sizes[n].width + cfg.spacing, lineHeight := Max(d.lineHeight, sizes[n].height));
    }
  }

  /** Closing a line keeps the meaning of the running state. */
  lemma WrapKeepsInvariant(cfg: Config, c: Cursor)
    requires cfg.spacing >= 0 && c.lineHeight > 0
    requires forall i :: 0 <= i < |c.lines| ==> c.lines[i] > 0
    requires c.total == SumWithGaps(c.lines, cfg.spacing)
    requires c.y == cfg.Y0() + Sum(c.lines) + |c.lines| * cfg.spacing
    ensures var lines := c.lines + [c.lineHeight];
      && (forall i :: 0 <= i < |lines| ==> lines[i] > 0)
      && (if c.total > 0 then c.total + cfg.spacing else c.total) + c.lineHeight == SumWithGaps(lines, cfg.spacing)
      && c.y + c.lineHeight + cfg.spacing == cfg.Y0() + Sum(lines) + |lines| * cfg.spacing
  {
    var sp, L, h := cfg.spacing, c.lines, c.lineHeight;
    SumSnoc(L, h);
    assert (|L| + 1) * sp == |L| * sp + sp;
    if L != [] {
      PositiveSum(L);
      assert (|L| - 1) * sp >= 0;
      assert (|L| - 1) * sp + sp == |L| * sp;
    }
  }

  lemma {:induction false} PositiveSum(hs: seq<int>)
    requires hs != [] && forall i :: 0 <= i < |hs| ==> hs[i] > 0
    ensures Sum(hs) > 0
    decreases |hs|
  {
    if |hs| > 1 {
      PositiveSum(hs[..|hs| - 1]);
    }
  }

  /**
   * The returned height is the sum of the line heights, plus the spacing between
   * consecutive lines, plus the bottom margin; with no lines it is the bottom margin.
   */
  lemma LayoutHeightIsLines(cfg: Config, sizes: seq<Size>)
    requires cfg.spacing >= 0
    ensures LayoutHeight(cfg, sizes) == SumWithGaps(AllLines(Run(cfg, sizes)), cfg.spacing) + cfg.margins.bottom
  {
    var c := Run(cfg, sizes);
    RunInvariant(cfg, sizes);
    if c.lineHeight > 0 {
      WrapKeepsInvariant(cfg, c);
      assert AllLines(c) == c.lines + [c.lineHeight];
    } else {
      assert AllLines(c) == c.lines;
    }
  }

  /** The first item is placed at the top-left corner inside the margins. */
  lemma FirstItemAtOrigin(cfg: Config, sizes: seq<Size>)
    requires sizes != []
    ensures Position(cfg, sizes, 0) == Rect(cfg.X0(), cfg.Y0(), sizes[0].width, sizes[0].height)
  {
    assert sizes[..0] == [];
  }

  /**
   * Consecutive items: the later one either follows on the same row, one width and one
   * spacing to the right, or (when it wraps) starts the next row at the left edge,
   * `lineHeight + spacing` further down.
   */
  lemma NextPosition(cfg: Config, sizes: seq<Size>, k: nat)
    requires k + 1 < |sizes|
    ensures var c := Run(cfg, sizes[..k + 1]);
      var p, q := Position(cfg, sizes, k), Position(cfg, sizes, k + 1);
      && (!Wraps(cfg, c, sizes[k + 1]) ==> q.x == p.x + sizes[k].width + cfg.spacing && q.y == p.y)
      && (Wraps(cfg, c, sizes[k + 1]) ==> q.x == cfg.X0() && q.y == p.y + c.lineHeight + cfg.spacing)
  {
    assert sizes[..k + 1][..k] == sizes[..k];
  }

  /** A wrapped item lands strictly lower than the item before it (for a non-negative spacing). */
  lemma WrapMovesDown(cfg: Config, sizes: seq<Size>, k: nat)
    requires k + 1 < |sizes| && cfg.spacing >= 0
    requires Wraps(cfg, Run(cfg, sizes[..k + 1]), sizes[k + 1])
    ensures Position(cfg, sizes, k + 1).y > Position(cfg, sizes, k).y
    ensures Position(cfg, sizes, k + 1).x == cfg.X0()
  {
    NextPosition(cfg, sizes, k);
  }

  /** A layout item: its fixed size hint and the geometry last given to it. */
  class LayoutItem {
    const hint: Size
    var geometry: Option<Rect>

    constructor (hint: Size)
      ensures this.hint == hint && geometry == None
    {
      this.hint := hint;
      geometry := None;
    }

    method SetGeometry(r: Rect)
      modifies this
      ensures geometry == Some(r)
    {
      geometry := Some(r);
    }
  }

  /** The size hints of a list of items, in order. */
  function Hints(items: seq<LayoutItem>): (hs: seq<Size>)
    ensures |hs| == |items| && forall k :: 0 <= k < |items| ==> hs[k] == items[k].hint
  {
    seq(|items|, k requires 0 <= k < |items| => items[k].hint)
  }

  class FlowLayout {
    var itemList: seq<LayoutItem>
    const spacing: int
    const margins: Margins
    /** The rectangle last given to `setGeometry`. */
    var geometry: Rect

    /** The layout owns each of its items once. */
    ghost predicate Valid()
      reads this
    {
      forall i, j :: 0 <= i < j < |itemList| ==> itemList[i] != itemList[j]
    }

    /**
     * `__init__`: spacing -1 means the default 10; the one margin applies to all four
     * sides, and a negative margin means the style's margin `styleMargin`.
     */
    constructor (margin: int, spacing: int, styleMargin: int)
      ensures Valid() && itemList == [] && geometry == Rect(0, 0, 0, 0)
      ensures this.spacing == if spacing == -1 then DefaultSpacing else spacing
      ensures var m := if margin >= 0 then margin else styleMargin;
        margins == Margins(m, m, m, m)
    {
      itemList := [];
      this.spacing := if spacing == -1 then DefaultSpacing else spacing;
      var m := if margin >= 0 then margin else styleMargin;
      margins := Margins(m, m, m, m);
      geometry := Rect(0, 0, 0, 0);
    }

    /** `addItem`: appends at the end. */
    method AddItem(item: LayoutItem)
      requires Valid() && item !in itemList
      modifies this
      ensures Valid() && itemList == old(itemList) + [item] && geometry == old(geometry)
      ensures Count() == old(Count()) + 1
    {
      itemList := itemList + [item];
    }

    /** `count`. */
    function Count(): (n: nat)
      reads this
      ensures n == |itemList|
    {
      |itemList|
    }

    /** `itemAt`: the item at `index`, or `None` out of range. */
    function ItemAt(index: int): (r: Option<LayoutItem>)
      reads this
      ensures 0 <= index < |itemList| ==> r == Some(itemList[index])
      ensures !(0 <= index < |itemList|) ==> r == None
    {
      if 0 <= index < |itemList| then Some(itemList[index]) else None
    }

    /** `takeAt`: removes and returns the item at `index`; out of range, `None` and no change. */
    method TakeAt(index: int) returns (r: Option<LayoutItem>)
      requires Valid()
      modifies this
      ensures Valid() && geometry == old(geometry)
      ensures 0 <= index < |old(itemList)| ==>
        r == Some(old(itemList)[index]) && itemList == old(itemList)[..index] + old(itemList)[index + 1..]
      ensures !(0 <= index < |old(itemList)|) ==> r == None && itemList == old(itemList)
      ensures r.Some? ==> r.value !in itemList
    {
      if 0 <= index < |itemList| {
        r := Some(itemList[index]);
        itemList := itemList[..index] + itemList[index + 1..];
      } else {
        r := None;
      }
    }

    /** `__del__`: takes the first item until there is none. */
    method Dispose()
      requires Valid()
      modifies this
      ensures Valid() && itemList == []
    {
      var item := TakeAt(0);
      while item.Some?
        invariant Valid()
        invariant item.None? ==> itemList == []
        decreases |itemList| + (if item.Some? then 1 else 0)
      {
        item := TakeAt(0);
      }
    }

    function ConfigFor(rect: Rect): Config
      reads this
    {
      Config(rect, margins, spacing)
    }

    /** `item.setGeometry` on the `i`-th item: no other item is touched. */
    method PlaceItem(i: nat, r: Rect)
      requires Valid() && i < |itemList|
      modifies itemList[i]
      ensures forall k :: 0 <= k < |itemList| ==>
        itemList[k].geometry == if k == i then Some(r) else old(itemList[k].geometry)
    {
      itemList[i].SetGeometry(r);
    }

    /**
     * `_doLayout`: places every item as `Position` says (unless `testOnly`, which leaves
     * every item's geometry as it was) and returns `LayoutHeight`.
     */
    method DoLayout(rect: Rect, testOnly: bool) returns (height: int)
      requires Valid()
      modifies itemList
      ensures height == LayoutHeight(ConfigFor(rect), Hints(itemList))
      ensures !testOnly ==> forall k :: 0 <= k < |itemList| ==>
        itemList[k].geometry == Some(Position(ConfigFor(rect), Hints(itemList), k))
      ensures testOnly ==> forall k :: 0 <= k < |itemList| ==> itemList[k].geometry == old(itemList[k].geometry)
    {
      var cfg := ConfigFor(rect);
      ghost var hints := Hints(itemList);
      var x := rect.x + margins.left;
      var y := rect.y + margins.top;
      var lineHeight := 0;
      var currentX, currentY := x, y;
      var totalHeight := 0;
      ghost var c := Start(cfg);
      for i := 0 to |itemList|
        invariant c == Run(cfg, hints[..i])
        invariant currentX == c.x && currentY == c.y && lineHeight == c.lineHeight && totalHeight == c.total
        invariant forall k :: 0 <= k < |itemList| ==>
          itemList[k].geometry == if !testOnly && k < i then Some(Position(cfg, hints, k)) else old(itemList[k].geometry)
      {
        var itemSize := itemList[i].hint;
        PositionFromCursor(cfg, hints, i);
        ghost var d := LineFor(cfg, c, itemSize);
        if currentX + itemSize.width > rect.Right() - margins.right && lineHeight > 0 {
          if totalHeight > 0 {
            totalHeight := totalHeight + spacing;
          }
          totalHeight := totalHeight + lineHeight;
          currentX := x;
          currentY := currentY + lineHeight + spacing;
          lineHeight := 0;
        }
        assert currentX == d.x && currentY == d.y && lineHeight == d.lineHeight && totalHeight == d.total;
        if !testOnly {
          PlaceItem(i, Rect(currentX, currentY, itemSize.width, itemSize.height));
        }
        currentX := currentX + itemSize.width + spacing;
        lineHeight := Max(lineHeight, itemSize.height);
        c := Advance(cfg, c, itemSize);
      }
      assert hints[..|itemList|] == hints;
      if lineHeight > 0 {
        if totalHeight > 0 {
          totalHeight := totalHeight + spacing;
        }
        totalHeight := totalHeight + lineHeight;
      }
      return totalHeight + margins.bottom;
    }

    /** `heightForWidth`: a test-only pass over a rectangle `width` wide at the origin. */
    method HeightForWidth(width: int) returns (height: int)
      requires Valid()
      modifies itemList
      ensures height == LayoutHeight(ConfigFor(Rect(0, 0, width, 0)), Hints(itemList))
      ensures forall k :: 0 <= k < |itemList| ==> itemList[k].geometry == old(itemList[k].geometry)
    {
      height := DoLayout(Rect(0, 0, width, 0), true);
    }

    /** `setGeometry`: records the rectangle and places every item inside it. */
    method SetGeometry(rect: Rect) returns (requiredHeight: int)
      requires Valid()
      modifies this, itemList
      ensures Valid() && geometry == rect && itemList == old(itemList)
      ensures requiredHeight == LayoutHeight(ConfigFor(rect), Hints(itemList))
      ensures forall k :: 0 <= k < |itemList| ==> itemList[k].geometry == Some(Position(ConfigFor(rect), Hints(itemList), k))
    {
      geometry := rect;
      requiredHeight := DoLayout(rect, false);
    }

    /**
     * `minimumSize`: the current width (400 when not positive) and the test-only height,
     * each widened by the margins on both sides; the bottom margin is thus counted
     * both by the pass and here.
     */
    method MinimumSize() returns (s: Size)
      requires Valid()
      modifies itemList
      ensures var width := if geometry.width <= 0 then 400 else geometry.width;
        s == Size(width + margins.left + margins.right,
                  LayoutHeight(ConfigFor(Rect(0, 0, width, 0)), Hints(itemList)) + margins.top + margins.bottom)
      ensures forall k :: 0 <= k < |itemList| ==> itemList[k].geometry == old(itemList[k].geometry)
    {
      var width := geometry.width;
      if width <= 0 {
        width := 400;
      }
      var height := DoLayout(Rect(0, 0, width, 0), true);
      s := Size(width + margins.left + margins.right, height + margins.top + margins.bottom);
    }
  }
}
