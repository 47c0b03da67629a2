/** The root node of the terminal's scene graph: rows whose cells changed are drawn again, and all of
    them when the atlas moved, within a budget of rasterizing time per frame. */
module Renderer {
  import Common
  import opened GlyphAtlas
  import opened Terminal

  // ---- The cursor and the input method preedit ----------------------------------------------

  /** A grapheme of the preedit: where it starts in the text and how many cells it takes. */
  datatype Grapheme = Grapheme(text: seq<nat>, start: int, span: nat)

  datatype Input = Input(
    metrics: Metrics, padding: int, software: bool, blinkOn: bool, focused: bool,
    preedit: seq<Grapheme>, preeditCursor: int)

  function Opaque(color: nat, otherwise: nat): nat {
    if color / 0x100_0000 != 0 then color else otherwise
  }

  /** The graphemes from the i-th on, drawn from `column`; the column after them and the caret's. */
  function PreeditItems(input: Input, i: nat, column: int, columns: int, caret: int, y: int,
                        fg: nat, bg: nat): (seq<Item>, int, int)
    requires i <= |input.preedit|
    decreases |input.preedit| - i
  {
    if i == |input.preedit| || column >= columns then ([], column, caret)
    else
      var g := input.preedit[i];
      var m := input.metrics;
      var span := Min(g.span, columns - column);
      var at := if caret < 0 && input.preeditCursor <= g.start then column else caret;
      var rest := PreeditItems(input, i + 1, column + span, columns, at, y, fg, bg);
      ([MarkAt(Bar(column * m.cellWidth, y, span * m.cellWidth, m.cellHeight, bg)),
        GlyphAt(Cluster(g.text, 0, if span == 2 then 2 else 1), column * m.cellWidth, y, fg)] + rest.0,
       rest.1, rest.2)
  }

  function PreeditOverlay(input: Input, g: Grid, under: Cell, y: int): seq<Item> {
    var m, c := input.metrics, g.cursor;
    var fg := Opaque(under.fg, c.color);
    var drawn := PreeditItems(input, 0, c.column, g.columns, -1, y, fg, Opaque(under.bg, g.background));
    var caret := if drawn.2 < 0 then drawn.1 else drawn.2;
    drawn.0
    + [MarkAt(Bar(c.column * m.cellWidth, y + m.underlineTop, (drawn.1 - c.column) * m.cellWidth,
                  m.lineThickness, fg))]
    + (if input.preeditCursor >= 0
       then [MarkAt(Bar(Min(caret, g.columns) * m.cellWidth, y, m.beam, m.cellHeight, c.color))] else [])
  }

  function CursorOverlay(m: Metrics, g: Grid, row: Row, under: Cell, y: int): seq<Item> {
    var c := g.cursor;
    var span := if c.wide && c.column + 1 < g.columns then 2 else 1;
    var x, width, t := c.column * m.cellWidth, span * m.cellWidth, m.hairline;
    match c.shape
    case Hidden => []
    case Beam => [MarkAt(Bar(x, y, m.beam, m.cellHeight, c.color))]
    case Underline =>
      var height := Max(2 * m.lineThickness, m.beam);
      [MarkAt(Bar(x, y + m.cellHeight - height, width, height, c.color))]
    case HollowBlock =>
      [MarkAt(Bar(x, y, width, t, c.color)),
       MarkAt(Bar(x, y + m.cellHeight - t, width, t, c.color)),
       MarkAt(Bar(x, y + t, t, m.cellHeight - 2 * t, c.color)),
       MarkAt(Bar(x + width - t, y + t, t, m.cellHeight - 2 * t, c.color))]
    case Block =>
      [MarkAt(Bar(x, y, width, m.cellHeight, c.color))]
      + (if !under.flags.hidden && (under.cluster != 0 || (under.ch != 32 && under.ch != 0))
         then [GlyphAt(KeyOf(row, under, span), x, y, c.textColor)] else [])
  }

  /** What is drawn over the grid: the preedit, or the cursor. */
  function OverlayItems(input: Input, g: Grid): seq<Item>
    requires |g.rows| == g.lines && forall r :: 0 <= r < g.lines ==> |g.rows[r].cells| == g.columns
  {
    var c := g.cursor;
    if !(g.hasFrame && 0 <= c.row < g.lines && 0 <= c.column < g.columns) then []
    else
      var row := g.rows[c.row];
      var under := row.cells[c.column];
      var y := c.row * input.metrics.cellHeight;
      if input.preedit != [] && input.focused then PreeditOverlay(input, g, under, y)
      else if c.shape != Hidden && (!c.blinking || input.blinkOn)
      then CursorOverlay(input.metrics, g, row, under, y)
      else []
  }

  // ---- Rows ---------------------------------------------------------------------------------

  function RowY(m: Metrics, r: int): int { r * m.cellHeight }

  /** What a row was drawn with: its ligatures, and the background of the whole frame. */
  datatype Used = Used(ligatures: seq<nat>, background: nat)

  /** The node shows the row, with these ligatures and this background, as far as its glyphs are in the atlas. */
  ghost predicate Draws(kit: Toolkit, v: View, row: Row, r: int, node: Node, used: Used, padding: int) {
    && |used.ligatures| == |row.cells|
    && node == NodeOf(v, RowItems(kit, v.metrics, row, RowY(v.metrics, r), used.ligatures), padding,
                      BackOf(v.metrics, row, RowY(v.metrics, r), used.background))
  }

  ghost function FullItems(kit: Toolkit, m: Metrics, row: Row, r: int): seq<Item> {
    RowItems(kit, m, row, RowY(m, r), Ligatures(kit, m, row.cells))
  }

  /** The node shows the whole row. */
  ghost predicate Whole(kit: Toolkit, v: View, row: Row, r: int, node: Node, used: Used, padding: int) {
    && used.ligatures == Ligatures(kit, v.metrics, row.cells)
    && Draws(kit, v, row, r, node, used, padding)
    && Cached(v, FullItems(kit, v.metrics, row, r))
  }

  /** The node shows the row, and would if it were drawn again this frame. */
  ghost predicate Settled(kit: Toolkit, v: View, row: Row, r: int, node: Node, used: Used, padding: int) {
    && Draws(kit, v, row, r, node, used, padding)
    && Ready(v, RowItems(kit, v.metrics, row, RowY(v.metrics, r), used.ligatures))
  }

  lemma NodesStayRight(kit: Toolkit, a: View, b: View, row: Row, r: int, node: Node, used: Used,
                       padding: int)
    requires Advance(a, b) && b.generation == a.generation
    ensures Settled(kit, a, row, r, node, used, padding) ==> Settled(kit, b, row, r, node, used, padding)
    ensures Whole(kit, a, row, r, node, used, padding) ==> Whole(kit, b, row, r, node, used, padding)
  {
    if Draws(kit, a, row, r, node, used, padding) {
      var items := RowItems(kit, a.metrics, row, RowY(a.metrics, r), used.ligatures);
      if Ready(a, items) {
        QuadsStayRight(a, b, items);
      }
    }
  }

  /** The run of plain cells in one style from `start`, and whether two ligature symbols meet in it. */
  method ScanRun(cells: seq<Cell>, start: nat) returns (end: nat, candidate: bool)
    requires start < |cells|
    ensures start < end <= |cells| && end == RunEnd(cells, start, start + 1)
    ensures candidate <==> Candidate(cells, start, end)
  {
    end, candidate := start + 1, false;
    while end < |cells| && Plain(cells[end]) && StyleOf(cells[end]) == StyleOf(cells[start])
      invariant start < end <= |cells|
      invariant RunEnd(cells, start, start + 1) == RunEnd(cells, start, end)
      invariant candidate <==> Candidate(cells, start, end)
    {
      if LigatureSymbol(cells[end].ch) && LigatureSymbol(cells[end - 1].ch) {
        candidate := true;
      }
      end := end + 1;
    }
  }

  /** The item is drawn: its glyph asked for, its quads appended. */
  ghost predicate Resolved(a: View, b: View, item: Item, quads: seq<Quad>) {
    && Advance(a, b) && quads == ItemQuads(b, item) && Ready(b, [item]) && OnlyFor(a, b, KeysOf([item]), {})
    && (b.deferred == a.deferred ==> Cached(b, [item]))
    && (Ready(a, [item]) ==> b.generation == a.generation)
  }

  /** A list of items was drawn, from `a` to `b`. */
  ghost predicate AllResolved(a: View, b: View, items: seq<Item>, quads: seq<Quad>) {
    && Advance(a, b) && OnlyFor(a, b, KeysOf(items), {})
    && (b.cleared == a.cleared ==> Ready(b, items))
    && (b.cleared == a.cleared && b.deferred == a.deferred ==> Cached(b, items))
    && (b.generation == a.generation ==> quads == Quads(b, items))
    && (Ready(a, items) ==> b.generation == a.generation)
  }

  lemma NothingResolved(a: View)
    ensures AllResolved(a, a, [], [])
  {
    StayingIsAdvance(a);
  }

  lemma ResolvedMore(a: View, b: View, c: View, items: seq<Item>, quads: seq<Quad>,
                     item: Item, more: seq<Quad>)
    requires AllResolved(a, b, items, quads) && Resolved(b, c, item, more)
    ensures AllResolved(a, c, items + [item], quads + more)
  {
    AdvanceComposes(a, b, c);
    KeysOfBoth(items, [item]);
    assert (items + [item])[..|items|] == items;
    if c.cleared == a.cleared {
      assert Ready(b, items);
    }
    if c.generation == a.generation {
      QuadsStayRight(b, c, items);
    }
    if Ready(a, items + [item]) {
      PartsReady(a, items, item);
      if Cached(a, [item]) {
        assert [item][0] == item;
        assert Cached(b, [item]);
      }
    }
  }

  lemma PartsReady(v: View, items: seq<Item>, item: Item)
    requires Ready(v, items + [item])
    ensures Ready(v, items) && Ready(v, [item])
  {
    if !Spent(v) {
      assert forall i :: 0 <= i < |items| ==> (items + [item])[i] == items[i];
      assert (items + [item])[|items|] == item;
    }
  }

  lemma MarksStayRight(a: View, b: View, marks: seq<Item>)
    requires Advance(a, b) && b.generation == a.generation
    requires forall i :: 0 <= i < |marks| ==> marks[i].MarkAt?
    ensures Quads(b, marks) == Quads(a, marks)
  {
    QuadsStayRight(a, b, marks);
  }

  /** A row was drawn, from `a` to `b`. */
  ghost predicate RowBuilt(kit: Toolkit, a: View, b: View, row: Row, r: int, node: Node, used: Used,
                           padding: int) {
    && Advance(a, b) && OnlyFor(a, b, RowKeys(kit, a.metrics, row), RunsIn(a.metrics, row.cells))
    && (b.generation == a.generation ==> Settled(kit, b, row, r, node, used, padding))
    && (b.generation == a.generation && b.deferred == a.deferred ==>
          Whole(kit, b, row, r, node, used, padding))
    && (b.cleared == a.cleared ==> Ready(b, FullItems(kit, b.metrics, row, r)))
    && (Ready(a, FullItems(kit, a.metrics, row, r)) ==> b.generation == a.generation)
  }

  const NO_METRICS := Metrics(0, false, 0, 0, 0, 1, 0, 0, 0)

  class RootNode {
    const kit: Toolkit
    const atlas: Atlas
    var grid: Grid
    var rowDirty: seq<bool>
    var builtMetrics: Metrics
    var builtGeneration: int
    var builtPadding: int
    var nodes: seq<Node>
    var overlay: Node
    var texture: array2?<Pixel>
    /** The ligatures and the background each row was drawn with. */
    ghost var used: seq<Used>

    /** Unless the atlas moved, every unmarked row is shown whole by its node. */
    ghost predicate Valid()
      reads this, atlas, atlas.image
    {
      && atlas.Valid() && GridOk(grid) && |rowDirty| == grid.lines
      && builtMetrics == atlas.now.metrics && builtGeneration <= atlas.now.generation
      && (builtGeneration == atlas.now.generation ==>
            forall r :: 0 <= r < grid.lines && !rowDirty[r] ==>
              && r < |nodes| && r < |used|
              && Whole(kit, atlas.now, grid.rows[r], r, nodes[r], used[r], builtPadding))
    }

    /** Unless the image changed since, the texture shows what it does. */
    ghost predicate TextureRight()
      reads this, atlas, atlas.image, texture
    {
      texture != null ==>
        texture != atlas.image && (!atlas.now.dirty ==> TextureShows(texture, atlas.now))
    }

    constructor (kit: Toolkit)
      ensures Valid() && TextureRight() && fresh(atlas) && fresh(atlas.image)
    {
      this.kit := kit;
      builtMetrics, builtGeneration, builtPadding := NO_METRICS, -1, 0;
      atlas := new Atlas(NO_METRICS);
      grid := Grid(0, 0, [], Cursor(0, 0, Hidden, false, false, 0, 0), 0, false, -1, -1);
      rowDirty, nodes, used := [], [], [];
      overlay := Node([], 0, 0, NO_BACK);
      texture := null;
    }

    /** The shaped glyph per column of a row, 0 for the plain one (also where shaping is left for
        a later frame). */
    method FindLigatures(cells: seq<Cell>) returns (ligatures: seq<nat>)
      requires atlas.Valid()
      modifies atlas`now
      ensures atlas.Valid() && |ligatures| == |cells|
      ensures Charged(old(atlas.now), atlas.now) && FromShapes(kit, atlas.now.metrics, cells, ligatures)
      ensures OnlyFor(old(atlas.now), atlas.now, {}, RunsIn(atlas.now.metrics, cells))
      ensures atlas.now.deferred == old(atlas.now).deferred ==>
                ligatures == Ligatures(kit, atlas.now.metrics, cells)
    {
      ligatures := Zeros(|cells|);
      ghost var a := atlas.now;
      NothingFound(kit, a, cells);
      if !atlas.now.metrics.ligatures {
        return;
      }
      var column := 0;
      while column < |cells|
        invariant atlas.Valid() && Finding(kit, a, atlas.now, cells, ligatures, column)
      {
        ligatures, column := FindNext(cells, ligatures, column, a);
      }
    }

    /** The next column, or the next run of plain cells. */
    method FindNext(cells: seq<Cell>, found: seq<nat>, column: nat, ghost a: View)
        returns (ligatures: seq<nat>, next: nat)
      requires atlas.Valid() && column < |cells| == |found|
      modifies atlas`now
      ensures atlas.Valid() && column < next <= |cells| == |ligatures|
      ensures Finding(kit, a, old(atlas.now), cells, found, column) ==>
                Finding(kit, a, atlas.now, cells, ligatures, next)
    {
      ghost var b := atlas.now;
      if !Plain(cells[column]) {
        ligatures, next := found, column + 1;
        if Finding(kit, a, b, cells, found, column) {
          ColumnFound(kit, a, b, cells, found, column);
        }
        return;
      }
      var candidate;
      next, candidate := ScanRun(cells, column);
      ligatures := found;
      var run := RunOf(atlas.now.metrics, cells, column, next);
      var done := true;
      if candidate {
        done := atlas.ShapeRun(Shaping(run.text, run.style));
        if done {
          ligatures := found[..column] + ShapeOf(kit, run) + found[next..];
        }
      }
      if Finding(kit, a, b, cells, found, column) {
        RunFound(kit, a, b, atlas.now, cells, found, ligatures, column, next, done);
      }
    }

    /** Draws an item: appends its quads, once its glyph is there. */
    method DrawItem(item: Item) returns (quads: seq<Quad>)
      requires atlas.Valid()
      modifies atlas, atlas.image
      ensures atlas.Valid() && (atlas.image == old(atlas.image) || fresh(atlas.image))
      ensures Resolved(old(atlas.now), atlas.now, item, quads)
    {
      match item
      case MarkAt(mark) =>
        quads := MarkQuads(atlas.now.solid, atlas.now.curly, mark);
        StayingIsAdvance(atlas.now);
      case GlyphAt(k, x, y, color) =>
        ghost var a := atlas.now;
        var g := atlas.Fetch(k);
        quads := GlyphQuads(g, x, y, color);
        FetchResolves(a, atlas.now, item, g);
    }

    method DrawMarks(marks: seq<Item>) returns (quads: seq<Quad>)
      requires forall i :: 0 <= i < |marks| ==> marks[i].MarkAt?
      ensures quads == Quads(atlas.now, marks)
    {
      quads := [];
      for i := 0 to |marks|
        invariant quads == Quads(atlas.now, marks[..i])
      {
        quads := quads + MarkQuads(atlas.now.solid, atlas.now.curly, marks[i].mark);
        assert marks[..i + 1][..i] == marks[..i];
      }
      assert marks[..|marks|] == marks;
    }

    /** Draws the glyph and the lines of a cell. */
    method DrawCell(row: Row, y: int, shaped: nat, column: nat)
      returns (glyph: seq<Quad>, marks: seq<Quad>)
      requires atlas.Valid() && column < |row.cells|
      modifies atlas, atlas.image
      ensures atlas.Valid() && (atlas.image == old(atlas.image) || fresh(atlas.image))
      ensures CellDrawn(old(atlas.now), atlas.now, GlyphItems(old(atlas.now).metrics, row, y, shaped, column),
                        glyph)
      ensures marks == Quads(atlas.now, MarkItems(kit, old(atlas.now).metrics, row, y, column))
    {
      glyph, marks := [], [];
      if Skipped(row.cells[column]) {
        return;
      }
      var m := atlas.now.metrics;
      var items := GlyphItems(m, row, y, shaped, column);
      if items != [] {
        glyph := DrawItem(items[0]);
      }
      marks := DrawMarks(MarkItems(kit, m, row, y, column));
    }

    /** Draws a row: its glyphs, then the lines on top of them. */
    method BuildRow(r: nat, padding: int)
      requires atlas.Valid() && GridOk(grid)
      requires r < grid.lines && |nodes| == |used| == grid.lines
      modifies this`nodes, this`used, atlas, atlas.image
      ensures atlas.Valid() && (atlas.image == old(atlas.image) || fresh(atlas.image))
      ensures |nodes| == |used| == grid.lines
      ensures nodes == old(nodes)[r := nodes[r]] && used == old(used)[r := used[r]]
      ensures RowBuilt(kit, old(atlas.now), atlas.now, grid.rows[r], r, nodes[r], used[r], padding)
      ensures used[r].background == grid.background
    {
      var row := grid.rows[r];
      ghost var a := atlas.now;
      var stripes := FindStripes(row.cells, grid.background);
      var m := atlas.now.metrics;
      var back := Back(Capped(stripes), RowY(m, r), m.cellWidth, m.cellHeight);
      var ligatures := FindLigatures(row.cells);
      ghost var b := atlas.now;
      var glyphs, marks := DrawCells(row, r, ligatures);
      nodes := nodes[r := Written(glyphs + marks, atlas.now.size, padding, back)];
      used := used[r := Used(ligatures, grid.background)];
      RowIsBuilt(kit, a, b, atlas.now, row, r, ligatures, glyphs, marks, padding, grid.background);
    }

    method DrawCells(row: Row, r: nat, ligatures: seq<nat>) returns (glyphs: seq<Quad>, marks: seq<Quad>)
      requires atlas.Valid() && |ligatures| == |row.cells|
      modifies atlas, atlas.image
      ensures atlas.Valid() && (atlas.image == old(atlas.image) || fresh(atlas.image))
      ensures CellsDrawn(kit, old(atlas.now), atlas.now, row, r, ligatures, |row.cells|, glyphs, marks)
    {
      glyphs, marks := [], [];
      ghost var a := atlas.now;
      NoCellsDrawn(kit, a, row, r, ligatures);
      for column := 0 to |row.cells|
        invariant atlas.Valid() && (atlas.image == old(atlas.image) || fresh(atlas.image))
        invariant CellsDrawn(kit, a, atlas.now, row, r, ligatures, column, glyphs, marks)
      {
        glyphs, marks := DrawNextCell(row, r, ligatures, column, glyphs, marks, a);
      }
    }

    method DrawNextCell(row: Row, r: nat, ligatures: seq<nat>, column: nat, glyphs: seq<Quad>, marks: seq<Quad>,
                        ghost a: View)
        returns (glyphs': seq<Quad>, marks': seq<Quad>)
      requires atlas.Valid() && column < |row.cells| == |ligatures|
      modifies atlas, atlas.image
      ensures atlas.Valid() && (atlas.image == old(atlas.image) || fresh(atlas.image))
      ensures CellsDrawn(kit, a, old(atlas.now), row, r, ligatures, column, glyphs, marks) ==>
                CellsDrawn(kit, a, atlas.now, row, r, ligatures, column + 1, glyphs', marks')
    {
      ghost var b := atlas.now;
      var glyph, lines := DrawCell(row, RowY(atlas.now.metrics, r), ligatures[column], column);
      glyphs', marks' := glyphs + glyph, marks + lines;
      if CellsDrawn(kit, a, b, row, r, ligatures, column, glyphs, marks) {
        CellAdded(kit, a, b, atlas.now, row, r, ligatures, column, glyphs, marks, glyph, lines);
      }
    }

    /** One pass over the rows that are marked; a row with glyphs left for later stays marked. */
    method BuildRows(padding: int)
      requires atlas.Valid() && GridOk(grid)
      requires RowsKnown(kit, atlas.now, grid, rowDirty, nodes, used, padding)
      modifies this`rowDirty, this`nodes, this`used, atlas, atlas.image
      ensures atlas.Valid() && (atlas.image == old(atlas.image) || fresh(atlas.image))
      ensures RowsDrawn(kit, old(atlas.now), atlas.now, grid, rowDirty, nodes, used, padding, grid.lines)
      ensures Backed(Rows(old(rowDirty), old(nodes), old(used)), Rows(rowDirty, nodes, used), grid.background, grid.lines)
    {
      ghost var a, was := atlas.now, Rows(rowDirty, nodes, used);
      RowsStart(kit, a, grid, rowDirty, nodes, used, padding);
      for r := 0 to grid.lines
        invariant atlas.Valid() && (atlas.image == old(atlas.image) || fresh(atlas.image))
        invariant RowsDrawn(kit, a, atlas.now, grid, rowDirty, nodes, used, padding, r)
        invariant Backed(was, Rows(rowDirty, nodes, used), grid.background, r)
      {
        NextRow(padding, r, a, was);
      }
    }

    /** Draws a row if it is marked. */
    method NextRow(padding: int, r: nat, ghost a: View, ghost was: Rows)
      requires atlas.Valid() && GridOk(grid) && r < grid.lines
      requires RowsDrawn(kit, a, atlas.now, grid, rowDirty, nodes, used, padding, r)
      requires Backed(was, Rows(rowDirty, nodes, used), grid.background, r)
      modifies this`rowDirty, this`nodes, this`used, atlas, atlas.image
      ensures atlas.Valid() && (atlas.image == old(atlas.image) || fresh(atlas.image))
      ensures RowsDrawn(kit, a, atlas.now, grid, rowDirty, nodes, used, padding, r + 1)
      ensures Backed(was, Rows(rowDirty, nodes, used), grid.background, r + 1)
    {
      ghost var b, d, n, u := atlas.now, rowDirty, nodes, used;
      if rowDirty[r] {
        var deferredBefore := atlas.now.deferred;
        BuildRow(r, padding);
        rowDirty := rowDirty[r := atlas.now.deferred > deferredBefore];
      }
      RowsGoOn(kit, a, b, atlas.now, grid, d, n, u, rowDirty, nodes, used, padding, r);
      BackedMore(was, Rows(d, n, u), Rows(rowDirty, nodes, used), grid.background, r);
    }

    /** Draws the cursor and the preedit. */
    method BuildOverlay(input: Input)
      requires atlas.Valid() && GridOk(grid)
      modifies this`overlay, atlas, atlas.image
      ensures atlas.Valid() && (atlas.image == old(atlas.image) || fresh(atlas.image))
      ensures OverlayBuilt(old(atlas.now), atlas.now, OverlayItems(input, grid), overlay, input.padding)
    {
      ghost var a := atlas.now;
      var items := OverlayItems(input, grid);
      var quads := DrawItems(items);
      overlay := Written(quads, atlas.now.size, input.padding, NO_BACK);
      OverlayIsBuilt(a, atlas.now, items, quads, input.padding);
    }

    method DrawItems(items: seq<Item>) returns (quads: seq<Quad>)
      requires atlas.Valid()
      modifies atlas, atlas.image
      ensures atlas.Valid() && (atlas.image == old(atlas.image) || fresh(atlas.image))
      ensures AllResolved(old(atlas.now), atlas.now, items, quads)
    {
      quads := [];
      ghost var a := atlas.now;
      NothingResolved(a);
      for i := 0 to |items|
        invariant atlas.Valid() && (atlas.image == old(atlas.image) || fresh(atlas.image))
        invariant AllResolved(a, atlas.now, items[..i], quads)
      {
        assert items[..i + 1] == items[..i] + [items[i]];
        quads := DrawNextItem(items[..i], items[i], quads, a);
      }
      assert items[..|items|] == items;
    }

    method DrawNextItem(ghost before: seq<Item>, item: Item, quads: seq<Quad>, ghost a: View) returns (quads': seq<Quad>)
      requires atlas.Valid()
      modifies atlas, atlas.image
      ensures atlas.Valid() && (atlas.image == old(atlas.image) || fresh(atlas.image))
      ensures AllResolved(a, old(atlas.now), before, quads) ==>
                AllResolved(a, atlas.now, before + [item], quads')
    {
      ghost var b := atlas.now;
      var more := DrawItem(item);
      quads' := quads + more;
      if AllResolved(a, b, before, quads) {
        ResolvedMore(a, b, atlas.now, before, quads, item, more);
      }
    }

    /** One pass: the marked rows, then the overlay. */
    method Pass(input: Input)
      requires atlas.Valid() && GridOk(grid)
      requires RowsKnown(kit, atlas.now, grid, rowDirty, nodes, used, input.padding)
      modifies this`rowDirty, this`nodes, this`used, this`overlay, atlas, atlas.image
      ensures atlas.Valid() && (atlas.image == old(atlas.image) || fresh(atlas.image))
      ensures Passed(kit, old(atlas.now), atlas.now, grid, rowDirty, nodes, used, overlay,
                     OverlayItems(input, grid), input.padding)
      ensures Backed(Rows(old(rowDirty), old(nodes), old(used)), Rows(rowDirty, nodes, used), grid.background, grid.lines)
    {
      ghost var a := atlas.now;
      BuildRows(input.padding);
      ghost var b := atlas.now;
      BuildOverlay(input);
      PassEnds(kit, a, b, atlas.now, grid, rowDirty, nodes, used, overlay, OverlayItems(input, grid),
               input.padding);
    }

    /** Passes until the atlas stays where it was: the second at the latest. */
    method Rebuild(input: Input) returns (passes: nat)
      requires atlas.Valid() && GridOk(grid) && !atlas.now.cleared && atlas.now.metrics == input.metrics
      requires RowsKnown(kit, atlas.now, grid, rowDirty, nodes, used, input.padding)
      modifies this`rowDirty, this`nodes, this`used, this`overlay, this`builtGeneration, atlas, atlas.image
      ensures atlas.Valid() && (atlas.image == old(atlas.image) || fresh(atlas.image))
      ensures Advance(old(atlas.now), atlas.now)
      ensures OnlyFor(old(atlas.now), atlas.now, WantedKeys(input), WantedRuns(input))
      ensures 1 <= passes <= 2 && builtGeneration == atlas.now.generation
      ensures UpToDate(kit, atlas.now, grid, rowDirty, nodes, used, overlay,
                       OverlayItems(input, grid), input.padding)
      ensures OnBackground(old(rowDirty), old(used), used, grid.background)
      ensures passes == 1 ==> Undisturbed(Rows(old(rowDirty), old(nodes), old(used)), Rows(rowDirty, nodes, used))
    {
      ghost var start, first := atlas.now, Rows(rowDirty, nodes, used);
      StayingIsAdvance(start);
      var generation := atlas.now.generation;
      passes := 0;
      for pass := 0 to 3
        invariant passes == pass <= 1
        invariant atlas.Valid() && (atlas.image == old(atlas.image) || fresh(atlas.image))
        invariant RowsKnown(kit, atlas.now, grid, rowDirty, nodes, used, input.padding)
        invariant Advance(start, atlas.now) && OnlyFor(start, atlas.now, WantedKeys(input), WantedRuns(input))
        invariant pass == 1 ==> Steady(kit, atlas.now, grid, OverlayItems(input, grid))
        invariant if pass == 0 then Rows(rowDirty, nodes, used) == first else AllMarked(rowDirty)
      {
        generation := atlas.now.generation;
        var moved := PassOnce(input, pass, start, first);
        passes := passes + 1;
        if !moved {
          break;
        }
        rowDirty := seq(grid.lines, _ => true);
      }
      builtGeneration := generation;
    }

    ghost function WantedKeys(input: Input): set<Key>
      reads this`grid
      requires GridOk(grid)
    {
      FrameKeys(kit, input.metrics, grid, OverlayItems(input, grid))
    }

    ghost function WantedRuns(input: Input): set<Shaping>
      reads this`grid
    {
      GridRuns(input.metrics, grid)
    }

    /** A pass, and whether it moved the atlas. */
    method PassOnce(input: Input, pass: nat, ghost start: View, ghost first: Rows)
        returns (moved: bool)
      requires atlas.Valid() && GridOk(grid) && pass <= 1 && start.metrics == input.metrics
      requires RowsKnown(kit, atlas.now, grid, rowDirty, nodes, used, input.padding)
      requires Advance(start, atlas.now) && OnlyFor(start, atlas.now, WantedKeys(input), WantedRuns(input))
      requires pass == 1 ==> Steady(kit, atlas.now, grid, OverlayItems(input, grid))
      requires if pass == 0 then Rows(rowDirty, nodes, used) == first else AllMarked(rowDirty)
      modifies this`rowDirty, this`nodes, this`used, this`overlay, atlas, atlas.image
      ensures atlas.Valid() && (atlas.image == old(atlas.image) || fresh(atlas.image))
      ensures Advance(start, atlas.now) && OnlyFor(start, atlas.now, WantedKeys(input), WantedRuns(input))
      ensures OnBackground(first.dirty, first.used, used, grid.background)
      ensures pass == 0 ==> Undisturbed(first, Rows(rowDirty, nodes, used))
      ensures moved == (atlas.now.generation != old(atlas.now).generation) && (moved ==> pass == 0)
      ensures !moved ==> UpToDate(kit, atlas.now, grid, rowDirty, nodes, used, overlay, OverlayItems(input, grid),
                                  input.padding)
      ensures moved ==> Steady(kit, atlas.now, grid, OverlayItems(input, grid))
      ensures |nodes| == |used| == grid.lines
    {
      ghost var a, was, items := atlas.now, Rows(rowDirty, nodes, used), OverlayItems(input, grid);
      var generation := atlas.now.generation;
      Pass(input);
      AfterPass(kit, start, a, atlas.now, grid, pass, first, was, Rows(rowDirty, nodes, used), overlay, items,
                input.padding);
      moved := atlas.now.generation != generation;
    }

    /** New metrics start the atlas again. */
    method UseMetrics(metrics: Metrics)
      requires Valid()
      modifies this`builtMetrics, atlas, atlas.image
      ensures Valid() && (atlas.image == old(atlas.image) || fresh(atlas.image))
      ensures builtMetrics == atlas.now.metrics == metrics && Redrawn(old(atlas.now), atlas.now)
      ensures metrics == old(builtMetrics) ==> atlas.now == old(atlas.now)
    {
      if metrics != builtMetrics {
        builtMetrics := metrics;
        atlas.Reset(metrics);
      }
    }

    /** As many row nodes as lines; new ones are empty. */
    method EnsureRowNodes()
      modifies this`nodes, this`used
      ensures |nodes| == |used| == grid.lines
      ensures forall r :: 0 <= r < grid.lines && r < |old(nodes)| ==> nodes[r] == old(nodes)[r]
      ensures forall r :: 0 <= r < grid.lines && r < |old(used)| ==> used[r] == old(used)[r]
    {
      nodes := seq(grid.lines, r requires 0 <= r < grid.lines reads this =>
                     if r < |nodes| then nodes[r] else Node([], 0, 0, NO_BACK));
      used := seq(grid.lines, r requires 0 <= r < grid.lines reads this =>
                    if r < |used| then used[r] else Used([], 0));
    }

    /** Gets ready for the passes: unmarked rows are known to be shown whole. */
    method Prepare(input: Input)
      requires Valid()
      modifies this`builtMetrics, this`builtPadding, this`rowDirty, this`nodes, this`used, atlas, atlas.image
      ensures atlas.Valid() && (atlas.image == old(atlas.image) || fresh(atlas.image))
      ensures !atlas.now.cleared && builtMetrics == atlas.now.metrics == input.metrics
      ensures builtGeneration <= atlas.now.generation && builtPadding == input.padding
      ensures RowsKnown(kit, atlas.now, grid, rowDirty, nodes, used, input.padding)
      ensures Redrawn(old(atlas.now), atlas.now)
      ensures StillDrawn(Rows(old(rowDirty), old(nodes), old(used)), Rows(rowDirty, nodes, used))
      ensures atlas.now.deferred == 0
      ensures NothingNew(input, old(builtMetrics), old(builtGeneration), old(atlas.now).generation, old(builtPadding)) ==>
                rowDirty == old(rowDirty)
      ensures input.metrics == old(builtMetrics) ==> FrameBegins(old(atlas.now), atlas.now)
    {
      UseMetrics(input.metrics);
      ghost var v := atlas.now;
      atlas.BeginFrame();
      EnsureRowNodes();
      if atlas.now.generation != builtGeneration || input.padding != builtPadding {
        rowDirty := seq(grid.lines, _ => true);
        builtPadding := input.padding;
      }
      forall r | 0 <= r < grid.lines && !rowDirty[r]
        ensures Whole(kit, atlas.now, grid.rows[r], r, nodes[r], used[r], input.padding)
      {
        WholeNextFrame(kit, v, atlas.now, grid.rows[r], r, nodes[r], used[r], input.padding);
      }
    }

    /** Brings the nodes up to date with the grid. */
    method SyncNodes(input: Input) returns (passes: nat)
      requires Valid() && Active(input)
      modifies this`builtMetrics, this`builtPadding, this`builtGeneration, this`rowDirty, this`nodes,
               this`used, this`overlay, atlas, atlas.image
      ensures Valid() && (atlas.image == old(atlas.image) || fresh(atlas.image))
      ensures 1 <= passes <= 2 && builtGeneration == atlas.now.generation
      ensures atlas.now.metrics == input.metrics && builtPadding == input.padding
      ensures UpToDate(kit, atlas.now, grid, rowDirty, nodes, used, overlay, OverlayItems(input, grid),
                       input.padding)
      ensures Redrawn(old(atlas.now), atlas.now) && OnBackground(old(rowDirty), old(used), used, grid.background)
      ensures (atlas.now.deferred > 0 ==> Spent(atlas.now)) && (atlas.now.cleared ==> Frozen(atlas.now))
      ensures passes == 1 &&
              NothingNew(input, old(builtMetrics), old(builtGeneration), old(atlas.now).generation, old(builtPadding)) ==>
                Undisturbed(Rows(old(rowDirty), old(nodes), old(used)), Rows(rowDirty, nodes, used))
      ensures input.metrics == old(builtMetrics) ==>
                FrameFills(kit, old(atlas.now), atlas.now, grid, OverlayItems(input, grid))
    {
      ghost var a, was := atlas.now, Rows(rowDirty, nodes, used);
      Prepare(input);
      ghost var b, mid := atlas.now, Rows(rowDirty, nodes, used);
      passes := Rebuild(input);
      StillOnBackground(was, mid, Rows(rowDirty, nodes, used), grid.background);
      if FrameBegins(a, b) {
        FrameHasFilled(kit, a, b, atlas.now, grid, OverlayItems(input, grid));
      }
    }

    /** Makes the texture equal to the image, if it isn't known to be. */
    method UploadAtlas() returns (ok: bool)
      requires atlas.Valid() && TextureRight()
      modifies this`texture, atlas`now
      ensures atlas.Valid() && TextureRight()
      ensures atlas.now == old(atlas.now).(dirty := atlas.now.dirty)
      ensures ok ==> texture != null && !atlas.now.dirty
      ensures !ok ==> texture == old(texture)
    {
      if texture != null && !atlas.now.dirty {
        return true;
      }
      ok := *;
      if ok {
        var n, image := atlas.now.size, atlas.image;
        texture := new Pixel[n, n]((i, j) requires 0 <= i < n && 0 <= j < n && n == image.Length0 == image.Length1
                                     reads image => image[i, j]);
        atlas.MarkClean();
      }
    }

    /** A frame: the nodes follow the grid, and the texture the atlas. Without
        text to draw, everything stays as it was. */
    method Sync(input: Input) returns (passes: nat, uploaded: bool)
      requires Valid() && TextureRight()
      modifies this`builtMetrics, this`builtPadding, this`builtGeneration, this`rowDirty, this`nodes,
               this`used, this`overlay, this`texture, atlas, atlas.image
      ensures Valid() && TextureRight()
      ensures !Active(input) ==> passes == 0 && atlas.now == old(atlas.now) && nodes == old(nodes)
      ensures Active(input) ==> 1 <= passes <= 2 && builtGeneration == atlas.now.generation
      ensures Active(input) ==> UpToDate(kit, atlas.now, grid, rowDirty, nodes, used, overlay,
                                         OverlayItems(input, grid), input.padding)
      ensures Active(input) ==> OnBackground(old(rowDirty), old(used), used, grid.background)
      ensures Active(input) ==>
                (atlas.now.deferred > 0 ==> Spent(atlas.now)) && (atlas.now.cleared ==> Frozen(atlas.now))
      ensures passes == 1 &&
              NothingNew(input, old(builtMetrics), old(builtGeneration), old(atlas.now).generation, old(builtPadding)) ==>
                Undisturbed(Rows(old(rowDirty), old(nodes), old(used)), Rows(rowDirty, nodes, used))
      ensures Active(input) && atlas.now.size > 0 ==>
                Displayed(kit, atlas.now, grid, rowDirty, nodes, overlay, OverlayItems(input, grid))
      ensures Active(input) && input.metrics == old(builtMetrics) ==>
                FrameFills(kit, old(atlas.now), atlas.now, grid, OverlayItems(input, grid))
      ensures uploaded ==> texture != null && TextureShows(texture, atlas.now)
    {
      passes, uploaded := 0, false;
      if Active(input) {
        passes := SyncNodes(input);
        ghost var v := atlas.now;
        uploaded := UploadAtlas();
        StillUpToDate(kit, v, atlas.now, grid, rowDirty, nodes, used, overlay, OverlayItems(input, grid),
                      input.padding);
        if atlas.now.size > 0 {
          UpToDateIsDisplayed(kit, atlas.now, grid, rowDirty, nodes, used, overlay, OverlayItems(input, grid),
                              input.padding);
        }
      }
    }

    /** Copies a frame into the grid and marks the rows it changes; invalid data is ignored. */
    method ApplyFrame(f: Frame, requestedColumns: int, requestedLines: int, requestedFull: bool)
      requires Valid()
      modifies this`grid, this`rowDirty
      ensures Valid()
      ensures !Usable(f) ==> grid == old(grid) && rowDirty == old(rowDirty)
      ensures Usable(f) ==> FrameApplied(old(grid), old(rowDirty), f, grid, rowDirty)
      ensures Usable(f) ==> grid.fullColumns == if requestedFull then requestedColumns else old(grid).fullColumns
      ensures Usable(f) ==> grid.fullLines == if requestedFull then requestedLines else old(grid).fullLines
    {
      if !Usable(f) {
        return;
      }
      ghost var g, d := grid, rowDirty;
      var rows, marked := CopyRows(grid, rowDirty, f);
      grid := Grid(f.columns, f.lines, rows, f.cursor, f.background, true,
                   if requestedFull then requestedColumns else grid.fullColumns,
                   if requestedFull then requestedLines else grid.fullLines);
      rowDirty := marked;
      forall r | 0 <= r < grid.lines && !rowDirty[r]
        ensures !StartsOver(g, f) && !d[r] && grid.rows[r] == g.rows[r]
      {
        assert RowApplied(BaseRows(g, f)[r], BaseDirty(g, d, f)[r], f, RowCount(f), r, rows[r], marked[r]);
      }
    }
  }

  /** Whether text is drawn at all. */
  predicate Active(input: Input) {
    !input.software && input.metrics.Valid()
  }

  /** The texels of a texture are those of the image of `v`. */
  ghost predicate TextureShows(t: array2<Pixel>, v: View)
    reads t
  {
    && t.Length0 == t.Length1 == v.size
    && forall x, y :: 0 <= x < v.size && 0 <= y < v.size ==> t[y, x] == Painted(v.live, x, y)
  }

  ghost predicate FrameBegins(a: View, b: View) { b == a.(cleared := false, frameNs := 0, deferred := 0) }

  /** A frame that leaves something for later, and in which nothing was dropped, leaves less to add of
      what the grid needs. */
  ghost predicate FrameFills(kit: Toolkit, a: View, b: View, g: Grid, items: seq<Item>) {
    b.deferred > 0 && !b.cleared && b.flushes == a.flushes ==>
      Missing(b, FrameKeys(kit, b.metrics, g, items), GridRuns(b.metrics, g)) <
      Missing(a, FrameKeys(kit, b.metrics, g, items), GridRuns(b.metrics, g))
  }

  lemma FrameHasFilled(kit: Toolkit, a: View, b: View, c: View, g: Grid, items: seq<Item>)
    requires FrameBegins(a, b) && Advance(b, c)
    requires OnlyFor(b, c, FrameKeys(kit, c.metrics, g, items), GridRuns(c.metrics, g))
    ensures FrameFills(kit, a, c, g, items)
  {
    if c.deferred > 0 && NothingDropped(b, c) {
      FewerMissing(b, c, FrameKeys(kit, c.metrics, g, items), GridRuns(c.metrics, g));
    }
  }

  /** So with an unchanged grid only so many frames in a row leave something for later: after at most as
      many as glyphs and runs are missing, every row is shown whole (see `UpToDate`). */
  lemma {:induction false} FramesRunOut(kit: Toolkit, views: seq<View>, m: Metrics, g: Grid, items: seq<Item>)
    requires views != [] && forall i :: 0 <= i < |views| ==> views[i].metrics == m
    requires forall i :: 0 < i < |views| ==> FrameFills(kit, views[i - 1], views[i], g, items)
    requires forall i :: 0 < i < |views| ==>
               views[i].deferred > 0 && !views[i].cleared && views[i].flushes == views[i - 1].flushes
    ensures |views| - 1 <= Missing(views[0], FrameKeys(kit, m, g, items), GridRuns(m, g))
  {
    var n := |views| - 1;
    if n > 0 {
      var rest := views[1..];
      forall i | 0 < i < |rest|
        ensures FrameFills(kit, rest[i - 1], rest[i], g, items)
        ensures rest[i].deferred > 0 && !rest[i].cleared && rest[i].flushes == rest[i - 1].flushes
      {
        assert rest[i] == views[i + 1] && rest[i - 1] == views[i];
      }
      FramesRunOut(kit, rest, m, g, items);
      assert FrameFills(kit, views[0], views[1], g, items);
    }
  }

  /** Nothing asks for every row to be drawn again: not the metrics, the padding, or an atlas that moved. */
  predicate NothingNew(input: Input, metrics: Metrics, built: int, generation: int, padding: int) {
    input.metrics == metrics && built == generation && input.padding == padding
  }

  /** Rows that aren't marked weren't before, and are drawn as they were. */
  ghost predicate StillDrawn(was: Rows, now: Rows) {
    && SameSize(now)
    && forall r :: 0 <= r < |now.dirty| && !now.dirty[r] ==>
         && r < |was.dirty| && r < |was.nodes| && r < |was.used| && !was.dirty[r]
         && now.nodes[r] == was.nodes[r] && now.used[r] == was.used[r]
  }

  lemma StillOnBackground(was: Rows, mid: Rows, now: Rows, background: nat)
    requires StillDrawn(was, mid) && OnBackground(mid.dirty, mid.used, now.used, background)
    ensures OnBackground(was.dirty, was.used, now.used, background)
    ensures mid.dirty == was.dirty && Undisturbed(mid, now) ==> Undisturbed(was, now)
  {
  }

  ghost predicate Redrawn(a: View, b: View) {
    b.dirty || (!a.dirty && b.live == a.live && b.size == a.size)
  }

  lemma StillUpToDate(kit: Toolkit, a: View, b: View, g: Grid, dirty: seq<bool>, nodes: seq<Node>,
                      used: seq<Used>, overlay: Node, items: seq<Item>, padding: int)
    requires b == a.(dirty := b.dirty)
    requires UpToDate(kit, a, g, dirty, nodes, used, overlay, items, padding)
    ensures UpToDate(kit, b, g, dirty, nodes, used, overlay, items, padding)
  {
    SameGlyphsSameQuads(a, b, items);
    forall r | 0 <= r < |g.rows|
      ensures Draws(kit, b, g.rows[r], r, nodes[r], used[r], padding)
    {
      SameGlyphsSameQuads(a, b, RowItems(kit, a.metrics, g.rows[r], RowY(a.metrics, r), used[r].ligatures));
    }
  }

  /** What the grid is after a frame. */
  ghost predicate FrameApplied(before: Grid, wasDirty: seq<bool>, f: Frame, after: Grid, dirty: seq<bool>)
    requires GridOk(before) && |wasDirty| == before.lines && f.columns > 0 && f.lines > 0
  {
    && after.columns == f.columns && after.lines == f.lines == |after.rows| == |dirty|
    && after.cursor == f.cursor && after.background == f.background && after.hasFrame
    && forall r :: 0 <= r < f.lines ==>
         RowApplied(BaseRows(before, f)[r], BaseDirty(before, wasDirty, f)[r], f, RowCount(f), r,
                    after.rows[r], dirty[r])
  }

  lemma {:induction false} SameGlyphsSameQuads(a: View, b: View, items: seq<Item>)
    requires b.glyphs == a.glyphs && b.solid == a.solid && b.curly == a.curly
    ensures Quads(b, items) == Quads(a, items)
  {
    if items != [] {
      SameGlyphsSameQuads(a, b, items[..|items| - 1]);
    }
  }

  lemma WholeNextFrame(kit: Toolkit, a: View, b: View, row: Row, r: int, node: Node, used: Used,
                       padding: int)
    requires b == a.(cleared := false, frameNs := 0, deferred := 0)
    requires Whole(kit, a, row, r, node, used, padding)
    ensures Whole(kit, b, row, r, node, used, padding)
  {
    SameGlyphsSameQuads(a, b, FullItems(kit, a.metrics, row, r));
  }

  ghost predicate OverlayBuilt(a: View, b: View, items: seq<Item>, node: Node, padding: int) {
    && Advance(a, b) && OnlyFor(a, b, KeysOf(items), {})
    && (b.cleared == a.cleared ==> Ready(b, items))
    && (b.cleared == a.cleared && b.deferred == a.deferred ==> Cached(b, items))
    && (b.generation == a.generation ==> node == NodeOf(b, items, padding, NO_BACK))
    && (Ready(a, items) ==> b.generation == a.generation)
  }

  lemma OverlayIsBuilt(a: View, b: View, items: seq<Item>, quads: seq<Quad>, padding: int)
    requires AllResolved(a, b, items, quads)
    ensures OverlayBuilt(a, b, items, Written(quads, b.size, padding, NO_BACK), padding)
  {
  }

  /** Every glyph that a frame may ask for. */
  ghost function FrameKeys(kit: Toolkit, m: Metrics, g: Grid, items: seq<Item>): set<Key> {
    GridKeys(kit, m, g) + KeysOf(items)
  }

  /** A whole pass, from `a` to `v`. */
  ghost predicate Passed(kit: Toolkit, a: View, v: View, g: Grid, dirty: seq<bool>, nodes: seq<Node>,
                         used: seq<Used>, overlay: Node, items: seq<Item>, padding: int) {
    && Advance(a, v) && OnlyFor(a, v, FrameKeys(kit, a.metrics, g, items), GridRuns(a.metrics, g))
    && |dirty| == |nodes| == |used| == |g.rows|
    && (AllReady(kit, a, g) && Ready(a, items) ==> v.generation == a.generation)
    && (forall r :: 0 <= r < |g.rows| ==>
          RowDrawn(kit, a, v, g.rows[r], r, dirty[r], nodes[r], used[r], padding, true))
    && (v.cleared == a.cleared ==> Ready(v, items))
    && (v.generation == a.generation ==>
          overlay == NodeOf(v, items, padding, NO_BACK) && (Cached(v, items) || v.deferred > 0))
  }

  lemma PassEnds(kit: Toolkit, a: View, b: View, c: View, g: Grid, dirty: seq<bool>, nodes: seq<Node>,
                 used: seq<Used>, overlay: Node, items: seq<Item>, padding: int)
    requires RowsDrawn(kit, a, b, g, dirty, nodes, used, padding, |g.rows|)
    requires OverlayBuilt(b, c, items, overlay, padding)
    ensures Passed(kit, a, c, g, dirty, nodes, used, overlay, items, padding)
  {
    AdvanceComposes(a, b, c);
    forall r | 0 <= r < |g.rows|
      ensures RowDrawn(kit, a, c, g.rows[r], r, dirty[r], nodes[r], used[r], padding, true)
    {
      RowStaysDrawn(kit, a, b, c, g.rows[r], r, dirty[r], nodes[r], used[r], padding, true);
    }
    if Ready(a, items) && b.generation == a.generation {
      ReadyStays(a, b, items);
    }
  }

  /** Of the first `n` rows those that were marked were drawn on this background; the others, and
      their marks, are as they were. */
  ghost predicate Backed(was: Rows, now: Rows, background: nat, n: nat) {
    && SameSize(was) && SameSize(now) && |was.dirty| == |now.dirty|
    && forall r :: 0 <= r < |now.dirty| ==>
         && (if r < n && was.dirty[r] then now.used[r].background == background
             else now.used[r] == was.used[r] && now.nodes[r] == was.nodes[r])
         && (r >= n ==> now.dirty[r] == was.dirty[r])
  }

  /** The rows: their marks, their nodes, and what they were drawn with. */
  datatype Rows = Rows(dirty: seq<bool>, nodes: seq<Node>, used: seq<Used>)

  predicate SameSize(rows: Rows) { |rows.dirty| == |rows.nodes| == |rows.used| }

  lemma BackedMore(was: Rows, before: Rows, now: Rows, background: nat, r: nat)
    requires Backed(was, before, background, r) && r < |before.dirty| && SameSize(now) && |now.dirty| == |before.dirty|
    requires if before.dirty[r] then
               && now.dirty == before.dirty[r := now.dirty[r]] && now.used == before.used[r := now.used[r]]
               && now.nodes == before.nodes[r := now.nodes[r]] && now.used[r].background == background
             else now == before
    ensures Backed(was, now, background, r + 1)
  {
  }

  /** Rows that weren't marked are drawn as they were. */
  ghost predicate Undisturbed(was: Rows, now: Rows) {
    forall r :: 0 <= r < |was.dirty| && !was.dirty[r] ==>
      && r < |was.nodes| && r < |was.used| && r < |now.nodes| && r < |now.used|
      && now.nodes[r] == was.nodes[r] && now.used[r] == was.used[r]
  }

  predicate AllMarked(dirty: seq<bool>) { forall r :: 0 <= r < |dirty| ==> dirty[r] }

  /** Every row was drawn on this background, but for rows that weren't marked: those may still be
      on the one they were drawn on before. */
  ghost predicate OnBackground(d0: seq<bool>, u0: seq<Used>, used: seq<Used>, background: nat) {
    forall r :: 0 <= r < |used| ==>
      || used[r].background == background
      || (r < |d0| && r < |u0| && !d0[r] && used[r].background == u0[r].background)
  }

  lemma BackedIsOnBackground(was: Rows, now: Rows, background: nat, first: Rows)
    requires Backed(was, now, background, |now.dirty|) && (was == first || AllMarked(was.dirty))
    ensures OnBackground(first.dirty, first.used, now.used, background)
    ensures was == first ==> Undisturbed(first, now)
  {
  }

  /** What a pass concludes: the last one, or the atlas moved, for the last time. */
  lemma AfterPass(kit: Toolkit, start: View, a: View, v: View, g: Grid, pass: nat, first: Rows, was: Rows, now: Rows,
                  overlay: Node, items: seq<Item>, padding: int)
    requires Passed(kit, a, v, g, now.dirty, now.nodes, now.used, overlay, items, padding)
    requires Backed(was, now, g.background, |g.rows|) && pass <= 1 && (pass == 1 ==> Steady(kit, a, g, items))
    requires if pass == 0 then was == first else AllMarked(was.dirty)
    requires Advance(start, a)
    requires OnlyFor(start, a, FrameKeys(kit, start.metrics, g, items), GridRuns(start.metrics, g))
    ensures Advance(start, v)
    ensures OnlyFor(start, v, FrameKeys(kit, start.metrics, g, items), GridRuns(start.metrics, g))
    ensures OnBackground(first.dirty, first.used, now.used, g.background) && (pass == 0 ==> Undisturbed(first, now))
    ensures v.generation == a.generation ==> UpToDate(kit, v, g, now.dirty, now.nodes, now.used, overlay, items, padding)
    ensures v.generation != a.generation ==> pass == 0 && Steady(kit, v, g, items)
  {
    BackedIsOnBackground(was, now, g.background, first);
    AdvanceComposes(start, a, v);
    OnlyForBoth(start, a, v, FrameKeys(kit, start.metrics, g, items), GridRuns(start.metrics, g));
    if v.generation == a.generation {
      PassIsLast(kit, a, v, g, now.dirty, now.nodes, now.used, overlay, items, padding);
    } else {
      if pass == 1 {
        SteadyPass(kit, a, v, g, now.dirty, now.nodes, now.used, overlay, items, padding);
      }
      BecomesSteady(kit, a, v, g, now.dirty, now.nodes, now.used, overlay, items, padding);
    }
  }

  /** A row that isn't drawn again for a new frame background is right exactly if the columns that
      decide its stripes have neither the old nor the new one as a visible background. */
  lemma BackStaysRight(kit: Toolkit, v: View, row: Row, r: int, node: Node, used: Used, padding: int, background: nat)
    requires Draws(kit, v, row, r, node, used, padding)
    ensures node.back == BackOf(v.metrics, row, RowY(v.metrics, r), background) <==>
            || used.background == background
            || forall k :: 0 <= k < Decisive(row.cells, used.background, background) && Visible(row.cells[k].bg) ==>
                 row.cells[k].bg != used.background && row.cells[k].bg != background
  {
    StripesStayRight(row.cells, used.background, background);
  }

  /** Another pass this frame can't move the atlas. */
  ghost predicate Steady(kit: Toolkit, v: View, g: Grid, items: seq<Item>) {
    Frozen(v) || (AllReady(kit, v, g) && Ready(v, items))
  }

  /** After a pass that moved the atlas, the next one won't. */
  lemma BecomesSteady(kit: Toolkit, a: View, v: View, g: Grid, dirty: seq<bool>, nodes: seq<Node>,
                      used: seq<Used>, overlay: Node, items: seq<Item>, padding: int)
    requires Passed(kit, a, v, g, dirty, nodes, used, overlay, items, padding)
    ensures Steady(kit, v, g, items)
  {
    if v.cleared == a.cleared {
      forall r | 0 <= r < |g.rows|
        ensures Ready(v, FullItems(kit, v.metrics, g.rows[r], r))
      {
        assert RowDrawn(kit, a, v, g.rows[r], r, dirty[r], nodes[r], used[r], padding, true);
      }
    }
  }

  lemma SteadyPass(kit: Toolkit, a: View, v: View, g: Grid, dirty: seq<bool>, nodes: seq<Node>,
                   used: seq<Used>, overlay: Node, items: seq<Item>, padding: int)
    requires Steady(kit, a, g, items) && Passed(kit, a, v, g, dirty, nodes, used, overlay, items, padding)
    ensures v.generation == a.generation
  {
  }

  /** Every node shows its row with the glyphs of the atlas as it is: whole, unless glyphs are left
      for a later frame, which then draws it again. The overlay shows the cursor and the preedit. */
  ghost predicate UpToDate(kit: Toolkit, v: View, g: Grid, dirty: seq<bool>, nodes: seq<Node>,
                           used: seq<Used>, overlay: Node, items: seq<Item>, padding: int) {
    && |dirty| == |nodes| == |used| == |g.rows|
    && (forall r :: 0 <= r < |g.rows| ==> Draws(kit, v, g.rows[r], r, nodes[r], used[r], padding))
    && (forall r :: 0 <= r < |g.rows| ==>
          if dirty[r] then v.deferred > 0 else Whole(kit, v, g.rows[r], r, nodes[r], used[r], padding))
    && overlay == NodeOf(v, items, padding, NO_BACK) && (Cached(v, items) || v.deferred > 0)
  }

  lemma PassIsLast(kit: Toolkit, a: View, v: View, g: Grid, dirty: seq<bool>, nodes: seq<Node>,
                   used: seq<Used>, overlay: Node, items: seq<Item>, padding: int)
    requires Passed(kit, a, v, g, dirty, nodes, used, overlay, items, padding)
    requires v.generation == a.generation
    ensures UpToDate(kit, v, g, dirty, nodes, used, overlay, items, padding)
  {
    forall r | 0 <= r < |g.rows|
      ensures Draws(kit, v, g.rows[r], r, nodes[r], used[r], padding)
      ensures if dirty[r] then v.deferred > 0 else Whole(kit, v, g.rows[r], r, nodes[r], used[r], padding)
    {
      assert RowDrawn(kit, a, v, g.rows[r], r, dirty[r], nodes[r], used[r], padding, true);
    }
  }

  /** Before a pass: every unmarked row is shown whole. */
  ghost predicate RowsKnown(kit: Toolkit, v: View, g: Grid, dirty: seq<bool>, nodes: seq<Node>,
                            used: seq<Used>, padding: int) {
    && |dirty| == |nodes| == |used| == |g.rows|
    && forall r :: 0 <= r < |g.rows| && !dirty[r] ==>
         Whole(kit, v, g.rows[r], r, nodes[r], used[r], padding)
  }

  ghost predicate AllReady(kit: Toolkit, v: View, g: Grid) {
    forall r :: 0 <= r < |g.rows| ==> Ready(v, FullItems(kit, v.metrics, g.rows[r], r))
  }

  /** What a pass that started at `a` and reached `v` knows of a row (`done`: the pass is past it). */
  ghost predicate RowDrawn(kit: Toolkit, a: View, v: View, row: Row, r: int, dirty: bool, node: Node,
                           used: Used, padding: int, done: bool) {
    && (v.generation == a.generation && !dirty ==> Whole(kit, v, row, r, node, used, padding))
    && (v.generation == a.generation && done ==> Settled(kit, v, row, r, node, used, padding))
    && (done && dirty ==> v.deferred > 0)
    && (v.cleared == a.cleared && (done || !dirty) ==> Ready(v, FullItems(kit, v.metrics, row, r)))
  }

  ghost predicate RowsDrawn(kit: Toolkit, a: View, v: View, g: Grid, dirty: seq<bool>, nodes: seq<Node>,
                            used: seq<Used>, padding: int, n: nat) {
    && Advance(a, v) && OnlyFor(a, v, GridKeys(kit, a.metrics, g), GridRuns(a.metrics, g))
    && |dirty| == |nodes| == |used| == |g.rows|
    && (AllReady(kit, a, g) ==> v.generation == a.generation)
    && forall r :: 0 <= r < |g.rows| ==>
         RowDrawn(kit, a, v, g.rows[r], r, dirty[r], nodes[r], used[r], padding, r < n)
  }

  lemma RowsStart(kit: Toolkit, a: View, g: Grid, dirty: seq<bool>, nodes: seq<Node>,
                  used: seq<Used>, padding: int)
    requires RowsKnown(kit, a, g, dirty, nodes, used, padding)
    ensures RowsDrawn(kit, a, a, g, dirty, nodes, used, padding, 0)
  {
    StayingIsAdvance(a);
  }

  /** A row that isn't touched stays as known, whatever the atlas does. */
  lemma RowStaysDrawn(kit: Toolkit, a: View, b: View, c: View, row: Row, r: int, dirty: bool, node: Node,
                      used: Used, padding: int, done: bool)
    requires Advance(a, b) && Advance(b, c)
    requires RowDrawn(kit, a, b, row, r, dirty, node, used, padding, done)
    ensures RowDrawn(kit, a, c, row, r, dirty, node, used, padding, done)
  {
    AdvanceComposes(a, b, c);
    if c.generation == a.generation {
      NodesStayRight(kit, b, c, row, r, node, used, padding);
    }
  }

  /** A row that was just drawn. */
  lemma RowIsDrawn(kit: Toolkit, a: View, b: View, c: View, row: Row, r: int, node: Node,
                   used: Used, padding: int)
    requires Advance(a, b) && RowBuilt(kit, b, c, row, r, node, used, padding)
    ensures RowDrawn(kit, a, c, row, r, c.deferred > b.deferred, node, used, padding, true)
  {
    AdvanceComposes(a, b, c);
  }

  /** An unmarked row that the pass leaves alone. */
  lemma RowIsSkipped(kit: Toolkit, a: View, v: View, row: Row, r: int, node: Node, used: Used,
                     padding: int)
    requires RowDrawn(kit, a, v, row, r, false, node, used, padding, false)
    ensures RowDrawn(kit, a, v, row, r, false, node, used, padding, true)
  {
  }

  lemma RowsGoOn(kit: Toolkit, a: View, b: View, c: View, g: Grid,
                 d: seq<bool>, n: seq<Node>, u: seq<Used>,
                 dirty: seq<bool>, nodes: seq<Node>, used: seq<Used>, padding: int, r: nat)
    requires r < |g.rows| && RowsDrawn(kit, a, b, g, d, n, u, padding, r)
    requires if d[r] then
               && |nodes| == |n| && |used| == |u| && nodes == n[r := nodes[r]] && used == u[r := used[r]]
               && RowBuilt(kit, b, c, g.rows[r], r, nodes[r], used[r], padding)
               && dirty == d[r := c.deferred > b.deferred]
             else c == b && dirty == d && nodes == n && used == u
    ensures RowsDrawn(kit, a, c, g, dirty, nodes, used, padding, r + 1)
  {
    if d[r] {
      RowsGoOnDrawn(kit, a, b, c, g, d, n, u, dirty, nodes, used, padding, r);
    } else {
      RowsSkipOne(kit, a, b, g, d, n, u, padding, r);
    }
  }

  lemma RowsSkipOne(kit: Toolkit, a: View, v: View, g: Grid, dirty: seq<bool>, nodes: seq<Node>,
                    used: seq<Used>, padding: int, n: nat)
    requires n < |g.rows| && RowsDrawn(kit, a, v, g, dirty, nodes, used, padding, n) && !dirty[n]
    ensures RowsDrawn(kit, a, v, g, dirty, nodes, used, padding, n + 1)
  {
    forall r | 0 <= r < |g.rows|
      ensures RowDrawn(kit, a, v, g.rows[r], r, dirty[r], nodes[r], used[r], padding, r < n + 1)
    {
      assert RowDrawn(kit, a, v, g.rows[r], r, dirty[r], nodes[r], used[r], padding, r < n);
      if r == n {
        RowIsSkipped(kit, a, v, g.rows[r], r, nodes[r], used[r], padding);
      }
    }
  }

  lemma RowsGoOnDrawn(kit: Toolkit, a: View, b: View, c: View, g: Grid,
                      d: seq<bool>, n: seq<Node>, u: seq<Used>,
                      dirty: seq<bool>, nodes: seq<Node>, used: seq<Used>, padding: int, r: nat)
    requires r < |g.rows| && RowsDrawn(kit, a, b, g, d, n, u, padding, r) && d[r]
    requires |nodes| == |n| && |used| == |u| && nodes == n[r := nodes[r]] && used == u[r := used[r]]
    requires RowBuilt(kit, b, c, g.rows[r], r, nodes[r], used[r], padding) && dirty == d[r := c.deferred > b.deferred]
    ensures RowsDrawn(kit, a, c, g, dirty, nodes, used, padding, r + 1)
  {
    AdvanceComposes(a, b, c);
    forall i | 0 <= i < |g.rows|
      ensures RowDrawn(kit, a, c, g.rows[i], i, dirty[i], nodes[i], used[i], padding, i < r + 1)
    {
      if i != r {
        RowStaysDrawn(kit, a, b, c, g.rows[i], i, d[i], n[i], u[i], padding, i < r);
      } else {
        RowIsDrawn(kit, a, b, c, g.rows[r], r, nodes[r], used[r], padding);
      }
    }
    RowInGrid(kit, a.metrics, g, r);
    if AllReady(kit, a, g) {
      ReadyStays(a, b, FullItems(kit, a.metrics, g.rows[r], r));
    }
  }

  lemma ReadyStays(a: View, b: View, items: seq<Item>)
    requires Advance(a, b) && b.cleared == a.cleared && Ready(a, items)
    ensures Ready(b, items)
  {
  }

  lemma FetchResolves(a: View, b: View, item: Item, g: Glyph)
    requires item.GlyphAt? && Fetched(a, b, item.key, g)
    ensures Resolved(a, b, item, GlyphQuads(g, item.x, item.y, item.color))
  {
    assert [item][0] == item;
  }

  ghost predicate CellDrawn(a: View, b: View, items: seq<Item>, quads: seq<Quad>)
    requires |items| <= 1
  {
    if items == [] then b == a && quads == [] else Resolved(a, b, items[0], quads)
  }

  /** The first `n` cells of a row were drawn, from `a` to `b`. */
  ghost predicate CellsDrawn(kit: Toolkit, a: View, b: View, row: Row, r: int, ligatures: seq<nat>, n: nat,
                             glyphs: seq<Quad>, marks: seq<Quad>)
    requires n <= |row.cells| == |ligatures|
  {
    exists items ::
      && AllResolved(a, b, items, glyphs) && items == RowGlyphs(a.metrics, row, RowY(a.metrics, r), ligatures, n)
      && (b.generation == a.generation ==>
            marks == Quads(b, RowMarks(kit, a.metrics, row, RowY(a.metrics, r), n)))
  }

  lemma NoCellsDrawn(kit: Toolkit, a: View, row: Row, r: int, ligatures: seq<nat>)
    requires |row.cells| == |ligatures|
    ensures CellsDrawn(kit, a, a, row, r, ligatures, 0, [], [])
  {
    NothingResolved(a);
    assert AllResolved(a, a, [], []);
  }

  lemma {:induction false} OnlyMarks(kit: Toolkit, m: Metrics, row: Row, y: int, n: nat)
    requires n <= |row.cells|
    ensures forall i :: 0 <= i < |RowMarks(kit, m, row, y, n)| ==> RowMarks(kit, m, row, y, n)[i].MarkAt?
  {
    if n > 0 {
      OnlyMarks(kit, m, row, y, n - 1);
    }
  }

  lemma CellAdded(kit: Toolkit, a: View, b: View, c: View, row: Row, r: int, ligatures: seq<nat>,
                  column: nat, glyphs: seq<Quad>, marks: seq<Quad>, glyph: seq<Quad>, lines: seq<Quad>)
    requires column < |row.cells| == |ligatures|
    requires CellsDrawn(kit, a, b, row, r, ligatures, column, glyphs, marks)
    requires CellDrawn(b, c, GlyphItems(b.metrics, row, RowY(b.metrics, r), ligatures[column], column), glyph)
    requires lines == Quads(c, MarkItems(kit, b.metrics, row, RowY(b.metrics, r), column))
    ensures CellsDrawn(kit, a, c, row, r, ligatures, column + 1, glyphs + glyph, marks + lines)
  {
    var m, y := a.metrics, RowY(a.metrics, r);
    var before := RowGlyphs(m, row, y, ligatures, column);
    var items := GlyphItems(m, row, y, ligatures[column], column);
    if items == [] {
      assert before + items == before && glyphs + glyph == glyphs;
      StayingIsAdvance(b);
    } else {
      assert items == [items[0]];
      ResolvedMore(a, b, c, before, glyphs, items[0], glyph);
    }
    if c.generation == a.generation {
      OnlyMarks(kit, m, row, y, column);
      MarksStayRight(b, c, RowMarks(kit, m, row, y, column));
      QuadsOfBoth(c, RowMarks(kit, m, row, y, column), MarkItems(kit, m, row, y, column));
    }
    assert AllResolved(a, c, before + items, glyphs + glyph);
  }

  lemma RowIsBuilt(kit: Toolkit, a: View, b: View, c: View, row: Row, r: int, ligatures: seq<nat>,
                   glyphs: seq<Quad>, marks: seq<Quad>, padding: int, background: nat)
    requires Charged(a, b) && |ligatures| == |row.cells| && FromShapes(kit, a.metrics, row.cells, ligatures)
    requires OnlyFor(a, b, {}, RunsIn(a.metrics, row.cells))
    requires b.deferred == a.deferred ==> ligatures == Ligatures(kit, a.metrics, row.cells)
    requires CellsDrawn(kit, b, c, row, r, ligatures, |row.cells|, glyphs, marks)
    ensures var back := BackOf(a.metrics, row, RowY(a.metrics, r), background);
            RowBuilt(kit, a, c, row, r, Written(glyphs + marks, c.size, padding, back), Used(ligatures, background), padding)
  {
    var m, y := a.metrics, RowY(a.metrics, r);
    var g, l := RowGlyphs(m, row, y, ligatures, |row.cells|), RowMarks(kit, m, row, y, |row.cells|);
    ChargedIsAdvance(a, b);
    AdvanceComposes(a, b, c);
    RowAsksFor(kit, m, row, y, ligatures, |row.cells|);
    OnlyMarks(kit, m, row, y, |row.cells|);
    QuadsOfBoth(c, g, l);
    CachedBoth(c, g, l);
    var full := Ligatures(kit, m, row.cells);
    var fg := RowGlyphs(m, row, y, full, |row.cells|);
    CachedBoth(a, fg, l);
    if Ready(a, FullItems(kit, m, row, r)) && !Spent(b) {
      assert b.deferred == a.deferred;
      assert Cached(b, g);
    }
  }

  lemma CachedBoth(v: View, a: seq<Item>, b: seq<Item>)
    ensures Cached(v, a + b) <==> Cached(v, a) && Cached(v, b)
  {
    if Cached(v, a + b) {
      assert forall i :: 0 <= i < |a| ==> (a + b)[i] == a[i];
      assert forall i :: 0 <= i < |b| ==> (a + b)[|a| + i] == b[i];
    }
  }

  /** The columns before `column` are done; the others are still plain. */
  ghost predicate LigaturesFound(kit: Toolkit, m: Metrics, cells: seq<Cell>, ligatures: seq<nat>,
                                 column: nat, all: bool)
    requires column <= |cells| == |ligatures|
  {
    && (forall i :: column <= i < |cells| ==> ligatures[i] == 0)
    && (all ==> LigaturesFrom(kit, m, cells, 0) ==
                ligatures[..column] + LigaturesFrom(kit, m, cells, column))
  }

  /** How far the search for ligatures got, from `a` to `v`. */
  ghost predicate Finding(kit: Toolkit, a: View, v: View, cells: seq<Cell>, ligatures: seq<nat>, column: nat) {
    && column <= |cells| == |ligatures| && Charged(a, v) && FromShapes(kit, a.metrics, cells, ligatures)
    && OnlyFor(a, v, {}, RunsIn(a.metrics, cells))
    && LigaturesFound(kit, a.metrics, cells, ligatures, column, v.deferred == a.deferred)
  }

  lemma NothingFound(kit: Toolkit, a: View, cells: seq<Cell>)
    ensures Finding(kit, a, a, cells, Zeros(|cells|), 0)
  {
    assert Zeros(|cells|)[..0] == [];
  }

  lemma ColumnFound(kit: Toolkit, a: View, v: View, cells: seq<Cell>, found: seq<nat>, column: nat)
    requires Finding(kit, a, v, cells, found, column) && column < |cells| && !Plain(cells[column])
    ensures Finding(kit, a, v, cells, found, column + 1)
  {
    NextColumn(kit, a.metrics, cells, found, column);
  }

  lemma RunFound(kit: Toolkit, a: View, b: View, c: View, cells: seq<Cell>, found: seq<nat>, ligatures: seq<nat>,
                 start: nat, end: nat, done: bool)
    requires Finding(kit, a, b, cells, found, start) && start < end <= |cells|
    requires Plain(cells[start]) && end == RunEnd(cells, start, start + 1)
    requires var run := RunOf(a.metrics, cells, start, end);
             if Candidate(cells, start, end) then
               && Shaped(b, c, Shaping(run.text, run.style), done)
               && ligatures == (if done then found[..start] + ShapeOf(kit, run) + found[end..] else found)
             else c == b && ligatures == found && done
    ensures Finding(kit, a, c, cells, ligatures, end)
  {
    RunIsFromShapes(kit, a.metrics, cells, found, start, end);
    ChargedBoth(a, b, c);
    RunDone(kit, a.metrics, cells, found, ligatures, start, end, c.deferred == a.deferred);
  }

  lemma ChargedBoth(a: View, b: View, c: View)
    requires Charged(a, b) && (c == b || Charged(b, c))
    ensures Charged(a, c)
  {
    if c != b {
      ChargedIsAdvance(a, b);
      ChargedIsAdvance(b, c);
      WorkedComposes(a, b, c);
    }
  }

  lemma NextColumn(kit: Toolkit, m: Metrics, cells: seq<Cell>, ligatures: seq<nat>, column: nat)
    requires column < |cells| == |ligatures| && !Plain(cells[column]) && ligatures[column] == 0
    ensures ligatures[..column] + LigaturesFrom(kit, m, cells, column) ==
            ligatures[..column + 1] + LigaturesFrom(kit, m, cells, column + 1)
  {
  }

  lemma NextRun(kit: Toolkit, m: Metrics, cells: seq<Cell>, before: seq<nat>, after: seq<nat>,
                column: nat, end: nat)
    requires column < end <= |cells| == |before| == |after|
    requires Plain(cells[column]) && end == RunEnd(cells, column, column + 1)
    requires forall i :: column <= i < |cells| ==> before[i] == 0
    requires after == before[..column] + RunGlyphs(kit, m, cells, column, end) + before[end..]
    ensures before[..column] + LigaturesFrom(kit, m, cells, column) ==
            after[..end] + LigaturesFrom(kit, m, cells, end)
  {
    var run, rest := RunGlyphs(kit, m, cells, column, end), LigaturesFrom(kit, m, cells, end);
    assert after[..end] == before[..column] + run;
    Common.Joined(before[..column], run, rest);
  }

  lemma RunDone(kit: Toolkit, m: Metrics, cells: seq<Cell>, before: seq<nat>, after: seq<nat>,
                start: nat, end: nat, all: bool)
    requires start < end <= |cells| == |before|
    requires Plain(cells[start]) && end == RunEnd(cells, start, start + 1)
    requires LigaturesFound(kit, m, cells, before, start, all)
    requires after == before || after == before[..start] + ShapeOf(kit, RunOf(m, cells, start, end)) + before[end..]
    requires all ==> (after != before ==> Candidate(cells, start, end))
    requires all && Candidate(cells, start, end) ==>
               after == before[..start] + ShapeOf(kit, RunOf(m, cells, start, end)) + before[end..]
    ensures |after| == |cells| && LigaturesFound(kit, m, cells, after, end, all)
  {
    assert before == before[..start] + Zeros(end - start) + before[end..];
    if all {
      NextRun(kit, m, cells, before, after, start, end);
    }
  }

  // ---- What the texels of a quad are --------------------------------------------------------

  /** The texels that a quad samples are its item's: all the ink that was painted for its glyph,
      the curly tile, or white. */
  ghost predicate Samples(v: View, item: Item, q: Quad) {
    match item
    case GlyphAt(k, _, _, _) =>
      && k in v.glyphs && k in v.drawn
      && (var area := AreaOf(v.metrics, k, v.glyphs[k]);
          && InkWithin(v.drawn[k], CanvasWidth(v.metrics, k), CanvasHeight(v.metrics), area)
          && forall x, y :: q.u <= x < q.u + q.uw && q.v <= y < q.v + q.vh ==>
               Painted(v.live, x, y) ==
               Stored(At(v.drawn[k], area.x + x - q.u, area.y + y - q.v), q.colored))
    case MarkAt(Wave(_, _, _)) =>
      forall x, y :: q.u <= x < q.u + q.uw && q.v <= y < q.v + q.vh ==>
        Painted(v.live, x, y) == Stored(At(v.curlyTile, x - q.u, y - q.v), q.colored)
    case MarkAt(Bar(_, _, _, _, _)) =>
      forall x, y :: q.u - 1 <= x <= q.u && q.v - 1 <= y <= q.v ==> Painted(v.live, x, y) == WHITE
  }

  lemma ItemSamples(v: View, item: Item, q: Quad)
    requires Sound(v) && v.size > 0 && q in ItemQuads(v, item)
    ensures Samples(v, item, q)
  {
    match item
    case GlyphAt(k, _, _, _) =>
      forall x, y | q.u <= x < q.u + q.uw && q.v <= y < q.v + q.vh
        ensures Painted(v.live, x, y) ==
                Stored(At(v.drawn[k], AreaOf(v.metrics, k, v.glyphs[k]).x + x - q.u,
                          AreaOf(v.metrics, k, v.glyphs[k]).y + y - q.v), q.colored)
      {
        CachedGlyphIsIntact(v, k, x, y);
      }
    case MarkAt(Wave(_, _, _)) =>
      var i :| 0 <= i < |v.live| && v.live[i] == Entry(v.curly.rect, Painting(v.curlyTile), 0, 0, false);
      forall x, y | q.u <= x < q.u + q.uw && q.v <= y < q.v + q.vh
        ensures Painted(v.live, x, y) == Stored(At(v.curlyTile, x - q.u, y - q.v), q.colored)
      {
        EntryKeepsItsPixels(v.live, i, x, y);
      }
    case MarkAt(Bar(_, _, _, _, _)) =>
      forall x, y | q.u - 1 <= x <= q.u && q.v - 1 <= y <= q.v
        ensures Painted(v.live, x, y) == WHITE
      {
        SolidIsWhite(v, x, y);
      }
  }

  /** No node shows another glyph's texels: every quad of a node that is up to date samples what
      was painted for one of the items it draws. */
  lemma {:induction false} EveryQuadSamplesItsItem(v: View, items: seq<Item>, q: Quad)
    requires Sound(v) && v.size > 0 && q in Quads(v, items)
    ensures exists item :: item in items && Samples(v, item, q)
  {
    var n := |items| - 1;
    if q in ItemQuads(v, items[n]) {
      ItemSamples(v, items[n], q);
    } else {
      EveryQuadSamplesItsItem(v, items[..n], q);
    }
  }

  /** No ink was painted for `k`. */
  ghost predicate Blank(v: View, k: Key) {
    k in v.drawn && forall x, y :: !Inked(v.drawn[k], CanvasWidth(v.metrics, k), CanvasHeight(v.metrics), x, y)
  }

  /** The quad puts all the ink of a glyph where it belongs for the item, in its color. */
  ghost predicate InPlace(v: View, item: Item, q: Quad)
    requires item.GlyphAt? && item.key in v.glyphs
  {
    var area := AreaOf(v.metrics, item.key, v.glyphs[item.key]);
    && q.x == item.x + area.x - PadX(v.metrics, item.key) && q.y == item.y + area.y - Pad(v.metrics)
    && q.w == q.uw == area.w && q.h == q.vh == area.h && q.color == item.color
  }

  /** An item that is in the atlas is shown by one of the quads: a glyph with all its ink, unless it is
      blank or there may have been no room for it; a line where it goes. */
  ghost predicate ItemShown(v: View, item: Item, quads: seq<Quad>) {
    match item
    case GlyphAt(k, _, _, _) =>
      k in v.glyphs && !Cramped(v, k) ==>
        Blank(v, k) || exists q :: q in quads && InPlace(v, item, q) && Samples(v, item, q)
    case MarkAt(Bar(x, y, w, h, color)) =>
      w > 0 && h > 0 ==>
        exists q :: q in quads && Samples(v, item, q) && q.x == x && q.y == y && q.w == w && q.h == h && q.color == color
    case MarkAt(Wave(x, y, color)) =>
      v.curly.valid && !v.curly.rect.IsEmpty() ==>
        exists q :: q in quads && Samples(v, item, q) && q.x == x + v.curly.offX && q.y == y + v.curly.offY
  }

  lemma OneItemIsShown(v: View, item: Item)
    requires Sound(v) && v.size > 0
    ensures ItemShown(v, item, ItemQuads(v, item))
  {
    var quads := ItemQuads(v, item);
    if quads != [] {
      ItemSamples(v, item, quads[0]);
    }
    if item.GlyphAt? && item.key in v.glyphs && v.glyphs[item.key].valid {
      var k, g := item.key, v.glyphs[item.key];
      assert Shows(v, k, v.drawn[k], g);
      if quads == [] {
        assert InkWithin(v.drawn[k], CanvasWidth(v.metrics, k), CanvasHeight(v.metrics), AreaOf(v.metrics, k, g));
      } else {
        assert InPlace(v, item, quads[0]);
      }
    }
  }

  lemma MoreQuadsShow(v: View, item: Item, few: seq<Quad>, many: seq<Quad>)
    requires ItemShown(v, item, few) && forall q :: q in few ==> q in many
    ensures ItemShown(v, item, many)
  {
  }

  lemma {:induction false} ItemIsShown(v: View, items: seq<Item>, i: nat)
    requires Sound(v) && v.size > 0 && i < |items|
    ensures ItemShown(v, items[i], Quads(v, items))
  {
    var n := |items| - 1;
    if i == n {
      OneItemIsShown(v, items[n]);
      MoreQuadsShow(v, items[n], ItemQuads(v, items[n]), Quads(v, items));
    } else {
      ItemIsShown(v, items[..n], i);
      MoreQuadsShow(v, items[i], Quads(v, items[..n]), Quads(v, items));
    }
  }

  /** Every item is shown by the node's quads, unless there are too many for one node. */
  ghost predicate AllShown(v: View, items: seq<Item>, node: Node) {
    Cached(v, items) && (|Quads(v, items)| <= MAX_QUADS ==> forall i :: 0 <= i < |items| ==> ItemShown(v, items[i], node.quads))
  }

  lemma NodeShowsAll(v: View, items: seq<Item>, padding: int, back: Back)
    requires Sound(v) && v.size > 0 && Cached(v, items)
    ensures AllShown(v, items, NodeOf(v, items, padding, back))
  {
    forall i | 0 <= i < |items|
      ensures ItemShown(v, items[i], Quads(v, items))
    {
      ItemIsShown(v, items, i);
    }
  }

  /** Every glyph and line of every row that isn't marked is shown, and of the overlay if nothing of it
      was left for later. */
  ghost predicate Displayed(kit: Toolkit, v: View, g: Grid, dirty: seq<bool>, nodes: seq<Node>, overlay: Node,
                            items: seq<Item>) {
    && |dirty| == |nodes| == |g.rows|
    && (forall r :: 0 <= r < |g.rows| && !dirty[r] ==> AllShown(v, FullItems(kit, v.metrics, g.rows[r], r), nodes[r]))
    && (v.deferred == 0 ==> AllShown(v, items, overlay))
  }

  lemma UpToDateIsDisplayed(kit: Toolkit, v: View, g: Grid, dirty: seq<bool>, nodes: seq<Node>, used: seq<Used>,
                            overlay: Node, items: seq<Item>, padding: int)
    requires Sound(v) && v.size > 0 && UpToDate(kit, v, g, dirty, nodes, used, overlay, items, padding)
    ensures Displayed(kit, v, g, dirty, nodes, overlay, items)
  {
    forall r | 0 <= r < |g.rows| && !dirty[r]
      ensures AllShown(v, FullItems(kit, v.metrics, g.rows[r], r), nodes[r])
    {
      NodeShowsAll(v, FullItems(kit, v.metrics, g.rows[r], r), padding,
                   BackOf(v.metrics, g.rows[r], RowY(v.metrics, r), used[r].background));
    }
    if v.deferred == 0 {
      NodeShowsAll(v, items, padding, NO_BACK);
    }
  }
}
