/** What the terminal renderer draws: a copy of the grid, the quads each of its rows needs, and how
    they follow from the grid and the glyph atlas. */
module Terminal {
  import Common
  import opened GlyphAtlas

  // ---- The grid -----------------------------------------------------------------------------

  datatype Flags = Flags(
    bold: bool, italic: bool, wide: bool, wideSpacer: bool, hidden: bool, lines: nat)

  /** A cell; `cluster` is 1 + the offset of its combining characters in its row (0: none). */
  datatype Cell = Cell(ch: nat, cluster: nat, fg: nat, bg: nat, underline: nat, flags: Flags)

  /** A row of the grid, with its combining characters: [count, code point...] entries. */
  datatype Row = Row(cells: seq<Cell>, clusters: seq<nat>)

  function StyleOf(cell: Cell): nat {
    (if cell.flags.bold then 1 else 0) + (if cell.flags.italic then 2 else 0)
  }

  /** The characters of a cell: its base character, then its combining characters. */
  function TextOf(row: Row, cell: Cell): seq<nat> {
    if cell.cluster == 0 || cell.cluster - 1 >= |row.clusters| then [cell.ch]
    else
      var first := cell.cluster;
      [cell.ch] + row.clusters[first..Min(first + row.clusters[first - 1], |row.clusters|)]
  }

  function KeyOf(row: Row, cell: Cell, span: nat): Key {
    if cell.cluster == 0 || cell.cluster - 1 >= |row.clusters| then SingleKey(cell.ch, StyleOf(cell), span)
    else Cluster(TextOf(row, cell), StyleOf(cell), if span == 2 then 2 else 1)
  }

  // ---- What is drawn ------------------------------------------------------------------------

  /** Lines under or through text: filled rectangles and curly tiles. */
  datatype Mark =
    | Bar(x: int, y: int, w: int, h: int, color: nat)
    | Wave(x: int, y: int, color: nat)

  datatype Item = GlyphAt(key: Key, x: int, y: int, color: nat) | MarkAt(mark: Mark)

  /** A run of plain text in one style, and a cell with decorations at a place. */
  datatype Run = Run(metrics: Metrics, text: seq<nat>, style: nat)
  datatype Decorated = Decorated(metrics: Metrics, cell: Cell, x: int, y: int, width: int)

  /** The pure functions the toolkit gives: the alternate glyphs of a shaped run (0: none) and the
      lines that decorate a cell. */
  datatype Toolkit = Toolkit(shapes: map<Run, seq<nat>>, lines: map<Decorated, seq<Mark>>)

  function ShapeOf(kit: Toolkit, run: Run): (r: seq<nat>)
    ensures |r| == |run.text|
  {
    if run in kit.shapes && |kit.shapes[run]| == |run.text| then kit.shapes[run]
    else Zeros(|run.text|)
  }

  function Zeros(n: nat): (r: seq<nat>)
    ensures |r| == n && forall i :: 0 <= i < n ==> r[i] == 0
  {
    seq(n, _ => 0)
  }

  function MarksOf(kit: Toolkit, d: Decorated): seq<Mark> {
    if d in kit.lines then kit.lines[d] else []
  }

  // ---- Ligatures ----------------------------------------------------------------------------

  predicate Plain(cell: Cell) {
    && cell.cluster == 0 && !cell.flags.wide && !cell.flags.wideSpacer && !cell.flags.hidden
    && 32 <= cell.ch < 127
  }

  /** Symbols that take part in programming ligatures. */
  predicate LigatureSymbol(ch: nat) {
    ch in {33, 35, 36, 37, 38, 42, 43, 45, 46, 47, 58, 59, 60, 61, 62, 63, 64, 92, 94, 95, 124, 126,
           91, 93, 123, 125, 40, 41}
  }

  /** Where the run of plain cells in one style that starts at `start` ends. */
  function RunEnd(cells: seq<Cell>, start: nat, at: nat): (end: nat)
    requires start < at <= |cells|
    ensures at <= end <= |cells| && forall i :: at <= i < end ==> StyleOf(cells[i]) == StyleOf(cells[start])
    decreases |cells| - at
  {
    if at < |cells| && Plain(cells[at]) && StyleOf(cells[at]) == StyleOf(cells[start])
    then RunEnd(cells, start, at + 1) else at
  }

  predicate Candidate(cells: seq<Cell>, start: nat, end: nat)
    requires start <= end <= |cells|
  {
    exists i :: start < i < end && LigatureSymbol(cells[i].ch) && LigatureSymbol(cells[i - 1].ch)
  }

  function RunOf(m: Metrics, cells: seq<Cell>, start: nat, end: nat): (run: Run)
    requires start < end <= |cells|
    ensures |run.text| == end - start
  {
    Run(m, seq<nat>(end - start, (i: nat) requires i < end - start => cells[start + i].ch), StyleOf(cells[start]))
  }

  /** The shaped glyphs of a run; it is only shaped where two symbols meet. */
  function RunGlyphs(kit: Toolkit, m: Metrics, cells: seq<Cell>, start: nat, end: nat): (r: seq<nat>)
    requires start < end <= |cells|
    ensures |r| == end - start
  {
    if Candidate(cells, start, end) then ShapeOf(kit, RunOf(m, cells, start, end)) else Zeros(end - start)
  }

  /** The shaped glyph of every column from `column` on, 0 for the plain one. */
  function LigaturesFrom(kit: Toolkit, m: Metrics, cells: seq<Cell>, column: nat): (r: seq<nat>)
    requires column <= |cells|
    ensures |r| == |cells| - column
    decreases |cells| - column
  {
    if column == |cells| then []
    else if !Plain(cells[column]) then [0] + LigaturesFrom(kit, m, cells, column + 1)
    else
      var end := RunEnd(cells, column, column + 1);
      RunGlyphs(kit, m, cells, column, end) + LigaturesFrom(kit, m, cells, end)
  }

  function Ligatures(kit: Toolkit, m: Metrics, cells: seq<Cell>): (r: seq<nat>)
    ensures |r| == |cells|
  {
    if m.ligatures then LigaturesFrom(kit, m, cells, 0) else Zeros(|cells|)
  }

  /** Every part of a row, as a run to shape. */
  ghost function RunsIn(m: Metrics, cells: seq<Cell>): set<Shaping> {
    set s, e | 0 <= s < e <= |cells| :: Shaping(RunOf(m, cells, s, e).text, RunOf(m, cells, s, e).style)
  }

  /** Every alternate glyph that shaping some part of a row gives. */
  ghost function ShapesIn(kit: Toolkit, m: Metrics, cells: seq<Cell>): set<Key> {
    set s, e, i | 0 <= s < e <= |cells| && 0 <= i < e - s ::
      Indexed(ShapeOf(kit, RunOf(m, cells, s, e))[i], StyleOf(cells[s]))
  }

  /** The glyphs found for the columns of a row are such, or none. */
  ghost predicate FromShapes(kit: Toolkit, m: Metrics, cells: seq<Cell>, ligatures: seq<nat>)
    requires |ligatures| == |cells|
  {
    forall c :: 0 <= c < |cells| ==>
      ligatures[c] == 0 || Indexed(ligatures[c], StyleOf(cells[c])) in ShapesIn(kit, m, cells)
  }

  lemma RunIsFromShapes(kit: Toolkit, m: Metrics, cells: seq<Cell>, before: seq<nat>, start: nat, end: nat)
    requires start < end <= |cells| == |before| && end == RunEnd(cells, start, start + 1)
    requires FromShapes(kit, m, cells, before)
    ensures FromShapes(kit, m, cells, before[..start] + ShapeOf(kit, RunOf(m, cells, start, end)) + before[end..])
    ensures Shaping(RunOf(m, cells, start, end).text, RunOf(m, cells, start, end).style) in RunsIn(m, cells)
  {
    var shape := ShapeOf(kit, RunOf(m, cells, start, end));
    forall c | start <= c < end
      ensures Indexed(shape[c - start], StyleOf(cells[c])) in ShapesIn(kit, m, cells)
    {
      assert StyleOf(cells[c]) == StyleOf(cells[start]);
      assert Indexed(ShapeOf(kit, RunOf(m, cells, start, end))[c - start], StyleOf(cells[start])) in
             ShapesIn(kit, m, cells);
    }
  }

  // ---- The items of a row -------------------------------------------------------------------

  predicate Skipped(cell: Cell) { cell.flags.wideSpacer || cell.flags.hidden }

  function SpanAt(row: Row, column: nat): nat
    requires column < |row.cells|
  {
    if row.cells[column].flags.wide && column + 1 < |row.cells| then 2 else 1
  }

  /** Whether a glyph is drawn at `column`, and which: the shaped one, or the cell's. */
  function GlyphItems(m: Metrics, row: Row, y: int, shaped: nat, column: nat): (r: seq<Item>)
    requires column < |row.cells|
    ensures |r| <= 1 && forall i :: 0 <= i < |r| ==> r[i].GlyphAt?
  {
    var cell := row.cells[column];
    var x := column * m.cellWidth;
    if Skipped(cell) then []
    else if shaped != 0 then [GlyphAt(Indexed(shaped, StyleOf(cell)), x, y, cell.fg)]
    else if cell.cluster != 0 || (cell.ch != 32 && cell.ch != 0)
    then [GlyphAt(KeyOf(row, cell, SpanAt(row, column)), x, y, cell.fg)]
    else []
  }

  function MarkItems(kit: Toolkit, m: Metrics, row: Row, y: int, column: nat): seq<Item>
    requires column < |row.cells|
  {
    var cell := row.cells[column];
    if Skipped(cell) then []
    else
      var marks := MarksOf(kit, Decorated(m, cell, column * m.cellWidth, y,
                                          SpanAt(row, column) * m.cellWidth));
      seq(|marks|, i requires 0 <= i < |marks| => MarkAt(marks[i]))
  }

  function RowGlyphs(m: Metrics, row: Row, y: int, ligatures: seq<nat>, n: nat): seq<Item>
    requires n <= |row.cells| == |ligatures|
  {
    if n == 0 then []
    else RowGlyphs(m, row, y, ligatures, n - 1) + GlyphItems(m, row, y, ligatures[n - 1], n - 1)
  }

  function RowMarks(kit: Toolkit, m: Metrics, row: Row, y: int, n: nat): seq<Item>
    requires n <= |row.cells|
  {
    if n == 0 then [] else RowMarks(kit, m, row, y, n - 1) + MarkItems(kit, m, row, y, n - 1)
  }

  /** The glyphs of a row, then its lines on top of them. */
  function RowItems(kit: Toolkit, m: Metrics, row: Row, y: int, ligatures: seq<nat>): seq<Item>
    requires |row.cells| == |ligatures|
  {
    RowGlyphs(m, row, y, ligatures, |row.cells|) + RowMarks(kit, m, row, y, |row.cells|)
  }

  // ---- Quads --------------------------------------------------------------------------------

  /** Where a quad goes, the texels it samples, its color and whether those have color. */
  datatype Quad = Quad(x: int, y: int, w: int, h: int, u: int, v: int, uw: int, vh: int,
                       color: nat, colored: bool)

  function GlyphQuads(g: Glyph, x: int, y: int, color: nat): seq<Quad> {
    if !g.valid || g.rect.IsEmpty() then []
    else [Quad(x + g.offX, y + g.offY, g.rect.w, g.rect.h,
               g.rect.x, g.rect.y, g.rect.w, g.rect.h, color, g.color)]
  }

  function MarkQuads(solid: Rect, curly: Glyph, mark: Mark): seq<Quad> {
    match mark
    case Wave(x, y, color) => GlyphQuads(curly, x, y, color)
    case Bar(x, y, w, h, color) =>
      if w <= 0 || h <= 0 then []
      else var at := SolidTexel(solid); [Quad(x, y, w, h, at.x, at.y, 0, 0, color, false)]
  }

  /** What an item draws with the glyphs of `v`: nothing for a glyph that isn't there yet. */
  ghost function ItemQuads(v: View, item: Item): seq<Quad> {
    match item
    case MarkAt(mark) => MarkQuads(v.solid, v.curly, mark)
    case GlyphAt(k, x, y, color) => if k in v.glyphs then GlyphQuads(v.glyphs[k], x, y, color) else []
  }

  ghost function Quads(v: View, items: seq<Item>): seq<Quad> {
    if items == [] then []
    else Quads(v, items[..|items| - 1]) + ItemQuads(v, items[|items| - 1])
  }

  lemma {:induction false} QuadsOfBoth(v: View, a: seq<Item>, b: seq<Item>)
    ensures Quads(v, a + b) == Quads(v, a) + Quads(v, b)
  {
    if b == [] {
      assert a + b == a;
    } else {
      var n := |b| - 1;
      calc {
        Quads(v, a + b);
        { assert (a + b)[..|a + b| - 1] == a + b[..n] && (a + b)[|a + b| - 1] == b[n]; }
        Quads(v, a + b[..n]) + ItemQuads(v, b[n]);
        { QuadsOfBoth(v, a, b[..n]); }
        (Quads(v, a) + Quads(v, b[..n])) + ItemQuads(v, b[n]);
        { Common.Joined(Quads(v, a), Quads(v, b[..n]), ItemQuads(v, b[n])); }
        Quads(v, a) + Quads(v, b);
      }
    }
  }

  ghost predicate Cached(v: View, items: seq<Item>) {
    forall i :: 0 <= i < |items| && items[i].GlyphAt? ==> items[i].key in v.glyphs
  }

  /** Drawing `items` again this frame would rasterize nothing. */
  ghost predicate Ready(v: View, items: seq<Item>) {
    Spent(v) || Cached(v, items)
  }

  /** As long as the atlas doesn't move, what was drawn stays right. */
  lemma {:induction false} QuadsStayRight(a: View, b: View, items: seq<Item>)
    requires Advance(a, b) && b.generation == a.generation && Ready(a, items)
    ensures Ready(b, items) && Quads(b, items) == Quads(a, items)
  {
    if items != [] {
      QuadsStayRight(a, b, items[..|items| - 1]);
    }
  }

  /** The keys of the glyphs among the items. */
  ghost function KeysOf(items: seq<Item>): set<Key> {
    set i | 0 <= i < |items| && items[i].GlyphAt? :: items[i].key
  }

  lemma KeysOfBoth(a: seq<Item>, b: seq<Item>)
    ensures KeysOf(a + b) == KeysOf(a) + KeysOf(b)
  {
    var both := a + b;
    assert forall i :: 0 <= i < |a| ==> both[i] == a[i];
    assert forall i :: 0 <= i < |b| ==> both[|a| + i] == b[i];
    forall k | k in KeysOf(b)
      ensures k in KeysOf(both)
    {
      var i :| 0 <= i < |b| && b[i].GlyphAt? && b[i].key == k;
      assert both[|a| + i].key == k;
    }
  }

  lemma KeysOfBothAreIn(a: seq<Item>, b: seq<Item>, all: set<Key>)
    requires KeysOf(a) <= all && KeysOf(b) <= all
    ensures KeysOf(a + b) <= all
  {
    KeysOfBoth(a, b);
  }

  /** Every glyph that drawing a row may ask for: those of its cells, and alternates. */
  ghost function RowKeys(kit: Toolkit, m: Metrics, row: Row): set<Key> {
    (set c | 0 <= c < |row.cells| :: KeyOf(row, row.cells[c], SpanAt(row, c))) + ShapesIn(kit, m, row.cells)
  }

  lemma {:induction false} RowAsksFor(kit: Toolkit, m: Metrics, row: Row, y: int, ligatures: seq<nat>, n: nat)
    requires n <= |row.cells| == |ligatures| && FromShapes(kit, m, row.cells, ligatures)
    ensures KeysOf(RowGlyphs(m, row, y, ligatures, n)) <= RowKeys(kit, m, row)
  {
    if n > 0 {
      RowAsksFor(kit, m, row, y, ligatures, n - 1);
      CellAsksFor(kit, m, row, y, ligatures, n - 1);
      KeysOfBothAreIn(RowGlyphs(m, row, y, ligatures, n - 1), GlyphItems(m, row, y, ligatures[n - 1], n - 1),
                      RowKeys(kit, m, row));
    }
  }

  lemma CellAsksFor(kit: Toolkit, m: Metrics, row: Row, y: int, ligatures: seq<nat>, c: nat)
    requires c < |row.cells| == |ligatures| && FromShapes(kit, m, row.cells, ligatures)
    ensures KeysOf(GlyphItems(m, row, y, ligatures[c], c)) <= RowKeys(kit, m, row)
  {
    forall k | k in KeysOf(GlyphItems(m, row, y, ligatures[c], c))
      ensures k in RowKeys(kit, m, row)
    {
      if ligatures[c] == 0 {
        assert k == KeyOf(row, row.cells[c], SpanAt(row, c));
      } else {
        assert k == Indexed(ligatures[c], StyleOf(row.cells[c]));
      }
    }
  }

  /** The same for a grid. */
  ghost function GridKeys(kit: Toolkit, m: Metrics, g: Grid): set<Key> {
    set r, k | 0 <= r < |g.rows| && k in RowKeys(kit, m, g.rows[r]) :: k
  }

  ghost function GridRuns(m: Metrics, g: Grid): set<Shaping> {
    set r, t | 0 <= r < |g.rows| && t in RunsIn(m, g.rows[r].cells) :: t
  }

  lemma RowInGrid(kit: Toolkit, m: Metrics, g: Grid, r: nat)
    requires r < |g.rows|
    ensures RowKeys(kit, m, g.rows[r]) <= GridKeys(kit, m, g) && RunsIn(m, g.rows[r].cells) <= GridRuns(m, g)
  {
  }

  // ---- Backgrounds --------------------------------------------------------------------------

  /** The columns from `from` up to `to` have this background. */
  datatype Stripe = Stripe(from: nat, to: nat, color: nat)

  predicate Visible(color: nat) { color / 0x100_0000 != 0 }

  /** The cell's background is drawn: it is visible, and isn't that of the whole frame, which the
      rectangle below all rows shows. */
  predicate Filled(cell: Cell, background: nat) { cell.bg != background && Visible(cell.bg) }

  /** The stripes of the first `n` cells: longest runs of one color. */
  function Stripes(cells: seq<Cell>, background: nat, n: nat): (r: seq<Stripe>)
    requires n <= |cells|
    ensures forall i :: 0 <= i < |r| ==> r[i].from < r[i].to <= n
  {
    if n == 0 then []
    else
      var before, c := Stripes(cells, background, n - 1), cells[n - 1];
      if !Filled(c, background) then before
      else if before != [] && before[|before| - 1].to == n - 1 && before[|before| - 1].color == c.bg
      then before[|before| - 1 := before[|before| - 1].(to := n)]
      else before + [Stripe(n - 1, n, c.bg)]
  }

  /** Collects the stripes of a row from left to right; the one from `start` on isn't finished. */
  method FindStripes(cells: seq<Cell>, background: nat) returns (stripes: seq<Stripe>)
    ensures stripes == Stripes(cells, background, |cells|)
  {
    stripes := [];
    var start, color := -1, 0;
    for column := 0 to |cells|
      invariant Scanned(cells, background, column, stripes, start, color)
    {
      stripes, start, color := ScanColumn(cells, background, column, stripes, start, color);
    }
    if start >= 0 {
      stripes := stripes + [Stripe(start, |cells|, color)];
    }
  }

  /** One column: a stripe may end before it, and one may start at it. */
  method ScanColumn(cells: seq<Cell>, background: nat, column: nat, before: seq<Stripe>, from: int, last: nat)
      returns (stripes: seq<Stripe>, start: int, color: nat)
    requires column < |cells| && Scanned(cells, background, column, before, from, last)
    ensures Scanned(cells, background, column + 1, stripes, start, color)
  {
    stripes, start, color := before, from, last;
    var c := cells[column];
    var fill := Filled(c, background);
    if start >= 0 && (!fill || c.bg != color) {
      stripes := stripes + [Stripe(start, column, color)];
      start := -1;
    }
    if fill && start < 0 {
      start, color := column, c.bg;
    }
    ScannedMore(cells, background, column, before, from, last, stripes, start, color);
  }

  ghost predicate Scanned(cells: seq<Cell>, background: nat, column: nat, stripes: seq<Stripe>, start: int, color: nat)
    requires column <= |cells|
  {
    && -1 <= start && (start >= 0 ==> start < column)
    && (start < 0 && stripes != [] ==> stripes[|stripes| - 1].to < column)
    && Stripes(cells, background, column) == if start < 0 then stripes else stripes + [Stripe(start, column, color)]
  }

  lemma ScannedMore(cells: seq<Cell>, background: nat, column: nat, s: seq<Stripe>, t: int, k: nat,
                    stripes: seq<Stripe>, start: int, color: nat)
    requires column < |cells| && Scanned(cells, background, column, s, t, k)
    requires var c, fill := cells[column], Filled(cells[column], background);
             var ends := t >= 0 && (!fill || c.bg != k);
             && stripes == (if ends then s + [Stripe(t, column, k)] else s)
             && start == (if fill && (ends || t < 0) then column else if ends then -1 else t)
             && color == (if fill && (ends || t < 0) then c.bg else k)
    ensures Scanned(cells, background, column + 1, stripes, start, color)
  {
    var before := Stripes(cells, background, column);
    if t >= 0 {
      assert before[|before| - 1] == Stripe(t, column, k) && before[..|before| - 1] == s;
    }
  }

  /** A column lies in a stripe exactly if its background is drawn, and the stripe has its color. */
  lemma {:induction false} StripesCover(cells: seq<Cell>, background: nat, n: nat, k: nat)
    requires k < n <= |cells|
    ensures Filled(cells[k], background) <==> InStripe(Stripes(cells, background, n), k, cells[k].bg)
    ensures forall color :: InStripe(Stripes(cells, background, n), k, color) ==> color == cells[k].bg
  {
    if k < n - 1 {
      StripesCover(cells, background, n - 1, k);
      StripesGrow(cells, background, n, k);
    } else {
      LastColumn(cells, background, n);
    }
  }

  lemma LastColumn(cells: seq<Cell>, background: nat, n: nat)
    requires 0 < n <= |cells|
    ensures var k := n - 1;
            && (Filled(cells[k], background) <==> InStripe(Stripes(cells, background, n), k, cells[k].bg))
            && forall color :: InStripe(Stripes(cells, background, n), k, color) ==> color == cells[k].bg
  {
    var k := n - 1;
    var before, after := Stripes(cells, background, k), Stripes(cells, background, n);
    if Filled(cells[k], background) {
      var last := |after| - 1;
      assert after[last].from <= k < after[last].to && after[last].color == cells[k].bg;
      assert forall i :: 0 <= i < last ==> after[i] == before[i];
    }
  }

  predicate InStripe(stripes: seq<Stripe>, k: nat, color: nat) {
    exists i :: 0 <= i < |stripes| && stripes[i].from <= k < stripes[i].to && stripes[i].color == color
  }

  /** One more column leaves the others in the stripes they were in. */
  lemma StripesGrow(cells: seq<Cell>, background: nat, n: nat, k: nat)
    requires k < n - 1 < |cells|
    ensures forall color :: InStripe(Stripes(cells, background, n), k, color) <==>
                            InStripe(Stripes(cells, background, n - 1), k, color)
  {
    var before, after := Stripes(cells, background, n - 1), Stripes(cells, background, n);
    assert forall i :: 0 <= i < |before| ==>
      after[i].from == before[i].from && after[i].color == before[i].color &&
      (k < after[i].to <==> k < before[i].to);
    forall color
      ensures InStripe(after, k, color) <==> InStripe(before, k, color)
    {
      if InStripe(after, k, color) {
        var i :| 0 <= i < |after| && after[i].from <= k < after[i].to && after[i].color == color;
        assert i < |before|;
      }
      if InStripe(before, k, color) {
        var i :| 0 <= i < |before| && before[i].from <= k < before[i].to && before[i].color == color;
        assert after[i].from <= k < after[i].to;
      }
    }
  }

  lemma {:induction false} SameFillsSameStripes(cells: seq<Cell>, a: nat, b: nat, n: nat)
    requires n <= |cells| && forall k :: 0 <= k < n ==> Filled(cells[k], a) == Filled(cells[k], b)
    ensures Stripes(cells, a, n) == Stripes(cells, b, n)
  {
    if n > 0 {
      SameFillsSameStripes(cells, a, b, n - 1);
    }
  }

  /** Later columns leave the stripes before them alone, but that the last one may go on. */
  ghost predicate GoesOn(cells: seq<Cell>, background: nat, p: seq<Stripe>, q: seq<Stripe>, m: nat)
    requires m <= |cells| && forall i :: 0 <= i < |p| ==> p[i].to <= m
  {
    && |p| <= |q|
    && (forall i :: 0 <= i < |p| ==> q[i].from == p[i].from && q[i].color == p[i].color && p[i].to <= q[i].to)
    && (forall i :: 0 <= i < |p| && q[i].to != p[i].to ==>
          && i == |p| - 1 && p[i].to == m < |cells| && m < q[i].to
          && Filled(cells[m], background) && cells[m].bg == p[i].color)
    && (forall i :: |p| <= i < |q| ==> q[i].from >= m)
  }

  lemma {:induction false} StripesGoOn(cells: seq<Cell>, background: nat, m: nat, n: nat)
    requires m <= n <= |cells|
    ensures GoesOn(cells, background, Stripes(cells, background, m), Stripes(cells, background, n), m)
    decreases n
  {
    if m < n {
      StripesGoOn(cells, background, m, n - 1);
      var q, c := Stripes(cells, background, n - 1), cells[n - 1];
      if !Filled(c, background) {
      } else if q != [] && q[|q| - 1].to == n - 1 && q[|q| - 1].color == c.bg {
        LastGoesOnFrom(cells, background, Stripes(cells, background, m), q, m, n);
      } else {
        AppendGoesOn(cells, background, Stripes(cells, background, m), q, m, Stripe(n - 1, n, c.bg));
      }
    }
  }

  lemma AppendGoesOn(cells: seq<Cell>, background: nat, p: seq<Stripe>, q: seq<Stripe>, m: nat, s: Stripe)
    requires m <= |cells| && (forall i :: 0 <= i < |p| ==> p[i].to <= m) && s.from >= m
    requires GoesOn(cells, background, p, q, m)
    ensures GoesOn(cells, background, p, q + [s], m)
  {
  }

  lemma LastGoesOnFrom(cells: seq<Cell>, background: nat, p: seq<Stripe>, q: seq<Stripe>, m: nat, n: nat)
    requires m < n <= |cells| && (forall i :: 0 <= i < |p| ==> p[i].to <= m) && GoesOn(cells, background, p, q, m)
    requires q != [] && q[|q| - 1].to == n - 1 && q[|q| - 1].color == cells[n - 1].bg && Filled(cells[n - 1], background)
    ensures GoesOn(cells, background, p, q[|q| - 1 := q[|q| - 1].(to := n)], m)
  {
    var last := |q| - 1;
    if last < |p| && q[last].to == p[last].to {
      assert p[last].to == m == n - 1;
    }
  }

  predicate StripesApart(s: seq<Stripe>) { forall i, j :: 0 <= i < j < |s| ==> s[i].to <= s[j].from }

  lemma {:induction false} StripesAreApart(cells: seq<Cell>, background: nat, n: nat)
    requires n <= |cells|
    ensures StripesApart(Stripes(cells, background, n))
  {
    if n > 0 {
      StripesAreApart(cells, background, n - 1);
      var before := Stripes(cells, background, n - 1);
      OneMoreApart(before, Stripe(n - 1, n, cells[n - 1].bg));
      if before != [] {
        LastGoesOn(before, n);
      }
    }
  }

  lemma OneMoreApart(s: seq<Stripe>, t: Stripe)
    requires StripesApart(s) && forall i :: 0 <= i < |s| ==> s[i].to <= t.from
    ensures StripesApart(s + [t])
  {
  }

  lemma LastGoesOn(s: seq<Stripe>, to: nat)
    requires StripesApart(s) && s != []
    ensures StripesApart(s[|s| - 1 := s[|s| - 1].(to := to)])
  {
  }

  /** If the stripe before `c` ends at column `m`, the first `c` stripes are those of the columns up to it. */
  lemma FirstStripes(cells: seq<Cell>, background: nat, m: nat, c: nat)
    requires m <= |cells| && 0 < c <= |Stripes(cells, background, |cells|)|
    requires Stripes(cells, background, |cells|)[c - 1].to == m
    ensures Stripes(cells, background, |cells|)[..c] == Stripes(cells, background, m)
  {
    var p, q := Stripes(cells, background, m), Stripes(cells, background, |cells|);
    StripesGoOn(cells, background, m, |cells|);
    StripesAreApart(cells, background, |cells|);
    assert q[c - 1].from < m;
    assert forall i :: c <= i < |q| ==> q[c - 1].to <= q[i].from;
    assert forall i :: 0 <= i < |p| ==> q[i].from == p[i].from < m;
    assert |p| == c;
  }

  /** The columns that decide the stripes that are drawn: all, unless there are too many stripes. */
  function Reach(cells: seq<Cell>, background: nat): (n: nat)
    ensures n <= |cells|
  {
    var s := Stripes(cells, background, |cells|);
    if |s| < MAX_QUADS then |cells| else s[MAX_QUADS - 1].to
  }

  /** The stripes drawn are those of the columns that decide them. */
  lemma ReachDecides(cells: seq<Cell>, background: nat)
    ensures Capped(Stripes(cells, background, |cells|)) == Stripes(cells, background, Reach(cells, background))
  {
    var s, m := Stripes(cells, background, |cells|), Reach(cells, background);
    if |s| >= MAX_QUADS {
      FirstStripes(cells, background, m, MAX_QUADS);
    }
  }

  /** A stripe that the next column continues doesn't end before it. */
  lemma WouldGoOn(cells: seq<Cell>, background: nat, m: nat, i: nat)
    requires m < |cells| && i == |Stripes(cells, background, m)| - 1
    requires var s := Stripes(cells, background, m)[i];
             s.to == m && Filled(cells[m], background) && cells[m].bg == s.color
    ensures var q := Stripes(cells, background, |cells|); i < |q| && q[i].to > m
  {
    StripesGoOn(cells, background, m + 1, |cells|);
  }

  lemma StripeColor(cells: seq<Cell>, background: nat, n: nat, i: nat)
    requires n <= |cells| && i < |Stripes(cells, background, n)|
    ensures var s := Stripes(cells, background, n)[i]; s.color != background && Visible(s.color)
  {
    var s := Stripes(cells, background, n)[i];
    StripesCover(cells, background, n, s.from);
    assert InStripe(Stripes(cells, background, n), s.from, s.color);
  }

  /** Backgrounds that fill the same of the columns that decide the stripes of the first give the same
      stripes. */
  lemma SameStripesDrawn(cells: seq<Cell>, a: nat, b: nat)
    requires Reach(cells, a) <= Reach(cells, b)
    requires forall k :: 0 <= k < Reach(cells, a) ==> Filled(cells[k], a) == Filled(cells[k], b)
    ensures Capped(Stripes(cells, a, |cells|)) == Capped(Stripes(cells, b, |cells|))
  {
    var m, n := Reach(cells, a), |cells|;
    var p, s, q := Stripes(cells, a, m), Stripes(cells, a, n), Stripes(cells, b, n);
    ReachDecides(cells, a);
    SameFillsSameStripes(cells, a, b, m);
    if |s| >= MAX_QUADS {
      StripesGoOn(cells, b, m, n);
      if q[MAX_QUADS - 1].to != m {
        StripeColor(cells, a, m, MAX_QUADS - 1);
        WouldGoOn(cells, a, m, MAX_QUADS - 1);
      }
      assert q[..MAX_QUADS] == p;
    }
  }

  /** A column before the end of the last stripe drawn lies in one that is drawn, or in none. */
  lemma DrawnCovers(cells: seq<Cell>, background: nat, k: nat)
    requires k < Reach(cells, background)
    ensures Filled(cells[k], background) <==> InStripe(Capped(Stripes(cells, background, |cells|)), k, cells[k].bg)
  {
    ReachDecides(cells, background);
    StripesCover(cells, background, Reach(cells, background), k);
  }

  /** The columns that decide the stripes on either background. */
  function Decisive(cells: seq<Cell>, a: nat, b: nat): nat { Min(Reach(cells, a), Reach(cells, b)) }

  /** With another frame background the stripes drawn are the same exactly if none of the columns that
      decide them has the old or the new one as a visible background. */
  lemma StripesStayRight(cells: seq<Cell>, a: nat, b: nat)
    ensures Capped(Stripes(cells, a, |cells|)) == Capped(Stripes(cells, b, |cells|)) <==>
            || a == b
            || forall k :: 0 <= k < Decisive(cells, a, b) && Visible(cells[k].bg) ==> cells[k].bg != a && cells[k].bg != b
  {
    if Capped(Stripes(cells, a, |cells|)) == Capped(Stripes(cells, b, |cells|)) && a != b {
      forall k | 0 <= k < Decisive(cells, a, b) && Visible(cells[k].bg)
        ensures cells[k].bg != a && cells[k].bg != b
      {
        DrawnCovers(cells, a, k);
        DrawnCovers(cells, b, k);
      }
    }
    if a != b && forall k :: 0 <= k < Decisive(cells, a, b) && Visible(cells[k].bg) ==> cells[k].bg != a && cells[k].bg != b {
      if Reach(cells, a) <= Reach(cells, b) {
        SameStripesDrawn(cells, a, b);
      } else {
        SameStripesDrawn(cells, b, a);
      }
    }
  }

  // ---- Nodes --------------------------------------------------------------------------------

  const MAX_QUADS := 16383

  /** The rectangles behind a row: one for each of its stripes. */
  datatype Back = Back(stripes: seq<Stripe>, y: int, cellWidth: int, cellHeight: int)

  const NO_BACK := Back([], 0, 0, 0)

  function BackOf(m: Metrics, row: Row, y: int, background: nat): Back {
    Back(Capped(Stripes(row.cells, background, |row.cells|)), y, m.cellWidth, m.cellHeight)
  }

  /** The geometry of a node: its quads, the texture size their texels are divided by, and the
      padding around the grid; and, of a row, what lies behind it. */
  datatype Node = Node(quads: seq<Quad>, atlasSize: int, padding: int, back: Back)

  function Capped<T>(s: seq<T>): seq<T> { if |s| <= MAX_QUADS then s else s[..MAX_QUADS] }

  function Written(quads: seq<Quad>, size: int, padding: int, back: Back): Node {
    Node(Capped(quads), size, padding, back)
  }

  ghost function NodeOf(v: View, items: seq<Item>, padding: int, back: Back): Node {
    Written(Quads(v, items), v.size, padding, back)
  }

  // ---- Frames -------------------------------------------------------------------------------

  const MAX_CELLS := 4 * 1024 * 1024
  const MAX_CLUSTER := 32

  /** A cell as a frame gives it; `cluster` is 1 + an offset in the frame's clusters (0: none). */
  datatype FrameCell = FrameCell(ch: nat, cluster: nat, fg: nat, bg: nat, underline: nat, flags: Flags)

  datatype Shape = Block | HollowBlock | Beam | Underline | Hidden

  datatype Cursor = Cursor(
    row: int, column: int, shape: Shape, blinking: bool, wide: bool, color: nat, textColor: nat)

  datatype Frame = Frame(
    columns: int, lines: int, full: bool, cursor: Cursor, background: nat,
    rows: seq<nat>, cells: seq<FrameCell>, clusters: seq<nat>)

  /** The entry of a frame's clusters that a cell refers to is usable. */
  predicate ValidEntry(cluster: nat, clusters: seq<nat>) {
    && 0 < cluster <= |clusters|
    && 0 < clusters[cluster - 1] <= MAX_CLUSTER
    && cluster + clusters[cluster - 1] <= |clusters|
  }

  function SanitizeAll(s: seq<nat>): (r: seq<nat>)
    ensures |r| == |s|
  {
    seq<nat>(|s|, (i: nat) requires i < |s| => Sanitize(s[i]))
  }

  /** What a cell is meant to show: its characters, colors and flags. */
  datatype Look = Look(text: seq<nat>, fg: nat, bg: nat, underline: nat, flags: Flags)

  function MeantBy(cell: FrameCell, clusters: seq<nat>): Look {
    var marks := if ValidEntry(cell.cluster, clusters)
                 then clusters[cell.cluster..cell.cluster + clusters[cell.cluster - 1]] else [];
    Look([Sanitize(cell.ch)] + SanitizeAll(marks), cell.fg, cell.bg, cell.underline, cell.flags)
  }

  function Shown(row: Row, cell: Cell): Look {
    Look(TextOf(row, cell), cell.fg, cell.bg, cell.underline, cell.flags)
  }

  /** Every cluster reference of the row names a whole entry of it. */
  ghost predicate WellFormed(row: Row) {
    forall c :: 0 <= c < |row.cells| ==> WellFormedCell(row, row.cells[c])
  }

  predicate WellFormedCell(row: Row, cell: Cell) {
    cell.cluster == 0 || ValidEntry(cell.cluster, row.clusters)
  }

  /** The row shows what the cells of the frame mean. */
  ghost predicate Copies(row: Row, cells: seq<FrameCell>, clusters: seq<nat>, n: nat)
    requires n <= |cells|
  {
    && |row.cells| == n
    && forall c :: 0 <= c < n ==>
         WellFormedCell(row, row.cells[c]) && Shown(row, row.cells[c]) == MeantBy(cells[c], clusters)
  }

  /** Copies a row of a frame; invalid data is ignored. */
  method CopyRow(cells: seq<FrameCell>, clusters: seq<nat>) returns (row: Row)
    ensures Copies(row, cells, clusters, |cells|)
  {
    row := Row([], []);
    for column := 0 to |cells|
      invariant Copies(row, cells, clusters, column)
    {
      var before := row;
      row := CopyCell(row, cells[column], clusters);
      CellCopied(before, row, cells, clusters, column);
    }
  }

  /** Appends a cell, and its combining characters if their entry is valid. */
  function CopyCell(row: Row, from: FrameCell, clusters: seq<nat>): Row {
    var cell := Cell(Sanitize(from.ch), 0, from.fg, from.bg, from.underline, from.flags);
    if ValidEntry(from.cluster, clusters) then
      var count := clusters[from.cluster - 1];
      Row(row.cells + [cell.(cluster := |row.clusters| + 1)],
          row.clusters + [count] + SanitizeAll(clusters[from.cluster..from.cluster + count]))
    else Row(row.cells + [cell], row.clusters)
  }

  lemma NewCellShows(row: Row, from: FrameCell, clusters: seq<nat>)
    ensures var after := CopyCell(row, from, clusters);
            var cell := after.cells[|row.cells|];
            WellFormedCell(after, cell) && Shown(after, cell) == MeantBy(from, clusters)
  {
    var after := CopyCell(row, from, clusters);
    var cell := after.cells[|row.cells|];
    if ValidEntry(from.cluster, clusters) {
      var count := clusters[from.cluster - 1];
      var marks := SanitizeAll(clusters[from.cluster..from.cluster + count]);
      assert after.clusters[cell.cluster..cell.cluster + count] == marks;
    } else {
      assert SanitizeAll([]) == [] && [cell.ch] + [] == [cell.ch];
    }
  }

  lemma CellCopied(before: Row, row: Row, cells: seq<FrameCell>, clusters: seq<nat>, column: nat)
    requires column < |cells| && Copies(before, cells, clusters, column)
    requires row == CopyCell(before, cells[column], clusters)
    ensures Copies(row, cells, clusters, column + 1)
  {
    NewCellShows(before, cells[column], clusters);
    forall c | 0 <= c < column
      ensures WellFormedCell(row, row.cells[c]) && Shown(row, row.cells[c]) == Shown(before, before.cells[c])
    {
      LongerRowShowsTheSame(before, row, before.cells[c]);
    }
  }

  lemma LongerRowShowsTheSame(a: Row, b: Row, cell: Cell)
    requires WellFormedCell(a, cell) && a.clusters <= b.clusters
    ensures WellFormedCell(b, cell) && Shown(b, cell) == Shown(a, cell)
  {
    if cell.cluster != 0 {
      var end := cell.cluster + a.clusters[cell.cluster - 1];
      assert b.clusters[cell.cluster..end] == a.clusters[cell.cluster..end];
    }
  }

  // ---- The copy of the grid -----------------------------------------------------------------

  datatype Grid = Grid(
    columns: nat, lines: nat, rows: seq<Row>, cursor: Cursor, background: nat, hasFrame: bool,
    fullColumns: int, fullLines: int)

  const NO_FLAGS := Flags(false, false, false, false, false, 0)

  function BlankRow(columns: nat): (row: Row)
    ensures |row.cells| == columns
  {
    Row(seq(columns, _ => Cell(32, 0, 0, 0, 0, NO_FLAGS)), [])
  }

  ghost predicate GridOk(g: Grid) {
    && |g.rows| == g.lines
    && forall r :: 0 <= r < g.lines ==> |g.rows[r].cells| == g.columns && WellFormed(g.rows[r])
  }

  /** Frames with no size, or too large, are ignored. */
  predicate Usable(f: Frame) {
    f.columns > 0 && f.lines > 0 && f.columns * f.lines <= MAX_CELLS
  }

  predicate StartsOver(g: Grid, f: Frame) {
    f.full || f.columns != g.columns || f.lines != g.lines
  }

  /** Only whole rows of a frame are used. */
  function RowCount(f: Frame): (n: nat)
    requires f.columns > 0
    ensures n <= |f.rows| && n * f.columns <= |f.cells|
  {
    var whole := |f.cells| / f.columns;
    if |f.rows| < whole then WholeRowsFit(f.columns, |f.cells|, |f.rows|); |f.rows|
    else WholeRowsFit(f.columns, |f.cells|, whole); whole
  }

  lemma WholeRowsFit(columns: int, cells: nat, i: nat)
    requires columns > 0 && i <= cells / columns
    ensures i * columns <= cells
  {
    assert i * columns <= (cells / columns) * columns;
  }

  function FrameRow(f: Frame, i: nat): (cells: seq<FrameCell>)
    requires f.columns > 0 && i < RowCount(f)
    ensures |cells| == f.columns
  {
    assert i * f.columns + f.columns == (i + 1) * f.columns <= RowCount(f) * f.columns;
    f.cells[i * f.columns..i * f.columns + f.columns]
  }

  /** The last of the first `n` rows of a frame that is for row `r` (-1: none). */
  function LastFor(rows: seq<nat>, n: nat, r: nat): (i: int)
    requires n <= |rows|
    ensures -1 <= i < n
    ensures i >= 0 ==> rows[i] == r
    ensures forall k :: i < k < n ==> rows[k] != r
  {
    if n == 0 then -1 else if rows[n - 1] == r then n - 1 else LastFor(rows, n - 1, r)
  }

  /** Row `r` shows the last of the frame's first `n` rows that is for it, or else what it did. */
  ghost predicate RowApplied(before: Row, wasDirty: bool, f: Frame, n: nat, r: nat, row: Row, dirty: bool)
    requires f.columns > 0 && n <= RowCount(f)
  {
    var i := LastFor(f.rows, n, r);
    if i < 0 then row == before && dirty == wasDirty
    else dirty && Copies(row, FrameRow(f, i), f.clusters, f.columns)
  }

  /** The grid before the rows of a frame are copied. */
  function BaseRows(g: Grid, f: Frame): seq<Row>
    requires f.columns > 0 && f.lines > 0
  {
    if StartsOver(g, f) then seq(f.lines, _ => BlankRow(f.columns)) else g.rows
  }

  function BaseDirty(g: Grid, dirty: seq<bool>, f: Frame): seq<bool>
    requires f.lines > 0
  {
    if StartsOver(g, f) then seq(f.lines, _ => true) else dirty
  }

  /** Copies the rows of a frame, later ones over earlier ones. */
  method CopyRows(g: Grid, dirty: seq<bool>, f: Frame) returns (rows: seq<Row>, marked: seq<bool>)
    requires GridOk(g) && |dirty| == g.lines && f.columns > 0 && f.lines > 0
    ensures |rows| == |marked| == f.lines
    ensures forall r :: 0 <= r < f.lines ==>
              RowApplied(BaseRows(g, f)[r], BaseDirty(g, dirty, f)[r], f, RowCount(f), r, rows[r], marked[r])
    ensures forall r :: 0 <= r < f.lines ==> |rows[r].cells| == f.columns && WellFormed(rows[r])
  {
    rows, marked := BaseRows(g, f), BaseDirty(g, dirty, f);
    NoRowsApplied(g, dirty, f);
    for i := 0 to RowCount(f)
      invariant RowsApplied(g, dirty, f, i, rows, marked)
    {
      rows, marked := CopyOneRow(g, dirty, f, i, rows, marked);
    }
  }

  /** Copies a row of a frame to its place, if there is one. */
  method CopyOneRow(ghost g: Grid, ghost dirty: seq<bool>, f: Frame, i: nat, before: seq<Row>, was: seq<bool>)
      returns (rows: seq<Row>, marked: seq<bool>)
    requires |g.rows| == |dirty| == g.lines && f.columns > 0 && f.lines > 0 && i < RowCount(f)
    requires RowsApplied(g, dirty, f, i, before, was)
    ensures RowsApplied(g, dirty, f, i + 1, rows, marked)
  {
    rows, marked := before, was;
    if f.rows[i] < f.lines {
      var row := CopyRow(FrameRow(f, i), f.clusters);
      rows, marked := rows[f.rows[i] := row], marked[f.rows[i] := true];
      RowsAppliedMore(g, dirty, f, i, before, was, row);
    } else {
      RowsAppliedSkip(g, dirty, f, i, before, was);
    }
  }

  lemma RowsAppliedSkip(g: Grid, dirty: seq<bool>, f: Frame, i: nat, rows: seq<Row>, marked: seq<bool>)
    requires |g.rows| == |dirty| == g.lines && f.columns > 0 && f.lines > 0 && i < RowCount(f) && f.rows[i] >= f.lines
    requires RowsApplied(g, dirty, f, i, rows, marked)
    ensures RowsApplied(g, dirty, f, i + 1, rows, marked)
  {
    forall r | 0 <= r < f.lines
      ensures RowApplied(BaseRows(g, f)[r], BaseDirty(g, dirty, f)[r], f, i + 1, r, rows[r], marked[r])
    {
      assert RowApplied(BaseRows(g, f)[r], BaseDirty(g, dirty, f)[r], f, i, r, rows[r], marked[r]);
    }
  }

  /** The first `n` rows of the frame were copied. */
  ghost predicate RowsApplied(g: Grid, dirty: seq<bool>, f: Frame, n: nat, rows: seq<Row>, marked: seq<bool>)
    requires |g.rows| == |dirty| == g.lines && f.columns > 0 && f.lines > 0 && n <= RowCount(f)
  {
    && |rows| == |marked| == f.lines
    && (forall r :: 0 <= r < f.lines ==>
          && RowApplied(BaseRows(g, f)[r], BaseDirty(g, dirty, f)[r], f, n, r, rows[r], marked[r])
          && |rows[r].cells| == f.columns && WellFormed(rows[r]))
  }

  lemma NoRowsApplied(g: Grid, dirty: seq<bool>, f: Frame)
    requires GridOk(g) && |dirty| == g.lines && f.columns > 0 && f.lines > 0
    ensures RowsApplied(g, dirty, f, 0, BaseRows(g, f), BaseDirty(g, dirty, f))
  {
  }

  lemma RowsAppliedMore(g: Grid, dirty: seq<bool>, f: Frame, i: nat, rows: seq<Row>, marked: seq<bool>, row: Row)
    requires |g.rows| == |dirty| == g.lines && f.columns > 0 && f.lines > 0 && i < RowCount(f) && f.rows[i] < f.lines
    requires RowsApplied(g, dirty, f, i, rows, marked) && Copies(row, FrameRow(f, i), f.clusters, f.columns)
    ensures RowsApplied(g, dirty, f, i + 1, rows[f.rows[i] := row], marked[f.rows[i] := true])
  {
    var after, now := rows[f.rows[i] := row], marked[f.rows[i] := true];
    forall r | 0 <= r < f.lines
      ensures RowApplied(BaseRows(g, f)[r], BaseDirty(g, dirty, f)[r], f, i + 1, r, after[r], now[r])
      ensures |after[r].cells| == f.columns && WellFormed(after[r])
    {
      assert RowApplied(BaseRows(g, f)[r], BaseDirty(g, dirty, f)[r], f, i, r, rows[r], marked[r]);
    }
  }
}
