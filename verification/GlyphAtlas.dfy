/** The glyph atlas of the terminal renderer: glyph bitmaps packed on shelves into one square
    texture that doubles when it is full and, at its largest size, is cleared at most once per
    frame. The glyph caches sit on top of it.

    What the toolkit paints for a glyph, the time it takes and whether memory can be had are
    arbitrary; shaping is a pure function of text and style. */
module GlyphAtlas {

  // ---- Pixels and rectangles ----------------------------------------------------------------

  datatype Pixel = Rgba(r: int, g: int, b: int, a: int)

  const TRANSPARENT := Rgba(0, 0, 0, 0)
  const WHITE := Rgba(255, 255, 255, 255)

  datatype Rect = Rect(x: int, y: int, w: int, h: int) {
    predicate Covers(px: int, py: int) {
      x <= px < x + w && y <= py < y + h
    }

    predicate IsEmpty() {
      w <= 0 || h <= 0
    }
  }

  const NOWHERE := Rect(0, 0, 0, 0)

  /** At least one texel lies between `a` and `b`. */
  predicate Apart(a: Rect, b: Rect) {
    a.x + a.w < b.x || b.x + b.w < a.x || a.y + a.h < b.y || b.y + b.h < a.y
  }

  function Max(a: int, b: int): int {
    if a < b then b else a
  }

  function Min(a: int, b: int): int {
    if a < b then a else b
  }

  // ---- What the toolkit draws ---------------------------------------------------------------

  /** Cell geometry of one font, in device pixels. `font` stands for everything else that
      decides how text is drawn. */
  datatype Metrics = Metrics(
    font: nat, ligatures: bool, cellWidth: int, cellHeight: int, baseline: int,
    lineThickness: int, underlineTop: int, beam: int, hairline: int)
  {
    predicate Valid() {
      cellWidth > 0 && cellHeight > 0
    }
  }

  /** What a cached glyph was asked for: a code point, a cluster of code points or a glyph of the
      font by its index. */
  datatype Key =
    | Single(ch: nat, style: nat, span: nat)
    | Cluster(text: seq<nat>, style: nat, span: nat)
    | Indexed(index: nat, style: nat)

  datatype Point = Point(x: int, y: int)

  /** A painted canvas: its pixels that are not transparent. */
  type Picture = map<Point, Pixel>

  function At(p: Picture, x: int, y: int): Pixel {
    if Point(x, y) in p then p[Point(x, y)] else TRANSPARENT
  }

  /** A bitmap that can be placed: what was painted, or a white block. */
  datatype Source = Painting(picture: Picture) | White

  /** A glyph is drawn on a padded canvas, the cell's top left at (PadX, Pad). */
  function Pad(m: Metrics): int { Max(2, m.cellHeight / 2) }

  function PadX(m: Metrics, k: Key): int {
    if k.Indexed? && k.index != 0 then Max(Pad(m), 3 * m.cellWidth) else Pad(m)
  }

  function CanvasWidth(m: Metrics, k: Key): int {
    (if !k.Indexed? && k.span == 2 then 2 * m.cellWidth else m.cellWidth) + 2 * PadX(m, k)
  }

  function CanvasHeight(m: Metrics): int {
    m.cellHeight + 2 * Pad(m)
  }

  function PixelOf(source: Source, x: int, y: int): Pixel {
    match source
    case Painting(p) => At(p, x, y)
    case White => WHITE
  }

  /** A mask keeps its coverage only; a color glyph keeps its pixels. */
  function Stored(p: Pixel, color: bool): Pixel {
    if color then p else Rgba(p.a, p.a, p.a, p.a)
  }

  function Distance(a: int, b: int): int { if a < b then b - a else a - b }

  /** A mask drawn with a white pen is gray. */
  predicate Colored(p: Pixel) {
    Distance(p.r, p.a) > 2 || Distance(p.g, p.a) > 2 || Distance(p.b, p.a) > 2
  }

  predicate Inked(p: Picture, w: int, h: int, x: int, y: int) {
    0 <= x < w && 0 <= y < h && At(p, x, y) != TRANSPARENT
  }

  /** All the ink of a canvas of `w` x `h` lies in the area `r`. */
  ghost predicate InkWithin(p: Picture, w: int, h: int, r: Rect) {
    forall x, y :: Inked(p, w, h, x, y) ==> r.Covers(x, y)
  }

  // ---- Entries and what they paint ----------------------------------------------------------

  /** A placed bitmap: the area of `source` at (ax, ay), copied to `rect`. */
  datatype Entry = Entry(rect: Rect, source: Source, ax: int, ay: int, color: bool)

  function Texel(e: Entry, x: int, y: int): Pixel {
    Stored(PixelOf(e.source, e.ax + x - e.rect.x, e.ay + y - e.rect.y), e.color)
  }

  /** The picture `live` makes on a transparent image. */
  ghost function Painted(live: seq<Entry>, x: int, y: int): Pixel {
    if live == [] then TRANSPARENT
    else
      var last := live[|live| - 1];
      if last.rect.Covers(x, y) then Texel(last, x, y)
      else Painted(live[..|live| - 1], x, y)
  }

  ghost predicate AllApart(live: seq<Entry>) {
    forall i, j {:trigger Apart(live[i].rect, live[j].rect)} :: 0 <= i < j < |live| ==>
      Apart(live[i].rect, live[j].rect)
  }

  predicate Inside(r: Rect, size: int) {
    1 <= r.x && 0 <= r.w && r.x + r.w <= size && 1 <= r.y && 0 <= r.h && r.y + r.h <= size
  }

  ghost predicate AllInside(live: seq<Entry>, size: int) {
    forall i :: 0 <= i < |live| ==> Inside(live[i].rect, size)
  }

  /** Each entry still holds exactly what was placed in it. */
  lemma {:induction false} EntryKeepsItsPixels(live: seq<Entry>, i: nat, x: int, y: int)
    requires AllApart(live) && i < |live| && live[i].rect.Covers(x, y)
    ensures Painted(live, x, y) == Texel(live[i], x, y)
  {
    var n := |live| - 1;
    if i < n {
      assert Apart(live[i].rect, live[n].rect);
      EntryKeepsItsPixels(live[..n], i, x, y);
    }
  }

  /** Every texel outside the entries is transparent. */
  lemma {:induction false} OutsideIsTransparent(live: seq<Entry>, x: int, y: int)
    requires forall i :: 0 <= i < |live| ==> !live[i].rect.Covers(x, y)
    ensures Painted(live, x, y) == TRANSPARENT
  {
    if live != [] {
      OutsideIsTransparent(live[..|live| - 1], x, y);
    }
  }

  lemma PaintedOnce(live: seq<Entry>, e: Entry, x: int, y: int)
    ensures Painted(live + [e], x, y) ==
            if e.rect.Covers(x, y) then Texel(e, x, y) else Painted(live, x, y)
  {
    assert (live + [e])[..|live|] == live;
  }

  // ---- The shelf ----------------------------------------------------------------------------

  const INITIAL_SIZE := 512
  const MAX_SIZE := 4096

  predicate LegalSize(size: int) {
    size == 0 || size == 512 || size == 1024 || size == 2048 || size == 4096
  }

  datatype Shelf = Shelf(x: int, y: int, height: int)

  /** Every entry is on an earlier shelf, or to the left of the cursor on the current one. */
  ghost predicate ShelfHolds(s: Shelf, live: seq<Entry>) {
    && 1 <= s.x && 1 <= s.y && 0 <= s.height
    && forall i :: 0 <= i < |live| ==> OnShelf(s, live[i].rect)
  }

  predicate OnShelf(s: Shelf, r: Rect) {
    || r.y + r.h < s.y
    || (r.y == s.y && r.h < s.height && r.x + r.w < s.x)
  }

  /** Whether an entry of `w` x `h` (and its gutter) can be placed without moving the atlas. */
  predicate Fits(s: Shelf, size: int, w: int, h: int) {
    && w + 1 <= size && h + 1 <= size
    && (if s.x + w + 1 > size then s.y + s.height else s.y) + h + 1 <= size
  }

  /** The place at the cursor is apart from everything on the shelves. */
  lemma CursorIsApart(s: Shelf, live: seq<Entry>, i: nat, r: Rect)
    requires ShelfHolds(s, live) && i < |live| && r.x == s.x && r.y == s.y
    ensures Apart(live[i].rect, r)
  {
  }

  // ---- Glyphs and caches --------------------------------------------------------------------

  datatype Glyph = Glyph(rect: Rect, offX: int, offY: int, color: bool, valid: bool)

  const NO_GLYPH := Glyph(NOWHERE, 0, 0, false, false)

  predicate KeyInRange(k: Key) {
    && k.style < 4
    && (!k.Indexed? ==> 1 <= k.span <= 2)
    && (k.Single? ==> k.ch <= 0x10FFFF)
    && (k.Indexed? ==> k.index < 0x1_0000_0000)
  }

  /** The keys of the three hash tables, packed as they are stored. */
  function FastKey(ch: nat, style: nat, span: nat): nat {
    style * 0x40_0000 + (if span == 2 then 0x20_0000 else 0) + ch
  }

  function ClusterKey(text: seq<nat>, style: nat, span: nat): seq<int> {
    [65 + style * 2 + span - 1] + text
  }

  function IndexKey(index: nat, style: nat): nat {
    style * 0x1_0000_0000 + index
  }

  /** Packing never confuses two keys of the same table, so the tables are one map from keys. */
  lemma PackedKeysDiffer(a: Key, b: Key)
    requires KeyInRange(a) && KeyInRange(b)
    ensures a.Single? && b.Single? ==>
              (FastKey(a.ch, a.style, a.span) == FastKey(b.ch, b.style, b.span) ==> a == b)
    ensures a.Cluster? && b.Cluster? ==>
              (ClusterKey(a.text, a.style, a.span) == ClusterKey(b.text, b.style, b.span) ==> a == b)
    ensures a.Indexed? && b.Indexed? ==>
              (IndexKey(a.index, a.style) == IndexKey(b.index, b.style) ==> a == b)
  {
    if a.Cluster? && b.Cluster? {
      var p, q := ClusterKey(a.text, a.style, a.span), ClusterKey(b.text, b.style, b.span);
      assert p[1..] == a.text && q[1..] == b.text;
      assert p == q ==> p[0] == q[0];
    }
  }

  /** The state of the atlas, but for the texels of its image. */
  datatype View = View(
    metrics: Metrics,
    size: int,
    shelf: Shelf,
    dirty: bool,
    generation: nat,
    // Since `BeginFrame`: a clear, the time spent, the glyphs left for later.
    cleared: bool,
    frameNs: nat,
    deferred: nat,
    glyphs: map<Key, Glyph>,
    // What was painted for each cached glyph, and for the curly tile.
    drawn: map<Key, Picture>,
    solid: Rect,
    curly: Glyph,
    curlyTile: Picture,
    // What was placed since the last clear.
    live: seq<Entry>,
    // The runs of text that were shaped, and how often a full list of them was dropped.
    shaped: set<Shaping>,
    flushes: nat,
    // Whether memory for an image was missing since the last clear.
    starved: bool)

  /** A run of text in one style. */
  datatype Shaping = Shaping(text: seq<nat>, style: nat)

  const MAX_SHAPED := 4096

  function OfStyle(shaped: set<Shaping>, style: nat): set<Shaping> { set t | t in shaped && t.style == style }

  /** The area of the canvas of `k` that `g` shows. */
  function AreaOf(m: Metrics, k: Key, g: Glyph): Rect {
    Rect(g.offX + PadX(m, k), g.offY + Pad(m), g.rect.w, g.rect.h)
  }

  function EntryOf(m: Metrics, k: Key, p: Picture, g: Glyph): Entry {
    var area := AreaOf(m, k, g);
    Entry(g.rect, Painting(p), area.x, area.y, g.color)
  }

  /** A valid glyph of `k`, painted as `p`, shows all its ink and (unless blank) names an entry
      placed since the last clear. */
  ghost predicate Shows(v: View, k: Key, p: Picture, g: Glyph) {
    g.valid ==>
      && InkWithin(p, CanvasWidth(v.metrics, k), CanvasHeight(v.metrics), AreaOf(v.metrics, k, g))
      && (g.rect != NOWHERE ==> EntryOf(v.metrics, k, p, g) in v.live)
  }

  ghost predicate CachesAlive(v: View) {
    forall k :: k in v.glyphs ==> k in v.drawn && Shows(v, k, v.drawn[k], v.glyphs[k])
  }

  ghost predicate MarksAlive(v: View) {
    && (v.size > 0 ==> Entry(v.solid, White, 0, 0, true) in v.live && v.solid.w == v.solid.h == 4)
    && (v.curly.valid ==>
          !v.curly.color && Entry(v.curly.rect, Painting(v.curlyTile), 0, 0, false) in v.live)
  }

  ghost predicate Packed(v: View) {
    && LegalSize(v.size) && ShelfHolds(v.shelf, v.live) && AllInside(v.live, v.size) && AllApart(v.live)
    && (v.size > 0 ==> Bottom(v.shelf) <= v.size) && (v.size == 0 ==> v.starved)
  }

  /** How far down the shelves reach. */
  function Bottom(s: Shelf): int { s.y + s.height }

  /** A bitmap of `w` x `h` may have found no room: memory was missing, it is larger than the smallest
      image, or the shelves of the largest one are full. */
  predicate Crowded(v: View, w: int, h: int) {
    v.starved || w + 1 > INITIAL_SIZE || h + 1 > INITIAL_SIZE || Bottom(v.shelf) + h + 1 > MAX_SIZE
  }

  /** There is nothing to paint for `k`, or its canvas may have found no room. */
  predicate Cramped(v: View, k: Key) {
    || !v.metrics.Valid() || (k.Cluster? && k.text == [])
    || Crowded(v, CanvasWidth(v.metrics, k), CanvasHeight(v.metrics))
  }

  /** No other glyph that was rasterized is missing. */
  ghost predicate Complete(v: View) {
    forall k :: k in v.glyphs ==> v.glyphs[k].valid || Cramped(v, k)
  }

  ghost predicate Sound(v: View) {
    Packed(v) && CachesAlive(v) && MarksAlive(v) && Complete(v)
  }

  /** Placing more keeps everything named alive. */
  lemma StaysSound(a: View, b: View)
    requires Sound(a) && Packed(b)
    requires a.live <= b.live && b == a.(shelf := b.shelf, dirty := b.dirty, live := b.live)
    requires Bottom(a.shelf) <= Bottom(b.shelf)
    ensures Sound(b)
  {
  }

  // ---- What a frame may do to the atlas -----------------------------------------------------

  const FRAME_BUDGET_NS := 4_000_000

  ghost predicate Spent(v: View) { v.frameNs >= FRAME_BUDGET_NS }

  /** Nothing can move the glyphs for the rest of the frame. */
  ghost predicate Frozen(v: View) {
    v.size == 0 || (v.size >= MAX_SIZE && v.cleared)
  }

  /** Nothing that was cached or placed is lost. */
  ghost predicate Keeps(a: View, b: View) {
    && (forall k :: k in a.glyphs ==> k in b.glyphs && b.glyphs[k] == a.glyphs[k])
    && a.live <= b.live
  }

  /** What quads depend on, but for the glyphs; and whether there was a clear. */
  function Layout(v: View): (int, Rect, Glyph, bool) { (v.size, v.solid, v.curly, v.cleared) }

  /** How any work between two calls of `BeginFrame` can change the atlas. */
  ghost predicate Progress(a: View, b: View) {
    && b.metrics == a.metrics
    && a.generation <= b.generation && a.frameNs <= b.frameNs && a.deferred <= b.deferred
    && (a.cleared ==> b.cleared)
    && (b.dirty || (!a.dirty && b.live == a.live && b.size == a.size))
    && (b.generation == a.generation ==> Layout(b) == Layout(a))
    && (b.cleared == a.cleared ==> Keeps(a, b))
    && (b.cleared != a.cleared ==> Frozen(b))
    && (Frozen(a) ==> b.generation == a.generation)
    && (b.deferred > a.deferred ==> Spent(b))
  }

  lemma ProgressComposes(a: View, b: View, c: View)
    requires Progress(a, b) && Progress(b, c)
    ensures Progress(a, c)
  {
  }

  /** A glyph or a shaped run is there that wasn't. */
  ghost predicate Adds(a: View, b: View) {
    || (exists k :: k in b.glyphs && k !in a.glyphs)
    || (exists t :: t in b.shaped && t !in a.shaped)
  }

  /** No glyph or run was added but these. */
  ghost predicate OnlyFor(a: View, b: View, keys: set<Key>, runs: set<Shaping>) {
    b.glyphs.Keys <= a.glyphs.Keys + keys && b.shaped <= a.shaped + runs
  }

  lemma OnlyForBoth(a: View, b: View, c: View, keys: set<Key>, runs: set<Shaping>)
    requires OnlyFor(a, b, keys, runs) && OnlyFor(b, c, keys, runs)
    ensures OnlyFor(a, c, keys, runs)
  {
  }

  /** How many of these are not there yet. */
  ghost function Missing(v: View, keys: set<Key>, runs: set<Shaping>): nat {
    |keys - v.glyphs.Keys| + |runs - v.shaped|
  }

  lemma Smaller<T>(a: set<T>, b: set<T>)
    requires a <= b
    ensures |a| <= |b| && (a != b ==> |a| < |b|)
  {
    assert b == a + (b - a);
  }

  /** Adding something, of these only, and losing nothing, leaves fewer of them to add. */
  lemma FewerMissing(a: View, b: View, keys: set<Key>, runs: set<Shaping>)
    requires Keeps(a, b) && a.shaped <= b.shaped && Adds(a, b) && OnlyFor(a, b, keys, runs)
    ensures Missing(b, keys, runs) < Missing(a, keys, runs)
  {
    Smaller(keys - b.glyphs.Keys, keys - a.glyphs.Keys);
    Smaller(runs - b.shaped, runs - a.shaped);
    if k :| k in b.glyphs && k !in a.glyphs {
      assert k in keys - a.glyphs.Keys && k !in keys - b.glyphs.Keys;
    } else {
      var t :| t in b.shaped && t !in a.shaped;
      assert t in runs - a.shaped && t !in runs - b.shaped;
    }
  }

  ghost predicate NothingDropped(a: View, b: View) { b.cleared == a.cleared && b.flushes == a.flushes }

  /** Time is only spent on something new: unless the atlas was cleared or the shaped runs dropped,
      it is kept. */
  ghost predicate Worked(a: View, b: View) {
    && a.flushes <= b.flushes
    && (NothingDropped(a, b) ==> a.shaped <= b.shaped && (b.frameNs > a.frameNs ==> Adds(a, b)))
  }

  /** `Progress` that also keeps to the budget: once it is spent, nothing but the count of what is
      left for later changes. */
  ghost predicate Advance(a: View, b: View) {
    exists ns: nat, later: nat :: AdvanceBy(a, b, ns, later)
  }

  /** The same, with the time spent and the number of glyphs and runs left for later. */
  ghost predicate AdvanceBy(a: View, b: View, ns: nat, later: nat) {
    && b.frameNs == a.frameNs + ns && b.deferred == a.deferred + later
    && Progress(a, b) && Worked(a, b)
    && (Spent(a) ==> b == a.(frameNs := b.frameNs, deferred := b.deferred))
  }

  lemma IsAdvance(a: View, b: View)
    requires Progress(a, b) && Worked(a, b) && (Spent(a) ==> b == a.(frameNs := b.frameNs, deferred := b.deferred))
    ensures Advance(a, b)
  {
    assert AdvanceBy(a, b, b.frameNs - a.frameNs, b.deferred - a.deferred);
  }

  lemma AdvanceComposes(a: View, b: View, c: View)
    requires Advance(a, b) && Advance(b, c)
    ensures Advance(a, c)
  {
    ProgressComposes(a, b, c);
    WorkedComposes(a, b, c);
    IsAdvance(a, c);
  }

  lemma WorkedComposes(a: View, b: View, c: View)
    requires Progress(a, b) && Progress(b, c) && Worked(a, b) && Worked(b, c)
    ensures Worked(a, c)
  {
    if NothingDropped(a, c) && c.frameNs > a.frameNs {
      if b.frameNs > a.frameNs {
        AddsStay(a, b, c);
      } else {
        AddsBefore(a, b, c);
      }
    }
  }

  lemma AddsStay(a: View, b: View, c: View)
    requires Adds(a, b) && Keeps(b, c) && b.shaped <= c.shaped
    ensures Adds(a, c)
  {
    if k :| k in b.glyphs && k !in a.glyphs {
      assert k in c.glyphs;
    } else {
      var t :| t in b.shaped && t !in a.shaped;
      assert t in c.shaped;
    }
  }

  lemma AddsBefore(a: View, b: View, c: View)
    requires Adds(b, c) && Keeps(a, b) && a.shaped <= b.shaped
    ensures Adds(a, c)
  {
    if k :| k in c.glyphs && k !in b.glyphs {
      assert k !in a.glyphs;
    } else {
      var t :| t in c.shaped && t !in b.shaped;
      assert t !in a.shaped;
    }
  }

  /** Only time was spent, on shaping, or something left for later. */
  ghost predicate Charged(a: View, b: View) {
    && a.frameNs <= b.frameNs && a.deferred <= b.deferred && (b.deferred > a.deferred ==> Spent(b))
    && b == a.(frameNs := b.frameNs, deferred := b.deferred, shaped := b.shaped, flushes := b.flushes)
    && Worked(a, b) && (Spent(a) ==> b == a.(frameNs := b.frameNs, deferred := b.deferred))
  }

  /** What asking for the shape of a run does: it is known, left for later, or found and kept. */
  ghost predicate Shaped(a: View, b: View, run: Shaping, done: bool) {
    && Charged(a, b) && (done <==> b.deferred == a.deferred) && OnlyFor(a, b, {}, {run})
    && (run in a.shaped ==> b == a)
    && (run !in a.shaped && Spent(a) ==> b == a.(deferred := a.deferred + 1))
    && (run !in a.shaped && !Spent(a) ==> done && run in b.shaped)
    && (b.flushes != a.flushes ==> Full(a.shaped, run.style))
  }

  lemma ChargedIsAdvance(a: View, b: View)
    requires Charged(a, b)
    ensures Advance(a, b)
  {
    IsAdvance(a, b);
  }

  lemma StayingIsAdvance(v: View)
    ensures Advance(v, v)
  {
    IsAdvance(v, v);
  }

  /** What placing an area does. It fails only when there is no room (or no memory to make it),
      after the atlas grew or was cleared if it could. */
  ghost predicate Placed(a: View, b: View, w: int, h: int, ok: bool) {
    && Progress(a, b) && b.frameNs == a.frameNs && b.deferred == a.deferred && b.flushes == a.flushes
    && (ok || (!Fits(b.shelf, b.size, w, h) && Crowded(b, w, h)))
    && (Fits(a.shelf, a.size, w, h) ==> ok && b.generation == a.generation)
    && (b.cleared == a.cleared ==>
          && b.glyphs == a.glyphs && b.drawn == a.drawn && b.solid == a.solid && b.curly == a.curly
          && b.shaped == a.shaped)
    && b.shaped <= a.shaped
    && (b.cleared != a.cleared ==> a.size >= MAX_SIZE && b.glyphs == map[])
    && (b.cleared == a.cleared && b.generation != a.generation ==>
          b.generation == a.generation + 1 && b.size == 2 * a.size && a.size < MAX_SIZE)
    && (a.size >= MAX_SIZE && !ok ==> b.cleared)
  }

  /** Room was tried for, without moving anything. */
  ghost predicate Tried(a: View, b: View, e: Entry, ok: bool) {
    && ok == Fits(a.shelf, a.size, e.rect.w, e.rect.h) && Bottom(a.shelf) <= Bottom(b.shelf)
    && (ok ==> b == a.(shelf := b.shelf, dirty := true, live := a.live + [e]))
    && (!ok ==> b == a.(shelf := b.shelf) && !Fits(b.shelf, b.size, e.rect.w, e.rect.h))
  }

  /** Room was made by growing or clearing, if it could be. */
  ghost predicate MadeRoom(a: View, b: View, stuck: bool) {
    if a.size < MAX_SIZE then
      if stuck then b == a.(starved := true)
      else 0 < a.size && b == a.(size := 2 * a.size, dirty := true, generation := a.generation + 1)
    else
      && !stuck
      && (if a.cleared then b == a
          else Cleared(a.(cleared := true), b, MAX_SIZE) && b.generation > a.generation)
  }

  lemma PlacedAtOnce(a: View, b: View, e: Entry)
    requires Tried(a, b, e, true)
    ensures Placed(a, b, e.rect.w, e.rect.h, true)
  {
  }

  lemma PlacedAfterAll(a: View, b: View, c: View, d: View, stuck: bool, e: Entry, ok: bool)
    requires !Fits(a.shelf, a.size, e.rect.w, e.rect.h) && b == a.(shelf := b.shelf)
    requires !Fits(b.shelf, b.size, e.rect.w, e.rect.h) && Packed(b) && Packed(c)
    requires MadeRoom(b, c, stuck) && (stuck ==> c == d && !ok) && (!stuck ==> Tried(c, d, e, ok))
    ensures Placed(a, d, e.rect.w, e.rect.h, ok)
  {
  }

  /** The list of a style is dropped when it is full. */
  predicate Full(shaped: set<Shaping>, style: nat) { |OfStyle(shaped, style)| >= MAX_SHAPED }

  function WithRun(shaped: set<Shaping>, run: Shaping): set<Shaping> {
    (if Full(shaped, run.style) then shaped - OfStyle(shaped, run.style) else shaped) + {run}
  }

  function Remembering(v: View, run: Shaping, elapsed: nat): View {
    v.(shaped := WithRun(v.shaped, run), frameNs := v.frameNs + elapsed,
       flushes := v.flushes + if Full(v.shaped, run.style) then 1 else 0)
  }

  lemma SoundStill(a: View, b: View)
    requires Sound(a) && b == a.(shaped := b.shaped, flushes := b.flushes, frameNs := b.frameNs, deferred := b.deferred)
    ensures Sound(b)
  {
  }

  lemma ShapedBefore(v: View, run: Shaping)
    requires run in v.shaped
    ensures Shaped(v, v, run, true)
  {
  }

  lemma ShapedLater(v: View, run: Shaping)
    requires run !in v.shaped && Spent(v)
    ensures Shaped(v, v.(deferred := v.deferred + 1), run, false)
  {
  }

  lemma ShapedNow(v: View, run: Shaping, elapsed: nat)
    requires run !in v.shaped && !Spent(v)
    ensures Shaped(v, Remembering(v, run, elapsed), run, true)
  {
    WithRunKeeps(v.shaped, run);
    var u := Remembering(v, run, elapsed);
    assert run in u.shaped;
  }

  lemma WithRunKeeps(shaped: set<Shaping>, run: Shaping)
    ensures run in WithRun(shaped, run) && WithRun(shaped, run) <= shaped + {run}
    ensures !Full(shaped, run.style) ==> WithRun(shaped, run) == shaped + {run}
  {
  }

  /** What a clear to an image of `size` leaves: an empty atlas (with none if there is no memory). */
  ghost predicate Cleared(a: View, b: View, size: int) {
    && b.metrics == a.metrics && b.cleared == a.cleared && b.dirty && b.flushes == a.flushes && b.shaped <= a.shaped
    && b.frameNs == a.frameNs && b.deferred == a.deferred
    && b.glyphs == map[] && (b.size == 0 || b.size >= size) && (size == 0 ==> b.size == 0)
  }

  /** What asking for the glyph of `k` does: a cached glyph is returned; with the budget spent
      it is left for later; otherwise it is rasterized and cached. */
  ghost predicate Fetched(a: View, b: View, k: Key, g: Glyph) {
    && Advance(a, b) && OnlyFor(a, b, {k}, {})
    && (k in a.glyphs ==> b == a && g == a.glyphs[k])
    && (k !in a.glyphs && Spent(a) ==> b == a.(deferred := a.deferred + 1) && g == NO_GLYPH)
    && (k !in a.glyphs && !Spent(a) ==>
          k in b.glyphs && g == b.glyphs[k] && b.deferred == a.deferred && (g.valid || NoRoomFor(b, k)))
  }

  /** What rasterizing the glyph of `k` does: its ink is placed, and time spent. */
  ghost predicate Rasterized(a: View, b: View, k: Key, p: Picture, g: Glyph) {
    exists c :: InkPlaced(a, c, k, p, g) && c.frameNs <= b.frameNs && b == c.(frameNs := b.frameNs)
  }

  /** What placing the ink of `k` does: unless there is no room for it, it is shown. */
  ghost predicate InkPlaced(a: View, b: View, k: Key, p: Picture, g: Glyph) {
    && Progress(a, b) && b.deferred == a.deferred
    && (b.cleared == a.cleared ==> b.glyphs == a.glyphs && b.drawn == a.drawn && b.shaped == a.shaped)
    && (b.cleared != a.cleared ==> b.glyphs == map[]) && b.flushes == a.flushes && b.shaped <= a.shaped
    && Shows(b, k, p, g) && (g.valid || NoRoomFor(b, k))
  }

  /** The canvas of `k` doesn't fit (or there is nothing to paint), and that is for want of room. */
  predicate NoRoomFor(v: View, k: Key) {
    && Cramped(v, k)
    && (|| !v.metrics.Valid() || (k.Cluster? && k.text == [])
        || !Fits(v.shelf, v.size, CanvasWidth(v.metrics, k), CanvasHeight(v.metrics)))
  }

  lemma NothingIsPlaced(v: View, k: Key)
    requires !v.metrics.Valid() || (k.Cluster? && k.text == [])
    ensures InkPlaced(v, v, k, map[], NO_GLYPH)
  {
  }

  lemma BlankIsPlaced(v: View, k: Key, p: Picture)
    requires forall x, y :: !Inked(p, CanvasWidth(v.metrics, k), CanvasHeight(v.metrics), x, y)
    ensures InkPlaced(v, v, k, p, Glyph(NOWHERE, 0, 0, false, true))
  {
  }

  lemma InkIsPlaced(a: View, b: View, k: Key, p: Picture, ink: Rect, color: bool, ok: bool, placed: Rect)
    requires Sound(b) && Placed(a, b, ink.w, ink.h, ok) && a.metrics.Valid()
    requires ok ==> placed.w == ink.w && placed.h == ink.h && Entry(placed, Painting(p), ink.x, ink.y, color) in b.live
    requires var w, h := CanvasWidth(a.metrics, k), CanvasHeight(a.metrics);
             InkWithin(p, w, h, ink) && ink.w <= w && ink.h <= h
    ensures var g := if ok then Glyph(placed, ink.x - PadX(a.metrics, k), ink.y - Pad(a.metrics), color, true) else NO_GLYPH;
            InkPlaced(a, b, k, p, g)
  {
    var m := a.metrics;
    if ok {
      var g := Glyph(placed, ink.x - PadX(m, k), ink.y - Pad(m), color, true);
      assert AreaOf(m, k, g) == ink;
    } else if Fits(b.shelf, b.size, CanvasWidth(m, k), CanvasHeight(m)) {
      SmallerFits(b.shelf, b.size, ink.w, ink.h, CanvasWidth(m, k), CanvasHeight(m));
    }
  }

  lemma PlacedInTime(a: View, b: View, k: Key, p: Picture, g: Glyph)
    requires Rasterized(a, b, k, p, g)
    ensures InkPlaced(a, b, k, p, g)
  {
    var c :| InkPlaced(a, c, k, p, g) && c.frameNs <= b.frameNs && b == c.(frameNs := b.frameNs);
  }

  lemma FetchedBefore(v: View, k: Key)
    requires k in v.glyphs
    ensures Fetched(v, v, k, v.glyphs[k])
  {
    StayingIsAdvance(v);
  }

  lemma FetchedLater(v: View, k: Key)
    requires Sound(v) && k !in v.glyphs && Spent(v)
    ensures Fetched(v, v.(deferred := v.deferred + 1), k, NO_GLYPH) && Sound(v.(deferred := v.deferred + 1))
  {
    IsAdvance(v, v.(deferred := v.deferred + 1));
  }

  lemma CachedAfterRasterizing(a: View, b: View, c: View, k: Key, p: Picture, g: Glyph)
    requires Sound(b) && Rasterized(a, b, k, p, g) && k !in a.glyphs && !Spent(a)
    requires c == b.(glyphs := b.glyphs[k := g], drawn := b.drawn[k := p])
    ensures Sound(c) && Fetched(a, c, k, g)
  {
    PlacedInTime(a, b, k, p, g);
    CachedIsFetched(a, b, c, k, p, g);
  }

  lemma CachedIsFetched(a: View, b: View, c: View, k: Key, p: Picture, g: Glyph)
    requires InkPlaced(a, b, k, p, g) && k !in a.glyphs && !Spent(a)
    requires c == b.(glyphs := b.glyphs[k := g], drawn := b.drawn[k := p])
    ensures Fetched(a, c, k, g)
  {
    assert k in c.glyphs;
    IsAdvance(a, c);
  }

  // ---- Ink ----------------------------------------------------------------------------------

  /** Ink touches the four sides of `r`. */
  ghost predicate Tight(p: Picture, w: int, h: int, r: Rect) {
    && InkInColumn(p, w, h, r.x) && InkInColumn(p, w, h, r.x + r.w - 1)
    && InkInRow(p, w, h, r.y) && InkInRow(p, w, h, r.y + r.h - 1)
  }

  ghost predicate InkInColumn(p: Picture, w: int, h: int, x: int) {
    exists y :: Inked(p, w, h, x, y)
  }

  ghost predicate InkInRow(p: Picture, w: int, h: int, y: int) {
    exists x :: Inked(p, w, h, x, y)
  }

  /** The bounding box of the ink of a glyph's canvas (nowhere if it is blank), and whether the
      glyph has color. */
  method InkBounds(p: Picture, w: int, h: int) returns (r: Rect, color: bool)
    requires w >= 0 && h >= 0
    ensures InkWithin(p, w, h, r)
    ensures r == NOWHERE || (r.w > 0 && r.h > 0 && Tight(p, w, h, r))
    ensures 0 <= r.w <= w && 0 <= r.h <= h
    ensures color <==> exists x, y :: Inked(p, w, h, x, y) && Colored(At(p, x, y))
  {
    var minX, minY, maxX, maxY := w, h, -1, -1;
    color := false;
    for y := 0 to h
      invariant Boxed(p, w, h, minX, minY, maxX, maxY, 0, y)
      invariant color <==> ColorSeen(p, w, h, 0, y)
    {
      minX, minY, maxX, maxY, color := ScanRow(p, w, h, y, minX, minY, maxX, maxY, color);
    }
    r := if maxX >= 0 then Rect(minX, minY, maxX - minX + 1, maxY - minY + 1) else NOWHERE;
    CanvasScanned(p, w, h, minX, minY, maxX, maxY);
  }

  method ScanRow(p: Picture, w: int, h: int, y: int, left: int, top: int, right: int, bottom: int,
                 colored: bool)
    returns (minX: int, minY: int, maxX: int, maxY: int, color: bool)
    requires w >= 0 && 0 <= y < h
    requires Boxed(p, w, h, left, top, right, bottom, 0, y) && (colored <==> ColorSeen(p, w, h, 0, y))
    ensures Boxed(p, w, h, minX, minY, maxX, maxY, 0, y + 1) && (color <==> ColorSeen(p, w, h, 0, y + 1))
  {
    minX, minY, maxX, maxY, color := left, top, right, bottom, colored;
    for x := 0 to w
      invariant Boxed(p, w, h, minX, minY, maxX, maxY, x, y)
      invariant color <==> ColorSeen(p, w, h, x, y)
    {
      BoxGrows(p, w, h, minX, minY, maxX, maxY, x, y);
      ColorIsSeen(p, w, h, x, y);
      var pixel := At(p, x, y);
      if pixel != TRANSPARENT {
        minX, maxX := Min(minX, x), Max(maxX, x);
        minY, maxY := Min(minY, y), Max(maxY, y);
        color := color || Colored(pixel);
      }
    }
    RowScanned(p, w, h, minX, minY, maxX, maxY, y);
  }

  lemma CanvasScanned(p: Picture, w: int, h: int, minX: int, minY: int, maxX: int, maxY: int)
    requires Boxed(p, w, h, minX, minY, maxX, maxY, 0, h)
    ensures maxX < 0 ==> InkWithin(p, w, h, NOWHERE)
    ensures maxX >= 0 ==> InkWithin(p, w, h, Rect(minX, minY, maxX - minX + 1, maxY - minY + 1))
    ensures ColorSeen(p, w, h, 0, h) <==> exists x, y :: Inked(p, w, h, x, y) && Colored(At(p, x, y))
  {
    assert forall x, y :: Inked(p, w, h, x, y) ==> Scanned(x, y, 0, h);
  }

  /** The scan of a canvas, row by row, passed (px, py) before it reached (x, y). */
  predicate Scanned(px: int, py: int, x: int, y: int) {
    py < y || (py == y && px < x)
  }

  /** The box is that of the ink scanned so far. */
  ghost predicate Boxed(p: Picture, w: int, h: int,
                        minX: int, minY: int, maxX: int, maxY: int, x: int, y: int) {
    && (forall px, py :: Inked(p, w, h, px, py) && Scanned(px, py, x, y) ==>
          minX <= px <= maxX && minY <= py <= maxY)
    && (maxX < 0 ==> minX == w && minY == h && maxX == maxY == -1)
    && (maxX >= 0 ==>
          && 0 <= minX <= maxX < w && 0 <= minY <= maxY < h
          && InkInColumn(p, w, h, minX) && InkInColumn(p, w, h, maxX)
          && InkInRow(p, w, h, minY) && InkInRow(p, w, h, maxY))
  }

  ghost predicate ColorSeen(p: Picture, w: int, h: int, x: int, y: int) {
    exists px, py :: Inked(p, w, h, px, py) && Scanned(px, py, x, y) &&
                     Colored(At(p, px, py))
  }

  lemma BoxGrows(p: Picture, w: int, h: int,
                 minX: int, minY: int, maxX: int, maxY: int, x: int, y: int)
    requires Boxed(p, w, h, minX, minY, maxX, maxY, x, y)
    requires 0 <= x < w && 0 <= y < h
    ensures if Inked(p, w, h, x, y)
            then Boxed(p, w, h, Min(minX, x), Min(minY, y), Max(maxX, x), Max(maxY, y), x + 1, y)
            else Boxed(p, w, h, minX, minY, maxX, maxY, x + 1, y)
  {
    assert Inked(p, w, h, x, y) ==> InkInColumn(p, w, h, x) && InkInRow(p, w, h, y);
  }

  lemma ColorIsSeen(p: Picture, w: int, h: int, x: int, y: int)
    ensures ColorSeen(p, w, h, x + 1, y) <==>
            ColorSeen(p, w, h, x, y) || (Inked(p, w, h, x, y) && Colored(At(p, x, y)))
  {
    if ColorSeen(p, w, h, x + 1, y) {
      var px, py :| Inked(p, w, h, px, py) && Scanned(px, py, x + 1, y) &&
                    Colored(At(p, px, py));
      assert (px == x && py == y) || Scanned(px, py, x, y);
    }
    if Inked(p, w, h, x, y) {
      assert Scanned(x, y, x + 1, y);
    }
    if ColorSeen(p, w, h, x, y) {
      var px, py :| Inked(p, w, h, px, py) && Scanned(px, py, x, y) &&
                    Colored(At(p, px, py));
      assert Scanned(px, py, x + 1, y);
    }
  }

  lemma RowScanned(p: Picture, w: int, h: int,
                   minX: int, minY: int, maxX: int, maxY: int, y: int)
    requires Boxed(p, w, h, minX, minY, maxX, maxY, w, y)
    ensures Boxed(p, w, h, minX, minY, maxX, maxY, 0, y + 1)
    ensures ColorSeen(p, w, h, w, y) <==> ColorSeen(p, w, h, 0, y + 1)
  {
    assert forall px, py :: Inked(p, w, h, px, py) ==>
        (Scanned(px, py, w, y) <==> Scanned(px, py, 0, y + 1));
  }

  /** What is smaller fits where something larger does. */
  lemma SmallerFits(s: Shelf, size: int, w: int, h: int, width: int, height: int)
    requires s.height >= 0 && w <= width && h <= height && Fits(s, size, width, height)
    ensures Fits(s, size, w, h)
  {
  }

  /** A Unicode scalar value, or U+FFFD. */
  function Sanitize(codePoint: nat): (ch: nat)
    ensures ch <= 0x10FFFF && !(0xD800 <= ch <= 0xDFFF)
    ensures ch == codePoint || ch == 0xFFFD
  {
    if codePoint > 0x10FFFF || 0xD800 <= codePoint <= 0xDFFF then 0xFFFD else codePoint
  }

  /** The key of a code point, from arguments that may be out of range. */
  function SingleKey(ch: nat, style: nat, span: nat): (k: Key)
    ensures KeyInRange(k)
  {
    Single(Sanitize(ch), style % 4, if span == 2 then 2 else 1)
  }

  /** Where filled rectangles sample the white block: half a texel past its center. */
  function SolidTexel(solid: Rect): Point {
    Point(solid.x + (solid.w - 1) / 2 + 1, solid.y + (solid.h - 1) / 2 + 1)
  }

  // ---- The atlas ----------------------------------------------------------------------------

  class Atlas {
    var image: array2<Pixel>
    var now: View

    /** The image shows what was placed, and nothing else. */
    ghost predicate ImageShows()
      reads this, image
    {
      && image.Length0 == image.Length1 == now.size
      && forall x, y :: 0 <= x < now.size && 0 <= y < now.size ==>
           image[y, x] == Painted(now.live, x, y)
    }

    ghost predicate Valid()
      reads this, image
    {
      Sound(now) && ImageShows()
    }

    constructor (metrics: Metrics)
      ensures Valid() && fresh(image)
      ensures now.metrics == metrics && now.size == 0
      ensures now.generation == 0 && now.glyphs == map[]
    {
      image := new Pixel[0, 0];
      now := View(metrics, 0, Shelf(1, 1, 0), false, 0, false, 0, 0, map[], map[], NOWHERE, NO_GLYPH,
                  map[], [], {}, 0, true);
    }

    /** Finds room for `w` x `h` texels and a gutter: succeeds exactly when they fit, inside the
        image and apart from everything placed. */
    method Allocate(w: int, h: int) returns (ok: bool, x: int, y: int)
      requires w >= 0 && h >= 0
      requires Packed(now)
      modifies this`now
      ensures now == old(now).(shelf := now.shelf) && Packed(now)
      ensures ok == Fits(old(now).shelf, now.size, w, h)
      ensures !ok ==> !Fits(now.shelf, now.size, w, h)
      ensures Bottom(old(now).shelf) <= Bottom(now.shelf)
      ensures ok ==> Inside(Rect(x, y, w, h), now.size)
      ensures ok ==> OnShelf(now.shelf, Rect(x, y, w, h))
      ensures ok ==> forall i :: 0 <= i < |now.live| ==> Apart(now.live[i].rect, Rect(x, y, w, h))
    {
      x, y := 0, 0;
      var width, height := w + 1, h + 1;
      if width > now.size || height > now.size {
        return false, x, y;
      }
      if now.shelf.x + width > now.size {
        now := now.(shelf := Shelf(1, now.shelf.y + now.shelf.height, 0));
      }
      if now.shelf.y + height > now.size {
        return false, x, y;
      }
      x, y := now.shelf.x, now.shelf.y;
      forall i | 0 <= i < |now.live|
        ensures Apart(now.live[i].rect, Rect(x, y, w, h))
      {
        CursorIsApart(now.shelf, now.live, i, Rect(x, y, w, h));
      }
      now := now.(shelf := Shelf(x + width, y, Max(now.shelf.height, height)));
      ok := true;
    }

    /** Copies an area of a bitmap into the image. */
    method Blit(e: Entry)
      requires Inside(e.rect, now.size) && image.Length0 == image.Length1 == now.size
      modifies image
      ensures forall x, y :: 0 <= x < now.size && 0 <= y < now.size ==>
                image[y, x] == if e.rect.Covers(x, y) then Texel(e, x, y)
                               else old(image[y, x])
    {
      for row := 0 to e.rect.h
        invariant forall x, y :: 0 <= x < now.size && 0 <= y < now.size ==>
                    image[y, x] == if e.rect.Covers(x, y) && y < e.rect.y + row
                                   then Texel(e, x, y) else old(image[y, x])
      {
        for column := 0 to e.rect.w
          invariant forall x, y :: 0 <= x < now.size && 0 <= y < now.size ==>
                      image[y, x] ==
                      if e.rect.Covers(x, y) &&
                         (y < e.rect.y + row || (y == e.rect.y + row && x < e.rect.x + column))
                      then Texel(e, x, y) else old(image[y, x])
        {
          var pixel := PixelOf(e.source, e.ax + column, e.ay + row);
          image[e.rect.y + row, e.rect.x + column] := Stored(pixel, e.color);
        }
      }
    }

    /** Doubles the image: the entries keep their texels. False when there is no memory. */
    method Grow() returns (ok: bool)
      requires Valid() && now.size < MAX_SIZE
      modifies this
      ensures Valid() && (image == old(image) || fresh(image))
      ensures !ok ==> now == old(now).(starved := true)
      ensures ok ==> old(now).size > 0
      ensures ok ==> now == old(now).(size := 2 * old(now).size, dirty := true,
                                      generation := old(now).generation + 1)
    {
      var size := now.size * 2;
      var memory: bool := *;
      if size == 0 || !memory {
        now := now.(starved := true);
        return false;
      }
      var before := image;
      var grown := new Pixel[size, size]((_, _) => TRANSPARENT);
      for row := 0 to now.size
        modifies grown
        invariant forall x, y :: 0 <= x < size && 0 <= y < size ==>
                    grown[y, x] == if x < now.size && y < row then before[y, x] else TRANSPARENT
      {
        for column := 0 to now.size
          modifies grown
          invariant forall x, y :: 0 <= x < size && 0 <= y < size ==>
                      grown[y, x] ==
                      if (x < now.size && y < row) || (y == row && x < column)
                      then before[y, x] else TRANSPARENT
        {
          grown[row, column] := before[row, column];
        }
      }
      forall x, y | 0 <= x < size && 0 <= y < size
        ensures grown[y, x] == Painted(now.live, x, y)
      {
        if !(x < now.size && y < now.size) {
          OutsideIsTransparent(now.live, x, y);
        }
      }
      image := grown;
      now := now.(size := size, generation := now.generation + 1, dirty := true);
      ok := true;
    }

    /** Allocates and copies, without moving the atlas. */
    method TryPlace(source: Source, area: Rect, color: bool) returns (ok: bool, at: Rect)
      requires area.w >= 0 && area.h >= 0
      requires Packed(now) && ImageShows()
      modifies this`now, image
      ensures Packed(now) && ImageShows()
      ensures at.w == area.w && at.h == area.h && (ok ==> Inside(at, now.size))
      ensures Tried(old(now), now, Entry(at, source, area.x, area.y, color), ok)
    {
      var x, y;
      ok, x, y := Allocate(area.w, area.h);
      at := Rect(x, y, area.w, area.h);
      if ok {
        var e := Entry(at, source, area.x, area.y, color);
        Blit(e);
        forall px, py | 0 <= px < now.size && 0 <= py < now.size
          ensures image[py, px] == Painted(now.live + [e], px, py)
        {
          PaintedOnce(now.live, e, px, py);
        }
        now := now.(live := now.live + [e], dirty := true);
      }
    }

    /** Places an area of a bitmap. When it doesn't fit the atlas doubles, or at its largest size
        is cleared, once per frame. */
    method Place(source: Source, area: Rect, color: bool) returns (ok: bool, placed: Rect)
      requires Valid() && area.w >= 0 && area.h >= 0
      modifies this, image
      ensures Valid() && (image == old(image) || fresh(image))
      ensures Placed(old(now), now, area.w, area.h, ok)
      ensures ok ==> placed.w == area.w && placed.h == area.h && placed.x > 0
      ensures ok ==> Entry(placed, source, area.x, area.y, color) in now.live
      decreases if now.cleared then 0 else 1, 1, 0
    {
      ghost var a := now;
      ok, placed := TryPlace(source, area, color);
      StaysSound(a, now);
      if ok {
        PlacedAtOnce(a, now, Entry(placed, source, area.x, area.y, color));
      } else {
        ok, placed := PlaceInNewRoom(source, area, color, a);
      }
    }

    /** Makes room, if that can be, and tries again. */
    method PlaceInNewRoom(source: Source, area: Rect, color: bool, ghost a: View) returns (ok: bool, placed: Rect)
      requires Valid() && area.w >= 0 && area.h >= 0 && a.cleared == now.cleared
      requires !Fits(a.shelf, a.size, area.w, area.h) && !Fits(now.shelf, now.size, area.w, area.h)
      requires now == a.(shelf := now.shelf)
      modifies this, image
      ensures Valid() && (image == old(image) || fresh(image))
      ensures Placed(a, now, area.w, area.h, ok)
      ensures ok ==> placed.w == area.w && placed.h == area.h && placed.x > 0
      ensures ok ==> Entry(placed, source, area.x, area.y, color) in now.live
      decreases if now.cleared then 0 else 1, 0, 1
    {
      ghost var b := now;
      var stuck := MakeRoom();
      ghost var c := now;
      ok, placed := TryAgain(source, area, color, stuck);
      PlacedAfterAll(a, b, c, now, stuck, Entry(placed, source, area.x, area.y, color), ok);
    }

    method TryAgain(source: Source, area: Rect, color: bool, stuck: bool) returns (ok: bool, placed: Rect)
      requires Valid() && area.w >= 0 && area.h >= 0
      modifies this`now, image
      ensures Valid() && placed.w == area.w && placed.h == area.h && (ok ==> placed.x > 0)
      ensures stuck ==> !ok && now == old(now)
      ensures !stuck ==> Tried(old(now), now, Entry(placed, source, area.x, area.y, color), ok)
    {
      ok, placed := false, Rect(0, 0, area.w, area.h);
      if !stuck {
        ghost var c := now;
        ok, placed := TryPlace(source, area, color);
        StaysSound(c, now);
      }
    }

    method MakeRoom() returns (stuck: bool)
      requires Valid()
      modifies this, image
      ensures Valid() && (image == old(image) || fresh(image))
      ensures MadeRoom(old(now), now, stuck)
      decreases if now.cleared then 0 else 1, 0, 0
    {
      stuck := false;
      if now.size < MAX_SIZE {
        var grown := Grow();
        stuck := !grown;
      } else if !now.cleared {
        now := now.(cleared := true);
        ClearContents(now.size);
      }
    }

    /** Starts again with an empty image (none at all when there is no memory). */
    method ClearContents(size: int)
      requires size == INITIAL_SIZE || (size == MAX_SIZE && now.cleared)
      modifies this, image
      ensures Valid() && fresh(image)
      ensures Cleared(old(now), now, size) && now.generation > old(now).generation
      decreases if now.cleared then 0 else 1, 3, 0
    {
      var memory: bool := *;
      var side := if memory then size else 0;
      image := new Pixel[side, side]((_, _) => TRANSPARENT);
      now := now.(size := side, shelf := Shelf(1, 1, 0), glyphs := map[],
                  drawn := map[], generation := now.generation + 1,
                  dirty := true, live := [], shaped := {}, starved := !memory);
      AddFixedTiles();
    }

    method AddSolid()
      requires Packed(now) && ImageShows() && now.dirty
      requires now.live == [] && now.shelf == Shelf(1, 1, 0) && now.glyphs == map[]
      modifies this`now, image
      ensures Valid()
      ensures Cleared(old(now), now, old(now).size)
      ensures now.generation == old(now).generation && now.size == old(now).size
    {
      var ok, at := TryPlace(White, Rect(0, 0, 4, 4), true);
      assert ok ==> now.live[0] == Entry(at, White, 0, 0, true);
      now := now.(solid := if ok then at else NOWHERE, curly := NO_GLYPH);
    }

    /** The white block every filled rectangle samples, and the curly underline. */
    method AddFixedTiles()
      requires Packed(now) && ImageShows() && now.dirty
      requires now.live == [] && now.shelf == Shelf(1, 1, 0) && now.glyphs == map[]
      requires now.size >= MAX_SIZE ==> now.cleared
      modifies this, image
      ensures Valid() && (image == old(image) || fresh(image))
      ensures Cleared(old(now), now, old(now).size)
      ensures now.generation >= old(now).generation
      decreases if now.cleared then 0 else 1, 2, 0
    {
      AddSolid();
      if !now.metrics.Valid() {
        return;
      }
      var m := now.metrics;
      var ok;
      var height := Max(0, (5 * m.lineThickness + 4) / 2 + 2);
      var tile: Picture := *;
      var placed;
      ok, placed := Place(Painting(tile), Rect(0, 0, m.cellWidth, height), false);
      if ok {
        var top := m.underlineTop + m.lineThickness / 2 - height / 2;
        top := Max(m.baseline, Min(top, m.cellHeight - height));
        now := now.(curly := Glyph(placed, 0, top, false, true), curlyTile := tile);
      }
    }

    /** Places the ink of a painted canvas. */
    method PlaceInk(k: Key, p: Picture) returns (g: Glyph)
      requires Valid() && now.metrics.Valid()
      modifies this, image
      ensures Valid() && (image == old(image) || fresh(image))
      ensures InkPlaced(old(now), now, k, p, g)
    {
      ghost var a := now;
      var m := now.metrics;
      var ink, color := InkBounds(p, CanvasWidth(m, k), CanvasHeight(m));
      if ink == NOWHERE {
        BlankIsPlaced(a, k, p);
        return Glyph(NOWHERE, 0, 0, false, true);
      }
      var ok, placed := Place(Painting(p), ink, color);
      g := if ok then Glyph(placed, ink.x - PadX(m, k), ink.y - Pad(m), color, true) else NO_GLYPH;
      InkIsPlaced(a, now, k, p, ink, color, ok, placed);
    }

    /** Paints the glyph of `k` and places its ink. */
    method Rasterize(k: Key) returns (g: Glyph, p: Picture)
      requires Valid()
      modifies this, image
      ensures Valid() && (image == old(image) || fresh(image))
      ensures Rasterized(old(now), now, k, p, g)
    {
      ghost var a := now;
      if !now.metrics.Valid() || (k.Cluster? && k.text == []) {
        NothingIsPlaced(a, k);
        return NO_GLYPH, map[];
      }
      p := *;
      g := PlaceInk(k, p);
      ghost var c := now;
      var elapsed: int :| elapsed >= 0;
      now := now.(frameNs := now.frameNs + elapsed);
      assert InkPlaced(a, c, k, p, g) && now == c.(frameNs := now.frameNs);
    }

    /** The glyph of `k`: cached, left for a later frame, or rasterized and cached. */
    method Fetch(k: Key) returns (g: Glyph)
      requires Valid()
      modifies this, image
      ensures Valid() && (image == old(image) || fresh(image))
      ensures Fetched(old(now), now, k, g)
    {
      ghost var a := now;
      if k in now.glyphs {
        FetchedBefore(a, k);
        return now.glyphs[k];
      }
      if now.frameNs >= FRAME_BUDGET_NS {
        FetchedLater(a, k);
        now := now.(deferred := now.deferred + 1);
        return NO_GLYPH;
      }
      var p;
      g, p := Rasterize(k);
      CachedAfterRasterizing(a, now, now.(glyphs := now.glyphs[k := g], drawn := now.drawn[k := p]), k, p, g);
      now := now.(glyphs := now.glyphs[k := g], drawn := now.drawn[k := p]);
    }

    /** A single code point. */
    method GlyphOf(ch: nat, style: nat, span: nat) returns (g: Glyph)
      requires Valid()
      modifies this, image
      ensures Valid() && (image == old(image) || fresh(image))
      ensures Fetched(old(now), now, SingleKey(ch, style, span), g)
    {
      g := Fetch(SingleKey(ch, style, span));
    }

    /** Shapes a run of text, unless it was shaped before. False: left for a later frame. */
    method ShapeRun(run: Shaping) returns (done: bool)
      requires Valid()
      modifies this`now
      ensures Valid() && Shaped(old(now), now, run, done)
    {
      ghost var a := now;
      if run in now.shaped {
        ShapedBefore(a, run);
        return true;
      }
      if now.frameNs >= FRAME_BUDGET_NS {
        ShapedLater(a, run);
        now := now.(deferred := now.deferred + 1);
        return false;
      }
      done := ShapeNow(run);
    }

    method ShapeNow(run: Shaping) returns (done: bool)
      requires Valid() && run !in now.shaped && !Spent(now)
      modifies this`now
      ensures Valid() && Shaped(old(now), now, run, done)
    {
      var elapsed: int :| elapsed >= 0;
      ShapedNow(now, run, elapsed);
      SoundStill(now, Remembering(now, run, elapsed));
      now := Remembering(now, run, elapsed);
      done := true;
    }

    /** Allows one clear, and restarts the budget. */
    method BeginFrame()
      requires Valid()
      modifies this`now
      ensures Valid()
      ensures now == old(now).(cleared := false, frameNs := 0, deferred := 0)
    {
      now := now.(cleared := false, frameNs := 0, deferred := 0);
    }

    method MarkClean()
      requires Valid()
      modifies this`now
      ensures Valid() && now == old(now).(dirty := false)
    {
      now := now.(dirty := false);
    }

    /** Drops every glyph, for new metrics; rasterizes printable ASCII. */
    method Reset(metrics: Metrics)
      requires Valid()
      modifies this, image
      ensures Valid() && fresh(image)
      ensures now.metrics == metrics && now.generation > old(now).generation && now.dirty
      ensures now.deferred > old(now).deferred || now.cleared != old(now).cleared ||
              forall ch :: 33 <= ch <= 126 ==> SingleKey(ch, 0, 1) in now.glyphs
    {
      now := now.(metrics := metrics);
      ClearContents(INITIAL_SIZE);
      ghost var a := now;
      for ch := 33 to 127
        invariant Valid() && fresh(image) && Progress(a, now)
        invariant now.deferred > a.deferred || now.cleared != a.cleared ||
                  forall c :: 33 <= c < ch ==> SingleKey(c, 0, 1) in now.glyphs
      {
        ghost var b := now;
        var _ := GlyphOf(ch, 0, 1);
        ProgressComposes(a, b, now);
      }
    }
  }

  /** What a cached glyph names is what was painted for it, to the last pixel, whatever was
      placed, grown or cleared since: the image (which shows `Painted`) has its ink there. */
  lemma CachedGlyphIsIntact(v: View, k: Key, x: int, y: int)
    requires Sound(v) && k in v.glyphs && v.glyphs[k].valid && v.glyphs[k].rect.Covers(x, y)
    ensures var g := v.glyphs[k];
            var area := AreaOf(v.metrics, k, g);
            && InkWithin(v.drawn[k], CanvasWidth(v.metrics, k), CanvasHeight(v.metrics), area)
            && Inside(g.rect, v.size)
            && Painted(v.live, x, y) ==
               Stored(At(v.drawn[k], area.x + x - g.rect.x, area.y + y - g.rect.y), g.color)
  {
    var g := v.glyphs[k];
    assert Shows(v, k, v.drawn[k], g);
    var e := EntryOf(v.metrics, k, v.drawn[k], g);
    var i :| 0 <= i < |v.live| && v.live[i] == e;
    EntryKeepsItsPixels(v.live, i, x, y);
  }

  /** Filled rectangles sample white, even with linear filtering around their texel. */
  lemma SolidIsWhite(v: View, x: int, y: int)
    requires Sound(v) && v.size > 0
    requires SolidTexel(v.solid).x - 1 <= x <= SolidTexel(v.solid).x
    requires SolidTexel(v.solid).y - 1 <= y <= SolidTexel(v.solid).y
    ensures Painted(v.live, x, y) == WHITE && Inside(v.solid, v.size)
  {
    var i :| 0 <= i < |v.live| && v.live[i] == Entry(v.solid, White, 0, 0, true);
    EntryKeepsItsPixels(v.live, i, x, y);
  }
}
