/**
  Where glyphs go. From any engine, a glyph is left at the cursor, after the deferred wrap, and moves the cursor on
  (`PrintableTypes`, `SequenceTypes`); on a fresh screen, printable bytes fill it row by row (`TypedScreen`).
 */
module AttributionTyping {
  import opened Options
  import opened OctalCodec
  import opened AttributionSpec
  import A = Attribution

  // ---------------------------------------------------------------------------------------
  // One glyph
  // ---------------------------------------------------------------------------------------

  /** The deferred wrap scrolls when the cursor is on the region's last line. */
  predicate WrapScrolls(e: Engine) {
    e.wrapPending && e.row == e.bottom
  }

  /** The line the glyph goes to. */
  function GlyphRow(e: Engine): nat {
    if e.wrapPending && e.row != e.bottom && e.row + 1 < e.rows then e.row + 1 else e.row
  }

  function GlyphCol(e: Engine): nat {
    if e.wrapPending then 0 else e.col
  }

  /** What the screen shows at row `r`, column `c` once the deferred wrap is taken. */
  function AfterWrap(e: Engine, r: nat, c: nat): Option<Cell>
    requires InBounds(e) && r < e.rows && c < e.cols
  {
    if WrapScrolls(e) && e.top <= r < e.bottom then e.grid[r + 1][c]
    else if WrapScrolls(e) && r == e.bottom then None
    else e.grid[r][c]
  }

  /** `d` is `e` with the glyph typed: it is at the cursor, the rest is as after the wrap, and the cursor has moved on. */
  ghost predicate Typed(e: Engine, d: Engine, glyph: nat, o: Origin)
    requires InBounds(e)
  {
    && Rect(d.grid, e.rows, e.cols)
    && (forall r, c | 0 <= r < e.rows && 0 <= c < e.cols ::
          d.grid[r][c] == if r == GlyphRow(e) && c == GlyphCol(e) then Some(Cell(glyph, o, e.pen)) else AfterWrap(e, r, c))
    && d.row == GlyphRow(e)
    && (if GlyphCol(e) + 1 < e.cols then d.col == GlyphCol(e) + 1 && !d.wrapPending
        else d.col == GlyphCol(e) && d.wrapPending)
    && d == e.(grid := d.grid, row := d.row, col := d.col, wrapPending := d.wrapPending)
  }

  lemma WrapIsTaken(e: Engine)
    requires InBounds(e)
    ensures var d := Wrapped(e);
            && InBounds(d) && Rect(d.grid, e.rows, e.cols)
            && (forall r, c | 0 <= r < e.rows && 0 <= c < e.cols :: d.grid[r][c] == AfterWrap(e, r, c))
            && d.row == GlyphRow(e) && d.col == GlyphCol(e) && !d.wrapPending
            && d == e.(grid := d.grid, row := d.row, col := d.col, wrapPending := false)
  {
    hide LineFeed, ParamChars;
    A.MovesInBounds(e);
    if e.wrapPending { FeedIs(e.(col := 0)); }
  }

  /** A line feed: the cursor goes down a line, or the region scrolls when it is on its last. */
  lemma FeedIs(e: Engine)
    requires InBounds(e)
    ensures var d := LineFeed(e);
            && InBounds(d) && Rect(d.grid, e.rows, e.cols)
            && (forall r, c | 0 <= r < e.rows && 0 <= c < e.cols ::
                  d.grid[r][c] == if e.row == e.bottom && e.top <= r < e.bottom then e.grid[r + 1][c]
                                  else if e.row == e.bottom && r == e.bottom then None
                                  else e.grid[r][c])
            && d.row == (if e.row != e.bottom && e.row + 1 < e.rows then e.row + 1 else e.row)
            && d == e.(grid := d.grid, row := d.row, wrapPending := false)
  {
    hide ParamChars;
    A.MovesInBounds(e);
  }

  lemma GlyphIsTyped(e: Engine, glyph: nat, o: Origin)
    requires InBounds(e)
    ensures Typed(e, WriteGlyph(e, glyph, o), glyph, o)
  {
    hide ParamChars, Wrapped, AfterWrap, GlyphRow, GlyphCol;
    WrapIsTaken(e);
  }

  /** The engine with no partial grapheme: a byte that does not continue one drops it. */
  function Dropping(e: Engine): Engine {
    if e.utf8Need > 0 then e.(utf8Need := 0, glyphOrigin := None) else e
  }

  /** A printable byte, in ground state, types itself. */
  lemma PrintableTypes(e: Engine, b: Byte, o: Origin)
    requires InBounds(e) && e.mode == Ground && 0x20 <= b < 0x7f
    ensures Typed(Dropping(e), Step(e, b, o), b, o)
  {
    hide WriteGlyph, Typed;
    GlyphIsTyped(Dropping(e), b, o);
  }

  /** A continuation byte that nothing asked for types the replacement character. */
  lemma StrayTypes(e: Engine, b: Byte, o: Origin)
    requires InBounds(e) && e.mode == Ground && 0x80 <= b < 0xc0 && e.utf8Need == 0
    ensures Typed(e.(glyphOrigin := Some(o)), Step(e, b, o), 0xFFFD, o)
  {
    hide WriteGlyph, Typed;
    GlyphIsTyped(e.(glyphOrigin := Some(o)), 0xFFFD, o);
  }

  // ---------------------------------------------------------------------------------------
  // Graphemes of several bytes
  // ---------------------------------------------------------------------------------------

  /** A lead byte and the continuation bytes it asks for: two, three or four bytes. */
  predicate Sequence(ts: seq<A.Tagged>) {
    && 2 <= |ts| <= 4
    && (if |ts| == 2 then 0xc0 <= ts[0].byte < 0xe0 else if |ts| == 3 then 0xe0 <= ts[0].byte < 0xf0 else 0xf0 <= ts[0].byte)
    && forall k | 1 <= k < |ts| :: 0x80 <= ts[k].byte < 0xc0
  }

  /** The code point: the lead byte's low bits, then six bits of each continuation. */
  function CodePoint(ts: seq<A.Tagged>): nat
    requires Sequence(ts)
  {
    var cp := if |ts| == 2 then ts[0].byte % 0x20 * 0x40 + ts[1].byte % 0x40
              else if |ts| == 3 then ts[0].byte % 0x10 * 0x1000 + ts[1].byte % 0x40 * 0x40 + ts[2].byte % 0x40
              else ts[0].byte % 8 * 0x40000 + ts[1].byte % 0x40 * 0x1000 + ts[2].byte % 0x40 * 0x40 + ts[3].byte % 0x40;
    if cp <= 0x10ffff then cp else 0xFFFD
  }

  lemma LeadOpens(e: Engine, t: A.Tagged)
    requires InBounds(e) && e.mode == Ground && e.utf8Need == 0 && t.byte >= 0xc0
    ensures Step(e, t.byte, t.origin) == e.(glyphOrigin := Some(t.origin), utf8Need := Needs(t.byte), utf8Cp := LeadBits(t.byte))
  {
    hide WriteGlyph, HandleC0;
  }

  lemma NextContinues(e: Engine, t: A.Tagged)
    requires InBounds(e) && e.mode == Ground && e.utf8Need > 1 && 0x80 <= t.byte < 0xc0
    ensures Step(e, t.byte, t.origin) == e.(utf8Cp := e.utf8Cp * 64 + t.byte % 64, utf8Need := e.utf8Need - 1)
  {
    hide WriteGlyph, HandleC0;
  }

  lemma LastTypes(e: Engine, t: A.Tagged, o: Origin)
    requires InBounds(e) && e.mode == Ground && e.utf8Need == 1 && 0x80 <= t.byte < 0xc0 && e.glyphOrigin == Some(o)
    ensures var cp := e.utf8Cp * 64 + t.byte % 64;
            Typed(e.(utf8Need := 0, utf8Cp := cp, glyphOrigin := None), Step(e, t.byte, t.origin),
                  if cp <= 0x10ffff then cp else 0xFFFD, o)
  {
    hide WriteGlyph, HandleC0, Typed;
    var cp := e.utf8Cp * 64 + t.byte % 64;
    GlyphIsTyped(e.(utf8Need := 0, utf8Cp := cp, glyphOrigin := None), if cp <= 0x10ffff then cp else 0xFFFD, o);
  }

  /** Everything but the grapheme being assembled. */
  function Plain(e: Engine, cp: nat): Engine {
    e.(utf8Need := 0, utf8Cp := cp, glyphOrigin := None)
  }

  lemma FoldOne(e: Engine, ts: seq<A.Tagged>)
    requires InBounds(e) && ts != []
    ensures InBounds(Step(e, ts[0].byte, ts[0].origin))
    ensures A.Fold(e, ts) == A.Fold(Step(e, ts[0].byte, ts[0].origin), ts[1..])
    ensures |ts| == 1 ==> A.Fold(e, ts) == Step(e, ts[0].byte, ts[0].origin)
  {
    hide Step;
    A.StepInBounds(e, ts[0].byte, ts[0].origin);
  }

  /** The bytes of a well-formed sequence, in ground state, type its code point, attributed to the first of them. */
  lemma SequenceTypes(e: Engine, ts: seq<A.Tagged>)
    requires InBounds(e) && e.mode == Ground && e.utf8Need == 0 && Sequence(ts)
    ensures exists cp :: Typed(Plain(e, cp), A.Fold(e, ts), CodePoint(ts), ts[0].origin)
  {
    hide Step, Typed, InBounds, A.Fold, CodePoint, Plain;
    FoldOne(e, ts);
    var cp := RestTypes(e, ts);
  }

  /** The state a lead byte leaves. */
  function Opened(e: Engine, t: A.Tagged): Engine {
    e.(glyphOrigin := Some(t.origin), utf8Need := Needs(t.byte), utf8Cp := LeadBits(t.byte))
  }

  lemma RestTypes(e: Engine, ts: seq<A.Tagged>) returns (cp: nat)
    requires InBounds(e) && e.mode == Ground && e.utf8Need == 0 && Sequence(ts)
    ensures InBounds(Step(e, ts[0].byte, ts[0].origin))
    ensures Typed(Plain(e, cp), A.Fold(Step(e, ts[0].byte, ts[0].origin), ts[1..]), CodePoint(ts), ts[0].origin)
  {
    hide Step, Typed, InBounds, A.Fold, CodePoint, Plain;
    FoldOne(e, ts);
    LeadOpens(e, ts[0]);
    var d, o := Opened(e, ts[0]), ts[0].origin;
    var us := ts[1..];
    if |ts| == 2 {
      LastOf(e, d, us, o);
      cp := d.utf8Cp * 64 + us[0].byte % 64;
    } else {
      FoldOne(d, us);
      NextContinues(d, us[0]);
      var f := Step(d, us[0].byte, us[0].origin);
      if |ts| == 3 {
        LastOf(e, f, us[1..], o);
        cp := f.utf8Cp * 64 + us[1].byte % 64;
      } else {
        FoldOne(f, us[1..]);
        NextContinues(f, us[1]);
        var g := Step(f, us[1].byte, us[1].origin);
        LastOf(e, g, us[1..][1..], o);
        cp := g.utf8Cp * 64 + us[2].byte % 64;
      }
    }
    CodePointIs(ts);
  }

  /** The code point, as it is accumulated. */
  lemma CodePointIs(ts: seq<A.Tagged>)
    requires Sequence(ts)
    ensures var one := LeadBits(ts[0].byte) * 64 + ts[1].byte % 64;
            var all := if |ts| == 2 then one
                       else if |ts| == 3 then one * 64 + ts[2].byte % 64
                       else (one * 64 + ts[2].byte % 64) * 64 + ts[3].byte % 64;
            CodePoint(ts) == if all <= 0x10ffff then all else 0xFFFD
  {
  }

  lemma LastOf(e: Engine, d: Engine, us: seq<A.Tagged>, o: Origin)
    requires |us| == 1 && 0x80 <= us[0].byte < 0xc0 && InBounds(d) && InBounds(e) && e.mode == Ground
    requires d == e.(utf8Need := 1, utf8Cp := d.utf8Cp, glyphOrigin := Some(o))
    ensures var cp := d.utf8Cp * 64 + us[0].byte % 64;
            Typed(Plain(e, cp), A.Fold(d, us), if cp <= 0x10ffff then cp else 0xFFFD, o)
  {
    hide Step, Typed, A.Fold;
    FoldOne(d, us);
    LastTypes(d, us[0], o);
  }

  // ---------------------------------------------------------------------------------------
  // A fresh screen
  // ---------------------------------------------------------------------------------------

  /** Row `r`, column `c`, counted row by row. */
  function Index(cols: nat, r: nat, c: nat): nat {
    r * cols + c
  }

  lemma IndexIs(cols: nat, r: nat, c: nat, i: nat)
    requires c < cols
    ensures Index(cols, r, c) == i <==> r == i / cols && c == i % cols
    ensures Index(cols, r, c) < i <==> r < i / cols || (r == i / cols && c < i % cols)
  {
    var q, m := i / cols, i % cols;
    assert q * cols + m == i;
    var lines, line := r * cols, q * cols;
    assert (r - q) * cols == lines - line;
    LinesApart(r - q, cols);
  }

  lemma LinesApart(d: int, cols: nat)
    ensures d >= 1 ==> d * cols >= cols
    ensures d <= -1 ==> d * cols + cols <= 0
    ensures d >= 0 ==> d * cols >= 0
  {
    if d >= 1 {
      assert (d - 1) * cols >= 0;
    } else if d <= -1 {
      assert (-d - 1) * cols >= 0;
    }
  }

  lemma NextIndex(cols: nat, i: nat)
    requires cols > 0
    ensures if i % cols + 1 < cols then (i + 1) / cols == i / cols && (i + 1) % cols == i % cols + 1
            else (i + 1) / cols == i / cols + 1 && (i + 1) % cols == 0
  {
    var q, m := i / cols, i % cols;
    assert q * cols + m == i;
    if m + 1 < cols {
      DivIs(i + 1, cols, q, m + 1);
    } else {
      assert (q + 1) * cols == q * cols + cols;
      DivIs(i + 1, cols, q + 1, 0);
    }
  }

  lemma DivIs(i: nat, cols: nat, q: nat, m: nat)
    requires m < cols && i == q * cols + m
    ensures i / cols == q && i % cols == m
  {
    IndexIs(cols, q, m, i);
  }

  /** The `i`th place, counted row by row, shows the byte. */
  predicate Shows(e: Engine, i: nat, t: A.Tagged) {
    && e.cols > 0 && Rect(e.grid, e.rows, e.cols) && i / e.cols < e.rows
    && e.grid[i / e.cols][i % e.cols] == Some(Cell(t.byte, t.origin, DEFAULT_PEN))
  }

  /** After `i` glyphs the cursor is on the next place, or on the line's last with the wrap deferred. */
  predicate CursorAfter(e: Engine, i: nat)
    requires e.cols > 0
  {
    if i > 0 && i % e.cols == 0 then e.row + 1 == i / e.cols && e.col + 1 == e.cols && e.wrapPending
    else e.row == i / e.cols && e.col == i % e.cols && !e.wrapPending
  }

  /** The screen shows the first `i` bytes row by row and nothing else; cursor and deferred wrap are as after the last. */
  ghost predicate Filled(e: Engine, ts: seq<A.Tagged>, i: nat)
    requires i <= |ts|
  {
    && InBounds(e)
    && (forall r, c | 0 <= r < e.rows && 0 <= c < e.cols ::
          e.grid[r][c] == if Index(e.cols, r, c) < i then
                            Some(Cell(ts[Index(e.cols, r, c)].byte, ts[Index(e.cols, r, c)].origin, DEFAULT_PEN))
                          else None)
    && CursorAfter(e, i)
  }

  /** A screen nothing but glyphs was typed on. */
  predicate Untouched(e: Engine) {
    e.mode == Ground && e.utf8Need == 0 && e.top == 0 && e.bottom + 1 == e.rows && e.pen == DEFAULT_PEN
  }

  /** The next glyph goes to the next place, without scrolling. */
  lemma NextPlace(e: Engine, ts: seq<A.Tagged>, i: nat)
    requires i <= |ts| && Filled(e, ts, i) && Untouched(e) && i < e.cols * e.rows
    ensures GlyphRow(e) == i / e.cols && GlyphCol(e) == i % e.cols && !WrapScrolls(e)
  {
    LineOf(e.cols, e.rows, i);
  }

  lemma LineOf(cols: nat, rows: nat, i: nat)
    requires cols > 0 && i < cols * rows
    ensures i / cols < rows
  {
    var q := i / cols;
    assert q * cols + i % cols == i;
    assert (q - rows) * cols == q * cols - rows * cols;
    LinesApart(q - rows, cols);
  }

  lemma TypeNext(e: Engine, ts: seq<A.Tagged>, i: nat)
    requires i < |ts| && Filled(e, ts, i) && Untouched(e) && i < e.cols * e.rows && 0x20 <= ts[i].byte < 0x7f
    ensures var d := Step(e, ts[i].byte, ts[i].origin);
            Filled(d, ts, i + 1) && Untouched(d) && d.cols == e.cols && d.rows == e.rows
  {
    hide Step, Index, GlyphRow, GlyphCol, WrapScrolls;
    PrintableTypes(e, ts[i].byte, ts[i].origin);
    A.StepInBounds(e, ts[i].byte, ts[i].origin);
    NextPlace(e, ts, i);
    NextIndex(e.cols, i);
    var d := Step(e, ts[i].byte, ts[i].origin);
    forall r, c | 0 <= r < e.rows && 0 <= c < e.cols
      ensures d.grid[r][c] == if Index(e.cols, r, c) < i + 1 then
                                Some(Cell(ts[Index(e.cols, r, c)].byte, ts[Index(e.cols, r, c)].origin, DEFAULT_PEN))
                              else None
    {
      IndexIs(e.cols, r, c, i);
    }
  }

  lemma {:induction false} TypeAll(e: Engine, ts: seq<A.Tagged>, i: nat)
    requires i <= |ts| <= e.cols * e.rows && Filled(e, ts, i) && Untouched(e)
    requires forall k | 0 <= k < |ts| :: 0x20 <= ts[k].byte < 0x7f
    ensures var d := A.Fold(e, ts[i..]); Filled(d, ts, |ts|) && d.cols == e.cols && d.rows == e.rows
    decreases |ts| - i
  {
    hide Step, Filled, Untouched;
    assert InBounds(e) by { FilledInBounds(e, ts, i); }
    if i == |ts| {
      assert ts[i..] == [];
    } else {
      TypeNext(e, ts, i);
      FoldOne(e, ts[i..]);
      assert ts[i..][1..] == ts[i + 1..];
      TypeAll(Step(e, ts[i].byte, ts[i].origin), ts, i + 1);
    }
  }

  lemma FilledInBounds(e: Engine, ts: seq<A.Tagged>, i: nat)
    requires i <= |ts| && Filled(e, ts, i)
    ensures InBounds(e)
  {
  }

  lemma FreshIsFilled(cols: int, rows: int, ts: seq<A.Tagged>)
    ensures var e := New(cols, rows); Filled(e, ts, 0) && Untouched(e) && e.cols == AtLeastOne(cols) && e.rows == AtLeastOne(rows)
  {
    A.NewInBounds(cols, rows);
  }

  /**
    Printable bytes no more than the screen holds, in whatever chunks: byte `i` is at row `i / cols`, column
    `i % cols`, with its origin; every other cell is blank; and the cursor, or the deferred wrap, follows the last.
   */
  lemma TypedScreen(chunks: seq<A.SourceChunk>, cols: int, rows: int, base: nat)
    requires cols > 0 && rows > 0 && |A.Bytes(chunks)| <= cols * rows
    requires forall b <- A.Bytes(chunks) :: 0x20 <= b < 0x7f
    ensures var e, ts, n := A.Emulate(chunks, cols, rows, base), A.Tag(chunks, base), |A.Bytes(chunks)|;
            && e.cols == cols && e.rows == rows && Rect(e.grid, rows, cols) && |ts| == n
            && (forall i | 0 <= i < n :: ts[i].byte == A.Bytes(chunks)[i] && Shows(e, i, ts[i]))
            && (forall r, c | 0 <= r < rows && 0 <= c < cols && Index(cols, r, c) >= n :: e.grid[r][c] == None)
            && CursorAfter(e, n)
  {
    hide A.Tag, A.Bytes, New, Filled, Untouched, Shows, CursorAfter, Index;
    var ts := A.Tag(chunks, base);
    A.TagNumbered(chunks, base);
    A.NewInBounds(cols, rows);
    FreshIsFilled(cols, rows, ts);
    assert forall k | 0 <= k < |ts| :: ts[k].byte == A.Bytes(chunks)[k] && A.Bytes(chunks)[k] in A.Bytes(chunks);
    TypeAll(New(cols, rows), ts, 0);
    assert ts[0..] == ts;
    ScreenOf(A.Emulate(chunks, cols, rows, base), ts);
  }

  lemma ScreenOf(e: Engine, ts: seq<A.Tagged>)
    requires Filled(e, ts, |ts|) && |ts| <= e.cols * e.rows
    ensures Rect(e.grid, e.rows, e.cols) && e.cols > 0 && CursorAfter(e, |ts|)
    ensures forall i | 0 <= i < |ts| :: Shows(e, i, ts[i])
    ensures forall r, c | 0 <= r < e.rows && 0 <= c < e.cols && Index(e.cols, r, c) >= |ts| :: e.grid[r][c] == None
  {
    hide Shows, CursorAfter, Index;
    forall i | 0 <= i < |ts| ensures Shows(e, i, ts[i]) {
      FilledByte(e, ts, i);
    }
  }

  lemma FilledByte(e: Engine, ts: seq<A.Tagged>, i: nat)
    requires i < |ts| <= e.cols * e.rows && Filled(e, ts, |ts|)
    ensures Shows(e, i, ts[i])
  {
    hide Index, CursorAfter;
    LineOf(e.cols, e.rows, i);
    var r, c := i / e.cols, i % e.cols;
    IndexIs(e.cols, r, c, i);
  }
}
