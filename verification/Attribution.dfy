/**
  What the attributing emulator guarantees on every byte stream: bounds, true provenance of every cell,
  no byte claimed twice, and independence of how the stream is cut into chunks.
 */
module Attribution {
  import opened Options
  import opened JsStrings
  import opened OctalCodec
  import opened AttributionSpec

  /** A byte of the stream with where it came from. */
  datatype Tagged = Tagged(byte: Byte, origin: Origin)

  /** A captured chunk. */
  datatype SourceChunk = SourceChunk(chunkId: nat, tMs: int, bytes: seq<Byte>)

  function TagBytes(c: SourceChunk, base: nat, i: nat): (ts: seq<Tagged>)
    requires i <= |c.bytes|
    ensures |ts| == |c.bytes| - i
    ensures forall k | 0 <= k < |ts| :: ts[k] == Tagged(c.bytes[i + k], Origin(c.chunkId, c.tMs, i + k, base + i + k))
    decreases |c.bytes| - i
  {
    if i == |c.bytes| then []
    else [Tagged(c.bytes[i], Origin(c.chunkId, c.tMs, i, base + i))] + TagBytes(c, base, i + 1)
  }

  /** The tagged stream of chunks in capture order; `base` is what the pane had emitted before. */
  function Tag(chunks: seq<SourceChunk>, base: nat): seq<Tagged> {
    if chunks == [] then [] else TagBytes(chunks[0], base, 0) + Tag(chunks[1..], base + |chunks[0].bytes|)
  }

  function Bytes(chunks: seq<SourceChunk>): seq<Byte> {
    if chunks == [] then [] else chunks[0].bytes + Bytes(chunks[1..])
  }

  /** Offsets count the stream from `base`. */
  predicate Numbered(ts: seq<Tagged>, base: nat) {
    forall k | 0 <= k < |ts| :: ts[k].origin.streamOffset == base + k
  }

  // ---------------------------------------------------------------------------------------
  // What glyph a position of the stream stands for
  // ---------------------------------------------------------------------------------------

  /** The code point of the lead byte at `i` and its first `k` continuation bytes. */
  function Assemble(ts: seq<Tagged>, i: nat, k: nat): nat
    requires i + k < |ts|
  {
    if k == 0 then LeadBits(ts[i].byte) else Assemble(ts, i, k - 1) * 64 + ts[i + k].byte % 64
  }

  predicate Continued(ts: seq<Tagged>, i: nat, k: nat) {
    i + k < |ts| && forall m | i < m <= i + k :: IsContinuation(ts[m].byte)
  }

  function GlyphAt(ts: seq<Tagged>, i: nat): Option<nat>
    requires i < |ts|
  {
    var b := ts[i].byte;
    if 0x20 <= b < 0x7f then Some(b)
    else if b < 0x80 then None
    else if b < 0xc0 then Some(REPLACEMENT)
    else if Continued(ts, i, Needs(b)) then Some(Rendered(Assemble(ts, i, Needs(b))))
    else None
  }

  lemma {:induction false} AssembleLater(ts: seq<Tagged>, t: Tagged, i: nat, k: nat)
    requires i + k < |ts|
    ensures Assemble(ts + [t], i, k) == Assemble(ts, i, k)
    decreases k
  {
    if k > 0 {
      AssembleLater(ts, t, i, k - 1);
    }
  }

  lemma GlyphLater(ts: seq<Tagged>, t: Tagged, i: nat)
    requires i < |ts| && GlyphAt(ts, i).Some?
    ensures GlyphAt(ts + [t], i) == GlyphAt(ts, i)
  {
    var b := ts[i].byte;
    if b >= 0xc0 {
      AssembleLater(ts, t, i, Needs(b));
    }
  }

  // ---------------------------------------------------------------------------------------
  // Bounds
  // ---------------------------------------------------------------------------------------

  /** Moving cells keeps the shape, so everything but the cursor stays where it was. */
  lemma DoInBounds(e: Engine, op: Op)
    requires InBounds(e)
    ensures InBounds(Do(e, op))
  {
    hide ParamChars;
  }

  lemma LineFeedInBounds(e: Engine)
    requires InBounds(e)
    ensures InBounds(LineFeed(e)) && InBounds(ReverseIndex(e)) && LineFeed(e).row < e.rows && LineFeed(e).col == e.col
  {
    hide Apply, ParamChars, Rect, Do;
    var d := e.(wrapPending := false);
    DoInBounds(d, ScrollUp(e.top, e.bottom));
    DoInBounds(d, ScrollDown(e.top, e.bottom));
    DoKeeps(d, ScrollUp(e.top, e.bottom));
  }

  lemma DoKeeps(e: Engine, op: Op)
    ensures Do(e, op) == e.(grid := Do(e, op).grid)
  {
  }

  lemma MovesInBounds(e: Engine)
    requires InBounds(e)
    ensures InBounds(LineFeed(e)) && InBounds(ReverseIndex(e)) && InBounds(ResetScreen(e)) && InBounds(Wrapped(e))
    ensures LineFeed(e).row < e.rows && LineFeed(e).col == e.col
  {
    hide Apply, ParamChars, Rect, Do, LineFeed, ReverseIndex;
    LineFeedInBounds(e);
    LineFeedInBounds(e.(col := 0));
    DoInBounds(e, EraseAll);
    DoKeeps(e, EraseAll);
  }

  lemma WriteInBounds(e: Engine, glyph: nat, o: Origin)
    requires InBounds(e)
    ensures InBounds(WriteGlyph(e, glyph, o))
  {
    hide LineFeed, Apply;
    MovesInBounds(e);
  }

  lemma C0InBounds(e: Engine, b: Byte)
    requires InBounds(e)
    ensures InBounds(HandleC0(e, b))
  {
    hide Rect, ParamChars, LineFeed, ReverseIndex, Wrapped;
    MovesInBounds(e);
  }

  lemma CursorInBounds(e: Engine, nums: seq<Num>, f: char)
    requires InBounds(e)
    ensures InBounds(MoveCursor(e, nums, f))
  {
  }

  lemma EditInBounds(e: Engine, nums: seq<Num>, f: char)
    requires InBounds(e)
    ensures InBounds(Edit(e, nums, f))
  {
  }

  lemma ScreenModesInBounds(e: Engine, params: string, f: char, topParam: nat, bottomParam: nat)
    requires InBounds(e)
    ensures params != "" ==> InBounds(ApplyPrivateMode(e, params, f))
    ensures InBounds(SetScrollRegion(e, topParam, bottomParam)) && InBounds(RestoreCursor(e))
    ensures InBounds(e.(saved := Some(Saved(e.row, e.col, e.pen)))) && forall pen :: InBounds(e.(pen := pen))
  {
    hide Apply, Rect, ParamChars, Do;
    DoInBounds(e, EraseAll);
    DoKeeps(e, EraseAll);
  }

  lemma CsiInBounds(e: Engine, params: string, f: char)
    requires InBounds(e)
    ensures InBounds(ApplyCsi(e, params, f))
  {
    hide MoveCursor, Edit, Sgr, Numbers, InBounds, ApplyPrivateMode, SetScrollRegion, RestoreCursor;
    var nums := Numbers(params);
    assert e.rows >= 0 && InBounds(e);
    CursorInBounds(e, nums, f);
    EditInBounds(e, nums, f);
    ScreenModesInBounds(e, params, f, N1(nums, 0), if |nums| < 2 then e.rows else N1(nums, 1));
  }

  lemma EscInBounds(e: Engine, b: Byte)
    requires InBounds(e)
    ensures InBounds(StepEsc(e, b))
  {
    hide ApplyEscFinal, Rect;
    EscFinalInBounds(e, b);
  }

  lemma EscFinalInBounds(e: Engine, b: Byte)
    requires InBounds(e)
    ensures InBounds(ApplyEscFinal(e, b))
  {
    hide LineFeed, ReverseIndex, ResetScreen, Rect;
    MovesInBounds(e);
    MovesInBounds(e.(col := 0, wrapPending := false));
  }

  lemma StepInBounds(e: Engine, b: Byte, o: Origin)
    requires InBounds(e)
    ensures InBounds(Step(e, b, o))
  {
    hide StepEsc, WriteGlyph, HandleC0, ApplyCsi;
    match e.mode
    case Ground =>
      GroundInBounds(e, b, o);
    case Csi =>
      CsiInBounds(e, e.csiParams, b as char);
    case Str =>
    case _ =>
      EscInBounds(e.(mode := Esc), b);
      EscInBounds(e, b);
  }

  lemma GroundInBounds(e: Engine, b: Byte, o: Origin)
    requires InBounds(e)
    ensures InBounds(StepGround(e, b, o))
  {
    hide WriteGlyph, HandleC0, Rect, ParamChars;
    var d := e.(utf8Need := 0, glyphOrigin := None);
    C0InBounds(e, b);
    C0InBounds(d, b);
    WriteInBounds(e, b, o);
    WriteInBounds(d, b, o);
    WriteInBounds(e.(glyphOrigin := Some(o)), REPLACEMENT, o);
    WriteInBounds(d.(glyphOrigin := Some(o)), REPLACEMENT, o);
    if e.utf8Need > 0 && e.glyphOrigin.Some? {
      var f := e.(utf8Cp := e.utf8Cp * 64 + b % 64, utf8Need := e.utf8Need - 1);
      WriteInBounds(f.(glyphOrigin := None), Rendered(f.utf8Cp), e.glyphOrigin.value);
    }
  }

  // ---------------------------------------------------------------------------------------
  // Steps that move cells but write none
  // ---------------------------------------------------------------------------------------

  /** `h` is `g`, or what one operation makes of it. */
  ghost predicate Moved(g: Grid, h: Grid) {
    h == g || exists op :: h == Apply(g, op)
  }

  /** No glyph is written and no grapheme is touched. */
  ghost predicate Quiet(e: Engine, d: Engine) {
    && Moved(e.grid, d.grid)
    && d.utf8Need == e.utf8Need && d.utf8Cp == e.utf8Cp && d.glyphOrigin == e.glyphOrigin
  }

  lemma MovesAreQuiet(e: Engine)
    requires InBounds(e)
    ensures Quiet(e, LineFeed(e)) && Quiet(e, ReverseIndex(e)) && Quiet(e, ResetScreen(e)) && Quiet(e, Wrapped(e))
  {
    hide Apply;
    assert Wrapped(e) == e || Wrapped(e) == LineFeed(e.(col := 0));
  }

  lemma CsiIsQuiet(e: Engine, params: string, f: char)
    requires InBounds(e)
    ensures Quiet(e, ApplyCsi(e, params, f))
  {
    hide Apply, Sgr, Numbers;
    CursorIsQuiet(e, Numbers(params), f);
    EditIsQuiet(e, Numbers(params), f);
    hide MoveCursor, Edit;
  }

  lemma CursorIsQuiet(e: Engine, nums: seq<Num>, f: char)
    requires InBounds(e)
    ensures Quiet(e, MoveCursor(e, nums, f))
  {
    hide Apply;
  }

  lemma EditIsQuiet(e: Engine, nums: seq<Num>, f: char)
    requires InBounds(e)
    ensures Quiet(e, Edit(e, nums, f))
  {
    hide Apply;
  }

  lemma EscIsQuiet(e: Engine, b: Byte)
    requires InBounds(e)
    ensures Quiet(e, StepEsc(e, b))
  {
    hide LineFeed, ReverseIndex, ResetScreen, Moved;
    MovesAreQuiet(e);
    var d := e.(col := 0, wrapPending := false);
    MovesAreQuiet(d);
    SameIsMoved(e.grid);
  }

  lemma SameIsMoved(g: Grid)
    ensures Moved(g, g)
  {
  }

  /** Outside the ground state every step is quiet. */
  lemma OutsideGroundIsQuiet(e: Engine, b: Byte, o: Origin)
    requires InBounds(e) && e.mode != Ground
    ensures Quiet(e, Step(e, b, o))
  {
    hide StepEsc, ApplyCsi, Moved;
    SameIsMoved(e.grid);
    if e.mode == Csi {
      CsiIsQuiet(e, e.csiParams, b as char);
    } else {
      EscIsQuiet(e, b);
      EscIsQuiet(e.(mode := Esc), b);
    }
  }

  // ---------------------------------------------------------------------------------------
  // Provenance
  // ---------------------------------------------------------------------------------------

  predicate At(g: Grid, r: nat, c: nat) {
    r < |g| && c < |g[r]| && g[r][c].Some?
  }

  /** The cell was written by a byte of the stream before `bound`, and shows the glyph that starts there. */
  predicate True(cell: Cell, ts: seq<Tagged>, base: nat, bound: nat) {
    var offset := cell.origin.streamOffset;
    && base <= offset < bound && offset < base + |ts|
    && ts[offset - base].origin == cell.origin
    && GlyphAt(ts, offset - base) == Some(cell.glyph)
  }

  predicate TrueAt(g: Grid, r: nat, c: nat, ts: seq<Tagged>, base: nat, bound: nat) {
    At(g, r, c) ==> True(g[r][c].value, ts, base, bound)
  }

  predicate DistinctAt(g: Grid, r: nat, c: nat, r': nat, c': nat) {
    At(g, r, c) && At(g, r', c') && (r, c) != (r', c') ==>
      g[r][c].value.origin.streamOffset != g[r'][c'].value.origin.streamOffset
  }

  ghost predicate GridOk(g: Grid, ts: seq<Tagged>, base: nat, bound: nat) {
    && (forall r, c :: TrueAt(g, r, c, ts, base, bound))
    && (forall r, c, r', c' :: DistinctAt(g, r, c, r', c'))
  }

  lemma SourceInjective(op: Op, r: nat, c: nat, r': nat, c': nat)
    requires Source(op, r, c).Some? && Source(op, r, c) == Source(op, r', c')
    ensures (r, c) == (r', c')
  {
  }

  lemma ApplyFetches(g: Grid, op: Op, r: nat, c: nat)
    ensures var h := Apply(g, op);
            At(h, r, c) ==>
              && Source(op, r, c).Some?
              && var p := Source(op, r, c).value;
                 At(g, p.0, p.1) && g[p.0][p.1] == h[r][c]
  {
    hide Source;
  }

  /** Moving cells copies none of them: what was true and distinct stays so. */
  lemma ApplyKeeps(g: Grid, op: Op, ts: seq<Tagged>, base: nat, bound: nat)
    requires GridOk(g, ts, base, bound)
    ensures GridOk(Apply(g, op), ts, base, bound)
  {
    hide True, Source, Apply;
    var h := Apply(g, op);
    forall r, c ensures TrueAt(h, r, c, ts, base, bound) {
      ApplyFetches(g, op, r, c);
      if At(h, r, c) {
        var p := Source(op, r, c).value;
        assert TrueAt(g, p.0, p.1, ts, base, bound);
      }
    }
    forall r, c, r', c' ensures DistinctAt(h, r, c, r', c') {
      ApplyFetches(g, op, r, c);
      ApplyFetches(g, op, r', c');
      if At(h, r, c) && At(h, r', c') && (r, c) != (r', c') {
        var p, q := Source(op, r, c).value, Source(op, r', c').value;
        if p == q {
          SourceInjective(op, r, c, r', c');
        }
        assert DistinctAt(g, p.0, p.1, q.0, q.1);
      }
    }
  }

  lemma MovedKeeps(g: Grid, h: Grid, ts: seq<Tagged>, base: nat, bound: nat)
    requires GridOk(g, ts, base, bound) && Moved(g, h)
    ensures GridOk(h, ts, base, bound)
  {
    hide GridOk, Apply;
    if h != g {
      var op :| h == Apply(g, op);
      ApplyKeeps(g, op, ts, base, bound);
    }
  }

  /** More of the stream read, or a looser bound. */
  lemma GridLater(g: Grid, ts: seq<Tagged>, t: Tagged, base: nat, bound: nat, later: nat)
    requires GridOk(g, ts, base, bound) && bound <= later
    ensures GridOk(g, ts + [t], base, later)
  {
    hide GlyphAt;
    forall r: nat, c: nat ensures TrueAt(g, r, c, ts + [t], base, later) {
      assert TrueAt(g, r, c, ts, base, bound);
      if At(g, r, c) {
        GlyphLater(ts, t, g[r][c].value.origin.streamOffset - base);
      }
    }
  }

  lemma PutKeeps(g: Grid, row: nat, col: nat, cell: Cell, ts: seq<Tagged>, base: nat, bound: nat, later: nat)
    requires GridOk(g, ts, base, bound) && row < |g| && col < |g[row]| && bound <= later
    requires cell.origin.streamOffset >= bound && True(cell, ts, base, later)
    ensures GridOk(Put(g, row, col, cell), ts, base, later)
  {
    hide GlyphAt;
    var h := Put(g, row, col, cell);
    forall r, c ensures TrueAt(h, r, c, ts, base, later) {
      assert TrueAt(g, r, c, ts, base, bound);
    }
    forall r, c, r', c' ensures DistinctAt(h, r, c, r', c') {
      assert DistinctAt(g, r, c, r', c') && TrueAt(g, r, c, ts, base, bound) && TrueAt(g, r', c', ts, base, bound);
    }
  }

  /** Writing the glyph of a byte that no cell has claimed. */
  lemma WriteKeeps(e: Engine, glyph: nat, o: Origin, ts: seq<Tagged>, base: nat, bound: nat, later: nat)
    requires InBounds(e) && GridOk(e.grid, ts, base, bound) && bound <= later
    requires base <= o.streamOffset && bound <= o.streamOffset < later && o.streamOffset < base + |ts|
    requires ts[o.streamOffset - base].origin == o && GlyphAt(ts, o.streamOffset - base) == Some(glyph)
    ensures GridOk(WriteGlyph(e, glyph, o).grid, ts, base, later)
    ensures var d := WriteGlyph(e, glyph, o); d.utf8Need == e.utf8Need && d.glyphOrigin == e.glyphOrigin && d.mode == e.mode
  {
    hide GridOk, Moved, GlyphAt, Put, LineFeed;
    MovesInBounds(e);
    MovesAreQuiet(e);
    LineFeedMode(e);
    var d := Wrapped(e);
    MovedKeeps(e.grid, d.grid, ts, base, bound);
    PutKeeps(d.grid, d.row, d.col, Cell(glyph, o, d.pen), ts, base, bound, later);
  }

  lemma LineFeedMode(e: Engine)
    ensures Wrapped(e).mode == e.mode
  {
  }

  // ---------------------------------------------------------------------------------------
  // The invariant
  // ---------------------------------------------------------------------------------------

  /** A grapheme is being assembled: its lead byte and the continuation bytes read so far end the stream. */
  predicate Assembling(e: Engine, ts: seq<Tagged>, base: nat) {
    && e.mode == Ground && e.glyphOrigin.Some? && base <= e.glyphOrigin.value.streamOffset < base + |ts|
    && var i := e.glyphOrigin.value.streamOffset - base;
       && ts[i].origin == e.glyphOrigin.value && ts[i].byte >= 0xc0
       && e.utf8Need <= Needs(ts[i].byte)
       && |ts| == i + 1 + Needs(ts[i].byte) - e.utf8Need
       && Continued(ts, i, |ts| - 1 - i)
       && e.utf8Cp == Assemble(ts, i, |ts| - 1 - i)
  }

  function Bound(e: Engine, ts: seq<Tagged>, base: nat): nat {
    if e.utf8Need > 0 && e.glyphOrigin.Some? then e.glyphOrigin.value.streamOffset else base + |ts|
  }

  ghost predicate Inv(e: Engine, ts: seq<Tagged>, base: nat) {
    && InBounds(e)
    && GridOk(e.grid, ts, base, Bound(e, ts, base))
    && (e.utf8Need > 0 ==> Assembling(e, ts, base))
  }

  lemma QuietKeeps(e: Engine, d: Engine, ts: seq<Tagged>, t: Tagged, base: nat)
    requires Inv(e, ts, base) && e.utf8Need == 0 && Quiet(e, d) && InBounds(d)
    ensures Inv(d, ts + [t], base)
  {
    hide GridOk, Moved, InBounds;
    MovedKeeps(e.grid, d.grid, ts, base, base + |ts|);
    GridLater(d.grid, ts, t, base, base + |ts|, base + |ts| + 1);
  }

  /** A byte read afresh in the ground state. */
  lemma FreshKeeps(e: Engine, ts: seq<Tagged>, t: Tagged, base: nat)
    requires InBounds(e) && e.mode == Ground && e.utf8Need == 0
    requires GridOk(e.grid, ts, base, base + |ts|) && t.origin.streamOffset == base + |ts|
    ensures Inv(Fresh(e, t.byte, t.origin), ts + [t], base)
  {
    hide GridOk, Moved, InBounds, WriteGlyph, HandleC0;
    var b, o, us := t.byte, t.origin, ts + [t];
    var n := base + |ts|;
    assert us[|ts|] == t;
    GridLater(e.grid, ts, t, base, n, n);
    GridLater(e.grid, ts, t, base, n, n + 1);
    if b == ESC || b == 0x7f {
      InBoundsMode(e);
    } else if b < 0x20 {
      C0Keeps(e, ts, t, base);
    } else if b < 0x80 {
      WriteInBounds(e, b, o);
      WriteKeeps(e, b, o, us, base, n, n + 1);
    } else if b >= 0xc0 {
      InBoundsMode(e);
      LeadKeeps(us, |ts|, b);
      InBoundsPending(e, Some(o), Needs(b), LeadBits(b));
    } else {
      InBoundsPending(e, Some(o), e.utf8Need, e.utf8Cp);
      var d := e.(glyphOrigin := Some(o));
      WriteInBounds(d, REPLACEMENT, o);
      WriteKeeps(d, REPLACEMENT, o, us, base, n, n + 1);
    }
  }

  lemma LeadKeeps(us: seq<Tagged>, i: nat, b: Byte)
    requires i + 1 == |us| && us[i].byte == b
    ensures Continued(us, i, 0) && Assemble(us, i, 0) == LeadBits(b)
  {
  }

  lemma InBoundsMode(e: Engine)
    requires InBounds(e)
    ensures forall mode :: InBounds(e.(mode := mode))
  {
  }

  lemma InBoundsPending(e: Engine, o: Option<Origin>, need: nat, cp: nat)
    requires InBounds(e)
    ensures InBounds(e.(glyphOrigin := o, utf8Need := need, utf8Cp := cp))
  {
  }

  lemma C0Keeps(e: Engine, ts: seq<Tagged>, t: Tagged, base: nat)
    requires InBounds(e) && e.mode == Ground && e.utf8Need == 0
    requires GridOk(e.grid, ts, base, base + |ts|)
    ensures Inv(HandleC0(e, t.byte), ts + [t], base)
  {
    hide GridOk, Moved;
    C0InBounds(e, t.byte);
    MovesAreQuiet(e);
    SameIsMoved(e.grid);
    assert Inv(e, ts, base);
    QuietKeeps(e, HandleC0(e, t.byte), ts, t, base);
  }

  /** A continuation byte: one more of the grapheme, or its last, which writes it. */
  lemma ContinueKeeps(e: Engine, ts: seq<Tagged>, t: Tagged, base: nat)
    requires Inv(e, ts, base) && e.utf8Need > 0 && IsContinuation(t.byte) && t.origin.streamOffset == base + |ts|
    ensures Inv(Continue(e, t.byte), ts + [t], base)
  {
    hide GridOk, InBounds, WriteGlyph, Continued, Assemble, Rendered, Needs, Rect, ParamChars;
    var us := ts + [t];
    var o := e.glyphOrigin.value;
    var i := o.streamOffset - base;
    var k := |ts| - i;
    ExtendGrapheme(ts, t, i);
    GridLater(e.grid, ts, t, base, o.streamOffset, o.streamOffset);
    var d := e.(utf8Cp := e.utf8Cp * 64 + t.byte % 64, utf8Need := e.utf8Need - 1);
    InBoundsPending(e, e.glyphOrigin, d.utf8Need, d.utf8Cp);
    if d.utf8Need == 0 {
      assert us[i] == ts[i];
      var f := d.(glyphOrigin := None);
      InBoundsPending(d, None, d.utf8Need, d.utf8Cp);
      WriteInBounds(f, Rendered(d.utf8Cp), o);
      WriteKeeps(f, Rendered(d.utf8Cp), o, us, base, o.streamOffset, base + |us|);
    } else {
      assert us[i] == ts[i];
    }
  }

  lemma ExtendGrapheme(ts: seq<Tagged>, t: Tagged, i: nat)
    requires i < |ts| && Continued(ts, i, |ts| - 1 - i) && IsContinuation(t.byte)
    ensures Continued(ts + [t], i, |ts| - i)
    ensures Assemble(ts + [t], i, |ts| - i) == Assemble(ts, i, |ts| - 1 - i) * 64 + t.byte % 64
  {
    AssembleLater(ts, t, i, |ts| - 1 - i);
  }

  lemma StepKeeps(e: Engine, ts: seq<Tagged>, t: Tagged, base: nat)
    requires Inv(e, ts, base) && t.origin.streamOffset == base + |ts|
    ensures Inv(Step(e, t.byte, t.origin), ts + [t], base)
  {
    hide GridOk, InBounds, Quiet, Fresh, Continue;
    if e.mode != Ground {
      OutsideGroundIsQuiet(e, t.byte, t.origin);
      StepInBounds(e, t.byte, t.origin);
      hide Step;
      QuietKeeps(e, Step(e, t.byte, t.origin), ts, t, base);
    } else if e.utf8Need > 0 {
      if IsContinuation(t.byte) {
        ContinueKeeps(e, ts, t, base);
      } else {
        var d := e.(utf8Need := 0, glyphOrigin := None);
        InBoundsPending(e, None, 0, e.utf8Cp);
        Loosen(e.grid, ts, base, Bound(e, ts, base), base + |ts|);
        FreshKeeps(d, ts, t, base);
      }
    } else {
      FreshKeeps(e, ts, t, base);
    }
  }

  lemma Loosen(g: Grid, ts: seq<Tagged>, base: nat, bound: nat, later: nat)
    requires GridOk(g, ts, base, bound) && bound <= later
    ensures GridOk(g, ts, base, later)
  {
    hide GlyphAt;
    forall r, c ensures TrueAt(g, r, c, ts, base, later) {
      assert TrueAt(g, r, c, ts, base, bound);
    }
  }

  // ---------------------------------------------------------------------------------------
  // Whole streams
  // ---------------------------------------------------------------------------------------

  /** The engine after the stream; an engine on a screen stays on it. */
  function Fold(e: Engine, ts: seq<Tagged>): (d: Engine)
    requires InBounds(e)
    ensures InBounds(d)
    decreases |ts|
  {
    if ts == [] then e
    else
      StepInBounds(e, ts[0].byte, ts[0].origin);
      Fold(Step(e, ts[0].byte, ts[0].origin), ts[1..])
  }

  lemma NewInBounds(cols: int, rows: int)
    ensures InBounds(New(cols, rows))
  {
  }

  lemma {:induction false} FoldKeeps(e: Engine, done: seq<Tagged>, ts: seq<Tagged>, base: nat)
    requires Inv(e, done, base) && Numbered(done + ts, base)
    ensures Inv(Fold(e, ts), done + ts, base)
    decreases |ts|
  {
    hide Inv, Step, InBounds;
    assert InBounds(e) by { InvInBounds(e, done, base); }
    if ts == [] {
      assert done + ts == done;
    } else {
      assert (done + ts)[|done|] == ts[0];
      StepKeeps(e, done, ts[0], base);
      StepInBounds(e, ts[0].byte, ts[0].origin);
      assert done + ts == (done + [ts[0]]) + ts[1..];
      FoldKeeps(Step(e, ts[0].byte, ts[0].origin), done + [ts[0]], ts[1..], base);
    }
  }

  lemma InvInBounds(e: Engine, ts: seq<Tagged>, base: nat)
    requires Inv(e, ts, base)
    ensures InBounds(e)
  {
  }

  lemma NewInv(cols: int, rows: int, base: nat)
    ensures Inv(New(cols, rows), [], base)
  {
    NewInBounds(cols, rows);
  }

  lemma {:induction false} TagNumbered(chunks: seq<SourceChunk>, base: nat)
    ensures Numbered(Tag(chunks, base), base) && |Tag(chunks, base)| == |Bytes(chunks)|
    ensures forall k | 0 <= k < |Bytes(chunks)| :: Tag(chunks, base)[k].byte == Bytes(chunks)[k]
  {
    if chunks != [] {
      TagNumbered(chunks[1..], base + |chunks[0].bytes|);
    }
  }

  function Emulate(chunks: seq<SourceChunk>, cols: int, rows: int, base: nat): Engine {
    NewInBounds(cols, rows);
    Fold(New(cols, rows), Tag(chunks, base))
  }

  /**
    After any byte stream: cursor, scroll region and saved cursor are on the screen; every written cell's
    origin is that of the stream byte at its offset and its glyph is the one that starts at that byte; and no
    two cells claim the same byte.
   */
  lemma EveryCellIsItsByte(chunks: seq<SourceChunk>, cols: int, rows: int, base: nat, r: nat, c: nat)
    ensures var e, ts := Emulate(chunks, cols, rows, base), Tag(chunks, base);
            && InBounds(e)
            && (At(e.grid, r, c) ==>
                  var cell := e.grid[r][c].value;
                  var i := cell.origin.streamOffset - base;
                  && 0 <= i < |ts| && ts[i].origin == cell.origin && GlyphAt(ts, i) == Some(cell.glyph))
            && forall r', c' :: DistinctAt(e.grid, r, c, r', c')
  {
    hide GlyphAt, Tag, Fold, Inv, InBounds, New;
    NewInv(cols, rows, base);
    NewInBounds(cols, rows);
    TagNumbered(chunks, base);
    var ts := Tag(chunks, base);
    assert [] + ts == ts;
    FoldKeeps(New(cols, rows), [], ts, base);
    CellFacts(Emulate(chunks, cols, rows, base), ts, base, r, c);
  }

  lemma CellFacts(e: Engine, ts: seq<Tagged>, base: nat, r: nat, c: nat)
    requires Inv(e, ts, base)
    ensures InBounds(e) && forall r', c' :: DistinctAt(e.grid, r, c, r', c')
    ensures At(e.grid, r, c) ==>
              var cell := e.grid[r][c].value;
              var i := cell.origin.streamOffset - base;
              0 <= i < |ts| && ts[i].origin == cell.origin && GlyphAt(ts, i) == Some(cell.glyph)
  {
    hide GlyphAt, InBounds;
    assert TrueAt(e.grid, r, c, ts, base, Bound(e, ts, base));
  }

  // ---------------------------------------------------------------------------------------
  // Cutting the stream into chunks
  // ---------------------------------------------------------------------------------------

  predicate SameCell(x: Option<Cell>, y: Option<Cell>) {
    match (x, y)
    case (None, None) => true
    case (Some(a), Some(b)) => a.glyph == b.glyph && a.pen == b.pen && a.origin.streamOffset == b.origin.streamOffset
    case _ => false
  }

  predicate SameOrigin(x: Option<Origin>, y: Option<Origin>) {
    x.Some? == y.Some? && (x.Some? ==> x.value.streamOffset == y.value.streamOffset)
  }

  predicate SameAt(g: Grid, h: Grid, r: nat, c: nat) {
    r < |g| && r < |h| && c < |g[r]| && c < |h[r]| ==> SameCell(g[r][c], h[r][c])
  }

  ghost predicate SameGrid(g: Grid, h: Grid) {
    && |g| == |h| && (forall r | 0 <= r < |g| :: |g[r]| == |h[r]|)
    && forall r, c :: SameAt(g, h, r, c)
  }

  /** Equal but for which chunks the bytes came in: same glyphs, pens, cursor, parser state and stream offsets. */
  ghost predicate SameScreen(e: Engine, f: Engine) {
    && f == e.(grid := f.grid, glyphOrigin := f.glyphOrigin)
    && SameGrid(e.grid, f.grid) && SameOrigin(e.glyphOrigin, f.glyphOrigin)
  }

  lemma ApplySame(g: Grid, h: Grid, op: Op)
    requires SameGrid(g, h)
    ensures SameGrid(Apply(g, op), Apply(h, op))
  {
    hide Source;
    forall r: nat, c: nat ensures SameAt(Apply(g, op), Apply(h, op), r, c) {
      if r < |g| && c < |g[r]| {
        var p := Source(op, r, c);
        if p.Some? {
          assert SameAt(g, h, p.value.0, p.value.1);
        }
      }
    }
  }

  lemma DoSame(e: Engine, f: Engine, op: Op)
    requires SameScreen(e, f)
    ensures SameScreen(Do(e, op), Do(f, op))
  {
    hide Apply, SameGrid;
    ApplySame(e.grid, f.grid, op);
  }

  lemma MovesSame(e: Engine, f: Engine)
    requires SameScreen(e, f) && InBounds(e) && InBounds(f)
    ensures SameScreen(LineFeed(e), LineFeed(f)) && SameScreen(ReverseIndex(e), ReverseIndex(f))
    ensures SameScreen(ResetScreen(e), ResetScreen(f)) && SameScreen(Wrapped(e), Wrapped(f))
  {
    hide Apply, SameGrid;
    var d := e.(wrapPending := false);
    DoSame(d, f.(wrapPending := false), ScrollUp(e.top, e.bottom));
    DoSame(d, f.(wrapPending := false), ScrollDown(e.top, e.bottom));
    DoSame(e.(col := 0, wrapPending := false), f.(col := 0, wrapPending := false), ScrollUp(e.top, e.bottom));
    DoSame(e, f, EraseAll);
  }

  lemma PutSame(g: Grid, h: Grid, row: nat, col: nat, x: Cell, y: Cell)
    requires SameGrid(g, h) && row < |g| && col < |g[row]| && SameCell(Some(x), Some(y))
    ensures SameGrid(Put(g, row, col, x), Put(h, row, col, y))
  {
    forall r: nat, c: nat ensures SameAt(Put(g, row, col, x), Put(h, row, col, y), r, c) {
      assert SameAt(g, h, r, c);
    }
  }

  lemma WriteSame(e: Engine, f: Engine, glyph: nat, o: Origin, p: Origin)
    requires SameScreen(e, f) && InBounds(e) && InBounds(f) && o.streamOffset == p.streamOffset
    ensures SameScreen(WriteGlyph(e, glyph, o), WriteGlyph(f, glyph, p))
  {
    hide SameGrid, LineFeed, Put;
    MovesSame(e, f);
    MovesInBounds(e);
    MovesInBounds(f);
    var d := Wrapped(e);
    PutSame(d.grid, Wrapped(f).grid, d.row, d.col, Cell(glyph, o, d.pen), Cell(glyph, p, d.pen));
  }

  lemma EditSame(e: Engine, f: Engine, nums: seq<Num>, final: char)
    requires SameScreen(e, f) && InBounds(e) && InBounds(f)
    ensures SameScreen(Edit(e, nums, final), Edit(f, nums, final))
  {
    hide EditOp, Do, SameScreen;
    SameEdit(e, f, nums, final);
    var op := EditOp(e, nums, final);
    if op.Some? {
      DoSame(e, f, op.value);
    }
  }

  lemma SameEdit(e: Engine, f: Engine, nums: seq<Num>, final: char)
    requires SameScreen(e, f) && InBounds(e) && InBounds(f)
    ensures EditOp(e, nums, final) == EditOp(f, nums, final)
    ensures Target(e, nums, final) == Target(f, nums, final)
  {
    hide SameGrid, Rect;
  }

  lemma CursorSame(e: Engine, f: Engine, nums: seq<Num>, final: char)
    requires SameScreen(e, f) && InBounds(e) && InBounds(f)
    ensures SameScreen(MoveCursor(e, nums, final), MoveCursor(f, nums, final))
  {
    hide SameGrid, Target, InBounds;
    SameEdit(e, f, nums, final);
  }

  lemma PrivateSame(e: Engine, f: Engine, params: string, final: char)
    requires SameScreen(e, f) && params != ""
    ensures SameScreen(ApplyPrivateMode(e, params, final), ApplyPrivateMode(f, params, final))
  {
    hide SameGrid, Apply;
    DoSame(e, f, EraseAll);
  }

  lemma RegionSame(e: Engine, f: Engine)
    requires SameScreen(e, f) && InBounds(e) && InBounds(f)
    ensures forall t: nat, b: nat {:trigger SetScrollRegion(e, t, b)} :: SameScreen(SetScrollRegion(e, t, b), SetScrollRegion(f, t, b))
  {
    hide SameGrid, Rect;
  }

  lemma CsiSame(e: Engine, f: Engine, params: string, final: char)
    requires SameScreen(e, f) && InBounds(e) && InBounds(f)
    ensures SameScreen(ApplyCsi(e, params, final), ApplyCsi(f, params, final))
  {
    hide SameGrid, MoveCursor, Edit, Apply, Sgr, Numbers, ApplyPrivateMode, SetScrollRegion, Rect;
    if params != "" && params[0] == '?' {
      PrivateSame(e, f, params, final);
    }
    RegionSame(e, f);
    CursorSame(e, f, Numbers(params), final);
    EditSame(e, f, Numbers(params), final);
  }

  lemma EscSame(e: Engine, f: Engine, b: Byte)
    requires SameScreen(e, f) && InBounds(e) && InBounds(f)
    ensures SameScreen(StepEsc(e, b), StepEsc(f, b))
  {
    hide SameGrid, ApplyEscFinal, InBounds;
    EscFinalSame(e, f, b);
  }

  lemma EscFinalSame(e: Engine, f: Engine, b: Byte)
    requires SameScreen(e, f) && InBounds(e) && InBounds(f)
    ensures SameScreen(ApplyEscFinal(e, b), ApplyEscFinal(f, b))
  {
    hide SameGrid, LineFeed, ReverseIndex, ResetScreen, Rect;
    MovesSame(e, f);
    MovesSame(e.(col := 0, wrapPending := false), f.(col := 0, wrapPending := false));
  }

  lemma C0Same(e: Engine, f: Engine, b: Byte)
    requires SameScreen(e, f) && InBounds(e) && InBounds(f)
    ensures SameScreen(HandleC0(e, b), HandleC0(f, b))
  {
    hide SameGrid, LineFeed;
    MovesSame(e, f);
  }

  lemma FreshSame(e: Engine, f: Engine, b: Byte, o: Origin, p: Origin)
    requires SameScreen(e, f) && InBounds(e) && InBounds(f) && o.streamOffset == p.streamOffset
    ensures SameScreen(Fresh(e, b, o), Fresh(f, b, p))
  {
    hide SameGrid, HandleC0, WriteGlyph;
    C0Same(e, f, b);
    WriteSame(e, f, b, o, p);
    WriteSame(e.(glyphOrigin := Some(o)), f.(glyphOrigin := Some(p)), REPLACEMENT, o, p);
  }

  lemma GroundSame(e: Engine, f: Engine, b: Byte, o: Origin, p: Origin)
    requires SameScreen(e, f) && InBounds(e) && InBounds(f) && o.streamOffset == p.streamOffset
    ensures SameScreen(StepGround(e, b, o), StepGround(f, b, p))
  {
    hide SameGrid, Fresh, WriteGlyph;
    if e.utf8Need > 0 {
      if IsContinuation(b) {
        if e.utf8Need == 1 && e.glyphOrigin.Some? {
          var d := e.(utf8Cp := e.utf8Cp * 64 + b % 64, utf8Need := e.utf8Need - 1);
          var g := f.(utf8Cp := f.utf8Cp * 64 + b % 64, utf8Need := f.utf8Need - 1);
          WriteSame(d.(glyphOrigin := None), g.(glyphOrigin := None), Rendered(d.utf8Cp), e.glyphOrigin.value, f.glyphOrigin.value);
        }
      } else {
        FreshSame(e.(utf8Need := 0, glyphOrigin := None), f.(utf8Need := 0, glyphOrigin := None), b, o, p);
      }
    } else {
      FreshSame(e, f, b, o, p);
    }
  }

  lemma StepSame(e: Engine, f: Engine, b: Byte, o: Origin, p: Origin)
    requires SameScreen(e, f) && InBounds(e) && InBounds(f) && o.streamOffset == p.streamOffset
    ensures SameScreen(Step(e, b, o), Step(f, b, p))
  {
    hide SameGrid, StepGround, StepEsc, ApplyCsi;
    match e.mode
    case Ground => GroundSame(e, f, b, o, p);
    case Csi => CsiSame(e, f, e.csiParams, b as char);
    case _ =>
      EscSame(e, f, b);
      EscSame(e.(mode := Esc), f.(mode := Esc), b);
  }

  lemma {:induction false} FoldSame(e: Engine, f: Engine, ts: seq<Tagged>, us: seq<Tagged>)
    requires SameScreen(e, f) && InBounds(e) && InBounds(f) && |ts| == |us|
    requires forall k | 0 <= k < |ts| :: ts[k].byte == us[k].byte && ts[k].origin.streamOffset == us[k].origin.streamOffset
    ensures SameScreen(Fold(e, ts), Fold(f, us))
    decreases |ts|
  {
    hide SameScreen, InBounds, Step;
    if ts != [] {
      StepSame(e, f, ts[0].byte, ts[0].origin, us[0].origin);
      StepInBounds(e, ts[0].byte, ts[0].origin);
      StepInBounds(f, us[0].byte, us[0].origin);
      FoldSame(Step(e, ts[0].byte, ts[0].origin), Step(f, us[0].byte, us[0].origin), ts[1..], us[1..]);
    }
  }

  /** Glyphs, pens, cursor and stream offsets are the same for every way of cutting the stream into chunks. */
  lemma CutsDoNotMatter(chunks: seq<SourceChunk>, others: seq<SourceChunk>, cols: int, rows: int, base: nat)
    requires Bytes(chunks) == Bytes(others)
    ensures SameScreen(Emulate(chunks, cols, rows, base), Emulate(others, cols, rows, base))
  {
    hide Fold, InBounds, Tag, New;
    NewInBounds(cols, rows);
    TagNumbered(chunks, base);
    TagNumbered(others, base);
    SameSelf(New(cols, rows));
    FoldSame(New(cols, rows), New(cols, rows), Tag(chunks, base), Tag(others, base));
  }

  lemma SameSelf(e: Engine)
    ensures SameScreen(e, e)
  {
  }
}
