/**
  The byte-attributing terminal emulator (examples/web-multiplexer/web/byte-attribution-engine.ts) as a
  state machine over bytes. Each written cell remembers the byte that wrote it.
 */
module AttributionSpec {
  import opened Options
  import opened JsStrings
  import opened OctalCodec

  // ---------------------------------------------------------------------------------------
  // Cells and grids
  // ---------------------------------------------------------------------------------------

  /** Which byte: its chunk, the chunk's arrival time, its place in the chunk and in the stream. */
  datatype Origin = Origin(chunkId: nat, tMs: int, byteOffset: nat, streamOffset: nat)

  datatype Color = Default | Palette(n: nat) | Indexed(code: Num) | Rgb(r: Num, g: Num, b: Num)

  datatype Pen = Pen(fg: Color, bg: Color, bold: bool)

  const DEFAULT_PEN := Pen(Default, Default, false)

  /** A written cell; `glyph` is a code point. */
  datatype Cell = Cell(glyph: nat, origin: Origin, pen: Pen)

  type Line = seq<Option<Cell>>

  /** Rows of cells; `None` is a blank. */
  type Grid = seq<Line>

  predicate Rect(g: Grid, rows: nat, cols: nat) {
    |g| == rows && forall r | 0 <= r < |g| :: |g[r]| == cols
  }

  function Blank(rows: nat, cols: nat): (g: Grid)
    ensures Rect(g, rows, cols) && forall r, c | 0 <= r < rows && 0 <= c < cols :: g[r][c] == None
  {
    seq(rows, r => seq(cols, c => None))
  }

  function Put(g: Grid, row: nat, col: nat, cell: Cell): Grid
    requires row < |g| && col < |g[row]|
  {
    g[row := g[row][col := Some(cell)]]
  }

  /** The operations that move or blank cells. */
  datatype Op =
    | ScrollUp(top: nat, bottom: nat)
    | ScrollDown(top: nat, bottom: nat)
    | EraseAll
    | EraseFrom(row: nat, col: nat)
    | EraseTo(row: nat, col: nat)
    | EraseSpan(row: nat, start: nat, end: nat)
    | InsertChars(row: nat, col: nat, n: nat)
    | DeleteChars(row: nat, col: nat, n: nat, cols: nat)
    | InsertLines(row: nat, bottom: nat, n: nat)
    | DeleteLines(row: nat, bottom: nat, n: nat)

  /** Where the cell at row `r`, column `c` comes from; `None` when it is blanked. */
  function Source(op: Op, r: nat, c: nat): Option<(nat, nat)> {
    match op
    case ScrollUp(top, bottom) =>
      if top <= r < bottom then Some((r + 1, c)) else if r == bottom then None else Some((r, c))
    case ScrollDown(top, bottom) =>
      if top < r <= bottom then Some((r - 1, c)) else if r == top then None else Some((r, c))
    case EraseAll => None
    case EraseFrom(row, col) => if r > row || (r == row && c >= col) then None else Some((r, c))
    case EraseTo(row, col) => if r < row || (r == row && c <= col) then None else Some((r, c))
    case EraseSpan(row, start, end) => if r == row && start <= c < end then None else Some((r, c))
    case InsertChars(row, col, n) =>
      if r != row || c < col then Some((r, c)) else if c - n >= col then Some((r, c - n)) else None
    case DeleteChars(row, col, n, cols) =>
      if r != row || c < col then Some((r, c)) else if c + n < cols then Some((r, c + n)) else None
    case InsertLines(row, bottom, n) =>
      if r < row || r > bottom then Some((r, c)) else if r - n >= row then Some((r - n, c)) else None
    case DeleteLines(row, bottom, n) =>
      if r < row || r > bottom then Some((r, c)) else if r + n <= bottom then Some((r + n, c)) else None
  }

  function Fetch(g: Grid, p: Option<(nat, nat)>): Option<Cell> {
    match p
    case None => None
    case Some(rc) => if rc.0 < |g| && rc.1 < |g[rc.0]| then g[rc.0][rc.1] else None
  }

  function Apply(g: Grid, op: Op): (h: Grid)
    ensures |h| == |g|
    ensures forall r | 0 <= r < |g| :: |h[r]| == |g[r]|
    ensures forall r, c | 0 <= r < |g| && 0 <= c < |g[r]| :: h[r][c] == Fetch(g, Source(op, r, c))
  {
    seq(|g|, r requires 0 <= r < |g| => seq(|g[r]|, c requires 0 <= c < |g[r]| => Fetch(g, Source(op, r, c))))
  }

  // ---------------------------------------------------------------------------------------
  // The engine
  // ---------------------------------------------------------------------------------------

  datatype Mode = Ground | Esc | EscInter | Csi | Str | StrEsc

  datatype Saved = Saved(row: nat, col: nat, pen: Pen)

  datatype Engine = Engine(
    cols: nat,
    rows: nat,
    grid: Grid,
    row: nat,
    col: nat,
    wrapPending: bool,
    top: nat,
    bottom: nat,
    pen: Pen,
    saved: Option<Saved>,
    mode: Mode,
    csiParams: string,
    csiInter: string,
    utf8Need: nat,
    utf8Cp: nat,
    glyphOrigin: Option<Origin>
  )

  const ESC: Byte := 0x1b
  const BEL: Byte := 0x07
  const REPLACEMENT: nat := 0xFFFD

  function AtLeastOne(n: int): nat { if n < 1 then 1 else n }

  function New(cols: int, rows: int): Engine {
    var w, h := AtLeastOne(cols), AtLeastOne(rows);
    Engine(w, h, Blank(h, w), 0, 0, false, 0, h - 1, DEFAULT_PEN, None, Ground, "", "", 0, 0, None)
  }

  function Min(a: int, b: int): int { if a < b then a else b }

  function Max(a: int, b: int): int { if a > b then a else b }

  function Clamp(n: int, size: nat): nat
    requires size > 0
  {
    Max(0, Min(size - 1, n))
  }

  /** Cursor, scroll region and saved cursor lie on the screen. */
  predicate InBounds(e: Engine) {
    && e.cols > 0 && e.rows > 0 && Rect(e.grid, e.rows, e.cols)
    && e.row < e.rows && e.col < e.cols
    && e.top <= e.bottom < e.rows
    && (e.saved.Some? ==> e.saved.value.row < e.rows && e.saved.value.col < e.cols)
    && ParamChars(e.csiParams)
  }

  function Do(e: Engine, op: Op): Engine {
    e.(grid := Apply(e.grid, op))
  }

  function LineFeed(e: Engine): Engine {
    var d := e.(wrapPending := false);
    if e.row == e.bottom then Do(d, ScrollUp(e.top, e.bottom))
    else if e.row < e.rows - 1 then d.(row := e.row + 1)
    else d
  }

  function ReverseIndex(e: Engine): Engine {
    var d := e.(wrapPending := false);
    if e.row == e.top then Do(d, ScrollDown(e.top, e.bottom))
    else if e.row > 0 then d.(row := e.row - 1)
    else d
  }

  /** The deferred wrap, taken before the next glyph. */
  function Wrapped(e: Engine): Engine {
    if e.wrapPending then LineFeed(e.(col := 0)) else e
  }

  function WriteGlyph(e: Engine, glyph: nat, o: Origin): Engine
    requires InBounds(e)
  {
    var d := Wrapped(e);
    var w := d.(grid := Put(d.grid, d.row, d.col, Cell(glyph, o, d.pen)));
    if d.col + 1 >= d.cols then w.(wrapPending := true) else w.(col := d.col + 1)
  }

  function HandleC0(e: Engine, b: Byte): Engine
    requires InBounds(e)
  {
    if b == 0x08 then e.(col := if e.col > 0 then e.col - 1 else 0, wrapPending := false)
    else if b == 0x09 then e.(col := Min(e.cols - 1, (e.col / 8 + 1) * 8), wrapPending := false)
    else if 0x0a <= b <= 0x0c then LineFeed(e)
    else if b == 0x0d then e.(col := 0, wrapPending := false)
    else e
  }

  function ResetScreen(e: Engine): Engine
    requires InBounds(e)
  {
    Do(e, EraseAll).(row := 0, col := 0, wrapPending := false, top := 0, bottom := e.rows - 1, pen := DEFAULT_PEN, saved := None)
  }

  function ApplyEscFinal(e: Engine, b: Byte): Engine
    requires InBounds(e)
  {
    if b == 0x44 then LineFeed(e)
    else if b == 0x45 then LineFeed(e.(col := 0, wrapPending := false))
    else if b == 0x4d then ReverseIndex(e)
    else if b == 0x63 then ResetScreen(e)
    else e
  }

  // ---------------------------------------------------------------------------------------
  // Control sequences
  // ---------------------------------------------------------------------------------------

  predicate ParamChars(s: string) {
    forall c <- s :: 0x30 <= c as nat <= 0x3f
  }

  function ParseAll(parts: seq<string>): seq<Num> {
    if parts == [] then [] else [ParseInt(parts[0])] + ParseAll(parts[1..])
  }

  function Numbers(params: string): seq<Num> {
    if params == "" then [] else ParseAll(Split(params, ';'))
  }

  /** A count: missing, unreadable and 0 mean 1. */
  function N1(nums: seq<Num>, i: nat): (n: nat)
    ensures n >= 1
  {
    if i < |nums| && nums[i].Int? && nums[i].n > 0 then nums[i].n else 1
  }

  /** A selector: missing and unreadable mean 0. */
  function N0(nums: seq<Num>, i: nat): int {
    if i < |nums| && nums[i].Int? then nums[i].n else 0
  }

  function EraseDisplay(e: Engine, mode: int): Op {
    if mode == 0 then EraseFrom(e.row, e.col) else if mode == 1 then EraseTo(e.row, e.col) else EraseAll
  }

  function EraseLine(e: Engine, mode: int): Op {
    if mode == 0 then EraseSpan(e.row, e.col, e.cols)
    else if mode == 1 then EraseSpan(e.row, 0, e.col + 1)
    else EraseSpan(e.row, 0, e.cols)
  }

  predicate InRegion(e: Engine) {
    e.top <= e.row <= e.bottom
  }

  function SetScrollRegion(e: Engine, topParam: nat, bottomParam: nat): Engine
    requires InBounds(e)
  {
    var t, b := Clamp(topParam - 1, e.rows), Clamp(bottomParam - 1, e.rows);
    var d := if t < b then e.(top := t, bottom := b) else e.(top := 0, bottom := e.rows - 1);
    d.(row := d.top, col := 0, wrapPending := false)
  }

  /** SGR parameters from position `i`. */
  function Sgr(pen: Pen, params: seq<Num>, i: nat): Pen
    requires i <= |params|
    decreases |params| - i
  {
    if i == |params| then pen else
    match params[i]
    case NaN => Sgr(DEFAULT_PEN, params, i + 1)
    case Int(n) =>
      if n == 0 then Sgr(DEFAULT_PEN, params, i + 1)
      else if n == 1 then Sgr(pen.(bold := true), params, i + 1)
      else if n == 22 then Sgr(pen.(bold := false), params, i + 1)
      else if 30 <= n <= 37 then Sgr(pen.(fg := Palette(n - 30)), params, i + 1)
      else if 90 <= n <= 97 then Sgr(pen.(fg := Palette(n - 90 + 8)), params, i + 1)
      else if n == 39 then Sgr(pen.(fg := Default), params, i + 1)
      else if 40 <= n <= 47 then Sgr(pen.(bg := Palette(n - 40)), params, i + 1)
      else if 100 <= n <= 107 then Sgr(pen.(bg := Palette(n - 100 + 8)), params, i + 1)
      else if n == 49 then Sgr(pen.(bg := Default), params, i + 1)
      else if n == 38 || n == 48 then
        if i + 2 < |params| && params[i + 1] == Int(5) then
          Sgr(Tint(pen, n == 38, Indexed(params[i + 2])), params, i + 3)
        else if i + 4 < |params| && params[i + 1] == Int(2) then
          Sgr(Tint(pen, n == 38, Rgb(params[i + 2], params[i + 3], params[i + 4])), params, i + 5)
        else Sgr(pen, params, i + 1)
      else Sgr(pen, params, i + 1)
  }

  function Tint(pen: Pen, foreground: bool, color: Color): Pen {
    if foreground then pen.(fg := color) else pen.(bg := color)
  }

  /** Where a cursor movement goes. */
  function Target(e: Engine, nums: seq<Num>, f: char): (rc: (nat, nat))
    requires InBounds(e)
    ensures rc.0 < e.rows && rc.1 < e.cols
  {
    var n := N1(nums, 0);
    match f
    case 'A' => (Max(e.top, e.row - n), e.col)
    case 'B' => (Min(e.bottom, e.row + n), e.col)
    case 'C' => (e.row, Clamp(e.col + n, e.cols))
    case 'D' => (e.row, Clamp(e.col - n, e.cols))
    case 'E' => (Min(e.bottom, e.row + n), 0)
    case 'F' => (Max(e.top, e.row - n), 0)
    case 'G' => (e.row, Clamp(n - 1, e.cols))
    case 'd' => (Clamp(n - 1, e.rows), e.col)
    case _ => (Clamp(n - 1, e.rows), Clamp(N1(nums, 1) - 1, e.cols))
  }

  function MoveCursor(e: Engine, nums: seq<Num>, f: char): Engine
    requires InBounds(e)
  {
    var rc := Target(e, nums, f);
    e.(row := rc.0, col := rc.1, wrapPending := false)
  }

  /** What the finals that erase or move cells do; lines move only inside the scroll region. */
  function EditOp(e: Engine, nums: seq<Num>, f: char): Option<Op>
    requires InBounds(e)
  {
    var n := N1(nums, 0);
    match f
    case 'J' => Some(EraseDisplay(e, N0(nums, 0)))
    case 'K' => Some(EraseLine(e, N0(nums, 0)))
    case 'X' => Some(EraseSpan(e.row, e.col, Min(e.cols, e.col + n)))
    case '@' => Some(InsertChars(e.row, e.col, n))
    case 'P' => Some(DeleteChars(e.row, e.col, n, e.cols))
    case 'L' => if InRegion(e) then Some(InsertLines(e.row, e.bottom, n)) else None
    case _ => if InRegion(e) then Some(DeleteLines(e.row, e.bottom, n)) else None
  }

  function Edit(e: Engine, nums: seq<Num>, f: char): Engine
    requires InBounds(e)
  {
    match EditOp(e, nums, f)
    case None => e
    case Some(op) => Do(e, op)
  }

  function RestoreCursor(e: Engine): Engine {
    match e.saved
    case None => e
    case Some(s) => e.(row := s.row, col := s.col, pen := s.pen, wrapPending := false)
  }

  function ApplyPrivateMode(e: Engine, params: string, f: char): Engine
    requires params != ""
  {
    if (f == 'h' || f == 'l') && (params[1..] == "1049" || params[1..] == "1047" || params[1..] == "47") then
      Do(e, EraseAll).(row := 0, col := 0, wrapPending := false)
    else e
  }

  function ApplyCsi(e: Engine, params: string, f: char): Engine
    requires InBounds(e)
  {
    if params != "" && params[0] == '?' then ApplyPrivateMode(e, params, f)
    else
      var nums := Numbers(params);
      if f in "ABCDEFGdHf" then MoveCursor(e, nums, f)
      else if f in "JKX@PLM" then Edit(e, nums, f)
      else if f == 'r' then SetScrollRegion(e, N1(nums, 0), if |nums| < 2 then e.rows else N1(nums, 1))
      else if f == 'm' then e.(pen := Sgr(e.pen, if nums == [] then [Int(0)] else nums, 0))
      else if f == 's' then e.(saved := Some(Saved(e.row, e.col, e.pen)))
      else if f == 'u' then RestoreCursor(e)
      else e
  }

  // ---------------------------------------------------------------------------------------
  // Byte dispatch
  // ---------------------------------------------------------------------------------------

  /** Continuation bytes a lead byte asks for. */
  function Needs(b: Byte): nat {
    if b >= 0xf0 then 3 else if b >= 0xe0 then 2 else 1
  }

  function LeadBits(b: Byte): nat {
    if b >= 0xf0 then b % 8 else if b >= 0xe0 then b % 16 else b % 32
  }

  predicate IsContinuation(b: Byte) {
    0x80 <= b <= 0xbf
  }

  function Rendered(cp: nat): nat {
    if cp <= 0x10ffff then cp else REPLACEMENT
  }

  function FlushUtf8(e: Engine): Engine
    requires InBounds(e)
  {
    match e.glyphOrigin
    case None => e
    case Some(o) => WriteGlyph(e.(glyphOrigin := None), Rendered(e.utf8Cp), o)
  }

  function Continue(e: Engine, b: Byte): Engine
    requires InBounds(e) && e.utf8Need > 0
  {
    var d := e.(utf8Cp := e.utf8Cp * 64 + b % 64, utf8Need := e.utf8Need - 1);
    if d.utf8Need == 0 then FlushUtf8(d) else d
  }

  function Fresh(e: Engine, b: Byte, o: Origin): Engine
    requires InBounds(e)
  {
    if b == ESC then e.(mode := Esc)
    else if b == 0x7f then e
    else if b < 0x20 then HandleC0(e, b)
    else if b < 0x80 then WriteGlyph(e, b, o)
    else if b >= 0xc0 then e.(glyphOrigin := Some(o), utf8Need := Needs(b), utf8Cp := LeadBits(b))
    else WriteGlyph(e.(glyphOrigin := Some(o)), REPLACEMENT, o)
  }

  function StepGround(e: Engine, b: Byte, o: Origin): Engine
    requires InBounds(e)
  {
    if e.utf8Need > 0 then
      if IsContinuation(b) then Continue(e, b) else Fresh(e.(utf8Need := 0, glyphOrigin := None), b, o)
    else Fresh(e, b, o)
  }

  function StepEsc(e: Engine, b: Byte): Engine
    requires InBounds(e)
  {
    if b == 0x5b then e.(mode := Csi, csiParams := "", csiInter := "")
    else if b == 0x5d || b == 0x50 || b == 0x5f || b == 0x5e || b == 0x58 then e.(mode := Str)
    else if 0x20 <= b <= 0x2f then e.(mode := EscInter)
    else ApplyEscFinal(e, b).(mode := Ground)
  }

  function StepCsi(e: Engine, b: Byte): Engine
    requires InBounds(e)
  {
    if 0x30 <= b <= 0x3f && e.csiInter == "" then e.(csiParams := e.csiParams + [b as char])
    else if 0x20 <= b <= 0x2f then e.(csiInter := e.csiInter + [b as char])
    else if 0x40 <= b <= 0x7e then ApplyCsi(e, e.csiParams, b as char).(mode := Ground)
    else e.(mode := Ground)
  }

  /** One byte, reprocessed as an escape when it interrupts a control string. */
  function Step(e: Engine, b: Byte, o: Origin): Engine
    requires InBounds(e)
  {
    match e.mode
    case Ground => StepGround(e, b, o)
    case Esc => StepEsc(e, b)
    case EscInter => if 0x20 <= b <= 0x2f then e else e.(mode := Ground)
    case Csi => StepCsi(e, b)
    case Str => if b == BEL then e.(mode := Ground) else if b == ESC then e.(mode := StrEsc) else e
    case StrEsc => if b == 0x5c then e.(mode := Ground) else StepEsc(e.(mode := Esc), b)
  }
}
