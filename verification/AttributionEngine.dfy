/**
  The emulator as an object over one flat array of cells, moved and blanked in place. `grid` is the
  array read row by row; every method is proved to take the step of AttributionSpec.
 */
module AttributionEngineClass {
  import opened Options
  import opened JsStrings
  import opened OctalCodec
  import opened AttributionSpec
  import A = Attribution

  function Index(r: nat, c: nat, cols: nat): nat {
    r * cols + c
  }

  lemma IndexInRange(r: nat, c: nat, rows: nat, cols: nat)
    requires r < rows && c < cols
    ensures Index(r, c, cols) < rows * cols
  {
    assert (r + 1) * cols <= rows * cols;
  }

  /** Positions in row order are array positions in order. */
  lemma IndexOrder(r: nat, c: nat, r': nat, c': nat, cols: nat)
    requires c < cols && c' < cols
    ensures Index(r, c, cols) < Index(r', c', cols) <==> r < r' || (r == r' && c < c')
    ensures Index(r, c, cols) == Index(r', c', cols) <==> (r, c) == (r', c')
  {
    if r < r' {
      assert (r + 1) * cols <= r' * cols;
    } else if r' < r {
      assert (r' + 1) * cols <= r * cols;
    }
  }

  lemma IndexBack(k: nat, rows: nat, cols: nat)
    requires cols > 0 && k < rows * cols
    ensures k / cols < rows && k % cols < cols && Index(k / cols, k % cols, cols) == k
  {
    var q := k / cols;
    assert q * cols + k % cols == k;
    AtLeastTimes(q, rows, cols);
  }

  lemma AtLeastTimes(a: nat, b: nat, n: nat)
    ensures a >= b ==> a * n >= b * n
  {
  }

  class AttributionEngine {
    const cols: nat
    const rows: nat
    const cells: array<Option<Cell>>
    ghost var grid: Grid
    var row: nat
    var col: nat
    var wrapPending: bool
    var top: nat
    var bottom: nat
    var pen: Pen
    var saved: Option<Saved>
    var mode: Mode
    var csiParams: string
    var csiInter: string
    var utf8Need: nat
    var utf8Cp: nat
    var glyphOrigin: Option<Origin>

    ghost function View(): Engine
      reads this
    {
      Engine(cols, rows, grid, row, col, wrapPending, top, bottom, pen, saved, mode, csiParams, csiInter, utf8Need, utf8Cp, glyphOrigin)
    }

    /** The array holds the grid, row by row. */
    ghost predicate Shown()
      reads this, cells
    {
      && cols > 0 && cells.Length == rows * cols && Rect(grid, rows, cols)
      && forall r, c | 0 <= r < rows && 0 <= c < cols :: ShownAt(r, c)
    }

    ghost predicate ShownAt(r: nat, c: nat)
      requires r < rows && c < cols && cells.Length == rows * cols && Rect(grid, rows, cols)
      reads this, cells
    {
      IndexInRange(r, c, rows, cols);
      cells[Index(r, c, cols)] == grid[r][c]
    }

    /** Cursor, scroll region and saved cursor are on the screen. */
    predicate OnScreen()
      reads this
    {
      && row < rows && col < cols && top <= bottom < rows
      && (saved.Some? ==> saved.value.row < rows && saved.value.col < cols)
      && ParamChars(csiParams)
    }

    ghost predicate Valid()
      reads this, cells
      ensures Valid() <==> Shown() && InBounds(View())
    {
      Shown() && OnScreen()
    }

    constructor (cols: int, rows: int)
      ensures Valid() && fresh(cells) && View() == New(cols, rows)
    {
      var w, h := AtLeastOne(cols), AtLeastOne(rows);
      this.cols, this.rows := w, h;
      cells := new Option<Cell>[w * h](_ => None);
      grid := Blank(h, w);
      row, col, wrapPending := 0, 0, false;
      top, bottom := 0, h - 1;
      pen, saved, mode := DEFAULT_PEN, None, Ground;
      csiParams, csiInter, utf8Need, utf8Cp, glyphOrigin := "", "", 0, 0, None;
      new;
      hide Index, AtLeastOne;
      forall r, c | 0 <= r < h && 0 <= c < w ensures ShownAt(r, c) {
        IndexInRange(r, c, h, w);
      }
    }

    // -------------------------------------------------------------------------------------
    // Cells
    // -------------------------------------------------------------------------------------

    function CellAt(r: nat, c: nat): (x: Option<Cell>)
      requires Shown() && r < rows && c < cols
      reads this, cells
      ensures x == grid[r][c]
    {
      assert ShownAt(r, c);
      IndexInRange(r, c, rows, cols);
      cells[r * cols + c]
    }

    method SetCell(r: nat, c: nat, x: Option<Cell>)
      requires Shown() && r < rows && c < cols
      modifies cells, this`grid
      ensures Shown() && grid == old(grid)[r := old(grid)[r][c := x]]
    {
      IndexInRange(r, c, rows, cols);
      cells[r * cols + c] := x;
      grid := grid[r := grid[r][c := x]];
      forall r', c' | 0 <= r' < rows && 0 <= c' < cols ensures ShownAt(r', c') {
        IndexInRange(r', c', rows, cols);
        IndexOrder(r, c, r', c', cols);
        assert old(ShownAt(r', c'));
      }
    }

    /** The inner loop of the row movers: row `r` becomes row `src`. */
    method CopyRow(r: nat, src: nat)
      requires Shown() && r < rows && src < rows
      modifies cells, this`grid
      ensures Shown() && grid == old(grid)[r := old(grid)[src]]
    {
      hide Rect, AttributionEngine.Shown;
      ghost var g := grid;
      Widths();
      for c := 0 to cols
        invariant Shown() && |grid| == rows == |g| && |grid[r]| == cols && grid == g[r := grid[r]]
        invariant forall k | 0 <= k < c :: grid[r][k] == g[src][k]
        invariant forall k | c <= k < cols :: grid[r][k] == g[r][k]
      {
        var x := CellAt(src, c);
        SetCell(r, c, x);
      }
      assert grid[r] == g[src];
    }

    lemma Dimensions()
      requires Shown()
      ensures cols > 0 && cells.Length == rows * cols
    {
    }

    lemma Widths()
      requires Shown()
      ensures |grid| == rows && forall r | 0 <= r < rows :: |grid[r]| == cols
    {
    }

    static function Blanks(n: nat): (l: Line)
      ensures |l| == n && forall i | 0 <= i < n :: l[i] == None
    {
      seq(n, i => None)
    }

    /** Blank columns [start, end) of row `r`. */
    method BlankSpan(r: nat, start: nat, end: nat)
      requires Shown() && r < rows && start <= end <= cols
      modifies cells, this`grid
      ensures Shown() && |old(grid)| == rows && |old(grid)[r]| == cols
      ensures grid == old(grid)[r := old(grid)[r][..start] + Blanks(end - start) + old(grid)[r][end..]]
    {
      hide Rect, AttributionEngine.Shown;
      ghost var g := grid;
      Widths();
      assert g[r] == g[r][..start] + Blanks(0) + g[r][start..];
      for c := start to end
        invariant Shown() && |grid| == rows
        invariant grid == g[r := g[r][..start] + Blanks(c - start) + g[r][c..]]
      {
        SetCell(r, c, None);
        assert (g[r][..start] + Blanks(c - start) + g[r][c..])[c := None] == g[r][..start] + Blanks(c + 1 - start) + g[r][c + 1..];
      }
    }

    method BlankRow(r: nat)
      requires Shown() && r < rows
      modifies cells, this`grid
      ensures Shown() && grid == old(grid)[r := Blanks(cols)]
    {
      hide Rect, AttributionEngine.Shown;
      Widths();
      BlankSpan(r, 0, cols);
      assert old(grid)[r][..0] + Blanks(cols) + old(grid)[r][cols..] == Blanks(cols);
    }

    // -------------------------------------------------------------------------------------
    // Scrolling and moving lines
    // -------------------------------------------------------------------------------------

    /** Two grids with the same lines, one of them the result of an operation. */
    static lemma SameLines(h: Grid, g: Grid, op: Op)
      requires |h| == |g|
      requires forall r | 0 <= r < |g| :: |h[r]| == |g[r]|
      requires forall r, c | 0 <= r < |g| && 0 <= c < |g[r]| :: h[r][c] == Fetch(g, Source(op, r, c))
      ensures h == Apply(g, op)
    {
      forall r | 0 <= r < |g| ensures h[r] == Apply(g, op)[r] {
        assert |h[r]| == |Apply(g, op)[r]|;
      }
    }

    static predicate MovesLines(op: Op) {
      op.ScrollUp? || op.ScrollDown? || op.InsertLines? || op.DeleteLines?
    }

    /** The line that becomes line `r`; `None` for a blank one. */
    static function LineSource(op: Op, r: nat): Option<int>
      requires MovesLines(op)
    {
      match op
      case ScrollUp(top, bottom) => if top <= r < bottom then Some(r + 1) else if r == bottom then None else Some(r)
      case ScrollDown(top, bottom) => if top < r <= bottom then Some(r - 1) else if r == top then None else Some(r)
      case InsertLines(row, bottom, n) => if r < row || r > bottom then Some(r) else if r - n >= row then Some(r - n) else None
      case DeleteLines(row, bottom, n) => if r < row || r > bottom then Some(r) else if r + n <= bottom then Some(r + n) else None
    }

    static ghost predicate Wide(g: Grid, cols: nat) {
      forall r | 0 <= r < |g| :: |g[r]| == cols
    }

    static lemma LineOf(g: Grid, op: Op, r: nat, cols: nat)
      requires Wide(g, cols) && r < |g| && MovesLines(op)
      ensures match LineSource(op, r)
              case None => Apply(g, op)[r] == Blanks(cols)
              case Some(s) => 0 <= s < |g| ==> Apply(g, op)[r] == g[s]
    {
      var line := Apply(g, op)[r];
      match LineSource(op, r)
      case None => assert line == Blanks(cols);
      case Some(s) => if 0 <= s < |g| { assert |g[s]| == cols == |line|; assert line == g[s]; }
    }

    /** Lines [lo, hi) are already those of the result; the others are as they were. */
    static ghost predicate Moved(a: Grid, g: Grid, op: Op, lo: int, hi: int) {
      |a| == |g| && forall k | 0 <= k < |g| :: a[k] == if lo <= k < hi then Apply(g, op)[k] else g[k]
    }

    static lemma NoneMoved(g: Grid, op: Op, lo: int)
      ensures Moved(g, g, op, lo, lo)
    {
    }

    /** One more line, above or below those already moved. */
    static lemma OneMoved(a: Grid, g: Grid, op: Op, lo: int, hi: int, r: nat, cols: nat, line: Line)
      requires Moved(a, g, op, lo, hi) && lo <= hi && Wide(g, cols) && r < |g| && MovesLines(op) && (r == hi || r == lo - 1)
      requires match LineSource(op, r)
               case None => line == Blanks(cols)
               case Some(s) => 0 <= s < |g| && !(lo <= s < hi) && line == a[s]
      ensures Moved(a[r := line], g, op, if r < lo then r else lo, if r < lo then hi else r + 1)
    {
      hide Apply, Blanks, LineSource;
      LineOf(g, op, r, cols);
    }

    static lemma AllMoved(a: Grid, g: Grid, op: Op, lo: nat, hi: nat, cols: nat)
      requires Moved(a, g, op, lo, hi) && Wide(g, cols) && MovesLines(op)
      requires forall r | 0 <= r < |g| && !(lo <= r < hi) :: LineSource(op, r) == Some(r)
      ensures a == Apply(g, op)
    {
      hide Apply, Blanks, LineSource;
      forall r | 0 <= r < |g| ensures a[r] == Apply(g, op)[r] {
        LineOf(g, op, r, cols);
      }
    }

    method ScrollUpNow()
      requires Valid()
      modifies cells, this`grid
      ensures Valid() && View() == Do(old(View()), ScrollUp(top, bottom))
    {
      hide Rect, AttributionEngine.Shown, AttributionEngine.Moved, AttributionEngine.Blanks, Apply, ParamChars;
      ghost var g, op := grid, ScrollUp(top, bottom);
      Widths();
      NoneMoved(g, op, top);
      for r := top to bottom
        invariant Shown() && |grid| == rows && Moved(grid, g, op, top, r)
      {
        OneMoved(grid, g, op, top, r, r, cols, grid[r + 1]);
        CopyRow(r, r + 1);
      }
      OneMoved(grid, g, op, top, bottom, bottom, cols, Blanks(cols));
      BlankRow(bottom);
      AllMoved(grid, g, op, top, bottom + 1, cols);
    }

    method ScrollDownNow()
      requires Valid()
      modifies cells, this`grid
      ensures Valid() && View() == Do(old(View()), ScrollDown(top, bottom))
    {
      hide Rect, AttributionEngine.Shown, AttributionEngine.Moved, AttributionEngine.Blanks, Apply, ParamChars;
      ghost var g, op := grid, ScrollDown(top, bottom);
      Widths();
      NoneMoved(g, op, bottom + 1);
      var r := bottom;
      while r > top
        invariant top <= r <= bottom && Shown() && |grid| == rows && Moved(grid, g, op, r + 1, bottom + 1)
      {
        OneMoved(grid, g, op, r + 1, bottom + 1, r, cols, grid[r - 1]);
        CopyRow(r, r - 1);
        r := r - 1;
      }
      OneMoved(grid, g, op, top + 1, bottom + 1, top, cols, Blanks(cols));
      BlankRow(top);
      AllMoved(grid, g, op, top, bottom + 1, cols);
    }

    method InsertLinesNow(n: nat)
      requires Valid() && InRegion(View()) && n >= 1
      modifies cells, this`grid
      ensures Valid() && View() == Do(old(View()), InsertLines(row, bottom, n))
    {
      hide Rect, AttributionEngine.Shown, AttributionEngine.Moved, AttributionEngine.Blanks, Apply, ParamChars;
      ghost var g, op := grid, InsertLines(row, bottom, n);
      Widths();
      NoneMoved(g, op, bottom + 1);
      var r: int := bottom;
      while r >= row
        invariant row - 1 <= r <= bottom && Shown() && |grid| == rows && Moved(grid, g, op, r + 1, bottom + 1)
      {
        OneMoved(grid, g, op, r + 1, bottom + 1, r, cols, if r - n >= row then grid[r - n] else Blanks(cols));
        if r - n >= row {
          CopyRow(r, r - n);
        } else {
          BlankRow(r);
        }
        r := r - 1;
      }
      AllMoved(grid, g, op, row, bottom + 1, cols);
    }

    method DeleteLinesNow(n: nat)
      requires Valid() && InRegion(View()) && n >= 1
      modifies cells, this`grid
      ensures Valid() && View() == Do(old(View()), DeleteLines(row, bottom, n))
    {
      hide Rect, AttributionEngine.Shown, AttributionEngine.Moved, AttributionEngine.Blanks, Apply, ParamChars;
      ghost var g, op := grid, DeleteLines(row, bottom, n);
      Widths();
      NoneMoved(g, op, row);
      for r := row to bottom + 1
        invariant Shown() && |grid| == rows && Moved(grid, g, op, row, r)
      {
        OneMoved(grid, g, op, row, r, r, cols, if r + n <= bottom then grid[r + n] else Blanks(cols));
        if r + n <= bottom {
          CopyRow(r, r + n);
        } else {
          BlankRow(r);
        }
      }
      AllMoved(grid, g, op, row, bottom + 1, cols);
    }

    // -------------------------------------------------------------------------------------
    // Moving and blanking characters
    // -------------------------------------------------------------------------------------

    /** A change of one row, cell by cell. */
    static lemma OneRow(g: Grid, h: Grid, op: Op, r: nat)
      requires r < |g| && |h| == |g| && h == g[r := h[r]] && |h[r]| == |g[r]|
      requires forall k, c | 0 <= k < |g| && k != r && 0 <= c < |g[k]| :: Source(op, k, c) == Some((k, c))
      requires forall c | 0 <= c < |g[r]| :: h[r][c] == Fetch(g, Source(op, r, c))
      ensures h == Apply(g, op)
    {
      SameLines(h, g, op);
    }

    method InsertCharsNow(n: nat)
      requires Valid() && n >= 1
      modifies cells, this`grid
      ensures Valid() && View() == Do(old(View()), InsertChars(row, col, n))
    {
      hide Rect, AttributionEngine.Shown, Apply;
      ghost var g := grid;
      Widths();
      var c: int := cols - 1;
      while c >= col
        invariant col - 1 <= c <= cols - 1 && Shown() && |grid| == rows && |grid[row]| == cols
        invariant grid == g[row := grid[row]]
        invariant forall k | c < k < cols :: grid[row][k] == if k - n >= col then g[row][k - n] else None
        invariant forall k | 0 <= k <= c :: grid[row][k] == g[row][k]
      {
        var x := if c - n >= col then CellAt(row, c - n) else None;
        SetCell(row, c, x);
        c := c - 1;
      }
      InsertedChars(g, grid, row, col, n);
    }

    static lemma InsertedChars(g: Grid, h: Grid, row: nat, col: nat, n: nat)
      requires row < |g| && |h| == |g| && h == g[row := h[row]] && |h[row]| == |g[row]| && col < |g[row]| && n >= 1
      requires forall k | col <= k < |g[row]| :: h[row][k] == if k - n >= col then g[row][k - n] else None
      requires forall k | 0 <= k < col :: h[row][k] == g[row][k]
      ensures h == Apply(g, InsertChars(row, col, n))
    {
      OneRow(g, h, InsertChars(row, col, n), row);
    }

    method DeleteCharsNow(n: nat)
      requires Valid() && n >= 1
      modifies cells, this`grid
      ensures Valid() && View() == Do(old(View()), DeleteChars(row, col, n, cols))
    {
      hide Rect, AttributionEngine.Shown, Apply;
      ghost var g := grid;
      Widths();
      for c := col to cols
        invariant Shown() && |grid| == rows && |grid[row]| == cols
        invariant grid == g[row := grid[row]]
        invariant forall k | col <= k < c :: grid[row][k] == if k + n < cols then g[row][k + n] else None
        invariant forall k | 0 <= k < col || c <= k < cols :: grid[row][k] == g[row][k]
      {
        var x := if c + n < cols then CellAt(row, c + n) else None;
        SetCell(row, c, x);
      }
      DeletedChars(g, grid, row, col, n, cols);
    }

    static lemma DeletedChars(g: Grid, h: Grid, row: nat, col: nat, n: nat, cols: nat)
      requires row < |g| && |h| == |g| && h == g[row := h[row]] && |h[row]| == |g[row]| == cols && col < cols && n >= 1
      requires forall k | col <= k < cols :: h[row][k] == if k + n < cols then g[row][k + n] else None
      requires forall k | 0 <= k < col :: h[row][k] == g[row][k]
      ensures h == Apply(g, DeleteChars(row, col, n, cols))
    {
      OneRow(g, h, DeleteChars(row, col, n, cols), row);
    }

    method EraseSpanNow(start: nat, end: nat)
      requires Valid() && start <= end <= cols
      modifies cells, this`grid
      ensures Valid() && View() == Do(old(View()), EraseSpan(row, start, end))
    {
      hide Rect, AttributionEngine.Shown, Apply;
      ghost var g := grid;
      Widths();
      BlankSpan(row, start, end);
      ErasedSpan(g, grid, row, start, end);
    }

    static lemma ErasedSpan(g: Grid, h: Grid, row: nat, start: nat, end: nat)
      requires row < |g| && start <= end <= |g[row]|
      requires h == g[row := g[row][..start] + Blanks(end - start) + g[row][end..]]
      ensures h == Apply(g, EraseSpan(row, start, end))
    {
      OneRow(g, h, EraseSpan(row, start, end), row);
    }

    /** Blank the array positions [start, end). */
    method BlankCells(start: nat, end: nat)
      requires Shown() && start <= end <= cells.Length
      modifies cells, this`grid
      ensures Shown() && |old(grid)| == rows && forall r | 0 <= r < rows :: |old(grid)[r]| == cols
      ensures forall r, c | 0 <= r < rows && 0 <= c < cols ::
                grid[r][c] == if start <= Index(r, c, cols) < end then None else old(grid)[r][c]
    {
      hide Index, Rect, AttributionEngine.Shown;
      ghost var g := grid;
      Widths();
      Dimensions();
      for k := start to end
        invariant Shown() && |grid| == rows && forall r | 0 <= r < rows :: |grid[r]| == cols
        invariant forall r, c | 0 <= r < rows && 0 <= c < cols ::
                    grid[r][c] == if start <= Index(r, c, cols) < k then None else g[r][c]
      {
        IndexBack(k, rows, cols);
        ghost var h := grid;
        SetCell(k / cols, k % cols, None);
        forall r, c | 0 <= r < rows && 0 <= c < cols
          ensures grid[r][c] == if start <= Index(r, c, cols) < k + 1 then None else g[r][c]
        {
          IndexOrder(r, c, k / cols, k % cols, cols);
          assert grid[r][c] == if (r, c) == (k / cols, k % cols) then None else h[r][c];
        }
      }
    }

    method EraseDisplayNow(m: int)
      requires Valid()
      modifies cells, this`grid
      ensures Valid() && View() == Do(old(View()), EraseDisplay(old(View()), m))
    {
      hide Apply, Index;
      ghost var g := grid;
      IndexInRange(row, col, rows, cols);
      var cur := row * cols + col;
      assert cur == Index(row, col, cols) by { CursorIndex(); }
      if m == 0 {
        BlankCells(cur, cells.Length);
      } else if m == 1 {
        BlankCells(0, cur + 1);
      } else {
        BlankCells(0, cells.Length);
      }
      ErasedDisplay(g, grid, EraseDisplay(old(View()), m), row, col, rows, cols, m);
    }

    lemma CursorIndex()
      ensures row * cols + col == Index(row, col, cols)
    {
    }

    static lemma ErasedDisplay(g: Grid, h: Grid, op: Op, row: nat, col: nat, rows: nat, cols: nat, m: int)
      requires Rect(g, rows, cols) && Rect(h, rows, cols) && row < rows && col < cols
      requires op == if m == 0 then EraseFrom(row, col) else if m == 1 then EraseTo(row, col) else EraseAll
      requires forall r, c | 0 <= r < rows && 0 <= c < cols ::
                 h[r][c] == if ErasedAt(r, c, row, col, rows, cols, m) then None else g[r][c]
      ensures h == Apply(g, op)
    {
      hide Index;
      forall r, c | 0 <= r < rows && 0 <= c < cols ensures h[r][c] == Fetch(g, Source(op, r, c)) {
        IndexOrder(r, c, row, col, cols);
        IndexInRange(r, c, rows, cols);
      }
      SameLines(h, g, op);
    }

    static predicate ErasedAt(r: nat, c: nat, row: nat, col: nat, rows: nat, cols: nat, m: int) {
      if m == 0 then Index(row, col, cols) <= Index(r, c, cols) < rows * cols
      else if m == 1 then Index(r, c, cols) < Index(row, col, cols) + 1
      else Index(r, c, cols) < rows * cols
    }

    /** `cells.fill(null)`. */
    method Fill()
      requires Valid()
      modifies cells, this`grid
      ensures Valid() && View() == Do(old(View()), EraseAll)
    {
      EraseDisplayNow(2);
    }

    method EraseLineNow(m: int)
      requires Valid()
      modifies cells, this`grid
      ensures Valid() && View() == Do(old(View()), EraseLine(old(View()), m))
    {
      hide Apply, AttributionEngine.Shown;
      if m == 0 {
        EraseSpanNow(col, cols);
      } else if m == 1 {
        EraseSpanNow(0, col + 1);
      } else {
        EraseSpanNow(0, cols);
      }
    }

    // -------------------------------------------------------------------------------------
    // Cursor and screen
    // -------------------------------------------------------------------------------------

    method LineFeedNow()
      requires Valid()
      modifies this, cells
      ensures Valid() && View() == LineFeed(old(View()))
    {
      hide AttributionEngine.Shown, Apply;
      wrapPending := false;
      Untouched();
      if row == bottom {
        ScrollUpNow();
      } else if row < rows - 1 {
        row := row + 1;
        Untouched();
      }
    }

    /** Changing the cursor, the pen or the parser leaves the cells shown. */
    twostate lemma Untouched()
      requires old(Shown()) && grid == old(grid) && cells[..] == old(cells[..])
      ensures Shown()
    {
      forall r, c | 0 <= r < rows && 0 <= c < cols ensures ShownAt(r, c) {
        assert old(ShownAt(r, c));
        IndexInRange(r, c, rows, cols);
        assert cells[..][Index(r, c, cols)] == old(cells[..])[Index(r, c, cols)];
      }
    }

    method ReverseIndexNow()
      requires Valid()
      modifies this, cells
      ensures Valid() && View() == ReverseIndex(old(View()))
    {
      hide AttributionEngine.Shown, Apply;
      wrapPending := false;
      Untouched();
      if row == top {
        ScrollDownNow();
      } else if row > 0 {
        row := row - 1;
        Untouched();
      }
    }

    method WriteGlyphNow(glyph: nat, o: Origin)
      requires Valid()
      modifies this, cells
      ensures Valid() && View() == WriteGlyph(old(View()), glyph, o)
    {
      hide AttributionEngine.Shown, Apply, LineFeed, Rect;
      if wrapPending {
        col := 0;
        Untouched();
        LineFeedNow();
        LineFeedClears(old(View()));
      }
      label wrapped:
      ghost var d := View();
      assert d == Wrapped(old(View()));
      Widths();
      SetCell(row, col, Some(Cell(glyph, o, pen)));
      assert grid == Put(d.grid, d.row, d.col, Cell(glyph, o, d.pen));
      label put:
      if col + 1 >= cols {
        wrapPending := true;
      } else {
        col := col + 1;
      }
      Untouched@put();
    }

    static lemma LineFeedClears(e: Engine)
      ensures !LineFeed(e).wrapPending
    {
    }

    method HandleC0Now(b: Byte)
      requires Valid()
      modifies this, cells
      ensures Valid() && View() == HandleC0(old(View()), b)
    {
      hide AttributionEngine.Shown, Apply, LineFeed, Rect;
      match b {
        case 0x08 =>
          if col > 0 {
            col := col - 1;
          }
          wrapPending := false;
          Untouched();
        case 0x09 =>
          col := Min(cols - 1, (col / 8 + 1) * 8);
          wrapPending := false;
          Untouched();
        case 0x0a => LineFeedNow();
        case 0x0b => LineFeedNow();
        case 0x0c => LineFeedNow();
        case 0x0d =>
          col := 0;
          wrapPending := false;
          Untouched();
        case _ =>
      }
    }

    method ResetScreenNow()
      requires Valid()
      modifies this, cells
      ensures Valid() && View() == ResetScreen(old(View()))
    {
      hide AttributionEngine.Shown, Apply, Rect;
      Fill();
      label filled:
      row, col, wrapPending := 0, 0, false;
      top, bottom := 0, rows - 1;
      pen, saved := DEFAULT_PEN, None;
      Untouched@filled();
    }

    method ApplyEscFinalNow(b: Byte)
      requires Valid()
      modifies this, cells
      ensures Valid() && View() == ApplyEscFinal(old(View()), b)
    {
      hide AttributionEngine.Shown, LineFeed, ReverseIndex, ResetScreen, Rect;
      match b {
        case 0x44 => LineFeedNow();
        case 0x45 =>
          col := 0;
          wrapPending := false;
          Untouched();
          LineFeedNow();
        case 0x4d => ReverseIndexNow();
        case 0x63 => ResetScreenNow();
        case _ =>
      }
    }

    // -------------------------------------------------------------------------------------
    // Control sequences
    // -------------------------------------------------------------------------------------

    method SetScrollRegionNow(topParam: nat, bottomParam: nat)
      requires Valid()
      modifies this
      ensures Valid() && View() == SetScrollRegion(old(View()), topParam, bottomParam)
    {
      hide AttributionEngine.Shown, Rect, InBounds;
      var t := Clamp(topParam - 1, rows);
      var b := Clamp(bottomParam - 1, rows);
      if t < b {
        top, bottom := t, b;
      } else {
        top, bottom := 0, rows - 1;
      }
      row, col, wrapPending := top, 0, false;
      Untouched();
    }

    /** The SGR loop: `i` skips the operands of an extended colour. */
    method ApplySgr(nums: seq<Num>)
      requires Valid()
      modifies this`pen
      ensures Valid() && pen == Sgr(old(pen), if nums == [] then [Int(0)] else nums, 0)
    {
      hide AttributionEngine.Shown, Rect;
      var params := if |nums| == 0 then [Int(0)] else nums;
      var i := 0;
      while i < |params|
        invariant 0 <= i <= |params| && Sgr(pen, params, i) == Sgr(old(pen), params, 0)
        decreases |params| - i
      {
        var p := params[i];
        if p == NaN || p == Int(0) {
          pen := DEFAULT_PEN;
        } else if p == Int(1) {
          pen := pen.(bold := true);
        } else if p == Int(22) {
          pen := pen.(bold := false);
        } else if 30 <= p.n <= 37 {
          pen := pen.(fg := Palette(p.n - 30));
        } else if 90 <= p.n <= 97 {
          pen := pen.(fg := Palette(p.n - 90 + 8));
        } else if p == Int(39) {
          pen := pen.(fg := Default);
        } else if 40 <= p.n <= 47 {
          pen := pen.(bg := Palette(p.n - 40));
        } else if 100 <= p.n <= 107 {
          pen := pen.(bg := Palette(p.n - 100 + 8));
        } else if p == Int(49) {
          pen := pen.(bg := Default);
        } else if p == Int(38) || p == Int(48) {
          if i + 2 < |params| && params[i + 1] == Int(5) {
            pen := Tint(pen, p == Int(38), Indexed(params[i + 2]));
            i := i + 2;
          } else if i + 4 < |params| && params[i + 1] == Int(2) {
            pen := Tint(pen, p == Int(38), Rgb(params[i + 2], params[i + 3], params[i + 4]));
            i := i + 4;
          }
        }
        i := i + 1;
      }
      Untouched();
    }

    method MoveCursorNow(nums: seq<Num>, f: char)
      requires Valid()
      modifies this
      ensures Valid() && View() == MoveCursor(old(View()), nums, f)
    {
      hide AttributionEngine.Shown, Rect, InBounds, N1;
      var n := N1(nums, 0);
      match f {
        case 'A' => row := Max(top, row - n);
        case 'B' => row := Min(bottom, row + n);
        case 'C' => col := Clamp(col + n, cols);
        case 'D' => col := Clamp(col - n, cols);
        case 'E' => row, col := Min(bottom, row + n), 0;
        case 'F' => row, col := Max(top, row - n), 0;
        case 'G' => col := Clamp(n - 1, cols);
        case 'd' => row := Clamp(n - 1, rows);
        case _ => row, col := Clamp(n - 1, rows), Clamp(N1(nums, 1) - 1, cols);
      }
      wrapPending := false;
      Untouched();
    }

    method EditNow(nums: seq<Num>, f: char)
      requires Valid()
      modifies cells, this`grid
      ensures Valid() && View() == Edit(old(View()), nums, f)
    {
      hide AttributionEngine.Shown, Rect, Apply;
      var n := N1(nums, 0);
      match f {
        case 'J' => EraseDisplayNow(N0(nums, 0));
        case 'K' => EraseLineNow(N0(nums, 0));
        case 'X' => EraseSpanNow(col, Min(cols, col + n));
        case '@' => InsertCharsNow(n);
        case 'P' => DeleteCharsNow(n);
        case 'L' =>
          if InRegionNow() {
            InsertLinesNow(n);
          }
        case _ =>
          if InRegionNow() {
            DeleteLinesNow(n);
          }
      }
    }

    predicate InRegionNow()
      reads this
      ensures InRegionNow() <==> InRegion(View())
    {
      top <= row <= bottom
    }

    method ApplyPrivateModeNow(params: string, f: char)
      requires Valid() && params != ""
      modifies this, cells
      ensures Valid() && View() == ApplyPrivateMode(old(View()), params, f)
    {
      hide AttributionEngine.Shown, Apply, Rect;
      if f != 'h' && f != 'l' {
        return;
      }
      var code := params[1..];
      if code == "1049" || code == "1047" || code == "47" {
        Fill();
        label filled:
        row, col, wrapPending := 0, 0, false;
        Untouched@filled();
      }
    }

    method RestoreCursorNow()
      requires Valid()
      modifies this
      ensures Valid() && View() == RestoreCursor(old(View()))
    {
      hide AttributionEngine.Shown, Rect;
      if saved.Some? {
        row, col, pen, wrapPending := saved.value.row, saved.value.col, saved.value.pen, false;
        Untouched();
      }
    }

    method ApplyCsiNow(params: string, f: char)
      requires Valid()
      modifies this, cells
      ensures Valid() && View() == ApplyCsi(old(View()), params, f)
    {
      hide AttributionEngine.Shown, Apply, Rect, MoveCursor, Edit, Sgr, Numbers, ApplyPrivateMode, SetScrollRegion;
      if params != "" && params[0] == '?' {
        ApplyPrivateModeNow(params, f);
        return;
      }
      var nums := Numbers(params);
      if f in "ABCDEFGdHf" {
        MoveCursorNow(nums, f);
      } else if f in "JKX@PLM" {
        EditNow(nums, f);
      } else if f == 'r' {
        SetScrollRegionNow(N1(nums, 0), if |nums| < 2 then rows else N1(nums, 1));
      } else if f == 'm' {
        ApplySgr(nums);
      } else if f == 's' {
        saved := Some(Saved(row, col, pen));
        Untouched();
      } else if f == 'u' {
        RestoreCursorNow();
      }
    }

    // -------------------------------------------------------------------------------------
    // Byte dispatch
    // -------------------------------------------------------------------------------------

    method FlushUtf8Now()
      requires Valid()
      modifies this, cells
      ensures Valid() && View() == FlushUtf8(old(View()))
    {
      hide AttributionEngine.Shown, WriteGlyph, Rect;
      if glyphOrigin.Some? {
        var o := glyphOrigin.value;
        glyphOrigin := None;
        Untouched();
        WriteGlyphNow(Rendered(utf8Cp), o);
      }
    }

    method StepGroundNow(b: Byte, o: Origin)
      requires Valid()
      modifies this, cells
      ensures Valid() && View() == StepGround(old(View()), b, o)
    {
      hide AttributionEngine.Shown, WriteGlyph, HandleC0, FlushUtf8, Fresh, Rect;
      if utf8Need > 0 {
        if IsContinuation(b) {
          utf8Cp := utf8Cp * 64 + b % 64;
          utf8Need := utf8Need - 1;
          Untouched();
          if utf8Need == 0 {
            FlushUtf8Now();
          }
          return;
        }
        utf8Need := 0;
        glyphOrigin := None;
        Untouched();
      }
      ReadFresh(b, o);
    }

    method ReadFresh(b: Byte, o: Origin)
      requires Valid()
      modifies this, cells
      ensures Valid() && View() == Fresh(old(View()), b, o)
    {
      hide AttributionEngine.Shown, WriteGlyph, HandleC0, Rect;
      if b == ESC {
        mode := Esc;
        Untouched();
      } else if b == 0x7f {
      } else if b < 0x20 {
        HandleC0Now(b);
      } else if b < 0x80 {
        WriteGlyphNow(b, o);
      } else {
        glyphOrigin := Some(o);
        if b >= 0xf0 {
          utf8Need, utf8Cp := 3, b % 8;
        } else if b >= 0xe0 {
          utf8Need, utf8Cp := 2, b % 16;
        } else if b >= 0xc0 {
          utf8Need, utf8Cp := 1, b % 32;
        }
        Untouched();
        if b < 0xc0 {
          WriteGlyphNow(REPLACEMENT, o);
        }
      }
    }

    method StepEscNow(b: Byte)
      requires Valid()
      modifies this, cells
      ensures Valid() && View() == StepEsc(old(View()), b)
    {
      hide AttributionEngine.Shown, ApplyEscFinal, Rect;
      if b == 0x5b {
        mode, csiParams, csiInter := Csi, "", "";
        Untouched();
      } else if b == 0x5d || b == 0x50 || b == 0x5f || b == 0x5e || b == 0x58 {
        mode := Str;
        Untouched();
      } else if 0x20 <= b <= 0x2f {
        mode := EscInter;
        Untouched();
      } else {
        ApplyEscFinalNow(b);
        label applied:
        mode := Ground;
        Untouched@applied();
      }
    }

    method StepCsiNow(b: Byte)
      requires Valid()
      modifies this, cells
      ensures Valid() && View() == StepCsi(old(View()), b)
    {
      hide AttributionEngine.Shown, ApplyCsi, Rect;
      if 0x30 <= b <= 0x3f && csiInter == "" {
        csiParams := csiParams + [b as char];
        Untouched();
      } else if 0x20 <= b <= 0x2f {
        csiInter := csiInter + [b as char];
        Untouched();
      } else if 0x40 <= b <= 0x7e {
        ApplyCsiNow(csiParams, b as char);
        label applied:
        mode := Ground;
        Untouched@applied();
      } else {
        mode := Ground;
        Untouched();
      }
    }

    /** False asks for the same byte again, under the mode just entered. */
    method StepNow(b: Byte, o: Origin) returns (consumed: bool)
      requires Valid()
      modifies this, cells
      ensures Valid()
      ensures if consumed then View() == Step(old(View()), b, o)
              else old(mode) == StrEsc && mode == Esc && Step(View(), b, o) == Step(old(View()), b, o)
    {
      hide AttributionEngine.Shown, StepGround, StepEsc, StepCsi, Rect;
      consumed := true;
      match mode {
        case Ground => StepGroundNow(b, o);
        case Esc => StepEscNow(b);
        case EscInter =>
          if !(0x20 <= b <= 0x2f) {
            mode := Ground;
            Untouched();
          }
        case Csi => StepCsiNow(b);
        case Str =>
          if b == BEL {
            mode := Ground;
          } else if b == ESC {
            mode := StrEsc;
          }
          Untouched();
        case StrEsc =>
          if b == 0x5c {
            mode := Ground;
          } else {
            mode := Esc;
            consumed := false;
          }
          Untouched();
      }
    }

    /** One chunk, each byte tagged with its place in it. */
    method PushBytes(chunk: A.SourceChunk, baseOffset: nat)
      requires Valid()
      modifies this, cells
      ensures Valid() && View() == A.Fold(old(View()), A.TagBytes(chunk, baseOffset, 0))
    {
      hide AttributionEngine.Shown, Step, Rect, A.Fold;
      ghost var whole := A.Fold(View(), A.TagBytes(chunk, baseOffset, 0));
      var i := 0;
      while i < |chunk.bytes|
        invariant 0 <= i <= |chunk.bytes| && Valid()
        invariant A.Fold(View(), A.TagBytes(chunk, baseOffset, i)) == whole
        decreases |chunk.bytes| - i, if mode == StrEsc then 1 else 0
      {
        var b := chunk.bytes[i];
        var o := Origin(chunk.chunkId, chunk.tMs, i, baseOffset + i);
        FoldStep(View(), chunk, baseOffset, i);
        var consumed := StepNow(b, o);
        if consumed {
          i := i + 1;
        } else {
          FoldStep(View(), chunk, baseOffset, i);
        }
      }
      FoldNone(View());
    }

    static lemma FoldStep(e: Engine, chunk: A.SourceChunk, base: nat, i: nat)
      requires InBounds(e) && i < |chunk.bytes|
      ensures var d := Step(e, chunk.bytes[i], Origin(chunk.chunkId, chunk.tMs, i, base + i));
              InBounds(d) && A.Fold(e, A.TagBytes(chunk, base, i)) == A.Fold(d, A.TagBytes(chunk, base, i + 1))
    {
      hide Step, InBounds;
      A.StepInBounds(e, chunk.bytes[i], Origin(chunk.chunkId, chunk.tMs, i, base + i));
      var ts := A.TagBytes(chunk, base, i);
      assert ts[1..] == A.TagBytes(chunk, base, i + 1);
    }

    static lemma FoldNone(e: Engine)
      requires InBounds(e)
      ensures A.Fold(e, []) == e
    {
    }
  }

  /** A fresh engine fed with all chunks in capture order. */
  method Emulate(chunks: seq<A.SourceChunk>, cols: int, rows: int, base: nat) returns (engine: AttributionEngine)
    ensures engine.Valid() && engine.View() == A.Emulate(chunks, cols, rows, base)
  {
    hide A.Fold, A.Tag, InBounds, New;
    engine := new AttributionEngine(cols, rows);
    A.NewInBounds(cols, rows);
    ghost var whole := A.Emulate(chunks, cols, rows, base);
    var offset: nat := base;
    for i := 0 to |chunks|
      invariant engine.Valid() && fresh(engine) && fresh(engine.cells)
      invariant A.Fold(engine.View(), A.Tag(chunks[i..], offset)) == whole
    {
      FoldChunk(engine.View(), chunks[i..], offset);
      assert chunks[i..][0] == chunks[i] && chunks[i..][1..] == chunks[i + 1..];
      engine.PushBytes(chunks[i], offset);
      offset := offset + |chunks[i].bytes|;
    }
    assert chunks[|chunks|..] == [];
    NoChunks(engine.View(), offset);
  }

  lemma NoChunks(e: Engine, base: nat)
    requires InBounds(e)
    ensures A.Fold(e, A.Tag([], base)) == e
  {
  }

  lemma {:induction false} FoldTwice(e: Engine, ts: seq<A.Tagged>, us: seq<A.Tagged>)
    requires InBounds(e)
    ensures A.Fold(e, ts + us) == A.Fold(A.Fold(e, ts), us)
    decreases |ts|
  {
    hide Step, InBounds;
    if ts == [] {
      assert ts + us == us;
    } else {
      assert (ts + us)[1..] == ts[1..] + us;
      A.StepInBounds(e, ts[0].byte, ts[0].origin);
      FoldTwice(Step(e, ts[0].byte, ts[0].origin), ts[1..], us);
    }
  }

  lemma FoldChunk(e: Engine, chunks: seq<A.SourceChunk>, base: nat)
    requires InBounds(e) && chunks != []
    ensures A.Fold(e, A.Tag(chunks, base))
         == A.Fold(A.Fold(e, A.TagBytes(chunks[0], base, 0)), A.Tag(chunks[1..], base + |chunks[0].bytes|))
  {
    hide A.Fold, InBounds;
    FoldTwice(e, A.TagBytes(chunks[0], base, 0), A.Tag(chunks[1..], base + |chunks[0].bytes|));
  }
}
