/**
  What control bytes and sequences do to the screen, from the bytes on: every cell and the cursor are given outright.
 */
module AttributionControls {
  import opened Options
  import opened JsStrings
  import opened OctalCodec
  import opened AttributionSpec
  import A = Attribution
  import T = AttributionTyping

  // ---------------------------------------------------------------------------------------
  // Control sequences on the wire
  // ---------------------------------------------------------------------------------------

  /** The bytes `ESC [`, the parameters, and the final. */
  predicate IsCsi(ts: seq<A.Tagged>, params: string, f: char) {
    && |ts| == |params| + 3 && ts[0].byte == 0x1b && ts[1].byte == 0x5b
    && (forall k | 0 <= k < |params| :: ts[k + 2].byte == params[k] as int && 0x30 <= params[k] as int <= 0x3f)
    && ts[|ts| - 1].byte == f as int && 0x40 <= f as int <= 0x7e
  }

  /** An engine between sequences and graphemes. */
  predicate Idle(e: Engine) {
    InBounds(e) && e.mode == Ground && e.utf8Need == 0
  }

  function Reading(e: Engine, params: string): Engine {
    e.(mode := Csi, csiParams := params, csiInter := "")
  }

  lemma {:induction false} ParamsAreRead(e: Engine, ts: seq<A.Tagged>, params: string, f: char, k: nat)
    requires InBounds(e) && IsCsi(ts, params, f) && k <= |params|
    ensures InBounds(Reading(e, params[..k]))
    ensures A.Fold(Reading(e, params[..k]), ts[k + 2..]) == ApplyCsi(Reading(e, params), params, f).(mode := Ground)
    decreases |params| - k
  {
    hide ApplyCsi, Rect;
    var d := Reading(e, params[..k]);
    assert InBounds(d);
    T.FoldOne(d, ts[k + 2..]);
    if k < |params| {
      assert params[..k] + [params[k]] == params[..k + 1];
      assert ts[k + 2..][1..] == ts[k + 1 + 2..];
      ParamsAreRead(e, ts, params, f, k + 1);
    } else {
      assert params[..k] == params;
      assert |ts[k + 2..]| == 1;
    }
  }

  /** The bytes of a sequence apply it. */
  lemma CsiArrives(e: Engine, ts: seq<A.Tagged>, params: string, f: char)
    requires Idle(e) && IsCsi(ts, params, f)
    ensures InBounds(Reading(e, params))
    ensures A.Fold(e, ts) == ApplyCsi(Reading(e, params), params, f).(mode := Ground)
  {
    hide ApplyCsi, Rect, HandleC0, WriteGlyph, ApplyEscFinal;
    T.FoldOne(e, ts);
    var x := e.(mode := Esc);
    assert Step(e, ts[0].byte, ts[0].origin) == x;
    T.FoldOne(x, ts[1..]);
    assert Step(x, ts[1].byte, ts[1].origin) == Reading(e, "");
    assert ts[1..][1..] == ts[0 + 2..] && params[..0] == "";
    ParamsAreRead(e, ts, params, f, 0);
    ParamsAreChars(ts, params, f);
  }

  lemma ParamsAreChars(ts: seq<A.Tagged>, params: string, f: char)
    requires IsCsi(ts, params, f)
    ensures ParamChars(params)
  {
  }

  // ---------------------------------------------------------------------------------------
  // Parameters
  // ---------------------------------------------------------------------------------------

  /** Decimal parameters, separated by semicolons; an empty one is missing. */
  function Join(ps: seq<string>): string {
    if |ps| == 0 then "" else if |ps| == 1 then ps[0] else ps[0] + ([';'] + Join(ps[1..]))
  }

  predicate Decimal(ps: seq<string>) {
    forall p <- ps :: AllDigits(p)
  }

  /** The `k`th parameter as a count: missing and zero mean one. */
  function Count(ps: seq<string>, k: nat): nat
    requires Decimal(ps)
  {
    if k < |ps| && ps[k] != "" && Value(ps[k]) > 0 then Value(ps[k]) else 1
  }

  /** The `k`th parameter as a selector: missing means zero. */
  function Selector(ps: seq<string>, k: nat): nat
    requires Decimal(ps)
  {
    if k < |ps| && ps[k] != "" then Value(ps[k]) else 0
  }

  function Read(p: string): Num
    requires AllDigits(p)
  {
    if p == "" then NaN else Int(Value(p))
  }

  lemma ParseParam(p: string)
    requires AllDigits(p)
    ensures ParseInt(p) == Read(p)
  {
    if p == "" {
      assert DigitRun("") == 0;
    } else {
      assert p[0] in p;
      assert p + "" == p && p[..|p|] == p;
      DigitRunIs(p, "");
    }
  }

  lemma {:induction false} JoinedParams(ps: seq<string>)
    requires Decimal(ps) && ps != []
    ensures var nums := ParseAll(Split(Join(ps), ';'));
            |nums| == |ps| && forall k | 0 <= k < |ps| :: nums[k] == Read(ps[k])
  {
    hide ParseInt, Value, Read, Split, ParseAll, IndexOf;
    assert ps[0] in ps;
    NoSemicolon(ps[0]);
    ParseParam(ps[0]);
    if |ps| == 1 {
      SplitOne(ps[0], ';');
      OneParam(ps[0]);
    } else {
      assert forall p <- ps[1..] :: p in ps;
      JoinedParams(ps[1..]);
      SplitCons(ps[0], ';', Join(ps[1..]));
      MoreParams(ps[0], Split(Join(ps[1..]), ';'));
    }
  }

  lemma NoSemicolon(p: string)
    requires AllDigits(p)
    ensures ';' !in p
  {
    assert !IsDigit(';');
  }

  lemma OneParam(p: string)
    ensures ParseAll([p]) == [ParseInt(p)]
  {
    assert [p][1..] == [];
  }

  lemma MoreParams(p: string, rest: seq<string>)
    ensures ParseAll([p] + rest) == [ParseInt(p)] + ParseAll(rest)
  {
    assert ([p] + rest)[1..] == rest;
  }

  lemma {:induction false} JoinEmpty(ps: seq<string>)
    ensures Join(ps) == "" <==> ps == [] || ps == [""]
  {
    if |ps| == 1 {
      assert ps == [ps[0]];
    }
  }

  /** Counts and selectors are read as meant. */
  lemma ParamsMean(ps: seq<string>, k: nat)
    requires Decimal(ps)
    ensures N1(Numbers(Join(ps)), k) == Count(ps, k) && N0(Numbers(Join(ps)), k) == Selector(ps, k)
  {
    hide Split, ParseAll, Value;
    JoinEmpty(ps);
    if Join(ps) != "" {
      JoinedParams(ps);
      if k < |ps| { assert ps[k] in ps; }
    }
  }

  lemma {:induction false} JoinStart(ps: seq<string>)
    requires Decimal(ps) && Join(ps) != ""
    ensures Join(ps)[0] != '?'
  {
    if ps[0] != "" { assert ps[0][0] in ps[0] && ps[0] in ps; }
  }

  // ---------------------------------------------------------------------------------------
  // Moving the cursor
  // ---------------------------------------------------------------------------------------

  /** Only the cursor moved, and the deferred wrap is gone. */
  ghost predicate CursorMoved(e: Engine, d: Engine, row: int, col: int) {
    d.row == row && d.col == col && !d.wrapPending
    && d == e.(row := d.row, col := d.col, wrapPending := false, csiParams := d.csiParams, csiInter := d.csiInter)
  }

  /** `n` clipped to the screen's lines or columns. */
  function Clip(n: int, lowest: int, highest: int): int {
    if n < lowest then lowest else if n > highest then highest else n
  }

  /** The state of the parser aside: `d` is `e` but for what a sequence leaves in the parameter buffer. */
  function Same(e: Engine, d: Engine): Engine {
    e.(csiParams := d.csiParams, csiInter := d.csiInter)
  }

  /**
    A and F go up, stopping at the region's first line; B and E go down, stopping at its last; C and D go right and
    left, G to a column, d to a line, H and f to both, all stopping at the screen's edges; E and F also return to
    the first column.
   */
  ghost predicate Directed(e: Engine, d: Engine, f: char, n: nat, m: nat) {
    && (f == 'A' ==> CursorMoved(e, d, if e.row - n > e.top then e.row - n else e.top, e.col))
    && (f == 'B' ==> CursorMoved(e, d, if e.row + n < e.bottom then e.row + n else e.bottom, e.col))
    && (f == 'C' ==> CursorMoved(e, d, e.row, Clip(e.col + n, 0, e.cols - 1)))
    && (f == 'D' ==> CursorMoved(e, d, e.row, Clip(e.col - n, 0, e.cols - 1)))
    && (f == 'E' ==> CursorMoved(e, d, if e.row + n < e.bottom then e.row + n else e.bottom, 0))
    && (f == 'F' ==> CursorMoved(e, d, if e.row - n > e.top then e.row - n else e.top, 0))
    && (f == 'G' ==> CursorMoved(e, d, e.row, Clip(n - 1, 0, e.cols - 1)))
    && (f == 'd' ==> CursorMoved(e, d, Clip(n - 1, 0, e.rows - 1), e.col))
    && (f == 'H' || f == 'f' ==> CursorMoved(e, d, Clip(n - 1, 0, e.rows - 1), Clip(m - 1, 0, e.cols - 1)))
  }

  /** The bytes of a cursor sequence move the cursor as its final says, and change nothing else. */
  lemma CursorSequence(e: Engine, ts: seq<A.Tagged>, ps: seq<string>, f: char)
    requires Idle(e) && Decimal(ps) && IsCsi(ts, Join(ps), f) && f in "ABCDEFGdHf"
    ensures Directed(e, A.Fold(e, ts), f, Count(ps, 0), Count(ps, 1))
  {
    hide A.Fold, IsCsi, Numbers, N1, N0, Rect, Join, Count, MoveCursor, Directed, ParamChars;
    FinalArrives(e, ts, ps, f);
    CursorFinal(Reading(e, Join(ps)), Join(ps), f);
    MoveIs(e, Join(ps), f);
  }

  /** The sequence arrives, and its parameters are the numbers meant. */
  lemma FinalArrives(e: Engine, ts: seq<A.Tagged>, ps: seq<string>, f: char)
    requires Idle(e) && Decimal(ps) && IsCsi(ts, Join(ps), f)
    ensures InBounds(Reading(e, Join(ps))) && (Join(ps) != "" ==> Join(ps)[0] != '?')
    ensures A.Fold(e, ts) == ApplyCsi(Reading(e, Join(ps)), Join(ps), f).(mode := Ground)
    ensures var nums := Numbers(Join(ps));
            && N1(nums, 0) == Count(ps, 0) && N1(nums, 1) == Count(ps, 1) && N0(nums, 0) == Selector(ps, 0)
            && (|nums| < 2 <==> |ps| < 2)
  {
    hide A.Fold, IsCsi, N1, N0, Rect, Count, Selector, ParseAll, Split, ParamChars, ApplyCsi;
    CsiArrives(e, ts, Join(ps), f);
    ParamsMean(ps, 0);
    ParamsMean(ps, 1);
    JoinEmpty(ps);
    if Join(ps) != "" {
      JoinStart(ps);
      JoinedParams(ps);
    }
  }

  lemma MoveIs(e: Engine, params: string, f: char)
    requires InBounds(e) && InBounds(Reading(e, params)) && f in "ABCDEFGdHf"
    ensures var nums := Numbers(params);
            Directed(e, MoveCursor(Reading(e, params), nums, f).(mode := e.mode), f, N1(nums, 0), N1(nums, 1))
  {
    hide Numbers, N1, Rect, ParamChars;
  }

  lemma CursorFinal(e: Engine, params: string, f: char)
    requires InBounds(e) && (params != "" ==> params[0] != '?')
    ensures f in "ABCDEFGdHf" ==> ApplyCsi(e, params, f) == MoveCursor(e, Numbers(params), f)
    ensures f in "JKX@PLM" ==> ApplyCsi(e, params, f) == Edit(e, Numbers(params), f)
    ensures f !in "ABCDEFGdHfJKX@PLMrmsu" ==> ApplyCsi(e, params, f) == e
  {
    hide Numbers, MoveCursor, Edit, Rect;
  }

  // ---------------------------------------------------------------------------------------
  // Erasing and moving cells
  // ---------------------------------------------------------------------------------------

  /** Reading order, row by row. */
  predicate Before(r: nat, c: nat, r': nat, c': nat) {
    r < r' || (r == r' && c < c')
  }

  /** What is shown at row `r`, column `c` after the final, with count `n` and selector `mode`. */
  function Edited(e: Engine, f: char, n: nat, mode: nat, r: nat, c: nat): Option<Cell>
    requires InBounds(e) && r < e.rows && c < e.cols
  {
    var here := e.grid[r][c];
    match f
    case 'J' =>
      if mode == 0 then if Before(r, c, e.row, e.col) then here else None
      else if mode == 1 then if Before(e.row, e.col, r, c) then here else None
      else None
    case 'K' =>
      if r != e.row || (mode == 0 && c < e.col) || (mode == 1 && c > e.col) then here else None
    case 'X' => if r == e.row && e.col <= c < e.col + n then None else here
    case '@' =>
      if r != e.row || c < e.col then here else if c < e.col + n then None else e.grid[r][c - n]
    case 'P' =>
      if r != e.row || c < e.col then here else if c + n < e.cols then e.grid[r][c + n] else None
    case 'L' =>
      if !(e.top <= e.row <= r <= e.bottom) then here else if r < e.row + n then None else e.grid[r - n][c]
    case _ =>
      if !(e.top <= e.row <= r <= e.bottom) then here else if r + n <= e.bottom then e.grid[r + n][c] else None
  }

  ghost predicate EditedTo(e: Engine, d: Engine, f: char, n: nat, mode: nat)
    requires InBounds(e)
  {
    && Rect(d.grid, e.rows, e.cols)
    && (forall r, c | 0 <= r < e.rows && 0 <= c < e.cols :: d.grid[r][c] == Edited(e, f, n, mode, r, c))
    && d == Same(e, d).(grid := d.grid)
  }

  lemma EditIs(e: Engine, params: string, f: char, r: nat, c: nat)
    requires InBounds(e) && InBounds(Reading(e, params)) && f in "JKX@PLM" && r < e.rows && c < e.cols
    requires N0(Numbers(params), 0) >= 0
    ensures var nums := Numbers(params);
            var d := Edit(Reading(e, params), nums, f);
            Rect(d.grid, e.rows, e.cols) && d.grid[r][c] == Edited(e, f, N1(nums, 0), N0(nums, 0), r, c)
  {
    hide Numbers, N1, N0, ParamChars, Edit, Edited, Rect;
    var nums := Numbers(params);
    if f in "JKX" {
      EraseIs(Reading(e, params), nums, f, r, c);
    } else if f in "@P" {
      ShiftIs(Reading(e, params), nums, f, r, c);
    } else {
      ScrollIs(Reading(e, params), nums, f, r, c);
    }
    EditedIsOfScreen(e, params, f, N1(nums, 0), N0(nums, 0), r, c);
  }

  lemma EditedIsOfScreen(e: Engine, params: string, f: char, n: nat, mode: nat, r: nat, c: nat)
    requires InBounds(e) && InBounds(Reading(e, params)) && r < e.rows && c < e.cols
    ensures Edited(Reading(e, params), f, n, mode, r, c) == Edited(e, f, n, mode, r, c)
  {
  }

  lemma EraseIs(e: Engine, nums: seq<Num>, f: char, r: nat, c: nat)
    requires InBounds(e) && f in "JKX" && r < e.rows && c < e.cols && N0(nums, 0) >= 0
    ensures var d := Edit(e, nums, f);
            Rect(d.grid, e.rows, e.cols) && d.grid[r][c] == Edited(e, f, N1(nums, 0), N0(nums, 0), r, c)
  {
    hide N1, N0, ParamChars;
  }

  lemma ShiftIs(e: Engine, nums: seq<Num>, f: char, r: nat, c: nat)
    requires InBounds(e) && f in "@P" && r < e.rows && c < e.cols && N0(nums, 0) >= 0
    ensures var d := Edit(e, nums, f);
            Rect(d.grid, e.rows, e.cols) && d.grid[r][c] == Edited(e, f, N1(nums, 0), N0(nums, 0), r, c)
  {
    hide N1, N0, ParamChars;
  }

  lemma ScrollIs(e: Engine, nums: seq<Num>, f: char, r: nat, c: nat)
    requires InBounds(e) && f in "LM" && r < e.rows && c < e.cols && N0(nums, 0) >= 0
    ensures var d := Edit(e, nums, f);
            Rect(d.grid, e.rows, e.cols) && d.grid[r][c] == Edited(e, f, N1(nums, 0), N0(nums, 0), r, c)
  {
    hide N1, N0, ParamChars;
  }

  lemma EditKeepsRest(e: Engine, params: string, f: char)
    requires InBounds(e) && InBounds(Reading(e, params)) && f in "JKX@PLM"
    ensures var x := Reading(e, params);
            var d := Edit(x, Numbers(params), f);
            d == x.(grid := d.grid) && Rect(d.grid, e.rows, e.cols)
  {
    hide Numbers, N1, N0, ParamChars;
  }

  /** J, K and X erase; @ and P shift the line's rest right and left; L and M shift the region's lines down and up. */
  lemma EditSequence(e: Engine, ts: seq<A.Tagged>, ps: seq<string>, f: char)
    requires Idle(e) && Decimal(ps) && IsCsi(ts, Join(ps), f) && f in "JKX@PLM"
    ensures EditedTo(e, A.Fold(e, ts), f, Count(ps, 0), Selector(ps, 0))
  {
    hide A.Fold, IsCsi, Numbers, N1, N0, Rect, Join, Count, Selector, Edit, Edited, ParamChars, ApplyCsi;
    FinalArrives(e, ts, ps, f);
    CursorFinal(Reading(e, Join(ps)), Join(ps), f);
    EditKeepsRest(e, Join(ps), f);
    var d := A.Fold(e, ts);
    forall r, c | 0 <= r < e.rows && 0 <= c < e.cols
      ensures Rect(d.grid, e.rows, e.cols) && |d.grid| == e.rows && |d.grid[r]| == e.cols
      ensures d.grid[r][c] == Edited(e, f, Count(ps, 0), Selector(ps, 0), r, c)
    {
      EditIs(e, Join(ps), f, r, c);
      RectAt(d.grid, e.rows, e.cols, r);
    }
  }

  lemma RectAt(g: Grid, rows: nat, cols: nat, r: nat)
    requires Rect(g, rows, cols) && r < rows
    ensures |g| == rows && |g[r]| == cols
  {
  }

  // ---------------------------------------------------------------------------------------
  // Scroll region, saved cursor, other finals
  // ---------------------------------------------------------------------------------------

  /** Final r: the region is set when its first line comes before its last, or the whole screen; the cursor goes to its start. */
  lemma RegionSequence(e: Engine, ts: seq<A.Tagged>, ps: seq<string>)
    requires Idle(e) && Decimal(ps) && IsCsi(ts, Join(ps), 'r')
    ensures var d := A.Fold(e, ts);
            var t := Clip(Count(ps, 0) - 1, 0, e.rows - 1);
            var b := if |ps| < 2 then e.rows - 1 else Clip(Count(ps, 1) - 1, 0, e.rows - 1);
            && d.top == (if t < b then t else 0) && d.bottom == (if t < b then b else e.rows - 1)
            && d.row == d.top && d.col == 0 && !d.wrapPending
            && d == Same(e, d).(top := d.top, bottom := d.bottom, row := d.row, col := 0, wrapPending := false)
  {
    hide A.Fold, IsCsi, Numbers, N1, N0, Rect, Join, Count, Selector, ParamChars, ApplyCsi;
    FinalArrives(e, ts, ps, 'r');
    RegionFinal(Reading(e, Join(ps)), Join(ps));
  }

  lemma RegionFinal(e: Engine, params: string)
    requires InBounds(e) && (params != "" ==> params[0] != '?')
    ensures var nums := Numbers(params);
            ApplyCsi(e, params, 'r') == SetScrollRegion(e, N1(nums, 0), if |nums| < 2 then e.rows else N1(nums, 1))
  {
    hide Numbers, N1, SetScrollRegion, Rect;
  }

  /** Finals s and u: the cursor's place and pen are saved, and restored if they were; any other final does nothing. */
  lemma SavingSequence(e: Engine, ts: seq<A.Tagged>, ps: seq<string>, f: char)
    requires Idle(e) && Decimal(ps) && IsCsi(ts, Join(ps), f) && f !in "ABCDEFGdHfJKX@PLMrm"
    ensures var d := A.Fold(e, ts);
            d == if f == 's' then Same(e, d).(saved := Some(Saved(e.row, e.col, e.pen)))
                 else if f == 'u' && e.saved.Some? then
                   Same(e, d).(row := e.saved.value.row, col := e.saved.value.col, pen := e.saved.value.pen, wrapPending := false)
                 else Same(e, d)
  {
    hide A.Fold, IsCsi, Numbers, N1, N0, Rect, Join, Count, Selector, ParamChars;
    FinalArrives(e, ts, ps, f);
  }

  /** The alternate screen's modes clear the screen, coming and going; other private modes do nothing. */
  lemma PrivateSequence(e: Engine, ts: seq<A.Tagged>, params: string, f: char)
    requires Idle(e) && IsCsi(ts, "?" + params, f)
    ensures var d := A.Fold(e, ts);
            if (f == 'h' || f == 'l') && (params == "1049" || params == "1047" || params == "47") then
              && Rect(d.grid, e.rows, e.cols) && (forall r, c | 0 <= r < e.rows && 0 <= c < e.cols :: d.grid[r][c] == None)
              && d == Same(e, d).(grid := d.grid, row := 0, col := 0, wrapPending := false)
            else d == Same(e, d)
  {
    hide A.Fold, IsCsi, ParamChars;
    var all := "?" + params;
    CsiArrives(e, ts, all, f);
    assert all[0] == '?' && all[1..] == params;
  }

  // ---------------------------------------------------------------------------------------
  // Pens
  // ---------------------------------------------------------------------------------------

  /** What one number, other than those that open a color, does to the pen. */
  function Styled(pen: Pen, n: nat): Pen {
    if n == 0 then Pen(Default, Default, false)
    else if n == 1 || n == 22 then pen.(bold := n == 1)
    else if 30 <= n < 38 then pen.(fg := Palette(n - 30))
    else if 90 <= n < 98 then pen.(fg := Palette(n - 82))
    else if 40 <= n < 48 then pen.(bg := Palette(n - 40))
    else if 100 <= n < 108 then pen.(bg := Palette(n - 92))
    else if n == 39 then pen.(fg := Default)
    else if n == 49 then pen.(bg := Default)
    else pen
  }

  function StyledAll(pen: Pen, ps: seq<string>): Pen
    requires Decimal(ps)
    decreases |ps|
  {
    if ps == [] then pen else StyledAll(Styled(pen, Selector(ps, 0)), ps[1..])
  }

  predicate OpensColor(ps: seq<string>, k: nat)
    requires k < |ps| && Decimal(ps)
  {
    Selector(ps, k) == 38 || Selector(ps, k) == 48
  }

  lemma {:induction false} SgrStyles(pen: Pen, nums: seq<Num>, ps: seq<string>, i: nat)
    requires Decimal(ps) && |nums| == |ps| && i <= |ps|
    requires forall k | 0 <= k < |ps| :: nums[k] == Read(ps[k]) && !OpensColor(ps, k)
    ensures Sgr(pen, nums, i) == StyledAll(pen, ps[i..])
    decreases |ps| - i
  {
    hide Value;
    if i < |ps| {
      assert Selector(ps[i..], 0) == Selector(ps, i);
      assert ps[i..][1..] == ps[i + 1..];
      SgrStyles(Styled(pen, Selector(ps, i)), nums, ps, i + 1);
      OneStyle(pen, nums, ps, i);
    }
  }

  lemma OneStyle(pen: Pen, nums: seq<Num>, ps: seq<string>, i: nat)
    requires Decimal(ps) && |nums| == |ps| && i < |ps| && nums[i] == Read(ps[i]) && !OpensColor(ps, i)
    ensures Sgr(pen, nums, i) == Sgr(Styled(pen, Selector(ps, i)), nums, i + 1)
  {
    hide Value;
  }

  lemma PenFinal(e: Engine, params: string)
    requires InBounds(e) && (params != "" ==> params[0] != '?')
    ensures ApplyCsi(e, params, 'm') == e.(pen := Sgr(e.pen, if Numbers(params) == [] then [Int(0)] else Numbers(params), 0))
  {
    hide Numbers, Sgr, Rect;
  }

  /** Final m, without color specifications: each number styles the pen in turn, a missing one resets it. */
  lemma PenSequence(e: Engine, ts: seq<A.Tagged>, ps: seq<string>)
    requires Idle(e) && Decimal(ps) && IsCsi(ts, Join(ps), 'm') && forall k | 0 <= k < |ps| :: !OpensColor(ps, k)
    ensures var d := A.Fold(e, ts);
            d == Same(e, d).(pen := if ps == [] then Pen(Default, Default, false) else StyledAll(e.pen, ps))
  {
    hide A.Fold, IsCsi, N1, N0, Rect, Join, Count, ParamChars, ApplyCsi, ParseAll, Split, Read, Value, OpensColor, StyledAll;
    FinalArrives(e, ts, ps, 'm');
    PenFinal(Reading(e, Join(ps)), Join(ps));
    JoinEmpty(ps);
    if Join(ps) == "" {
      ResetStyle(e.pen, ps);
    } else {
      JoinedParams(ps);
      SgrStyles(e.pen, Numbers(Join(ps)), ps, 0);
      assert ps[0..] == ps;
    }
  }

  lemma ResetStyle(pen: Pen, ps: seq<string>)
    requires ps == [] || ps == [""]
    ensures Sgr(pen, [Int(0)], 0) == Pen(Default, Default, false)
    ensures ps != [] ==> StyledAll(pen, ps) == Pen(Default, Default, false)
  {
    if ps != [] {
      assert Selector(ps, 0) == 0;
      assert ps[1..] == [];
    }
  }

  /** 38 and 48 color the foreground and the background: by index after a 5, by its parts after a 2. */
  lemma ColorSequence(e: Engine, ts: seq<A.Tagged>, ps: seq<string>)
    requires Idle(e) && Decimal(ps) && IsCsi(ts, Join(ps), 'm') && |ps| >= 3 && OpensColor(ps, 0)
    requires (Selector(ps, 1) == 5 && |ps| == 3) || (Selector(ps, 1) == 2 && |ps| == 5)
    ensures var d := A.Fold(e, ts);
            var color := if |ps| == 3 then Indexed(Read(ps[2])) else Rgb(Read(ps[2]), Read(ps[3]), Read(ps[4]));
            d == Same(e, d).(pen := if Selector(ps, 0) == 38 then e.pen.(fg := color) else e.pen.(bg := color))
  {
    hide A.Fold, IsCsi, N1, N0, Rect, Join, Count, ParamChars, ApplyCsi, ParseAll, Split, Value;
    FinalArrives(e, ts, ps, 'm');
    PenFinal(Reading(e, Join(ps)), Join(ps));
    JoinEmpty(ps);
    JoinedParams(ps);
    ColorIs(e.pen, Numbers(Join(ps)), ps);
  }

  lemma ColorIs(pen: Pen, nums: seq<Num>, ps: seq<string>)
    requires Decimal(ps) && |nums| == |ps| >= 3 && OpensColor(ps, 0)
    requires forall k | 0 <= k < |ps| :: nums[k] == Read(ps[k])
    requires (Selector(ps, 1) == 5 && |ps| == 3) || (Selector(ps, 1) == 2 && |ps| == 5)
    ensures var color := if |ps| == 3 then Indexed(Read(ps[2])) else Rgb(Read(ps[2]), Read(ps[3]), Read(ps[4]));
            Sgr(pen, nums, 0) == if Selector(ps, 0) == 38 then pen.(fg := color) else pen.(bg := color)
  {
    hide Value;
    assert nums[0] == Read(ps[0]) && nums[1] == Read(ps[1]);
  }

  // ---------------------------------------------------------------------------------------
  // Control bytes and two-byte escapes
  // ---------------------------------------------------------------------------------------

  /** Lines `top..bottom` moved up by one, a blank line entering at the bottom. */
  ghost predicate ScrolledUp(e: Engine, d: Engine)
    requires InBounds(e)
  {
    Rect(d.grid, e.rows, e.cols)
    && forall r, c | 0 <= r < e.rows && 0 <= c < e.cols ::
         d.grid[r][c] == if e.top <= r < e.bottom then e.grid[r + 1][c] else if r == e.bottom then None else e.grid[r][c]
  }

  ghost predicate ScrolledDown(e: Engine, d: Engine)
    requires InBounds(e)
  {
    Rect(d.grid, e.rows, e.cols)
    && forall r, c | 0 <= r < e.rows && 0 <= c < e.cols ::
         d.grid[r][c] == if e.top < r <= e.bottom then e.grid[r - 1][c] else if r == e.top then None else e.grid[r][c]
  }

  /** Down a line, scrolling on the region's last line; on the screen's last line below the region the cursor stays. */
  ghost predicate Fed(e: Engine, d: Engine, col: nat)
    requires InBounds(e)
  {
    && (if e.row == e.bottom then ScrolledUp(e, d) && d.row == e.row
        else d.grid == e.grid && d.row == (if e.row + 1 < e.rows then e.row + 1 else e.row))
    && d == e.(grid := d.grid, row := d.row, col := col, wrapPending := false)
  }

  /** Up a line, scrolling on the region's first line. */
  ghost predicate Reversed(e: Engine, d: Engine)
    requires InBounds(e)
  {
    && (if e.row == e.top then ScrolledDown(e, d) && d.row == e.row
        else d.grid == e.grid && d.row == (if e.row > 0 then e.row - 1 else 0))
    && d == e.(grid := d.grid, row := d.row, wrapPending := false)
  }

  lemma FeedIs(e: Engine, col: nat)
    requires InBounds(e) && col < e.cols
    ensures Fed(e, LineFeed(e.(col := col)), col)
  {
    hide ParamChars;
    T.FeedIs(e.(col := col));
    hide Rect;
  }

  lemma ReverseIs(e: Engine)
    requires InBounds(e)
    ensures Reversed(e, ReverseIndex(e))
  {
    hide ParamChars;
    A.LineFeedInBounds(e);
  }

  /** Backspace, tab, line feeds and return; the other control bytes, and DEL, do nothing. */
  lemma ControlByte(e: Engine, b: Byte, o: Origin)
    requires Idle(e) && (b < 0x20 || b == 0x7f) && b != 0x1b
    ensures var d := Step(e, b, o);
            match b
            case 0x08 => d == e.(col := if e.col > 0 then e.col - 1 else 0, wrapPending := false)
            case 0x09 => d == e.(col := if e.col / 8 * 8 + 8 < e.cols then e.col / 8 * 8 + 8 else e.cols - 1, wrapPending := false)
            case 0x0a => Fed(e, d, e.col)
            case 0x0b => Fed(e, d, e.col)
            case 0x0c => Fed(e, d, e.col)
            case 0x0d => d == e.(col := 0, wrapPending := false)
            case _ => d == e
  {
    hide LineFeed, Fed, Rect, ParamChars;
    FeedIs(e, e.col);
  }

  /** The bytes `ESC` and one more, that opens nothing. */
  predicate IsEscape(ts: seq<A.Tagged>, b: Byte) {
    |ts| == 2 && ts[0].byte == 0x1b && ts[1].byte == b
    && b != 0x5b && b != 0x5d && b != 0x50 && b != 0x5f && b != 0x5e && b != 0x58 && !(0x20 <= b <= 0x2f)
  }

  /** ESC D feeds a line, ESC E also returns, ESC M goes up, ESC c clears everything; the other escapes do nothing. */
  lemma Escape(e: Engine, ts: seq<A.Tagged>, b: Byte)
    requires Idle(e) && IsEscape(ts, b)
    ensures var d := A.Fold(e, ts);
            match b
            case 0x44 => Fed(e, d, e.col)
            case 0x45 => Fed(e, d, 0)
            case 0x4d => Reversed(e, d)
            case 0x63 => d == New(e.cols, e.rows).(csiParams := e.csiParams, csiInter := e.csiInter, utf8Cp := e.utf8Cp,
                                                   glyphOrigin := e.glyphOrigin)
            case _ => d == e
  {
    hide A.Fold, Fed, Reversed, Rect, ParamChars, LineFeed, ReverseIndex, ResetScreen, WriteGlyph, HandleC0;
    T.FoldOne(e, ts);
    T.FoldOne(e.(mode := Esc), ts[1..]);
    FinalOfEscape(e, ts[1], b);
  }

  lemma FinalOfEscape(e: Engine, t: A.Tagged, b: Byte)
    requires Idle(e) && t.byte == b
    requires b != 0x5b && b != 0x5d && b != 0x50 && b != 0x5f && b != 0x5e && b != 0x58 && !(0x20 <= b <= 0x2f)
    ensures var d := Step(e.(mode := Esc), t.byte, t.origin);
            match b
            case 0x44 => Fed(e, d, e.col)
            case 0x45 => Fed(e, d, 0)
            case 0x4d => Reversed(e, d)
            case 0x63 => d == New(e.cols, e.rows).(csiParams := e.csiParams, csiInter := e.csiInter, utf8Cp := e.utf8Cp,
                                                   glyphOrigin := e.glyphOrigin)
            case _ => d == e
  {
    hide Rect, ParamChars, Apply;
    var x := e.(mode := Esc);
    if b == 0x44 {
      FeedIs(e, e.col);
      SameFeed(e, e.(mode := Esc));
    } else if b == 0x45 {
      FeedIs(e, 0);
    } else if b == 0x4d {
      ReverseIs(e);
    } else if b == 0x63 {
      BlankIs(e);
    }
  }

  lemma SameFeed(e: Engine, d: Engine)
    requires d == e.(mode := d.mode)
    ensures LineFeed(d) == LineFeed(e).(mode := d.mode) && ReverseIndex(d) == ReverseIndex(e).(mode := d.mode)
  {
  }

  lemma BlankIs(e: Engine)
    requires InBounds(e)
    ensures Apply(e.grid, EraseAll) == Blank(e.rows, e.cols)
  {
    var g, h := Apply(e.grid, EraseAll), Blank(e.rows, e.cols);
    forall r | 0 <= r < e.rows ensures g[r] == h[r] {
      assert forall c | 0 <= c < e.cols :: g[r][c] == None == h[r][c];
    }
  }

  // ---------------------------------------------------------------------------------------
  // Control strings
  // ---------------------------------------------------------------------------------------

  /** `ESC` and an opener, `n` bytes that are neither BEL nor ESC, and BEL or `ESC \`. */
  predicate IsString(ts: seq<A.Tagged>, n: nat) {
    && |ts| >= n + 3 && ts[0].byte == 0x1b && ts[1].byte in {0x5d, 0x50, 0x5f, 0x5e, 0x58}
    && (forall k | 2 <= k < n + 2 :: ts[k].byte != 0x07 && ts[k].byte != 0x1b)
    && ((|ts| == n + 3 && ts[n + 2].byte == 0x07) || (|ts| == n + 4 && ts[n + 2].byte == 0x1b && ts[n + 3].byte == 0x5c))
  }

  lemma {:induction false} StringIsSkipped(e: Engine, ts: seq<A.Tagged>, n: nat, k: nat)
    requires Idle(e) && IsString(ts, n) && 2 <= k <= n + 2
    ensures A.Fold(e.(mode := Str), ts[k..]) == e
    decreases n + 2 - k
  {
    hide A.Fold, StepGround, StepCsi, StepEsc, InBounds;
    var x := e.(mode := Str);
    assert InBounds(x) && InBounds(e.(mode := StrEsc)) by { ModeInBounds(e, Str); ModeInBounds(e, StrEsc); }
    T.FoldOne(x, ts[k..]);
    assert ts[k..][1..] == ts[k + 1..];
    if k < n + 2 {
      StringIsSkipped(e, ts, n, k + 1);
    } else if |ts| == n + 4 {
      T.FoldOne(e.(mode := StrEsc), ts[k + 1..]);
    }
  }

  lemma ModeInBounds(e: Engine, mode: Mode)
    requires InBounds(e)
    ensures InBounds(e.(mode := mode))
  {
  }

  /** A control string is consumed whole and leaves no trace. */
  lemma StringIsSilent(e: Engine, ts: seq<A.Tagged>, n: nat)
    requires Idle(e) && IsString(ts, n)
    ensures A.Fold(e, ts) == e
  {
    hide A.Fold, ApplyEscFinal, HandleC0, WriteGlyph, InBounds;
    ModeInBounds(e, Esc);
    T.FoldOne(e, ts);
    T.FoldOne(e.(mode := Esc), ts[1..]);
    assert ts[1..][1..] == ts[2..];
    StringIsSkipped(e, ts, n, 2);
  }

  // ---------------------------------------------------------------------------------------
  // Designators and broken sequences
  // ---------------------------------------------------------------------------------------

  /** `ESC`, one or more intermediate bytes, and a final. */
  predicate IsDesignator(ts: seq<A.Tagged>) {
    && |ts| >= 3 && ts[0].byte == 0x1b
    && (forall k | 1 <= k < |ts| - 1 :: 0x20 <= ts[k].byte <= 0x2f)
    && !(0x20 <= ts[|ts| - 1].byte <= 0x2f)
  }

  lemma {:induction false} IntermediatesAreSkipped(e: Engine, ts: seq<A.Tagged>, k: nat)
    requires Idle(e) && IsDesignator(ts) && 2 <= k < |ts|
    ensures A.Fold(e.(mode := EscInter), ts[k..]) == e
    decreases |ts| - k
  {
    hide A.Fold, StepGround, StepCsi, StepEsc, InBounds;
    ModeInBounds(e, EscInter);
    T.FoldOne(e.(mode := EscInter), ts[k..]);
    assert ts[k..][1..] == ts[k + 1..];
    if k < |ts| - 1 {
      IntermediatesAreSkipped(e, ts, k + 1);
    }
  }

  /** A character-set designator is consumed whole and leaves no trace. */
  lemma DesignatorIsSilent(e: Engine, ts: seq<A.Tagged>)
    requires Idle(e) && IsDesignator(ts)
    ensures A.Fold(e, ts) == e
  {
    hide A.Fold, ApplyEscFinal, HandleC0, WriteGlyph, InBounds;
    ModeInBounds(e, Esc);
    T.FoldOne(e, ts);
    T.FoldOne(e.(mode := Esc), ts[1..]);
    assert ts[1..][1..] == ts[2..];
    IntermediatesAreSkipped(e, ts, 2);
  }

  /** A byte no sequence may hold breaks it off: neither it nor what came before has any effect. */
  lemma BrokenSequence(e: Engine, params: string, t: A.Tagged)
    requires Idle(e) && InBounds(Reading(e, params)) && !(0x20 <= t.byte <= 0x7e)
    ensures var d := Step(Reading(e, params), t.byte, t.origin); d == Same(e, d)
  {
    hide InBounds, ApplyCsi;
  }
}
