/**
  The window layout string (src/protocol/layout.ts): its grammar, its 16-bit checksum, the
  recursive-descent reader, and that the reader accepts exactly the grammar.
 */
module Layout {
  import opened JsStrings

  datatype Pane = Pane(paneId: nat, width: nat, height: nat, x: nat, y: nat)

  datatype WindowLayout = Parsed(panes: seq<Pane>) | Malformed

  const MAX_SPLIT_DEPTH := 1000

  // ---------------------------------------------------------------------------------------
  // The grammar
  // ---------------------------------------------------------------------------------------

  type Digits = s: string | s != "" && AllDigits(s) witness "0"

  /** A cell as written; a split has at least one child. */
  datatype Cell =
    | Leaf(at: Geometry, pane: Digits)
    | Node(at: Geometry, leftRight: bool, kids: Cells)

  datatype Cells = Last(cell: Cell) | Cons(cell: Cell, rest: Cells)

  datatype Geometry = Geometry(w: Digits, h: Digits, x: Digits, y: Digits)

  function Open(leftRight: bool): char { if leftRight then '{' else '[' }

  function Close(leftRight: bool): char { if leftRight then '}' else ']' }

  function HeaderText(g: Geometry, rest: string): string {
    g.w + (['x'] + (g.h + ([','] + (g.x + ([','] + (g.y + rest))))))
  }

  /** The text of a cell, followed by `rest`. */
  function Text(c: Cell, rest: string): string
    decreases c
  {
    match c
    case Leaf(at, pane) => HeaderText(at, [','] + (pane + rest))
    case Node(at, leftRight, kids) => HeaderText(at, [Open(leftRight)] + TextAll(kids, [Close(leftRight)] + rest))
  }

  function TextAll(cs: Cells, rest: string): string
    decreases cs
  {
    match cs
    case Last(c) => Text(c, rest)
    case Cons(c, more) => Text(c, [','] + TextAll(more, rest))
  }

  function Max(a: nat, b: nat): nat { if a > b then a else b }

  /** How deep splits nest. */
  function Height(c: Cell): nat {
    match c
    case Leaf(_, _) => 0
    case Node(_, _, kids) => 1 + HeightAll(kids)
  }

  function HeightAll(cs: Cells): nat {
    match cs
    case Last(c) => Height(c)
    case Cons(c, rest) => Max(Height(c), HeightAll(rest))
  }

  function LeafPane(at: Geometry, pane: Digits): Pane {
    Pane(Value(pane), Value(at.w), Value(at.h), Value(at.x), Value(at.y))
  }

  /** The panes in depth-first order. */
  function Leaves(c: Cell): seq<Pane> {
    match c
    case Leaf(at, pane) => [LeafPane(at, pane)]
    case Node(_, _, kids) => LeavesAll(kids)
  }

  function LeavesAll(cs: Cells): seq<Pane> {
    match cs
    case Last(c) => Leaves(c)
    case Cons(c, rest) => Leaves(c) + LeavesAll(rest)
  }

  // ---------------------------------------------------------------------------------------
  // The reader, on the text that is left
  // ---------------------------------------------------------------------------------------

  predicate StartsWith(s: string, c: char) {
    s != "" && s[0] == c
  }

  datatype Read<+A> = Fail | Got(value: A, rest: string)

  function Uint(s: string): (r: Read<Digits>)
    ensures r.Got? ==> s == r.value + r.rest && |r.rest| < |s| && !(r.rest != "" && IsDigit(r.rest[0]))
  {
    var k := DigitRun(s);
    if k == 0 then Fail else Got(s[..k], s[k..])
  }

  function Expect(s: string, c: char): (r: Read<()>)
    ensures r.Got? ==> s == [c] + r.rest
  {
    if StartsWith(s, c) then Got((), s[1..]) else Fail
  }

  /** A number and the separator that must follow it. */
  function ReadField(s: string, sep: char): (r: Read<Digits>)
    ensures r.Got? ==> s == r.value + ([sep] + r.rest)
  {
    var d := Uint(s);
    if d.Fail? then Fail else
    var e := Expect(d.rest, sep);
    if e.Fail? then Fail else Got(d.value, e.rest)
  }

  function ReadHeader(s: string): (r: Read<Geometry>)
    ensures r.Got? ==> s == HeaderText(r.value, r.rest) && |r.rest| < |s|
    ensures r.Got? ==> !(r.rest != "" && IsDigit(r.rest[0]))
  {
    var w := ReadField(s, 'x');
    if w.Fail? then Fail else
    var h := ReadField(w.rest, ',');
    if h.Fail? then Fail else
    var x := ReadField(h.rest, ',');
    if x.Fail? then Fail else
    var y := Uint(x.rest);
    if y.Fail? then Fail else
    Got(Geometry(w.value, h.value, x.value, y.value), y.rest)
  }

  function ReadCell(s: string, depth: nat): (r: Read<seq<Pane>>)
    ensures r.Got? ==> |r.rest| < |s|
    decreases |s|, 0
  {
    if depth > MAX_SPLIT_DEPTH then Fail else
    var g := ReadHeader(s);
    if g.Fail? then Fail
    else if StartsWith(g.rest, '{') then ReadSplit(g.rest[1..], depth, '}')
    else if StartsWith(g.rest, '[') then ReadSplit(g.rest[1..], depth, ']')
    else ReadLeaf(g)
  }

  function ReadLeaf(g: Read<Geometry>): (r: Read<seq<Pane>>)
    requires g.Got?
    ensures r.Got? ==> |r.rest| < |g.rest|
  {
    var s := Expect(g.rest, ',');
    if s.Fail? then Fail else
    var p := Uint(s.rest);
    if p.Fail? then Fail else
    Got([LeafPane(g.value, p.value)], p.rest)
  }

  function ReadSplit(s: string, depth: nat, close: char): (r: Read<seq<Pane>>)
    ensures r.Got? ==> |r.rest| < |s|
    decreases |s|, 2
  {
    var first := ReadCell(s, depth + 1);
    if first.Fail? then Fail else
    var all := ReadMore(first.rest, depth, first.value);
    if all.Fail? then Fail else
    var e := Expect(all.rest, close);
    if e.Fail? then Fail else Got(all.value, e.rest)
  }

  /** Further children while a comma follows. */
  function ReadMore(s: string, depth: nat, panes: seq<Pane>): (r: Read<seq<Pane>>)
    ensures r.Got? ==> |r.rest| <= |s|
    decreases |s|, 1
  {
    if !StartsWith(s, ',') then Got(panes, s) else
    var next := ReadCell(s[1..], depth + 1);
    if next.Fail? then Fail else ReadMore(next.rest, depth, panes + next.value)
  }

  // ---------------------------------------------------------------------------------------
  // Soundness and completeness of the reader
  // ---------------------------------------------------------------------------------------

  /** Whatever is read is the text of some cell, nested no deeper than allowed, with its leaves in order. */
  lemma {:induction false} CellSound(s: string, depth: nat) returns (c: Cell)
    requires ReadCell(s, depth).Got?
    ensures var r := ReadCell(s, depth);
            s == Text(c, r.rest) && r.value == Leaves(c) && depth + Height(c) <= MAX_SPLIT_DEPTH
    decreases |s|, 0
  {
    hide HeaderText, ReadHeader, ReadSplit, ReadLeaf;
    var g := ReadHeader(s);
    if StartsWith(g.rest, '{') || StartsWith(g.rest, '[') {
      var leftRight := StartsWith(g.rest, '{');
      var kids := SplitSound(g.rest[1..], depth, Close(leftRight));
      c := Node(g.value, leftRight, kids);
      assert g.rest == [Open(leftRight)] + g.rest[1..];
    } else {
      var pane := LeafSound(g);
      c := Leaf(g.value, pane);
    }
  }

  lemma LeafSound(g: Read<Geometry>) returns (pane: Digits)
    requires g.Got? && ReadLeaf(g).Got?
    ensures g.rest == [','] + (pane + ReadLeaf(g).rest) && ReadLeaf(g).value == [LeafPane(g.value, pane)]
  {
    pane := Uint(Expect(g.rest, ',').rest).value;
  }

  lemma {:induction false} SplitSound(s: string, depth: nat, close: char) returns (cs: Cells)
    requires ReadSplit(s, depth, close).Got?
    ensures var r := ReadSplit(s, depth, close);
            s == TextAll(cs, [close] + r.rest) && r.value == LeavesAll(cs) && depth + 1 + HeightAll(cs) <= MAX_SPLIT_DEPTH
    decreases |s|, 2
  {
    hide Text, ReadCell, Leaves, Height;
    var first := ReadCell(s, depth + 1);
    var c := CellSound(s, depth + 1);
    if StartsWith(first.rest, ',') {
      var more := MoreSound(first.rest, depth, first.value);
      cs := Cons(c, more);
    } else {
      cs := Last(c);
    }
  }

  lemma {:induction false} MoreSound(s: string, depth: nat, panes: seq<Pane>) returns (cs: Cells)
    requires ReadMore(s, depth, panes).Got? && StartsWith(s, ',')
    ensures var r := ReadMore(s, depth, panes);
            s == [','] + TextAll(cs, r.rest) && r.value == panes + LeavesAll(cs) && depth + 1 + HeightAll(cs) <= MAX_SPLIT_DEPTH
    decreases |s|, 1
  {
    hide Text, ReadCell, Leaves, Height;
    var next := ReadCell(s[1..], depth + 1);
    var c := CellSound(s[1..], depth + 1);
    assert s == [','] + s[1..];
    if StartsWith(next.rest, ',') {
      var more := MoreSound(next.rest, depth, panes + next.value);
      cs := Cons(c, more);
      assert panes + next.value + LeavesAll(more) == panes + LeavesAll(cs);
    } else {
      cs := Last(c);
    }
  }

  lemma UintIs(d: Digits, rest: string)
    requires rest == "" || !IsDigit(rest[0])
    ensures Uint(d + rest) == Got(d, rest)
  {
    DigitRunIs(d, rest);
    assert (d + rest)[..|d|] == d && (d + rest)[|d|..] == rest;
  }

  lemma ExpectIs(c: char, rest: string)
    ensures Expect([c] + rest, c) == Got((), rest)
  {
  }

  lemma FieldIs(d: Digits, sep: char, rest: string)
    requires !IsDigit(sep)
    ensures ReadField(d + ([sep] + rest), sep) == Got(d, rest)
  {
    hide Uint, Expect;
    UintIs(d, [sep] + rest);
    ExpectIs(sep, rest);
  }

  lemma HeaderIs(g: Geometry, rest: string)
    requires rest == "" || !IsDigit(rest[0])
    ensures ReadHeader(HeaderText(g, rest)) == Got(g, rest)
  {
    hide Uint, Expect, ReadField;
    var s3 := g.y + rest;
    var s2 := g.x + ([','] + s3);
    var s1 := g.h + ([','] + s2);
    FieldIs(g.w, 'x', s1);
    FieldIs(g.h, ',', s2);
    FieldIs(g.x, ',', s3);
    UintIs(g.y, rest);
  }

  lemma LeafIs(at: Geometry, pane: Digits, rest: string)
    requires rest == "" || !IsDigit(rest[0])
    ensures ReadLeaf(Got(at, [','] + (pane + rest))) == Got([LeafPane(at, pane)], rest)
  {
    hide Uint, Expect;
    ExpectIs(',', pane + rest);
    UintIs(pane, rest);
  }

  /** The text of any cell within the nesting limit is read back as its leaves. */
  lemma {:induction false} CellComplete(c: Cell, rest: string, depth: nat)
    requires depth + Height(c) <= MAX_SPLIT_DEPTH && (rest == "" || !IsDigit(rest[0]))
    ensures ReadCell(Text(c, rest), depth) == Got(Leaves(c), rest)
    decreases c
  {
    hide HeaderText, ReadHeader, ReadSplit, ReadLeaf, LeafPane;
    match c
    case Leaf(at, pane) =>
      HeaderIs(at, [','] + (pane + rest));
      LeafIs(at, pane, rest);
    case Node(at, leftRight, kids) =>
      var tail := [Open(leftRight)] + TextAll(kids, [Close(leftRight)] + rest);
      HeaderIs(at, tail);
      assert tail[1..] == TextAll(kids, [Close(leftRight)] + rest);
      SplitComplete(kids, rest, depth, Close(leftRight));
  }

  lemma {:induction false} SplitComplete(cs: Cells, rest: string, depth: nat, close: char)
    requires depth + 1 + HeightAll(cs) <= MAX_SPLIT_DEPTH && !IsDigit(close) && close != ','
    ensures ReadSplit(TextAll(cs, [close] + rest), depth, close) == Got(LeavesAll(cs), rest)
    decreases cs
  {
    hide Text, ReadCell, Leaves, Height;
    var end := [close] + rest;
    assert end[1..] == rest;
    match cs
    case Last(c) =>
      CellComplete(c, end, depth + 1);
    case Cons(c, more) =>
      CellComplete(c, [','] + TextAll(more, end), depth + 1);
      MoreComplete(more, end, depth, Leaves(c));
  }

  lemma {:induction false} MoreComplete(cs: Cells, rest: string, depth: nat, panes: seq<Pane>)
    requires depth + 1 + HeightAll(cs) <= MAX_SPLIT_DEPTH
    requires rest != "" && !IsDigit(rest[0]) && rest[0] != ','
    ensures ReadMore([','] + TextAll(cs, rest), depth, panes) == Got(panes + LeavesAll(cs), rest)
    decreases cs
  {
    hide Text, ReadCell, Leaves, Height;
    var s := [','] + TextAll(cs, rest);
    assert s[1..] == TextAll(cs, rest);
    match cs
    case Last(c) =>
      CellComplete(c, rest, depth + 1);
    case Cons(c, more) =>
      CellComplete(c, [','] + TextAll(more, rest), depth + 1);
      MoreComplete(more, rest, depth, panes + Leaves(c));
      assert panes + Leaves(c) + LeavesAll(more) == panes + LeavesAll(cs);
  }

  // ---------------------------------------------------------------------------------------
  // The checksum
  // ---------------------------------------------------------------------------------------

  /** Rotate right by one bit, then add the code unit, on 16 bits. */
  function Mix(csum: nat, code: nat): (r: nat)
    requires csum < 0x10000
    ensures r < 0x10000
  {
    (csum / 2 + csum % 2 * 0x8000 + code) % 0x10000
  }

  function Checksum(body: string): (r: nat)
    ensures r < 0x10000
  {
    if body == "" then 0 else Mix(Checksum(body[..|body| - 1]), body[|body| - 1] as nat)
  }

  lemma RotateIsInjective(a: nat, b: nat)
    requires a < 0x10000 && b < 0x10000 && a != b
    ensures a / 2 + a % 2 * 0x8000 != b / 2 + b % 2 * 0x8000
    ensures a / 2 + a % 2 * 0x8000 < 0x10000
  {
  }

  lemma AddIsInjective(a: nat, b: nat, code: nat)
    requires a < 0x10000 && b < 0x10000 && a != b
    ensures (a + code) % 0x10000 != (b + code) % 0x10000
  {
  }

  lemma MixKeepsDifference(a: nat, b: nat, code: nat)
    requires a < 0x10000 && b < 0x10000 && a != b
    ensures Mix(a, code) != Mix(b, code)
  {
    RotateIsInjective(a, b);
    RotateIsInjective(b, a);
    AddIsInjective(a / 2 + a % 2 * 0x8000, b / 2 + b % 2 * 0x8000, code);
  }

  lemma MixSeparates(csum: nat, c: nat, d: nat)
    requires csum < 0x10000 && c < 0x10000 && d < 0x10000 && c != d
    ensures Mix(csum, c) != Mix(csum, d)
  {
    AddIsInjective(c, d, csum / 2 + csum % 2 * 0x8000);
  }

  /** Every character is a 16-bit code unit. */
  predicate CodeUnits(s: string) {
    forall c <- s :: c as nat < 0x10000
  }

  /** Changing exactly one character of the body always changes the checksum. */
  lemma {:induction false} OneChangeIsSeen(a: string, b: string, k: nat)
    requires CodeUnits(a) && CodeUnits(b)
    requires |a| == |b| && k < |a| && a[k] != b[k] && forall j | 0 <= j < |a| && j != k :: a[j] == b[j]
    ensures Checksum(a) != Checksum(b)
    decreases |a|
  {
    hide Mix;
    var n := |a| - 1;
    if k == n {
      assert a[..n] == b[..n];
      assert a[n] in a && b[n] in b;
      MixSeparates(Checksum(a[..n]), a[n] as nat, b[n] as nat);
    } else {
      assert forall j | 0 <= j < n && j != k :: a[..n][j] == a[j] && b[..n][j] == b[j];
      assert forall c <- a[..n] :: c in a;
      assert forall c <- b[..n] :: c in b;
      OneChangeIsSeen(a[..n], b[..n], k);
      MixKeepsDifference(Checksum(a[..n]), Checksum(b[..n]), a[n] as nat);
    }
  }

  // ---------------------------------------------------------------------------------------
  // The whole string
  // ---------------------------------------------------------------------------------------

  predicate IsHex(c: char) {
    IsDigit(c) || 'a' <= c <= 'f' || 'A' <= c <= 'F'
  }

  function HexValue(c: char): nat
    requires IsHex(c)
  {
    if IsDigit(c) then c as int - '0' as int
    else if 'a' <= c <= 'f' then c as int - 'a' as int + 10
    else c as int - 'A' as int + 10
  }

  predicate IsChecksum(s: string) {
    |s| == 4 && IsHex(s[0]) && IsHex(s[1]) && IsHex(s[2]) && IsHex(s[3])
  }

  function ChecksumValue(s: string): nat
    requires IsChecksum(s)
  {
    ((HexValue(s[0]) * 16 + HexValue(s[1])) * 16 + HexValue(s[2])) * 16 + HexValue(s[3])
  }

  function ReadBody(body: string): WindowLayout {
    if body == "" then Parsed([])
    else
      var r := ReadCell(body, 0);
      if r.Got? && r.rest == "" then Parsed(r.value) else Malformed
  }

  function ParseWindowLayout(raw: string): WindowLayout {
    var comma := IndexOf(raw, ',');
    if comma == -1 || !IsChecksum(raw[..comma]) then Malformed
    else if ChecksumValue(raw[..comma]) != Checksum(raw[comma + 1..]) then Malformed
    else ReadBody(raw[comma + 1..])
  }

  /** What the grammar says a layout string is, and which panes it lists. */
  ghost predicate Describes(raw: string, panes: seq<Pane>) {
    exists sum, body ::
      && raw == sum + "," + body && IsChecksum(sum) && ChecksumValue(sum) == Checksum(body)
      && BodyDescribes(body, panes)
  }

  ghost predicate BodyDescribes(body: string, panes: seq<Pane>) {
    || (body == "" && panes == [])
    || exists c: Cell :: body == Text(c, "") && Height(c) <= MAX_SPLIT_DEPTH && panes == Leaves(c)
  }

  lemma ReadBodyIff(body: string, panes: seq<Pane>)
    ensures ReadBody(body) == Parsed(panes) <==> BodyDescribes(body, panes)
  {
    if c: Cell :| body == Text(c, "") && Height(c) <= MAX_SPLIT_DEPTH && panes == Leaves(c) {
      CellComplete(c, "", 0);
    }
    if ReadBody(body) == Parsed(panes) && body != "" {
      var c := CellSound(body, 0);
    }
  }

  lemma ParsedDescribes(raw: string, panes: seq<Pane>)
    requires ParseWindowLayout(raw) == Parsed(panes)
    ensures Describes(raw, panes)
  {
    hide ReadBody, Checksum, IsChecksum, ChecksumValue, BodyDescribes;
    var comma := IndexOf(raw, ',');
    ReadBodyIff(raw[comma + 1..], panes);
    assert raw == raw[..comma] + "," + raw[comma + 1..];
  }

  lemma DescribedParses(raw: string, panes: seq<Pane>, sum: string, body: string)
    requires raw == sum + "," + body && IsChecksum(sum) && ChecksumValue(sum) == Checksum(body) && BodyDescribes(body, panes)
    ensures ParseWindowLayout(raw) == Parsed(panes)
  {
    hide ReadBody, Checksum, ChecksumValue, BodyDescribes;
    ReadBodyIff(body, panes);
    assert sum == [sum[0], sum[1], sum[2], sum[3]];
    assert raw == sum + ([','] + body);
    IndexOfFirst(sum, ',', body);
    assert raw[..|sum|] == sum && raw[|sum| + 1..] == body;
  }

  /** The parser answers `Parsed(panes)` exactly for the strings of the grammar that list `panes`. */
  lemma ParsedIff(raw: string, panes: seq<Pane>)
    ensures ParseWindowLayout(raw) == Parsed(panes) <==> Describes(raw, panes)
  {
    hide ReadBody, Checksum, IsChecksum, ChecksumValue, BodyDescribes;
    if ParseWindowLayout(raw) == Parsed(panes) {
      ParsedDescribes(raw, panes);
    }
    if sum, body :| raw == sum + "," + body && IsChecksum(sum) && ChecksumValue(sum) == Checksum(body) && BodyDescribes(body, panes) {
      DescribedParses(raw, panes, sum, body);
    }
  }

  /** A layout string with exactly one body character changed is always malformed. */
  lemma OneChangeIsMalformed(sum: string, body: string, other: string, k: nat)
    requires CodeUnits(body) && CodeUnits(other)
    requires |body| == |other| && k < |body| && body[k] != other[k]
    requires forall j | 0 <= j < |body| && j != k :: body[j] == other[j]
    requires ParseWindowLayout(sum + "," + body).Parsed? && ',' !in sum
    ensures ParseWindowLayout(sum + "," + other) == Malformed
  {
    hide ReadBody, Checksum, IndexOf, ChecksumValue, IsHex;
    IndexOfFirst(sum, ',', body);
    IndexOfFirst(sum, ',', other);
    var a, b := sum + "," + body, sum + "," + other;
    assert a == sum + ([','] + body) && b == sum + ([','] + other);
    assert a[..|sum|] == sum && a[|sum| + 1..] == body && b[..|sum|] == sum && b[|sum| + 1..] == other;
    OneChangeIsSeen(body, other, k);
  }

  // ---------------------------------------------------------------------------------------
  // The cursor
  // ---------------------------------------------------------------------------------------

  /** The reader's cursor, and the list its leaves are pushed to. A failed method stands for the thrown error. */
  class LayoutReader {
    const src: string
    var pos: nat
    var out: seq<Pane>

    constructor (src: string)
      ensures this.src == src && pos == 0 && out == []
    {
      this.src, pos, out := src, 0, [];
    }

    ghost predicate Valid()
      reads this
    {
      pos <= |src|
    }

    ghost function Left(): string
      requires Valid()
      reads this
    {
      src[pos..]
    }

    predicate PeekIs(ch: char)
      requires Valid()
      reads this
      ensures PeekIs(ch) <==> StartsWith(Left(), ch)
    {
      pos < |src| && src[pos] == ch
    }

    method ExpectChar(ch: char) returns (ok: bool)
      requires Valid()
      modifies this`pos
      ensures Valid() && pos >= old(pos)
      ensures Expect(old(Left()), ch) == if ok then Got((), Left()) else Fail
    {
      ok := PeekIs(ch);
      if ok {
        assert Left()[1..] == src[pos + 1..];
        pos := pos + 1;
      }
    }

    method ReadUint() returns (ok: bool, digits: string)
      requires Valid()
      modifies this`pos
      ensures Valid() && pos >= old(pos)
      ensures ok ==> digits != "" && AllDigits(digits)
      ensures Uint(old(Left())) == if ok then Got(digits, Left()) else Fail
    {
      var start := pos;
      ghost var left := Left();
      while pos < |src| && IsDigit(src[pos])
        invariant start <= pos <= |src|
        invariant AllDigits(src[start..pos])
      {
        assert src[start..pos + 1] == src[start..pos] + [src[pos]];
        pos := pos + 1;
      }
      digits := src[start..pos];
      ok := pos != start;
      assert left == digits + src[pos..];
      if ok {
        UintIs(digits, src[pos..]);
      }
    }

    /** A number and the character after it. */
    method ReadNumberThen(ch: char) returns (ok: bool, digits: string)
      requires Valid()
      modifies this`pos
      ensures Valid() && pos >= old(pos)
      ensures ReadField(old(Left()), ch) == if ok then Got(digits, Left()) else Fail
    {
      hide Uint, Expect;
      ok, digits := ReadUint();
      if ok {
        ok := ExpectChar(ch);
      }
    }

    method ReadGeometry() returns (ok: bool, g: Geometry)
      requires Valid()
      modifies this`pos
      ensures Valid() && pos >= old(pos)
      ensures ReadHeader(old(Left())) == if ok then Got(g, Left()) else Fail
    {
      hide Uint, ReadField;
      g := Geometry("0", "0", "0", "0");
      var w, h, x, y;
      ok, w := ReadNumberThen('x');
      if !ok { return; }
      ok, h := ReadNumberThen(',');
      if !ok { return; }
      ok, x := ReadNumberThen(',');
      if !ok { return; }
      ok, y := ReadUint();
      if !ok { return; }
      g := Geometry(w, h, x, y);
    }

    /** Appends the cell's leaves to `out`, in order, exactly as `ReadCell` lists them. */
    method ReadOneCell(depth: nat) returns (ok: bool)
      requires Valid()
      modifies this`pos, this`out
      ensures Valid() && pos >= old(pos) && (ok ==> pos > old(pos)) && old(out) <= out
      ensures ReadCell(old(Left()), depth) == if ok then Got(out[|old(out)|..], Left()) else Fail
      decreases |src| - pos, 0
    {
      hide ReadHeader, ReadSplit, ReadMore, ReadLeaf;
      if depth > MAX_SPLIT_DEPTH {
        return false;
      }
      ghost var left := Left();
      var g;
      ok, g := ReadGeometry();
      if !ok { return; }
      assert |Left()| < |left|;
      if PeekIs('{') || PeekIs('[') {
        var close := if PeekIs('{') then '}' else ']';
        assert Left()[1..] == src[pos + 1..];
        pos := pos + 1;
        ok := ReadChildren(depth, close);
      } else {
        ok := ReadPaneId(g);
      }
    }

    method ReadPaneId(g: Geometry) returns (ok: bool)
      requires Valid()
      modifies this`pos, this`out
      ensures Valid() && pos >= old(pos) && old(out) <= out
      ensures ReadLeaf(Got(g, old(Left()))) == if ok then Got(out[|old(out)|..], Left()) else Fail
    {
      hide Uint, Expect;
      ok := ExpectChar(',');
      if !ok { return; }
      var pane;
      ok, pane := ReadUint();
      if !ok { return; }
      out := out + [LeafPane(g, pane)];
    }

    method ReadChildren(depth: nat, close: char) returns (ok: bool)
      requires Valid()
      modifies this`pos, this`out
      ensures Valid() && pos >= old(pos) && (ok ==> pos > old(pos)) && old(out) <= out
      ensures ReadSplit(old(Left()), depth, close) == if ok then Got(out[|old(out)|..], Left()) else Fail
      decreases |src| - pos, 1
    {
      hide ReadCell, ReadMore, ReadSplit, Expect;
      ghost var before, left := out, Left();
      SplitIs(left, depth, close);
      ok := ReadOneCell(depth + 1);
      if !ok { return; }
      ghost var all := ReadMore(Left(), depth, out[|before|..]);
      while PeekIs(',')
        invariant Valid() && pos > old(pos)
        invariant before <= out
        invariant all == ReadMore(Left(), depth, out[|before|..])
        decreases |src| - pos
      {
        ghost var here := out;
        MoreIs(Left(), depth, out[|before|..]);
        assert Left()[1..] == src[pos + 1..];
        pos := pos + 1;
        ok := ReadOneCell(depth + 1);
        if !ok { return; }
        assert out[|before|..] == here[|before|..] + out[|here|..];
      }
      MoreIs(Left(), depth, out[|before|..]);
      ok := ExpectChar(close);
    }

    static lemma SplitIs(s: string, depth: nat, close: char)
      ensures var first := ReadCell(s, depth + 1);
              ReadSplit(s, depth, close) ==
              if first.Fail? then Fail else
              var all := ReadMore(first.rest, depth, first.value);
              if all.Fail? then Fail else
              var e := Expect(all.rest, close);
              if e.Fail? then Fail else Got(all.value, e.rest)
    {
    }

    static lemma MoreIs(s: string, depth: nat, panes: seq<Pane>)
      ensures !StartsWith(s, ',') ==> ReadMore(s, depth, panes) == Got(panes, s)
      ensures StartsWith(s, ',') ==>
                var next := ReadCell(s[1..], depth + 1);
                ReadMore(s, depth, panes) == if next.Fail? then Fail else ReadMore(next.rest, depth, panes + next.value)
    {
    }
  }

  /** Either every pane of the layout or nothing: no partial list is ever returned. */
  method ParseLayout(raw: string) returns (layout: WindowLayout)
    ensures layout == ParseWindowLayout(raw)
  {
    hide ReadCell, IndexOf, Checksum, ChecksumValue, IsChecksum;
    var comma := IndexOf(raw, ',');
    if comma == -1 || !IsChecksum(raw[..comma]) {
      return Malformed;
    }
    var body := raw[comma + 1..];
    var expected := ComputeChecksum(body);
    if ChecksumValue(raw[..comma]) != expected {
      return Malformed;
    }
    var reader := new LayoutReader(body);
    assert reader.Left() == body;
    if body != "" {
      var ok := reader.ReadOneCell(0);
      if !ok {
        return Malformed;
      }
      assert reader.out[0..] == reader.out;
    }
    if reader.pos != |reader.src| {
      return Malformed;
    }
    return Parsed(reader.out);
  }

  method ComputeChecksum(body: string) returns (csum: nat)
    ensures csum == Checksum(body)
  {
    csum := 0;
    for i := 0 to |body|
      invariant csum == Checksum(body[..i])
    {
      assert body[..i + 1][..i] == body[..i];
      csum := (csum / 2 + csum % 2 * 0x8000 + body[i] as nat) % 0x10000;
    }
    assert body[..|body|] == body;
  }
}
