/**
  The string operations the wire parsers are made of, on strings of code units: `indexOf`,
  `split`, `slice(1)`, decimal printing and `parseInt(_, 10)`.
 */
module JsStrings {

  /** A parsed number: `parseInt` answers NaN when no digit starts the text. */
  datatype Num = NaN | Int(n: int)

  // ---------------------------------------------------------------------------------------
  // Searching and splitting
  // ---------------------------------------------------------------------------------------

  function IndexOf(s: string, c: char): (r: int)
    ensures -1 <= r < |s|
    ensures r == -1 ==> c !in s
    ensures r >= 0 ==> s[r] == c && c !in s[..r]
  {
    if s == "" then -1
    else if s[0] == c then 0
    else
      var r := IndexOf(s[1..], c);
      assert s == [s[0]] + s[1..];
      if r == -1 then -1
      else
        assert s[..r + 1] == [s[0]] + s[1..][..r];
        r + 1
  }

  lemma {:induction false} IndexOfFirst(a: string, c: char, b: string)
    requires c !in a
    ensures IndexOf(a + ([c] + b), c) == |a|
  {
    var s := a + ([c] + b);
    if a == "" {
      assert s[0] == c;
    } else {
      assert s[0] == a[0] && a[0] in a;
      assert s[1..] == a[1..] + ([c] + b);
      IndexOfFirst(a[1..], c, b);
    }
  }

  function Split(s: string, c: char): (r: seq<string>)
    ensures |r| >= 1
    ensures forall p <- r :: c !in p
    decreases |s|
  {
    var i := IndexOf(s, c);
    if i == -1 then [s] else [s[..i]] + Split(s[i + 1..], c)
  }

  lemma SplitCons(a: string, c: char, b: string)
    requires c !in a
    ensures Split(a + ([c] + b), c) == [a] + Split(b, c)
  {
    IndexOfFirst(a, c, b);
    var s := a + ([c] + b);
    assert s[..|a|] == a && s[|a| + 1..] == b;
  }

  lemma SplitOne(a: string, c: char)
    requires c !in a
    ensures Split(a, c) == [a]
  {
  }

  /** Position of the first " : ", or -1. */
  function IndexOfColon(s: string): (r: int)
    ensures -1 <= r && (r >= 0 ==> r + 3 <= |s|)
  {
    if |s| < 3 then -1
    else if s[..3] == " : " then 0
    else
      var r := IndexOfColon(s[1..]);
      if r == -1 then -1 else r + 1
  }

  /** Nothing in `a` looks like the start of a separator. */
  predicate NoSpaceColon(a: string) {
    && (a != "" ==> a[|a| - 1] != ' ')
    && forall k | 0 <= k < |a| - 1 :: a[k] == ' ' ==> a[k + 1] != ':'
  }

  lemma {:induction false} ColonFirst(a: string, b: string)
    requires NoSpaceColon(a)
    ensures IndexOfColon(a + (" : " + b)) == |a|
  {
    var s := a + (" : " + b);
    if a == "" {
      assert s[..3] == " : ";
    } else {
      assert s[1..] == a[1..] + (" : " + b);
      assert s[..3][0] == s[0] && s[..3][1] == s[1];
      assert NoSpaceColon(a[1..]);
      ColonFirst(a[1..], b);
    }
  }

  /** A first token without spaces followed by colon-free tokens. */
  lemma TokenThenColonFree(n: string, r: string)
    requires ' ' !in n && ':' !in r && r != "" && r[|r| - 1] != ' '
    ensures NoSpaceColon(n + " " + r)
  {
    var a := n + " " + r;
    assert forall k | |n| < k < |a| :: a[k] == r[k - |n| - 1] && a[k] in r;
    assert forall k | 0 <= k < |n| :: a[k] == n[k] && a[k] in n;
  }

  function Slice1(s: string): string {
    if s == "" then "" else s[1..]
  }

  /** The line without its trailing run of carriage returns. */
  function StripCr(s: string): (r: string)
    ensures |r| <= |s| && r == s[..|r|]
    ensures r == "" || r[|r| - 1] != '\r'
  {
    if s != "" && s[|s| - 1] == '\r' then StripCr(s[..|s| - 1]) else s
  }

  predicate EndsInCr(s: string) {
    s != "" && s[|s| - 1] == '\r'
  }

  lemma {:induction false} StripTail(a: string, b: string)
    requires !EndsInCr(a)
    ensures StripCr(a + b) == a + StripCr(b)
    decreases |b|
  {
    if b == "" {
      assert a + b == a;
    } else if EndsInCr(b) {
      StripTail(a, b[..|b| - 1]);
      assert (a + b)[..|a + b| - 1] == a + b[..|b| - 1];
    }
  }

  // ---------------------------------------------------------------------------------------
  // Numbers
  // ---------------------------------------------------------------------------------------

  predicate IsDigit(c: char) {
    '0' <= c <= '9'
  }

  function DigitChar(d: nat): (c: char)
    requires d < 10
    ensures IsDigit(c) && DigitValue(c) == d
  {
    '0' + d as char
  }

  function DigitValue(c: char): nat
    requires IsDigit(c)
  {
    c as int - '0' as int
  }

  predicate AllDigits(s: string) {
    forall c <- s :: IsDigit(c)
  }

  function Dec(n: nat): (s: string)
    ensures s != "" && AllDigits(s)
  {
    if n < 10 then [DigitChar(n)] else Dec(n / 10) + [DigitChar(n % 10)]
  }

  function Value(s: string): nat
    requires AllDigits(s)
  {
    if s == "" then 0 else 10 * Value(s[..|s| - 1]) + DigitValue(s[|s| - 1])
  }

  lemma {:induction false} ValueOfDec(n: nat)
    ensures Value(Dec(n)) == n
  {
    if n >= 10 {
      ValueOfDec(n / 10);
      assert Dec(n)[..|Dec(n)| - 1] == Dec(n / 10);
    } else {
      assert Dec(n)[..0] == "";
    }
  }

  /** Length of the longest prefix of digits. */
  function DigitRun(s: string): (k: nat)
    ensures k <= |s| && AllDigits(s[..k]) && (k < |s| ==> !IsDigit(s[k]))
  {
    if s == "" || !IsDigit(s[0]) then 0
    else
      var k := DigitRun(s[1..]);
      assert s[..k + 1] == [s[0]] + s[1..][..k];
      k + 1
  }

  lemma {:induction false} DigitRunIs(d: string, rest: string)
    requires AllDigits(d) && (rest == "" || !IsDigit(rest[0]))
    ensures DigitRun(d + rest) == |d|
  {
    var s := d + rest;
    if d == "" {
      assert s == rest;
    } else {
      assert s[0] == d[0] && d[0] in d;
      assert s[1..] == d[1..] + rest;
      DigitRunIs(d[1..], rest);
    }
  }

  predicate IsSpace(c: char) {
    var n := c as int;
    9 <= n <= 13 || n == 32 || n == 160 || n == 0x1680 || 0x2000 <= n <= 0x200A
    || n == 0x2028 || n == 0x2029 || n == 0x202F || n == 0x205F || n == 0x3000 || n == 0xFEFF
  }

  function TrimStart(s: string): string {
    if s != "" && IsSpace(s[0]) then TrimStart(s[1..]) else s
  }

  function ParseDigits(s: string, negative: bool): Num {
    var k := DigitRun(s);
    var v: int := Value(s[..k]);
    if k == 0 then NaN else if negative then Int(-v) else Int(v)
  }

  /** `parseInt(s, 10)`, on unbounded integers. */
  function ParseInt(s: string): Num {
    var t := TrimStart(s);
    if t != "" && t[0] == '-' then ParseDigits(t[1..], true)
    else if t != "" && t[0] == '+' then ParseDigits(t[1..], false)
    else ParseDigits(t, false)
  }

  /** `String(n)`. */
  function Show(x: Num): string {
    match x
    case NaN => "NaN"
    case Int(n) => if n < 0 then "-" + Dec(-n) else Dec(n)
  }

  lemma ParseDec(n: nat, negative: bool)
    ensures ParseDigits(Dec(n), negative) == Int(if negative then -(n as int) else n as int)
    ensures Dec(n)[0] in Dec(n)
  {
    var d := Dec(n);
    ValueOfDec(n);
    assert d + "" == d && d[..|d|] == d;
    DigitRunIs(d, "");
  }

  lemma ParseShow(x: Num)
    ensures ParseInt(Show(x)) == x
  {
    hide Dec, ParseDigits;
    match x
    case NaN =>
      assert "NaN"[0] == 'N';
      NoDigits("NaN");
    case Int(n) =>
      ParseDec(if n < 0 then -n else n, n < 0);
      if n < 0 {
        assert Show(x)[1..] == Dec(-n);
      }
  }

  lemma NoDigits(s: string)
    requires s != "" && !IsDigit(s[0])
    ensures ParseDigits(s, false) == NaN
  {
  }

  /** A printed number has no separator in it and is not the "none" token. */
  lemma ShowIsPlain(x: Num)
    ensures forall c <- Show(x) :: IsDigit(c) || c == '-' || c == 'N' || c == 'a'
    ensures Show(x) != "" && Show(x) != "-" && !EndsInCr(Show(x))
  {
    match x
    case NaN =>
    case Int(n) =>
      var d := Dec(if n < 0 then -n else n);
      assert d[|d| - 1] in d;
      if n < 0 {
        assert Show(x)[|d|] == d[|d| - 1];
      }
  }
}
