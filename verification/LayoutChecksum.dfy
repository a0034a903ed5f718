/**
  What the layout checksum (src/protocol/layout.ts) computes, apart from the step that computes it:
  where a character stands decides how far its code is rotated. With it, layouts as tmux prints them.
 */
module LayoutChecksum {
  import opened JsStrings
  import opened Layout

  // ---------------------------------------------------------------------------------------
  // Rotations on 16 bits
  // ---------------------------------------------------------------------------------------

  function Pow2(n: nat): (r: nat)
    ensures r > 0
  {
    if n == 0 then 1 else 2 * Pow2(n - 1)
  }

  /** `c` rotated right by `n` bits on 16 bits: the low bits come in from the left. */
  function RotateRight(c: nat, n: nat): nat {
    var m := n % 16;
    c / Pow2(m) + c % Pow2(m) * Pow2(16 - m)
  }

  lemma {:induction false} PowPlus(a: nat, b: nat)
    ensures Pow2(a) * Pow2(b) == Pow2(a + b)
  {
    if a > 0 {
      PowPlus(a - 1, b);
      assert 2 * Pow2(a - 1) * Pow2(b) == 2 * (Pow2(a - 1) * Pow2(b));
    }
  }

  lemma PowSixteen()
    ensures Pow2(16) == 0x10000 && Pow2(15) == 0x8000 && Pow2(1) == 2 && Pow2(0) == 1
  {
    assert Pow2(4) == 16;
    PowPlus(4, 4);
    PowPlus(8, 8);
    PowPlus(8, 4);
    PowPlus(12, 3);
    assert Pow2(3) == 8;
  }

  lemma Halves(x: nat, q: nat, b: nat)
    requires x == 2 * q + b && b < 2
    ensures x / 2 == q && x % 2 == b
  {
  }

  lemma Apart(d: int, k: nat)
    ensures d >= 1 ==> d * k >= k
    ensures d <= -1 ==> d * k + k <= 0
  {
    if d >= 1 {
      assert (d - 1) * k >= 0;
    } else if d <= -1 {
      assert (-d - 1) * k >= 0;
    }
  }

  lemma DivModIs(c: nat, k: nat, q: nat, r: nat)
    requires k > 0 && c == q * k + r && r < k
    ensures c / k == q && c % k == r
  {
    var d, e := c / k, c % k;
    assert d * k + e == c;
    assert (d - q) * k == d * k - q * k;
    Apart(d - q, k);
  }

  lemma SplitAgain(c: nat, k: nat)
    requires k > 0
    ensures c / (2 * k) == c / k / 2 && c % (2 * k) == c / k % 2 * k + c % k
  {
    var q, r := c / k, c % k;
    var h, b := q / 2, q % 2;
    assert c == q * k + r;
    assert q * k == h * (2 * k) + b * k by { Regroup(q, h, b, k); }
    assert b * k + r < 2 * k by {
      if b == 0 { assert b * k == 0; } else { assert b * k == k; }
    }
    DivModIs(c, 2 * k, h, b * k + r);
  }

  lemma Regroup(q: nat, h: nat, b: nat, k: nat)
    requires q == 2 * h + b
    ensures q * k == h * (2 * k) + b * k
  {
    assert (2 * h + b) * k == 2 * h * k + b * k;
  }

  /** One more bit: splitting at `k` and swapping, then rotating by one, is splitting at `2 * k`. */
  lemma RotateAlgebra(c: nat, k: nat, j: nat)
    requires k > 0 && k * j == 0x8000
    ensures var x := c / k + c % k * (2 * j);
            x / 2 + x % 2 * 0x8000 == c / (2 * k) + c % (2 * k) * j
  {
    var q, r := c / k, c % k;
    SplitAgain(c, k);
    Regroup(q, q / 2, q % 2, k);
    Swap(q, r, k, j);
  }

  lemma Swap(q: nat, r: nat, k: nat, j: nat)
    requires k * j == 0x8000
    ensures var x := q + r * (2 * j);
            x / 2 + x % 2 * 0x8000 == q / 2 + (q % 2 * k + r) * j
  {
    var h, b := q / 2, q % 2;
    var rj := r * j;
    assert r * (2 * j) == 2 * rj;
    Halves(q + 2 * rj, h + rj, b);
    assert (b * k + r) * j == b * (k * j) + rj by { Distribute(b, k, r, j); }
  }

  lemma Distribute(b: nat, k: nat, r: nat, j: nat)
    ensures (b * k + r) * j == b * (k * j) + r * j
  {
    assert (b * k) * j == b * (k * j);
  }

  lemma RotateNone(c: nat)
    requires c < 0x10000
    ensures RotateRight(c, 0) == c
  {
    hide Pow2;
    PowSixteen();
  }

  lemma SwapBound(c: nat, k: nat, j: nat)
    requires k > 0 && c < k * j
    ensures c / k + c % k * j < k * j
  {
    var q, r := c / k, c % k;
    assert q * k + r == c;
    assert (q - j) * k == q * k - j * k;
    Apart(q - j, k);
    assert (r + 1 - k) * j == r * j + j - k * j;
    if r + 1 < k { Apart(r + 1 - k, j); }
  }

  /** The two parts of a 16-bit word are swapped at a bit, whatever multiple of 16 the distance has beside it. */
  lemma RotateAt(n: nat)
    ensures var m := n % 16; m < 16 && Pow2(m) * Pow2(16 - m) == 0x10000
    ensures Pow2(16 - n % 16) == 2 * Pow2(15 - n % 16) && Pow2(n % 16) * Pow2(15 - n % 16) == 0x8000
    ensures Pow2(n % 16 + 1) == 2 * Pow2(n % 16)
  {
    PowSixteen();
    PowPlus(n % 16, 16 - n % 16);
    PowPlus(n % 16, 15 - n % 16);
  }

  lemma RotateBound(c: nat, n: nat)
    requires c < 0x10000
    ensures RotateRight(c, n) < 0x10000
  {
    hide Pow2;
    RotateAt(n);
    SwapBound(c, Pow2(n % 16), Pow2(16 - n % 16));
  }

  lemma RotateByOne(x: nat)
    ensures RotateRight(x, 1) == x / 2 + x % 2 * 0x8000
  {
    hide Pow2;
    PowSixteen();
  }

  lemma NextDistance(n: nat)
    ensures n % 16 < 15 ==> (n + 1) % 16 == n % 16 + 1
    ensures n % 16 == 15 ==> (n + 1) % 16 == 0
  {
  }

  /** Rotating by one more bit is rotating once more. */
  lemma RotateOnce(c: nat, n: nat)
    requires c < 0x10000
    ensures RotateRight(RotateRight(c, n), 1) == RotateRight(c, n + 1)
  {
    hide Pow2;
    var m := n % 16;
    RotateAt(n);
    RotateByOne(RotateRight(c, n));
    RotateAlgebra(c, Pow2(m), Pow2(15 - m));
    NextDistance(n);
    if m == 15 { WholeTurn(c); }
  }

  /** Sixteen bits round, a 16-bit word is itself. */
  lemma WholeTurn(c: nat)
    requires c < 0x10000
    ensures c / (2 * Pow2(15)) + c % (2 * Pow2(15)) * Pow2(0) == c && RotateRight(c, 0) == c
  {
    hide Pow2;
    PowSixteen();
    RotateNone(c);
  }

  // ---------------------------------------------------------------------------------------
  // The checksum and where a character stands
  // ---------------------------------------------------------------------------------------

  /** The checksum so far is rotated by one bit and the character added, on 16 bits. */
  lemma ChecksumOneMore(s: string, c: char)
    ensures Checksum(s + [c]) == (RotateRight(Checksum(s), 1) + c as nat) % 0x10000
  {
    hide RotateRight;
    RotateByOne(Checksum(s));
    assert (s + [c])[..|s|] == s;
  }

  function Nuls(n: nat): string {
    seq(n, i => 0 as char)
  }

  lemma NulMore(s: string, n: nat)
    ensures Nuls(n + 1) == Nuls(n) + [0 as char] && s + Nuls(n + 1) == (s + Nuls(n)) + [0 as char]
    ensures s + Nuls(0) == s
  {
  }

  lemma ChecksumNul(s: string)
    ensures Checksum(s + [0 as char]) == RotateRight(Checksum(s), 1)
  {
    hide Checksum, RotateRight;
    ChecksumOneMore(s, 0 as char);
    RotateBound(Checksum(s), 1);
  }

  /** `n` characters that add nothing rotate everything before them `n` bits to the right. */
  lemma {:induction false} NulsRotate(s: string, n: nat)
    ensures Checksum(s + Nuls(n)) == RotateRight(Checksum(s), n)
  {
    hide RotateRight, Checksum, Nuls;
    if n == 0 {
      NulMore(s, 0);
      RotateNone(Checksum(s));
    } else {
      NulsRotate(s, n - 1);
      NulMore(s, n - 1);
      ChecksumNul(s + Nuls(n - 1));
      RotateOnce(Checksum(s), n - 1);
    }
  }

  /** So a character alone contributes its code, rotated by how far it stands from the end. */
  lemma OneCharacter(c: char, n: nat)
    requires c as nat < 0x10000
    ensures Checksum([c] + Nuls(n)) == RotateRight(c as nat, n)
  {
    hide RotateRight;
    EmptyChecksum();
    ChecksumOneMore("", c);
    assert "" + [c] == [c];
    RotateByOne(0);
    hide Checksum;
    NulsRotate([c], n);
  }

  /** Adding the character at `i` overflowed 16 bits. */
  predicate Carries(s: string, i: nat)
    requires i < |s|
  {
    RotateRight(Checksum(s[..i]), 1) + s[i] as nat >= 0x10000
  }

  /** What a character `n` places from the end contributes, less the carry its addition lost. */
  function Contribution(code: nat, carries: bool, n: nat): int {
    RotateRight(code, n) - if carries then RotateRight(1, n) else 0
  }

  /** What the first `i` characters contribute, each counted from the end of the whole text. */
  function Contributions(s: string, i: nat): int
    requires i <= |s|
  {
    if i == 0 then 0
    else Contributions(s, i - 1) + Contribution(s[i - 1] as nat, Carries(s, i - 1), |s| - i)
  }

  /** Equal but for multiples of 0xffff: what a rotation on 16 bits keeps. */
  predicate Same(a: int, b: int) {
    (a - b) % 0xffff == 0
  }

  lemma SameSum(a: int, b: int, c: int, d: int)
    requires Same(a, b) && Same(c, d)
    ensures Same(a + c, b + d) && Same(a - c, b - d)
  {
  }

  lemma SameScaled(a: int, b: int)
    requires Same(a, b)
    ensures Same(0x8000 * a, 0x8000 * b)
  {
  }

  /** On 16 bits, rotating right by one bit multiplies by 0x8000 but for multiples of 0xffff. */
  lemma RotateScales(c: nat)
    ensures Same(RotateRight(c, 1), 0x8000 * c)
  {
    hide RotateRight;
    RotateByOne(c);
    var q, b := c / 2, c % 2;
    assert q + b * 0x8000 - 0x8000 * (2 * q + b) == -0xffff * q;
  }

  /** One place further from the end, a contribution is rotated once more. */
  lemma ContributionFurther(code: nat, carries: bool, n: nat)
    requires code < 0x10000
    ensures Same(Contribution(code, carries, n + 1), 0x8000 * Contribution(code, carries, n))
  {
    hide RotateRight, Same;
    var x, y := RotateRight(code, n), RotateRight(1, n);
    RotateOnce(code, n);
    RotateOnce(1, n);
    RotateScales(x);
    RotateScales(y);
    SameSum(RotateRight(code, n + 1), 0x8000 * x, RotateRight(1, n + 1), 0x8000 * y);
  }

  lemma OneContribution(s: string, i: nat)
    requires 0 < i <= |s|
    ensures Contributions(s, i)
            == Contributions(s, i - 1) + Contribution(s[i - 1] as nat, Carries(s, i - 1), |s| - i)
  {
    hide RotateRight, Carries, Contribution, Checksum;
  }

  lemma SameTerms(a: int, b: int, x: int, y: int)
    requires Same(a, 0x8000 * b) && Same(x, 0x8000 * y)
    ensures Same(a + x, 0x8000 * (b + y))
  {
    SameSum(a, 0x8000 * b, x, 0x8000 * y);
  }

  lemma TermFurther(s: string, c: char, i: nat)
    requires 0 < i <= |s| && s[i - 1] as nat < 0x10000
    requires Same(Contributions(s + [c], i - 1), 0x8000 * Contributions(s, i - 1))
    ensures Same(Contributions(s + [c], i), 0x8000 * Contributions(s, i))
  {
    hide *;
    var t, n := s + [c], |s| - i;
    assert t[i - 1] == s[i - 1] && |t| - i == n + 1;
    SamePrefixCarries(s, c, i - 1);
    var code, lost := s[i - 1] as nat, Carries(s, i - 1);
    ContributionFurther(code, lost, n);
    OneContribution(s, i);
    OneContribution(t, i);
    SameTerms(Contributions(t, i - 1), Contributions(s, i - 1), Contribution(code, lost, n + 1),
              Contribution(code, lost, n));
  }

  lemma {:induction false} ContributionsFurther(s: string, c: char, i: nat)
    requires i <= |s| && CodeUnits(s)
    ensures Same(Contributions(s + [c], i), 0x8000 * Contributions(s, i))
  {
    if i > 0 {
      hide Contributions, Same;
      ContributionsFurther(s, c, i - 1);
      assert s[i - 1] in s;
      TermFurther(s, c, i);
    }
  }

  lemma SamePrefixCarries(s: string, c: char, i: nat)
    requires i < |s|
    ensures Carries(s + [c], i) == Carries(s, i)
  {
    assert (s + [c])[..i] == s[..i];
  }

  /**
    The checksum is the sum of its characters' contributions, but for multiples of 0xffff: a character `n` places
    from the end contributes its code rotated right by `n` bits, and each carry lost takes one off, rotated alike.
   */
  lemma {:induction false} ChecksumIsContributions(s: string)
    requires CodeUnits(s)
    ensures Same(Checksum(s), Contributions(s, |s|))
    decreases |s|
  {
    if s == "" {
      EmptyChecksum();
    } else {
      hide RotateRight, Checksum, Contributions, Same, Carries;
      var n := |s| - 1;
      var t, c := s[..n], s[n];
      assert s == t + [c];
      assert CodeUnits(t) by { assert forall x <- t :: x in s; }
      assert c in s;
      ChecksumIsContributions(t);
      ContributionsFurther(t, c, n);
      LastContribution(t, c);
    }
  }

  /** The last character is not rotated; the rest is, once. */
  lemma LastContribution(t: string, c: char)
    requires c as nat < 0x10000 && Same(Checksum(t), Contributions(t, |t|))
    requires Same(Contributions(t + [c], |t|), 0x8000 * Contributions(t, |t|))
    ensures Same(Checksum(t + [c]), Contributions(t + [c], |t| + 1))
  {
    hide RotateRight, Checksum, Same, Contribution;
    var s, sum := t + [c], Checksum(t);
    var before := Contributions(s, |t|);
    ChecksumOneMore(t, c);
    RotateBound(sum, 1);
    RotateScales(sum);
    SameScaled(sum, Contributions(t, |t|));
    SameChain(RotateRight(sum, 1), 0x8000 * sum, 0x8000 * Contributions(t, |t|), before);
    LastAdded(RotateRight(sum, 1), c as nat, before);
    LastTerm(c as nat, Carries(s, |t|));
    assert s[..|t|] == t && s[|t|] == c;
  }

  lemma LastTerm(code: nat, carries: bool)
    requires code < 0x10000
    ensures Contribution(code, carries, 0) == code - if carries then 1 else 0
  {
    hide RotateRight;
    RotateNone(code);
    RotateNone(1);
  }

  lemma SameChain(a: int, b: int, c: int, d: int)
    requires Same(a, b) && Same(b, c) && Same(d, c)
    ensures Same(a, d)
  {
  }

  lemma LastAdded(x: nat, code: nat, before: int)
    requires x < 0x10000 && code < 0x10000 && Same(x, before)
    ensures Same((x + code) % 0x10000, before + code - if x + code >= 0x10000 then 1 else 0)
  {
  }

  // ---------------------------------------------------------------------------------------
  // Layouts as tmux prints them
  // ---------------------------------------------------------------------------------------

  function HexDigit(d: nat): char
    requires d < 16
  {
    "0123456789abcdef"[d]
  }

  /** Four lower-case hexadecimal digits. */
  function Hex4(n: nat): string
    requires n < 0x10000
  {
    [HexDigit(n / 0x1000), HexDigit(n / 0x100 % 0x10), HexDigit(n / 0x10 % 0x10), HexDigit(n % 0x10)]
  }

  lemma HexDigitBack(d: nat)
    requires d < 16
    ensures IsHex(HexDigit(d)) && HexValue(HexDigit(d)) == d && HexDigit(d) != ','
  {
  }

  /** Upper-case digits count the same. */
  lemma UpperHexDigit(d: nat)
    requires d < 16
    ensures var c := "0123456789ABCDEF"[d]; IsHex(c) && HexValue(c) == d
  {
  }

  lemma Hex4Back(n: nat)
    requires n < 0x10000
    ensures IsChecksum(Hex4(n)) && ChecksumValue(Hex4(n)) == n && ',' !in Hex4(n)
  {
    hide HexDigit, IsHex, HexValue;
    var a, b, c, d := n / 0x1000, n / 0x100 % 0x10, n / 0x10 % 0x10, n % 0x10;
    HexDigitBack(a);
    HexDigitBack(b);
    HexDigitBack(c);
    HexDigitBack(d);
    FourDigits(n);
    var s := Hex4(n);
    assert |s| == 4 && s[0] == HexDigit(a) && s[1] == HexDigit(b) && s[2] == HexDigit(c) && s[3] == HexDigit(d);
  }

  lemma FourDigits(n: nat)
    requires n < 0x10000
    ensures n / 0x1000 * 0x1000 + n / 0x100 % 0x10 * 0x100 + n / 0x10 % 0x10 * 0x10 + n % 0x10 == n
  {
    Digits(n);
    Digits(n / 0x10);
    Digits(n / 0x100);
    assert n / 0x10 / 0x10 == n / 0x100;
    assert n / 0x100 / 0x10 == n / 0x1000;
  }

  lemma Digits(n: nat)
    ensures n == n / 0x10 * 0x10 + n % 0x10
  {
  }

  /** A window's layout as tmux prints it: the checksum of the cell's text, a comma, the text. */
  function Printed(c: Cell): string {
    Hex4(Checksum(Text(c, ""))) + "," + Text(c, "")
  }

  /** Every printed layout nested no deeper than allowed is parsed to its panes. */
  lemma PrintedIsParsed(c: Cell)
    requires Height(c) <= 1000
    ensures ParseWindowLayout(Printed(c)) == Parsed(Leaves(c))
  {
    hide Checksum, Text, Hex4, IsChecksum, ChecksumValue;
    Hex4Back(Checksum(Text(c, "")));
    DescribedParses(Printed(c), Leaves(c), Hex4(Checksum(Text(c, ""))), Text(c, ""));
  }

  lemma ChecksumAfter(s: string, c: char, sum: nat, after: nat)
    requires Checksum(s) == sum < 0x10000 && after == (sum / 2 + sum % 2 * 0x8000 + c as nat) % 0x10000
    ensures Checksum(s + [c]) == after
  {
    hide Checksum, RotateRight;
    ChecksumOneMore(s, c);
    RotateByOne(sum);
  }

  lemma OnePaneChecksum()
    ensures Checksum("80x24,0,0,0") == 0xb25d
  {
    hide Checksum;
    EmptyChecksum();
    assert "" + ['8'] == "8";
    ChecksumAfter("", '8', 0, 56);
    assert "8" + ['0'] == "80";
    ChecksumAfter("8", '0', 56, 76);
    assert "80" + ['x'] == "80x";
    ChecksumAfter("80", 'x', 76, 158);
    assert "80x" + ['2'] == "80x2";
    ChecksumAfter("80x", '2', 158, 129);
    assert "80x2" + ['4'] == "80x24";
    ChecksumAfter("80x2", '4', 129, 32884);
    assert "80x24" + [','] == "80x24,";
    ChecksumAfter("80x24", ',', 32884, 16486);
    assert "80x24," + ['0'] == "80x24,0";
    ChecksumAfter("80x24,", '0', 16486, 8291);
    assert "80x24,0" + [','] == "80x24,0,";
    ChecksumAfter("80x24,0", ',', 8291, 36957);
    assert "80x24,0," + ['0'] == "80x24,0,0";
    ChecksumAfter("80x24,0,", '0', 36957, 51294);
    assert "80x24,0,0" + [','] == "80x24,0,0,";
    ChecksumAfter("80x24,0,0", ',', 51294, 25691);
    assert "80x24,0,0," + ['0'] == "80x24,0,0,0";
    ChecksumAfter("80x24,0,0,", '0', 25691, 0xb25d);
  }

  lemma EmptyChecksum()
    ensures Checksum("") == 0
  {
  }

  /** One pane that fills an 80x24 window. */
  const WHOLE: Cell := Leaf(Geometry("80", "24", "0", "0"), "0")

  /** The ordinary one-pane layout is parsed: pane 0, 80 columns by 24 lines, at the origin. */
  lemma OnePaneLayout()
    ensures ParseWindowLayout("b25d,80x24,0,0,0") == Parsed([Pane(0, 80, 24, 0, 0)])
  {
    hide Checksum, Text, ParseWindowLayout, Hex4;
    OnePaneText();
    OnePaneChecksum();
    assert Hex4(0xb25d) + "," + "80x24,0,0,0" == "b25d,80x24,0,0,0" by { OnePaneSum(); }
    PrintedIsParsed(WHOLE);
    OnePaneLeaf();
  }

  lemma OnePaneText()
    ensures Text(WHOLE, "") == "80x24,0,0,0"
  {
  }

  lemma OnePaneSum()
    ensures Hex4(0xb25d) == "b25d" && "b25d" + "," + "80x24,0,0,0" == "b25d,80x24,0,0,0"
  {
  }

  lemma OnePaneLeaf()
    ensures Height(WHOLE) == 0 && Leaves(WHOLE) == [Pane(0, 80, 24, 0, 0)]
  {
    assert Value("80") == 80 && Value("24") == 24 && Value("0") == 0 by { Numbers(); }
  }

  lemma Numbers()
    ensures Value("80") == 80 && Value("24") == 24 && Value("0") == 0
    ensures Value("9") == 9 && Value("3") == 3 && Value("4") == 4 && Value("5") == 5 && Value("1") == 1
  {
    assert "80"[..1] == "8" && "24"[..1] == "2";
    assert "8"[..0] == "" && "2"[..0] == "" && "0"[..0] == "";
    assert "9"[..0] == "" && "3"[..0] == "" && "4"[..0] == "" && "5"[..0] == "" && "1"[..0] == "";
  }

  /** Two panes side by side. */
  const SIDE_BY_SIDE: Cell :=
    Node(Geometry("9", "3", "0", "0"), true,
         Cons(Leaf(Geometry("4", "3", "0", "0"), "0"), Last(Leaf(Geometry("4", "3", "5", "0"), "1"))))

  /** The body of a left-right split lists the left pane, then the right one. */
  lemma SideBySideLayout()
    ensures ReadBody("9x3,0,0{4x3,0,0,0,4x3,5,0,1}") == Parsed([Pane(0, 4, 3, 0, 0), Pane(1, 4, 3, 5, 0)])
  {
    hide ReadCell;
    SideBySideText();
    Numbers();
    CellComplete(SIDE_BY_SIDE, "", 0);
  }

  lemma SideBySideText()
    ensures Text(SIDE_BY_SIDE, "") == "9x3,0,0{4x3,0,0,0,4x3,5,0,1}"
  {
    hide HeaderText;
    var left, right := Geometry("4", "3", "0", "0"), Geometry("4", "3", "5", "0");
    RightText();
    LeftText();
    SplitText();
    assert [Close(true)] + "" == "}";
    assert TextAll(SIDE_BY_SIDE.kids, "}") == Text(Leaf(left, "0"), [','] + Text(Leaf(right, "1"), "}"));
  }

  lemma RightText()
    ensures [','] + ("1" + "}") == ",1}"
    ensures HeaderText(Geometry("4", "3", "5", "0"), ",1}") == "4x3,5,0,1}"
  {
  }

  lemma HeaderSplit(g: Geometry, rest: string)
    ensures HeaderText(g, rest) == HeaderText(g, "") + rest
  {
    var a, b := g.y + "", g.y + rest;
    assert b == a + rest;
    var c, d := [','] + a, [','] + b;
    assert d == c + rest;
    assert g.x + d == (g.x + c) + rest;
    var e, f := [','] + (g.x + c), [','] + (g.x + d);
    assert f == e + rest;
    assert g.h + f == (g.h + e) + rest;
    assert ['x'] + (g.h + f) == (['x'] + (g.h + e)) + rest;
  }

  lemma LeftText()
    ensures [','] + "4x3,5,0,1}" == ",4x3,5,0,1}"
    ensures [','] + ("0" + ",4x3,5,0,1}") == ",0,4x3,5,0,1}"
    ensures HeaderText(Geometry("4", "3", "0", "0"), ",0,4x3,5,0,1}") == "4x3,0,0,0,4x3,5,0,1}"
  {
    hide HeaderText;
    assert "0" + ",4x3,5,0,1}" == "0,4x3,5,0,1}";
    HeaderSplit(Geometry("4", "3", "0", "0"), ",0,4x3,5,0,1}");
    LeftHeader();
    assert "4x3,0,0" + ",0,4x3,5,0,1}" == "4x3,0,0,0,4x3,5,0,1}";
  }

  lemma LeftHeader()
    ensures HeaderText(Geometry("4", "3", "0", "0"), "") == "4x3,0,0"
  {
  }

  lemma SplitText()
    ensures [Open(true)] + "4x3,0,0,0,4x3,5,0,1}" == "{4x3,0,0,0,4x3,5,0,1}"
    ensures HeaderText(Geometry("9", "3", "0", "0"), "{4x3,0,0,0,4x3,5,0,1}")
            == "9x3,0,0{4x3,0,0,0,4x3,5,0,1}"
  {
    hide HeaderText;
    HeaderSplit(Geometry("9", "3", "0", "0"), "{4x3,0,0,0,4x3,5,0,1}");
    SplitHeader();
    SplitWhole();
  }

  lemma SplitWhole()
    ensures "9x3,0,0" + "{4x3,0,0,0,4x3,5,0,1}" == "9x3,0,0{4x3,0,0,0,4x3,5,0,1}"
  {
  }

  lemma SplitHeader()
    ensures HeaderText(Geometry("9", "3", "0", "0"), "") == "9x3,0,0"
  {
  }
}
