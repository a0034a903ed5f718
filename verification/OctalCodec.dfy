/**
  The octal-escape codec of pane output (src/protocol/decode.ts).
  `Decode` and `Encode` are the codec as functions; the methods are the source's loops.
 */
module OctalCodec {

  type Byte = n: nat | n < 256

  const BACKSLASH := '\\'
  const CR := '\r'
  const QUESTION: Byte := 0x3f

  /** Storing into a byte array. */
  function Low(c: nat): Byte {
    c % 256
  }

  function Code(c: char): nat {
    c as int
  }

  function SkipCr(s: string): (r: string)
    ensures |r| <= |s| && r == s[|s| - |r|..]
  {
    if s != "" && s[0] == CR then SkipCr(s[1..]) else s
  }

  predicate IsOctal(c: char) {
    '0' <= c <= '7'
  }

  /** Read the rest of an escape after `got` digits: its value and the text that follows. */
  function Escape(s: string, got: nat, acc: nat): (r: (Byte, string))
    requires got < 3
    ensures |r.1| <= |s|
    decreases 3 - got
  {
    var t := SkipCr(s);
    if t == "" || !IsOctal(t[0]) then (QUESTION, t)
    else
      var c := acc * 8 + (t[0] as int - '0' as int);
      if got == 2 then (Low(c), t[1..]) else Escape(t[1..], got + 1, c)
  }

  function Decode(s: string): (r: seq<Byte>)
    ensures |r| <= |s|
    decreases |s|
  {
    if s == "" then []
    else if Code(s[0]) < 0x20 then Decode(s[1..])
    else if s[0] == BACKSLASH then
      var (b, rest) := Escape(s[1..], 0, 0);
      [b] + Decode(rest)
    else [Low(Code(s[0]))] + Decode(s[1..])
  }

  function OctalDigit(d: nat): char
    requires d < 8
  {
    '0' + d as char
  }

  function EncodeByte(b: Byte): string {
    if b < 0x20 || b == 0x5c then [BACKSLASH, OctalDigit(b / 64), OctalDigit(b / 8 % 8), OctalDigit(b % 8)]
    else [b as char]
  }

  function Encode(bytes: seq<Byte>): string {
    if bytes == [] then "" else Encode(bytes[..|bytes| - 1]) + EncodeByte(bytes[|bytes| - 1])
  }

  // ---------------------------------------------------------------------------------------
  // Round trip
  // ---------------------------------------------------------------------------------------

  /** One digit of an escape, not preceded by noise. */
  lemma EscapeDigit(d: nat, rest: string, got: nat, acc: nat)
    requires got < 3 && d < 8
    ensures var c := acc * 8 + d;
            Escape([OctalDigit(d)] + rest, got, acc) == if got == 2 then (Low(c), rest) else Escape(rest, got + 1, c)
  {
    var s := [OctalDigit(d)] + rest;
    assert SkipCr(s) == s && s[1..] == rest;
  }

  lemma OctalDigits(b: Byte)
    ensures b / 64 < 8 && b / 8 % 8 < 8 && b % 8 < 8
    ensures (b / 64 * 8 + b / 8 % 8) * 8 + b % 8 == b
  {
  }

  lemma EscapeThree(d0: nat, d1: nat, d2: nat, rest: string)
    requires d0 < 8 && d1 < 8 && d2 < 8
    ensures Escape([OctalDigit(d0)] + ([OctalDigit(d1)] + ([OctalDigit(d2)] + rest)), 0, 0) == (Low((d0 * 8 + d1) * 8 + d2), rest)
  {
    hide Escape, Low;
    EscapeDigit(d2, rest, 2, d0 * 8 + d1);
    EscapeDigit(d1, [OctalDigit(d2)] + rest, 1, d0);
    EscapeDigit(d0, [OctalDigit(d1)] + ([OctalDigit(d2)] + rest), 0, 0);
  }

  /** One turn of the decoder's loop. */
  lemma DecodeStep(encoded: string, i: nat)
    requires i < |encoded|
    ensures var rest := encoded[i + 1..];
            Decode(encoded[i..])
            == if Code(encoded[i]) < 0x20 then Decode(rest)
               else if encoded[i] == BACKSLASH then [Escape(rest, 0, 0).0] + Decode(Escape(rest, 0, 0).1)
               else [Low(Code(encoded[i]))] + Decode(rest)
  {
    hide Escape;
    assert encoded[i..][0] == encoded[i] && encoded[i..][1..] == encoded[i + 1..];
  }

  lemma DecodeEscaped(d0: nat, d1: nat, d2: nat, rest: string)
    requires d0 < 8 && d1 < 8 && d2 < 8
    ensures Decode([BACKSLASH, OctalDigit(d0), OctalDigit(d1), OctalDigit(d2)] + rest)
            == [Low((d0 * 8 + d1) * 8 + d2)] + Decode(rest)
  {
    hide Escape, Decode, Low, OctalDigit;
    var s := [BACKSLASH, OctalDigit(d0), OctalDigit(d1), OctalDigit(d2)] + rest;
    assert s[0..] == s;
    DecodeStep(s, 0);
    assert s[1..] == [OctalDigit(d0)] + ([OctalDigit(d1)] + ([OctalDigit(d2)] + rest));
    EscapeThree(d0, d1, d2, rest);
  }

  /** A backslash and any three octal digits are the byte they spell, on eight bits. */
  lemma DecodeOctal(a: char, b: char, c: char, rest: string)
    requires '0' <= a <= '7' && '0' <= b <= '7' && '0' <= c <= '7'
    ensures Decode(['\\', a, b, c] + rest)
            == [((a as int - 48) * 64 + (b as int - 48) * 8 + (c as int - 48)) % 256] + Decode(rest)
  {
    hide Decode, Escape;
    var d0, d1, d2 := a as int - 48, b as int - 48, c as int - 48;
    assert OctalDigit(d0) == a && OctalDigit(d1) == b && OctalDigit(d2) == c;
    DecodeEscaped(d0, d1, d2, rest);
  }

  /** An escape cut short, by the end or by a character that is no octal digit nor carriage return, is a question mark; the text goes on there. */
  lemma DecodeCutShort(digits: string, rest: string)
    requires |digits| < 3 && forall d <- digits :: '0' <= d <= '7'
    requires rest != "" ==> !('0' <= rest[0] <= '7') && rest[0] != '\r'
    ensures Decode(['\\'] + (digits + rest)) == [0x3f] + Decode(rest)
  {
    hide Decode, Escape;
    var s := ['\\'] + (digits + rest);
    assert s[0..] == s && s[1..] == digits + rest;
    DecodeStep(s, 0);
    CutShort(digits, rest, 0, 0);
  }

  lemma {:induction false} CutShort(digits: string, rest: string, got: nat, acc: nat)
    requires got + |digits| < 3 && forall d <- digits :: '0' <= d <= '7'
    requires rest != "" ==> !('0' <= rest[0] <= '7') && rest[0] != '\r'
    ensures Escape(digits + rest, got, acc) == (QUESTION, rest)
    decreases |digits|
  {
    hide Escape;
    if digits == "" {
      assert digits + rest == rest;
      EscapeStops(rest, got, acc);
    } else {
      var d := digits[0] as int - 48;
      assert digits[0] in digits && OctalDigit(d) == digits[0];
      assert digits + rest == [OctalDigit(d)] + (digits[1..] + rest);
      assert forall x <- digits[1..] :: x in digits;
      CutShort(digits[1..], rest, got + 1, acc * 8 + d);
      EscapeDigit(d, digits[1..] + rest, got, acc);
    }
  }

  lemma EscapeStops(rest: string, got: nat, acc: nat)
    requires got < 3 && (rest != "" ==> !('0' <= rest[0] <= '7') && rest[0] != '\r')
    ensures Escape(rest, got, acc) == (QUESTION, rest)
  {
  }

  /** Control characters are skipped. */
  lemma DecodeControl(c: char, rest: string)
    requires c as int < 0x20
    ensures Decode([c] + rest) == Decode(rest)
  {
    assert ([c] + rest)[1..] == rest;
  }

  lemma DecodePlain(c: char, rest: string)
    requires Code(c) >= 0x20 && c != BACKSLASH
    ensures Decode([c] + rest) == [Low(Code(c))] + Decode(rest)
  {
    hide Escape, Decode, Low;
    var s := [c] + rest;
    assert s[0..] == s && s[1..] == rest;
    DecodeStep(s, 0);
  }

  lemma DecodeOne(b: Byte, rest: string)
    ensures Decode(EncodeByte(b) + rest) == [b] + Decode(rest)
  {
    hide Escape, Decode, OctalDigit, IsOctal, SkipCr;
    OctalDigits(b);
    if b < 0x20 || b == 0x5c {
      DecodeEscaped(b / 64, b / 8 % 8, b % 8, rest);
    } else {
      DecodePlain(b as char, rest);
    }
  }

  lemma {:induction false} DecodeEncodeThen(bytes: seq<Byte>, rest: string)
    ensures Decode(Encode(bytes) + rest) == bytes + Decode(rest)
  {
    if bytes == [] {
      assert "" + rest == rest;
    } else {
      var n := |bytes| - 1;
      var last := EncodeByte(bytes[n]);
      assert Encode(bytes) + rest == Encode(bytes[..n]) + (last + rest);
      DecodeEncodeThen(bytes[..n], last + rest);
      DecodeOne(bytes[n], rest);
      assert bytes == bytes[..n] + [bytes[n]];
    }
  }

  /** Decoding what was encoded gives the bytes back, for every byte string. */
  lemma DecodeEncode(bytes: seq<Byte>)
    ensures Decode(Encode(bytes)) == bytes
  {
    DecodeEncodeThen(bytes, "");
    assert Encode(bytes) + "" == Encode(bytes);
  }

  /** An encoded payload holds no control character. */
  lemma {:induction false} EncodeHasNoControls(bytes: seq<Byte>)
    ensures forall c <- Encode(bytes) :: 0x20 <= Code(c) < 256
  {
    if bytes != [] {
      EncodeHasNoControls(bytes[..|bytes| - 1]);
    }
  }

  // ---------------------------------------------------------------------------------------
  // Line-driver noise
  // ---------------------------------------------------------------------------------------

  function WithoutCr(s: string): (r: string)
    ensures CR !in r
  {
    if s == "" then "" else (if s[0] == CR then "" else [s[0]]) + WithoutCr(s[1..])
  }

  lemma {:induction false} SkipCrThenClean(s: string)
    ensures WithoutCr(SkipCr(s)) == WithoutCr(s)
    ensures SkipCr(WithoutCr(s)) == WithoutCr(s)
    ensures SkipCr(s) != "" ==> WithoutCr(s) == [SkipCr(s)[0]] + WithoutCr(SkipCr(s)[1..])
    ensures SkipCr(s) == "" ==> WithoutCr(s) == ""
  {
    if s != "" {
      if s[0] == CR {
        SkipCrThenClean(s[1..]);
      } else {
        assert WithoutCr(s)[0] == s[0];
      }
    }
  }

  /** One unfolding of `Escape`, past the noise. */
  lemma EscapeStep(s: string, t: string, got: nat, acc: nat)
    requires got < 3 && t == SkipCr(s)
    ensures Escape(s, got, acc)
            == if t == "" || !IsOctal(t[0]) then (QUESTION, t)
               else (var c := acc * 8 + (t[0] as int - '0' as int);
                     if got == 2 then (Low(c), t[1..]) else Escape(t[1..], got + 1, c))
  {
    hide SkipCr;
  }

  lemma {:induction false} EscapeIgnoresCr(s: string, got: nat, acc: nat)
    requires got < 3
    ensures Escape(WithoutCr(s), got, acc) == (Escape(s, got, acc).0, WithoutCr(Escape(s, got, acc).1))
    decreases 3 - got
  {
    hide Escape;
    SkipCrThenClean(s);
    var t := SkipCr(s);
    var u := WithoutCr(s);
    hide WithoutCr, SkipCr;
    EscapeStep(s, t, got, acc);
    EscapeStep(u, u, got, acc);
    if t != "" {
      assert u[0] == t[0] && u[1..] == WithoutCr(t[1..]);
      if IsOctal(t[0]) && got < 2 {
        EscapeIgnoresCr(t[1..], got + 1, acc * 8 + (t[0] as int - '0' as int));
      }
    }
  }

  /** Carriage returns anywhere in the payload change nothing, escapes and malformed escapes included. */
  lemma {:induction false} DecodeIgnoresCr(s: string)
    ensures Decode(s) == Decode(WithoutCr(s))
    decreases |s|
  {
    if s != "" {
      var u := WithoutCr(s);
      if s[0] == CR {
        assert u == WithoutCr(s[1..]);
        DecodeIgnoresCr(s[1..]);
      } else {
        assert u[0] == s[0] && u[1..] == WithoutCr(s[1..]);
        if s[0] == BACKSLASH {
          EscapeIgnoresCr(s[1..], 0, 0);
          DecodeIgnoresCr(Escape(s[1..], 0, 0).1);
        } else {
          DecodeIgnoresCr(s[1..]);
        }
      }
    }
  }

  // ---------------------------------------------------------------------------------------
  // The loops
  // ---------------------------------------------------------------------------------------

  lemma OneMoreWritten(written: seq<Byte>, b: Byte, rest: seq<Byte>)
    ensures written + ([b] + rest) == (written + [b]) + rest
  {
  }

  /** The decoder's loop: one index into the text, one into a buffer as long as the text. */
  method DecodeOctalEscapes(encoded: string) returns (bytes: seq<Byte>)
    ensures bytes == Decode(encoded)
  {
    hide Escape, Decode, Low;
    var len := |encoded|;
    var result := new Byte[len];
    var writePos := 0;
    var i := 0;
    assert encoded[0..] == encoded;
    while i < len
      invariant 0 <= writePos <= i <= len
      invariant Decode(encoded) == result[..writePos] + Decode(encoded[i..])
      decreases len - i
    {
      DecodeStep(encoded, i);
      ghost var written := result[..writePos];
      var c := Code(encoded[i]);
      if c < 0x20 {
        i := i + 1;
        continue;
      }
      if encoded[i] == BACKSLASH {
        c, i := ReadEscape(encoded, i);
      }
      result[writePos] := Low(c);
      assert result[..writePos + 1] == written + [Low(c)];
      OneMoreWritten(written, Low(c), Decode(encoded[i + 1..]));
      writePos := writePos + 1;
      i := i + 1;
    }
    DecodeNothing(encoded[len..]);
    bytes := result[..writePos];
  }

  lemma DecodeNothing(s: string)
    requires s == ""
    ensures Decode(s) == []
  {
  }

  /** What the escape comes to after `j` digits, the last of them at `i`. */
  ghost function After(encoded: string, i: nat, j: nat, c: nat): (Byte, string)
    requires i < |encoded| && j <= 3
  {
    if j == 3 then (Low(c), encoded[i + 1..]) else Escape(encoded[i + 1..], j, c)
  }

  lemma AfterStep(encoded: string, i: nat, j: nat, c: nat, next: nat)
    requires i < |encoded| && j < 3 && i < next <= |encoded| && encoded[next..] == SkipCr(encoded[i + 1..])
    ensures After(encoded, i, j, c)
            == if next == |encoded| || !IsOctal(encoded[next]) then (QUESTION, encoded[next..])
               else After(encoded, next, j + 1, c * 8 + (encoded[next] as int - '0' as int))
  {
    hide Escape;
    EscapeStep(encoded[i + 1..], encoded[next..], j, c);
    if next < |encoded| {
      assert encoded[next..][0] == encoded[next] && encoded[next..][1..] == encoded[next + 1..];
    }
  }

  /** One turn of the inner loop; on a malformed escape it backs up by one. */
  method ReadDigit(encoded: string, last: nat, j: nat, acc: nat) returns (ok: bool, c: nat, i: nat)
    requires last < |encoded| && j < 3
    ensures last <= i < |encoded|
    ensures After(encoded, last, j, acc) == if ok then After(encoded, i, j + 1, c) else After(encoded, i, 3, c)
  {
    hide SkipCr, Escape;
    i := PastCr(encoded, last + 1);
    AfterStep(encoded, last, j, acc, i);
    if i == |encoded| || !IsOctal(encoded[i]) {
      ok, c, i := false, QUESTION, i - 1;
    } else {
      ok, c := true, acc * 8 + (encoded[i] as int - '0' as int);
    }
  }

  /** The inner loop over three digits. */
  method ReadEscape(encoded: string, start: nat) returns (c: nat, i: nat)
    requires start < |encoded| && encoded[start] == BACKSLASH
    ensures start <= i < |encoded|
    ensures (Low(c), encoded[i + 1..]) == Escape(encoded[start + 1..], 0, 0)
  {
    hide *;
    c, i := 0, start;
    ghost var whole := After(encoded, start, 0, 0);
    AfterNone(encoded, start);
    for j := 0 to 3
      invariant start <= i < |encoded|
      invariant whole == After(encoded, i, j, c)
    {
      var ok;
      ok, c, i := ReadDigit(encoded, i, j, c);
      if !ok {
        AfterAll(encoded, i, c);
        return;
      }
    }
    AfterAll(encoded, i, c);
  }

  lemma AfterNone(encoded: string, start: nat)
    requires start < |encoded|
    ensures After(encoded, start, 0, 0) == Escape(encoded[start + 1..], 0, 0)
  {
    hide Escape;
  }

  lemma AfterAll(encoded: string, i: nat, c: nat)
    requires i < |encoded|
    ensures After(encoded, i, 3, c) == (Low(c), encoded[i + 1..])
  {
  }

  method PastCr(encoded: string, start: nat) returns (i: nat)
    requires start <= |encoded|
    ensures start <= i <= |encoded|
    ensures encoded[i..] == SkipCr(encoded[start..])
  {
    i := start;
    while i < |encoded| && encoded[i] == CR
      invariant start <= i <= |encoded|
      invariant SkipCr(encoded[i..]) == SkipCr(encoded[start..])
    {
      assert encoded[i..][1..] == encoded[i + 1..];
      i := i + 1;
    }
  }

  method EncodeOctalEscapes(bytes: seq<Byte>) returns (out: string)
    ensures out == Encode(bytes)
  {
    out := "";
    for i := 0 to |bytes|
      invariant out == Encode(bytes[..i])
    {
      var byte := bytes[i];
      assert bytes[..i + 1][..i] == bytes[..i];
      if byte < 0x20 || byte == 0x5c {
        out := out + [BACKSLASH, OctalDigit(byte / 64), OctalDigit(byte / 8 % 8), OctalDigit(byte % 8)];
      } else {
        out := out + [byte as char];
      }
    }
    assert bytes[..|bytes|] == bytes;
  }
}
