/** Base64 as the push key conversion needs it: the alphabets of sections 4
    and 5 of RFC 4648, an encoder used as the reference, and the decoder
    behind `window.atob` (the "forgiving-base64 decode" of the WHATWG Infra
    standard), over strings whose characters are byte values. */
module Base64 {
  import opened Types

  type Byte = b: int | 0 <= b < 256
  type Sextet = v: int | 0 <= v < 64

  /** The digit of `v` in the base64 alphabet (section 4 of RFC 4648). */
  function StdChar(v: Sextet): char
  {
    if v < 26 then ('A' as int + v) as char
    else if v < 52 then ('a' as int + (v - 26)) as char
    else if v < 62 then ('0' as int + (v - 52)) as char
    else if v == 62 then '+'
    else '/'
  }

  predicate IsStdChar(c: char)
  {
    'A' <= c <= 'Z' || 'a' <= c <= 'z' || '0' <= c <= '9' || c == '+' || c == '/'
  }

  predicate AllStd(s: string)
  {
    forall i :: 0 <= i < |s| ==> IsStdChar(s[i])
  }

  /** The value of a base64 digit. */
  function StdValue(c: char): (v: Sextet)
    requires IsStdChar(c)
    ensures StdChar(v) == c
  {
    if 'A' <= c <= 'Z' then c as int - 'A' as int
    else if 'a' <= c <= 'z' then c as int - 'a' as int + 26
    else if '0' <= c <= '9' then c as int - '0' as int + 52
    else if c == '+' then 62
    else 63
  }

  lemma StdCharValue(v: Sextet)
    ensures IsStdChar(StdChar(v)) && StdValue(StdChar(v)) == v
  {
  }

  // ---------------------------------------------------------------------
  // Encoding (the reference)

  /** Three bytes as four digits. */
  function Quad(x: Byte, y: Byte, z: Byte): string
  {
    [StdChar(x / 4), StdChar((x % 4) * 16 + y / 16), StdChar((y % 16) * 4 + z / 64), StdChar(z % 64)]
  }

  /** The base64 digits of `b` without padding: four digits per three bytes,
      and two or three digits for a final group of one or two bytes. */
  function EncodeDigits(b: seq<Byte>): (r: string)
    ensures AllStd(r)
    ensures |r| == 4 * (|b| / 3) + (if |b| % 3 == 0 then 0 else |b| % 3 + 1)
    decreases |b|
  {
    if |b| >= 3 then
      var rest := EncodeDigits(b[3..]);
      assert |b[3..]| / 3 == |b| / 3 - 1 && |b[3..]| % 3 == |b| % 3;
      forall v: Sextet ensures IsStdChar(StdChar(v)) { StdCharValue(v); }
      Quad(b[0], b[1], b[2]) + rest
    else if |b| == 2 then
      [StdChar(b[0] / 4), StdChar((b[0] % 4) * 16 + b[1] / 16), StdChar((b[1] % 16) * 4)]
    else if |b| == 1 then
      [StdChar(b[0] / 4), StdChar((b[0] % 4) * 16)]
    else []
  }

  function Pad(n: nat): (r: string)
    ensures |r| == n && forall i :: 0 <= i < n ==> r[i] == '='
  {
    if n == 0 then "" else "=" + Pad(n - 1)
  }

  /** Base64 with padding (section 4 of RFC 4648). */
  function Encode(b: seq<Byte>): string
  {
    EncodeDigits(b) + Pad(if |b| % 3 == 0 then 0 else 3 - |b| % 3)
  }

  /** Replaces every `from` in `s` by `to`: `s.replace(/from/g, to)`. */
  function ReplaceAll(s: string, from: char, to: char): (r: string)
    ensures |r| == |s|
    ensures forall i :: 0 <= i < |s| ==> r[i] == if s[i] == from then to else s[i]
  {
    seq(|s|, i requires 0 <= i < |s| => if s[i] == from then to else s[i])
  }

  /** From the URL and filename safe alphabet (section 5) to the base64
      alphabet (section 4): `-` becomes `+` and `_` becomes `/`. */
  function ToStandard(s: string): string
  {
    ReplaceAll(ReplaceAll(s, '-', '+'), '_', '/')
  }

  /** From the base64 alphabet to the URL and filename safe alphabet. */
  function ToUrlSafe(s: string): string
  {
    ReplaceAll(ReplaceAll(s, '+', '-'), '/', '_')
  }

  lemma ReplaceAllConcat(a: string, b: string, from: char, to: char)
    ensures ReplaceAll(a + b, from, to) == ReplaceAll(a, from, to) + ReplaceAll(b, from, to)
  {
    var l, r := ReplaceAll(a + b, from, to), ReplaceAll(a, from, to) + ReplaceAll(b, from, to);
    forall i | 0 <= i < |l| ensures l[i] == r[i] {
      if i < |a| { assert (a + b)[i] == a[i]; } else { assert (a + b)[i] == b[i - |a|]; }
    }
  }

  /** `ToStandard` works character by character. */
  lemma ToStandardConcat(a: string, b: string)
    ensures ToStandard(a + b) == ToStandard(a) + ToStandard(b)
  {
    ReplaceAllConcat(a, b, '-', '+');
    ReplaceAllConcat(ReplaceAll(a, '-', '+'), ReplaceAll(b, '-', '+'), '_', '/');
  }

  /** Padding is the same in both alphabets. */
  lemma ToStandardOfPad(n: nat)
    ensures ToStandard(Pad(n)) == Pad(n)
  {
    var p := Pad(n);
    var t := ToStandard(p);
    forall i | 0 <= i < n ensures t[i] == p[i] {
      assert ReplaceAll(p, '-', '+')[i] == '=';
    }
  }

  /** The two alphabets differ only in their last two digits, so mapping
      base64 digits to the safe alphabet and back changes nothing. */
  lemma StandardOfUrlSafe(s: string)
    requires AllStd(s)
    ensures ToStandard(ToUrlSafe(s)) == s
  {
    var u1 := ReplaceAll(s, '+', '-');
    var u := ReplaceAll(u1, '/', '_');
    var t1 := ReplaceAll(u, '-', '+');
    var t := ReplaceAll(t1, '_', '/');
    forall i | 0 <= i < |s| ensures t[i] == s[i] {
      assert IsStdChar(s[i]);
    }
  }

  /** Base64url without padding (sections 5 and 3.2 of RFC 4648): the form in
      which servers publish their application server key. */
  function UrlEncode(b: seq<Byte>): string
  {
    ToUrlSafe(EncodeDigits(b))
  }

  // ---------------------------------------------------------------------
  // Decoding: window.atob

  /** The characters of a binary string: one per byte. */
  function BinaryString(b: seq<Byte>): (r: string)
    ensures |r| == |b| && forall i :: 0 <= i < |b| ==> r[i] as int == b[i]
  {
    seq(|b|, i requires 0 <= i < |b| => b[i] as char)
  }

  /** ASCII white space, which `atob` ignores. */
  predicate IsAsciiSpace(c: char)
  {
    c == '\t' || c == '\n' || c == '\U{000C}' || c == '\r' || c == ' '
  }

  function StripAsciiSpace(s: string): (r: string)
    ensures |r| <= |s|
    ensures (forall i :: 0 <= i < |s| ==> !IsAsciiSpace(s[i])) ==> r == s
  {
    if s == [] then []
    else if IsAsciiSpace(s[0]) then StripAsciiSpace(s[1..])
    else [s[0]] + StripAsciiSpace(s[1..])
  }

  /** The three bytes held by four digit values. */
  function Group(a: Sextet, b: Sextet, c: Sextet, e: Sextet): seq<Byte>
  {
    [a * 4 + b / 16, (b % 16) * 16 + c / 4, (c % 4) * 64 + e]
  }

  /** The bytes of a run of digits whose length is not 1 more than a multiple
      of 4: three bytes per four digits; a final two or three digits give one
      or two bytes, and their left-over bits are dropped. */
  function DecodeDigits(d: string): (r: seq<Byte>)
    requires AllStd(d) && |d| % 4 != 1
    decreases |d|
  {
    if |d| >= 4 then
      Group(StdValue(d[0]), StdValue(d[1]), StdValue(d[2]), StdValue(d[3])) + DecodeDigits(d[4..])
    else if |d| == 3 then
      var a, b, c := StdValue(d[0]), StdValue(d[1]), StdValue(d[2]);
      [a * 4 + b / 16, (b % 16) * 16 + c / 4]
    else if |d| == 2 then
      var a, b := StdValue(d[0]), StdValue(d[1]);
      [a * 4 + b / 16]
    else []
  }

  /** Drops one or two trailing `=` when the length is a multiple of 4. */
  function DropPadding(d: string): string
  {
    if |d| % 4 == 0 && |d| >= 2 && d[|d| - 2] == '=' && d[|d| - 1] == '=' then d[..|d| - 2]
    else if |d| % 4 == 0 && |d| >= 1 && d[|d| - 1] == '=' then d[..|d| - 1]
    else d
  }

  /** `window.atob(s)`: the binary string decoded from `s`, or None where
      `atob` throws. */
  function Atob(s: string): (r: Option<string>)
    ensures r.Some? ==> forall i :: 0 <= i < |r.value| ==> r.value[i] as int < 256
  {
    var d := DropPadding(StripAsciiSpace(s));
    if |d| % 4 == 1 || !AllStd(d) then None
    else Some(BinaryString(DecodeDigits(d)))
  }

  /** `atob` throws for every input whose length, once ASCII white space is
      removed, leaves a remainder of 1 modulo 4: no padding is dropped from
      such input, so a lone digit is left over. */
  lemma AtobRejectsLoneDigit(s: string)
    requires |StripAsciiSpace(s)| % 4 == 1
    ensures Atob(s) == None
  {
  }

  // ---------------------------------------------------------------------
  // Round trips

  /** Splitting a byte pair at bit 4 of the second byte and joining it back. */
  lemma SplitHigh(x: Byte, y: Byte)
    ensures var b := (x % 4) * 16 + y / 16; 0 <= b < 64 && b / 16 == x % 4 && b % 16 == y / 16
  {
  }

  /** Splitting a byte pair at bit 6 of the second byte and joining it back. */
  lemma SplitLow(y: Byte, z: Byte)
    ensures var c := (y % 16) * 4 + z / 64; 0 <= c < 64 && c / 4 == y % 16 && c % 4 == z / 64
  {
  }

  /** The three bytes of a group are recovered from its four digit values. */
  lemma GroupOfQuadValues(x: Byte, y: Byte, z: Byte)
    ensures Group(x / 4, (x % 4) * 16 + y / 16, (y % 16) * 4 + z / 64, z % 64) == [x, y, z]
  {
    SplitHigh(x, y);
    SplitLow(y, z);
  }

  /** Four digits are base64 digits and read back as their values. */
  lemma DigitsOfValues(a: Sextet, b: Sextet, c: Sextet, e: Sextet)
    ensures var q := [StdChar(a), StdChar(b), StdChar(c), StdChar(e)];
      AllStd(q) && StdValue(q[0]) == a && StdValue(q[1]) == b && StdValue(q[2]) == c && StdValue(q[3]) == e
  {
    StdCharValue(a);
    StdCharValue(b);
    StdCharValue(c);
    StdCharValue(e);
  }

  /** One group of three bytes survives encoding and decoding. */
  lemma QuadRoundTrip(x: Byte, y: Byte, z: Byte)
    ensures var q := Quad(x, y, z);
      AllStd(q) && Group(StdValue(q[0]), StdValue(q[1]), StdValue(q[2]), StdValue(q[3])) == [x, y, z]
  {
    SplitHigh(x, y);
    SplitLow(y, z);
    var a: Sextet, b: Sextet, c: Sextet, e: Sextet := x / 4, (x % 4) * 16 + y / 16, (y % 16) * 4 + z / 64, z % 64;
    DigitsOfValues(a, b, c, e);
    GroupOfQuadValues(x, y, z);
  }

  /** A final pair of bytes survives encoding and decoding. */
  lemma PairRoundTrip(x: Byte, y: Byte)
    ensures var d := EncodeDigits([x, y]);
      AllStd(d) && |d| == 3 && DecodeDigits(d) == [x, y]
  {
    var b := (x % 4) * 16 + y / 16;
    SplitHigh(x, y);
    StdCharValue(x / 4);
    StdCharValue(b);
    StdCharValue((y % 16) * 4);
  }

  /** A final single byte survives encoding and decoding. */
  lemma SingleRoundTrip(x: Byte)
    ensures var d := EncodeDigits([x]);
      AllStd(d) && |d| == 2 && DecodeDigits(d) == [x]
  {
    StdCharValue(x / 4);
    StdCharValue((x % 4) * 16);
  }

  /** Decoding reads the digits four at a time. */
  lemma DecodeDigitsGroup(q: string, rest: string)
    requires |q| == 4 && AllStd(q) && AllStd(rest) && |rest| % 4 != 1
    ensures AllStd(q + rest) && |q + rest| % 4 != 1
    ensures DecodeDigits(q + rest)
         == Group(StdValue(q[0]), StdValue(q[1]), StdValue(q[2]), StdValue(q[3])) + DecodeDigits(rest)
  {
    var d := q + rest;
    assert d[..4] == q && d[4..] == rest;
  }

  /** Decoding the digits of `b` gives `b` back. */
  lemma {:induction false} DecodeEncodeDigits(b: seq<Byte>)
    ensures |EncodeDigits(b)| % 4 != 1
    ensures DecodeDigits(EncodeDigits(b)) == b
    decreases |b|
  {
    if |b| >= 3 {
      DecodeEncodeDigits(b[3..]);
      QuadRoundTrip(b[0], b[1], b[2]);
      DecodeDigitsGroup(Quad(b[0], b[1], b[2]), EncodeDigits(b[3..]));
      assert b == [b[0], b[1], b[2]] + b[3..];
    } else if |b| == 2 {
      assert b == [b[0], b[1]];
      PairRoundTrip(b[0], b[1]);
    } else if |b| == 1 {
      assert b == [b[0]];
      SingleRoundTrip(b[0]);
    }
  }

  /** Base64 digits followed by at most two `=` up to a multiple of four
      characters hold no white space and lose exactly the `=` to `DropPadding`. */
  lemma DropPaddingOfPadded(d: string, n: nat)
    requires AllStd(d) && n <= 2 && (|d| + n) % 4 == 0 && (n > 0 ==> |d| >= 1)
    ensures forall i :: 0 <= i < |d + Pad(n)| ==> !IsAsciiSpace((d + Pad(n))[i])
    ensures DropPadding(d + Pad(n)) == d
  {
    var e := d + Pad(n);
    forall i | 0 <= i < |e| ensures !IsAsciiSpace(e[i]) {
      if i < |d| { assert e[i] == d[i] && IsStdChar(d[i]); } else { assert e[i] == '='; }
    }
    if n == 0 {
      assert e == d;
      if |e| >= 1 { assert IsStdChar(e[|e| - 1]); }
    } else if n == 1 {
      assert e[|e| - 1] == '=';
      assert e[|e| - 2] == d[|d| - 1] && IsStdChar(d[|d| - 1]);
      assert e[..|e| - 1] == d;
    } else {
      assert e[|e| - 2] == '=' && e[|e| - 1] == '=';
      assert e[..|e| - 2] == d;
    }
  }

  /** A padded encoding has no white space and loses exactly its padding to
      `DropPadding`. */
  lemma DropPaddingOfEncode(b: seq<Byte>)
    ensures forall i :: 0 <= i < |Encode(b)| ==> !IsAsciiSpace(Encode(b)[i])
    ensures DropPadding(Encode(b)) == EncodeDigits(b)
  {
    var d := EncodeDigits(b);
    var q, m := |b| / 3, |b| % 3;
    var n := if m == 0 then 0 else 3 - m;
    assert |d| == 4 * q + (if m == 0 then 0 else m + 1);
    assert |d| + n == 4 * q + (if m == 0 then 0 else 4);
    DropPaddingOfPadded(d, n);
  }

  /** `atob` decodes every padded base64 encoding to its bytes. */
  lemma AtobEncode(b: seq<Byte>)
    ensures Atob(Encode(b)) == Some(BinaryString(b))
  {
    DropPaddingOfEncode(b);
    assert StripAsciiSpace(Encode(b)) == Encode(b);
    DecodeEncodeDigits(b);
  }
}
