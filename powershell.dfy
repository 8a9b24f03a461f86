/**
 * Argument quoting for generated PowerShell scripts.
 *
 * src/powershell.ts passes every string argument as an expression that decodes a Base64
 * literal: the value is encoded as UTF-8 (RFC 3629), the bytes are encoded as Base64
 * (section 4 of RFC 4648, with padding), and the result is wrapped as
 * `([System.Text.Encoding]::UTF8.GetString([System.Convert]::FromBase64String('<B>')))`.
 * main.ts uses an older scheme: a double-quoted literal with every `"` doubled.
 */
module PowerShell {
  import opened Js

  type Byte = b: int | 0 <= b < 256

  // ---------------------------------------------------------------- UTF-8 (RFC 3629)

  /** The UTF-8 bytes of one Unicode scalar value. */
  function EncodeChar(c: char): (r: seq<Byte>)
    ensures 1 <= |r| <= 4
  {
    var v := c as int;
    if v < 0x80 then [v]
    else if v < 0x800 then [0xC0 + v / 64, 0x80 + v % 64]
    else if v < 0x10000 then [0xE0 + v / 4096, 0x80 + (v / 64) % 64, 0x80 + v % 64]
    else [0xF0 + v / 262144, 0x80 + (v / 4096) % 64, 0x80 + (v / 64) % 64, 0x80 + v % 64]
  }

  /** TextEncoder.encode: the concatenated UTF-8 bytes of the characters. */
  function Utf8Encode(s: string): seq<Byte>
  {
    if s == [] then [] else EncodeChar(s[0]) + Utf8Encode(s[1..])
  }

  predicate IsContinuation(b: Byte) { 0x80 <= b < 0xC0 }

  /** Reads one well-formed UTF-8 sequence from the front of `bs`: the character and the
      number of bytes it used, or None for a malformed, overlong or surrogate sequence. */
  function DecodeChar(bs: seq<Byte>): (r: Option<(char, nat)>)
    ensures r.Some? ==> 1 <= r.value.1 <= |bs|
  {
    if bs == [] then None
    else
    var b0: int := bs[0];
    if b0 < 0x80 then Some((b0 as char, 1))
    else if 0xC0 <= b0 < 0xE0 then
      if |bs| < 2 || !IsContinuation(bs[1]) then None
      else
        var v := (b0 - 0xC0) * 64 + (bs[1] as int - 0x80);
        if v < 0x80 then None else Some((v as char, 2))
    else if 0xE0 <= b0 < 0xF0 then
      if |bs| < 3 || !IsContinuation(bs[1]) || !IsContinuation(bs[2]) then None
      else
        var v := (b0 - 0xE0) * 4096 + (bs[1] as int - 0x80) * 64 + (bs[2] as int - 0x80);
        if v < 0x800 || (0xD800 <= v < 0xE000) then None else Some((v as char, 3))
    else if 0xF0 <= b0 < 0xF8 then
      if |bs| < 4 || !IsContinuation(bs[1]) || !IsContinuation(bs[2]) || !IsContinuation(bs[3]) then None
      else
        var v := (b0 - 0xF0) * 262144 + (bs[1] as int - 0x80) * 4096 + (bs[2] as int - 0x80) * 64
                 + (bs[3] as int - 0x80);
        if v < 0x10000 || v > 0x10FFFF then None else Some((v as char, 4))
    else None
  }

  /** UTF8.GetString on well-formed input; None when the bytes are not well-formed UTF-8. */
  function Utf8Decode(bs: seq<Byte>): (r: Option<string>)
    decreases |bs|
  {
    if bs == [] then Some([])
    else match DecodeChar(bs)
      case None => None
      case Some((c, n)) =>
        match Utf8Decode(bs[n..])
        case None => None
        case Some(rest) => Some([c] + rest)
  }

  /** Decoding the bytes of one character, followed by anything, gives the character back
      and consumes exactly its bytes. */
  lemma DecodeEncodeChar(c: char, rest: seq<Byte>)
    ensures DecodeChar(EncodeChar(c) + rest) == Some((c, |EncodeChar(c)|))
  {
    var v := c as int;
    if v < 0x80 {
    } else if v < 0x800 {
      DecodeTwo(c, rest);
    } else if v < 0x10000 {
      DecodeThree(c, rest);
    } else {
      DecodeFour(c, rest);
    }
  }

  lemma DecodeTwo(c: char, rest: seq<Byte>)
    requires 0x80 <= c as int < 0x800
    ensures DecodeChar(EncodeChar(c) + rest) == Some((c, 2))
  {
    var v := c as int;
    var hi, lo := v / 64, v % 64;
    assert hi * 64 + lo == v && 2 <= hi < 32;
    var bs := EncodeChar(c) + rest;
    assert bs[0] == 0xC0 + hi && bs[1] == 0x80 + lo;
  }

  lemma DecodeThree(c: char, rest: seq<Byte>)
    requires 0x800 <= c as int < 0x10000
    ensures DecodeChar(EncodeChar(c) + rest) == Some((c, 3))
  {
    var v := c as int;
    var q := v / 64;
    var a, b, d := q / 64, q % 64, v % 64;
    assert q * 64 + d == v && a * 64 + b == q;
    assert v / 4096 == a;
    assert a * 4096 + b * 64 + d == v;
    var bs := EncodeChar(c) + rest;
    assert bs[0] == 0xE0 + a && bs[1] == 0x80 + b && bs[2] == 0x80 + d;
  }

  lemma DecodeFour(c: char, rest: seq<Byte>)
    requires 0x10000 <= c as int
    ensures DecodeChar(EncodeChar(c) + rest) == Some((c, 4))
  {
    var v := c as int;
    var q := v / 64;
    var p := q / 64;
    var a, b, e, d := p / 64, p % 64, q % 64, v % 64;
    assert q * 64 + d == v && p * 64 + e == q && a * 64 + b == p;
    assert v / 4096 == p;
    assert v / 262144 == a;
    assert a * 262144 + b * 4096 + e * 64 + d == v;
    var bs := EncodeChar(c) + rest;
    assert bs[0] == 0xF0 + a && bs[1] == 0x80 + b && bs[2] == 0x80 + e && bs[3] == 0x80 + d;
  }

  /** UTF-8 round trip: decoding the encoding of a string gives the string. */
  lemma {:induction false} Utf8RoundTrip(s: string)
    ensures Utf8Decode(Utf8Encode(s)) == Some(s)
  {
    if s != [] {
      var e := EncodeChar(s[0]);
      var tail := Utf8Encode(s[1..]);
      DecodeEncodeChar(s[0], tail);
      assert (e + tail)[|e|..] == tail;
      Utf8RoundTrip(s[1..]);
      assert [s[0]] + s[1..] == s;
    }
  }

  // ---------------------------------------------------------------- Base64 (RFC 4648, section 4)

  /** The value-to-character table of section 4 of RFC 4648. */
  function Base64Digit(d: int): (c: char)
    requires 0 <= d < 64
    ensures IsBase64Char(c)
  {
    if d < 26 then ('A' as int + d) as char
    else if d < 52 then ('a' as int + d - 26) as char
    else if d < 62 then ('0' as int + d - 52) as char
    else if d == 62 then '+' else '/'
  }

  predicate IsBase64Char(c: char) {
    'A' <= c <= 'Z' || 'a' <= c <= 'z' || '0' <= c <= '9' || c == '+' || c == '/'
  }

  /** The inverse of the table. */
  function Base64Value(c: char): (d: int)
    requires IsBase64Char(c)
    ensures 0 <= d < 64 && Base64Digit(d) == c
  {
    if 'A' <= c <= 'Z' then c as int - 'A' as int
    else if 'a' <= c <= 'z' then c as int - 'a' as int + 26
    else if '0' <= c <= '9' then c as int - '0' as int + 52
    else if c == '+' then 62 else 63
  }

  lemma Base64ValueOfDigit(d: int)
    requires 0 <= d < 64
    ensures Base64Value(Base64Digit(d)) == d
  {
  }

  /** One quantum of up to three bytes as four characters, padded with `=` (section 4). */
  function EncodeQuantum(bs: seq<Byte>): (r: string)
    requires 1 <= |bs| <= 3
    ensures |r| == 4
  {
    var b0 := bs[0];
    var b1 := if |bs| > 1 then bs[1] else 0;
    var b2 := if |bs| > 2 then bs[2] else 0;
    var d2 := if |bs| > 1 then Base64Digit((b1 % 16) * 4 + b2 / 64) else '=';
    var d3 := if |bs| > 2 then Base64Digit(b2 % 64) else '=';
    [Base64Digit(b0 / 4), Base64Digit((b0 % 4) * 16 + b1 / 16), d2, d3]
  }

  /** btoa over the bytes: the Base64 encoding of section 4 of RFC 4648. */
  function Base64Encode(bs: seq<Byte>): string
    decreases |bs|
  {
    if bs == [] then []
    else if |bs| <= 3 then EncodeQuantum(bs)
    else EncodeQuantum(bs[..3]) + Base64Encode(bs[3..])
  }

  /** [System.Convert]::FromBase64String on canonical input: None for text that is not a
      sequence of padded four-character quanta. */
  function Base64Decode(s: string): (r: Option<seq<Byte>>)
    decreases |s|
  {
    if s == [] then Some([])
    else if |s| < 4 then None
    else match DecodeQuantum(s[..4], |s| == 4)
      case None => None
      case Some(q) =>
        match Base64Decode(s[4..])
        case None => None
        case Some(rest) => Some(q + rest)
  }

  function DecodeQuantum(q: string, last: bool): (r: Option<seq<Byte>>)
    requires |q| == 4
  {
    if !IsBase64Char(q[0]) || !IsBase64Char(q[1]) then None
    else
      var c0 := Base64Value(q[0]);
      var c1 := Base64Value(q[1]);
      var b0 := c0 * 4 + c1 / 16;
      if q[2] == '=' then
        if last && q[3] == '=' && c1 % 16 == 0 then Some([b0]) else None
      else if !IsBase64Char(q[2]) then None
      else
        var c2 := Base64Value(q[2]);
        var b1 := (c1 % 16) * 16 + c2 / 4;
        if q[3] == '=' then
          if last && c2 % 4 == 0 then Some([b0, b1]) else None
        else if !IsBase64Char(q[3]) then None
        else
          var c3 := Base64Value(q[3]);
          Some([b0, b1, (c2 % 4) * 64 + c3])
  }

  /** The bit arithmetic of one quantum: the four 6-bit groups of three bytes give the
      bytes back, and zero bytes leave zero low bits in the group that pads them. */
  lemma QuantumBits(b0: int, b1: int, b2: int)
    requires 0 <= b0 < 256 && 0 <= b1 < 256 && 0 <= b2 < 256
    ensures 0 <= b0 / 4 < 64 && 0 <= (b0 % 4) * 16 + b1 / 16 < 64
    ensures 0 <= (b1 % 16) * 4 + b2 / 64 < 64 && 0 <= b2 % 64 < 64
    ensures (b0 / 4) * 4 + ((b0 % 4) * 16 + b1 / 16) / 16 == b0
    ensures (((b0 % 4) * 16 + b1 / 16) % 16) * 16 + ((b1 % 16) * 4 + b2 / 64) / 4 == b1
    ensures (((b1 % 16) * 4 + b2 / 64) % 4) * 64 + b2 % 64 == b2
    ensures b1 == 0 ==> ((b0 % 4) * 16 + b1 / 16) % 16 == 0
    ensures b2 == 0 ==> ((b1 % 16) * 4 + b2 / 64) % 4 == 0
  {
    assert ((b0 % 4) * 16 + b1 / 16) / 16 == b0 % 4;
    assert ((b0 % 4) * 16 + b1 / 16) % 16 == b1 / 16;
    assert ((b1 % 16) * 4 + b2 / 64) / 4 == b1 % 16;
    assert ((b1 % 16) * 4 + b2 / 64) % 4 == b2 / 64;
  }

  lemma DecodeEncodeQuantum(bs: seq<Byte>, last: bool)
    requires 1 <= |bs| <= 3
    requires |bs| < 3 ==> last
    ensures DecodeQuantum(EncodeQuantum(bs), last) == Some(bs)
  {
    if |bs| == 1 {
      DecodeOneByte(bs);
    } else if |bs| == 2 {
      DecodeTwoBytes(bs);
    } else {
      DecodeThreeBytes(bs, last);
    }
  }

  lemma DecodeOneByte(bs: seq<Byte>)
    requires |bs| == 1
    ensures DecodeQuantum(EncodeQuantum(bs), true) == Some(bs)
  {
    var b0: int := bs[0];
    QuantumBits(b0, 0, 0);
    var c0, c1 := b0 / 4, (b0 % 4) * 16;
    var q := EncodeQuantum(bs);
    assert q == [Base64Digit(c0), Base64Digit(c1), '=', '='];
    Base64ValueOfDigit(c0);
    Base64ValueOfDigit(c1);
    assert [b0] == bs;
  }

  lemma DecodeTwoBytes(bs: seq<Byte>)
    requires |bs| == 2
    ensures DecodeQuantum(EncodeQuantum(bs), true) == Some(bs)
  {
    var b0: int, b1: int := bs[0], bs[1];
    QuantumBits(b0, b1, 0);
    var c0, c1, c2 := b0 / 4, (b0 % 4) * 16 + b1 / 16, (b1 % 16) * 4;
    var q := EncodeQuantum(bs);
    assert q == [Base64Digit(c0), Base64Digit(c1), Base64Digit(c2), '='];
    Base64ValueOfDigit(c0);
    Base64ValueOfDigit(c1);
    Base64ValueOfDigit(c2);
    assert [b0, b1] == bs;
  }

  lemma DecodeThreeBytes(bs: seq<Byte>, last: bool)
    requires |bs| == 3
    ensures DecodeQuantum(EncodeQuantum(bs), last) == Some(bs)
  {
    var b0, b1, b2 := bs[0], bs[1], bs[2];
    var digits := [Base64Digit(b0 / 4), Base64Digit((b0 % 4) * 16 + b1 / 16),
                   Base64Digit((b1 % 16) * 4 + b2 / 64), Base64Digit(b2 % 64)];
    EncodeFullQuantum(bs);
    DecodeFullQuantum(b0, b1, b2, last);
    assert [b0, b1, b2] == bs;
    assert EncodeQuantum(bs) == digits;
  }

  lemma EncodeFullQuantum(bs: seq<Byte>)
    requires |bs| == 3
    ensures EncodeQuantum(bs) == [Base64Digit(bs[0] / 4), Base64Digit((bs[0] % 4) * 16 + bs[1] / 16),
                                  Base64Digit((bs[1] % 16) * 4 + bs[2] / 64), Base64Digit(bs[2] % 64)]
  {
  }

  /** The four digits of three bytes decode to those bytes. */
  lemma DecodeFullQuantum(b0: Byte, b1: Byte, b2: Byte, last: bool)
    ensures DecodeQuantum([Base64Digit(b0 / 4), Base64Digit((b0 % 4) * 16 + b1 / 16),
                           Base64Digit((b1 % 16) * 4 + b2 / 64), Base64Digit(b2 % 64)], last)
            == Some([b0, b1, b2])
  {
    QuantumBits(b0, b1, b2);
    var c0, c1, c2, c3 := b0 / 4, (b0 % 4) * 16 + b1 / 16, (b1 % 16) * 4 + b2 / 64, b2 % 64;
    Base64ValueOfDigit(c0);
    Base64ValueOfDigit(c1);
    Base64ValueOfDigit(c2);
    Base64ValueOfDigit(c3);
  }

  /** Base64 round trip: FromBase64String gives back exactly the bytes that were encoded. */
  lemma {:induction false} Base64RoundTrip(bs: seq<Byte>)
    ensures Base64Decode(Base64Encode(bs)) == Some(bs)
    decreases |bs|
  {
    if bs == [] {
    } else if |bs| <= 3 {
      DecodeEncodeQuantum(bs, true);
      var s := EncodeQuantum(bs);
      assert Base64Encode(bs) == s && |s| == 4;
      assert s[..4] == s && s[4..] == [];
      assert Base64Decode(s[4..]) == Some([]);
      assert bs + [] == bs;
    } else {
      var s := Base64Encode(bs);
      var rest := Base64Encode(bs[3..]);
      DecodeEncodeQuantum(bs[..3], |rest| == 0);
      Base64RoundTrip(bs[3..]);
      assert s == EncodeQuantum(bs[..3]) + rest;
      assert s[..4] == EncodeQuantum(bs[..3]) && s[4..] == rest;
      assert bs[..3] + bs[3..] == bs;
    }
  }

  predicate WellShaped(s: string) {
    && (forall i :: 0 <= i < |s| ==> IsBase64Char(s[i]) || s[i] == '=')
    && (forall i :: 0 <= i < |s| && s[i] == '=' ==> |s| - 2 <= i)
  }

  lemma QuantumShape(bs: seq<Byte>)
    requires 1 <= |bs| <= 3
    ensures WellShaped(EncodeQuantum(bs))
    ensures |bs| == 3 ==> forall i :: 0 <= i < 4 ==> IsBase64Char(EncodeQuantum(bs)[i])
  {
  }

  /** The shape of the encoding: 4 * ceil(n / 3) characters, all from the alphabet except
      for `=` padding at the very end. */
  lemma {:induction false} Base64Shape(bs: seq<Byte>)
    ensures |Base64Encode(bs)| == 4 * ((|bs| + 2) / 3)
    ensures WellShaped(Base64Encode(bs))
    decreases |bs|
  {
    if bs == [] {
    } else if |bs| <= 3 {
      QuantumShape(bs);
    } else {
      var q := EncodeQuantum(bs[..3]);
      var rest := Base64Encode(bs[3..]);
      Base64Shape(bs[3..]);
      QuantumShape(bs[..3]);
      assert Base64Encode(bs) == q + rest;
      var k := (|bs[3..]| + 2) / 3;
      assert |rest| == 4 * k && (|bs| + 2) / 3 == k + 1;
      FullQuantumThenShaped(q, rest);
    }
  }

  lemma FullQuantumThenShaped(q: string, rest: string)
    requires |q| == 4 && forall i :: 0 <= i < 4 ==> IsBase64Char(q[i])
    requires WellShaped(rest)
    ensures WellShaped(q + rest)
  {
    assert forall i :: 0 <= i < 4 ==> (q + rest)[i] == q[i];
    assert forall i :: 4 <= i < |q + rest| ==> (q + rest)[i] == rest[i - 4];
  }

  // ---------------------------------------------------------------- pssavpar

  const Base64Prefix: string :=
    "([System.Text." + "Encoding]::UTF8" + ".GetString([Sys" + "tem.Convert]::F" + "romBase64String('"
  const Base64Suffix: string := "')))"

  /** The Base64 literal that src/powershell.ts embeds for a value. */
  function Base64Literal(value: string): string {
    Base64Encode(Utf8Encode(value))
  }

  /** pssavpar of src/powershell.ts. */
  function Pssavpar(value: string): (r: string)
    ensures r == Base64Prefix + Base64Literal(value) + Base64Suffix
  {
    Base64Prefix + Base64Encode(Utf8Encode(value)) + Base64Suffix
  }

  /** The embedded literal cannot contain the closing single quote: the expression is the
      fixed prefix, a quote-free Base64 body and the fixed suffix. */
  lemma PssavparQuoteFree(value: string)
    ensures forall i :: 0 <= i < |Base64Literal(value)| ==> Base64Literal(value)[i] != '\''
    ensures |Base64Literal(value)| == 4 * ((|Utf8Encode(value)| + 2) / 3)
  {
    Base64Shape(Utf8Encode(value));
    WellShapedQuoteFree(Base64Encode(Utf8Encode(value)));
  }

  lemma WellShapedQuoteFree(s: string)
    requires WellShaped(s)
    ensures forall i :: 0 <= i < |s| ==> s[i] != '\''
  {
    forall i | 0 <= i < |s| ensures s[i] != '\'' {
      assert IsBase64Char(s[i]) || s[i] == '=';
    }
  }

  /** Neither a space nor a line break occurs in the emitted expression: it stays a single
      word of the command line it is spliced into. */
  lemma PssavparSeparatorFree(value: string)
    ensures Lacks(Pssavpar(value), ' ') && Lacks(Pssavpar(value), '\n')
  {
    var b := Base64Literal(value);
    Base64Shape(Utf8Encode(value));
    forall i | 0 <= i < |b| ensures b[i] != ' ' && b[i] != '\n' {
      assert IsBase64Char(b[i]) || b[i] == '=';
    }
    AffixesSeparatorFree(' ');
    AffixesSeparatorFree('\n');
    LacksConcat(Base64Prefix, b, ' ');
    LacksConcat(Base64Prefix + b, Base64Suffix, ' ');
    LacksConcat(Base64Prefix, b, '\n');
    LacksConcat(Base64Prefix + b, Base64Suffix, '\n');
  }

  lemma AffixesSeparatorFree(ch: char)
    requires ch == ' ' || ch == '\n'
    ensures Lacks(Base64Prefix, ch) && Lacks(Base64Suffix, ch)
  {
    var a, b, c, d, e := "([System.Text.", "Encoding]::UTF8", ".GetString([Sys", "tem.Convert]::F", "romBase64String('";
    assert Lacks(a, ch) && Lacks(b, ch) && Lacks(c, ch) && Lacks(d, ch) && Lacks(e, ch);
    LacksConcat(a, b, ch);
    LacksConcat(a + b, c, ch);
    LacksConcat(a + b + c, d, ch);
    LacksConcat(a + b + c + d, e, ch);
  }

  /** What PowerShell evaluates the emitted expression to: FromBase64String on the body,
      then UTF8.GetString on the bytes. */
  function EvaluatePssavpar(expr: string): Option<string>
  {
    if |expr| >= |Base64Prefix| + |Base64Suffix|
       && expr[..|Base64Prefix|] == Base64Prefix
       && expr[|expr| - |Base64Suffix|..] == Base64Suffix
    then
      match Base64Decode(expr[|Base64Prefix|..|expr| - |Base64Suffix|])
      case None => None
      case Some(bytes) => Utf8Decode(bytes)
    else None
  }

  /** The round trip the emitted expression relies on: PowerShell recovers the value. */
  lemma PssavparRoundTrip(value: string)
    ensures EvaluatePssavpar(Pssavpar(value)) == Some(value)
  {
    var b := Base64Literal(value);
    var e := Pssavpar(value);
    assert e[..|Base64Prefix|] == Base64Prefix;
    assert e[|e| - |Base64Suffix|..] == Base64Suffix;
    assert e[|Base64Prefix|..|e| - |Base64Suffix|] == b;
    Base64RoundTrip(Utf8Encode(value));
    Utf8RoundTrip(value);
  }

  // ---------------------------------------------------------------- main.ts: quote doubling

  /** `value.replace(/"/g, '""')`. */
  function DoubleQuotes(value: string): (r: string)
    ensures |r| >= |value|
  {
    if value == [] then []
    else (if value[0] == '"' then "\"\"" else [value[0]]) + DoubleQuotes(value[1..])
  }

  /** pssavpar of main.ts: a double-quoted literal with embedded quotes doubled. */
  function QuotedPssavpar(value: string): (r: string)
    ensures |r| >= 2 && r[0] == '"' && r[|r| - 1] == '"'
  {
    "\"" + DoubleQuotes(value) + "\""
  }

  /** The inverse of quote doubling: `""` stands for `"`, and a lone `"` (which would end the
      literal early) gives None. This is only the quote rule: PowerShell also expands `$name`
      and `$(...)`, reads backtick escapes and takes the typographic quotes as quotes inside a
      double-quoted literal, and none of that is modelled here. */
  function UndoubleQuotes(s: string): Option<string>
    decreases |s|
  {
    if s == [] then Some([])
    else if s[0] == '"' then
      if |s| >= 2 && s[1] == '"' then
        match UndoubleQuotes(s[2..]) case None => None case Some(r) => Some("\"" + r)
      else None
    else match UndoubleQuotes(s[1..]) case None => None case Some(r) => Some([s[0]] + r)
  }

  /** Un-doubling the inside of the quoted literal recovers the value. */
  lemma {:induction false} QuotedPssavparRoundTrip(value: string)
    ensures UndoubleQuotes(DoubleQuotes(value)) == Some(value)
    ensures QuotedPssavpar(value)[1..|QuotedPssavpar(value)| - 1] == DoubleQuotes(value)
  {
    if value != [] {
      QuotedPssavparRoundTrip(value[1..]);
      var d := DoubleQuotes(value);
      if value[0] == '"' {
        assert d[2..] == DoubleQuotes(value[1..]);
      } else {
        assert d[1..] == DoubleQuotes(value[1..]);
      }
      assert [value[0]] + value[1..] == value;
    }
    var q := QuotedPssavpar(value);
    assert q[1..|q| - 1] == DoubleQuotes(value);
  }

  /** Quote doubling adds only quote characters, so any other character the value lacks,
      the quoted literal lacks too. */
  lemma {:induction false} QuotedPssavparLacks(value: string, ch: char)
    requires ch != '"' && Lacks(value, ch)
    ensures Lacks(QuotedPssavpar(value), ch)
  {
    DoubleQuotesLacks(value, ch);
    LacksConcat("\"", DoubleQuotes(value), ch);
    LacksConcat("\"" + DoubleQuotes(value), "\"", ch);
  }

  lemma {:induction false} DoubleQuotesLacks(value: string, ch: char)
    requires ch != '"' && Lacks(value, ch)
    ensures Lacks(DoubleQuotes(value), ch)
  {
    if value != [] {
      DoubleQuotesLacks(value[1..], ch);
      assert value[0] != ch;
      LacksConcat(if value[0] == '"' then "\"\"" else [value[0]], DoubleQuotes(value[1..]), ch);
    }
  }
}
