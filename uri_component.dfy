/**
 * `encodeURIComponent` and `decodeURIComponent` (sections 19.2.6.4 and
 * 19.2.6.2 of ECMA-262, with the Encode and Decode operations of 19.2.6.5
 * and 19.2.6.6): each character becomes its UTF-8 bytes, and every byte
 * outside the unescaped set is written as `%` and two upper-case hex digits.
 */
module UriComponent {
  import opened Wrappers

  type Byte = b: int | 0 <= b < 256

  /** The characters `encodeURIComponent` leaves as they are: letters, digits and `-_.!~*'()`. */
  predicate Unescaped(c: char) {
    || 'A' <= c <= 'Z' || 'a' <= c <= 'z' || '0' <= c <= '9'
    || c in "-_.!~*'()"
  }

  const HexDigits := "0123456789ABCDEF"

  /** The UTF-8 encoding of one Unicode scalar value. */
  function Utf8(c: char): (bs: seq<Byte>)
    ensures 1 <= |bs| <= 4
    ensures |bs| == 1 <==> (c as int) < 0x80
    ensures |bs| == 1 ==> bs[0] == c as int
    ensures |bs| > 1 ==> forall i :: 0 <= i < |bs| ==> bs[i] >= 0x80
  {
    var cp := c as int;
    if cp < 0x80 then [cp]
    else if cp < 0x800 then [0xC0 + cp / 64, 0x80 + cp % 64]
    else if cp < 0x10000 then [0xE0 + cp / 64 / 64, 0x80 + cp / 64 % 64, 0x80 + cp % 64]
    else [0xF0 + cp / 64 / 64 / 64, 0x80 + cp / 64 / 64 % 64, 0x80 + cp / 64 % 64, 0x80 + cp % 64]
  }

  /** One byte as `%` and two upper-case hex digits. */
  function Escape(b: Byte): string {
    ['%', HexDigits[b / 16], HexDigits[b % 16]]
  }

  function EscapeAll(bs: seq<Byte>): (r: string)
    ensures |r| == 3 * |bs|
  {
    if bs == [] then [] else Escape(bs[0]) + EscapeAll(bs[1..])
  }

  /** One character of the input, encoded. */
  function EncodeChar(c: char): string {
    if Unescaped(c) then [c] else EscapeAll(Utf8(c))
  }

  /** `encodeURIComponent(s)`. */
  function EncodeUriComponent(s: string): string
  {
    if s == [] then [] else EncodeChar(s[0]) + EncodeUriComponent(s[1..])
  }

  /** A non-empty input encodes to text that starts with an unescaped character or `%`. */
  lemma EncodeHead(s: string)
    requires s != []
    ensures EncodeUriComponent(s) != []
    ensures var h := EncodeUriComponent(s)[0]; Unescaped(h) || h == '%'
  {
    var e := EncodeChar(s[0]);
    assert EncodeUriComponent(s) == e + EncodeUriComponent(s[1..]);
    if !Unescaped(s[0]) {
      var bs := Utf8(s[0]);
      assert e == Escape(bs[0]) + EscapeAll(bs[1..]);
    }
  }

  /** What `encodeURIComponent` can emit: unescaped characters, `%`, and hex digits. */
  predicate EncodedChar(c: char) {
    Unescaped(c) || c == '%' || c in HexDigits
  }

  lemma {:induction false} EscapeAllAlphabet(bs: seq<Byte>)
    ensures forall i :: 0 <= i < |EscapeAll(bs)| ==> EncodedChar(EscapeAll(bs)[i])
  {
    if bs != [] {
      EscapeAllAlphabet(bs[1..]);
      var e := Escape(bs[0]);
      assert e[1] in HexDigits && e[2] in HexDigits;
      assert EscapeAll(bs) == e + EscapeAll(bs[1..]);
    }
  }

  /** The output of `encodeURIComponent` holds no `&`, `=`, `?`, `#` or `[`: it can sit in a query as one name or value. */
  lemma {:induction false} EncodeAlphabet(s: string)
    ensures forall i :: 0 <= i < |EncodeUriComponent(s)| ==> EncodedChar(EncodeUriComponent(s)[i])
    ensures '&' !in EncodeUriComponent(s) && '=' !in EncodeUriComponent(s)
  {
    if s != [] {
      EncodeAlphabet(s[1..]);
      EscapeAllAlphabet(Utf8(s[0]));
      assert EncodeUriComponent(s) == EncodeChar(s[0]) + EncodeUriComponent(s[1..]);
    }
    assert !EncodedChar('&') && !EncodedChar('=');
  }

  // ----- decoding -----

  /** The value of one hex digit. */
  type Nibble = n: nat | n < 16

  function HexValue(c: char): Option<Nibble> {
    if '0' <= c <= '9' then Some(c as int - '0' as int)
    else if 'A' <= c <= 'F' then Some(c as int - 'A' as int + 10)
    else if 'a' <= c <= 'f' then Some(c as int - 'a' as int + 10)
    else None
  }

  /** `%` and two hex digits at the start of `t`, as a byte. */
  function ReadByte(t: string): (r: Option<Byte>)
  {
    if |t| >= 3 && t[0] == '%' && HexValue(t[1]).Some? && HexValue(t[2]).Some?
    then Some(HexValue(t[1]).value * 16 + HexValue(t[2]).value)
    else None
  }

  /** `n` escaped bytes at the start of `t`. */
  function ReadBytes(t: string, n: nat): (r: Option<seq<Byte>>)
    ensures r.Some? ==> |r.value| == n && 3 * n <= |t|
  {
    if n == 0 then Some([])
    else
      match ReadByte(t)
      case None => None
      case Some(b) =>
        match ReadBytes(t[3..], n - 1)
        case None => None
        case Some(rest) => Some([b] + rest)
  }

  /** How many bytes a UTF-8 sequence starting with `b` has; 0 when `b` cannot start one. */
  function SequenceLength(b: Byte): nat {
    if b < 0x80 then 1
    else if 0xC0 <= b < 0xE0 then 2
    else if 0xE0 <= b < 0xF0 then 3
    else if 0xF0 <= b < 0xF8 then 4
    else 0
  }

  predicate Continuation(b: Byte) {
    0x80 <= b < 0xC0
  }

  predicate IsScalar(cp: int) {
    0 <= cp < 0xD800 || 0xE000 <= cp < 0x110000
  }

  /** The character a whole UTF-8 sequence stands for; `None` for overlong forms, surrogates and values past U+10FFFF. */
  function Utf8Char(bs: seq<Byte>): Option<char> {
    var v := seq(|bs|, i requires 0 <= i < |bs| => bs[i] as int);
    if |bs| == 1 && bs[0] < 0x80 then Some(bs[0] as char)
    else if |bs| == 2 && SequenceLength(bs[0]) == 2 && Continuation(bs[1]) then
      var cp := (v[0] - 0xC0) * 64 + (v[1] - 0x80);
      if 0x80 <= cp then Some(cp as char) else None
    else if |bs| == 3 && SequenceLength(bs[0]) == 3 && Continuation(bs[1]) && Continuation(bs[2]) then
      var cp := ((v[0] - 0xE0) * 64 + (v[1] - 0x80)) * 64 + (v[2] - 0x80);
      if 0x800 <= cp && IsScalar(cp) then Some(cp as char) else None
    else if |bs| == 4 && SequenceLength(bs[0]) == 4 && Continuation(bs[1]) && Continuation(bs[2]) && Continuation(bs[3]) then
      var cp := (((v[0] - 0xF0) * 64 + (v[1] - 0x80)) * 64 + (v[2] - 0x80)) * 64 + (v[3] - 0x80);
      if 0x10000 <= cp && IsScalar(cp) then Some(cp as char) else None
    else None
  }

  /** `decodeURIComponent(t)`; `None` where it throws `URIError`. */
  function DecodeUriComponent(t: string): Option<string>
    decreases |t|
  {
    if t == [] then Some([])
    else if t[0] != '%' then
      match DecodeUriComponent(t[1..])
      case None => None
      case Some(rest) => Some([t[0]] + rest)
    else
      match ReadByte(t)
      case None => None
      case Some(b0) =>
        var n := SequenceLength(b0);
        if n == 0 then None
        else
          match ReadBytes(t, n)
          case None => None
          case Some(bs) =>
            match Utf8Char(bs)
            case None => None
            case Some(c) =>
              match DecodeUriComponent(t[3 * n..])
              case None => None
              case Some(rest) => Some([c] + rest)
  }

  // ----- the round trip -----

  lemma HexDigitValue(d: nat)
    requires d < 16
    ensures HexValue(HexDigits[d]) == Some(d)
  {
  }

  lemma ReadEscape(b: Byte, rest: string)
    ensures ReadByte(Escape(b) + rest) == Some(b)
  {
    HexDigitValue(b / 16);
    HexDigitValue(b % 16);
  }

  lemma {:induction false} ReadEscapeAll(bs: seq<Byte>, rest: string)
    ensures ReadBytes(EscapeAll(bs) + rest, |bs|) == Some(bs)
  {
    if bs != [] {
      var head, more := Escape(bs[0]), EscapeAll(bs[1..]) + rest;
      var t := EscapeAll(bs) + rest;
      assert t == head + more;
      assert t[3..] == more;
      ReadEscape(bs[0], more);
      ReadEscapeAll(bs[1..], rest);
      assert [bs[0]] + bs[1..] == bs;
    }
  }

  lemma Utf8Decodes(c: char)
    ensures Utf8Char(Utf8(c)) == Some(c)
  {
    var cp := c as int;
    var q1, r1 := cp / 64, cp % 64;
    var q2, r2 := q1 / 64, q1 % 64;
    var q3, r3 := q2 / 64, q2 % 64;
    assert cp == q1 * 64 + r1 && q1 == q2 * 64 + r2 && q2 == q3 * 64 + r3;
    if cp < 0x80 {
    } else if cp < 0x800 {
      assert q1 < 32;
    } else if cp < 0x10000 {
      assert q2 < 16;
      assert cp == (q2 * 64 + r2) * 64 + r1;
    } else {
      assert q3 < 8;
      assert cp == ((q3 * 64 + r3) * 64 + r2) * 64 + r1;
    }
  }

  lemma DecodeUnescaped(c: char, rest: string)
    requires Unescaped(c)
    ensures DecodeUriComponent([c] + rest) ==
              match DecodeUriComponent(rest) case None => None case Some(r) => Some([c] + r)
  {
    assert ([c] + rest)[1..] == rest;
  }

  /** The first byte of a character's UTF-8 encoding announces the encoding's length. */
  lemma Utf8Lead(c: char)
    ensures SequenceLength(Utf8(c)[0]) == |Utf8(c)|
  {
    var cp := c as int;
    if 0x80 <= cp < 0x800 {
      assert cp / 64 < 32;
    } else if 0x800 <= cp < 0x10000 {
      assert cp / 64 / 64 < 16;
    } else if 0x10000 <= cp {
      assert cp / 64 / 64 / 64 < 8;
    }
  }

  lemma DecodeSequence(bs: seq<Byte>, c: char, rest: string)
    requires bs != [] && SequenceLength(bs[0]) == |bs| && Utf8Char(bs) == Some(c)
    ensures DecodeUriComponent(EscapeAll(bs) + rest) ==
              match DecodeUriComponent(rest) case None => None case Some(r) => Some([c] + r)
  {
    var t := EscapeAll(bs) + rest;
    ReadEscapeAll(bs, rest);
    assert t == Escape(bs[0]) + (EscapeAll(bs[1..]) + rest);
    ReadEscape(bs[0], EscapeAll(bs[1..]) + rest);
    assert t[3 * |bs|..] == rest;
  }

  lemma DecodeEscaped(c: char, rest: string)
    requires !Unescaped(c)
    ensures DecodeUriComponent(EscapeAll(Utf8(c)) + rest) ==
              match DecodeUriComponent(rest) case None => None case Some(r) => Some([c] + r)
  {
    Utf8Lead(c);
    Utf8Decodes(c);
    DecodeSequence(Utf8(c), c, rest);
  }

  lemma DecodeChar(c: char, rest: string)
    ensures DecodeUriComponent(EncodeChar(c) + rest) ==
              match DecodeUriComponent(rest) case None => None case Some(r) => Some([c] + r)
  {
    if Unescaped(c) {
      DecodeUnescaped(c, rest);
    } else {
      DecodeEscaped(c, rest);
    }
  }

  /** `decodeURIComponent(encodeURIComponent(s)) === s` for every string. */
  lemma {:induction false} DecodeEncode(s: string)
    ensures DecodeUriComponent(EncodeUriComponent(s)) == Some(s)
  {
    if s != [] {
      DecodeEncode(s[1..]);
      DecodeChar(s[0], EncodeUriComponent(s[1..]));
      assert [s[0]] + s[1..] == s;
    }
  }
}
