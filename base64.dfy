/**
 * Base 64 as in section 4 of RFC 4648 (standard alphabet, `=` padding),
 * with no line breaks: what Android's `Base64.encodeToString(data, NO_WRAP)`
 * produces, and a decoder, against which the round trip is proved.
 */
module Base64 {
  import opened Options

  /** A byte of a Kotlin `ByteArray`, read as its unsigned bit pattern. */
  type Byte = x: int | 0 <= x < 256

  /** A 6-bit group. */
  type Sextet = x: int | 0 <= x < 64

  /** The characters of the alphabet in Table 1 of RFC 4648. */
  predicate IsSymbol(c: char) {
    'A' <= c <= 'Z' || 'a' <= c <= 'z' || '0' <= c <= '9' || c == '+' || c == '/'
  }

  /** The value a symbol encodes (Table 1 read right to left). */
  function Value(c: char): Sextet
    requires IsSymbol(c)
  {
    if 'A' <= c <= 'Z' then c as int - 'A' as int
    else if 'a' <= c <= 'z' then c as int - 'a' as int + 26
    else if '0' <= c <= '9' then c as int - '0' as int + 52
    else if c == '+' then 62
    else 63
  }

  /** The symbol for a value (Table 1); `Value` undoes it. */
  function Symbol(v: Sextet): (c: char)
    ensures IsSymbol(c) && Value(c) == v
  {
    if v < 26 then ('A' as int + v) as char
    else if v < 52 then ('a' as int + v - 26) as char
    else if v < 62 then ('0' as int + v - 52) as char
    else if v == 62 then '+'
    else '/'
  }

  /** A full 24-bit group: four symbols. */
  function EncodeGroup(b0: Byte, b1: Byte, b2: Byte): string {
    [Symbol(b0 / 4), Symbol(b0 % 4 * 16 + b1 / 16), Symbol(b1 % 16 * 4 + b2 / 64), Symbol(b2 % 64)]
  }

  /** A final group of two bytes: three symbols and one pad. */
  function EncodeTwo(b0: Byte, b1: Byte): string {
    [Symbol(b0 / 4), Symbol(b0 % 4 * 16 + b1 / 16), Symbol(b1 % 16 * 4), '=']
  }

  /** A final group of one byte: two symbols and two pads. */
  function EncodeOne(b0: Byte): string {
    [Symbol(b0 / 4), Symbol(b0 % 4 * 16), '=', '=']
  }

  /** An encoded character: a symbol or the pad. */
  predicate IsEncodedChar(c: char) {
    IsSymbol(c) || c == '='
  }

  /**
   * `Base64.encodeToString(data, Base64.NO_WRAP)`: 4 characters per started
   * 3-byte group, all from the alphabet or the pad, and so no line breaks.
   */
  function Encode(data: seq<Byte>): (text: string)
    ensures |text| == 4 * ((|data| + 2) / 3)
    ensures forall i :: 0 <= i < |text| ==> IsEncodedChar(text[i])
    decreases |data|
  {
    if |data| == 0 then []
    else if |data| == 1 then EncodeOne(data[0])
    else if |data| == 2 then EncodeTwo(data[0], data[1])
    else EncodeGroup(data[0], data[1], data[2]) + Encode(data[3..])
  }

  /** Decodes the last four characters, which may end in one or two pads. */
  function DecodeFinal(q: string): Option<seq<Byte>>
    requires |q| == 4
  {
    if !(IsSymbol(q[0]) && IsSymbol(q[1])) then None
    else
      var c0, c1 := Value(q[0]), Value(q[1]);
      if q[2] == '=' && q[3] == '=' then Some([c0 * 4 + c1 / 16])
      else if !IsSymbol(q[2]) then None
      else
        var c2 := Value(q[2]);
        if q[3] == '=' then Some([c0 * 4 + c1 / 16, c1 % 16 * 16 + c2 / 4])
        else if !IsSymbol(q[3]) then None
        else Some([c0 * 4 + c1 / 16, c1 % 16 * 16 + c2 / 4, c2 % 4 * 64 + Value(q[3])])
  }

  /** Decodes four characters that are not the last four: no pads allowed. */
  function DecodeGroup(q: string): Option<seq<Byte>>
    requires |q| == 4
  {
    if IsSymbol(q[0]) && IsSymbol(q[1]) && IsSymbol(q[2]) && IsSymbol(q[3]) then
      var c0, c1, c2, c3 := Value(q[0]), Value(q[1]), Value(q[2]), Value(q[3]);
      Some([c0 * 4 + c1 / 16, c1 % 16 * 16 + c2 / 4, c2 % 4 * 64 + c3])
    else None
  }

  /** Decodes padded base 64 text; `None` when it is not well formed. */
  function Decode(text: string): Option<seq<Byte>>
    decreases |text|
  {
    if |text| == 0 then Some([])
    else if |text| < 4 then None
    else if |text| == 4 then DecodeFinal(text)
    else match DecodeGroup(text[..4])
      case None => None
      case Some(head) =>
        match Decode(text[4..])
        case None => None
        case Some(rest) => Some(head + rest)
  }

  lemma GroupRoundTrip(b0: Byte, b1: Byte, b2: Byte)
    ensures DecodeGroup(EncodeGroup(b0, b1, b2)) == Some([b0, b1, b2])
    ensures DecodeFinal(EncodeGroup(b0, b1, b2)) == Some([b0, b1, b2])
  {
    var c0, c1, c2, c3 := b0 / 4, b0 % 4 * 16 + b1 / 16, b1 % 16 * 4 + b2 / 64, b2 % 64;
    assert c1 / 16 == b0 % 4 && c1 % 16 == b1 / 16;
    assert c2 / 4 == b1 % 16 && c2 % 4 == b2 / 64;
  }

  lemma TwoRoundTrip(b0: Byte, b1: Byte)
    ensures DecodeFinal(EncodeTwo(b0, b1)) == Some([b0, b1])
  {
    var c1, c2 := b0 % 4 * 16 + b1 / 16, b1 % 16 * 4;
    assert c1 / 16 == b0 % 4 && c1 % 16 == b1 / 16;
    assert c2 / 4 == b1 % 16;
  }

  lemma OneRoundTrip(b0: Byte)
    ensures DecodeFinal(EncodeOne(b0)) == Some([b0])
  {
    var c1 := b0 % 4 * 16;
    assert c1 / 16 == b0 % 4;
  }

  /** Decoding a full group followed by more text. */
  lemma DecodeAppend(q: string, t: string, head: seq<Byte>, rest: seq<Byte>)
    requires |q| == 4 && |t| > 0
    requires DecodeGroup(q) == Some(head) && Decode(t) == Some(rest)
    ensures Decode(q + t) == Some(head + rest)
  {
    assert (q + t)[..4] == q && (q + t)[4..] == t;
  }

  /** Decoding the encoding gives the bytes back. */
  lemma {:induction false} DecodeEncode(data: seq<Byte>)
    ensures Decode(Encode(data)) == Some(data)
    decreases |data|
  {
    if |data| == 1 {
      OneRoundTrip(data[0]);
      assert Encode(data) == EncodeOne(data[0]) && data == [data[0]];
    } else if |data| == 2 {
      TwoRoundTrip(data[0], data[1]);
      assert Encode(data) == EncodeTwo(data[0], data[1]) && data == [data[0], data[1]];
    } else if |data| > 2 {
      var group, rest := [data[0], data[1], data[2]], data[3..];
      var head := EncodeGroup(data[0], data[1], data[2]);
      GroupRoundTrip(data[0], data[1], data[2]);
      assert data == group + rest;
      assert Encode(data) == head + Encode(rest);
      if rest == [] {
        assert Encode(data) == head && |head| == 4;
        assert Decode(head) == DecodeFinal(head);
        assert data == group;
      } else {
        DecodeEncode(rest);
        DecodeAppend(head, Encode(rest), group, rest);
      }
    }
  }

  /** Different byte strings never encode alike. */
  lemma EncodeInjective(a: seq<Byte>, b: seq<Byte>)
    requires Encode(a) == Encode(b)
    ensures a == b
  {
    DecodeEncode(a);
    DecodeEncode(b);
  }
}
