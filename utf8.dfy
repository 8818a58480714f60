/** Encoding.UTF8.GetBytes: the UTF-8 encoding of a string of Unicode scalar
    values (RFC 3629), and the decoding that inverts it. */
module Utf8 {
  import opened Results

  /** The one to four bytes of one scalar value, shortest form. */
  function EncodeChar(c: char): (b: seq<byte>)
    ensures 1 <= |b| <= 4
  {
    var v := c as int;
    if v < 0x80 then [v]
    else if v < 0x800 then [0xC0 + v / 0x40, 0x80 + v % 0x40]
    else if v < 0x10000 then [0xE0 + v / 0x1000, 0x80 + v / 0x40 % 0x40, 0x80 + v % 0x40]
    else [0xF0 + v / 0x40000, 0x80 + v / 0x1000 % 0x40, 0x80 + v / 0x40 % 0x40, 0x80 + v % 0x40]
  }

  /** The bytes of a string, character by character. */
  function Encode(s: string): (b: seq<byte>)
    ensures |s| <= |b| <= 4 * |s|
  {
    if s == [] then [] else EncodeChar(s[0]) + Encode(s[1..])
  }

  predicate IsContinuation(x: byte) { 0x80 <= x < 0xC0 }

  /** The character a scalar value stands for, or None for a surrogate or a value past U+10FFFF. */
  function ScalarChar(v: int): (r: Option<char>)
    ensures r.Some? ==> r.value as int == v
  {
    if 0 <= v < 0xD800 || 0xE000 <= v < 0x110000 then Some(v as char) else None
  }

  /** The first character of `b` and the number of bytes it takes, or None when
      `b` does not start with the shortest encoding of a scalar value. */
  function DecodeChar(b: seq<byte>): (r: Option<(char, nat)>)
    requires b != []
    ensures r.Some? ==> 1 <= r.value.1 <= |b|
  {
    var x: int := b[0];
    if x < 0x80 then Some((x as char, 1))
    else if 0xC2 <= x < 0xE0 && |b| >= 2 && IsContinuation(b[1]) then
      var c := ScalarChar((x - 0xC0) * 0x40 + (b[1] as int - 0x80));
      if c.Some? then Some((c.value, 2)) else None
    else if 0xE0 <= x < 0xF0 && |b| >= 3 && IsContinuation(b[1]) && IsContinuation(b[2]) then
      var v := (x - 0xE0) * 0x1000 + (b[1] as int - 0x80) * 0x40 + (b[2] as int - 0x80);
      var c := ScalarChar(v);
      if v >= 0x800 && c.Some? then Some((c.value, 3)) else None
    else if 0xF0 <= x < 0xF5 && |b| >= 4 && IsContinuation(b[1]) && IsContinuation(b[2]) && IsContinuation(b[3]) then
      var v := (x - 0xF0) * 0x40000 + (b[1] as int - 0x80) * 0x1000 + (b[2] as int - 0x80) * 0x40 + (b[3] as int - 0x80);
      var c := ScalarChar(v);
      if v >= 0x10000 && c.Some? then Some((c.value, 4)) else None
    else None
  }

  /** The string a byte sequence encodes, or None when it is not well-formed UTF-8. */
  function Decode(b: seq<byte>): Option<string>
    decreases |b|
  {
    if b == [] then Some([])
    else
      match DecodeChar(b)
      case None => None
      case Some((c, n)) =>
        var rest := Decode(b[n..]);
        if rest.Some? then Some([c] + rest.value) else None
  }

  lemma TwoByteChar(v: int)
    requires 0x80 <= v < 0x800
    ensures var x, y := 0xC0 + v / 0x40, 0x80 + v % 0x40;
      0xC2 <= x < 0xE0 && IsContinuation(y) && (x - 0xC0) * 0x40 + (y - 0x80) == v
  {
  }

  lemma ThreeByteChar(v: int)
    requires 0x800 <= v < 0x10000
    ensures var x, y, z := 0xE0 + v / 0x1000, 0x80 + v / 0x40 % 0x40, 0x80 + v % 0x40;
      0xE0 <= x < 0xF0 && IsContinuation(y) && IsContinuation(z)
      && (x - 0xE0) * 0x1000 + (y - 0x80) * 0x40 + (z - 0x80) == v
  {
    assert v == v / 0x1000 * 0x1000 + v % 0x1000;
    assert v % 0x1000 == v / 0x40 % 0x40 * 0x40 + v % 0x40;
  }

  lemma FourByteChar(v: int)
    requires 0x10000 <= v < 0x110000
    ensures var x, y, z, w := 0xF0 + v / 0x40000, 0x80 + v / 0x1000 % 0x40, 0x80 + v / 0x40 % 0x40, 0x80 + v % 0x40;
      0xF0 <= x < 0xF5 && IsContinuation(y) && IsContinuation(z) && IsContinuation(w)
      && (x - 0xF0) * 0x40000 + (y - 0x80) * 0x1000 + (z - 0x80) * 0x40 + (w - 0x80) == v
  {
    assert v == v / 0x40000 * 0x40000 + v % 0x40000;
    assert v % 0x40000 == v / 0x1000 % 0x40 * 0x1000 + v % 0x1000;
    assert v % 0x1000 == v / 0x40 % 0x40 * 0x40 + v % 0x40;
  }

  /** The decoder reads one encoded character back, whatever follows it. */
  lemma DecodeEncodeChar(c: char, tail: seq<byte>)
    ensures DecodeChar(EncodeChar(c) + tail) == Some((c, |EncodeChar(c)|))
  {
    var v := c as int;
    var b := EncodeChar(c) + tail;
    if v < 0x80 {
    } else if v < 0x800 {
      TwoByteChar(v);
    } else if v < 0x10000 {
      ThreeByteChar(v);
      assert b[1] == 0x80 + v / 0x40 % 0x40 && b[2] == 0x80 + v % 0x40;
    } else {
      FourByteChar(v);
      assert b[1] == 0x80 + v / 0x1000 % 0x40 && b[2] == 0x80 + v / 0x40 % 0x40 && b[3] == 0x80 + v % 0x40;
    }
  }

  /** Decoding the bytes of a string gives back the string. */
  lemma {:induction false} DecodeEncode(s: string)
    ensures Decode(Encode(s)) == Some(s)
  {
    if s != [] {
      var head, tail := EncodeChar(s[0]), Encode(s[1..]);
      DecodeEncodeChar(s[0], tail);
      assert (head + tail)[|head|..] == tail;
      DecodeEncode(s[1..]);
      assert s == [s[0]] + s[1..];
    }
  }
}
