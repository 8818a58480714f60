/** Convert.ToBase64String: the base 64 encoding of section 4 of RFC 4648,
    with the standard alphabet and `=` padding, and its strict inverse. */
module Base64 {
  import opened Results

  /** The symbol for a 6-bit value (Table 1 of RFC 4648). */
  function Symbol(v: int): (c: char)
    requires 0 <= v < 64
  {
    if v < 26 then ('A' as int + v) as char
    else if v < 52 then ('a' as int + (v - 26)) as char
    else if v < 62 then ('0' as int + (v - 52)) as char
    else if v == 62 then '+'
    else '/'
  }

  /** The 6-bit value of a symbol, or None for a character outside the alphabet. */
  function SymbolValue(c: char): (r: Option<int>)
    ensures r.Some? ==> 0 <= r.value < 64 && Symbol(r.value) == c
  {
    if 'A' <= c <= 'Z' then Some(c as int - 'A' as int)
    else if 'a' <= c <= 'z' then Some(c as int - 'a' as int + 26)
    else if '0' <= c <= '9' then Some(c as int - '0' as int + 52)
    else if c == '+' then Some(62)
    else if c == '/' then Some(63)
    else None
  }

  lemma SymbolValueOf(v: int)
    requires 0 <= v < 64
    ensures SymbolValue(Symbol(v)) == Some(v)
  {
  }

  /** The characters an encoding is made of. */
  predicate IsEncodingChar(c: char)
  {
    SymbolValue(c).Some? || c == '='
  }

  /** The four symbols of a group of three bytes. */
  function EncodeThree(x: byte, y: byte, z: byte): (s: string)
    ensures |s| == 4 && forall i :: 0 <= i < 4 ==> SymbolValue(s[i]).Some?
  {
    SymbolValueOf(x / 4);
    SymbolValueOf(x % 4 * 16 + y / 16);
    SymbolValueOf(y % 16 * 4 + z / 64);
    SymbolValueOf(z % 64);
    [Symbol(x / 4), Symbol(x % 4 * 16 + y / 16), Symbol(y % 16 * 4 + z / 64), Symbol(z % 64)]
  }

  /** A final group of two bytes: three symbols and one `=`. */
  function EncodeTwo(x: byte, y: byte): (s: string)
    ensures |s| == 4 && s[3] == '=' && SymbolValue(s[0]).Some? && SymbolValue(s[1]).Some? && SymbolValue(s[2]).Some?
  {
    SymbolValueOf(x / 4);
    SymbolValueOf(x % 4 * 16 + y / 16);
    SymbolValueOf(y % 16 * 4);
    [Symbol(x / 4), Symbol(x % 4 * 16 + y / 16), Symbol(y % 16 * 4), '=']
  }

  /** A final group of one byte: two symbols and two `=`. */
  function EncodeOne(x: byte): (s: string)
    ensures |s| == 4 && s[2] == '=' && s[3] == '=' && SymbolValue(s[0]).Some? && SymbolValue(s[1]).Some?
  {
    SymbolValueOf(x / 4);
    SymbolValueOf(x % 4 * 16);
    [Symbol(x / 4), Symbol(x % 4 * 16), '=', '=']
  }

  /** The encoding: each group of three bytes becomes four symbols; a final
      group of one or two bytes becomes two or three symbols and `=` padding. */
  function Encode(b: seq<byte>): (s: string)
    ensures |s| == 4 * ((|b| + 2) / 3)
    ensures forall i :: 0 <= i < |s| ==> IsEncodingChar(s[i])
    decreases |b|
  {
    if |b| == 0 then []
    else if |b| == 1 then EncodeOne(b[0])
    else if |b| == 2 then EncodeTwo(b[0], b[1])
    else
      var rest := Encode(b[3..]);
      assert (|b| + 2) / 3 == (|b[3..]| + 2) / 3 + 1;
      EncodeThree(b[0], b[1], b[2]) + rest
  }

  /** The three bytes of a group of four symbols. */
  function DecodeThree(a: int, b: int, c: int, d: int): seq<byte>
    requires 0 <= a < 64 && 0 <= b < 64 && 0 <= c < 64 && 0 <= d < 64
  {
    [a * 4 + b / 16, b % 16 * 16 + c / 4, c % 4 * 64 + d]
  }

  /** The two bytes of a final group of three symbols. */
  function DecodeTwo(a: int, b: int, c: int): Option<seq<byte>>
    requires 0 <= a < 64 && 0 <= b < 64 && 0 <= c < 64
  {
    if c % 4 == 0 then Some([a * 4 + b / 16, b % 16 * 16 + c / 4]) else None
  }

  /** The byte of a final group of two symbols. */
  function DecodeOne(a: int, b: int): Option<seq<byte>>
    requires 0 <= a < 64 && 0 <= b < 64
  {
    if b % 16 == 0 then Some([a * 4 + b / 16]) else None
  }

  /** The decoding: None unless the text is whole groups of alphabet symbols,
      with `=` only as padding at the end and no bits set beyond the last byte. */
  function Decode(s: string): (r: Option<seq<byte>>)
    decreases |s|
  {
    if |s| == 0 then Some([])
    else if |s| < 4 then None
    else
      var a, b := SymbolValue(s[0]), SymbolValue(s[1]);
      if a.None? || b.None? then None
      else if |s| == 4 && s[2] == '=' && s[3] == '=' then DecodeOne(a.value, b.value)
      else
        var c := SymbolValue(s[2]);
        if c.None? then None
        else if |s| == 4 && s[3] == '=' then DecodeTwo(a.value, b.value, c.value)
        else
          var d := SymbolValue(s[3]);
          if d.None? then None
          else
            var rest := Decode(s[4..]);
            if rest.None? then None
            else Some(DecodeThree(a.value, b.value, c.value, d.value) + rest.value)
  }

  lemma ThreeBytes(x: byte, y: byte, z: byte)
    ensures var a, b, c, d := x / 4, x % 4 * 16 + y / 16, y % 16 * 4 + z / 64, z % 64;
      0 <= b < 64 && 0 <= c < 64 && DecodeThree(a, b, c, d) == [x, y, z]
  {
    var b, c := x % 4 * 16 + y / 16, y % 16 * 4 + z / 64;
    assert b / 16 == x % 4 && b % 16 == y / 16;
    assert c / 4 == y % 16 && c % 4 == z / 64;
  }

  lemma TwoBytes(x: byte, y: byte)
    ensures var a, b, c := x / 4, x % 4 * 16 + y / 16, y % 16 * 4;
      0 <= b < 64 && 0 <= c < 64 && DecodeTwo(a, b, c) == Some([x, y])
  {
    var b, c := x % 4 * 16 + y / 16, y % 16 * 4;
    assert b / 16 == x % 4 && b % 16 == y / 16;
    assert c / 4 == y % 16;
  }

  lemma OneByte(x: byte)
    ensures DecodeOne(x / 4, x % 4 * 16) == Some([x])
  {
  }

  lemma DecodeEncodeThree(x: byte, y: byte, z: byte, tail: string)
    ensures Decode(EncodeThree(x, y, z) + tail)
         == if Decode(tail).Some? then Some([x, y, z] + Decode(tail).value) else None
  {
    ThreeBytes(x, y, z);
    SymbolValueOf(x / 4);
    SymbolValueOf(x % 4 * 16 + y / 16);
    SymbolValueOf(y % 16 * 4 + z / 64);
    SymbolValueOf(z % 64);
    var s := EncodeThree(x, y, z) + tail;
    assert s[..4] == EncodeThree(x, y, z);
    assert s[4..] == tail;
  }

  lemma DecodeEncodeTwo(x: byte, y: byte)
    ensures Decode(EncodeTwo(x, y)) == Some([x, y])
  {
    TwoBytes(x, y);
    SymbolValueOf(x / 4);
    SymbolValueOf(x % 4 * 16 + y / 16);
    SymbolValueOf(y % 16 * 4);
  }

  lemma DecodeEncodeOne(x: byte)
    ensures Decode(EncodeOne(x)) == Some([x])
  {
    OneByte(x);
    SymbolValueOf(x / 4);
    SymbolValueOf(x % 4 * 16);
  }

  /** One group more: if the rest decodes back, so does the whole. */
  lemma DecodeEncodeGroup(b: seq<byte>)
    requires |b| >= 3 && Decode(Encode(b[3..])) == Some(b[3..])
    ensures Decode(Encode(b)) == Some(b)
  {
    var tail := Encode(b[3..]);
    assert Encode(b) == EncodeThree(b[0], b[1], b[2]) + tail;
    DecodeEncodeThree(b[0], b[1], b[2], tail);
    Regroup(b);
  }

  lemma Regroup(b: seq<byte>)
    requires |b| >= 3
    ensures [b[0], b[1], b[2]] + b[3..] == b
  {
    assert b == b[..3] + b[3..];
    assert b[..3] == [b[0], b[1], b[2]];
  }

  /** Decoding an encoding gives back the bytes (RFC 4648, section 4). */
  lemma {:induction false} DecodeEncode(b: seq<byte>)
    ensures Decode(Encode(b)) == Some(b)
    decreases |b|
  {
    if |b| == 1 {
      DecodeEncodeOne(b[0]);
      assert b == [b[0]];
    } else if |b| == 2 {
      DecodeEncodeTwo(b[0], b[1]);
      assert b == [b[0], b[1]];
    } else if |b| >= 3 {
      DecodeEncode(b[3..]);
      DecodeEncodeGroup(b);
    }
  }

  lemma FullGroup(a: int, b: int, c: int, d: int)
    requires 0 <= a < 64 && 0 <= b < 64 && 0 <= c < 64 && 0 <= d < 64
    ensures var x, y, z := a * 4 + b / 16, b % 16 * 16 + c / 4, c % 4 * 64 + d;
      0 <= x < 256 && 0 <= y < 256 && 0 <= z < 256
      && x / 4 == a && x % 4 * 16 + y / 16 == b && y % 16 * 4 + z / 64 == c && z % 64 == d
  {
  }

  lemma TwoGroup(a: int, b: int, c: int)
    requires 0 <= a < 64 && 0 <= b < 64 && 0 <= c < 64 && c % 4 == 0
    ensures var x, y := a * 4 + b / 16, b % 16 * 16 + c / 4;
      0 <= x < 256 && 0 <= y < 256
      && x / 4 == a && x % 4 * 16 + y / 16 == b && y % 16 * 4 == c
  {
  }

  lemma OneGroup(a: int, b: int)
    requires 0 <= a < 64 && 0 <= b < 64 && b % 16 == 0
    ensures var x := a * 4 + b / 16;
      0 <= x < 256 && x / 4 == a && x % 4 * 16 == b
  {
  }

  lemma EncodeDecodeThree(s: string, a: int, b: int, c: int, d: int)
    requires |s| >= 4
    requires SymbolValue(s[0]) == Some(a) && SymbolValue(s[1]) == Some(b)
    requires SymbolValue(s[2]) == Some(c) && SymbolValue(s[3]) == Some(d)
    ensures var g := DecodeThree(a, b, c, d); EncodeThree(g[0], g[1], g[2]) == s[..4]
  {
    GroupSymbols(s, a, b, c, d);
    EncodeDecodeGroup(a, b, c, d);
  }

  /** Re-encoding the three bytes of four symbols gives the four symbols. */
  lemma EncodeDecodeGroup(a: int, b: int, c: int, d: int)
    requires 0 <= a < 64 && 0 <= b < 64 && 0 <= c < 64 && 0 <= d < 64
    ensures var g := DecodeThree(a, b, c, d); EncodeThree(g[0], g[1], g[2]) == [Symbol(a), Symbol(b), Symbol(c), Symbol(d)]
  {
    FullGroup(a, b, c, d);
    var x, y, z := a * 4 + b / 16, b % 16 * 16 + c / 4, c % 4 * 64 + d;
    assert DecodeThree(a, b, c, d) == [x, y, z];
    EncodeThreeOf(x, y, z, a, b, c, d);
  }

  lemma EncodeThreeOf(x: byte, y: byte, z: byte, a: int, b: int, c: int, d: int)
    requires 0 <= a < 64 && 0 <= b < 64 && 0 <= c < 64 && 0 <= d < 64
    requires x / 4 == a && x % 4 * 16 + y / 16 == b && y % 16 * 4 + z / 64 == c && z % 64 == d
    ensures EncodeThree(x, y, z) == [Symbol(a), Symbol(b), Symbol(c), Symbol(d)]
  {
  }

  /** The first four characters of a text, each a symbol of the alphabet. */
  lemma GroupSymbols(s: string, a: int, b: int, c: int, d: int)
    requires |s| >= 4
    requires SymbolValue(s[0]) == Some(a) && SymbolValue(s[1]) == Some(b)
    requires SymbolValue(s[2]) == Some(c) && SymbolValue(s[3]) == Some(d)
    ensures 0 <= a < 64 && 0 <= b < 64 && 0 <= c < 64 && 0 <= d < 64
    ensures s[..4] == [Symbol(a), Symbol(b), Symbol(c), Symbol(d)]
  {
    assert s[..4] == [s[0], s[1], s[2], s[3]];
  }

  lemma EncodeDecodeTwo(s: string, a: int, b: int, c: int)
    requires |s| == 4 && s[3] == '='
    requires SymbolValue(s[0]) == Some(a) && SymbolValue(s[1]) == Some(b) && SymbolValue(s[2]) == Some(c)
    requires DecodeTwo(a, b, c).Some?
    ensures var g := DecodeTwo(a, b, c).value; EncodeTwo(g[0], g[1]) == s
  {
    TwoGroup(a, b, c);
  }

  lemma EncodeDecodeOne(s: string, a: int, b: int)
    requires |s| == 4 && s[2] == '=' && s[3] == '='
    requires SymbolValue(s[0]) == Some(a) && SymbolValue(s[1]) == Some(b)
    requires DecodeOne(a, b).Some?
    ensures EncodeOne(DecodeOne(a, b).value[0]) == s
  {
    OneGroup(a, b);
  }

  /** Only an encoding decodes: a text that decodes is the encoding of what it decodes to. */
  lemma {:induction false} EncodeDecode(s: string)
    requires Decode(s).Some?
    ensures Encode(Decode(s).value) == s
    decreases |s|
  {
    if |s| > 0 {
      var a, b := SymbolValue(s[0]).value, SymbolValue(s[1]).value;
      if |s| == 4 && s[2] == '=' && s[3] == '=' {
        EncodeDecodeOne(s, a, b);
      } else {
        var c := SymbolValue(s[2]).value;
        if |s| == 4 && s[3] == '=' {
          EncodeDecodeTwo(s, a, b, c);
        } else {
          var d := SymbolValue(s[3]).value;
          EncodeDecode(s[4..]);
          EncodeDecodeThree(s, a, b, c, d);
          var g, rest := DecodeThree(a, b, c, d), Decode(s[4..]).value;
          assert Decode(s) == Some(g + rest);
          EncodeGroups(g, rest);
          Ungroup(s);
        }
      }
    }
  }

  lemma EncodeGroups(g: seq<byte>, rest: seq<byte>)
    requires |g| == 3
    ensures Encode(g + rest) == EncodeThree(g[0], g[1], g[2]) + Encode(rest)
  {
    var bytes := g + rest;
    assert bytes[0] == g[0] && bytes[1] == g[1] && bytes[2] == g[2] && bytes[3..] == rest;
  }

  lemma Ungroup(s: string)
    requires |s| >= 4
    ensures s == s[..4] + s[4..]
  {
  }

  /** A 32-byte hash encodes to 44 characters, the last of them one `=` of padding. */
  lemma EncodeHash(h: seq<byte>)
    requires |h| == 32
    ensures |Encode(h)| == 44
    ensures Encode(h)[43] == '=' && Encode(h)[42] != '='
  {
    EncodeTail(h);
  }

  /** The last group tells how many bytes a final group holds: two bytes get one `=`. */
  lemma EncodeTail(b: seq<byte>)
    requires |b| % 3 == 2
    ensures Encode(b)[|Encode(b)| - 1] == '=' && Encode(b)[|Encode(b)| - 2] != '='
  {
    EncodeTailGroups(b, |b| / 3);
  }

  /** The same, by induction on the number `k` of whole groups. */
  lemma {:induction false} EncodeTailGroups(b: seq<byte>, k: nat)
    requires |b| == 3 * k + 2
    ensures Encode(b)[|Encode(b)| - 1] == '=' && Encode(b)[|Encode(b)| - 2] != '='
  {
    var s := Encode(b);
    if k > 0 {
      var tail := Encode(b[3..]);
      EncodeTailGroups(b[3..], k - 1);
      assert s == EncodeThree(b[0], b[1], b[2]) + tail;
      LastTwo(EncodeThree(b[0], b[1], b[2]), tail);
    } else {
      assert s == EncodeTwo(b[0], b[1]);
    }
  }

  lemma LastTwo(p: string, q: string)
    requires |q| >= 2
    ensures (p + q)[|p + q| - 1] == q[|q| - 1] && (p + q)[|p + q| - 2] == q[|q| - 2]
  {
  }

  /** A character outside the alphabet and the padding never appears in an encoding. */
  lemma EncodeAvoids(b: seq<byte>, c: char)
    requires !IsEncodingChar(c)
    ensures c !in Encode(b)
  {
  }
}
