/**
 * JavaScript strings as sequences of UTF-16 code units, and the UTF-16LE byte layout of
 * section 4.2 of RFC 2781: each code unit as two bytes, low-order byte first.
 */
module Utf16 {

  type CodeUnit = u: int | 0 <= u < 0x1_0000
  type Byte = b: int | 0 <= b < 0x100

  /** The byte-order mark U+FEFF, as one code unit. */
  const Bom: CodeUnit := 0xFEFF

  /** The code units a JavaScript string holds for one Unicode scalar value: a supplementary
      character takes a surrogate pair. */
  function UnitsOf(c: char): seq<CodeUnit>
  {
    var v := c as int;
    if v < 0x1_0000 then [v]
    else [0xD800 + (v - 0x1_0000) / 0x400, 0xDC00 + (v - 0x1_0000) % 0x400]
  }

  /** A string's code units, as `length` and `charCodeAt` see them. */
  function Units(s: string): seq<CodeUnit>
  {
    if s == [] then [] else UnitsOf(s[0]) + Units(s[1..])
  }

  lemma {:induction false} UnitsAppend(a: string, b: string)
    ensures Units(a + b) == Units(a) + Units(b)
  {
    if a != [] {
      assert (a + b)[0] == a[0] && (a + b)[1..] == a[1..] + b;
      UnitsAppend(a[1..], b);
      calc {
        Units(a + b);
        UnitsOf(a[0]) + Units(a[1..] + b);
        UnitsOf(a[0]) + (Units(a[1..]) + Units(b));
        (UnitsOf(a[0]) + Units(a[1..])) + Units(b);
      }
    } else {
      assert a + b == b;
    }
  }

  /** Strings of Basic Multilingual Plane characters have one code unit per character. */
  lemma {:induction false} UnitsOfBmp(s: string)
    requires forall i :: 0 <= i < |s| ==> (s[i] as int) < 0x1_0000
    ensures |Units(s)| == |s|
    ensures forall i :: 0 <= i < |s| ==> Units(s)[i] == s[i] as int
  {
    if s != [] {
      UnitsOfBmp(s[1..]);
    }
  }

  /** Assigning to a Uint8Array element keeps the low 8 bits. */
  function ToUint8(v: int): Byte
  {
    v % 0x100
  }

  function Low(u: CodeUnit): Byte
  {
    ToUint8(u)
  }

  /** charCodeAt(i) >> 8, stored into a byte. */
  function High(u: CodeUnit): Byte
  {
    ToUint8(u / 0x100)
  }

  /** The UTF-16LE bytes of a code unit sequence. */
  function EncodeLE(units: seq<CodeUnit>): seq<Byte>
  {
    if units == [] then [] else [Low(units[0]), High(units[0])] + EncodeLE(units[1..])
  }

  /** Reading the bytes back two at a time, as lo + 256 * hi. */
  function DecodeLE(bytes: seq<Byte>): seq<CodeUnit>
    requires |bytes| % 2 == 0
  {
    if bytes == [] then [] else [bytes[0] as int + 0x100 * bytes[1] as int] + DecodeLE(bytes[2..])
  }

  /** The encoding is two bytes per code unit, low byte at 2i and high byte at 2i + 1. */
  lemma {:induction false} EncodeLELayout(units: seq<CodeUnit>)
    ensures |EncodeLE(units)| == 2 * |units|
    ensures forall i :: 0 <= i < |units| ==>
              EncodeLE(units)[2 * i] == units[i] % 0x100 && EncodeLE(units)[2 * i + 1] == units[i] / 0x100
  {
    if units != [] {
      EncodeLELayout(units[1..]);
      var e := EncodeLE(units);
      forall i | 0 <= i < |units|
        ensures e[2 * i] == units[i] % 0x100 && e[2 * i + 1] == units[i] / 0x100
      {
        if i > 0 {
          assert e[2 * i] == EncodeLE(units[1..])[2 * (i - 1)];
          assert e[2 * i + 1] == EncodeLE(units[1..])[2 * (i - 1) + 1];
        }
      }
    }
  }

  /** A byte string with the layout of the encoding is the encoding. */
  lemma {:induction false} EncodeLEMatches(bytes: seq<Byte>, units: seq<CodeUnit>)
    requires |bytes| == 2 * |units|
    requires forall j :: 0 <= j < |units| ==> bytes[2 * j] == Low(units[j]) && bytes[2 * j + 1] == High(units[j])
    ensures bytes == EncodeLE(units)
  {
    if units != [] {
      var rest, tail := bytes[2..], units[1..];
      forall j | 0 <= j < |tail|
        ensures rest[2 * j] == Low(tail[j]) && rest[2 * j + 1] == High(tail[j])
      {
        assert rest[2 * j] == bytes[2 * (j + 1)] && rest[2 * j + 1] == bytes[2 * (j + 1) + 1];
      }
      EncodeLEMatches(rest, tail);
      assert bytes == [bytes[0], bytes[1]] + rest;
    }
  }

  /** Decoding recovers the code units. */
  lemma {:induction false} DecodeEncode(units: seq<CodeUnit>)
    ensures |EncodeLE(units)| % 2 == 0
    ensures DecodeLE(EncodeLE(units)) == units
  {
    EncodeLELayout(units);
    if units != [] {
      DecodeEncode(units[1..]);
      var e := EncodeLE(units);
      assert e[2..] == EncodeLE(units[1..]);
    }
  }

  /** Every even-length byte string is the encoding of its decoding. */
  lemma {:induction false} EncodeDecode(bytes: seq<Byte>)
    requires |bytes| % 2 == 0
    ensures EncodeLE(DecodeLE(bytes)) == bytes
  {
    if bytes != [] {
      EncodeDecode(bytes[2..]);
      var u := DecodeLE(bytes);
      assert u[1..] == DecodeLE(bytes[2..]);
      assert bytes == [bytes[0], bytes[1]] + bytes[2..];
    }
  }

  lemma {:induction false} EncodeLEAppend(a: seq<CodeUnit>, b: seq<CodeUnit>)
    ensures EncodeLE(a + b) == EncodeLE(a) + EncodeLE(b)
  {
    if a != [] {
      assert (a + b)[0] == a[0] && (a + b)[1..] == a[1..] + b;
      EncodeLEAppend(a[1..], b);
      calc {
        EncodeLE(a + b);
        [Low(a[0]), High(a[0])] + EncodeLE(a[1..] + b);
        [Low(a[0]), High(a[0])] + (EncodeLE(a[1..]) + EncodeLE(b));
        ([Low(a[0]), High(a[0])] + EncodeLE(a[1..])) + EncodeLE(b);
      }
    } else {
      assert a + b == b;
    }
  }

  /** Text that starts with U+FEFF encodes to bytes that start FF FE, the little-endian
      byte-order mark of section 3.2 of RFC 2781. */
  lemma BomFirst(s: string)
    ensures |EncodeLE(Units(['\U{FEFF}'] + s))| >= 2
    ensures EncodeLE(Units(['\U{FEFF}'] + s))[..2] == [0xFF, 0xFE]
  {
    UnitsAppend(['\U{FEFF}'], s);
    assert Units(['\U{FEFF}']) == [Bom];
    EncodeLEAppend([Bom], Units(s));
    assert EncodeLE([Bom]) == [0xFF, 0xFE];
  }
}
