/** The bytes of a string as Rust stores it (`str::as_bytes`): the UTF-8
    encoding of its characters, in order. */
module Utf8 {

  /** The UTF-8 encoding of one Unicode scalar value. */
  function EncodeChar(c: char): (bytes: seq<nat>)
    ensures 1 <= |bytes| <= 4
    ensures forall k :: 0 <= k < |bytes| ==> bytes[k] < 256
    ensures c as int < 0x80 <==> |bytes| == 1
    ensures c as int < 0x80 ==> bytes[0] == c as int
    ensures c as int >= 0x80 ==> bytes[0] >= 0xC0 && forall k :: 0 < k < |bytes| ==> 0x80 <= bytes[k] < 0xC0
  {
    var n := c as int;
    if n < 0x80 then [n]
    else if n < 0x800 then [0xC0 + n / 0x40, 0x80 + n % 0x40]
    else if n < 0x10000 then [0xE0 + n / 0x1000, 0x80 + (n / 0x40) % 0x40, 0x80 + n % 0x40]
    else [0xF0 + n / 0x40000, 0x80 + (n / 0x1000) % 0x40, 0x80 + (n / 0x40) % 0x40, 0x80 + n % 0x40]
  }

  /** The UTF-8 encoding of a string. */
  function Encode(s: string): (bytes: seq<nat>)
    ensures |s| <= |bytes| <= 4 * |s|
    ensures forall k :: 0 <= k < |bytes| ==> bytes[k] < 256
  {
    if s == [] then [] else EncodeChar(s[0]) + Encode(s[1..])
  }

  /** A string of ASCII characters is stored as its character codes. */
  lemma {:induction false} EncodeAscii(s: string)
    requires forall k :: 0 <= k < |s| ==> s[k] as int < 0x80
    ensures |Encode(s)| == |s|
    ensures forall k :: 0 <= k < |s| ==> Encode(s)[k] == s[k] as int
    decreases |s|
  {
    if s != [] {
      EncodeAscii(s[1..]);
    }
  }
}
