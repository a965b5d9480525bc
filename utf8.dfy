/** Go strings are byte strings: `len(s)` counts bytes and `[]byte(s)` is the
    UTF-8 encoding of the text. This module gives that byte view of a Dafny
    string. A Dafny string holds Unicode scalar values, so only Go strings
    that are valid UTF-8 have a counterpart here. */
module Utf8 {

  /** One octet. */
  type byte = b: int | 0 <= b < 256

  /** Every character is a 7-bit code point, encoded as itself in one byte. */
  predicate IsAscii(s: string) {
    forall i :: 0 <= i < |s| ==> s[i] as int < 0x80
  }

  /** The one to four bytes that encode one Unicode scalar value. */
  function EncodeChar(c: char): (bs: seq<byte>)
    ensures 1 <= |bs| <= 4
    ensures |bs| == 1 <==> c as int < 0x80
    ensures c as int < 0x80 ==> bs[0] == c as int
  {
    var cp := c as int;
    if cp < 0x80 then [cp]
    else if cp < 0x800 then [0xC0 + cp / 0x40, 0x80 + cp % 0x40]
    else if cp < 0x1_0000 then [0xE0 + cp / 0x1000, 0x80 + (cp / 0x40) % 0x40, 0x80 + cp % 0x40]
    else [0xF0 + cp / 0x4_0000, 0x80 + (cp / 0x1000) % 0x40, 0x80 + (cp / 0x40) % 0x40, 0x80 + cp % 0x40]
  }

  /** The bytes of `[]byte(s)` in Go. */
  function Encode(s: string): (bs: seq<byte>)
    ensures |bs| >= |s|
    ensures |bs| == 0 <==> s == []
  {
    if s == [] then [] else EncodeChar(s[0]) + Encode(s[1..])
  }

  /** Encoding distributes over concatenation, as Go's `[]byte(a + b)` does. */
  lemma {:induction false} EncodeAppend(a: string, b: string)
    ensures Encode(a + b) == Encode(a) + Encode(b)
  {
    if a != [] {
      assert (a + b)[1..] == a[1..] + b;
      EncodeAppend(a[1..], b);
    } else {
      assert a + b == b;
    }
  }

  /** The byte length of a string is its character count exactly when it is ASCII. */
  lemma {:induction false} AsciiLength(s: string)
    ensures |Encode(s)| == |s| <==> IsAscii(s)
  {
    if s != [] {
      AsciiLength(s[1..]);
      if IsAscii(s[1..]) && s[0] as int < 0x80 {
        forall i | 0 <= i < |s| ensures s[i] as int < 0x80 {
          if i > 0 { assert s[i] == s[1..][i - 1]; }
        }
      }
      if IsAscii(s) {
        forall i | 0 <= i < |s| - 1 ensures s[1..][i] as int < 0x80 {
          assert s[1..][i] == s[i + 1];
        }
      }
    }
  }
}
