/** The bytes behind a Rust `str`: its text in UTF-8. `s.len()` and
    `s.as_ptr()` see these bytes, not the characters. */
module Encoding {

  /** `u8`. */
  newtype byte = x: int | 0 <= x < 0x100

  /** The number of bytes UTF-8 gives a code point (table 3-6 of the Unicode
      Standard, section 3.9). */
  function Width(n: int): nat
  {
    if n < 0x80 then 1 else if n < 0x800 then 2 else if n < 0x1_0000 then 3 else 4
  }

  /** The lead byte announces the length of its sequence. */
  predicate LeadByte(b: byte, width: nat)
  {
    match width
    case 1 => b < 0x80
    case 2 => 0xC0 <= b < 0xE0
    case 3 => 0xE0 <= b < 0xF0
    case 4 => 0xF0 <= b < 0xF8
    case _ => false
  }

  /** The code point a sequence of one to four bytes stands for: the payload
      bits of the lead byte, then six bits from each continuation byte. */
  function CodePoint(b: seq<byte>): int
    requires 1 <= |b| <= 4
  {
    if |b| == 1 then b[0] as int
    else if |b| == 2 then (b[0] as int - 0xC0) * 0x40 + (b[1] as int - 0x80)
    else if |b| == 3 then ((b[0] as int - 0xE0) * 0x40 + (b[1] as int - 0x80)) * 0x40 + (b[2] as int - 0x80)
    else (((b[0] as int - 0xF0) * 0x40 + (b[1] as int - 0x80)) * 0x40 + (b[2] as int - 0x80)) * 0x40 + (b[3] as int - 0x80)
  }

  /** Six payload bits of a continuation byte `10xxxxxx`. */
  function Continuation(bits: int): (r: byte)
    requires 0 <= bits < 0x40
    ensures 0x80 <= r < 0xC0 && r as int - 0x80 == bits
  {
    (0x80 + bits) as byte
  }

  /** The UTF-8 encoding of one character: the shortest form, a lead byte that
      announces the length, continuation bytes `10xxxxxx`, and a code point
      that decodes back to the character. */
  function Utf8Char(c: char): (r: seq<byte>)
    ensures |r| == Width(c as int)
    ensures LeadByte(r[0], |r|)
    ensures forall k :: 1 <= k < |r| ==> 0x80 <= r[k] < 0xC0
    ensures CodePoint(r) == c as int
  {
    var n := c as int;
    var q1, b1 := n / 0x40, n % 0x40;
    var q2, b2 := q1 / 0x40, q1 % 0x40;
    var q3, b3 := q2 / 0x40, q2 % 0x40;
    if n < 0x80 then
      [n as byte]
    else if n < 0x800 then
      [(0xC0 + q1) as byte, Continuation(b1)]
    else if n < 0x1_0000 then
      [(0xE0 + q2) as byte, Continuation(b2), Continuation(b1)]
    else
      [(0xF0 + q3) as byte, Continuation(b3), Continuation(b2), Continuation(b1)]
  }

  /** The bytes of a string: each character's encoding, in order. */
  function Utf8(s: seq<char>): (r: seq<byte>)
    ensures |s| <= |r| <= 4 * |s|
  {
    if s == [] then [] else Utf8Char(s[0]) + Utf8(s[1..])
  }

  /** Encoding distributes over concatenation. */
  lemma {:induction false} Utf8Append(a: seq<char>, b: seq<char>)
    ensures Utf8(a + b) == Utf8(a) + Utf8(b)
  {
    if a == [] {
      assert a + b == b;
    } else {
      assert (a + b)[1..] == a[1..] + b;
      Utf8Append(a[1..], b);
    }
  }

  /** An ASCII string is its own bytes: one per character, same values. */
  lemma {:induction false} AsciiUtf8(s: seq<char>)
    requires forall i :: 0 <= i < |s| ==> (s[i] as int) < 0x80
    ensures |Utf8(s)| == |s|
    ensures forall i :: 0 <= i < |s| ==> Utf8(s)[i] as int == s[i] as int
  {
    if s != [] {
      AsciiUtf8(s[1..]);
      assert Utf8(s) == [s[0] as int as byte] + Utf8(s[1..]);
    }
  }

  /** Appending the nul character appends the byte 0. */
  lemma NulTerminated(s: seq<char>)
    ensures Utf8(s + ['\0']) == Utf8(s) + [0]
  {
    Utf8Append(s, ['\0']);
    assert Utf8(['\0']) == Utf8Char('\0') + Utf8([]);
  }
}
