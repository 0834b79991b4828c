/**
 * UTF-8 (RFC 3629), the byte encoding a password goes through before bcrypt
 * keys its cipher with it. Each Unicode scalar value becomes one to four
 * bytes; a string's encoding is its characters' encodings one after another.
 */
module Utf8Encoding {

  newtype byte = x: int | 0 <= x < 256

  /** How many bytes a character's encoding has, read from its first byte. */
  function SequenceLength(lead: byte): nat
  {
    if lead < 0x80 then 1 else if lead < 0xE0 then 2 else if lead < 0xF0 then 3 else 4
  }

  /** The scalar value a one- to four-byte sequence stands for. */
  function DecodeChar(b: seq<byte>): int
    requires 1 <= |b| <= 4
  {
    if |b| == 1 then b[0] as int
    else if |b| == 2 then (b[0] as int - 0xC0) * 0x40 + (b[1] as int - 0x80)
    else if |b| == 3 then ((b[0] as int - 0xE0) * 0x40 + (b[1] as int - 0x80)) * 0x40 + (b[2] as int - 0x80)
    else (((b[0] as int - 0xF0) * 0x40 + (b[1] as int - 0x80)) * 0x40 + (b[2] as int - 0x80)) * 0x40 + (b[3] as int - 0x80)
  }

  /**
   * The bytes of one character. The first byte tells the length, decoding
   * gives the character back, and only the NUL character has a zero byte.
   */
  function EncodeChar(c: char): (b: seq<byte>)
    ensures 1 <= |b| <= 4 && |b| == SequenceLength(b[0])
    ensures |b| == if c as int < 0x80 then 1 else if c as int < 0x800 then 2 else if c as int < 0x1_0000 then 3 else 4
    ensures forall i :: 1 <= i < |b| ==> 0x80 <= b[i] < 0xC0
    ensures DecodeChar(b) == c as int
    ensures forall i :: 0 <= i < |b| ==> (b[i] == 0 <==> c == '\0')
  {
    var n := c as int;
    if n < 0x80 then
      [n as byte]
    else if n < 0x800 then
      [(0xC0 + n / 0x40) as byte, (0x80 + n % 0x40) as byte]
    else if n < 0x1_0000 then
      assert n / 0x1000 == n / 0x40 / 0x40;
      [(0xE0 + n / 0x1000) as byte, (0x80 + n / 0x40 % 0x40) as byte, (0x80 + n % 0x40) as byte]
    else
      assert n / 0x1000 == n / 0x40 / 0x40;
      assert n / 0x4_0000 == n / 0x1000 / 0x40;
      [(0xF0 + n / 0x4_0000) as byte, (0x80 + n / 0x1000 % 0x40) as byte,
       (0x80 + n / 0x40 % 0x40) as byte, (0x80 + n % 0x40) as byte]
  }

  /** The UTF-8 bytes of a string. */
  function Encode(s: string): (b: seq<byte>)
    ensures |b| >= |s|
    ensures s == [] <==> b == []
  {
    if s == [] then [] else EncodeChar(s[0]) + Encode(s[1..])
  }

  /** Encoding distributes over concatenation. */
  lemma {:induction false} EncodeConcat(s: string, t: string)
    ensures Encode(s + t) == Encode(s) + Encode(t)
  {
    if s == [] {
      assert s + t == t;
    } else {
      assert (s + t)[0] == s[0];
      assert (s + t)[1..] == s[1..] + t;
      EncodeConcat(s[1..], t);
    }
  }

  /** Distinct strings have distinct encodings: the bytes give the string back. */
  lemma {:induction false} EncodeInjective(s: string, t: string)
    requires Encode(s) == Encode(t)
    ensures s == t
  {
    if s != [] {
      var es, et := EncodeChar(s[0]), EncodeChar(t[0]);
      assert es[0] == Encode(s)[0] == Encode(t)[0] == et[0];
      assert es == Encode(s)[..|es|] == Encode(t)[..|et|] == et;
      assert s[0] as int == DecodeChar(es) == DecodeChar(et) == t[0] as int;
      assert Encode(s[1..]) == Encode(s)[|es|..] == Encode(t)[|et|..] == Encode(t[1..]);
      EncodeInjective(s[1..], t[1..]);
      assert s == [s[0]] + s[1..];
      assert t == [t[0]] + t[1..];
    }
  }

  /** A string without the NUL character encodes without a zero byte. */
  lemma {:induction false} EncodeWithoutNul(s: string)
    requires forall i :: 0 <= i < |s| ==> s[i] != '\0'
    ensures forall i :: 0 <= i < |Encode(s)| ==> Encode(s)[i] != 0
  {
    if s != [] {
      EncodeWithoutNul(s[1..]);
      var e := EncodeChar(s[0]);
      forall i | 0 <= i < |Encode(s)|
        ensures Encode(s)[i] != 0
      {
        if i >= |e| {
          assert Encode(s)[i] == Encode(s[1..])[i - |e|];
        }
      }
    }
  }

  /** An ASCII string encodes as one byte per character, each the character's code. */
  lemma {:induction false} EncodeAscii(s: string)
    requires forall i :: 0 <= i < |s| ==> s[i] as int < 0x80
    ensures |Encode(s)| == |s|
    ensures forall i :: 0 <= i < |s| ==> Encode(s)[i] as int == s[i] as int
  {
    if s != [] {
      EncodeAscii(s[1..]);
      forall i | 0 <= i < |s|
        ensures Encode(s)[i] as int == s[i] as int
      {
        if i > 0 {
          assert Encode(s)[i] == Encode(s[1..])[i - 1];
        }
      }
    }
  }
}
