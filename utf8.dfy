/** UTF-8 encoding of Unicode scalar values, as `Buffer.from(string)` performs it. */
module Utf8 {
  import opened Common

  /** The one to four bytes that encode one scalar value. */
  function EncodeChar(c: char): (r: seq<Byte>)
    ensures |r| == (if c as int < 0x80 then 1 else if c as int < 0x800 then 2
                    else if c as int < 0x10000 then 3 else 4)
  {
    var n := c as int;
    if n < 0x80 then [n]
    else if n < 0x800 then [0xC0 + n / 64, 0x80 + n % 64]
    else if n < 0x10000 then [0xE0 + n / 4096, 0x80 + n / 64 % 64, 0x80 + n % 64]
    else [0xF0 + n / 262144, 0x80 + n / 4096 % 64, 0x80 + n / 64 % 64, 0x80 + n % 64]
  }

  /** The UTF-8 bytes of a string, character by character. */
  function Encode(s: string): (r: seq<Byte>)
    ensures |s| <= |r| <= 4 * |s|
  {
    if s == [] then [] else EncodeChar(s[0]) + Encode(s[1..])
  }

  lemma {:induction false} EncodeAppend(s: string, t: string)
    ensures Encode(s + t) == Encode(s) + Encode(t)
  {
    if s == [] {
      assert s + t == t;
    } else {
      assert (s + t)[1..] == s[1..] + t;
      EncodeAppend(s[1..], t);
    }
  }

  /** The lead byte alone tells how many bytes a character's encoding takes. */
  function LengthFromLead(b: Byte): nat
  {
    if b < 0x80 then 1 else if b < 0xE0 then 2 else if b < 0xF0 then 3 else 4
  }

  lemma LeadGivesLength(c: char)
    ensures LengthFromLead(EncodeChar(c)[0]) == |EncodeChar(c)|
  {
  }

  /** The scalar value a one- to four-byte encoding carries, read back from its payload bits. */
  function Payload(e: seq<Byte>): int
  {
    if |e| == 1 then e[0]
    else if |e| == 2 then (e[0] as int - 0xC0) * 64 + (e[1] as int - 0x80)
    else if |e| == 3 then (e[0] as int - 0xE0) * 4096 + (e[1] as int - 0x80) * 64 + (e[2] as int - 0x80)
    else if |e| == 4 then (e[0] as int - 0xF0) * 262144 + (e[1] as int - 0x80) * 4096 + (e[2] as int - 0x80) * 64 + (e[3] as int - 0x80)
    else 0
  }

  lemma SixBitDigits(n: nat)
    ensures n / 64 / 64 == n / 4096 && n / 4096 / 64 == n / 262144
    ensures n == n / 64 * 64 + n % 64
    ensures n / 64 == n / 4096 * 64 + n / 64 % 64
    ensures n / 4096 == n / 262144 * 64 + n / 4096 % 64
  {
    var q1, r1 := n / 64, n % 64;
    var q2, r2 := q1 / 64, q1 % 64;
    var q3, r3 := q2 / 64, q2 % 64;
    assert n == 4096 * q2 + 64 * r2 + r1;
    assert n / 4096 == q2;
    assert n == 262144 * q3 + 4096 * r3 + 64 * r2 + r1;
    assert n / 262144 == q3;
  }

  /** Reading the payload bits back gives the encoded scalar value. */
  lemma PayloadOfEncodeChar(c: char)
    ensures Payload(EncodeChar(c)) == c as int
  {
    SixBitDigits(c as int);
  }

  lemma EncodeCharInjective(c: char, d: char)
    requires EncodeChar(c) == EncodeChar(d)
    ensures c == d
  {
    PayloadOfEncodeChar(c);
    PayloadOfEncodeChar(d);
  }

  /** Distinct strings have distinct UTF-8 encodings. */
  lemma {:induction false} EncodeInjective(s: string, t: string)
    requires Encode(s) == Encode(t)
    ensures s == t
  {
    if s != [] && t != [] {
      var es, et := EncodeChar(s[0]), EncodeChar(t[0]);
      LeadGivesLength(s[0]);
      LeadGivesLength(t[0]);
      assert Encode(s)[0] == es[0] && Encode(t)[0] == et[0];
      assert |es| == |et|;
      assert es == Encode(s)[..|es|] && et == Encode(t)[..|et|];
      EncodeCharInjective(s[0], t[0]);
      assert Encode(s[1..]) == Encode(s)[|es|..] == Encode(t)[|et|..] == Encode(t[1..]);
      EncodeInjective(s[1..], t[1..]);
      assert s == [s[0]] + s[1..] && t == [t[0]] + t[1..];
    }
  }
}
