/**
 * The "base64" encoding of section 4 of RFC 4648 (alphabet A-Z, a-z, 0-9, '+', '/', padding '='),
 * which `Buffer.prototype.toString('base64')` produces, together with its decoding.
 */
module Base64 {
  import opened Common

  type Index = i: int | 0 <= i < 64

  /** The character for a 6-bit value, per the alphabet table of section 4 of RFC 4648. */
  function Digit(i: Index): (c: char)
    ensures c != '='
  {
    if i < 26 then ('A' as int + i) as char
    else if i < 52 then ('a' as int + (i - 26)) as char
    else if i < 62 then ('0' as int + (i - 52)) as char
    else if i == 62 then '+'
    else '/'
  }

  /** The 6-bit value of an alphabet character. */
  function ValueOf(c: char): (r: Option<Index>)
  {
    if 'A' <= c <= 'Z' then Some(c as int - 'A' as int)
    else if 'a' <= c <= 'z' then Some(c as int - 'a' as int + 26)
    else if '0' <= c <= '9' then Some(c as int - '0' as int + 52)
    else if c == '+' then Some(62)
    else if c == '/' then Some(63)
    else None
  }

  lemma ValueOfDigit(i: Index)
    ensures ValueOf(Digit(i)) == Some(i)
  {
  }

  /** The four characters for three bytes. */
  function Quantum(b0: Byte, b1: Byte, b2: Byte): string
  {
    [Digit(b0 / 4), Digit(b0 % 4 * 16 + b1 / 16), Digit(b1 % 16 * 4 + b2 / 64), Digit(b2 % 64)]
  }

  /** The encoding of a byte string: full quanta, then a final one padded with '='. */
  function Encode(b: seq<Byte>): (r: string)
    ensures |r| == 4 * ((|b| + 2) / 3)
  {
    if |b| == 0 then ""
    else if |b| == 1 then [Digit(b[0] / 4), Digit(b[0] % 4 * 16), '=', '=']
    else if |b| == 2 then [Digit(b[0] / 4), Digit(b[0] % 4 * 16 + b[1] / 16), Digit(b[1] % 16 * 4), '=']
    else Quantum(b[0], b[1], b[2]) + Encode(b[3..])
  }

  /** Encoding works quantum by quantum: a prefix whose length is a multiple of three encodes on its own. */
  lemma {:induction false} EncodeAppend(a: seq<Byte>, b: seq<Byte>)
    requires |a| % 3 == 0
    ensures Encode(a + b) == Encode(a) + Encode(b)
    decreases |a|
  {
    if a == [] {
      assert a + b == b;
    } else {
      assert (a + b)[3..] == a[3..] + b;
      EncodeAppend(a[3..], b);
    }
  }

  /** The three bytes four alphabet characters stand for. */
  function DecodeQuantum(q: string): Option<seq<Byte>>
    requires |q| == 4
  {
    match (ValueOf(q[0]), ValueOf(q[1]), ValueOf(q[2]), ValueOf(q[3]))
    case (Some(a), Some(b), Some(c), Some(d)) => Some([a as int * 4 + b / 16, b % 16 as int * 16 + c / 4, c % 4 as int * 64 + d])
    case _ => None
  }

  /** The bytes of a final quantum, which may end in one or two padding characters. */
  function DecodeFinal(q: string): Option<seq<Byte>>
    requires |q| == 4
  {
    if q[2] == '=' && q[3] == '=' then
      match (ValueOf(q[0]), ValueOf(q[1]))
      case (Some(a), Some(b)) => Some([a as int * 4 + b / 16])
      case _ => None
    else if q[3] == '=' then
      match (ValueOf(q[0]), ValueOf(q[1]), ValueOf(q[2]))
      case (Some(a), Some(b), Some(c)) => Some([a as int * 4 + b / 16, b % 16 as int * 16 + c / 4])
      case _ => None
    else DecodeQuantum(q)
  }

  /** Decoding: `None` for a string that is not a padded base64 text. */
  function Decode(s: string): Option<seq<Byte>>
    decreases |s|
  {
    if s == [] then Some([])
    else if |s| < 4 || |s| % 4 != 0 then None
    else if |s| == 4 then DecodeFinal(s)
    else
      match (DecodeQuantum(s[..4]), Decode(s[4..]))
      case (Some(g), Some(rest)) => Some(g + rest)
      case _ => None
  }

  lemma QuantumRoundTrip(b0: Byte, b1: Byte, b2: Byte)
    ensures DecodeQuantum(Quantum(b0, b1, b2)) == Some([b0, b1, b2])
  {
    var q := Quantum(b0, b1, b2);
    ValueOfDigit(b0 / 4);
    ValueOfDigit(b0 % 4 * 16 + b1 / 16);
    ValueOfDigit(b1 % 16 * 4 + b2 / 64);
    ValueOfDigit(b2 % 64);
    assert (b0 % 4 * 16 + b1 / 16) / 16 == b0 % 4;
    assert (b0 % 4 * 16 + b1 / 16) % 16 == b1 / 16;
    assert (b1 % 16 * 4 + b2 / 64) / 4 == b1 % 16;
    assert (b1 % 16 * 4 + b2 / 64) % 4 == b2 / 64;
  }

  lemma FinalOneRoundTrip(b0: Byte)
    ensures Decode(Encode([b0])) == Some([b0])
  {
    ValueOfDigit(b0 / 4);
    ValueOfDigit(b0 % 4 * 16);
  }

  lemma FinalTwoRoundTrip(b0: Byte, b1: Byte)
    ensures Decode(Encode([b0, b1])) == Some([b0, b1])
  {
    var x, y, z := b0 / 4, b0 % 4 * 16 + b1 / 16, b1 % 16 * 4;
    ValueOfDigit(x);
    ValueOfDigit(y);
    ValueOfDigit(z);
    assert y / 16 == b0 % 4 && y % 16 == b1 / 16 && z / 4 == b1 % 16;
    assert DecodeFinal([Digit(x), Digit(y), Digit(z), '=']) == Some([b0, b1]);
  }

  lemma LastQuantumRoundTrip(b0: Byte, b1: Byte, b2: Byte)
    ensures Decode(Quantum(b0, b1, b2)) == Some([b0, b1, b2])
  {
    var q := Quantum(b0, b1, b2);
    QuantumRoundTrip(b0, b1, b2);
    assert q[3] == Digit(b2 % 64);
    assert Decode(q) == DecodeFinal(q) == DecodeQuantum(q);
  }

  lemma DecodeCons(q: string, rest: string, g: seq<Byte>, r: seq<Byte>)
    requires |q| == 4 && |rest| >= 4 && |rest| % 4 == 0
    requires DecodeQuantum(q) == Some(g) && Decode(rest) == Some(r)
    ensures Decode(q + rest) == Some(g + r)
  {
    var s := q + rest;
    assert |s| % 4 == 0 && |s| > 4;
    assert s[..4] == q && s[4..] == rest;
  }

  lemma {:induction false} QuantaRoundTrip(b: seq<Byte>)
    requires |b| > 3
    requires Decode(Encode(b[3..])) == Some(b[3..])
    ensures Decode(Encode(b)) == Some(b)
  {
    var q, rest := Quantum(b[0], b[1], b[2]), Encode(b[3..]);
    QuantumRoundTrip(b[0], b[1], b[2]);
    assert Encode(b) == q + rest;
    assert |rest| == 4 * ((|b| - 1) / 3);
    DecodeCons(q, rest, [b[0], b[1], b[2]], b[3..]);
    assert b == [b[0], b[1], b[2]] + b[3..];
  }

  /** Decoding undoes encoding. */
  lemma {:induction false} DecodeEncode(b: seq<Byte>)
    ensures Decode(Encode(b)) == Some(b)
    decreases |b|
  {
    if |b| == 1 {
      assert b == [b[0]];
      FinalOneRoundTrip(b[0]);
    } else if |b| == 2 {
      assert b == [b[0], b[1]];
      FinalTwoRoundTrip(b[0], b[1]);
    } else if |b| == 3 {
      assert b == [b[0], b[1], b[2]] && Encode(b) == Quantum(b[0], b[1], b[2]);
      LastQuantumRoundTrip(b[0], b[1], b[2]);
    } else if |b| > 3 {
      DecodeEncode(b[3..]);
      QuantaRoundTrip(b);
    }
  }

  /** Distinct byte strings have distinct encodings. */
  lemma EncodeInjective(a: seq<Byte>, b: seq<Byte>)
    requires Encode(a) == Encode(b)
    ensures a == b
  {
    DecodeEncode(a);
    DecodeEncode(b);
  }
}
