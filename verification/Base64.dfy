/** The URL-safe text form of bytes (section 5 of RFC 4648), and the forgiving decoder that reads it back. */
module Base64 {

  type Byte = n: int | 0 <= n < 256
  type Sextet = n: int | 0 <= n < 64
  type Bytes = seq<Byte>

  datatype Decoded = Bytes(bytes: seq<Byte>) | Malformed

  function Letter(v: Sextet): char {
    if v < 26 then ('A' as int + v) as char
    else if v < 52 then ('a' as int + (v - 26)) as char
    else if v < 62 then ('0' as int + (v - 52)) as char
    else if v == 62 then '-'
    else '_'
  }

  datatype Reading = Digit(v: Sextet) | Skipped

  /** Both alphabets are read; every other ASCII character is skipped. */
  function Read(c: char): Reading {
    if 'A' <= c <= 'Z' then Digit(c as int - 'A' as int)
    else if 'a' <= c <= 'z' then Digit(c as int - 'a' as int + 26)
    else if '0' <= c <= '9' then Digit(c as int - '0' as int + 52)
    else if c == '-' || c == '+' then Digit(62)
    else if c == '_' || c == '/' then Digit(63)
    else Skipped
  }

  lemma ReadLetter(v: Sextet)
    ensures Read(Letter(v)) == Digit(v) && Letter(v) != '=' && Letter(v) != '.'
  {
  }

  function Encode(b: Bytes): string {
    if b == [] then ""
    else if |b| == 1 then [Letter(b[0] / 4), Letter(b[0] % 4 * 16), '=', '=']
    else if |b| == 2 then [Letter(b[0] / 4), Letter(b[0] % 4 * 16 + b[1] / 16), Letter(b[1] % 16 * 4), '=']
    else
      [Letter(b[0] / 4), Letter(b[0] % 4 * 16 + b[1] / 16), Letter(b[1] % 16 * 4 + b[2] / 64), Letter(b[2] % 64)]
      + Encode(b[3..])
  }

  /** The alphabet of the standard, safe for URLs and file names. */
  const UPPER := "ABCDEFGHIJKLMNOPQRSTUVWXYZ"
  const LOWER := "abcdefghijklmnopqrstuvwxyz"
  const OTHER := "0123456789-_"
  const ALPHABET := UPPER + LOWER + OTHER

  lemma LetterIs(v: Sextet)
    ensures Letter(v) == ALPHABET[v]
  {
    if v < 26 {
      assert ALPHABET[v] == UPPER[v];
    } else if v < 52 {
      assert ALPHABET[v] == LOWER[v - 26];
    } else {
      assert ALPHABET[v] == OTHER[v - 52];
    }
  }

  /** Three bytes as one number of 24 bits, most significant first. */
  function Number(a: int, b: int, c: int): int {
    a * 65536 + b * 256 + c
  }

  /** The digit of so many units in the number. */
  function DigitOf(x: int, unit: int): char
    requires unit > 0
  {
    ALPHABET[x / unit % 64]
  }

  lemma EncodeOne(a: Byte)
    ensures Encode([a]) == [Letter(a / 4), Letter(a % 4 * 16), '=', '=']
  {
    hide Letter;
  }

  lemma EncodeTwo(a: Byte, b: Byte)
    ensures Encode([a, b]) == [Letter(a / 4), Letter(a % 4 * 16 + b / 16), Letter(b % 16 * 4), '=']
  {
    hide Letter;
  }

  lemma EncodeThree(a: Byte, b: Byte, c: Byte, rest: Bytes)
    ensures Encode([a, b, c] + rest)
            == [Letter(a / 4), Letter(a % 4 * 16 + b / 16), Letter(b % 16 * 4 + c / 64), Letter(c % 64)] + Encode(rest)
  {
    hide Letter;
    assert ([a, b, c] + rest)[3..] == rest;
  }

  /** Three bytes are written as the four digits of six bits of their number; of one or two bytes left over, filled up with
      zero bits, as many digits as hold them, padded to four. */
  lemma EncodeFollowsTheStandard(a: Byte, b: Byte, c: Byte, rest: Bytes)
    ensures Encode([]) == ""
    ensures var x := Number(a, 0, 0); Encode([a]) == [DigitOf(x, 262144), DigitOf(x, 4096), '=', '=']
    ensures var x := Number(a, b, 0); Encode([a, b]) == [DigitOf(x, 262144), DigitOf(x, 4096), DigitOf(x, 64), '=']
    ensures var x := Number(a, b, c);
            Encode([a, b, c] + rest) == [DigitOf(x, 262144), DigitOf(x, 4096), DigitOf(x, 64), DigitOf(x, 1)] + Encode(rest)
  {
    EncodeNone();
    hide Letter, Number, DigitOf, Encode;
    EncodeOne(a);
    EncodeTwo(a, b);
    EncodeThree(a, b, c, rest);
    Digits(a, 0, 0);
    Digits(a, b, 0);
    Digits(a, b, c);
  }

  lemma EncodeNone()
    ensures Encode([]) == ""
  {
  }

  lemma Digits(a: Byte, b: Byte, c: Byte)
    ensures var x := Number(a, b, c);
            && DigitOf(x, 262144) == Letter(a / 4) && DigitOf(x, 4096) == Letter(a % 4 * 16 + b / 16)
            && DigitOf(x, 64) == Letter(b % 16 * 4 + c / 64) && DigitOf(x, 1) == Letter(c % 64)
  {
    hide Letter;
    var n, m, l, k := a / 4, a % 4 * 16 + b / 16, b % 16 * 4 + c / 64, c % 64;
    assert Number(a, b, c) == n * 262144 + m * 4096 + l * 64 + k;
    Radix(n, m, l, k);
    LetterIs(n);
    LetterIs(m);
    LetterIs(l);
    LetterIs(k);
  }

  lemma Radix(n: Sextet, m: Sextet, l: Sextet, k: Sextet)
    ensures var x: int := n * 262144 + m * 4096 + l * 64 + k;
            x / 262144 % 64 == n && x / 4096 % 64 == m && x / 64 % 64 == l && x / 1 % 64 == k
  {
    var x: int := n * 262144 + m * 4096 + l * 64 + k;
    assert x / 64 == n * 4096 + m * 64 + l;
    assert x / 4096 == n * 64 + m;
  }

  /** Where the decoder stands in a group of four: how many digits it has read and the bits not yet given out. */
  datatype Stand = Stand(at: nat, left: nat)

  /** The bits a digit leaves over, and the byte it completes if any. */
  function Shift(s: Stand, v: Sextet): (r: (Stand, Bytes))
    requires s.at < 4 && (s.at == 0 || s.left < 64) && (s.at == 2 ==> s.left < 16) && (s.at == 3 ==> s.left < 4)
    ensures Well(r.0)
  {
    if s.at == 0 then (Stand(1, v), [])
    else if s.at == 1 then (Stand(2, v % 16), [s.left * 4 + v / 16])
    else if s.at == 2 then (Stand(3, v % 4), [s.left * 16 + v / 4])
    else (Stand(0, 0), [s.left * 64 + v])
  }

  predicate Well(s: Stand) {
    s.at < 4 && (s.at == 0 || s.left < 64) && (s.at == 2 ==> s.left < 16) && (s.at == 3 ==> s.left < 4)
  }

  function Prepend(b: Bytes, d: Decoded): Decoded {
    if d.Bytes? then Bytes(b + d.bytes) else d
  }

  /** One character at a time: enough padding ends the text, too few digits at the end are an error. */
  function DecodeFrom(text: string, s: Stand, pads: nat): Decoded
    requires Well(s)
  {
    if text == "" then (if s.at == 0 then Bytes([]) else Malformed)
    else if text[0] == '=' then
      if s.at >= 2 && s.at + pads + 1 >= 4 then Bytes([])
      else DecodeFrom(text[1..], s, if s.at >= 2 then pads + 1 else pads)
    else
      match Read(text[0])
      case Skipped => DecodeFrom(text[1..], s, pads)
      case Digit(v) =>
        var (next, out) := Shift(s, v);
        Prepend(out, DecodeFrom(text[1..], next, 0))
  }

  predicate Ascii(text: string) {
    forall i :: 0 <= i < |text| ==> text[i] as int < 128
  }

  function Decode(text: string): Decoded {
    if Ascii(text) then DecodeFrom(text, Stand(0, 0), 0) else Malformed
  }

  lemma OneDigit(v: Sextet, rest: string, s: Stand, pads: nat)
    requires Well(s)
    ensures DecodeFrom([Letter(v)] + rest, s, pads) == Prepend(Shift(s, v).1, DecodeFrom(rest, Shift(s, v).0, 0))
  {
    ReadLetter(v);
    assert ([Letter(v)] + rest)[1..] == rest;
  }

  lemma FourDigits(a: Byte, b: Byte, c: Byte, rest: string, pads: nat)
    ensures DecodeFrom([Letter(a / 4), Letter(a % 4 * 16 + b / 16), Letter(b % 16 * 4 + c / 64), Letter(c % 64)] + rest,
                       Stand(0, 0), pads)
            == Prepend([a, b, c], DecodeFrom(rest, Stand(0, 0), 0))
  {
    hide DecodeFrom, Shift, Letter;
    var v0, v1, v2, v3 := a / 4, a % 4 * 16 + b / 16, b % 16 * 4 + c / 64, c % 64;
    Steps(v0, v1, v2, v3);
    OneDigit(v3, rest, Stand(3, v2 % 4), 0);
    OneDigit(v2, [Letter(v3)] + rest, Stand(2, v1 % 16), 0);
    OneDigit(v1, [Letter(v2)] + ([Letter(v3)] + rest), Stand(1, v0), 0);
    OneDigit(v0, [Letter(v1)] + ([Letter(v2)] + ([Letter(v3)] + rest)), Stand(0, 0), pads);
    assert [Letter(v0), Letter(v1), Letter(v2), Letter(v3)] + rest
        == [Letter(v0)] + ([Letter(v1)] + ([Letter(v2)] + ([Letter(v3)] + rest)));
    Bits(a, b, c);
    var d := DecodeFrom(rest, Stand(0, 0), 0);
    if d.Bytes? {
      assert [a] + ([b] + ([c] + d.bytes)) == [a, b, c] + d.bytes;
    }
  }

  lemma Bits(a: Byte, b: Byte, c: Byte)
    ensures var v0, v1, v2, v3 := a / 4, a % 4 * 16 + b / 16, b % 16 * 4 + c / 64, c % 64;
            v0 * 4 + v1 / 16 == a && v1 % 16 * 16 + v2 / 4 == b && v2 % 4 * 64 + v3 == c
  {
  }

  lemma Steps(v0: Sextet, v1: Sextet, v2: Sextet, v3: Sextet)
    ensures Shift(Stand(0, 0), v0) == (Stand(1, v0), []) && Shift(Stand(1, v0), v1) == (Stand(2, v1 % 16), [v0 * 4 + v1 / 16])
    ensures Shift(Stand(2, v1 % 16), v2) == (Stand(3, v2 % 4), [v1 % 16 * 16 + v2 / 4])
    ensures Shift(Stand(3, v2 % 4), v3) == (Stand(0, 0), [v2 % 4 * 64 + v3])
  {
  }

  lemma TwoLeft(a: Byte, b: Byte, pads: nat)
    ensures DecodeFrom([Letter(a / 4), Letter(a % 4 * 16 + b / 16), Letter(b % 16 * 4), '='], Stand(0, 0), pads) == Bytes([a, b])
  {
    hide DecodeFrom, Shift, Letter;
    var v0, v1, v2 := a / 4, a % 4 * 16 + b / 16, b % 16 * 4;
    Bits(a, b, 0);
    Steps(v0, v1, v2, 0);
    Padded("=", Stand(3, v2 % 4));
    OneDigit(v2, "=", Stand(2, v1 % 16), 0);
    OneDigit(v1, [Letter(v2)] + "=", Stand(1, v0), 0);
    OneDigit(v0, [Letter(v1)] + ([Letter(v2)] + "="), Stand(0, 0), pads);
    assert [Letter(v0), Letter(v1), Letter(v2), '='] == [Letter(v0)] + ([Letter(v1)] + ([Letter(v2)] + "="));
    assert [a] + ([b] + []) == [a, b];
  }

  lemma OneLeft(a: Byte, pads: nat)
    ensures DecodeFrom([Letter(a / 4), Letter(a % 4 * 16), '=', '='], Stand(0, 0), pads) == Bytes([a])
  {
    hide DecodeFrom;
    var v0, v1 := a / 4, a % 4 * 16;
    Padded("==", Stand(2, v1 % 16));
    OneDigit(v1, "==", Stand(1, v0), 0);
    OneDigit(v0, [Letter(v1)] + "==", Stand(0, 0), pads);
    assert [Letter(v0), Letter(v1), '=', '='] == [Letter(v0)] + ([Letter(v1)] + "==");
    Bits(a, 0, 0);
    assert [a] + [] == [a];
  }

  lemma Padded(text: string, s: Stand)
    requires Well(s) && ((s.at == 3 && text == "=") || (s.at == 2 && text == "=="))
    ensures DecodeFrom(text, s, 0) == Bytes([])
  {
    assert text[1..] == "=" || text[1..] == "";
  }

  /** What is written is read back. */
  lemma {:induction false} DecodeEncode(b: Bytes)
    ensures Decode(Encode(b)) == Bytes(b)
  {
    EncodeIsPlain(b);
    DecodeEncodeFrom(b);
  }

  lemma {:induction false} DecodeEncodeFrom(b: Bytes)
    ensures DecodeFrom(Encode(b), Stand(0, 0), 0) == Bytes(b)
  {
    hide DecodeFrom;
    if b == [] {
      Nothing();
    } else if |b| == 1 {
      OneLeft(b[0], 0);
      assert b == [b[0]];
    } else if |b| == 2 {
      TwoLeft(b[0], b[1], 0);
      assert b == [b[0], b[1]];
    } else {
      FourDigits(b[0], b[1], b[2], Encode(b[3..]), 0);
      DecodeEncodeFrom(b[3..]);
      assert b == [b[0], b[1], b[2]] + b[3..];
    }
  }

  lemma Nothing()
    ensures DecodeFrom("", Stand(0, 0), 0) == Bytes([])
  {
  }

  /** The written form is plain text and never holds the separator of vault blobs. */
  lemma {:induction false} EncodeIsPlain(b: Bytes)
    ensures Ascii(Encode(b)) && '.' !in Encode(b)
  {
    if |b| >= 3 {
      EncodeIsPlain(b[3..]);
    }
  }

  lemma {:induction false} CutShort(b: Bytes, pads: nat)
    requires |b| % 3 != 0
    ensures DecodeFrom(Encode(b)[..|Encode(b)| - 1], Stand(0, 0), pads) == Malformed
    decreases |b|, 1
  {
    hide DecodeFrom, Shift, Letter;
    if |b| == 1 {
      var v0, v1 := b[0] / 4, b[0] % 4 * 16;
      Steps(v0, v1, 0, 0);
      Unpadded("=", Stand(2, v1 % 16));
      OneDigit(v1, "=", Stand(1, v0), 0);
      OneDigit(v0, [Letter(v1)] + "=", Stand(0, 0), pads);
      assert Encode(b)[..3] == [Letter(v0)] + ([Letter(v1)] + "=");
    } else if |b| == 2 {
      var v0, v1, v2 := b[0] / 4, b[0] % 4 * 16 + b[1] / 16, b[1] % 16 * 4;
      Steps(v0, v1, v2, 0);
      Unpadded("", Stand(3, v2 % 4));
      OneDigit(v2, "", Stand(2, v1 % 16), 0);
      OneDigit(v1, [Letter(v2)] + "", Stand(1, v0), 0);
      OneDigit(v0, [Letter(v1)] + ([Letter(v2)] + ""), Stand(0, 0), pads);
      assert Encode(b)[..3] == [Letter(v0)] + ([Letter(v1)] + ([Letter(v2)] + ""));
    } else {
      CutGroup(b, pads);
    }
  }

  lemma {:induction false} CutGroup(b: Bytes, pads: nat)
    requires |b| >= 3 && |b| % 3 != 0
    ensures DecodeFrom(Encode(b)[..|Encode(b)| - 1], Stand(0, 0), pads) == Malformed
    decreases |b|, 0
  {
    hide DecodeFrom, Shift, Letter;
    var rest := Encode(b[3..]);
    CutShort(b[3..], 0);
    EncodeThree(b[0], b[1], b[2], b[3..]);
    assert b == [b[0], b[1], b[2]] + b[3..];
    assert rest != "" by {
      EncodesToSomething(b[3..]);
    }
    FourDigits(b[0], b[1], b[2], rest[..|rest| - 1], pads);
    assert Encode(b)[..|Encode(b)| - 1]
        == [Letter(b[0] / 4), Letter(b[0] % 4 * 16 + b[1] / 16), Letter(b[1] % 16 * 4 + b[2] / 64), Letter(b[2] % 64)]
           + rest[..|rest| - 1];
  }

  lemma EncodesToSomething(b: Bytes)
    requires b != []
    ensures Encode(b) != ""
  {
    hide Letter;
  }

  lemma Unpadded(text: string, s: Stand)
    requires Well(s) && ((s.at == 3 && text == "") || (s.at == 2 && text == "="))
    ensures DecodeFrom(text, s, 0) == Malformed
  {
    assert text != "" ==> text[1..] == "";
  }

  /** What is not plain text is not read, and neither is what lost its last padding. */
  lemma WhatIsMalformed(text: string, b: Bytes)
    ensures (exists c | c in text :: c as int >= 128) ==> Decode(text) == Malformed
    ensures |b| % 3 != 0 ==> Decode(Encode(b)[..|Encode(b)| - 1]) == Malformed
  {
    if |b| % 3 != 0 {
      CutShort(b, 0);
    }
  }

  /** Reading back is not unique: a stray character changes the text and not the bytes. */
  lemma StrayCharactersAreIgnored(b: Bytes)
    ensures Decode("!" + Encode(b)) == Bytes(b) && "!" + Encode(b) != Encode(b)
  {
    hide DecodeFrom;
    EncodeIsPlain(b);
    DecodeEncodeFrom(b);
    SkipOne(Encode(b));
  }

  lemma SkipOne(text: string)
    ensures DecodeFrom("!" + text, Stand(0, 0), 0) == DecodeFrom(text, Stand(0, 0), 0)
  {
    assert ("!" + text)[1..] == text;
  }
}
