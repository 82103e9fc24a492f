/** encoding/hex and encoding/base64 as far as digests travel in them: what is written, and what the decoders make of
    any text.

    The hexadecimal decoder reads either case and wants an even number of digits. The base64 decoder reads the standard
    alphabet of section 4 of RFC 4648 with padding, skips line ends wherever they stand, and does not look at the spare
    bits of a padded group. Each gives back what its encoder wrote; and since every hexadecimal digit is also a base64
    letter, what the base64 decoder makes of hexadecimal is decided by its length alone. */
module Encodings {
  import opened Utf8
  import opened Wrappers
  import Hex
  import Text

  // ------------------------------------------------------------------ encoding/hex

  /** hex.EncodeToString. */
  function ToHex(d: seq<byte>): string {
    if d == [] then "" else Hex.TwoDigits(d[0], false) + ToHex(d[1..])
  }

  /** hex.DecodeString. */
  function FromHex(s: string): Option<seq<byte>> {
    if s == "" then Some([])
    else if |s| == 1 then None
    else
      match (Hex.ValueOf(s[0]), Hex.ValueOf(s[1]), FromHex(s[2..]))
      case (Some(high), Some(low), Some(rest)) =>
        (if high < 16 && low < 16 then Some([high * 16 + low] + rest) else None)
      case _ => None
  }

  // ------------------------------------------------------------------ encoding/base64

  /** The alphabet of section 4 of RFC 4648. */
  function Letter(n: nat): char
    requires n < 64
  {
    if n < 26 then (0x41 + n) as char
    else if n < 52 then (0x61 + n - 26) as char
    else if n < 62 then (0x30 + n - 52) as char
    else if n == 62 then '+'
    else '/'
  }

  function ValueOf(c: char): (r: Option<nat>)
    ensures r.Some? ==> r.value < 64
  {
    if 'A' <= c <= 'Z' then Some(c as int - 0x41)
    else if 'a' <= c <= 'z' then Some(c as int - 0x61 + 26)
    else if '0' <= c <= '9' then Some(c as int - 0x30 + 52)
    else if c == '+' then Some(62)
    else if c == '/' then Some(63)
    else None
  }

  /** Twenty-four bits as three bytes. */
  function Bytes(v: nat): (r: seq<byte>)
    requires v < 0x1000000
    ensures |r| == 3
  {
    [v / 0x10000, v / 0x100 % 0x100, v % 0x100]
  }

  /** Twenty-four bits as four letters. */
  function Letters(v: nat): string
    requires v < 0x1000000
  {
    [Letter(v / 0x40000), Letter(v / 0x1000 % 0x40), Letter(v / 0x40 % 0x40), Letter(v % 0x40)]
  }

  /** Three bytes as twenty-four bits. */
  function Word(a: byte, b: byte, c: byte): (v: nat)
    ensures v < 0x1000000
  {
    a as int * 0x10000 + b as int * 0x100 + c as int
  }

  /** Base64 with padding. */
  function ToBase64(d: seq<byte>): string {
    if d == [] then ""
    else if |d| == 1 then Letters(Word(d[0], 0, 0))[..2] + "=="
    else if |d| == 2 then Letters(Word(d[0], d[1], 0))[..3] + "="
    else Letters(Word(d[0], d[1], d[2])) + ToBase64(d[3..])
  }

  /** What the decoder reads: line ends are skipped wherever they stand. */
  function WithoutLineEnds(s: string): string {
    if s == "" then ""
    else if s[0] == '\r' || s[0] == '\n' then WithoutLineEnds(s[1..])
    else [s[0]] + WithoutLineEnds(s[1..])
  }

  /** Four letters at a time; padding only at the very end, its spare bits ignored. */
  function FromLetters(s: string): Option<seq<byte>> {
    if s == "" then Some([])
    else if |s| < 4 then None
    else if ValueOf(s[0]).None? || ValueOf(s[1]).None? then None
    else
      var v := ValueOf(s[0]).value * 0x40000 + ValueOf(s[1]).value * 0x1000;
      if ValueOf(s[2]).None? then
        if s[2..] == "==" then Some(Bytes(v)[..1]) else None
      else if ValueOf(s[3]).None? then
        if s[3..] == "=" then Some(Bytes(v + ValueOf(s[2]).value * 0x40)[..2]) else None
      else
        match FromLetters(s[4..])
        case Some(rest) => Some(Bytes(v + ValueOf(s[2]).value * 0x40 + ValueOf(s[3]).value) + rest)
        case None => None
  }

  /** base64.StdEncoding.DecodeString. */
  function FromBase64(s: string): Option<seq<byte>> {
    FromLetters(WithoutLineEnds(s))
  }

  // ------------------------------------------------------------------ the alphabets

  /** What is written in hexadecimal is lower case, two digits for each byte. */
  lemma {:induction false} HexIsLowerCase(d: seq<byte>)
    ensures |ToHex(d)| == 2 * |d|
    ensures forall i | 0 <= i < |ToHex(d)| :: '0' <= ToHex(d)[i] <= '9' || 'a' <= ToHex(d)[i] <= 'f'
  {
    if d != [] {
      HexIsLowerCase(d[1..]);
    }
  }

  /** What is read as hexadecimal: an even number of digits, in either case. */
  lemma {:induction false} HexIsReadIff(s: string)
    ensures FromHex(s).Some?
            <==> && |s| % 2 == 0
                 && forall i | 0 <= i < |s| ::
                      '0' <= s[i] <= '9' || 'a' <= s[i] <= 'f' || 'A' <= s[i] <= 'F'
  {
    if |s| >= 2 {
      HexIsReadIff(s[2..]);
      assert forall i | 2 <= i < |s| :: s[i] == s[2..][i - 2];
    }
  }

  /** The standard alphabet: the capitals, the small letters, the digits, a plus sign and a slash, in this order. */
  lemma {:induction false} AlphabetIs(n: nat)
    requires n < 64
    ensures Letter(0) == 'A' && Letter(26) == 'a' && Letter(52) == '0' && Letter(62) == '+' && Letter(63) == '/'
    ensures n + 1 !in {26, 52, 62, 63, 64} ==> Letter(n + 1) as int == Letter(n) as int + 1
  {}

  lemma {:induction false} LetterIff(c: char)
    ensures ValueOf(c).Some?
            <==> 'A' <= c <= 'Z' || 'a' <= c <= 'z' || '0' <= c <= '9' || c == '+' || c == '/'
    ensures ValueOf(c).Some? ==> Letter(ValueOf(c).value) == c
  {}

  /** Line ends, of either kind and wherever they stand, are nothing to the decoder. */
  lemma {:induction false} LineEndsAside(a: string, c: char, b: string)
    requires c == '\r' || c == '\n'
    ensures WithoutLineEnds(a + [c] + b) == WithoutLineEnds(a + b)
    ensures FromBase64(a + [c] + b) == FromBase64(a + b)
  {
    if a == "" {
      assert a + [c] + b == [c] + b && a + b == b;
      assert ([c] + b)[1..] == b;
    } else {
      LineEndsAside(a[1..], c, b);
      assert (a + [c] + b)[1..] == a[1..] + [c] + b && (a + b)[1..] == a[1..] + b;
    }
    hide FromLetters;
  }

  // ------------------------------------------------------------------ round trips

  lemma {:induction false} HexRoundTrip(d: seq<byte>)
    ensures FromHex(ToHex(d)) == Some(d) && |ToHex(d)| == 2 * |d|
  {
    if d != [] {
      HexRoundTrip(d[1..]);
      Hex.DigitRoundTrip(d[0] / 16, false);
      Hex.DigitRoundTrip(d[0] % 16, false);
      hide Hex.Digit, Hex.ValueOf;
      assert ToHex(d)[2..] == ToHex(d[1..]);
      assert [d[0]] + d[1..] == d;
    }
  }

  lemma {:induction false} LetterRoundTrip(n: nat)
    requires n < 64
    ensures ValueOf(Letter(n)) == Some(n) && ValueOf('=') == None
  {}

  lemma {:induction false} Unpacked(v: nat)
    requires v < 0x1000000
    ensures v / 0x40000 * 0x40000 + v / 0x1000 % 0x40 * 0x1000 + v / 0x40 % 0x40 * 0x40 + v % 0x40 == v
  {
    Sixes(v);
  }

  lemma {:induction false} BytesOf(a: byte, b: byte, c: byte)
    ensures Bytes(Word(a, b, c)) == [a, b, c]
  {
    var v := Word(a, b, c);
    assert v / 0x100 == a as int * 0x100 + b;
    assert v / 0x10000 == v / 0x100 / 0x100;
  }

  lemma {:induction false} FourLetters(v: nat, rest: string)
    requires v < 0x1000000 && FromLetters(rest).Some?
    ensures FromLetters(Letters(v) + rest) == Some(Bytes(v) + FromLetters(rest).value)
  {
    LetterRoundTrip(v / 0x40000);
    LetterRoundTrip(v / 0x1000 % 0x40);
    LetterRoundTrip(v / 0x40 % 0x40);
    LetterRoundTrip(v % 0x40);
    Unpacked(v);
    var s := Letters(v) + rest;
    assert s[4..] == rest;
    hide Letter, ValueOf, Bytes;
  }

  lemma {:induction false} LastTwo(x: nat, y: nat)
    requires x < 64 && y < 64
    ensures FromLetters([Letter(x), Letter(y)] + "==") == Some(Bytes(x * 0x40000 + y * 0x1000)[..1])
  {
    LetterRoundTrip(x);
    LetterRoundTrip(y);
    var s := [Letter(x), Letter(y)] + "==";
    assert s[2..] == "==" && s[2] == '=' && s[3] == '=';
    hide Letter, ValueOf, Bytes;
  }

  lemma {:induction false} LastThree(x: nat, y: nat, z: nat)
    requires x < 64 && y < 64 && z < 64
    ensures FromLetters([Letter(x), Letter(y), Letter(z)] + "=")
            == Some(Bytes(x * 0x40000 + y * 0x1000 + z * 0x40)[..2])
  {
    LetterRoundTrip(x);
    LetterRoundTrip(y);
    LetterRoundTrip(z);
    var s := [Letter(x), Letter(y), Letter(z)] + "=";
    assert s[3..] == "=" && s[3] == '=';
    hide Letter, ValueOf, Bytes;
  }

  lemma {:induction false} OneByteBits(a: byte)
    ensures var v := Word(a, 0, 0); v / 0x40000 * 0x40000 + v / 0x1000 % 0x40 * 0x1000 == v
  {
    var v := Word(a, 0, 0);
    Unpacked(v);
    Shifted(a as int * 0x400, 0);
    Shifted(a as int * 0x10, 0);
    assert v / 0x40 == a as int * 0x400;
  }

  lemma {:induction false} TwoByteBits(a: byte, b: byte)
    ensures var v := Word(a, b, 0); v / 0x40000 * 0x40000 + v / 0x1000 % 0x40 * 0x1000 + v / 0x40 % 0x40 * 0x40 == v
  {
    var v := Word(a, b, 0);
    Unpacked(v);
    var high := a as int * 0x400 + b as int * 4;
    Shifted(high, 0);
    assert v == high * 0x40;
  }

  lemma {:induction false} OneByteLeft(a: byte)
    ensures FromLetters(Letters(Word(a, 0, 0))[..2] + "==") == Some([a])
  {
    BytesOf(a, 0, 0);
    OneByteBits(a);
    hide Bytes, Word, FromLetters, Letter;
    var v := Word(a, 0, 0);
    LastTwo(v / 0x40000, v / 0x1000 % 0x40);
    assert Letters(v)[..2] == [Letter(v / 0x40000), Letter(v / 0x1000 % 0x40)];
    assert Bytes(v)[..1] == [a];
  }

  lemma {:induction false} TwoBytesLeft(a: byte, b: byte)
    ensures FromLetters(Letters(Word(a, b, 0))[..3] + "=") == Some([a, b])
  {
    BytesOf(a, b, 0);
    TwoByteBits(a, b);
    hide Bytes, Word, FromLetters, Letter;
    var v := Word(a, b, 0);
    LastThree(v / 0x40000, v / 0x1000 % 0x40, v / 0x40 % 0x40);
    assert Letters(v)[..3] == [Letter(v / 0x40000), Letter(v / 0x1000 % 0x40), Letter(v / 0x40 % 0x40)];
    assert Bytes(v)[..2] == [a, b];
  }

  lemma {:induction false} LettersRoundTrip(d: seq<byte>)
    ensures FromLetters(ToBase64(d)) == Some(d)
  {
    if d != [] {
      hide Letters, Bytes, FromLetters, Word;
      if |d| == 1 {
        OneByteLeft(d[0]);
        assert d == [d[0]];
      } else if |d| == 2 {
        TwoBytesLeft(d[0], d[1]);
        assert d == [d[0], d[1]];
      } else {
        LettersRoundTrip(d[3..]);
        BytesOf(d[0], d[1], d[2]);
        FourLetters(Word(d[0], d[1], d[2]), ToBase64(d[3..]));
        assert [d[0], d[1], d[2]] + d[3..] == d;
      }
    }
  }

  // ------------------------------------------------------------------ what the texts are made of

  /** Neither white space nor a line end: nothing the decoders strip. */
  ghost predicate Solid(s: string) {
    forall i | 0 <= i < |s| :: !Text.IsSpace(s[i])
  }

  lemma {:induction false} HexIsSolid(d: seq<byte>)
    ensures Solid(ToHex(d)) && forall i | 0 <= i < |ToHex(d)| :: ValueOf(ToHex(d)[i]).Some?
  {
    if d != [] {
      HexIsSolid(d[1..]);
    }
  }

  lemma {:induction false} LettersAreSolid(v: nat)
    requires v < 0x1000000
    ensures Solid(Letters(v))
  {}

  lemma {:induction false} Base64IsSolid(d: seq<byte>)
    ensures Solid(ToBase64(d))
  {
    if |d| == 1 {
      LettersAreSolid(Word(d[0], 0, 0));
    } else if |d| == 2 {
      LettersAreSolid(Word(d[0], d[1], 0));
    } else if d != [] {
      LettersAreSolid(Word(d[0], d[1], d[2]));
      Base64IsSolid(d[3..]);
    }
    hide Letters, Word;
  }

  lemma {:induction false} SolidStays(s: string)
    requires Solid(s)
    ensures Text.Trim(s) == s && WithoutLineEnds(s) == s
  {
    Text.TrimIsTrimmed(s);
    NoLineEnds(s);
  }

  lemma {:induction false} NoLineEnds(s: string)
    requires Solid(s)
    ensures WithoutLineEnds(s) == s
  {
    if s != "" {
      assert Text.IsSpace('\r') && Text.IsSpace('\n');
      NoLineEnds(s[1..]);
    }
  }

  /** Letters without padding decode exactly when there are whole groups of four, to three bytes for each. */
  lemma {:induction false} WholeGroups(s: string)
    requires forall i | 0 <= i < |s| :: ValueOf(s[i]).Some?
    ensures FromLetters(s).Some? <==> |s| % 4 == 0
    ensures FromLetters(s).Some? ==> 4 * |FromLetters(s).value| == 3 * |s|
  {
    hide ValueOf, Bytes;
    if |s| >= 4 {
      WholeGroups(s[4..]);
    }
  }

  /** Whatever decodes as hexadecimal is made of base64 letters. */
  lemma {:induction false} HexIsMadeOfLetters(s: string)
    requires FromHex(s).Some?
    ensures |s| == 2 * |FromHex(s).value| && Solid(s)
    ensures forall i | 0 <= i < |s| :: ValueOf(s[i]).Some?
  {
    if |s| >= 2 {
      HexIsMadeOfLetters(s[2..]);
      assert Hex.ValueOf(s[0]).Some? && Hex.ValueOf(s[1]).Some?;
      HexDigitIsALetter(s[0]);
      HexDigitIsALetter(s[1]);
      hide Hex.ValueOf, ValueOf, Text.IsSpace;
    }
  }

  lemma {:induction false} HexDigitIsALetter(c: char)
    requires Hex.ValueOf(c).Some?
    ensures ValueOf(c).Some? && !Text.IsSpace(c)
  {}
}
