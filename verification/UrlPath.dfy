/** urlPathEscape: a calendar id as one path segment (section 2.1 of RFC 3986). */
module UrlPath {
  import opened Utf8
  import opened Wrappers
  import Hex
  import Seqs

  /** The unreserved characters of section 2.3. */
  predicate Unreserved(b: byte) {
    ('a' as int <= b <= 'z' as int) || ('A' as int <= b <= 'Z' as int) || ('0' as int <= b <= '9' as int)
    || b == '-' as int || b == '_' as int || b == '.' as int || b == '~' as int
  }

  function EscapeByte(b: byte): string {
    if Unreserved(b) then [b as char] else "%" + Hex.TwoDigits(b, true)
  }

  function Escaped(s: seq<byte>): string {
    if s == [] then "" else Escaped(s[..|s| - 1]) + EscapeByte(s[|s| - 1])
  }

  /** A letter, a digit and four marks stand for themselves; any other byte is a percent sign and its two digits, in
      upper case. */
  lemma {:induction false} ByteStaysIff(b: byte)
    ensures var c, e := b as char, EscapeByte(b);
            if 'a' <= c <= 'z' || 'A' <= c <= 'Z' || '0' <= c <= '9' || c in {'-', '_', '.', '~'} then e == [c]
            else && |e| == 3 && e[0] == '%' && Hex.Number(e[1..]) == Some(b)
                 && forall i | 1 <= i < 3 :: '0' <= e[i] <= '9' || 'A' <= e[i] <= 'F'
  {
    if !Unreserved(b) {
      Hex.NumberOfTwo(b, true);
      assert EscapeByte(b)[1..] == Hex.TwoDigits(b, true);
    }
    hide Hex.Number;
  }

  method UrlPathEscape(s: seq<byte>) returns (r: string)
    ensures r == Escaped(s)
    ensures Decoded(r) == Some(s) && IsSegment(r)
  {
    DecodedIsTheId(s);
    EscapedIsOneSegment(s);
    hide Decoded, IsSegment;
    r := "";
    for i := 0 to |s|
      invariant r == Escaped(s[..i])
    {
      assert s[..i + 1][..i] == s[..i];
      if Unreserved(s[i]) {
        r := r + [s[i] as char];
      } else {
        r := r + "%" + Hex.TwoDigits(s[i], true);
      }
    }
    assert s[..|s|] == s;
  }

  /** Percent-decoding, left to right: None on a broken triplet or anything but ASCII. */
  function Decoded(t: string): Option<seq<byte>> {
    if t == "" then Some([])
    else if t[0] == '%' then
      if |t| < 3 then None
      else
        match (Hex.Number(t[1..3]), Decoded(t[3..]))
        case (Some(b), Some(rest)) => if b < 256 then Some([b as byte] + rest) else None
        case _ => None
    else if t[0] as int >= 0x80 then None
    else
      match Decoded(t[1..])
      case Some(rest) => Some([t[0] as int as byte] + rest)
      case None => None
  }

  lemma {:induction false} DecodeOne(b: byte, t: string, rest: seq<byte>)
    requires Decoded(t) == Some(rest)
    ensures Decoded(EscapeByte(b) + t) == Some([b] + rest)
  {
    var u := EscapeByte(b) + t;
    if Unreserved(b) {
      assert u[1..] == t;
    } else {
      Hex.NumberOfTwo(b, true);
      assert u[1..3] == Hex.TwoDigits(b, true) && u[3..] == t;
    }
    hide Hex.Number, Hex.TwoDigits;
  }

  lemma {:induction false} DecodeAll(s: seq<byte>, t: string, rest: seq<byte>)
    requires Decoded(t) == Some(rest)
    ensures Decoded(Escaped(s) + t) == Some(s + rest)
  {
    if s == [] {
      assert Escaped(s) + t == t && s + rest == rest;
    } else {
      var n := |s| - 1;
      DecodeOne(s[n], t, rest);
      DecodeAll(s[..n], EscapeByte(s[n]) + t, [s[n]] + rest);
      hide Decoded, EscapeByte;
      Seqs.Regroup(Escaped(s[..n]), EscapeByte(s[n]), t);
      Seqs.Regroup(s[..n], [s[n]], rest);
      assert s == s[..n] + [s[n]];
    }
  }

  /** Every byte string survives, text or not. */
  lemma {:induction false} DecodedIsTheId(s: seq<byte>)
    ensures Decoded(Escaped(s)) == Some(s)
  {
    DecodeAll(s, "", []);
    assert Escaped(s) + "" == Escaped(s) && s + [] == s;
  }

  /** A segment in the making: an unreserved character, or a triplet with upper-case digits (section 2.1 asks
      producers for those). */
  predicate IsSegment(t: string) {
    t == ""
    || (t[0] as int < 0x80 && Unreserved(t[0] as int) && IsSegment(t[1..]))
    || (t[0] == '%' && |t| >= 3 && UpperHex(t[1]) && UpperHex(t[2]) && IsSegment(t[3..]))
  }

  predicate UpperHex(c: char) { '0' <= c <= '9' || 'A' <= c <= 'F' }

  /** Character by character: nothing but unreserved ones and percent signs, each before two upper-case digits. */
  lemma {:induction false} SegmentIs(t: string, i: nat)
    requires IsSegment(t) && i < |t|
    ensures 'a' <= t[i] <= 'z' || 'A' <= t[i] <= 'Z' || '0' <= t[i] <= '9' || t[i] in {'-', '_', '.', '~', '%'}
    ensures t[i] == '%' ==>
              i + 2 < |t| && forall k | i < k <= i + 2 :: '0' <= t[k] <= '9' || 'A' <= t[k] <= 'F'
  {
    if t[0] == '%' {
      if i >= 3 {
        SegmentIs(t[3..], i - 3);
      }
    } else if i >= 1 {
      SegmentIs(t[1..], i - 1);
    }
  }

  lemma {:induction false} SegmentsJoin(a: string, b: string)
    requires IsSegment(a) && IsSegment(b)
    ensures IsSegment(a + b)
  {
    assert !Unreserved('%' as int);
    hide Unreserved, UpperHex;
    if a == "" {
      assert a + b == b;
    } else if a[0] == '%' {
      SegmentsJoin(a[3..], b);
      assert (a + b)[3..] == a[3..] + b;
    } else {
      SegmentsJoin(a[1..], b);
      assert (a + b)[1..] == a[1..] + b;
    }
  }

  /** The reserved characters of section 2.2, which would end the segment or be read as delimiters. */
  predicate Reserved(c: char) {
    c == ':' || c == '/' || c == '?' || c == '#' || c == '[' || c == ']' || c == '@' || c == '!' || c == '$' || c == '&'
    || c == '\'' || c == '(' || c == ')' || c == '*' || c == '+' || c == ',' || c == ';' || c == '='
  }

  lemma {:induction false} NoneReserved(b: byte)
    ensures forall i | 0 <= i < |EscapeByte(b)| :: !Reserved(EscapeByte(b)[i])
  {
    Hex.DigitIsPlain(b / 16, true);
    Hex.DigitIsPlain(b % 16, true);
    hide Hex.Digit;
  }

  lemma {:induction false} NothingReserved(s: seq<byte>)
    ensures forall i | 0 <= i < |Escaped(s)| :: !Reserved(Escaped(s)[i])
  {
    if s != [] {
      NothingReserved(s[..|s| - 1]);
      NoneReserved(s[|s| - 1]);
    }
    hide Reserved, EscapeByte;
  }

  /** The result is one segment, with nothing in it that needs a second escape. */
  lemma {:induction false} EscapedIsOneSegment(s: seq<byte>)
    ensures IsSegment(Escaped(s))
  {
    if s != [] {
      var b := s[|s| - 1];
      EscapedIsOneSegment(s[..|s| - 1]);
      var e := EscapeByte(b);
      if Unreserved(b) {
        assert e[1..] == "";
      } else {
        assert e[3..] == "";
        assert e[1] == Hex.Digit(b / 16, true) && e[2] == Hex.Digit(b % 16, true);
      }
      assert IsSegment(e);
      SegmentsJoin(Escaped(s[..|s| - 1]), e);
    }
  }
}
