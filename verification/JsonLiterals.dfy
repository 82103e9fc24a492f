/** escapeNonASCII: a JSON text made fit for an HTTP header, and what the string literals in it mean (section 7 of
    RFC 8259). */
module JsonLiterals {
  import opened Utf8
  import opened Wrappers
  import Hex
  import Seqs

  /** The UTF-16 pair of a character beyond the basic plane. */
  function Surrogates(n: nat): (r: (nat, nat))
    requires 0x10000 <= n < 0x110000
    ensures 0xD800 <= r.0 < 0xDC00 && 0xDC00 <= r.1 < 0xE000
  {
    (0xD800 + (n - 0x10000) / 0x400, 0xDC00 + (n - 0x10000) % 0x400)
  }

  function Unit(n: nat): string
    requires n < 0x10000
  {
    "\\u" + Hex.FourDigits(n)
  }

  function EscapeRune(c: char): string {
    var n := c as int;
    if n < 0x80 then [c]
    else if n > 0xFFFF then Unit(Surrogates(n).0) + Unit(Surrogates(n).1)
    else Unit(n)
  }

  function Escaped(s: string): string {
    if s == "" then "" else EscapeRune(s[0]) + Escaped(s[1..])
  }

  lemma {:induction false} EscapeOneMore(s: string, i: nat)
    requires i < |s|
    ensures Escaped(s[i..]) == EscapeRune(s[i]) + Escaped(s[i + 1..])
  {
    assert s[i..][1..] == s[i + 1..];
  }

  method EscapeNonAscii(s: seq<byte>) returns (r: string)
    ensures r == Escaped(Runes(s))
    ensures forall i | 0 <= i < |r| :: r[i] as int < 0x80
    ensures Meaning(Runes(s)).Some? ==> Meaning(r) == Meaning(Runes(s))
  {
    EscapedIsAscii(Runes(s));
    if Meaning(Runes(s)).Some? {
      MeaningStays(Runes(s));
    }
    hide Meaning;
    r := "";
    var runes := Runes(s);
    assert runes[0..] == runes;
    for i := 0 to |runes|
      invariant r + Escaped(runes[i..]) == Escaped(runes)
    {
      var c := runes[i];
      EscapeOneMore(runes, i);
      hide Hex.FourDigits, Escaped;
      Seqs.Regroup(r, EscapeRune(c), Escaped(runes[i + 1..]));
      if c as int < 0x80 {
        r := r + [c];
      } else if c as int > 0xFFFF {
        var pair := Surrogates(c as int);
        r := r + (Unit(pair.0) + Unit(pair.1));
      } else {
        r := r + Unit(c as int);
      }
    }
    assert runes[|runes|..] == "";
  }

  // ------------------------------------------------------------------ what a literal means

  /** The code unit of a \\u escape at the front. */
  function UnitAhead(s: string): Option<nat> {
    if |s| >= 6 && s[0] == '\\' && s[1] == 'u' then Hex.Number(s[2..6]) else None
  }

  predicate High(n: nat) { 0xD800 <= n < 0xDC00 }

  predicate Low(n: nat) { 0xDC00 <= n < 0xE000 }

  predicate LowAhead(s: string) {
    match UnitAhead(s)
    case Some(n) => Low(n)
    case None => false
  }

  /** The code point a surrogate pair stands for. */
  function Combined(high: nat, low: nat): nat
    requires High(high) && Low(low)
  {
    0x10000 + (high - 0xD800) * 0x400 + (low - 0xDC00)
  }

  /** The pairs are exactly the two ranges' pairs: each stands for one character beyond the basic plane and is the one
      written for it. */
  lemma {:induction false} PairsAre(high: nat, low: nat)
    requires High(high) && Low(low)
    ensures 0x10000 <= Combined(high, low) < 0x110000
    ensures Surrogates(Combined(high, low)) == (high, low)
  {
    var n := Combined(high, low) - 0x10000;
    assert n == (high - 0xD800) * 0x400 + (low - 0xDC00);
    assert n / 0x400 == high - 0xD800 && n % 0x400 == low - 0xDC00;
  }

  lemma {:induction false} SurrogatesAre(n: nat)
    ensures High(n) || Low(n) <==> 0xD800 <= n <= 0xDFFF
    ensures !(High(n) && Low(n))
  {}

  /** The two-character escapes. */
  function Short(c: char): Option<nat> {
    if c == '"' || c == '\\' || c == '/' then Some(c as int)
    else if c == 'b' then Some(8)
    else if c == 'f' then Some(12)
    else if c == 'n' then Some(10)
    else if c == 'r' then Some(13)
    else if c == 't' then Some(9)
    else None
  }

  lemma {:induction false} ShortEscapesAre(c: char)
    ensures Short(c).Some? <==> c in {'"', '\\', '/', 'b', 'f', 'n', 'r', 't'}
    ensures Short('"') == Some('"' as nat) && Short('\\') == Some('\\' as nat) && Short('/') == Some('/' as nat)
    ensures Short('n') == Some('\n' as nat) && Short('r') == Some('\r' as nat) && Short('t') == Some('\t' as nat)
    ensures Short('b') == Some(0x08) && Short('f') == Some(0x0C)
  {}

  function Then(n: nat, rest: Option<seq<nat>>): Option<seq<nat>> {
    match rest
    case Some(tail) => Some([n] + tail)
    case None => None
  }

  /** The code points between the quotes of a literal, an unpaired surrogate kept as it is; None when the text is
      not the inside of a literal. */
  function Meaning(s: string): Option<seq<nat>> {
    if s == "" then Some([])
    else if s[0] == '\\' then
      match UnitAhead(s)
      case Some(n) =>
        if High(n) && LowAhead(s[6..]) then Then(Combined(n, UnitAhead(s[6..]).value), Meaning(s[12..]))
        else Then(n, Meaning(s[6..]))
      case None =>
        if |s| > 1 && Short(s[1]).Some? then Then(Short(s[1]).value, Meaning(s[2..])) else None
    else if s[0] == '"' || s[0] as int < 0x20 then None
    else Then(s[0] as int, Meaning(s[1..]))
  }

  ghost predicate Ascii(s: string) {
    forall i | 0 <= i < |s| :: s[i] as int < 0x80
  }

  // ------------------------------------------------------------------ escaping

  lemma {:induction false} DigitsAreAscii(n: nat)
    requires n < 0x10000
    ensures Ascii(Hex.FourDigits(n))
  {
    Hex.DigitRoundTrip(n / 4096, false);
    Hex.DigitRoundTrip(n / 256 % 16, false);
    Hex.DigitRoundTrip(n / 16 % 16, false);
    Hex.DigitRoundTrip(n % 16, false);
    hide Hex.Digit, Hex.ValueOf;
  }

  lemma {:induction false} UnitIsAscii(n: nat)
    requires n < 0x10000
    ensures Ascii(Unit(n)) && |Unit(n)| == 6
  {
    DigitsAreAscii(n);
    hide Hex.Digit;
  }

  lemma {:induction false} EscapedIsAscii(s: string)
    ensures Ascii(Escaped(s))
  {
    if s != "" {
      var n := s[0] as int;
      EscapedIsAscii(s[1..]);
      if n > 0xFFFF {
        UnitIsAscii(Surrogates(n).0);
        UnitIsAscii(Surrogates(n).1);
      } else if n >= 0x80 {
        UnitIsAscii(n);
      }
      hide Unit;
    }
  }

  lemma {:induction false} OneAsciiStays(s: string)
    requires s != "" && Ascii(s[..1])
    ensures Escaped(s) == [s[0]] + Escaped(s[1..])
  {
    assert s[..1][0] == s[0];
    assert EscapeRune(s[0]) == [s[0]];
  }

  /** ASCII is left alone: the braces, the quotes, the names and the escapes already there. */
  lemma {:induction false} AsciiStays(a: string, b: string)
    requires Ascii(a)
    ensures Escaped(a + b) == a + Escaped(b)
  {
    hide Escaped;
    if a == "" {
      assert a + b == b;
    } else {
      AsciiStays(a[1..], b);
      assert (a + b)[1..] == a[1..] + b;
      OneAsciiStays(a + b);
      assert [a[0]] + (a[1..] + Escaped(b)) == a + Escaped(b);
    }
  }

  /** A written unit is read back. */
  lemma {:induction false} UnitRoundTrip(n: nat, rest: string)
    requires n < 0x10000
    ensures UnitAhead(Unit(n) + rest) == Some(n) && (Unit(n) + rest)[6..] == rest
  {
    Hex.NumberOfFour(n);
    var s := Unit(n) + rest;
    assert s[2..6] == Hex.FourDigits(n);
    assert s[6..] == rest;
    assert s[0] == '\\' && s[1] == 'u';
    hide Hex.FourDigits, Hex.Number;
  }

  lemma {:induction false} PairRoundTrip(n: nat)
    requires 0x10000 <= n < 0x110000
    ensures Combined(Surrogates(n).0, Surrogates(n).1) == n
  {}

  /** Digits are digits before and after. */
  lemma {:induction false} NumbersAreAscii(s: string)
    requires Hex.Number(s).Some?
    ensures Ascii(s)
  {
    if s != "" {
      NumbersAreAscii(s[..|s| - 1]);
    }
  }

  /** An escape at the front stays at the front. */
  lemma {:induction false} UnitStays(s: string)
    requires UnitAhead(s).Some?
    ensures Escaped(s) == s[..6] + Escaped(s[6..]) && UnitAhead(Escaped(s)) == UnitAhead(s)
            && Escaped(s)[6..] == Escaped(s[6..])
  {
    NumbersAreAscii(s[2..6]);
    hide Hex.Number;
    assert Ascii(s[..6]) by {
      assert forall i | 2 <= i < 6 :: s[i] == s[2..6][i - 2];
    }
    AsciiStays(s[..6], s[6..]);
    assert s[..6] + s[6..] == s;
    var t := s[..6] + Escaped(s[6..]);
    assert t[2..6] == s[2..6] && t[6..] == Escaped(s[6..]);
  }

  lemma {:induction false} MeaningOfUnit(s: string, n: nat)
    requires UnitAhead(s) == Some(n) && !(High(n) && LowAhead(s[6..]))
    ensures Meaning(s) == Then(n, Meaning(s[6..]))
  {}

  lemma {:induction false} MeaningOfPair(s: string, high: nat, low: nat)
    requires UnitAhead(s) == Some(high) && High(high) && UnitAhead(s[6..]) == Some(low) && Low(low)
    ensures Meaning(s) == Then(Combined(high, low), Meaning(s[12..]))
  {}

  lemma {:induction false} BasicRuneMeans(c: char, rest: string)
    requires 0x80 <= c as int <= 0xFFFF
    ensures Meaning(EscapeRune(c) + rest) == Then(c as int, Meaning(rest)) && !LowAhead(EscapeRune(c) + rest)
  {
    var n := c as int;
    assert n < 0xD800 || n >= 0xE000;
    UnitRoundTrip(n, rest);
    hide Unit, UnitAhead, Meaning;
    MeaningOfUnit(Unit(n) + rest, n);
  }

  lemma {:induction false} AstralRuneMeans(c: char, rest: string)
    requires c as int > 0xFFFF
    ensures Meaning(EscapeRune(c) + rest) == Then(c as int, Meaning(rest)) && !LowAhead(EscapeRune(c) + rest)
  {
    var (high, low) := Surrogates(c as int);
    UnitRoundTrip(high, Unit(low) + rest);
    UnitRoundTrip(low, rest);
    PairRoundTrip(c as int);
    var s := Unit(high) + (Unit(low) + rest);
    Seqs.Regroup(Unit(high), Unit(low), rest);
    assert s[12..] == s[6..][6..];
    hide Unit, UnitAhead, Meaning, Surrogates;
    MeaningOfPair(s, high, low);
  }

  /** Escaping puts no low surrogate in front of a text that did not begin with one, so no lone high surrogate
      before it finds a partner. */
  lemma {:induction false} LowAheadStays(s: string)
    requires Meaning(s).Some?
    ensures LowAhead(Escaped(s)) == LowAhead(s)
  {
    if s != "" {
      var n := s[0] as int;
      if n > 0xFFFF {
        AstralRuneMeans(s[0], Escaped(s[1..]));
      } else if n >= 0x80 {
        BasicRuneMeans(s[0], Escaped(s[1..]));
      } else if s[0] != '\\' {
        assert Escaped(s)[0] == s[0];
      } else if UnitAhead(s).Some? {
        UnitStays(s);
      } else {
        ShortStays(s);
      }
      hide Meaning, EscapeRune, Escaped, Hex.Number;
    }
  }

  /** A two-character escape at the front stays at the front. */
  lemma {:induction false} ShortStays(s: string)
    requires Meaning(s).Some? && s != "" && s[0] == '\\' && UnitAhead(s).None?
    ensures var t := Escaped(s); |t| >= 2 && t[0] == s[0] && t[1] == s[1] && t[2..] == Escaped(s[2..])
    ensures UnitAhead(Escaped(s)).None? && Short(s[1]).Some?
  {
    assert s[1..][1..] == s[2..];
    var two := EscapeRune(s[1]);
    assert Escaped(s[1..]) == two + Escaped(s[2..]);
    assert Escaped(s) == [s[0]] + ([s[1]] + Escaped(s[2..]));
    hide Meaning, Escaped, Hex.Number;
  }

  /** Every literal, whatever it says and however it says it, means the same after escaping. */
  lemma {:induction false} MeaningStays(s: string)
    requires Meaning(s).Some?
    ensures Meaning(Escaped(s)) == Meaning(s)
    decreases |s|, 1
  {
    if s == "" {
    } else if s[0] as int > 0xFFFF {
      MeaningStays(s[1..]);
      AstralRuneMeans(s[0], Escaped(s[1..]));
      hide EscapeRune, UnitAhead;
    } else if s[0] as int >= 0x80 {
      MeaningStays(s[1..]);
      BasicRuneMeans(s[0], Escaped(s[1..]));
      hide EscapeRune, UnitAhead;
    } else if s[0] != '\\' {
      MeaningStays(s[1..]);
      assert Escaped(s)[1..] == Escaped(s[1..]);
      hide UnitAhead;
    } else if UnitAhead(s).None? {
      ShortStays(s);
      MeaningStays(s[2..]);
      hide UnitAhead, Escaped;
    } else {
      UnitKeepsMeaning(s);
    }
  }

  lemma {:induction false} UnitKeepsMeaning(s: string)
    requires Meaning(s).Some? && UnitAhead(s).Some?
    ensures Meaning(Escaped(s)) == Meaning(s)
    decreases |s|, 0
  {
    var n := UnitAhead(s).value;
    var t := Escaped(s);
    UnitStays(s);
    if High(n) && LowAhead(s[6..]) {
      var low := UnitAhead(s[6..]).value;
      UnitStays(s[6..]);
      MeaningOfPair(s, n, low);
      MeaningOfPair(t, n, low);
      assert s[6..][6..] == s[12..] && t[6..][6..] == t[12..];
      MeaningStays(s[12..]);
    } else {
      MeaningOfUnit(s, n);
      MeaningStays(s[6..]);
      LowAheadStays(s[6..]);
      MeaningOfUnit(t, n);
    }
    hide Meaning, Escaped, UnitAhead;
  }
}
