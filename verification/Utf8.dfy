/** UTF-8 (section 3 of RFC 3629), and the reading of it that Go's range over a string does.

    Characters are Unicode scalar values, so every string of them can be written. Reading follows the table of the
    standard: a first byte says how many follow, overlong forms, surrogates and values past U+10FFFF begin no
    character, and a byte that begins none is read on its own as U+FFFD. On what was written, reading gives it back;
    the places where a written string may be cut in two written strings are those where a byte that is not a tail
    stands, or the end. */
module Utf8 {

  type byte = n: int | 0 <= n < 256

  predicate IsTail(b: byte) { 0x80 <= b < 0xC0 }

  /** utf8.RuneStart. */
  predicate RuneStart(b: byte) { !IsTail(b) }

  /** The bytes of one character. */
  function Rune(c: char): (r: seq<byte>)
    ensures 1 <= |r| <= 4 && RuneStart(r[0])
    ensures forall i | 0 < i < |r| :: IsTail(r[i])
  {
    var n := c as int;
    if n < 0x80 then [n]
    else if n < 0x800 then [0xC0 + n / 0x40, 0x80 + n % 0x40]
    else if n < 0x10000 then [0xE0 + n / 0x1000, 0x80 + n / 0x40 % 0x40, 0x80 + n % 0x40]
    else [0xF0 + n / 0x40000, 0x80 + n / 0x1000 % 0x40, 0x80 + n / 0x40 % 0x40, 0x80 + n % 0x40]
  }

  function Encode(t: string): seq<byte> {
    if t == "" then [] else Rune(t[0]) + Encode(t[1..])
  }

  ghost predicate Valid(s: seq<byte>) {
    exists t :: s == Encode(t)
  }

  const REPLACEMENT := 0xFFFD as char

  /** utf8.DecodeRuneInString: one character and its width; a byte that begins none stands for U+FFFD. */
  function First(s: seq<byte>): (r: (char, nat))
    requires s != []
    ensures 1 <= r.1 <= |s|
  {
    var a: int := s[0];
    if a < 0x80 then (a as char, 1)
    else if 0xC2 <= a <= 0xDF && |s| > 1 && IsTail(s[1]) then
      (((a - 0xC0) * 0x40 + (s[1] as int - 0x80)) as char, 2)
    else if 0xE0 <= a <= 0xEF && |s| > 2 && IsTail(s[1]) && IsTail(s[2]) && (a == 0xE0 ==> s[1] >= 0xA0)
        && (a == 0xED ==> s[1] < 0xA0) then
      (((a - 0xE0) * 0x1000 + (s[1] as int - 0x80) * 0x40 + (s[2] as int - 0x80)) as char, 3)
    else if 0xF0 <= a <= 0xF4 && |s| > 3 && IsTail(s[1]) && IsTail(s[2]) && IsTail(s[3])
        && (a == 0xF0 ==> s[1] >= 0x90) && (a == 0xF4 ==> s[1] < 0x90) then
      (((a - 0xF0) * 0x40000 + (s[1] as int - 0x80) * 0x1000 + (s[2] as int - 0x80) * 0x40
          + (s[3] as int - 0x80)) as char, 4)
    else (REPLACEMENT, 1)
  }

  /** What a range over the string yields. */
  function Runes(s: seq<byte>): string {
    if s == [] then "" else [First(s).0] + Runes(s[First(s).1..])
  }

  // ------------------------------------------------------------------ reading back what was written

  lemma {:induction false} Sixes(n: nat)
    ensures n == n / 0x40 * 0x40 + n % 0x40
    ensures n == n / 0x1000 * 0x1000 + n / 0x40 % 0x40 * 0x40 + n % 0x40
    ensures n == n / 0x40000 * 0x40000 + n / 0x1000 % 0x40 * 0x1000 + n / 0x40 % 0x40 * 0x40 + n % 0x40
  {
    assert n / 0x1000 == n / 0x40 / 0x40;
    assert n / 0x40000 == n / 0x1000 / 0x40;
  }

  lemma {:induction false} Shifted(q: nat, d: nat)
    requires d < 0x40
    ensures (q * 0x40 + d) / 0x40 == q && (q * 0x40 + d) % 0x40 == d
  {}

  lemma {:induction false} Twice(n: nat)
    ensures n / 0x1000 == n / 0x40 / 0x40 && n / 0x40000 == n / 0x40 / 0x40 / 0x40
  {}

  lemma {:induction false} SixesBack(a: nat, b: nat, c: nat, d: nat)
    requires b < 0x40 && c < 0x40 && d < 0x40
    ensures var n := a * 0x40000 + b * 0x1000 + c * 0x40 + d;
            n / 0x40000 == a && n / 0x1000 % 0x40 == b && n / 0x40 % 0x40 == c && n % 0x40 == d
  {
    var x := a * 0x40 + b;
    var y := x * 0x40 + c;
    Shifted(a, b);
    Shifted(x, c);
    Shifted(y, d);
    Twice(y * 0x40 + d);
    assert y * 0x40 + d == a * 0x40000 + b * 0x1000 + c * 0x40 + d;
  }

  lemma {:induction false} FirstOfRune(c: char, rest: seq<byte>)
    ensures First(Rune(c) + rest) == (c, |Rune(c)|)
  {
    var n := c as int;
    var s := Rune(c) + rest;
    Sixes(n);
    if n < 0x80 {
    } else if n < 0x800 {
      assert s[0] as int == 0xC0 + n / 0x40 && s[1] as int == 0x80 + n % 0x40;
    } else if n < 0x10000 {
      assert n < 0xD800 || 0xE000 <= n;
      assert s[0] as int == 0xE0 + n / 0x1000 && s[1] as int == 0x80 + n / 0x40 % 0x40
          && s[2] as int == 0x80 + n % 0x40;
    } else {
      assert s[0] as int == 0xF0 + n / 0x40000 && s[1] as int == 0x80 + n / 0x1000 % 0x40;
      assert s[2] as int == 0x80 + n / 0x40 % 0x40 && s[3] as int == 0x80 + n % 0x40;
    }
  }

  /** A character that was really there is written back as the bytes it was read from; U+FFFD in the place of a
      stray byte takes more room than the byte. */
  lemma {:induction false} RuneOfFirst(s: seq<byte>)
    requires s != []
    ensures var (c, k) := First(s); Rune(c) == s[..k] || (c == REPLACEMENT && k == 1 && |Rune(c)| == 3)
  {
    var (c, k) := First(s);
    if k == 2 {
      Shifted(s[0] as int - 0xC0, s[1] as int - 0x80);
      assert Rune(c) == [s[0], s[1]];
    } else if k == 3 {
      SixesBack(0, s[0] as int - 0xE0, s[1] as int - 0x80, s[2] as int - 0x80);
      assert Rune(c) == [s[0], s[1], s[2]];
    } else if k == 4 {
      SixesBack(s[0] as int - 0xF0, s[1] as int - 0x80, s[2] as int - 0x80, s[3] as int - 0x80);
      assert Rune(c) == [s[0], s[1], s[2], s[3]];
    }
  }

  lemma {:induction false} RunesOfEncode(t: string)
    ensures Runes(Encode(t)) == t
  {
    if t != "" {
      FirstOfRune(t[0], Encode(t[1..]));
      assert Encode(t)[|Rune(t[0])|..] == Encode(t[1..]);
      RunesOfEncode(t[1..]);
      hide First, Rune;
    }
  }

  /** Reading and writing again restores exactly the valid strings. */
  lemma {:induction false} ValidIff(s: seq<byte>)
    ensures Valid(s) <==> Encode(Runes(s)) == s
  {
    if t :| s == Encode(t) {
      RunesOfEncode(t);
    }
  }

  lemma {:induction false} EncodeJoins(a: string, b: string)
    ensures Encode(a + b) == Encode(a) + Encode(b)
  {
    if a == "" {
      assert a + b == b;
    } else {
      EncodeJoins(a[1..], b);
      assert (a + b)[1..] == a[1..] + b;
      hide Rune;
    }
  }

  /** What is read is never shorter than what was there. */
  lemma {:induction false} NeverShorter(s: seq<byte>)
    ensures |Encode(Runes(s))| >= |s|
  {
    if s != [] {
      var k := First(s).1;
      NeverShorter(s[k..]);
      RuneOfFirst(s);
      assert Runes(s)[1..] == Runes(s[k..]);
      hide First, Rune;
    }
  }

  // ------------------------------------------------------------------ where characters begin

  lemma {:induction false} WidthIsInTheFirstByte(a: char, b: char)
    requires Rune(a)[0] == Rune(b)[0]
    ensures |Rune(a)| == |Rune(b)|
  {}

  /** Behind a whole character, what is left is valid exactly when all of it was. */
  lemma {:induction false} BehindACharacter(c: char, x: seq<byte>)
    ensures Valid(Rune(c) + x) <==> Valid(x)
  {
    if t :| x == Encode(t) {
      assert ([c] + t)[1..] == t;
      assert Rune(c) + x == Encode([c] + t);
    }
    if u :| Rune(c) + x == Encode(u) {
      FirstOfRune(c, x);
      FirstOfRune(u[0], Encode(u[1..]));
      assert (Rune(c) + x)[|Rune(c)|..] == x;
      assert Encode(u)[|Rune(c)|..] == Encode(u[1..]);
      hide First, Rune;
    }
  }

  lemma {:induction false} HalfACharacter(c: char, k: nat)
    requires 0 < k < |Rune(c)|
    ensures !Valid(Rune(c)[..k])
  {
    if u :| Rune(c)[..k] == Encode(u) {
      assert Rune(c)[..k][0] == Rune(u[0])[0];
      WidthIsInTheFirstByte(c, u[0]);
    }
  }

  /** A valid string may be cut exactly where it ends or a character begins. */
  lemma {:induction false} CutIsValidIff(t: string, k: nat)
    requires k <= |Encode(t)|
    ensures Valid(Encode(t)[..k]) <==> k == |Encode(t)| || RuneStart(Encode(t)[k])
  {
    var s := Encode(t);
    if k == 0 {
      assert s[..0] == Encode("");
    } else {
      var h := Rune(t[0]);
      var rest := Encode(t[1..]);
      if k < |h| {
        HalfACharacter(t[0], k);
        assert s[..k] == h[..k];
        assert s[k] == h[k];
      } else {
        CutIsValidIff(t[1..], k - |h|);
        assert s[..k] == h + rest[..k - |h|];
        BehindACharacter(t[0], rest[..k - |h|]);
        assert k < |s| ==> s[k] == rest[k - |h|];
      }
    }
    hide Rune, Valid;
  }

  /** Of any four bytes in a row, one begins a character. */
  lemma {:induction false} NoFourTails(t: string, k: nat)
    requires k + 4 <= |Encode(t)|
    ensures var s := Encode(t); RuneStart(s[k]) || RuneStart(s[k + 1]) || RuneStart(s[k + 2]) || RuneStart(s[k + 3])
  {
    var h := Rune(t[0]);
    var rest := Encode(t[1..]);
    var s := Encode(t);
    if k >= |h| {
      NoFourTails(t[1..], k - |h|);
      var j := k - |h|;
      assert s[k] == rest[j] && s[k + 1] == rest[j + 1] && s[k + 2] == rest[j + 2] && s[k + 3] == rest[j + 3];
    } else if k > 0 && |h| < |s| {
      var u := t[1..];
      assert rest[0] == Rune(u[0])[0];
      assert s[|h|] == rest[0];
      assert |h| - k < 4;
    }
    hide Rune, Encode;
  }

  lemma {:induction false} Widths(t: string)
    ensures (forall i | 0 <= i < |t| :: t[i] as int < 0x80) ==> |Encode(t)| == |t|
    ensures (forall i | 0 <= i < |t| :: 0x80 <= t[i] as int < 0x800) ==> |Encode(t)| == 2 * |t|
  {
    if t != "" {
      Widths(t[1..]);
    }
  }
}
