/** What the Go code returns as a value or an error. */
module Wrappers {

  datatype Option<T> = None | Some(value: T)

  datatype Result<T, E> = Ok(value: T) | Err(error: E)
}

/** Small facts about sequences. */
module Seqs {

  lemma {:induction false} Regroup<T>(a: seq<T>, b: seq<T>, c: seq<T>)
    ensures (a + b) + c == a + (b + c)
  {}
}

/** Small facts about finite sets. */
module Sets {

  lemma {:induction false} SomeMember(s: set<int>) returns (x: int)
    requires s != {}
    ensures x in s
  {
    assert (forall y :: y !in s) ==> s == {};
    x :| x in s;
  }

  lemma {:induction false} SameMembers(a: set<int>, b: set<int>)
    requires forall x :: x in a <==> x in b
    ensures a == b
  {
    assert (forall x :: x in a <==> x in b) ==> a == b;
  }

  lemma {:induction false} Smaller<T>(a: set<T>, b: set<T>)
    requires forall x | x in a :: x in b
    ensures a <= b && |a| <= |b|
  {
    assert (forall x | x in a :: x in b) ==> a <= b;
    assert b == a + (b - a);
  }

  /** A set all of whose members could be counted in another lies in it. */
  lemma {:induction false} AllCounted(a: set<int>, b: set<int>, x: int)
    requires |a * b| >= |a| && x in a
    ensures x in b
  {
    if x !in b {
      Smaller(a * b, a - {x});
      assert false;
    }
  }
}

/** Decimal text of a natural number, and reading it back. */
module Decimal {

  function Digit(d: nat): char
    requires d < 10
  {
    (0x30 + d) as char
  }

  /** strconv.Itoa on naturals, and %d. */
  function Itoa(n: nat): (s: string)
    ensures s != "" && forall i | 0 <= i < |s| :: '0' <= s[i] <= '9'
  {
    if n < 10 then [Digit(n)] else Itoa(n / 10) + [Digit(n % 10)]
  }

  function Zeros(n: nat): (s: string)
    ensures |s| == n && forall i | 0 <= i < |s| :: s[i] == '0'
  {
    if n == 0 then "" else Zeros(n - 1) + "0"
  }

  /** %0wd: zeros in front up to the width, never cut. */
  function Padded(n: nat, width: nat): (s: string)
    ensures |s| >= width && s != "" && forall i | 0 <= i < |s| :: '0' <= s[i] <= '9'
  {
    if |Itoa(n)| < width then Zeros(width - |Itoa(n)|) + Itoa(n) else Itoa(n)
  }

  function Value(s: string): nat
    requires forall i | 0 <= i < |s| :: '0' <= s[i] <= '9'
  {
    if s == "" then 0 else 10 * Value(s[..|s| - 1]) + (s[|s| - 1] as int - 0x30)
  }

  lemma {:induction false} ValueOfItoa(n: nat)
    ensures Value(Itoa(n)) == n
  {
    if n >= 10 {
      ValueOfItoa(n / 10);
      assert Itoa(n)[..|Itoa(n)| - 1] == Itoa(n / 10);
    }
  }

  lemma {:induction false} ItoaIsInjective(a: nat, b: nat)
    requires Itoa(a) == Itoa(b)
    ensures a == b
  {
    ValueOfItoa(a);
    ValueOfItoa(b);
  }

  lemma {:induction false} LeadingZeros(n: nat, s: string)
    requires forall i | 0 <= i < |s| :: '0' <= s[i] <= '9'
    ensures Value(Zeros(n) + s) == Value(s)
    decreases |s|, n
  {
    if s != "" {
      LeadingZeros(n, s[..|s| - 1]);
      assert (Zeros(n) + s)[..n + |s| - 1] == Zeros(n) + s[..|s| - 1];
    } else if n > 0 {
      LeadingZeros(n - 1, "");
      assert (Zeros(n) + s)[..n - 1] == Zeros(n - 1) + "";
    }
  }

  lemma {:induction false} ValueOfPadded(n: nat, width: nat)
    ensures Value(Padded(n, width)) == n
  {
    ValueOfItoa(n);
    if |Itoa(n)| < width {
      LeadingZeros(width - |Itoa(n)|, Itoa(n));
    }
    hide Value, Itoa, Zeros;
  }

  /** Padding loses nothing. */
  lemma {:induction false} PaddedIsInjective(a: nat, b: nat, width: nat)
    requires Padded(a, width) == Padded(b, width)
    ensures a == b
  {
    ValueOfPadded(a, width);
    ValueOfPadded(b, width);
    hide Value, Padded;
  }
}

/** strings.TrimSpace and strings.ToUpper, on sequences of Unicode scalar values. */
module Text {

  // ------------------------------------------------------------------ trimming

  /** unicode.IsSpace. */
  predicate IsSpace(c: char) {
    var n := c as int;
    9 <= n <= 13 || n == 0x20 || n == 0x85 || n == 0xA0 || n == 0x1680 || 0x2000 <= n <= 0x200A
    || n == 0x2028 || n == 0x2029 || n == 0x202F || n == 0x205F || n == 0x3000
  }

  function TrimLeft(s: string): string {
    if s != "" && IsSpace(s[0]) then TrimLeft(s[1..]) else s
  }

  function TrimRight(s: string): string {
    if s != "" && IsSpace(s[|s| - 1]) then TrimRight(s[..|s| - 1]) else s
  }

  /** strings.TrimSpace. */
  function Trim(s: string): string {
    TrimRight(TrimLeft(s))
  }

  // ------------------------------------------------------------------ upper case

  /** unicode.ToUpper on ASCII and on the Cyrillic blocks, ө and ү among them. */
  function UpperUnit(c: char): char {
    var n := c as int;
    if 0x61 <= n <= 0x7A || 0x430 <= n <= 0x44F then (n - 0x20) as char
    else if 0x450 <= n <= 0x45F then (n - 0x50) as char
    else if (0x460 <= n <= 0x481 || 0x48A <= n <= 0x4BF || 0x4D0 <= n <= 0x52F) && n % 2 == 1 then (n - 1) as char
    else if 0x4C1 <= n <= 0x4CE && n % 2 == 0 then (n - 1) as char
    else if n == 0x4CF then 0x4C0 as char
    else c
  }

  function Upper(s: string): (r: string)
    ensures |r| == |s|
  {
    seq(|s|, i requires 0 <= i < |s| => UpperUnit(s[i]))
  }

  /** The Latin and the Mongolian Cyrillic alphabet, letter for letter; a digit has no case. */
  lemma {:induction false} UpperAlphabets()
    ensures forall c | 'a' <= c <= 'z' :: UpperUnit(c) == ('A' as int + (c as int - 'a' as int)) as char
    ensures forall c | 'а' <= c <= 'я' :: UpperUnit(c) == ('А' as int + (c as int - 'а' as int)) as char
    ensures UpperUnit('ё') == 'Ё' && UpperUnit('ө') == 'Ө' && UpperUnit('ү') == 'Ү'
    ensures forall c | '0' <= c <= '9' || 'A' <= c <= 'Z' || 'А' <= c <= 'Я' || c in {'Ё', 'Ө', 'Ү'} ::
              UpperUnit(c) == c
  {}

  /** What is left has no space at either end, and only spaces were taken. */
  lemma {:induction false} TrimMeans(s: string)
    ensures exists i, j :: 0 <= i <= j <= |s| && Trim(s) == s[i..j] && forall k | 0 <= k < |s| && !(i <= k < j) ::
              IsSpace(s[k])
    ensures Trim(s) != "" ==> !IsSpace(Trim(s)[0]) && !IsSpace(Trim(s)[|Trim(s)| - 1])
  {
    var i := TrimLeftTakes(s);
    var j := TrimRightTakes(s[i..]);
    assert s[i..][..j] == s[i..i + j];
    assert forall k | i + j <= k < |s| :: s[k] == s[i..][k - i];
    TrimIsTrimmed(s);
  }

  lemma {:induction false} TrimLeftTakes(s: string) returns (i: nat)
    ensures i <= |s| && TrimLeft(s) == s[i..] && forall k | 0 <= k < i :: IsSpace(s[k])
  {
    i := 0;
    if s != "" && IsSpace(s[0]) {
      var rest := TrimLeftTakes(s[1..]);
      assert forall k | 1 <= k < |s| :: s[k] == s[1..][k - 1];
      i := rest + 1;
    }
  }

  lemma {:induction false} TrimRightTakes(s: string) returns (j: nat)
    ensures j <= |s| && TrimRight(s) == s[..j] && forall k | j <= k < |s| :: IsSpace(s[k])
  {
    j := |s|;
    if s != "" && IsSpace(s[|s| - 1]) {
      j := TrimRightTakes(s[..|s| - 1]);
    }
  }

  // ------------------------------------------------------------------ done once, done

  lemma {:induction false} UpperUnitTwice(c: char)
    ensures UpperUnit(UpperUnit(c)) == UpperUnit(c) && IsSpace(UpperUnit(c)) == IsSpace(c)
  {}

  ghost predicate Trimmed(s: string) {
    s != "" ==> !IsSpace(s[0]) && !IsSpace(s[|s| - 1])
  }

  lemma {:induction false} TrimRightEnds(s: string)
    ensures var r := TrimRight(s); |r| <= |s| && r == s[..|r|] && (r != "" ==> !IsSpace(r[|r| - 1]))
  {
    if s != "" && IsSpace(s[|s| - 1]) {
      TrimRightEnds(s[..|s| - 1]);
    }
  }

  lemma {:induction false} TrimLeftEnds(s: string)
    ensures var r := TrimLeft(s); r != "" ==> !IsSpace(r[0])
  {
    if s != "" && IsSpace(s[0]) {
      TrimLeftEnds(s[1..]);
    }
  }

  lemma {:induction false} TrimIsTrimmed(s: string)
    ensures Trimmed(Trim(s))
    ensures Trimmed(s) ==> Trim(s) == s
  {
    TrimLeftEnds(s);
    TrimRightEnds(TrimLeft(s));
  }
}

/** Hexadecimal digits: %02X and %04x, encoding/hex, and reading them back. */
module Hex {
  import opened Wrappers

  /** One digit in the lower or the upper case. */
  function Digit(n: nat, upper: bool): char
    requires n < 16
  {
    if n < 10 then (0x30 + n) as char else if upper then (0x37 + n) as char else (0x57 + n) as char
  }

  /** Either case is read. */
  function ValueOf(c: char): Option<nat> {
    if '0' <= c <= '9' then Some(c as int - 0x30)
    else if 'a' <= c <= 'f' then Some(c as int - 0x57)
    else if 'A' <= c <= 'F' then Some(c as int - 0x37)
    else None
  }

  function TwoDigits(n: nat, upper: bool): string
    requires n < 0x100
  {
    [Digit(n / 16, upper), Digit(n % 16, upper)]
  }

  function FourDigits(n: nat): string
    requires n < 0x10000
  {
    [Digit(n / 4096, false), Digit(n / 256 % 16, false), Digit(n / 16 % 16, false), Digit(n % 16, false)]
  }

  /** The value of a run of digits, or None when something else is among them. */
  function Number(s: string): Option<nat> {
    if s == "" then Some(0)
    else
      match (Number(s[..|s| - 1]), ValueOf(s[|s| - 1]))
      case (Some(high), Some(low)) => Some(high * 16 + low)
      case _ => None
  }

  lemma {:induction false} DigitRoundTrip(n: nat, upper: bool)
    requires n < 16
    ensures ValueOf(Digit(n, upper)) == Some(n) && Digit(n, upper) as int < 0x80
  {}

  /** A digit is a digit or a letter. */
  lemma {:induction false} DigitIsPlain(n: nat, upper: bool)
    requires n < 16
    ensures var c := Digit(n, upper); '0' <= c <= '9' || 'A' <= c <= 'F' || 'a' <= c <= 'f'
  {}

  lemma {:induction false} NumberOfTwo(n: nat, upper: bool)
    requires n < 0x100
    ensures Number(TwoDigits(n, upper)) == Some(n)
  {
    DigitRoundTrip(n / 16, upper);
    DigitRoundTrip(n % 16, upper);
    var s := TwoDigits(n, upper);
    assert s[..1] == [s[0]] && s[..1][..0] == "";
    hide Digit, ValueOf;
    assert Number(s[..1]) == Some(n / 16);
  }

  lemma {:induction false} NumberOfFour(n: nat)
    requires n < 0x10000
    ensures Number(FourDigits(n)) == Some(n)
  {
    DigitRoundTrip(n / 4096, false);
    DigitRoundTrip(n / 256 % 16, false);
    DigitRoundTrip(n / 16 % 16, false);
    DigitRoundTrip(n % 16, false);
    var s := FourDigits(n);
    assert s[..3][..2] == s[..2] && s[..2][..1] == s[..1] && s[..1][..0] == "";
    hide Digit, ValueOf;
    assert Number(s[..1]) == Some(n / 4096);
    assert n / 4096 * 16 + n / 256 % 16 == n / 256 by { assert n / 4096 == n / 256 / 16; }
    assert Number(s[..2]) == Some(n / 256);
    assert n / 256 * 16 + n / 16 % 16 == n / 16 by { assert n / 256 == n / 16 / 16; }
    assert Number(s[..3]) == Some(n / 16);
  }
}
