/** The two cutters of text that must fit a byte budget: truncate, and the words a citizen reads on the phone. */
module Truncation {
  import opened Utf8
  import Text

  // ------------------------------------------------------------------ truncate

  /** At most n bytes, backing up to where a character begins. Of valid text the result is the longest valid
      prefix that fits, and less than one character short of n. */
  method Truncate(s: seq<byte>, n: int) returns (r: seq<byte>)
    ensures n <= 0 ==> r == []
    ensures |s| <= n ==> r == s
    ensures |r| <= |s| && r == s[..|r|]
    ensures 0 < n < |s| ==> |r| <= n && forall i | |r| < i <= n :: IsTail(s[i])
    ensures Valid(s) ==> Valid(r)
    ensures Valid(s) ==> forall k | |r| < k <= |s| && k <= n :: !Valid(s[..k])
    ensures Valid(s) && 0 < n < |s| ==> |r| > n - 4
  {
    EmptyIsValid();
    if n <= 0 {
      return [];
    }
    if |s| <= n {
      return s;
    }
    var m := n;
    while m > 0 && !RuneStart(s[m])
      invariant 0 <= m <= n
      invariant forall i | m < i <= n :: IsTail(s[i])
    {
      m := m - 1;
    }
    r := s[..m];
    if Valid(s) {
      BackedUp(s, n, m);
    }
  }

  lemma {:induction false} EmptyIsValid()
    ensures Valid([])
  {
    assert Encode("") == [];
  }

  lemma {:induction false} BackedUp(s: seq<byte>, n: nat, m: nat)
    requires Valid(s) && m <= n < |s|
    requires m == 0 || RuneStart(s[m])
    requires forall i | m < i <= n :: IsTail(s[i])
    ensures Valid(s[..m]) && n - m < 4
    ensures forall k | m < k <= n :: !Valid(s[..k])
  {
    var t :| s == Encode(t);
    if m == 0 {
      EmptyIsValid();
    } else {
      CutIsValidIff(t, m);
    }
    forall k | m < k <= n ensures !Valid(s[..k]) {
      CutIsValidIff(t, k);
    }
    if n - m >= 4 {
      NoFourTails(t, m + 1);
    }
  }

  // ------------------------------------------------------------------ strings.TrimSpace on bytes

  /** Width of the white space a string begins with, or 0. */
  function SpaceAhead(s: seq<byte>): (k: nat)
    ensures k <= |s|
  {
    if s != [] && Text.IsSpace(First(s).0) then First(s).1 else 0
  }

  function TrimAhead(s: seq<byte>): seq<byte> {
    if SpaceAhead(s) > 0 then TrimAhead(s[SpaceAhead(s)..]) else s
  }

  /** Whether the last k bytes are one white-space character. */
  predicate SpaceIs(s: seq<byte>, k: nat) {
    0 < k <= |s| && SpaceAhead(s[|s| - k..]) == k
  }

  function TrimBehind(s: seq<byte>): seq<byte> {
    if SpaceIs(s, 1) then TrimBehind(s[..|s| - 1])
    else if SpaceIs(s, 2) then TrimBehind(s[..|s| - 2])
    else if SpaceIs(s, 3) then TrimBehind(s[..|s| - 3])
    else s
  }

  function TrimSpace(s: seq<byte>): seq<byte> {
    TrimBehind(TrimAhead(s))
  }

  lemma {:induction false} TrimAheadOfText(t: string)
    ensures TrimAhead(Encode(t)) == Encode(Text.TrimLeft(t))
  {
    if t != "" {
      FirstOfRune(t[0], Encode(t[1..]));
      assert Encode(t)[|Rune(t[0])|..] == Encode(t[1..]);
      TrimAheadOfText(t[1..]);
      hide First, Rune, Text.IsSpace;
    }
  }

  /** A character that spans k bytes is followed by tails only. */
  lemma {:induction false} SpansTails(s: seq<byte>)
    requires s != []
    ensures forall i | 0 < i < First(s).1 :: IsTail(s[i])
    ensures IsTail(s[0]) ==> First(s) == (REPLACEMENT, 1)
  {}

  lemma {:induction false} LastOfText(t: string)
    requires t != ""
    ensures Encode(t) == Encode(t[..|t| - 1]) + Rune(t[|t| - 1])
  {
    assert t == t[..|t| - 1] + [t[|t| - 1]];
    EncodeJoins(t[..|t| - 1], [t[|t| - 1]]);
    OneCharacter(t[|t| - 1]);
  }

  /** The white space a text ends with is its last character, if that is one. */
  lemma {:induction false} SpaceBehindText(t: string, k: nat)
    requires t != ""
    ensures SpaceIs(Encode(t), k) <==> k == |Rune(t[|t| - 1])| && Text.IsSpace(t[|t| - 1])
  {
    var s := Encode(t);
    var w := Rune(t[|t| - 1]);
    LastOfText(t);
    assert s[|s| - |w|..] == w + [];
    FirstOfRune(t[|t| - 1], []);
    if 0 < k <= |s| && k != |w| {
      var x := s[|s| - k..];
      SpansTails(x);
      assert k < |w| ==> x[0] == w[|w| - k];
      assert k > |w| ==> x[k - |w|] == w[0];
      assert REPLACEMENT as int == 0xFFFD;
    }
    hide First, Rune, Encode;
  }

  lemma {:induction false} SpacesAreNarrow(c: char)
    requires Text.IsSpace(c)
    ensures |Rune(c)| <= 3
  {}

  lemma {:induction false} TrimBehindText(t: string)
    ensures TrimBehind(Encode(t)) == Encode(Text.TrimRight(t))
  {
    if t == "" {
      assert Text.TrimRight("") == "";
    } else {
      SpaceBehindText(t, 1);
      SpaceBehindText(t, 2);
      SpaceBehindText(t, 3);
      LastOfText(t);
      if Text.IsSpace(t[|t| - 1]) {
        SpacesAreNarrow(t[|t| - 1]);
        TrimBehindText(t[..|t| - 1]);
        var s := Encode(t);
        assert s[..|s| - |Rune(t[|t| - 1])|] == Encode(t[..|t| - 1]);
      }
    }
    hide Rune, Text.IsSpace, SpaceIs;
  }

  /** On well-formed titles the byte-level trimming is the character-level one. */
  lemma {:induction false} TrimSpaceOfText(t: string)
    ensures TrimSpace(Encode(t)) == Encode(Text.Trim(t))
  {
    TrimAheadOfText(t);
    TrimBehindText(Text.TrimLeft(t));
    hide TrimAhead, TrimBehind, Encode;
  }

  // ------------------------------------------------------------------ signatureDisplayText

  const LIMIT: nat := 60
  const PREFIX := "Гарын үсэг: "
  const ELLIPSIS := "…"
  const UNTITLED := "Баримтад гарын үсэг зурах"

  predicate Cyrillic(t: string) {
    forall i | 0 <= i < |t| :: 0x80 <= t[i] as int < 0x800
  }

  lemma {:induction false} AfterAWord(a: string, word: string, between: string)
    requires Cyrillic(word) && forall i | 0 <= i < |between| :: between[i] as int < 0x80
    ensures |Encode(a + word + between)| == |Encode(a)| + 2 * |word| + |between|
  {
    Widths(word);
    Widths(between);
    EncodeJoins(a + word, between);
    EncodeJoins(a, word);
  }

  lemma {:induction false} PrefixWidth()
    ensures |Encode(PREFIX)| == 21
  {
    EncodeNothing();
    hide Encode, Rune;
    AfterAWord("", "Гарын", " ");
    AfterAWord("" + "Гарын" + " ", "үсэг", ": ");
    assert PREFIX == "" + "Гарын" + " " + "үсэг" + ": ";
  }

  lemma {:induction false} OneCharacter(c: char)
    ensures Encode([c]) == Rune(c)
  {
    assert [c][1..] == "";
    EncodeNothing();
  }

  lemma {:induction false} EllipsisWidth()
    ensures |Encode(ELLIPSIS)| == 3
  {
    hide Encode;
    var c := 0x2026 as char;
    assert ELLIPSIS[0] == c;
    assert ELLIPSIS == [c];
    OneCharacter(c);
  }

  lemma {:induction false} UntitledWidth()
    ensures |Encode(UNTITLED)| == 47
  {
    EncodeNothing();
    hide Encode, Rune;
    var one := "" + "Баримтад" + " ";
    var two := one + "гарын" + " ";
    var three := two + "үсэг" + " ";
    AfterAWord("", "Баримтад", " ");
    AfterAWord(one, "гарын", " ");
    AfterAWord(two, "үсэг", " ");
    AfterAWord(three, "зурах", "");
    assert UNTITLED == three + "зурах" + "";
  }

  lemma {:induction false} EncodeOneMore(t: string, k: nat)
    requires k < |t|
    ensures Encode(t[..k + 1]) == Encode(t[..k]) + Rune(t[k])
  {
    assert t[..k + 1] == t[..k] + [t[k]];
    EncodeJoins(t[..k], [t[k]]);
    OneCharacter(t[k]);
    hide Rune, Encode;
  }

  /** Never more than 60 bytes; the purpose first whenever there is a title; all of a title that fits; and of one
      that does not, the longest beginning that leaves room for the ellipsis, in whole characters, whatever bytes
      the title is made of. */
  method SignatureDisplayText(title: seq<byte>) returns (r: seq<byte>)
    ensures |r| <= LIMIT
    ensures TrimSpace(title) == [] ==> r == Encode(UNTITLED)
    ensures TrimSpace(title) != [] ==> Encode(PREFIX) <= r
    ensures TrimSpace(title) != [] && |Encode(PREFIX)| + |TrimSpace(title)| <= LIMIT
            ==> r == Encode(PREFIX) + TrimSpace(title)
    ensures |Encode(PREFIX)| + |TrimSpace(title)| > LIMIT ==>
              exists k: nat :: k < |Runes(TrimSpace(title))|
                  && r == Encode(PREFIX + Runes(TrimSpace(title))[..k] + ELLIPSIS)
                               && |Encode(PREFIX + Runes(TrimSpace(title))[..k + 1] + ELLIPSIS)| > LIMIT
  {
    PrefixWidth();
    EllipsisWidth();
    UntitledWidth();
    hide Encode, TrimSpace, Runes;
    var trimmed := TrimSpace(title);
    if trimmed == [] {
      return Encode(UNTITLED);
    }
    if |Encode(PREFIX)| + |trimmed| <= LIMIT {
      return Encode(PREFIX) + trimmed;
    }
    var budget := LIMIT - |Encode(PREFIX)| - |Encode(ELLIPSIS)|;
    var b := Encode(PREFIX);
    var runes := Runes(trimmed);
    NeverShorter(trimmed);
    var used := 0;
    var k := 0;
    assert runes[..0] == "";
    EncodeNothing();
    while k < |runes| && used + |Rune(runes[k])| <= budget
      invariant 0 <= k <= |runes|
      invariant used == |Encode(runes[..k])| <= budget
      invariant b == Encode(PREFIX) + Encode(runes[..k])
    {
      EncodeOneMore(runes, k);
      hide Rune;
      b := b + Rune(runes[k]);
      used := used + |Rune(runes[k])|;
      k := k + 1;
    }
    assert k < |runes| by {
      assert runes[..|runes|] == runes;
    }
    r := b + Encode(ELLIPSIS);
    EncodeOneMore(runes, k);
    Assembled(runes[..k]);
    Assembled(runes[..k + 1]);
  }

  lemma {:induction false} EncodeNothing()
    ensures Encode("") == []
  {}

  lemma {:induction false} Assembled(t: string)
    ensures Encode(PREFIX + t + ELLIPSIS) == Encode(PREFIX) + Encode(t) + Encode(ELLIPSIS)
  {
    EncodeJoins(PREFIX + t, ELLIPSIS);
    EncodeJoins(PREFIX, t);
  }
}
