/** What gets replaced: escaping, claiming and ordering the edits (modules/documents/docx.go). */
module WordClaims {
  import opened WordRewrite

  // ------------------------------------------------------------------ escaping a value

  function EscapeUnit(c: char): string {
    if c == '&' then "&amp;"
    else if c == '<' then "&lt;"
    else if c == '>' then "&gt;"
    else if c == '"' then "&quot;"
    else if c == '\'' then "&apos;"
    else [c]
  }

  /** The five characters that XML gives a meaning to, by their names; any other stands for itself. */
  lemma {:induction false} EntitiesAre(c: char)
    ensures EscapeUnit('&') == "&amp;" && EscapeUnit('<') == "&lt;" && EscapeUnit('>') == "&gt;"
    ensures EscapeUnit('"') == "&quot;" && EscapeUnit('\'') == "&apos;"
    ensures EscapeUnit(c) == [c] <==> c !in {'&', '<', '>', '"', '\''}
  {}

  function XmlEscape(value: string): string {
    if value == "" then "" else EscapeUnit(value[0]) + XmlEscape(value[1..])
  }

  /** How a reader of the part decodes the five predefined entities. */
  function XmlUnescape(s: string): string {
    if s == "" then ""
    else if "&amp;" <= s then "&" + XmlUnescape(s[5..])
    else if "&lt;" <= s then "<" + XmlUnescape(s[4..])
    else if "&gt;" <= s then ">" + XmlUnescape(s[4..])
    else if "&quot;" <= s then "\"" + XmlUnescape(s[6..])
    else if "&apos;" <= s then "'" + XmlUnescape(s[6..])
    else [s[0]] + XmlUnescape(s[1..])
  }

  lemma {:induction false} UnescapeUnit(c: char, rest: string)
    ensures XmlUnescape(EscapeUnit(c) + rest) == [c] + XmlUnescape(rest)
  {
    var head := EscapeUnit(c);
    var s := head + rest;
    assert s[..|head|] == head && s[|head|..] == rest;
    assert head <= s;
    if c in "&<>\"'" {
      assert s[1] == head[1] && s[2] == head[2];
      assert "&amp;"[2] == 'm' && "&lt;"[1] == 'l' && "&gt;"[1] == 'g' && "&quot;"[1] == 'q';
    } else {
      assert s[0] == c != '&';
    }
  }

  /** The value is text, not markup: a reader gets it back. */
  lemma {:induction false} XmlEscapeRoundTrip(value: string)
    ensures XmlUnescape(XmlEscape(value)) == value
  {
    if value != "" {
      var rest := XmlEscape(value[1..]);
      XmlEscapeRoundTrip(value[1..]);
      UnescapeUnit(value[0], rest);
      assert value == [value[0]] + value[1..];
    }
  }

  /** And it opens no tag, so runs stay runs. */
  lemma {:induction false} XmlEscapeOpensNoTag(value: string)
    ensures '<' !in XmlEscape(value) && '>' !in XmlEscape(value)
  {
    if value != "" {
      XmlEscapeOpensNoTag(value[1..]);
      var head := EscapeUnit(value[0]);
      assert '<' !in head && '>' !in head;
    }
  }

  // ------------------------------------------------------------------ finding and claiming

  ghost predicate OccursAt(text: string, key: string, p: int) {
    0 <= p && p + |key| <= |text| && text[p..p + |key|] == key
  }

  /** strings.Index from a position on: the first occurrence, or -1. */
  function IndexFrom(text: string, key: string, from: nat): (i: int)
    requires from <= |text|
    ensures i < 0 ==> forall p | p >= from :: !OccursAt(text, key, p)
    ensures i >= 0 ==> from <= i && OccursAt(text, key, i) && forall p | from <= p < i :: !OccursAt(text, key, p)
    decreases |text| - from
  {
    if from + |key| <= |text| && text[from..from + |key|] == key then from
    else if from == |text| then -1
    else IndexFrom(text, key, from + 1)
  }

  /** Some unit of `[start, end)` is taken already. */
  ghost predicate Overlaps(edits: seq<Edit>, start: int, end: int) {
    exists j :: start <= j < end && Covers(Elements(edits), j)
  }

  /** The claims for one key, from a position on. A refused occurrence is stepped over whole. */
  ghost function ClaimKey(text: string, key: string, value: string, from: nat, edits: seq<Edit>): seq<Edit>
    requires key != "" && from <= |text|
    decreases |text| - from
  {
    var i := IndexFrom(text, key, from);
    if i < 0 then edits
    else if Overlaps(edits, i, i + |key|) then ClaimKey(text, key, value, i + |key|, edits)
    else ClaimKey(text, key, value, i + |key|, edits + [Edit(i, i + |key|, value)])
  }

  /** `pairs` is the flat key, value, key, value list; a trailing key without a value is ignored. */
  ghost predicate NonEmptyKeys(pairs: seq<string>) {
    forall i | 0 <= i && i + 1 < |pairs| && i % 2 == 0 :: pairs[i] != ""
  }

  ghost function ClaimPairs(text: string, pairs: seq<string>, i: nat, edits: seq<Edit>): seq<Edit>
    requires NonEmptyKeys(pairs) && i % 2 == 0
    decreases |pairs| - i
  {
    if i + 1 < |pairs|
    then ClaimPairs(text, pairs, i + 2, ClaimKey(text, pairs[i], XmlEscape(pairs[i + 1]), 0, edits))
    else edits
  }

  ghost function Claims(text: string, pairs: seq<string>): seq<Edit>
    requires NonEmptyKeys(pairs)
  {
    ClaimPairs(text, pairs, 0, [])
  }

  ghost predicate SeqDisjoint(edits: seq<Edit>, n: int) {
    && (forall i | 0 <= i < |edits| :: edits[i].start < edits[i].end <= n)
    && (forall i, j | 0 <= i < j < |edits| :: edits[i].end <= edits[j].start || edits[j].end <= edits[i].start)
  }

  /** An edit that puts an escaped value in place of an occurrence of its key. */
  ghost predicate IsClaimOf(text: string, pairs: seq<string>, i: int, e: Edit) {
    && 0 <= i && i + 1 < |pairs| && i % 2 == 0
    && OccursAt(text, pairs[i], e.start) && e.end == e.start + |pairs[i]| && e.value == XmlEscape(pairs[i + 1])
  }

  ghost predicate AllClaims(text: string, pairs: seq<string>, edits: seq<Edit>) {
    forall e | e in edits :: exists i :: IsClaimOf(text, pairs, i, e)
  }

  /** A span with no taken unit can join the claims. */
  lemma {:induction false} FreeSpanIsDisjoint(edits: seq<Edit>, e: Edit, n: int)
    requires SeqDisjoint(edits, n) && e.start < e.end <= n && !Overlaps(edits, e.start, e.end)
    ensures SeqDisjoint(edits + [e], n)
  {
    forall k | 0 <= k < |edits| ensures edits[k].end <= e.start || e.end <= edits[k].start {
      assert edits[k] in Elements(edits);
      var mid := if edits[k].start < e.start then e.start else edits[k].start;
      if edits[k].start <= mid < edits[k].end {
        assert Covers(Elements(edits), mid);
      }
    }
  }

  lemma {:induction false} OneMoreClaim(text: string, pairs: seq<string>, i: nat, edits: seq<Edit>, e: Edit)
    requires SeqDisjoint(edits, |text|) && AllClaims(text, pairs, edits)
    requires IsClaimOf(text, pairs, i, e) && e.start < e.end && !Overlaps(edits, e.start, e.end)
    ensures SeqDisjoint(edits + [e], |text|) && AllClaims(text, pairs, edits + [e])
  {
    FreeSpanIsDisjoint(edits, e, |text|);
  }

  lemma {:induction false} ClaimKeySound(text: string, pairs: seq<string>, i: nat, from: nat, edits: seq<Edit>)
    requires i + 1 < |pairs| && i % 2 == 0 && pairs[i] != "" && from <= |text|
    requires SeqDisjoint(edits, |text|) && AllClaims(text, pairs, edits)
    ensures SeqDisjoint(ClaimKey(text, pairs[i], XmlEscape(pairs[i + 1]), from, edits), |text|)
    ensures AllClaims(text, pairs, ClaimKey(text, pairs[i], XmlEscape(pairs[i + 1]), from, edits))
    decreases |text| - from
  {
    hide SeqDisjoint, AllClaims;
    var key, value := pairs[i], XmlEscape(pairs[i + 1]);
    var p := IndexFrom(text, key, from);
    if p >= 0 {
      if Overlaps(edits, p, p + |key|) {
        ClaimKeySound(text, pairs, i, p + |key|, edits);
      } else {
        var e := Edit(p, p + |key|, value);
        OneMoreClaim(text, pairs, i, edits, e);
        ClaimKeySound(text, pairs, i, p + |key|, edits + [e]);
      }
    }
  }

  /** Whatever the keys are, the claims are disjoint occurrences of keys with their escaped values. */
  lemma {:induction false} ClaimPairsSound(text: string, pairs: seq<string>, i: nat, edits: seq<Edit>)
    requires NonEmptyKeys(pairs) && i % 2 == 0
    requires SeqDisjoint(edits, |text|) && AllClaims(text, pairs, edits)
    ensures var r := ClaimPairs(text, pairs, i, edits); SeqDisjoint(r, |text|) && AllClaims(text, pairs, r)
    decreases |pairs| - i
  {
    hide SeqDisjoint, AllClaims, ClaimKey, XmlEscape;
    if i + 1 < |pairs| {
      ClaimKeySound(text, pairs, i, 0, edits);
      ClaimPairsSound(text, pairs, i + 2, ClaimKey(text, pairs[i], XmlEscape(pairs[i + 1]), 0, edits));
    }
  }

  lemma {:induction false} SeqToSetDisjoint(edits: seq<Edit>, n: int)
    requires SeqDisjoint(edits, n)
    ensures Disjoint(Elements(edits))
  {}

  // ------------------------------------------------------------------ sorting, last edit first

  ghost predicate Descending(s: seq<Edit>) {
    forall i, j | 0 <= i < j < |s| :: s[i].start >= s[j].start
  }

  ghost function InsertDesc(s: seq<Edit>, e: Edit): seq<Edit> {
    if s == [] || s[|s| - 1].start >= e.start then s + [e]
    else InsertDesc(s[..|s| - 1], e) + [s[|s| - 1]]
  }

  ghost function SortedDesc(s: seq<Edit>): seq<Edit> {
    if s == [] then [] else InsertDesc(SortedDesc(s[..|s| - 1]), s[|s| - 1])
  }

  lemma {:induction false} InsertDescMembers(s: seq<Edit>, e: Edit)
    ensures multiset(InsertDesc(s, e)) == multiset(s) + multiset{e}
  {
    if s != [] && s[|s| - 1].start < e.start {
      var init, last := s[..|s| - 1], s[|s| - 1];
      assert s == init + [last];
      InsertDescMembers(init, e);
    }
  }

  lemma {:induction false} InsertDescIsSorted(s: seq<Edit>, e: Edit)
    requires Descending(s)
    ensures Descending(InsertDesc(s, e))
  {
    if s != [] && s[|s| - 1].start < e.start {
      var init, last := s[..|s| - 1], s[|s| - 1];
      var t := InsertDesc(init, e);
      InsertDescIsSorted(init, e);
      InsertDescMembers(init, e);
      forall i | 0 <= i < |t| ensures t[i].start >= last.start {
        assert t[i] in multiset(t);
        assert t[i] in init || t[i] == e;
      }
      DescendingAppend(t, last);
    }
  }

  lemma {:induction false} DescendingAppend(s: seq<Edit>, last: Edit)
    requires Descending(s) && forall i | 0 <= i < |s| :: s[i].start >= last.start
    ensures Descending(s + [last])
  {}

  /** The insertion sort orders the edits by falling start and loses none. */
  lemma {:induction false} SortedDescIsSorted(s: seq<Edit>)
    ensures Descending(SortedDesc(s)) && multiset(SortedDesc(s)) == multiset(s)
  {
    if s != [] {
      assert s == s[..|s| - 1] + [s[|s| - 1]];
      SortedDescIsSorted(s[..|s| - 1]);
      InsertDescIsSorted(SortedDesc(s[..|s| - 1]), s[|s| - 1]);
      InsertDescMembers(SortedDesc(s[..|s| - 1]), s[|s| - 1]);
    }
  }

  lemma {:induction false} SameArrangement(t: seq<Edit>, s: seq<Edit>)
    requires multiset(t) == multiset(s)
    ensures |t| == |s| && Elements(t) == Elements(s) && forall x :: x in t <==> x in s
  {
    assert |multiset(t)| == |t| && |multiset(s)| == |s|;
    forall x ensures x in t <==> x in s {
      assert x in t <==> x in multiset(t);
      assert x in s <==> x in multiset(s);
    }
  }

  /** In disjoint edits sorted this way, each one ends at or before the start of every earlier one. */
  lemma {:induction false} SortedDescOrder(s: seq<Edit>, n: int)
    requires SeqDisjoint(s, n)
    ensures var t := SortedDesc(s);
            && Elements(t) == Elements(s) && |t| == |s|
            && (forall i | 0 <= i < |t| :: t[i].start < t[i].end <= n)
            && (forall i, j | 0 <= i < j < |t| :: t[j].end <= t[i].start)
  {
    hide SortedDesc;
    var t := SortedDesc(s);
    SortedDescIsSorted(s);
    SameArrangement(t, s);
    forall i | 0 <= i < |t| ensures t[i].start < t[i].end <= n {
      assert t[i] in s;
    }
    forall i, j | 0 <= i < j < |t| ensures t[j].end <= t[i].start {
      assert t[i] in s && t[j] in s;
      if t[i] == t[j] {
        TwiceInBoth(t, s, i, j);
      }
    }
  }

  /** A value met twice in one arrangement is met twice in the other: disjoint edits never repeat. */
  lemma {:induction false} TwiceInBoth(t: seq<Edit>, s: seq<Edit>, i: int, j: int)
    requires multiset(t) == multiset(s) && 0 <= i < j < |t| && t[i] == t[j]
    ensures exists a, b :: 0 <= a < b < |s| && s[a] == s[b]
  {
    CountsTwo(t, i, j);
    var x := t[i];
    var a :| 0 <= a < |s| && s[a] == x;
    MetAgain(s, a);
  }

  lemma {:induction false} CountsTwo(t: seq<Edit>, i: int, j: int)
    requires 0 <= i < j < |t| && t[i] == t[j]
    ensures multiset(t)[t[i]] >= 2
  {
    assert t == t[..j] + t[j..];
    assert t[i] in t[..j] && t[j] in t[j..];
  }

  lemma {:induction false} MetAgain(s: seq<Edit>, a: int)
    requires 0 <= a < |s| && multiset(s)[s[a]] >= 2
    ensures exists b, c :: 0 <= b < c < |s| && s[b] == s[c]
  {
    assert s == s[..a] + [s[a]] + s[a + 1..];
    assert s[a] in multiset(s[..a]) || s[a] in multiset(s[a + 1..]);
    assert s[a] in s[..a] || s[a] in s[a + 1..];
  }

  lemma {:induction false} InsertDescStep(s: seq<Edit>, e: Edit, right: seq<Edit>)
    requires s != [] && s[|s| - 1].start < e.start
    ensures InsertDesc(s[..|s| - 1], e) + ([s[|s| - 1]] + right) == InsertDesc(s, e) + right
  {}

  /** The inner loop: the edit at `i` moves left past those that start before it. */
  method SinkEdit(a: array<Edit>, i: nat)
    requires i < a.Length
    modifies a
    ensures a[..i + 1] == InsertDesc(old(a[..i]), old(a[i]))
    ensures a[i + 1..] == old(a[i + 1..])
  {
    ghost var e := a[i];
    var j := i;
    while j > 0 && a[j].start > a[j - 1].start
      invariant 0 <= j <= i && a[j] == e
      invariant InsertDesc(a[..j], e) + a[j + 1..i + 1] == InsertDesc(old(a[..i]), e)
      invariant a[i + 1..] == old(a[i + 1..])
      decreases j
    {
      ghost var left, right := a[..j], a[j + 1..i + 1];
      a[j], a[j - 1] := a[j - 1], a[j];
      j := j - 1;
      assert a[..j] == left[..j] && a[j + 1..i + 1] == [left[j]] + right;
      InsertDescStep(left, e, right);
    }
    assert a[..i + 1] == a[..j] + [e] + a[j + 1..i + 1];
  }

  method SortEditsDesc(a: array<Edit>)
    modifies a
    ensures a[..] == SortedDesc(old(a[..]))
  {
    ghost var was := a[..];
    if a.Length > 0 {
      assert was[..1][..0] == [] && was[..1] == [was[0]];
      var i := 1;
      while i < a.Length
        invariant 1 <= i <= a.Length
        invariant a[..i] == SortedDesc(was[..i]) && a[i..] == was[i..]
      {
        assert was[..i + 1][..i] == was[..i] && was[..i + 1][i] == was[i] == a[i..][0];
        assert a[i + 1..] == a[i..][1..] == was[i + 1..];
        SinkEdit(a, i);
        i := i + 1;
      }
      assert a[..i] == a[..] && was[..i] == was;
    }
  }
}
