/** The placeholder list both rendering paths read, and the plain-text path (modules/documents/render.go).

    The plain path is one left-to-right scan that takes the first listed key matching where it stands.
    The Word path claims key by key. On placeholders the two produce the same text. */
module Placeholders {
  import opened WordRewrite
  import opened WordClaims
  import opened WordSubstitution

  /** What a contract's text may name; the date is the text `dateText` renders. */
  datatype Fields = Fields(
    schoolName: string, schoolCode: string, aimag: string, soum: string, address: string,
    principal: string, academicYear: string, contractCode: string, title: string, dateText: string)

  function SubstitutionPairs(f: Fields): seq<string> {
    [ "{{тал}}", f.schoolName,
      "{{регистр}}", f.schoolCode,
      "{{төлөөлөгч}}", f.principal,
      "{{гэрээ}}", f.title,
      "{{сургууль}}", f.schoolName,
      "{{код}}", f.schoolCode,
      "{{аймаг}}", f.aimag,
      "{{сум}}", f.soum,
      "{{хаяг}}", f.address,
      "{{захирал}}", f.principal,
      "{{жил}}", f.academicYear,
      "{{дугаар}}", f.contractCode,
      "{{гэрчилгээ}}", f.title,
      "{{огноо}}", f.dateText ]
  }

  /** Two opening braces, a name with no brace in it, two closing braces. */
  predicate IsPlaceholder(key: string) {
    && |key| > 4
    && key[0] == '{' && key[1] == '{' && key[|key| - 2] == '}' && key[|key| - 1] == '}'
    && forall i | 2 <= i < |key| - 2 :: key[i] != '{' && key[i] != '}'
  }

  ghost predicate PlaceholderPairs(pairs: seq<string>) {
    |pairs| % 2 == 0 && forall i | 0 <= i < |pairs| && i % 2 == 0 :: IsPlaceholder(pairs[i])
  }

  lemma {:induction false} TheKeysArePlaceholders()
    ensures IsPlaceholder("{{тал}}") && IsPlaceholder("{{регистр}}")
            && IsPlaceholder("{{төлөөлөгч}}")
    ensures IsPlaceholder("{{гэрээ}}") && IsPlaceholder("{{сургууль}}") && IsPlaceholder("{{код}}")
    ensures IsPlaceholder("{{аймаг}}") && IsPlaceholder("{{сум}}") && IsPlaceholder("{{хаяг}}")
    ensures IsPlaceholder("{{захирал}}") && IsPlaceholder("{{жил}}") && IsPlaceholder("{{дугаар}}")
    ensures IsPlaceholder("{{гэрчилгээ}}") && IsPlaceholder("{{огноо}}")
  {}

  lemma {:induction false} TheListIsPlaceholders(f: Fields)
    ensures PlaceholderPairs(SubstitutionPairs(f))
  {
    TheKeysArePlaceholders();
    hide IsPlaceholder;
  }

  // ------------------------------------------------------------------ the plain path: one scan

  /** The first listed key, from pair `i` on, that occurs at `p`; or -1. */
  function KeyAt(text: string, pairs: seq<string>, p: nat, i: nat): (r: int)
    requires p <= |text| && i % 2 == 0
    ensures r >= 0 ==> i <= r && r + 1 < |pairs| && r % 2 == 0 && pairs[r] <= text[p..]
    decreases |pairs| - i
  {
    if i + 1 >= |pairs| then -1
    else if pairs[i] <= text[p..] then i
    else KeyAt(text, pairs, p, i + 2)
  }

  lemma {:induction false} KeyAtIsFirst(text: string, pairs: seq<string>, p: nat, i: nat, j: int)
    requires p <= |text| && i % 2 == 0 && i <= j && j + 1 < |pairs| && j % 2 == 0
    requires KeyAt(text, pairs, p, i) < 0 || j < KeyAt(text, pairs, p, i)
    ensures !(pairs[j] <= text[p..])
    decreases |pairs| - i
  {
    if i < j {
      KeyAtIsFirst(text, pairs, p, i + 2, j);
    }
  }

  /** The replacer's scan from position `p` on. Values are never searched. */
  function Scan(text: string, pairs: seq<string>, p: nat): string
    requires p <= |text| && NonEmptyKeys(pairs)
    decreases |text| - p
  {
    if p == |text| then ""
    else
      var i := KeyAt(text, pairs, p, 0);
      if i >= 0 then pairs[i + 1] + Scan(text, pairs, p + |pairs[i]|)
      else [text[p]] + Scan(text, pairs, p + 1)
  }

  /** strings.NewReplacer over the pairs, on the whole text. */
  function Substitute(body: string, pairs: seq<string>): string
    requires NonEmptyKeys(pairs)
  {
    Scan(body, pairs, 0)
  }

  function Escaped(pairs: seq<string>): seq<string> {
    seq(|pairs|, i requires 0 <= i < |pairs| => if i % 2 == 0 then pairs[i] else XmlEscape(pairs[i]))
  }

  // ------------------------------------------------------------------ what each placeholder stands for

  /** A listed key alone renders to what is listed behind it first. */
  lemma {:induction false} AloneRendersTo(pairs: seq<string>, i: nat)
    requires PlaceholderPairs(pairs) && NonEmptyKeys(pairs) && i % 2 == 0 && i + 1 < |pairs|
    requires forall j | 0 <= j < i && j % 2 == 0 :: pairs[j] != pairs[i]
    ensures Substitute(pairs[i], pairs) == pairs[i + 1]
  {
    var text := pairs[i];
    assert text[0..] == text;
    var k := KeyAt(text, pairs, 0, 0);
    if k < 0 || i < k {
      KeyAtIsFirst(text, pairs, 0, 0, i);
    } else {
      assert OccursAt(text, pairs[k], 0) && OccursAt(text, pairs[i], 0);
      SameKey(text, pairs[k], pairs[i], 0);
    }
    assert Scan(text, pairs, |text|) == "";
  }

  /** Field by field: what a contract's text gets for each placeholder. */
  lemma {:induction false} EachFieldRenders(f: Fields)
    ensures NonEmptyKeys(SubstitutionPairs(f))
    ensures var pairs := SubstitutionPairs(f);
            && Substitute("{{тал}}", pairs) == f.schoolName
            && Substitute("{{регистр}}", pairs) == f.schoolCode
            && Substitute("{{төлөөлөгч}}", pairs) == f.principal
            && Substitute("{{гэрээ}}", pairs) == f.title
            && Substitute("{{сургууль}}", pairs) == f.schoolName
            && Substitute("{{код}}", pairs) == f.schoolCode
            && Substitute("{{аймаг}}", pairs) == f.aimag && Substitute("{{сум}}", pairs) == f.soum
            && Substitute("{{хаяг}}", pairs) == f.address && Substitute("{{захирал}}", pairs) == f.principal
            && Substitute("{{жил}}", pairs) == f.academicYear
            && Substitute("{{дугаар}}", pairs) == f.contractCode
            && Substitute("{{гэрчилгээ}}", pairs) == f.title
            && Substitute("{{огноо}}", pairs) == f.dateText
  {
    var pairs := SubstitutionPairs(f);
    TheListIsPlaceholders(f);
    EscapedKeys(pairs);
    hide Substitute, PlaceholderPairs, NonEmptyKeys;
    forall i | 0 <= i < 28 && i % 2 == 0 ensures Substitute(pairs[i], pairs) == pairs[i + 1] {
      NoneBefore(f, i);
      AloneRendersTo(pairs, i);
    }
    assert Substitute(pairs[0], pairs) == pairs[1] && Substitute(pairs[2], pairs) == pairs[3];
    assert Substitute(pairs[4], pairs) == pairs[5] && Substitute(pairs[6], pairs) == pairs[7];
    assert Substitute(pairs[8], pairs) == pairs[9] && Substitute(pairs[10], pairs) == pairs[11];
    assert Substitute(pairs[12], pairs) == pairs[13] && Substitute(pairs[14], pairs) == pairs[15];
    assert Substitute(pairs[16], pairs) == pairs[17] && Substitute(pairs[18], pairs) == pairs[19];
    assert Substitute(pairs[20], pairs) == pairs[21] && Substitute(pairs[22], pairs) == pairs[23];
    assert Substitute(pairs[24], pairs) == pairs[25] && Substitute(pairs[26], pairs) == pairs[27];
  }

  /** Two texts that differ in their third, fourth or sixth unit. */
  ghost predicate Apart(a: string, b: string) {
    |a| > 5 && |b| > 5 && (a[2] != b[2] || a[3] != b[3] || a[5] != b[5])
  }

  lemma {:induction false} FirstSevenApart(f: Fields, i: nat)
    requires i < 14 && i % 2 == 0
    ensures forall j | 0 <= j < i && j % 2 == 0 :: Apart(SubstitutionPairs(f)[j], SubstitutionPairs(f)[i])
  {}

  lemma {:induction false} LaterOnesApart(f: Fields, i: nat)
    requires 14 <= i < 28 && i % 2 == 0
    ensures forall j | 0 <= j < i && j % 2 == 0 :: Apart(SubstitutionPairs(f)[j], SubstitutionPairs(f)[i])
  {}

  /** No key is listed twice. */
  lemma {:induction false} NoneBefore(f: Fields, i: nat)
    requires i < 28 && i % 2 == 0
    ensures forall j | 0 <= j < i && j % 2 == 0 :: SubstitutionPairs(f)[j] != SubstitutionPairs(f)[i]
  {
    if i < 14 { FirstSevenApart(f, i); } else { LaterOnesApart(f, i); }
    hide SubstitutionPairs;
    forall j | 0 <= j < i && j % 2 == 0 ensures SubstitutionPairs(f)[j] != SubstitutionPairs(f)[i] {
      assert Apart(SubstitutionPairs(f)[j], SubstitutionPairs(f)[i]);
    }
  }

  // ------------------------------------------------------------------ placeholders never overlap

  lemma {:induction false} OccursUnit(text: string, key: string, p: int, i: int)
    requires OccursAt(text, key, p) && 0 <= i < |key|
    ensures text[p + i] == key[i]
  {
    assert text[p..p + |key|][i] == key[i];
  }

  /** The second of two overlapping placeholders cannot open inside the first. */
  lemma {:induction false} SamePlace(text: string, a: string, b: string, p: int, q: int)
    requires IsPlaceholder(a) && IsPlaceholder(b) && OccursAt(text, a, p) && OccursAt(text, b, q)
    requires p <= q < p + |a|
    ensures p == q
  {
    OccursUnit(text, a, p, q - p);
    OccursUnit(text, a, p, if q - p + 1 < |a| then q - p + 1 else 0);
    OccursUnit(text, b, q, 0);
    OccursUnit(text, b, q, 1);
  }

  lemma {:induction false} SameKey(text: string, a: string, b: string, p: int)
    requires IsPlaceholder(a) && IsPlaceholder(b) && OccursAt(text, a, p) && OccursAt(text, b, p)
    ensures a == b
  {
    var m := if |a| < |b| then |a| - 2 else |b| - 2;
    OccursUnit(text, a, p, m);
    OccursUnit(text, b, p, m);
    assert |a| == |b|;
    assert a == text[p..p + |a|] == b;
  }

  /** Two placeholders that share a unit of the text are the same key at the same place. */
  lemma {:induction false} NoOverlap(text: string, a: string, b: string, p: int, q: int, shared: int)
    requires IsPlaceholder(a) && IsPlaceholder(b) && OccursAt(text, a, p) && OccursAt(text, b, q)
    requires p <= shared < p + |a| && q <= shared < q + |b|
    ensures p == q && a == b
  {
    if p <= q {
      SamePlace(text, a, b, p, q);
    } else {
      SamePlace(text, b, a, q, p);
    }
    SameKey(text, a, b, p);
  }

  // ------------------------------------------------------------------ claiming finds them all

  /** Pair `j` is one whose key occurs at `p`. */
  ghost predicate ListedAt(text: string, pairs: seq<string>, j: int, p: int) {
    0 <= j && j + 1 < |pairs| && j % 2 == 0 && OccursAt(text, pairs[j], p)
  }

  ghost predicate HasEdit(edits: seq<Edit>, p: int, key: string) {
    exists e :: e in edits && e.start == p && e.end == p + |key|
  }

  /** Every occurrence of a key listed before pair `i` is claimed. */
  ghost predicate Complete(text: string, pairs: seq<string>, i: int, edits: seq<Edit>) {
    forall j, p | j < i && ListedAt(text, pairs, j, p) :: HasEdit(edits, p, pairs[j])
  }

  /** Claim `e` belongs to pair `j`, and no pair before it occurs there. */
  ghost predicate FirstAt(text: string, pairs: seq<string>, j: int, e: Edit) {
    IsClaimOf(text, pairs, j, e) && forall h | h < j :: !ListedAt(text, pairs, h, e.start)
  }

  ghost predicate FirstClaims(text: string, pairs: seq<string>, edits: seq<Edit>) {
    forall e | e in edits :: exists j :: FirstAt(text, pairs, j, e)
  }

  /** Every occurrence of `key` that begins before `from` is claimed. */
  ghost predicate KeyDone(text: string, key: string, from: int, edits: seq<Edit>) {
    forall p | p < from && OccursAt(text, key, p) :: HasEdit(edits, p, key)
  }

  ghost predicate Claiming(text: string, pairs: seq<string>, i: int, edits: seq<Edit>) {
    && SeqDisjoint(edits, |text|) && AllClaims(text, pairs, edits)
    && FirstClaims(text, pairs, edits) && Complete(text, pairs, i, edits)
  }

  /** An occurrence that is refused is refused because it is claimed already. */
  lemma {:induction false} RefusedIsClaimed(text: string, pairs: seq<string>, i: nat, p: int, edits: seq<Edit>)
    requires PlaceholderPairs(pairs) && ListedAt(text, pairs, i, p) && Claiming(text, pairs, i, edits)
    requires Overlaps(edits, p, p + |pairs[i]|)
    ensures HasEdit(edits, p, pairs[i])
  {
    var k :| p <= k < p + |pairs[i]| && Covers(Elements(edits), k);
    var e :| e in Elements(edits) && e.start <= k < e.end;
    var j :| IsClaimOf(text, pairs, j, e);
    NoOverlap(text, pairs[i], pairs[j], p, e.start, k);
  }

  /** No second occurrence begins inside the one just met, so stepping over it misses none. */
  lemma {:induction false} StepOver(text: string, pairs: seq<string>, i: nat, from: nat, p: int, edits: seq<Edit>)
    requires PlaceholderPairs(pairs) && ListedAt(text, pairs, i, p) && from <= p
    requires forall q | from <= q < p :: !OccursAt(text, pairs[i], q)
    requires KeyDone(text, pairs[i], from, edits) && HasEdit(edits, p, pairs[i])
    ensures KeyDone(text, pairs[i], p + |pairs[i]|, edits)
  {
    var key := pairs[i];
    forall q | q < p + |key| && OccursAt(text, key, q) ensures HasEdit(edits, q, key) {
      if q > p {
        NoOverlap(text, key, key, p, q, q);
      }
    }
  }

  /** A free occurrence is claimed for the first listed key there: an earlier one would have taken it. */
  lemma {:induction false} FreeIsFirst(text: string, pairs: seq<string>, i: nat, e: Edit, edits: seq<Edit>)
    requires PlaceholderPairs(pairs) && Complete(text, pairs, i, edits)
    requires IsClaimOf(text, pairs, i, e) && !Overlaps(edits, e.start, e.end)
    ensures FirstAt(text, pairs, i, e)
  {
    forall h | h < i ensures !ListedAt(text, pairs, h, e.start) {
      if ListedAt(text, pairs, h, e.start) {
        ClaimedIsCovered(edits, e.start, pairs[h]);
        assert false;
      }
    }
  }

  lemma {:induction false} ClaimedIsCovered(edits: seq<Edit>, p: int, key: string)
    requires HasEdit(edits, p, key) && IsPlaceholder(key)
    ensures Covers(Elements(edits), p)
  {
    var e :| e in edits && e.start == p && e.end == p + |key|;
    assert e in Elements(edits);
  }

  lemma {:induction false} ClaimKeepsState(text: string, pairs: seq<string>, i: nat, e: Edit, edits: seq<Edit>)
    requires PlaceholderPairs(pairs) && Claiming(text, pairs, i, edits)
    requires IsClaimOf(text, pairs, i, e) && e.start < e.end && !Overlaps(edits, e.start, e.end)
    ensures Claiming(text, pairs, i, edits + [e])
  {
    OneMoreClaim(text, pairs, i, edits, e);
    FreeIsFirst(text, pairs, i, e, edits);
    forall j, p | j < i && ListedAt(text, pairs, j, p) ensures HasEdit(edits + [e], p, pairs[j]) {
      HasEditGrows(edits, e, p, pairs[j]);
    }
  }

  lemma {:induction false} HasEditGrows(edits: seq<Edit>, e: Edit, p: int, key: string)
    requires HasEdit(edits, p, key)
    ensures HasEdit(edits + [e], p, key)
  {
    var f :| f in edits && f.start == p && f.end == p + |key|;
    assert f in edits + [e];
  }

  /** The pass for one key claims each of its occurrences that is not claimed yet. */
  lemma {:induction false} ClaimKeyAll(text: string, pairs: seq<string>, i: nat, from: nat, edits: seq<Edit>)
    requires PlaceholderPairs(pairs) && i + 1 < |pairs| && i % 2 == 0 && pairs[i] != "" && from <= |text|
    requires Claiming(text, pairs, i, edits) && KeyDone(text, pairs[i], from, edits)
    ensures Claiming(text, pairs, i + 2, ClaimKey(text, pairs[i], XmlEscape(pairs[i + 1]), from, edits))
    decreases |text| - from
  {
    hide Claiming, KeyDone, PlaceholderPairs, XmlEscape, IndexFrom;
    var p := IndexFrom(text, pairs[i], from);
    if p < 0 {
      NoneLeft(text, pairs, i, from, edits);
    } else {
      var next := OneOccurrence(text, pairs, i, from, edits);
      ClaimKeyAll(text, pairs, i, p + |pairs[i]|, next);
    }
  }

  lemma {:induction false} NoneLeft(text: string, pairs: seq<string>, i: nat, from: nat, edits: seq<Edit>)
    requires i + 1 < |pairs| && i % 2 == 0 && from <= |text|
    requires Claiming(text, pairs, i, edits) && KeyDone(text, pairs[i], from, edits)
    requires IndexFrom(text, pairs[i], from) < 0
    ensures Claiming(text, pairs, i + 2, edits)
  {
    forall j, p | j < i + 2 && ListedAt(text, pairs, j, p) ensures HasEdit(edits, p, pairs[j]) {}
  }

  /** One occurrence of the key is refused or claimed; either way it is claimed afterwards. */
  lemma {:induction false} OneOccurrence(text: string, pairs: seq<string>, i: nat, from: nat, edits: seq<Edit>)
    returns (next: seq<Edit>)
    requires PlaceholderPairs(pairs) && i + 1 < |pairs| && i % 2 == 0 && pairs[i] != "" && from <= |text|
    requires Claiming(text, pairs, i, edits) && KeyDone(text, pairs[i], from, edits)
    requires IndexFrom(text, pairs[i], from) >= 0
    ensures var to := IndexFrom(text, pairs[i], from) + |pairs[i]|;
            && Claiming(text, pairs, i, next) && KeyDone(text, pairs[i], to, next)
            && ClaimKey(text, pairs[i], XmlEscape(pairs[i + 1]), from, edits)
               == ClaimKey(text, pairs[i], XmlEscape(pairs[i + 1]), to, next)
  {
    hide Claiming, KeyDone;
    var p := IndexFrom(text, pairs[i], from);
    if Overlaps(edits, p, p + |pairs[i]|) {
      next := edits;
      RefusedIsClaimed(text, pairs, i, p, edits);
      StepOver(text, pairs, i, from, p, edits);
    } else {
      var e := Edit(p, p + |pairs[i]|, XmlEscape(pairs[i + 1]));
      next := edits + [e];
      ClaimKeepsState(text, pairs, i, e, edits);
      ClaimStepsOver(text, pairs, i, from, e, edits);
    }
  }

  lemma {:induction false} ClaimStepsOver(text: string, pairs: seq<string>, i: nat, from: nat, e: Edit,
      edits: seq<Edit>)
    requires PlaceholderPairs(pairs) && IsClaimOf(text, pairs, i, e) && from <= e.start
    requires forall q | from <= q < e.start :: !OccursAt(text, pairs[i], q)
    requires KeyDone(text, pairs[i], from, edits)
    ensures KeyDone(text, pairs[i], e.end, edits + [e])
  {
    var key := pairs[i];
    forall q | q < from && OccursAt(text, key, q) ensures HasEdit(edits + [e], q, key) {
      HasEditGrows(edits, e, q, key);
    }
    assert (edits + [e])[|edits|] == e;
    StepOver(text, pairs, i, from, e.start, edits + [e]);
  }

  lemma {:induction false} ClaimPairsAll(text: string, pairs: seq<string>, i: nat, edits: seq<Edit>)
    requires PlaceholderPairs(pairs) && NonEmptyKeys(pairs) && i % 2 == 0 && Claiming(text, pairs, i, edits)
    ensures Claiming(text, pairs, |pairs|, ClaimPairs(text, pairs, i, edits))
    decreases |pairs| - i
  {
    if i + 1 < |pairs| {
      assert IsPlaceholder(pairs[i]);
      ClaimKeyAll(text, pairs, i, 0, edits);
      ClaimPairsAll(text, pairs, i + 2, ClaimKey(text, pairs[i], XmlEscape(pairs[i + 1]), 0, edits));
    } else {
      assert Complete(text, pairs, |pairs|, edits);
    }
  }

  // ------------------------------------------------------------------ the two paths agree

  /** `p` is not inside a claim: one may start or end there. */
  ghost predicate Boundary(edits: seq<Edit>, p: int) {
    forall e | e in edits :: !(e.start < p < e.end)
  }

  lemma {:induction false} EditGivesValue(text: string, edits: seq<Edit>, e: Edit, hi: int)
    requires SeqDisjoint(edits, |text|) && e in edits && e.start < hi <= e.end
    ensures TextRewrite(text, Elements(edits), e.start, hi) == e.value
    decreases hi
  {
    var es, p := Elements(edits), hi - 1;
    SeqToSetDisjoint(edits, |text|);
    assert e in es && Covers(es, p);
    if p > e.start {
      EditGivesValue(text, edits, e, hi - 1);
      assert ValueAt(es, p) == "";
    } else {
      assert ValueAt(es, p) == e.value;
      assert TextRewrite(text, es, p, p) == "";
    }
  }

  /** Where a listed key occurs, the claim there is the scan's choice. */
  lemma {:induction false} ClaimAtKey(text: string, pairs: seq<string>, edits: seq<Edit>, p: nat, i: nat)
      returns (e: Edit)
    requires PlaceholderPairs(pairs) && Claiming(text, pairs, |pairs|, edits) && ListedAt(text, pairs, i, p)
    requires forall j | j < i :: !ListedAt(text, pairs, j, p)
    ensures e in edits && e == Edit(p, p + |pairs[i]|, XmlEscape(pairs[i + 1]))
  {
    assert HasEdit(edits, p, pairs[i]);
    e :| e in edits && e.start == p && e.end == p + |pairs[i]|;
    var j :| FirstAt(text, pairs, j, e);
    assert ListedAt(text, pairs, j, p);
    assert j == i;
  }

  lemma {:induction false} PrefixIsOccurrence(text: string, key: string, p: nat)
    requires p <= |text|
    ensures key <= text[p..] <==> OccursAt(text, key, p)
  {
    if p + |key| <= |text| {
      assert text[p..][..|key|] == text[p..p + |key|];
    }
  }

  lemma {:induction false} ScanChoice(text: string, pairs: seq<string>, p: nat)
    requires PlaceholderPairs(pairs) && p <= |text|
    ensures var i := KeyAt(text, Escaped(pairs), p, 0);
            && (i >= 0 ==> ListedAt(text, pairs, i, p))
            && forall j | i < 0 || j < i :: !ListedAt(text, pairs, j, p)
  {
    var i := KeyAt(text, Escaped(pairs), p, 0);
    if i >= 0 {
      PrefixIsOccurrence(text, pairs[i], p);
    }
    forall j | i < 0 || j < i ensures !ListedAt(text, pairs, j, p) {
      if 0 <= j && j + 1 < |pairs| && j % 2 == 0 {
        KeyAtIsFirst(text, Escaped(pairs), p, 0, j);
        PrefixIsOccurrence(text, pairs[j], p);
      }
    }
  }

  lemma {:induction false} EscapedKeys(pairs: seq<string>)
    requires PlaceholderPairs(pairs)
    ensures NonEmptyKeys(pairs) && NonEmptyKeys(Escaped(pairs))
  {
    forall i | 0 <= i && i + 1 < |pairs| && i % 2 == 0 ensures pairs[i] != "" && Escaped(pairs)[i] != "" {
      assert IsPlaceholder(pairs[i]);
    }
  }

  /** From any boundary on, rewriting the claims is the left-to-right scan. */
  lemma {:induction false} RewriteIsScan(text: string, pairs: seq<string>, edits: seq<Edit>, p: nat)
    requires PlaceholderPairs(pairs) && Claiming(text, pairs, |pairs|, edits)
    requires NonEmptyKeys(Escaped(pairs))
    requires p <= |text| && Boundary(edits, p)
    ensures TextRewrite(text, Elements(edits), p, |text|) == Scan(text, Escaped(pairs), p)
    decreases |text| - p
  {
    if p < |text| {
      var next, put := ScanUnfolds(text, Escaped(pairs), p);
      OneScanStep(text, pairs, edits, p, next, put);
      TextRewriteSplit(text, Elements(edits), p, next, |text|);
      RewriteIsScan(text, pairs, edits, next);
    }
  }

  /** What one step of the scan writes, and where it goes on. */
  ghost predicate ScanStep(text: string, pairs: seq<string>, p: nat, next: nat, put: string)
    requires p < |text|
  {
    var i := KeyAt(text, pairs, p, 0);
    if i >= 0 then put == pairs[i + 1] && next == p + |pairs[i]| else put == [text[p]] && next == p + 1
  }

  lemma {:induction false} ScanUnfolds(text: string, pairs: seq<string>, p: nat) returns (next: nat, put: string)
    requires p < |text| && NonEmptyKeys(pairs)
    ensures ScanStep(text, pairs, p, next, put) && p < next <= |text|
    ensures Scan(text, pairs, p) == put + Scan(text, pairs, next)
  {
    var i := KeyAt(text, pairs, p, 0);
    next, put := if i >= 0 then p + |pairs[i]| else p + 1, if i >= 0 then pairs[i + 1] else [text[p]];
  }

  /** The claims put there what one step of the scan writes, and the step ends on a boundary. */
  lemma {:induction false} OneScanStep(text: string, pairs: seq<string>, edits: seq<Edit>, p: nat, next: nat,
      put: string)
    requires PlaceholderPairs(pairs) && Claiming(text, pairs, |pairs|, edits)
    requires p < |text| && Boundary(edits, p) && ScanStep(text, Escaped(pairs), p, next, put)
    ensures p < next <= |text| && Boundary(edits, next) && TextRewrite(text, Elements(edits), p, next) == put
  {
    hide Claiming, Boundary, PlaceholderPairs, ListedAt, XmlEscape, TextRewrite;
    var i := KeyAt(text, Escaped(pairs), p, 0);
    ScanChoice(text, pairs, p);
    if i >= 0 {
      var end := KeyStep(text, pairs, edits, p, i);
    } else {
      QuietStep(text, pairs, edits, p);
    }
  }

  lemma {:induction false} KeyStep(text: string, pairs: seq<string>, edits: seq<Edit>, p: nat, i: nat)
      returns (next: nat)
    requires PlaceholderPairs(pairs) && Claiming(text, pairs, |pairs|, edits)
    requires p < |text| && ListedAt(text, pairs, i, p) && forall j | j < i :: !ListedAt(text, pairs, j, p)
    ensures next == p + |pairs[i]| && p < next <= |text| && Boundary(edits, next)
    ensures TextRewrite(text, Elements(edits), p, next) == XmlEscape(pairs[i + 1])
  {
    var e := ClaimAtKey(text, pairs, edits, p, i);
    next := e.end;
    assert IsPlaceholder(pairs[i]);
    BoundaryAfter(text, edits, e);
    EditGivesValue(text, edits, e, e.end);
  }

  lemma {:induction false} BoundaryAfter(text: string, edits: seq<Edit>, e: Edit)
    requires SeqDisjoint(edits, |text|) && e in edits
    ensures Boundary(edits, e.end)
  {
    SeqToSetDisjoint(edits, |text|);
    forall f | f in edits ensures !(f.start < e.end < f.end) {
      assert f in Elements(edits) && e in Elements(edits);
    }
  }

  /** Where no key occurs the unit is copied, and the next position is a boundary too. */
  lemma {:induction false} QuietStep(text: string, pairs: seq<string>, edits: seq<Edit>, p: nat)
    requires p < |text| && Claiming(text, pairs, |pairs|, edits) && Boundary(edits, p)
    requires forall j :: !ListedAt(text, pairs, j, p)
    ensures TextRewrite(text, Elements(edits), p, p + 1) == [text[p]]
    ensures Boundary(edits, p + 1)
  {
    var es := Elements(edits);
    forall e | e in edits ensures e.start != p {
      var j :| IsClaimOf(text, pairs, j, e);
      assert e.start == p ==> ListedAt(text, pairs, j, p);
    }
    assert !Covers(es, p) && ValueAt(es, p) == "";
    assert TextRewrite(text, es, p, p) == "";
  }

  /** Key-by-key claiming agrees with one left-to-right replacer scan, on every text and every list of
      placeholders (a key may even be listed twice: both then take the first). */
  lemma {:induction false} WordPathIsSubstitute(text: string, pairs: seq<string>)
    requires PlaceholderPairs(pairs)
    ensures NonEmptyKeys(pairs) && NonEmptyKeys(Escaped(pairs))
    ensures TextRewrite(text, Elements(Claims(text, pairs)), 0, |text|) == Substitute(text, Escaped(pairs))
  {
    EscapedKeys(pairs);
    assert Complete(text, pairs, 0, []);
    ClaimPairsAll(text, pairs, 0, []);
    var edits := Claims(text, pairs);
    assert Boundary(edits, 0);
    RewriteIsScan(text, pairs, edits, 0);
  }

  /** A contract rendered through Word reads, run texts joined, exactly as the plain `Substitute` of the
      same text would with escaped values, for every document and every contract. */
  lemma {:induction false} WordRendersAsPlain(doc: string, ms: seq<Match>, f: Fields)
    requires ValidMatches(doc, ms)
    ensures PlaceholderPairs(SubstitutionPairs(f)) && NonEmptyKeys(SubstitutionPairs(f))
    ensures NonEmptyKeys(Escaped(SubstitutionPairs(f)))
    ensures Joined(RunTexts(doc, ms, Elements(Claims(Text(doc, ms), SubstitutionPairs(f)))))
            == Substitute(Text(doc, ms), Escaped(SubstitutionPairs(f)))
  {
    TheListIsPlaceholders(f);
    WordPathIsSubstitute(Text(doc, ms), SubstitutionPairs(f));
    WhatItReads(doc, ms, SubstitutionPairs(f));
  }
}
