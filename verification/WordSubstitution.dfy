/** substituteWordXML itself: claim, sort, splice, and what the document then reads. */
module WordSubstitution {
  import opened WordRewrite
  import opened WordClaims

  // ------------------------------------------------------------------ the runs of a document

  ghost function EndOf(ms: seq<Match>, k: nat): nat
    requires k <= |ms|
  {
    if k == 0 then 0 else ms[k - 1].end
  }

  /** Where the text of run `k` begins in the joined text. */
  ghost function Offset(ms: seq<Match>, k: nat): int
    requires k <= |ms|
  {
    if k == 0 then 0 else Offset(ms, k - 1) + ms[k - 1].end - ms[k - 1].start
  }

  /** The visible text of the first `k` runs, joined. */
  ghost function TextUpTo(doc: string, ms: seq<Match>, k: nat): string
    requires k <= |ms| && forall i | 0 <= i < |ms| :: ms[i].start <= ms[i].end <= |doc|
  {
    if k == 0 then "" else TextUpTo(doc, ms, k - 1) + doc[ms[k - 1].start..ms[k - 1].end]
  }

  ghost function Text(doc: string, ms: seq<Match>): string
    requires ValidMatches(doc, ms)
  {
    TextUpTo(doc, ms, |ms|)
  }

  ghost function Runs(ms: seq<Match>): seq<Run> {
    seq(|ms|, i requires 0 <= i < |ms| => Run(ms[i].start, ms[i].end, Offset(ms, i)))
  }

  lemma {:induction false} OffsetGrows(doc: string, ms: seq<Match>, i: nat, k: nat)
    requires ValidMatches(doc, ms) && i <= k <= |ms|
    ensures 0 <= Offset(ms, i) <= Offset(ms, k)
    decreases i + k
  {
    if i < k {
      OffsetGrows(doc, ms, i, k - 1);
    } else if i > 0 {
      OffsetGrows(doc, ms, i - 1, i - 1);
    }
  }

  lemma {:induction false} RunsAreValid(doc: string, ms: seq<Match>)
    requires ValidMatches(doc, ms)
    ensures ValidRuns(Runs(ms)) && TextLength(Runs(ms)) == Offset(ms, |ms|)
  {
    var runs := Runs(ms);
    forall i | 0 <= i < |ms| ensures runs[i].FullEnd() == Offset(ms, i + 1) {}
    forall i, j | 0 <= i < j < |ms| ensures runs[i].FullEnd() <= runs[j].fullStart {
      OffsetGrows(doc, ms, i + 1, j);
    }
  }

  lemma {:induction false} TextLengthIs(doc: string, ms: seq<Match>, k: nat)
    requires ValidMatches(doc, ms) && k <= |ms|
    ensures |TextUpTo(doc, ms, k)| == Offset(ms, k)
  {
    if k > 0 {
      TextLengthIs(doc, ms, k - 1);
    }
  }

  /** Where position `d` of run `i` went in the joined text. */
  lemma {:induction false} TextAt(doc: string, ms: seq<Match>, k: nat, i: nat, d: nat)
    requires ValidMatches(doc, ms) && i < k <= |ms| && ms[i].start <= d < ms[i].end
    ensures 0 <= Offset(ms, i) + d - ms[i].start < |TextUpTo(doc, ms, k)|
    ensures TextUpTo(doc, ms, k)[Offset(ms, i) + d - ms[i].start] == doc[d]
  {
    var before, run := TextUpTo(doc, ms, k - 1), doc[ms[k - 1].start..ms[k - 1].end];
    var p := Offset(ms, i) + d - ms[i].start;
    TextLengthIs(doc, ms, k - 1);
    if i < k - 1 {
      TextAt(doc, ms, k - 1, i, d);
      assert (before + run)[p] == before[p];
    } else {
      OffsetGrows(doc, ms, i, i);
      assert (before + run)[p] == run[d - ms[i].start] == doc[d];
    }
  }

  // ------------------------------------------------------------------ markup with other run texts in it

  /** The document up to the end of its `k`-th run, with other texts in the runs. */
  ghost function WovenTo(doc: string, ms: seq<Match>, texts: seq<string>, k: nat): string
    requires ValidMatches(doc, ms) && |texts| == |ms| && k <= |ms|
  {
    if k == 0 then ""
    else
      assert k > 1 ==> ms[k - 2].end <= ms[k - 1].start;
      WovenTo(doc, ms, texts, k - 1) + doc[EndOf(ms, k - 1)..ms[k - 1].start] + texts[k - 1]
  }

  /** The same markup, byte for byte and in order, around other run texts. */
  ghost function Woven(doc: string, ms: seq<Match>, texts: seq<string>): string
    requires ValidMatches(doc, ms) && |texts| == |ms|
  {
    WovenTo(doc, ms, texts, |ms|) + doc[EndOf(ms, |ms|)..]
  }

  ghost function Joined(texts: seq<string>): string {
    if texts == [] then "" else Joined(texts[..|texts| - 1]) + texts[|texts| - 1]
  }

  /** The new text of run `i`: its own stretch of the joined text, with every edit made. */
  ghost function RunText(doc: string, ms: seq<Match>, es: set<Edit>, i: nat): string
    requires ValidMatches(doc, ms) && i < |ms|
  {
    TextLengthIs(doc, ms, |ms|);
    OffsetGrows(doc, ms, i, i + 1);
    OffsetGrows(doc, ms, i + 1, |ms|);
    TextRewrite(Text(doc, ms), es, Offset(ms, i), Offset(ms, i + 1))
  }

  ghost function RunTexts(doc: string, ms: seq<Match>, es: set<Edit>): seq<string>
    requires ValidMatches(doc, ms)
  {
    seq(|ms|, i requires 0 <= i < |ms| => RunText(doc, ms, es, i))
  }

  /** Position `d` of run `i` is rewritten as its joined-text position is. */
  lemma {:induction false} RunPosition(doc: string, ms: seq<Match>, es: set<Edit>, i: nat, d: nat)
    requires ValidMatches(doc, ms) && i < |ms| && ms[i].start <= d < ms[i].end
    ensures var p := Offset(ms, i) + d - ms[i].start;
            && 0 <= p < |Text(doc, ms)|
            && Emit(doc, Runs(ms), es, d) == TextEmit(Text(doc, ms), es, p)
  {
    hide TextUpTo, Offset, FullAt, ValueAt, Covers, ValidRuns;
    TextAt(doc, ms, |ms|, i, d);
    RunsAreValid(doc, ms);
    assert InRun(Runs(ms), i, d);
    FullAtRun(Runs(ms), i, d);
  }

  lemma {:induction false} StretchBounds(doc: string, ms: seq<Match>, i: nat, d: nat)
    requires ValidMatches(doc, ms) && i < |ms| && ms[i].start <= d <= ms[i].end
    ensures 0 <= Offset(ms, i) <= Offset(ms, i) + d - ms[i].start <= |Text(doc, ms)|
  {
    TextLengthIs(doc, ms, |ms|);
    OffsetGrows(doc, ms, i, i);
    OffsetGrows(doc, ms, i + 1, |ms|);
  }

  /** A stretch inside run `i` is rewritten as the same stretch of the joined text is. */
  lemma {:induction false} RunStretch(doc: string, ms: seq<Match>, es: set<Edit>, i: nat, d: nat)
    requires ValidMatches(doc, ms) && i < |ms| && ms[i].start <= d <= ms[i].end
    ensures 0 <= Offset(ms, i) <= Offset(ms, i) + d - ms[i].start <= |Text(doc, ms)|
    ensures DocRewrite(doc, Runs(ms), es, ms[i].start, d)
            == TextRewrite(Text(doc, ms), es, Offset(ms, i), Offset(ms, i) + d - ms[i].start)
    decreases d
  {
    hide Text, TextUpTo, Emit, TextEmit, Runs, Offset;
    var text, from, start := Text(doc, ms), Offset(ms, i), ms[i].start;
    StretchBounds(doc, ms, i, d);
    if start < d {
      RunStretch(doc, ms, es, i, d - 1);
      RunPosition(doc, ms, es, i, d - 1);
      StretchStep(doc, Runs(ms), text, es, start, from, d);
    }
  }

  lemma {:induction false} StretchStep(doc: string, runs: seq<Run>, text: string, es: set<Edit>, start: nat, from: int,
      d: nat)
    requires start < d <= |doc| && 0 <= from && from + d - start <= |text|
    requires DocRewrite(doc, runs, es, start, d - 1) == TextRewrite(text, es, from, from + d - 1 - start)
    requires Emit(doc, runs, es, d - 1) == TextEmit(text, es, from + d - 1 - start)
    ensures DocRewrite(doc, runs, es, start, d) == TextRewrite(text, es, from, from + d - start)
  {}

  /** Between runs nothing changes. */
  lemma {:induction false} GapIsKept(doc: string, ms: seq<Match>, es: set<Edit>, k: nat, to: nat)
    requires ValidMatches(doc, ms) && k <= |ms| && EndOf(ms, k) <= to <= |doc|
    requires k < |ms| ==> to <= ms[k].start
    ensures DocRewrite(doc, Runs(ms), es, EndOf(ms, k), to) == doc[EndOf(ms, k)..to]
  {
    forall d | EndOf(ms, k) <= d < to ensures FullAt(Runs(ms), d) < 0 {
      forall i | 0 <= i < |ms| ensures !InRun(Runs(ms), i, d) {
        if i < k - 1 {
          assert ms[i].end <= ms[k - 1].start;
        } else if i > k {
          assert ms[k].end <= ms[i].start;
        }
      }
    }
    DocRewriteQuiet(doc, Runs(ms), es, EndOf(ms, k), to);
  }

  lemma {:induction false} OneMoreRun(doc: string, ms: seq<Match>, es: set<Edit>, k: nat)
    requires ValidMatches(doc, ms) && 0 < k <= |ms| && EndOf(ms, k - 1) <= ms[k - 1].start
    ensures DocRewrite(doc, Runs(ms), es, 0, ms[k - 1].end)
            == DocRewrite(doc, Runs(ms), es, 0, EndOf(ms, k - 1))
               + doc[EndOf(ms, k - 1)..ms[k - 1].start] + RunText(doc, ms, es, k - 1)
  {
    hide DocRewrite, TextRewrite, TextUpTo, Runs;
    var from, to := ms[k - 1].start, ms[k - 1].end;
    DocRewriteSplit(doc, Runs(ms), es, 0, EndOf(ms, k - 1), from);
    DocRewriteSplit(doc, Runs(ms), es, 0, from, to);
    GapIsKept(doc, ms, es, k - 1, from);
    RunStretch(doc, ms, es, k - 1, to);
  }

  lemma {:induction false} WovenStep(doc: string, ms: seq<Match>, texts: seq<string>, k: nat, before: string,
      text: string)
    requires ValidMatches(doc, ms) && |texts| == |ms| && 0 < k <= |ms| && EndOf(ms, k - 1) <= ms[k - 1].start
    requires before == WovenTo(doc, ms, texts, k - 1) && text == texts[k - 1]
    ensures WovenTo(doc, ms, texts, k) == before + doc[EndOf(ms, k - 1)..ms[k - 1].start] + text
  {}

  lemma {:induction false} RewrittenUpTo(doc: string, ms: seq<Match>, es: set<Edit>, k: nat)
    requires ValidMatches(doc, ms) && k <= |ms|
    ensures EndOf(ms, k) <= |doc|
    ensures DocRewrite(doc, Runs(ms), es, 0, EndOf(ms, k)) == WovenTo(doc, ms, RunTexts(doc, ms, es), k)
  {
    if k > 0 {
      hide DocRewrite, RunText, Runs, WovenTo;
      RewrittenUpTo(doc, ms, es, k - 1);
      assert k > 1 ==> ms[k - 2].end <= ms[k - 1].start;
      OneMoreRun(doc, ms, es, k);
      WovenStep(doc, ms, RunTexts(doc, ms, es), k, DocRewrite(doc, Runs(ms), es, 0, EndOf(ms, k - 1)),
          RunText(doc, ms, es, k - 1));
    }
  }

  /** Rewriting the document position by position is rewriting its runs and keeping its markup. */
  lemma {:induction false} RewrittenIsWoven(doc: string, ms: seq<Match>, es: set<Edit>)
    requires ValidMatches(doc, ms)
    ensures Rewritten(doc, Runs(ms), es) == Woven(doc, ms, RunTexts(doc, ms, es))
  {
    RewrittenUpTo(doc, ms, es, |ms|);
    GapIsKept(doc, ms, es, |ms|, |doc|);
    DocRewriteSplit(doc, Runs(ms), es, 0, EndOf(ms, |ms|), |doc|);
    assert doc[EndOf(ms, |ms|)..|doc|] == doc[EndOf(ms, |ms|)..];
  }

  lemma {:induction false} JoinedStep(texts: seq<string>, k: nat)
    requires 0 < k <= |texts|
    ensures Joined(texts[..k]) == Joined(texts[..k - 1]) + texts[k - 1]
  {
    assert texts[..k][..k - 1] == texts[..k - 1];
  }

  /** The run texts joined are the joined text with all edits made at once. */
  lemma {:induction false} RunTextsJoin(doc: string, ms: seq<Match>, es: set<Edit>, k: nat)
    requires ValidMatches(doc, ms) && k <= |ms|
    ensures 0 <= Offset(ms, k) <= |Text(doc, ms)|
    ensures Joined(RunTexts(doc, ms, es)[..k]) == TextRewrite(Text(doc, ms), es, 0, Offset(ms, k))
  {
    TextLengthIs(doc, ms, |ms|);
    OffsetGrows(doc, ms, k, |ms|);
    if k > 0 {
      RunTextsJoin(doc, ms, es, k - 1);
      JoinedStep(RunTexts(doc, ms, es), k);
      OffsetGrows(doc, ms, k - 1, k);
      TextRewriteSplit(Text(doc, ms), es, 0, Offset(ms, k - 1), Offset(ms, k));
    }
  }

  // ------------------------------------------------------------------ the function

  /** The segment loop: each run's place, and the joined text. */
  method SplitRuns(doc: string, ms: seq<Match>) returns (runs: seq<Run>, text: string)
    requires ValidMatches(doc, ms)
    ensures runs == Runs(ms) && text == Text(doc, ms)
  {
    runs, text := [], "";
    for i := 0 to |ms|
      invariant runs == Runs(ms)[..i] && text == TextUpTo(doc, ms, i) && |text| == Offset(ms, i)
    {
      runs := runs + [Run(ms[i].start, ms[i].end, |text|)];
      text := text + doc[ms[i].start..ms[i].end];
    }
  }

  /** The claiming loops, with the array of taken units. */
  method FindEdits(text: string, pairs: seq<string>) returns (edits: seq<Edit>)
    requires NonEmptyKeys(pairs)
    ensures edits == Claims(text, pairs)
  {
    var taken := new bool[|text|](_ => false);
    edits := [];
    var i := 0;
    while i + 1 < |pairs|
      invariant i % 2 == 0
      invariant Claims(text, pairs) == ClaimPairs(text, pairs, i, edits)
      invariant forall j | 0 <= j < taken.Length :: taken[j] <==> Covers(Elements(edits), j)
      decreases |pairs| - i
    {
      edits := ClaimOccurrences(text, pairs[i], XmlEscape(pairs[i + 1]), taken, edits);
      i := i + 2;
    }
  }

  method ClaimOccurrences(text: string, key: string, value: string, taken: array<bool>, before: seq<Edit>)
    returns (edits: seq<Edit>)
    requires key != "" && taken.Length == |text|
    requires forall j | 0 <= j < taken.Length :: taken[j] <==> Covers(Elements(before), j)
    modifies taken
    ensures edits == ClaimKey(text, key, value, 0, before)
    ensures forall j | 0 <= j < taken.Length :: taken[j] <==> Covers(Elements(edits), j)
  {
    edits := before;
    var from := 0;
    while true
      invariant 0 <= from <= |text|
      invariant ClaimKey(text, key, value, 0, before) == ClaimKey(text, key, value, from, edits)
      invariant forall j | 0 <= j < taken.Length :: taken[j] <==> Covers(Elements(edits), j)
      decreases |text| - from
    {
      var start := IndexFrom(text, key, from);
      if start < 0 { break; }
      var end := start + |key|;
      from := end;
      var overlaps := false;
      var j := start;
      while j < end && !overlaps
        decreases end - j, !overlaps
        invariant start <= j <= end
        invariant overlaps ==> Overlaps(edits, start, end)
        invariant !overlaps ==> forall k | start <= k < j :: !Covers(Elements(edits), k)
      {
        if taken[j] { overlaps := true; } else { j := j + 1; }
      }
      if overlaps { continue; }
      MarkTaken(taken, start, end);
      ClaimCovers(edits, Edit(start, end, value));
      edits := edits + [Edit(start, end, value)];
    }
  }

  lemma {:induction false} ClaimCovers(edits: seq<Edit>, e: Edit)
    ensures forall p :: Covers(Elements(edits + [e]), p) <==> Covers(Elements(edits), p) || e.start <= p < e.end
  {
    assert Elements(edits + [e]) == Elements(edits) + {e} by {
      assert (edits + [e])[|edits|] == e;
      forall x | x in edits ensures x in edits + [e] {}
    }
  }

  method MarkTaken(taken: array<bool>, start: nat, end: nat)
    requires start <= end <= taken.Length
    modifies taken
    ensures forall j | 0 <= j < taken.Length :: taken[j] == (old(taken[j]) || start <= j < end)
  {
    for j := start to end
      invariant forall k | 0 <= k < taken.Length :: taken[k] == (old(taken[k]) || start <= k < j)
    {
      taken[j] := true;
    }
  }

  /** The edits applied one by one, last first, in the original coordinates. */
  method ApplyEdits(doc: string, runs: seq<Run>, sorted: seq<Edit>) returns (r: string)
    requires ValidRuns(runs) && forall i | 0 <= i < |runs| :: runs[i].docEnd <= |doc|
    requires forall i | 0 <= i < |sorted| :: sorted[i].start < sorted[i].end <= TextLength(runs)
    requires forall i, j | 0 <= i < j < |sorted| :: sorted[j].end <= sorted[i].start
    ensures r == Rewritten(doc, runs, Elements(sorted))
  {
    r := doc;
    NoEdits(doc, runs);
    assert Elements(sorted[..0]) == {};
    for k := 0 to |sorted|
      invariant r == Rewritten(doc, runs, Elements(sorted[..k]))
    {
      var e := sorted[k];
      assert Elements(sorted[..k + 1]) == Elements(sorted[..k]) + {e} by {
        assert sorted[..k + 1] == sorted[..k] + [e];
      }
      ApplyOneMore(doc, runs, Elements(sorted[..k]), e, r);
      r := ApplyEditAcrossRuns(r, runs, e);
    }
    assert sorted[..|sorted|] == sorted;
  }

  lemma {:induction false} NoEdits(doc: string, runs: seq<Run>)
    ensures Rewritten(doc, runs, {}) == doc
  {
    DocRewriteQuiet(doc, runs, {}, 0, |doc|);
  }

  /** Every byte outside the runs survives in place, and the run texts read as the joined text with all
      claimed occurrences replaced at once. */
  method SubstituteWordXml(doc: string, ms: seq<Match>, pairs: seq<string>) returns (r: string)
    requires ValidMatches(doc, ms) && NonEmptyKeys(pairs)
    ensures var es := Elements(Claims(Text(doc, ms), pairs));
            && r == Woven(doc, ms, RunTexts(doc, ms, es))
            && Joined(RunTexts(doc, ms, es)) == TextRewrite(Text(doc, ms), es, 0, |Text(doc, ms)|)
            && Disjoint(es)
  {
    ghost var es := Elements(Claims(Text(doc, ms), pairs));
    WhatItReads(doc, ms, pairs);
    if |ms| == 0 {
      assert Text(doc, ms) == "";
      NothingToClaim(pairs, 0);
      NoEdits(doc, Runs(ms));
      assert es == {};
      return doc;
    }
    var runs, text := SplitRuns(doc, ms);
    RunsAreValid(doc, ms);
    TextLengthIs(doc, ms, |ms|);
    ClaimPairsSound(text, pairs, 0, []);
    var edits := FindEdits(text, pairs);
    if |edits| == 0 {
      NoEdits(doc, runs);
      assert es == {};
      return doc;
    }
    r := ApplyInOrder(doc, runs, edits, |text|);
  }

  /** Sorted last edit first, so that no edit moves the coordinates of one still to come. */
  method ApplyInOrder(doc: string, runs: seq<Run>, edits: seq<Edit>, ghost n: nat) returns (r: string)
    requires ValidRuns(runs) && forall i | 0 <= i < |runs| :: runs[i].docEnd <= |doc|
    requires SeqDisjoint(edits, n) && n == TextLength(runs)
    ensures r == Rewritten(doc, runs, Elements(edits))
  {
    var a := new Edit[|edits|](i requires 0 <= i < |edits| => edits[i]);
    assert a[..] == edits;
    SortEditsDesc(a);
    SortedDescOrder(edits, n);
    r := ApplyEdits(doc, runs, a[..]);
  }

  lemma {:induction false} NothingToClaim(pairs: seq<string>, i: nat)
    requires NonEmptyKeys(pairs) && i % 2 == 0
    ensures ClaimPairs("", pairs, i, []) == []
    decreases |pairs| - i
  {
    if i + 1 < |pairs| {
      NothingToClaim(pairs, i + 2);
    }
  }

  lemma {:induction false} WhatItReads(doc: string, ms: seq<Match>, pairs: seq<string>)
    requires ValidMatches(doc, ms) && NonEmptyKeys(pairs)
    ensures var es := Elements(Claims(Text(doc, ms), pairs));
            && Rewritten(doc, Runs(ms), es) == Woven(doc, ms, RunTexts(doc, ms, es))
            && Joined(RunTexts(doc, ms, es)) == TextRewrite(Text(doc, ms), es, 0, |Text(doc, ms)|)
            && Disjoint(es)
  {
    var es := Elements(Claims(Text(doc, ms), pairs));
    ClaimPairsSound(Text(doc, ms), pairs, 0, []);
    SeqToSetDisjoint(Claims(Text(doc, ms), pairs), |Text(doc, ms)|);
    RewrittenIsWoven(doc, ms, es);
    RunTextsJoin(doc, ms, es, |ms|);
    TextLengthIs(doc, ms, |ms|);
    assert RunTexts(doc, ms, es)[..|ms|] == RunTexts(doc, ms, es);
  }
}
