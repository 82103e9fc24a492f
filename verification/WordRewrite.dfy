/** Substituting placeholders in the text runs of a Word part (modules/documents/docx.go).

    A string is a sequence of units; the algorithm only compares, cuts and joins, so one `char`
    stands for one byte of the Go string. The matches of the run expression are given. */
module WordRewrite {

  // The reference meaning is pointwise: `Emit` says what one position of the document turns into,
  // looking only at the claimed edits. `ApplyEditAcrossRuns` splices one edit at a time instead, and
  // `ApplyOneMore` is why doing so from right to left in the original coordinates comes to the same.

  /** One match of the text-run expression: `[start, end)` in the document. */
  datatype Match = Match(start: nat, end: nat)

  /** wordSeg: where a run is in the document, and where its text begins in the joined text. */
  datatype Run = Run(docStart: int, docEnd: int, fullStart: int) {
    ghost function FullEnd(): int { fullStart + docEnd - docStart }
  }

  /** wordEdit: replace `[start, end)` of the joined text by `value`. */
  datatype Edit = Edit(start: nat, end: nat, value: string)

  // ------------------------------------------------------------------ runs

  ghost predicate ValidMatches(doc: string, ms: seq<Match>) {
    && (forall i | 0 <= i < |ms| :: ms[i].start <= ms[i].end <= |doc|)
    && (forall i, j | 0 <= i < j < |ms| :: ms[i].end <= ms[j].start)
  }

  ghost predicate ValidRuns(runs: seq<Run>) {
    && (forall i | 0 <= i < |runs| :: 0 <= runs[i].docStart <= runs[i].docEnd)
    && (forall i, j | 0 <= i < j < |runs| ::
          runs[i].docEnd <= runs[j].docStart && runs[i].FullEnd() <= runs[j].fullStart)
    && (forall i | 0 < i < |runs| :: runs[i].fullStart == runs[i - 1].FullEnd())
    && (|runs| > 0 ==> runs[0].fullStart == 0)
  }

  ghost function TextLength(runs: seq<Run>): int {
    if runs == [] then 0 else runs[|runs| - 1].FullEnd()
  }

  ghost predicate InRun(runs: seq<Run>, i: int, d: int) {
    0 <= i < |runs| && runs[i].docStart <= d < runs[i].docEnd
  }

  /** The joined-text position of document position `d`, or -1 when `d` is markup. */
  ghost function FullAt(runs: seq<Run>, d: int): int {
    if exists i :: InRun(runs, i, d)
    then var i :| InRun(runs, i, d); runs[i].fullStart + d - runs[i].docStart
    else -1
  }

  lemma {:induction false} FullAtRun(runs: seq<Run>, i: int, d: int)
    requires ValidRuns(runs) && InRun(runs, i, d)
    ensures FullAt(runs, d) == runs[i].fullStart + d - runs[i].docStart
  {}

  lemma {:induction false} FullAtIncreases(runs: seq<Run>, c: int, d: int)
    requires ValidRuns(runs) && c < d && FullAt(runs, c) >= 0 && FullAt(runs, d) >= 0
    ensures FullAt(runs, c) < FullAt(runs, d)
  {
    var i :| InRun(runs, i, c);
    var j :| InRun(runs, j, d);
    FullAtRun(runs, i, c);
    FullAtRun(runs, j, d);
  }

  /** Every position of the joined text lies in exactly one run. */
  lemma {:induction false} RunOf(runs: seq<Run>, p: int) returns (i: int)
    requires ValidRuns(runs) && 0 <= p < TextLength(runs)
    ensures 0 <= i < |runs| && runs[i].fullStart <= p < runs[i].FullEnd()
    decreases |runs|
  {
    i := |runs| - 1;
    if p < runs[i].fullStart {
      i := RunOf(runs[..i], p);
    }
  }

  // ------------------------------------------------------------------ edits

  ghost predicate Covers(es: set<Edit>, p: int) {
    exists e :: e in es && e.start <= p < e.end
  }

  ghost predicate Disjoint(es: set<Edit>) {
    && (forall e | e in es :: e.start < e.end)
    && (forall e, f | e in es && f in es && e != f :: e.end <= f.start || f.end <= e.start)
  }

  /** The value that goes in at `p`: that of the edit starting there. */
  ghost function ValueAt(es: set<Edit>, p: int): string {
    if exists e :: e in es && e.start == p
    then var e :| e in es && e.start == p; e.value
    else ""
  }

  ghost function Elements<T(!new)>(s: seq<T>): set<T> { set x | x in s }

  // ------------------------------------------------------------------ the meaning, position by position

  /** What position `p` of the joined text becomes. */
  ghost function TextEmit(text: string, es: set<Edit>, p: int): string
    requires 0 <= p < |text|
  {
    ValueAt(es, p) + if Covers(es, p) then "" else [text[p]]
  }

  /** All edits made at once in `text[lo..hi]`. */
  ghost function TextRewrite(text: string, es: set<Edit>, lo: int, hi: int): string
    requires 0 <= lo <= hi <= |text|
    decreases hi - lo
  {
    if lo == hi then "" else TextRewrite(text, es, lo, hi - 1) + TextEmit(text, es, hi - 1)
  }

  /** What position `d` of the document becomes: markup stays, text follows the edits. */
  ghost function Emit(doc: string, runs: seq<Run>, es: set<Edit>, d: int): string
    requires 0 <= d < |doc|
  {
    var p := FullAt(runs, d);
    if p < 0 then [doc[d]] else ValueAt(es, p) + if Covers(es, p) then "" else [doc[d]]
  }

  ghost function DocRewrite(doc: string, runs: seq<Run>, es: set<Edit>, lo: int, hi: int): string
    requires 0 <= lo <= hi <= |doc|
    decreases hi - lo
  {
    if lo == hi then "" else DocRewrite(doc, runs, es, lo, hi - 1) + Emit(doc, runs, es, hi - 1)
  }

  ghost function Rewritten(doc: string, runs: seq<Run>, es: set<Edit>): string {
    DocRewrite(doc, runs, es, 0, |doc|)
  }

  lemma {:induction false} DocRewriteSplit(doc: string, runs: seq<Run>, es: set<Edit>, lo: int, mid: int, hi: int)
    requires 0 <= lo <= mid <= hi <= |doc|
    ensures DocRewrite(doc, runs, es, lo, hi) == DocRewrite(doc, runs, es, lo, mid) + DocRewrite(doc, runs, es, mid, hi)
    decreases hi - mid
  {
    if mid < hi {
      DocRewriteSplit(doc, runs, es, lo, mid, hi - 1);
    }
  }

  lemma {:induction false} TextRewriteSplit(text: string, es: set<Edit>, lo: int, mid: int, hi: int)
    requires 0 <= lo <= mid <= hi <= |text|
    ensures TextRewrite(text, es, lo, hi) == TextRewrite(text, es, lo, mid) + TextRewrite(text, es, mid, hi)
    decreases hi - mid
  {
    if mid < hi {
      TextRewriteSplit(text, es, lo, mid, hi - 1);
    }
  }

  /** A stretch no edit touches is copied. */
  lemma {:induction false} DocRewriteQuiet(doc: string, runs: seq<Run>, es: set<Edit>, lo: int, hi: int)
    requires 0 <= lo <= hi <= |doc|
    requires forall d | lo <= d < hi :: Emit(doc, runs, es, d) == [doc[d]]
    ensures DocRewrite(doc, runs, es, lo, hi) == doc[lo..hi]
    decreases hi - lo
  {
    if lo < hi {
      DocRewriteQuiet(doc, runs, es, lo, hi - 1);
      assert Emit(doc, runs, es, hi - 1) == [doc[hi - 1]];
      assert doc[lo..hi] == doc[lo..hi - 1] + [doc[hi - 1]];
    }
  }

  lemma {:induction false} DocRewriteSame(d1: string, d2: string, runs: seq<Run>, es1: set<Edit>, es2: set<Edit>,
      lo: int, hi: int)
    requires 0 <= lo <= hi <= |d1| && hi <= |d2|
    requires forall d | lo <= d < hi :: Emit(d1, runs, es1, d) == Emit(d2, runs, es2, d)
    ensures DocRewrite(d1, runs, es1, lo, hi) == DocRewrite(d2, runs, es2, lo, hi)
    decreases hi - lo
  {
    if lo < hi {
      DocRewriteSame(d1, d2, runs, es1, es2, lo, hi - 1);
    }
  }

  // ------------------------------------------------------------------ one edit after another, right to left

  /** The document position just past the last unit an edit removes. */
  ghost predicate CutAt(runs: seq<Run>, e: Edit, c: int) {
    c > 0 && FullAt(runs, c - 1) == e.end - 1
  }

  lemma {:induction false} CutExists(runs: seq<Run>, e: Edit) returns (c: int)
    requires ValidRuns(runs) && e.start < e.end <= TextLength(runs)
    ensures CutAt(runs, e, c) && c <= runs[|runs| - 1].docEnd
  {
    var i := RunOf(runs, e.end - 1);
    c := runs[i].docStart + (e.end - 1 - runs[i].fullStart) + 1;
    assert InRun(runs, i, c - 1);
    FullAtRun(runs, i, c - 1);
    assert i < |runs| - 1 ==> runs[i].docEnd <= runs[|runs| - 1].docStart;
  }

  /** Before the cut every text position is below `e.end`; from it on, none is. */
  lemma {:induction false} CutDivides(runs: seq<Run>, e: Edit, c: int, d: int)
    requires ValidRuns(runs) && e.start < e.end && CutAt(runs, e, c)
    ensures d < c ==> FullAt(runs, d) < e.end
    ensures d >= c && FullAt(runs, d) >= 0 ==> FullAt(runs, d) >= e.end
  {
    if d < c - 1 && FullAt(runs, d) >= 0 {
      FullAtIncreases(runs, d, c - 1);
    } else if d >= c && FullAt(runs, d) >= 0 {
      FullAtIncreases(runs, c - 1, d);
    }
  }

  lemma {:induction false} OnlyNew(es: set<Edit>, e: Edit, p: int)
    requires p < e.end && forall f | f in es :: e.end <= f.start < f.end
    ensures Covers(es + {e}, p) == Covers({e}, p)
    ensures ValueAt(es + {e}, p) == ValueAt({e}, p)
    ensures !Covers(es, p) && ValueAt(es, p) == ""
  {
    assert e in es + {e} && e in {e};
  }

  lemma {:induction false} OnlyOld(es: set<Edit>, e: Edit, p: int)
    requires Disjoint(es) && e.start < e.end && (p >= e.end || p < e.start)
    ensures Covers(es + {e}, p) == Covers(es, p)
    ensures ValueAt(es + {e}, p) == ValueAt(es, p)
    ensures !Covers({e}, p) && ValueAt({e}, p) == ""
  {
    if f :| f in es && f.start <= p < f.end {
      assert f in es + {e};
      assert Covers(es + {e}, p);
    }
    if f :| f in es && f.start == p {
      assert f in es + {e};
    }
  }

  /** The edits made so far start at or after the cut, so the document left of it is still the original. */
  lemma {:induction false} LeftIsUntouched(doc: string, runs: seq<Run>, es: set<Edit>, e: Edit, c: int, now: string)
    requires ValidRuns(runs) && e.start < e.end && CutAt(runs, e, c) && c <= |doc|
    requires forall f | f in es :: e.end <= f.start < f.end
    requires now == Rewritten(doc, runs, es)
    ensures now == doc[..c] + DocRewrite(doc, runs, es, c, |doc|)
  {
    DocRewriteSplit(doc, runs, es, 0, c, |doc|);
    forall d | 0 <= d < c ensures Emit(doc, runs, es, d) == [doc[d]] {
      CutDivides(runs, e, c, d);
      OnlyNew(es, e, FullAt(runs, d));
    }
    DocRewriteQuiet(doc, runs, es, 0, c);
    assert doc[0..c] == doc[..c];
  }

  /** One edit made to a document that is the original up to the cut. */
  lemma {:induction false} OneEdit(doc: string, runs: seq<Run>, es: set<Edit>, e: Edit, c: int, now: string)
    requires ValidRuns(runs) && e.start < e.end && CutAt(runs, e, c) && c <= |doc| && c <= |now|
    requires forall f | f in es :: e.end <= f.start < f.end
    requires now[..c] == doc[..c]
    ensures Rewritten(now, runs, {e}) == DocRewrite(doc, runs, es + {e}, 0, c) + now[c..]
  {
    DocRewriteSplit(now, runs, {e}, 0, c, |now|);
    forall d | c <= d < |now| ensures Emit(now, runs, {e}, d) == [now[d]] {
      CutDivides(runs, e, c, d);
      OnlyOld({}, e, FullAt(runs, d));
    }
    DocRewriteQuiet(now, runs, {e}, c, |now|);
    assert now[c..|now|] == now[c..];
    forall d | 0 <= d < c ensures Emit(now, runs, {e}, d) == Emit(doc, runs, es + {e}, d) {
      CutDivides(runs, e, c, d);
      OnlyNew(es, e, FullAt(runs, d));
      assert now[d] == now[..c][d] == doc[..c][d];
    }
    DocRewriteSame(now, doc, runs, {e}, es + {e}, 0, c);
  }

  /** Applying one more edit, left of all those applied, to the already rewritten document in the
      ORIGINAL coordinates gives the document with all of them made at once. */
  lemma {:induction false} ApplyOneMore(doc: string, runs: seq<Run>, es: set<Edit>, e: Edit, now: string)
    requires ValidRuns(runs) && (forall i | 0 <= i < |runs| :: runs[i].docEnd <= |doc|)
    requires Disjoint(es) && e.start < e.end <= TextLength(runs)
    requires forall f | f in es :: e.end <= f.start < f.end
    requires now == Rewritten(doc, runs, es)
    ensures Rewritten(now, runs, {e}) == Rewritten(doc, runs, es + {e})
    ensures exists c :: CutAt(runs, e, c) && c <= |now|
  {
    var c := CutExists(runs, e);
    LeftIsUntouched(doc, runs, es, e, c, now);
    OneEdit(doc, runs, es, e, c, now);
    DocRewriteSplit(doc, runs, es + {e}, 0, c, |doc|);
    forall d | c <= d < |doc| ensures Emit(doc, runs, es, d) == Emit(doc, runs, es + {e}, d) {
      CutDivides(runs, e, c, d);
      OnlyOld(es, e, FullAt(runs, d));
    }
    DocRewriteSame(doc, doc, runs, es, es + {e}, c, |doc|);
  }

  // ------------------------------------------------------------------ splicing one edit across runs

  lemma {:induction false} SoleEdit(e: Edit, p: int)
    ensures Covers({e}, p) <==> e.start <= p < e.end
    ensures ValueAt({e}, p) == if p == e.start then e.value else ""
  {
    assert e in {e};
  }

  /** The part of an edit inside one run: the value if the edit starts there, and nothing else. */
  lemma {:induction false} Removed(doc: string, runs: seq<Run>, e: Edit, k: int, lo: int, hi: int)
    requires ValidRuns(runs) && 0 <= k < |runs| && runs[k].docStart <= lo < hi <= runs[k].docEnd && hi <= |doc|
    requires e.start <= runs[k].fullStart + lo - runs[k].docStart
    requires runs[k].fullStart + hi - runs[k].docStart <= e.end
    ensures DocRewrite(doc, runs, {e}, lo, hi)
            == if runs[k].fullStart + lo - runs[k].docStart == e.start then e.value else ""
    decreases hi - lo
  {
    assert InRun(runs, k, hi - 1);
    FullAtRun(runs, k, hi - 1);
    SoleEdit(e, FullAt(runs, hi - 1));
    if lo < hi - 1 {
      Removed(doc, runs, e, k, lo, hi - 1);
    }
  }

  /** A stretch of the document no unit of which the edit claims is copied. */
  lemma {:induction false} Kept(doc: string, runs: seq<Run>, e: Edit, lo: int, hi: int)
    requires ValidRuns(runs) && 0 <= lo <= hi <= |doc| && e.start < e.end
    requires forall d | lo <= d < hi && FullAt(runs, d) >= 0 :: !(e.start <= FullAt(runs, d) < e.end)
    ensures DocRewrite(doc, runs, {e}, lo, hi) == doc[lo..hi]
  {
    forall d | lo <= d < hi ensures Emit(doc, runs, {e}, d) == [doc[d]] {
      SoleEdit(e, FullAt(runs, d));
    }
    DocRewriteQuiet(doc, runs, {e}, lo, hi);
  }

  ghost function TextSoFar(runs: seq<Run>, k: int): int
    requires 0 <= k <= |runs|
  {
    if k == 0 then 0 else runs[k - 1].FullEnd()
  }

  /** From `prev` on, no text of the first `k` runs is claimed by the edit. */
  ghost predicate Clear(runs: seq<Run>, e: Edit, k: int, prev: int)
    requires 0 <= k <= |runs|
  {
    forall d | d >= prev && 0 <= FullAt(runs, d) < TextSoFar(runs, k) :: !(e.start <= FullAt(runs, d) < e.end)
  }

  /** Run `k` loses `[from, to)` of the document: what the copied stretch and the removal come to. */
  lemma {:induction false} SpliceRun(doc: string, runs: seq<Run>, e: Edit, k: int, prev: int, from: int, to: int)
    requires ValidRuns(runs) && 0 <= k < |runs| && e.start < e.end
    requires 0 <= prev && (k > 0 ==> prev <= runs[k - 1].docEnd) && (k == 0 ==> prev == 0)
    requires Clear(runs, e, k, prev)
    requires runs[k].docStart <= from < to <= runs[k].docEnd && to <= |doc|
    requires var lo := runs[k].fullStart + from - runs[k].docStart;
             lo == if runs[k].fullStart > e.start then runs[k].fullStart else e.start
    requires var hi := runs[k].fullStart + to - runs[k].docStart;
             hi == if runs[k].FullEnd() < e.end then runs[k].FullEnd() else e.end
    ensures prev <= from
    ensures DocRewrite(doc, runs, {e}, 0, to)
            == DocRewrite(doc, runs, {e}, 0, prev) + doc[prev..from]
               + if TextSoFar(runs, k) <= e.start then e.value else ""
    ensures Clear(runs, e, k + 1, to)
  {
    assert InRun(runs, k, from);
    forall d | prev <= d < from && FullAt(runs, d) >= 0
      ensures !(e.start <= FullAt(runs, d) < e.end)
    {
      BeforeIn(runs, k, from, d);
    }
    Kept(doc, runs, e, prev, from);
    Removed(doc, runs, e, k, from, to);
    DocRewriteSplit(doc, runs, {e}, 0, prev, from);
    DocRewriteSplit(doc, runs, {e}, 0, from, to);
    forall d | d >= to && 0 <= FullAt(runs, d) < TextSoFar(runs, k + 1)
      ensures !(e.start <= FullAt(runs, d) < e.end)
    {
      AfterIn(runs, k, to, d);
    }
  }

  /** A run the edit does not reach is left alone. */
  lemma {:induction false} SkipRun(runs: seq<Run>, e: Edit, k: int, prev: int)
    requires ValidRuns(runs) && 0 <= k < |runs| && Clear(runs, e, k, prev)
    requires runs[k].FullEnd() <= e.start || e.end <= runs[k].fullStart || runs[k].docStart == runs[k].docEnd
    ensures Clear(runs, e, k + 1, prev)
  {}

  /** What the builder holds after `k` runs: everything up to `prev`, rewritten. */
  ghost predicate Spliced(doc: string, runs: seq<Run>, e: Edit, k: int, prev: int, inserted: bool, b: string) {
    && 0 <= k <= |runs|
    && 0 <= prev <= |doc| && (if k > 0 then prev <= runs[k - 1].docEnd else prev == 0)
    && (inserted <==> TextSoFar(runs, k) > e.start)
    && b == DocRewrite(doc, runs, {e}, 0, prev)
    && Clear(runs, e, k, prev)
  }

  lemma {:induction false} CutRun(doc: string, runs: seq<Run>, e: Edit, c: int, k: int, prev: int, inserted: bool,
      b: string, from: int, to: int)
    requires ValidRuns(runs) && k < |runs| && e.start < e.end && CutAt(runs, e, c) && c <= |doc|
    requires Spliced(doc, runs, e, k, prev, inserted, b)
    requires var lo := if runs[k].fullStart > e.start then runs[k].fullStart else e.start;
             var hi := if runs[k].FullEnd() < e.end then runs[k].FullEnd() else e.end;
             && lo < hi
             && from == runs[k].docStart + (lo - runs[k].fullStart)
             && to == runs[k].docStart + (hi - runs[k].fullStart)
    ensures prev <= from <= to <= |doc|
    ensures Spliced(doc, runs, e, k + 1, to, true, b + doc[prev..from] + if inserted then "" else e.value)
  {
    RemovalFits(runs, e, k, c, to);
    SpliceRun(doc, runs, e, k, prev, from, to);
  }

  lemma {:induction false} PassRun(doc: string, runs: seq<Run>, e: Edit, k: int, prev: int, inserted: bool, b: string)
    requires ValidRuns(runs) && k < |runs| && e.start < e.end
    requires Spliced(doc, runs, e, k, prev, inserted, b)
    requires runs[k].FullEnd() <= e.start || e.end <= runs[k].fullStart || runs[k].docStart == runs[k].docEnd
    ensures Spliced(doc, runs, e, k + 1, prev, inserted, b)
  {
    SkipRun(runs, e, k, prev);
    assert k > 0 ==> runs[k - 1].docEnd <= runs[k].docStart;
  }

  lemma {:induction false} AllRunsDone(doc: string, runs: seq<Run>, e: Edit, prev: int, inserted: bool, b: string)
    requires ValidRuns(runs) && e.start < e.end
    requires Spliced(doc, runs, e, |runs|, prev, inserted, b)
    ensures b + doc[prev..] == Rewritten(doc, runs, {e})
  {
    AllText(runs);
    Kept(doc, runs, e, prev, |doc|);
    DocRewriteSplit(doc, runs, {e}, 0, prev, |doc|);
  }

  method ApplyEditAcrossRuns(doc: string, runs: seq<Run>, e: Edit) returns (r: string)
    requires ValidRuns(runs) && e.start < e.end <= TextLength(runs)
    requires exists c :: CutAt(runs, e, c) && c <= |doc|
    ensures r == Rewritten(doc, runs, {e})
  {
    ghost var c :| CutAt(runs, e, c) && c <= |doc|;
    var b := "";
    var prev, inserted := 0, false;
    for k := 0 to |runs|
      invariant Spliced(doc, runs, e, k, prev, inserted, b)
    {
      var s := runs[k];
      var fullEnd := s.fullStart + (s.docEnd - s.docStart);
      var lo, hi := e.start, e.end;
      if s.fullStart > lo { lo := s.fullStart; }
      if fullEnd < hi { hi := fullEnd; }
      if lo >= hi {
        PassRun(doc, runs, e, k, prev, inserted, b);
        continue;
      }
      var removeStart := s.docStart + (lo - s.fullStart);
      var removeEnd := s.docStart + (hi - s.fullStart);
      CutRun(doc, runs, e, c, k, prev, inserted, b, removeStart, removeEnd);
      b := b + doc[prev..removeStart];
      if !inserted {
        b := b + e.value;
        inserted := true;
      }
      prev := removeEnd;
    }
    AllRunsDone(doc, runs, e, prev, inserted, b);
    r := b + doc[prev..];
  }

  lemma {:induction false} AllText(runs: seq<Run>)
    requires ValidRuns(runs)
    ensures forall d :: FullAt(runs, d) < TextLength(runs) || FullAt(runs, d) < 0
  {
    forall d | FullAt(runs, d) >= 0 ensures FullAt(runs, d) < TextLength(runs) {
      var i :| InRun(runs, i, d);
      FullAtRun(runs, i, d);
    }
  }

  lemma {:induction false} RemovalFits(runs: seq<Run>, e: Edit, k: int, c: int, to: int)
    requires ValidRuns(runs) && 0 <= k < |runs| && e.start < e.end && CutAt(runs, e, c)
    requires runs[k].docStart < to <= runs[k].docEnd && runs[k].fullStart + to - runs[k].docStart <= e.end
    ensures to <= c
  {
    assert InRun(runs, k, to - 1);
    FullAtRun(runs, k, to - 1);
    CutDivides(runs, e, c, to - 1);
  }

  /** Text left of a position inside run `k` has a smaller joined-text position. */
  lemma {:induction false} BeforeIn(runs: seq<Run>, k: int, at: int, d: int)
    requires ValidRuns(runs) && InRun(runs, k, at) && d < at && FullAt(runs, d) >= 0
    ensures FullAt(runs, d) < runs[k].fullStart + at - runs[k].docStart
    ensures FullAt(runs, d) >= runs[k].fullStart ==> runs[k].docStart <= d
  {
    FullAtRun(runs, k, at);
    FullAtIncreases(runs, d, at);
    var i :| InRun(runs, i, d);
    FullAtRun(runs, i, d);
  }

  lemma {:induction false} AfterIn(runs: seq<Run>, k: int, at: int, d: int)
    requires ValidRuns(runs) && 0 <= k < |runs| && runs[k].docStart < at <= runs[k].docEnd
    requires d >= at && FullAt(runs, d) >= 0
    ensures FullAt(runs, d) >= runs[k].fullStart + at - runs[k].docStart
  {
    assert InRun(runs, k, at - 1);
    FullAtRun(runs, k, at - 1);
    FullAtIncreases(runs, at - 1, d);
  }
}
