/** Өртөө's judgements (domain/urtuu/urtuu.go) and the status table they share (domain/urtuu/wire/status.go). */
module RelayRules {
  import opened Wrappers
  import opened Text
  import opened Decimal

  /** A status as it arrives: one of the seven, or something else. */
  datatype Status = Received | Accepted | InProgress | Delegated | Completed | Returned | Closed | Other(word: string)

  predicate Known(s: Status) { !s.Other? }

  /** The transition table. */
  predicate CanMoveTo(from: Status, to: Status) {
    match from
    case Received => to == Accepted || to == Returned
    case Accepted => to == InProgress || to == Delegated || to == Completed || to == Returned
    case InProgress => to == Delegated || to == Completed || to == Returned
    case Delegated => to == Completed || to == Returned
    case Completed => to == Closed
    case Returned => to == Closed
    case Closed => false
    case Other(_) => false
  }

  function Rank(s: Status): int {
    match s
    case Received => 0
    case Accepted => 1
    case InProgress => 2
    case Delegated => 2
    case Completed => 3
    case Returned => 3
    case Closed => 4
    case Other(_) => -1
  }

  /** A local move never lowers the rank, so both kinds of news agree about forwards. */
  lemma {:induction false} MovesClimb(from: Status, to: Status)
    requires CanMoveTo(from, to)
    ensures Rank(from) <= Rank(to) && Known(from) && Known(to)
  {}

  predicate SupersededBy(current: Status, incoming: Status) {
    incoming != current && Rank(incoming) >= Rank(current)
  }

  /** Work is accepted or sent back, worked on, split or finished, and shut only once it is finished or sent back. */
  lemma {:induction false} MovesAre(from: Status, to: Status)
    ensures CanMoveTo(from, to)
            <==> (from, to) in {
              (Received, Accepted), (Received, Returned), (Accepted, InProgress), (Accepted, Delegated),
              (Accepted, Completed), (Accepted, Returned), (InProgress, Delegated), (InProgress, Completed),
              (InProgress, Returned), (Delegated, Completed), (Delegated, Returned), (Completed, Closed),
              (Returned, Closed)}
  {}

  /** Which known news supersedes which: never the same again and never a step back, though working and delegated, and
      completed and returned, supersede each other. */
  lemma {:induction false} SupersedingIs(current: Status, incoming: Status)
    requires Known(current) && Known(incoming)
    ensures SupersededBy(current, incoming)
            <==> incoming in match current
                             case Received => {Accepted, InProgress, Delegated, Completed, Returned, Closed}
                             case Accepted => {InProgress, Delegated, Completed, Returned, Closed}
                             case InProgress => {Delegated, Completed, Returned, Closed}
                             case Delegated => {InProgress, Completed, Returned, Closed}
                             case Completed => {Returned, Closed}
                             case Returned => {Completed, Closed}
                             case Closed => {}
  {}

  // ------------------------------------------------------------------ a mirror under any delivery

  /** receiveUpdate's effect on a mirror's status: unknown words are dropped. */
  function News(current: Status, incoming: Status): Status {
    if Known(incoming) && SupersededBy(current, incoming) then incoming else current
  }

  function Delivered(start: Status, news: seq<Status>): Status {
    if news == [] then start else News(Delivered(start, news[..|news| - 1]), news[|news| - 1])
  }

  /** The highest rank among the start and the deliveries. */
  function Top(start: Status, news: seq<Status>): int {
    if news == [] then Rank(start)
    else
      var t := Top(start, news[..|news| - 1]);
      if Rank(news[|news| - 1]) > t then Rank(news[|news| - 1]) else t
  }

  /** The last delivery of rank `top`, or the start if there is none. */
  function LastOf(start: Status, news: seq<Status>, top: int): Status {
    if news == [] then start
    else if Rank(news[|news| - 1]) == top then news[|news| - 1]
    else LastOf(start, news[..|news| - 1], top)
  }

  lemma {:induction false} TopBounds(start: Status, news: seq<Status>)
    ensures Rank(start) <= Top(start, news) && forall i | 0 <= i < |news| :: Rank(news[i]) <= Top(start, news)
    ensures Rank(start) == Top(start, news) || exists i :: 0 <= i < |news| && Rank(news[i]) == Top(start, news)
  {
    if news != [] {
      TopBounds(start, news[..|news| - 1]);
      assert forall i | 0 <= i < |news| - 1 :: news[..|news| - 1][i] == news[i];
    }
  }

  /** A mirror ends at the highest rank it has seen, at the last delivery of that rank. */
  lemma {:induction false} MirrorIsLastOfTop(start: Status, news: seq<Status>)
    requires Known(start) && forall i | 0 <= i < |news| :: Known(news[i])
    ensures Rank(Delivered(start, news)) == Top(start, news)
    ensures Delivered(start, news) == LastOf(start, news, Top(start, news))
  {
    if news != [] {
      var init, last := news[..|news| - 1], news[|news| - 1];
      MirrorIsLastOfTop(start, init);
      if Rank(last) < Top(start, init) {
        assert Top(start, news) == Top(start, init);
      }
    }
  }

  /** No delivery ever lowers it. */
  lemma {:induction false} NeverBackwards(start: Status, news: seq<Status>, more: seq<Status>)
    requires Known(start) && (forall i | 0 <= i < |news| :: Known(news[i])) && forall i | 0 <= i < |more| ::
             Known(more[i])
    ensures Rank(Delivered(start, news)) <= Rank(Delivered(start, news + more))
    decreases |more|
  {
    if more == [] {
      assert news + more == news;
    } else {
      NeverBackwards(start, news, more[..|more| - 1]);
      assert (news + more)[..|news + more| - 1] == news + more[..|more| - 1];
    }
  }

  ghost function Kinds(news: seq<Status>): set<Status> { set s | s in news }

  /** Only one status of the top rank is among those delivered. */
  ghost predicate OneOnTop(kinds: set<Status>, top: int) {
    forall a, b | a in kinds && b in kinds && Rank(a) == top && Rank(b) == top :: a == b
  }

  lemma {:induction false} LastOfIsAmong(start: Status, news: seq<Status>, top: int)
    requires exists i :: 0 <= i < |news| && Rank(news[i]) == top
    ensures LastOf(start, news, top) in news && Rank(LastOf(start, news, top)) == top
  {
    if Rank(news[|news| - 1]) != top {
      var i :| 0 <= i < |news| && Rank(news[i]) == top;
      assert news[..|news| - 1][i] == news[i];
      LastOfIsAmong(start, news[..|news| - 1], top);
      assert forall x | x in news[..|news| - 1] :: x in news;
    }
  }

  lemma {:induction false} LastOfNone(start: Status, news: seq<Status>, top: int)
    requires forall i | 0 <= i < |news| :: Rank(news[i]) != top
    ensures LastOf(start, news, top) == start
  {
    if news != [] {
      LastOfNone(start, news[..|news| - 1], top);
    }
  }

  lemma {:induction false} SameTop(start: Status, a: seq<Status>, b: seq<Status>)
    requires forall s :: s in a <==> s in b
    ensures Top(start, a) == Top(start, b)
  {
    TopBounds(start, a);
    TopBounds(start, b);
    forall i | 0 <= i < |a| ensures Rank(a[i]) <= Top(start, b) {
      assert a[i] in b;
    }
    forall i | 0 <= i < |b| ensures Rank(b[i]) <= Top(start, a) {
      assert b[i] in a;
    }
  }

  /** Reordered and repeated as they may be, deliveries of the same statuses agree on the rank; and on the
      status itself when only one of the top rank is among them. */
  lemma {:induction false} OrdersAgree(start: Status, a: seq<Status>, b: seq<Status>)
    requires Known(start) && (forall s | s in a :: Known(s)) && forall s :: s in a <==> s in b
    ensures Rank(Delivered(start, a)) == Rank(Delivered(start, b)) == Top(start, a)
    ensures OneOnTop(Kinds(a), Top(start, a)) ==> Delivered(start, a) == Delivered(start, b)
  {
    var top := Top(start, a);
    forall i | 0 <= i < |b| ensures Known(b[i]) { assert b[i] in a; }
    MirrorIsLastOfTop(start, a);
    MirrorIsLastOfTop(start, b);
    SameTop(start, a, b);
    if OneOnTop(Kinds(a), top) {
      if i :| 0 <= i < |a| && Rank(a[i]) == top {
        var j :| 0 <= j < |b| && b[j] == a[i];
        LastOfIsAmong(start, a, top);
        LastOfIsAmong(start, b, top);
        assert LastOf(start, a, top) in Kinds(a) && LastOf(start, b, top) in Kinds(a);
      } else {
        forall i | 0 <= i < |b| ensures Rank(b[i]) != top {
          assert b[i] in a;
        }
        LastOfNone(start, a, top);
        LastOfNone(start, b, top);
      }
    }
  }

  /** And only then: two delivered statuses of the top rank can be told in either order, and each order
      leaves its own last word. */
  lemma {:induction false} OrdersDisagree(start: Status, news: seq<Status>, x: Status, y: Status)
    requires Known(start) && (forall s | s in news :: Known(s)) && x in news && y in news && x != y
    requires Rank(x) == Rank(y) == Top(start, news)
    ensures forall s :: s in news + [x, y] <==> s in news
    ensures forall s :: s in news + [y, x] <==> s in news
    ensures Delivered(start, news + [x, y]) == y && Delivered(start, news + [y, x]) == x
  {
    TwoMore(start, news, x, y);
    TwoMore(start, news, y, x);
  }

  lemma {:induction false} TwoMore(start: Status, news: seq<Status>, x: Status, y: Status)
    requires Known(start) && (forall s | s in news :: Known(s)) && x in news && y in news && x != y
    requires Rank(x) == Rank(y) == Top(start, news)
    ensures Delivered(start, news + [x, y]) == y
  {
    MirrorIsLastOfTop(start, news);
    assert (news + [x, y])[..|news| + 1] == news + [x];
    assert (news + [x])[..|news|] == news;
  }

  // ------------------------------------------------------------------ taking work in

  /** The cycle guard's loop. */
  method PassedThrough(chain: seq<string>, installation: string) returns (r: bool)
    ensures r <==> installation in chain
  {
    for i := 0 to |chain|
      invariant installation !in chain[..i]
    {
      if chain[i] == installation { return true; }
    }
    return false;
  }

  datatype Lookup = Found(active: bool) | NotFound | Failed

  datatype Refusal = BeenHere | CouldNotCheck | NoSuchCode | NotInUse

  function AssignmentRefusal(chain: seq<string>, installation: string, code: Lookup): Option<Refusal> {
    if installation in chain then Some(BeenHere)
    else match code
      case Failed => Some(CouldNotCheck)
      case NotFound => Some(NoSuchCode)
      case Found(active) => if active then None else Some(NotInUse)
  }

  // ------------------------------------------------------------------ register numbers

  datatype Line = Service | Assignment

  function LineMark(line: Line): string { if line == Service then "Ү" else "Д" }

  /** "%s%d-%05d". */
  function FormatNumber(line: Line, year: nat, sequence: nat): string {
    LineMark(line) + Itoa(year) + "-" + Padded(sequence, 5)
  }

  /** A number read back: the line's letter, the year, a dash, and the sequence, in five digits while five hold it. */
  lemma {:induction false} NumberReadsBack(line: Line, year: nat, sequence: nat)
    ensures var s, y := FormatNumber(line, year, sequence), |Itoa(year)|;
            && s[0] == (if line == Service then 'Ү' else 'Д') && s[1 + y] == '-'
            && Value(s[1..1 + y]) == year && Value(s[2 + y..]) == sequence
            && |s| == 2 + y + if sequence < 100000 then 5 else |Itoa(sequence)|
  {
    ValueOfItoa(year);
    ValueOfPadded(sequence, 5);
    FiveDigits(sequence);
    NumberParts(LineMark(line), Itoa(year), Padded(sequence, 5));
    hide Itoa, Value;
  }

  lemma {:induction false} NumberParts(mark: string, a: string, b: string)
    requires |mark| == 1
    ensures var s, n := mark + a + "-" + b, |a|;
            |s| == 2 + n + |b| && s[0] == mark[0] && s[1 + n] == '-' && s[1..1 + n] == a && s[2 + n..] == b
  {}

  lemma {:induction false} FiveDigits(n: nat)
    ensures |Itoa(n)| <= 5 <==> n < 100000
  {
    assert |Itoa(n)| == if n < 10 then 1 else |Itoa(n / 10)| + 1;
    assert n / 10 >= 10 ==> |Itoa(n / 10)| == |Itoa(n / 10 / 10)| + 1;
    assert n / 10 / 10 >= 10 ==> |Itoa(n / 10 / 10)| == |Itoa(n / 10 / 10 / 10)| + 1;
    assert n / 10 / 10 / 10 >= 10 ==> |Itoa(n / 10 / 10 / 10)| == |Itoa(n / 10 / 10 / 10 / 10)| + 1;
    var m := n / 10 / 10 / 10 / 10;
    assert m >= 10 ==> |Itoa(m)| == |Itoa(m / 10)| + 1 && |Itoa(m / 10)| >= 1;
    assert m < 10 <==> n < 100000;
  }

  lemma {:induction false} DashInside(a: string, b: string, c: string, d: string)
    requires a + "-" + b == c + "-" + d && |a| < |c|
    ensures '-' in c
  {
    assert (a + "-" + b)[|a|] == '-' && (c + "-" + d)[|a|] == c[|a|];
  }

  /** The first dash divides a number, as no digit is one. */
  lemma {:induction false} DashDivides(a: string, b: string, c: string, d: string)
    requires a + "-" + b == c + "-" + d && '-' !in a && '-' !in c
    ensures a == c && b == d
  {
    var s := a + "-" + b;
    assert s[|a|] == '-' && s[|c|] == '-';
    assert s[..|a|] == a && s[..|c|] == c;
    if |a| < |c| {
      DashInside(a, b, c, d);
      assert false;
    } else if |c| < |a| {
      DashInside(c, d, a, b);
      assert false;
    }
    assert s[|a| + 1..] == b && s[|c| + 1..] == d;
  }

  /** No two registrations read the same: line, year and sequence can be told from the number. */
  lemma {:induction false} NumberIsInjective(l: Line, y: nat, n: nat, m: Line, z: nat, k: nat)
    requires FormatNumber(l, y, n) == FormatNumber(m, z, k)
    ensures l == m && y == z && n == k
  {
    var a, c := LineMark(l) + Itoa(y), LineMark(m) + Itoa(z);
    assert FormatNumber(l, y, n)[0] == LineMark(l)[0] && FormatNumber(m, z, k)[0] == LineMark(m)[0];
    NoDash(l, y);
    NoDash(m, z);
    DashDivides(a, Padded(n, 5), c, Padded(k, 5));
    assert a[1..] == Itoa(y) && c[1..] == Itoa(z);
    ItoaIsInjective(y, z);
    PaddedIsInjective(n, k, 5);
  }

  lemma {:induction false} NoDash(l: Line, y: nat)
    ensures '-' !in LineMark(l) + Itoa(y)
  {
    hide Itoa;
    assert forall i | 0 <= i < |Itoa(y)| :: Itoa(y)[i] != '-';
  }

  // ------------------------------------------------------------------ the branches' answers

  datatype Branch = Branch(peer: string, answer: string)

  predicate Answers(b: Branch) { Trim(b.answer) != "" }

  function Named(b: Branch): string { b.peer + ": " + b.answer }

  /** The replies that say something, each under its office's name. */
  function Parts(branches: seq<Branch>): seq<string> {
    if branches == [] then []
    else
      var init, last := Parts(branches[..|branches| - 1]), branches[|branches| - 1];
      if Answers(last) then init + [Named(last)] else init
  }

  /** Where the first ": " stands, or -1. */
  function Colon(s: string, i: nat): (r: int)
    requires i <= |s|
    ensures r >= 0 ==> i <= r && r + 2 <= |s| && s[r] == ':' && s[r + 1] == ' ' && forall j | i <= j < r ::
            !(s[j] == ':' && s[j + 1] == ' ')
    ensures r < 0 ==> forall j | i <= j && j + 2 <= |s| :: !(s[j] == ':' && s[j + 1] == ' ')
    decreases |s| - i
  {
    if i + 2 > |s| then -1 else if s[i] == ':' && s[i + 1] == ' ' then i else Colon(s, i + 1)
  }

  /** strings.Cut at ": ", keeping what follows. */
  function AfterColon(s: string): string {
    var i := Colon(s, 0);
    if i >= 0 then s[i + 2..] else s
  }

  function JoinLines(parts: seq<string>): string {
    if parts == [] then "" else if |parts| == 1 then parts[0]
        else JoinLines(parts[..|parts| - 1]) + "\n" + parts[|parts| - 1]
  }

  method JoinAnswers(branches: seq<Branch>) returns (r: string)
    ensures r == Joined(branches)
  {
    var parts: seq<string> := [];
    for i := 0 to |branches|
      invariant parts == Parts(branches[..i])
    {
      assert branches[..i + 1][..i] == branches[..i];
      if Trim(branches[i].answer) == "" { continue; }
      parts := parts + [branches[i].peer + ": " + branches[i].answer];
    }
    assert branches[..|branches|] == branches;
    if |parts| == 0 { return ""; }
    if |parts| == 1 { return AfterColon(parts[0]); }
    r := JoinLines(parts);
  }

  function Joined(branches: seq<Branch>): string {
    var parts := Parts(branches);
    if |parts| == 1 then AfterColon(parts[0]) else JoinLines(parts)
  }

  ghost predicate HasColon(s: string) { exists j :: 0 <= j && j + 2 <= |s| && s[j] == ':' && s[j + 1] == ' ' }

  lemma {:induction false} FirstColonIsAt(s: string, k: nat)
    requires k + 2 <= |s| && s[k] == ':' && s[k + 1] == ' ' && forall j | 0 <= j < k ::
             !(s[j] == ':' && s[j + 1] == ' ')
    ensures Colon(s, 0) == k
  {}

  /** One office's answer stands as itself exactly when the office's name holds no ": "; otherwise part of the
      name is left in front of it. */
  lemma {:induction false} OneAnswerStandsIff(b: Branch)
    requires Trim(b.answer) != ""
    ensures Joined([b]) == b.answer <==> !HasColon(b.peer)
  {
    assert [b][..0] == [];
    assert Parts([]) == [];
    var s := b.peer + ": " + b.answer;
    assert Parts([b]) == [s];
    var n := |b.peer|;
    assert s[n] == ':' && s[n + 1] == ' ' && s[n + 2..] == b.answer;
    if HasColon(b.peer) {
      var j :| 0 <= j && j + 2 <= n && b.peer[j] == ':' && b.peer[j + 1] == ' ';
      assert s[j] == ':' && s[j + 1] == ' ';
      var i := Colon(s, 0);
      assert i <= j;
      assert |s[i + 2..]| > |b.answer|;
    } else {
      forall j | 0 <= j < n ensures !(s[j] == ':' && s[j + 1] == ' ') {
        assert s[j] == b.peer[j];
        assert j + 1 < n ==> s[j + 1] == b.peer[j + 1];
      }
      FirstColonIsAt(s, n);
    }
  }

  lemma {:induction false} PartsAre(branches: seq<Branch>)
    ensures Parts(branches) == [] <==> forall i | 0 <= i < |branches| :: !Answers(branches[i])
    ensures forall k | 0 <= k < |Parts(branches)| ::
              exists i :: 0 <= i < |branches| && Answers(branches[i]) && Parts(branches)[k] == Named(branches[i])
  {
    hide Answers, Named;
    if branches != [] {
      var n := |branches| - 1;
      PartsAre(branches[..n]);
      assert forall i | 0 <= i < n :: branches[..n][i] == branches[i];
      forall k | 0 <= k < |Parts(branches)|
        ensures exists i :: 0 <= i < |branches| && Answers(branches[i]) && Parts(branches)[k] == Named(branches[i])
      {
        if k < |Parts(branches[..n])| {
          var i :| 0 <= i < n && Answers(branches[..n][i]) && Parts(branches[..n])[k] == Named(branches[..n][i]);
          assert Parts(branches)[k] == Named(branches[i]);
        } else {
          assert Parts(branches)[k] == Named(branches[n]);
        }
      }
    }
  }

  /** The branches together say nothing exactly when none of them says anything. */
  lemma {:induction false} SaysNothingIff(branches: seq<Branch>)
    ensures Joined(branches) == "" <==> forall i | 0 <= i < |branches| :: Trim(branches[i].answer) == ""
  {
    PartsAre(branches);
    var parts := Parts(branches);
    if |parts| == 1 {
      var i :| 0 <= i < |branches| && Answers(branches[i]) && parts[0] == Named(branches[i]);
      var b := branches[i];
      assert b.answer != "" by { TrimIsTrimmed(""); }
      var s := b.peer + ": " + b.answer;
      assert s[|b.peer|] == ':' && s[|b.peer| + 1] == ' ';
      assert Colon(s, 0) >= 0 && Colon(s, 0) <= |b.peer|;
    }
    hide Trim, Parts;
  }

  /** Where part `k` begins among its lines. */
  function LineStart(parts: seq<string>, k: nat): nat
    requires k <= |parts|
  {
    if k == 0 then 0 else LineStart(parts, k - 1) + |parts[k - 1]| + 1
  }

  lemma {:induction false} LineStartOfPrefix(parts: seq<string>, n: nat, k: nat)
    requires k <= n <= |parts|
    ensures LineStart(parts[..n], k) == LineStart(parts, k)
  {
    if k > 0 {
      LineStartOfPrefix(parts, n, k - 1);
    }
  }

  lemma {:induction false} LinesJoined(parts: seq<string>)
    requires parts != []
    ensures |JoinLines(parts)| + 1 == LineStart(parts, |parts|)
    ensures |parts| > 1 ==> JoinLines(parts) == JoinLines(parts[..|parts| - 1]) + "\n" + parts[|parts| - 1]
  {
    var n := |parts| - 1;
    if n > 0 {
      LinesJoined(parts[..n]);
      LineStartOfPrefix(parts, n, n);
    } else {
      assert LineStart(parts, 0) == 0;
    }
  }

  /** A part stands whole among its lines, and a line break after it if it is not the last. */
  ghost predicate StandsAt(text: string, at: nat, part: string, last: bool) {
    && at + |part| <= |text| && text[at..at + |part|] == part
    && (if last then at + |part| == |text| else at + |part| < |text| && text[at + |part|] == '\n')
  }

  lemma {:induction false} StandsBefore(init: string, last: string, at: nat, part: string, wasLast: bool)
    requires StandsAt(init, at, part, wasLast)
    ensures StandsAt(init + "\n" + last, at, part, false)
  {
    var text := init + "\n" + last;
    assert text[..|init|] == init && text[|init|] == '\n';
    assert text[at..at + |part|] == text[..|init|][at..at + |part|];
  }

  lemma {:induction false} LastStands(init: string, last: string)
    ensures StandsAt(init + "\n" + last, |init| + 1, last, true)
  {}

  lemma {:induction false} LineStands(parts: seq<string>, k: nat)
    requires k < |parts|
    ensures StandsAt(JoinLines(parts), LineStart(parts, k), parts[k], k == |parts| - 1)
  {
    LinesJoined(parts);
    var n := |parts| - 1;
    if n > 0 {
      hide JoinLines, LineStart, StandsAt;
      LinesJoined(parts[..n]);
      LineStartOfPrefix(parts, n, n);
      if k < n {
        LineStands(parts[..n], k);
        LineStartOfPrefix(parts, n, k);
        StandsBefore(JoinLines(parts[..n]), parts[n], LineStart(parts, k), parts[k], k == n - 1);
      } else {
        LastStands(JoinLines(parts[..n]), parts[n]);
      }
    }
  }

  /** The part that a branch's answer makes is the next after those of the branches before it. */
  lemma {:induction false} PartOf(branches: seq<Branch>, i: nat)
    requires i < |branches| && Answers(branches[i])
    ensures |Parts(branches[..i])| < |Parts(branches)| && Parts(branches)[|Parts(branches[..i])|] == Named(branches[i])
  {
    var n := |branches| - 1;
    if i < n {
      PartOf(branches[..n], i);
      assert branches[..n][..i] == branches[..i];
    }
  }

  lemma {:induction false} LinesAdvance(parts: seq<string>, j: nat, k: nat)
    requires j < k <= |parts|
    ensures LineStart(parts, j) + |parts[j]| + 1 <= LineStart(parts, k)
  {
    if j < k - 1 {
      LinesAdvance(parts, j, k - 1);
    }
  }

  /** Several answers stand in the joined text whole, each under its office's name on lines of its own, in the order
      of the branches. */
  lemma {:induction false} EveryAnswerIsNamed(branches: seq<Branch>, i: nat, j: nat)
    requires i < j < |branches| && Answers(branches[i]) && Answers(branches[j])
    ensures var parts := Parts(branches);
            var k, l := |Parts(branches[..i])|, |Parts(branches[..j])|;
            && k < l < |parts|
            && StandsAt(Joined(branches), LineStart(parts, k), Named(branches[i]), false)
            && StandsAt(Joined(branches), LineStart(parts, l), Named(branches[j]), l == |parts| - 1)
            && LineStart(parts, k) + |Named(branches[i])| < LineStart(parts, l)
  {
    var parts := Parts(branches);
    var k, l := |Parts(branches[..i])|, |Parts(branches[..j])|;
    PartOf(branches, i);
    PartOf(branches, j);
    PartOf(branches[..j], i);
    assert branches[..j][..i] == branches[..i];
    LineStands(parts, k);
    LineStands(parts, l);
    LinesAdvance(parts, k, l);
    hide Parts, LineStart;
  }
}
