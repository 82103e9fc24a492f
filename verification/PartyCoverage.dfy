/** What a signature covers against what its signatory was shown, followed back through the run. */
module PartyCoverage {
  import opened Wrappers
  import opened PartySigning
  import opened PartyInvariant
  import opened PartySafety
  import opened PartyCoverageSteps

  // ------------------------------------------------------------------ the steps a row goes back to

  /** The step at which process `pid` last picked what to push. */
  ghost function PickedAt(events: seq<Event>, pid: int): nat {
    if events == [] then 0
    else
      var n := |events| - 1;
      if Picks(Run(events[..n]), events[n], pid) then n else PickedAt(events[..n], pid)
  }

  /** The pick that the ceremony `sid` was opened from. */
  ghost function SentAt(events: seq<Event>, sid: string): nat {
    if events == [] then 0
    else
      var n := |events| - 1;
      if Mints(Run(events[..n]), events[n], sid) then PickedAt(events[..n], events[n].pid) else SentAt(events[..n], sid)
  }

  /** The step at which process `pid` last began a poll. */
  ghost function BeganAt(events: seq<Event>, pid: int): nat {
    if events == [] then 0
    else
      var n := |events| - 1;
      if Reads(Run(events[..n]), events[n], pid) then n else BeganAt(events[..n], pid)
  }

  /** The step that put row `k` into the ledger. */
  ghost function RecordedAt(events: seq<Event>, k: nat): nat {
    if events == [] then 0
    else
      var n := |events| - 1;
      if |Run(events[..n]).ledger| <= k && events[n].PollRecord? then n else RecordedAt(events[..n], k)
  }

  /** The step at which the poll that recorded row `k` read the copy. */
  ghost function ReadAt(events: seq<Event>, k: nat): nat {
    var n := RecordedAt(events, k);
    if n < |events| && events[n].PollRecord? then BeganAt(events[..n], events[n].pid) else 0
  }

  lemma {:induction false} LastStep(events: seq<Event>)
    requires events != []
    ensures var n := |events| - 1; Run(events) == Apply(Run(events[..n]), events[n])
  {
    hide Apply;
  }

  /** Step `a` picked the party's copy of those bytes and that number. */
  ghost predicate PickStep(events: seq<Event>, a: nat, party: int, content: string, copy: nat) {
    && a < |events| && events[a].StartPick?
    && var s := Run(events[..a]);
    && party in s.copies && s.copies[party].content == content && Stored(s, party) == copy
  }

  lemma {:induction false} PickedWas(events: seq<Event>, pid: int)
    requires At(Run(events), pid).Some? && At(Run(events), pid).value.Picked?
    ensures var p := At(Run(events), pid).value; PickStep(events, PickedAt(events, pid), p.party, p.content, p.copy)
  {
    if events == [] {
    } else {
      var n := |events| - 1;
      LastStep(events);
      EachCameBy(Run(events[..n]), events[n], pid);
      if Picks(Run(events[..n]), events[n], pid) {
      } else {
        PickedWas(events[..n], pid);
        assert events[..n][..PickedAt(events, pid)] == events[..PickedAt(events, pid)];
      }
      hide Run, Apply;
    }
  }

  /** What the rail was given is what the pick it was opened from read. */
  lemma {:induction false} SentWas(events: seq<Event>, sid: string)
    requires sid in Run(events).rail
    ensures var c := Run(events).rail[sid]; PickStep(events, SentAt(events, sid), c.party, c.sent, c.copy)
  {
    if events == [] {
    } else {
      var n := |events| - 1;
      LastStep(events);
      EachGrows(Run(events[..n]), events[n]);
      if Mints(Run(events[..n]), events[n], sid) {
        PickedWas(events[..n], events[n].pid);
      } else {
        SentWas(events[..n], sid);
      }
      assert events[..n][..SentAt(events, sid)] == events[..SentAt(events, sid)];
      hide Run, Apply;
    }
  }

  lemma {:induction false} SentOnce(events: seq<Event>, sid: string)
    requires events != [] && sid in Run(events[..|events| - 1]).rail
    ensures SentAt(events, sid) == SentAt(events[..|events| - 1], sid)
  {
    hide Run, PickedAt;
  }

  /** A ceremony on the rail stays as it is, and goes back to the same pick. */
  lemma {:induction false} SentStays(events: seq<Event>, m: nat, sid: string)
    requires m <= |events| && sid in Run(events[..m]).rail
    ensures sid in Run(events).rail && Run(events).rail[sid] == Run(events[..m]).rail[sid]
    ensures SentAt(events, sid) == SentAt(events[..m], sid)
  {
    hide Run, Apply, SentAt;
    if m == |events| {
      assert events[..m] == events;
    } else {
      var n := |events| - 1;
      assert events[..n][..m] == events[..m];
      SentStays(events[..n], m, sid);
      SentOnce(events, sid);
      LastStep(events);
      RailStays(Run(events[..n]), events[n]);
    }
  }

  /** Step `b` began a poll of the party over that ceremony, and read the copy of that digest and number. */
  ghost predicate ReadStep(events: seq<Event>, b: nat, party: int, sid: string, covered: Digest, copy: nat) {
    && b < |events| && events[b].PollRead? && events[b].party == party
    && var s := Run(events[..b]);
    && party in s.parties && s.parties[party].session == Some(sid)
    && party in s.copies && s.copies[party].sha == covered && Stored(s, party) == copy
  }

  lemma {:induction false} BeganWas(events: seq<Event>, pid: int)
    requires At(Run(events), pid).Some?
             && (At(Run(events), pid).value.Polling? || At(Run(events), pid).value.Recording?)
    ensures var p := At(Run(events), pid).value; ReadStep(events, BeganAt(events, pid), p.party, p.sid, p.sha, p.copy)
  {
    if events == [] {
    } else {
      var n := |events| - 1;
      LastStep(events);
      EachCameBy(Run(events[..n]), events[n], pid);
      if Reads(Run(events[..n]), events[n], pid) {
      } else {
        BeganWas(events[..n], pid);
        assert events[..n][..BeganAt(events, pid)] == events[..BeganAt(events, pid)];
      }
      hide Run, Apply;
    }
  }

  /** Step `d` recorded row `k`: the party was out before it, with a copy, and has signed after it. */
  ghost predicate RecordStep(events: seq<Event>, d: nat, k: nat, row: Row) {
    && d < |events| && events[d].PollRecord?
    && var s, t := Run(events[..d]), Run(events[..d + 1]);
    && |s.ledger| == k && t.ledger == s.ledger + [row]
    && row.party in s.parties && Answerable(s.parties[row.party])
    && row.party in t.parties && t.parties[row.party].state == Signed
    && At(s, events[d].pid).Some? && At(s, events[d].pid).value.Recording?
    && var p := At(s, events[d].pid).value;
    && row == Row(p.party, p.signatory, p.reg, p.sid, p.sha, p.copy)
  }

  lemma {:induction false} RecordedThen(events: seq<Event>, k: nat)
    requires events != [] && |Run(events[..|events| - 1]).ledger| <= k < |Run(events).ledger|
    ensures RecordStep(events, |events| - 1, k, Run(events).ledger[k]) && RecordedAt(events, k) == |events| - 1
  {
    var n := |events| - 1;
    LastStep(events);
    hide Run, Apply;
    EachGrows(Run(events[..n]), events[n]);
    assert events[..n + 1] == events;
  }

  lemma {:induction false} RecordedBefore(events: seq<Event>, k: nat)
    requires events != [] && k < |Run(events[..|events| - 1]).ledger|
    ensures RecordedAt(events, k) == RecordedAt(events[..|events| - 1], k)
    ensures k < |Run(events).ledger| && Run(events).ledger[k] == Run(events[..|events| - 1]).ledger[k]
  {
    var n := |events| - 1;
    LastStep(events);
    hide Run, Apply;
    EachGrows(Run(events[..n]), events[n]);
  }

  lemma {:induction false} SameRecordStep(events: seq<Event>, n: nat, d: nat, k: nat, row: Row)
    requires n <= |events| && RecordStep(events[..n], d, k, row)
    ensures RecordStep(events, d, k, row)
  {
    hide Run;
    assert events[..n][..d] == events[..d] && events[..n][..d + 1] == events[..d + 1];
  }

  lemma {:induction false} RecordedWas(events: seq<Event>, k: nat)
    requires k < |Run(events).ledger|
    ensures RecordStep(events, RecordedAt(events, k), k, Run(events).ledger[k])
  {
    if events != [] {
      hide Run, RecordedAt, RecordStep;
      var n := |events| - 1;
      if |Run(events[..n]).ledger| <= k {
        RecordedThen(events, k);
      } else {
        RecordedBefore(events, k);
        RecordedWas(events[..n], k);
        SameRecordStep(events, n, RecordedAt(events, k), k, Run(events).ledger[k]);
      }
    }
  }

  // ------------------------------------------------------------------ the copies stored in between

  /** The bytes of the last copy stored for the party from step `a` to before step `b`; `before` if none was. */
  ghost function LastStored(events: seq<Event>, a: nat, b: nat, party: int, before: string): string
    requires a <= b <= |events|
    decreases b - a
  {
    if a == b then before
    else if Stores(Run(events[..b - 1]), events[b - 1], party) then events[b - 1].content
    else LastStored(events, a, b - 1, party, before)
  }

  /** How many copies were stored for the party from step `a` to before step `b`. */
  ghost function StoresIn(events: seq<Event>, a: nat, b: nat, party: int): nat
    requires a <= b <= |events|
    decreases b - a
  {
    if a == b then 0
    else StoresIn(events, a, b - 1, party) + if Stores(Run(events[..b - 1]), events[b - 1], party) then 1 else 0
  }

  lemma {:induction false} StepAt(events: seq<Event>, b: nat)
    requires 0 < b <= |events|
    ensures Run(events[..b]) == Apply(Run(events[..b - 1]), events[b - 1])
  {
    LastStep(events[..b]);
    assert events[..b][..b - 1] == events[..b - 1];
    hide Run;
  }

  /** A party's copy is the last that was stored for it. */
  lemma {:induction false} CopyIsLastStored(events: seq<Event>, a: nat, b: nat, party: int, before: string)
    requires a <= b <= |events| && party in Run(events[..b]).copies
    requires party in Run(events[..a]).copies ==> Run(events[..a]).copies[party].content == before
    ensures Run(events[..b]).copies[party].content == LastStored(events, a, b, party, before)
    decreases b - a
  {
    if a < b {
      StepAt(events, b);
      CopyStep(Run(events[..b - 1]), events[b - 1], party);
      if !Stores(Run(events[..b - 1]), events[b - 1], party) {
        CopyIsLastStored(events, a, b - 1, party, before);
      }
    }
    hide Run, Apply;
  }

  /** The numbers of copies count the steps that stored one. */
  lemma {:induction false} NumbersCount(events: seq<Event>, a: nat, b: nat, party: int)
    requires a <= b <= |events|
    ensures Stored(Run(events[..b]), party) == Stored(Run(events[..a]), party) + StoresIn(events, a, b, party)
    decreases b - a
  {
    hide Run, Apply, Stored, Stores;
    if a < b {
      StepAt(events, b);
      CountStep(Run(events[..b - 1]), events[b - 1], party);
      NumbersCount(events, a, b - 1, party);
    }
  }

  // ------------------------------------------------------------------ what a row covers

  /** The poll that recorded the row began before, and read the digest that the row covers. */
  lemma {:induction false} RowWasRead(events: seq<Event>, k: nat)
    requires k < |Run(events).ledger|
    ensures var row := Run(events).ledger[k];
            ReadAt(events, k) < RecordedAt(events, k)
                && ReadStep(events, ReadAt(events, k), row.party, row.session, row.covered, row.copy)
  {
    RecordedWas(events, k);
    var d := RecordedAt(events, k);
    BeganWas(events[..d], events[d].pid);
    assert events[..d][..ReadAt(events, k)] == events[..ReadAt(events, k)];
    hide Run;
  }

  /** What a poll reads goes back to a ceremony that was on the rail before. */
  lemma {:induction false} ReadAfterSent(events: seq<Event>, b: nat, party: int, sid: string, covered: Digest,
      copy: nat)
    requires ReadStep(events, b, party, sid, covered, copy)
    ensures sid in Run(events).rail && SentAt(events, sid) < b && covered == Sha(Run(events[..b]).copies[party].content)
    ensures var c := Run(events).rail[sid];
            c.party == party && PickStep(events, SentAt(events, sid), party, c.sent, c.copy)
  {
    var s := Run(events[..b]);
    RunKeepsInv(events[..b]);
    assert PartyFits(s, party, s.parties[party]);
    SentWas(events[..b], sid);
    SentStays(events, b, sid);
    assert events[..b][..SentAt(events, sid)] == events[..SentAt(events, sid)];
    hide Run;
  }

  /** In every run, a row of the ledger goes back to a poll's read of the copy and, before that, to the pick of the
      bytes its signatory was shown. It covers those bytes exactly when the last copy stored in between, if any,
      was of the same bytes; its copy's number is the sent one's and one more for each copy stored in between. */
  lemma {:induction false} CoversWhatWasSentIff(events: seq<Event>, k: nat)
    requires k < |Run(events).ledger|
    ensures var row := Run(events).ledger[k];
            var a, b := SentAt(events, row.session), ReadAt(events, k);
            && row.session in Run(events).rail && a < b < |events|
            && var c := Run(events).rail[row.session];
            && PickStep(events, a, row.party, c.sent, c.copy)
            && ReadStep(events, b, row.party, row.session, row.covered, row.copy)
            && row.copy == c.copy + StoresIn(events, a, b, row.party)
            && (row.covered == Sha(c.sent) <==> LastStored(events, a, b, row.party, c.sent) == c.sent)
  {
    var row := Run(events).ledger[k];
    var a, b := SentAt(events, row.session), ReadAt(events, k);
    RowWasRead(events, k);
    RecordedWas(events, k);
    ReadAfterSent(events, b, row.party, row.session, row.covered, row.copy);
    var c := Run(events).rail[row.session];
    CopyIsLastStored(events, a, b, row.party, c.sent);
    NumbersCount(events, a, b, row.party);
    hide Run, SentAt, ReadAt, RecordedAt;
  }

  /** In every run, the frozen copy of a party that has signed is the copy its row covers exactly when the last copy
      stored between the poll's read and its record, if any, was of the same bytes. */
  lemma {:induction false} FrozenCopyIsCoveredIff(events: seq<Event>, k: nat)
    requires k < |Run(events).ledger|
    ensures var row := Run(events).ledger[k];
            var b, d := ReadAt(events, k), RecordedAt(events, k);
            && b < d < |events|
            && ReadStep(events, b, row.party, row.session, row.covered, row.copy) && RecordStep(events, d, k, row)
            && row.party in Run(events).copies
            && (Run(events).copies[row.party].sha == row.covered
                <==> LastStored(events, b, d, row.party, row.covered.bytes) == row.covered.bytes)
  {
    var row := Run(events).ledger[k];
    var b, d := ReadAt(events, k), RecordedAt(events, k);
    RowWasRead(events, k);
    RecordedWas(events, k);
    ReadAfterSent(events, b, row.party, row.session, row.covered, row.copy);
    OutHasCopy(events[..d], row.party);
    CopyIsLastStored(events, b, d, row.party, row.covered.bytes);
    RecordedCopy(events, d, k, row);
    hide Run, SentAt, ReadAt, RecordedAt, RecordStep, ReadStep;
  }

  lemma {:induction false} OutHasCopy(events: seq<Event>, party: int)
    requires party in Run(events).parties && Answerable(Run(events).parties[party])
    ensures party in Run(events).copies
  {
    RunKeepsInv(events);
    assert PartyFits(Run(events), party, Run(events).parties[party]);
    hide Run;
  }

  /** The bytes on file when the row was recorded are the party's for good. */
  lemma {:induction false} RecordedCopy(events: seq<Event>, d: nat, k: nat, row: Row)
    requires RecordStep(events, d, k, row)
    ensures row.party in Run(events).copies && row.party in Run(events[..d]).copies
    ensures Run(events).copies[row.party].sha == Sha(Run(events[..d]).copies[row.party].content)
  {
    SignedIsFinal(events[..d + 1], events[d + 1..], row.party);
    assert events[..d + 1] + events[d + 1..] == events;
    StepAt(events, d + 1);
    CopyStep(Run(events[..d]), events[d], row.party);
    RunKeepsInv(events);
    hide Run, Apply;
  }
}
