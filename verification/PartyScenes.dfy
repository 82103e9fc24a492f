/** Scenes from which the runs of PartyRuns are put together: one contract with one party, number 1, and its only
    signatory, number 2, who has a register number and no account.

    Prepare names them and delivers the first copy. Begin starts the signatory's ceremony, from the check of the
    order to the lock on the party's row. Finish has the rail answer with a signed document and the poll record it.
    For each scene a lemma says where it leads from any state in which the party is waiting, or is in its ceremony,
    whatever else is on record; so the runs can put something between the scenes, a second copy or another party,
    and still say how they end. */
module PartyScenes {
  import opened Wrappers
  import opened PartySigning

  // ------------------------------------------------------------------ playing a run

  lemma {:induction false} RunJoins(s: State, a: seq<Event>, b: seq<Event>)
    ensures RunFrom(s, a + b) == RunFrom(RunFrom(s, a), b)
    decreases |b|
  {
    hide Apply;
    if b == [] {
      assert a + b == a;
    } else {
      RunJoins(s, a, b[..|b| - 1]);
      assert (a + b)[..|a + b| - 1] == a + b[..|b| - 1];
    }
  }

  lemma {:induction false} TwoSteps(s: State, a: Event, b: Event)
    ensures RunFrom(s, [a, b]) == Apply(Apply(s, a), b)
    ensures RunFrom(s, [a]) == Apply(s, a)
  {
    hide Apply;
    assert [a, b][..1] == [a] && [a][..0] == [];
    assert RunFrom(s, []) == s && RunFrom(s, [a]) == Apply(s, a);
  }

  const Reg := "AA90010111"

  /** Party 1 with its signatory 2, out and waiting under copy number `n`. */
  ghost predicate Waiting(s: State, order: Option<int>, content: string, n: nat) {
    && 1 in s.parties && s.parties[1] == Party(false, true, order, Invited, None, None)
    && 2 in s.signatories && s.signatories[2] == Signatory(1, Reg, "", false)
    && 1 in s.copies && s.copies[1] == Copy(content, Sha(content), None) && Stored(s, 1) == n
    && s.ledger == [] && s.rail == map[] && s.procs == map[] && s.answers == map[]
  }

  /** The same with its ceremony open over the copy it had then. */
  ghost predicate InCeremony(s: State, order: Option<int>, sent: string, was: nat, content: string, n: nat) {
    && 1 in s.parties && s.parties[1] == Party(false, true, order, Invited, Some("s"), Some(2))
    && 2 in s.signatories && s.signatories[2] == Signatory(1, Reg, "", false)
    && 1 in s.copies && s.copies[1] == Copy(content, Sha(content), None) && Stored(s, 1) == n
    && s.ledger == [] && s.rail == map["s" := Ceremony(1, 2, Reg, sent, was)] && s.procs == map[] && s.answers == map[]
  }

  function Prepare(order: Option<int>): seq<Event> {
    [AddParty(1, false, true, order, false), AddSignatory(2, 1, Reg, "")] + [StoreCopy(0, 1, "first")]
  }

  lemma {:induction false} Named(order: Option<int>)
    ensures var s := RunFrom(Empty(), [AddParty(1, false, true, order, false), AddSignatory(2, 1, Reg, "")]);
            s == Empty().(parties := map[1 := Party(false, true, order, Draft, None, None)],
                          signatories := map[2 := Signatory(1, Reg, "", false)], known := {1, 2})
  {
    TwoSteps(Empty(), AddParty(1, false, true, order, false), AddSignatory(2, 1, Reg, ""));
    hide Tally;
    assert Apply(Empty(), AddParty(1, false, true, order, false))
        == Empty().(parties := map[1 := Party(false, true, order, Draft, None, None)], known := {1});
  }

  lemma {:induction false} Prepared(order: Option<int>)
    ensures var s := Run(Prepare(order));
            && Waiting(s, order, "first", 1) && s.parties.Keys == {1} && s.contract == NoContract && s.known == {1, 2}
            && s.unmarked == {0}
  {
    RunJoins(Empty(), [AddParty(1, false, true, order, false), AddSignatory(2, 1, Reg, "")],
        [StoreCopy(0, 1, "first")]);
    Named(order);
    var s := RunFrom(Empty(), [AddParty(1, false, true, order, false), AddSignatory(2, 1, Reg, "")]);
    TwoSteps(s, StoreCopy(0, 1, "first"), MarkSent(0));
    hide Tally, RunFrom;
  }

  function Begin(): seq<Event> {
    [StartCheck(9, 1), StartPick(9, 2)] + [StartPush(9, "s"), StartLock(9, false)]
  }

  lemma {:induction false} Begun(s: State, order: Option<int>, content: string, n: nat)
    requires Waiting(s, order, content, n) && content != "" && TurnHasCome(s, 1)
    ensures var t := RunFrom(s, Begin());
            && InCeremony(t, order, content, n, content, n)
            && t == s.(parties := t.parties, rail := t.rail) && t.parties == s.parties[1 := t.parties[1]]
  {
    RunJoins(s, [StartCheck(9, 1), StartPick(9, 2)], [StartPush(9, "s"), StartLock(9, false)]);
    TwoSteps(s, StartCheck(9, 1), StartPick(9, 2));
    var picked := Picked(1, 2, Reg, content, n);
    CheckedAndPicked(s, order, content, n);
    var t := Goes(s, 9, picked);
    TwoSteps(t, StartPush(9, "s"), StartLock(9, false));
    PushedAndLocked(s, order, content, n);
    hide Apply, RunFrom;
  }

  lemma {:induction false} CheckedAndPicked(s: State, order: Option<int>, content: string, n: nat)
    requires Waiting(s, order, content, n) && content != "" && TurnHasCome(s, 1)
    ensures Apply(Apply(s, StartCheck(9, 1)), StartPick(9, 2)) == Goes(s, 9, Picked(1, 2, Reg, content, n))
  {
    hide Desk, Poll;
    assert Apply(s, StartCheck(9, 1)) == Goes(s, 9, Checked(1));
    assert s.procs[9 := Checked(1)][9 := Picked(1, 2, Reg, content, n)] == s.procs[9 := Picked(1, 2, Reg, content, n)];
  }

  lemma {:induction false} PushedAndLocked(s: State, order: Option<int>, content: string, n: nat)
    requires Waiting(s, order, content, n)
    ensures Apply(Apply(Goes(s, 9, Picked(1, 2, Reg, content, n)), StartPush(9, "s")), StartLock(9, false))
            == s.(rail := map["s" := Ceremony(1, 2, Reg, content, n)],
                  parties := s.parties[1 := Party(false, true, order, Invited, Some("s"), Some(2))])
  {
    hide Desk, Poll;
    var g := Goes(s, 9, Picked(1, 2, Reg, content, n));
    var u := Goes(s.(rail := map["s" := Ceremony(1, 2, Reg, content, n)]), 9, Pushed(1, "s"));
    assert Apply(g, StartPush(9, "s")) == u by {
      assert g.procs[9 := Pushed(1, "s")] == u.procs;
      assert s.rail["s" := Ceremony(1, 2, Reg, content, n)] == map["s" := Ceremony(1, 2, Reg, content, n)];
    }
    assert u.procs - {9} == s.procs;
  }

  function Finish(): seq<Event> {
    [RailAnswers("s", Completed("signed")), PollRead(8, 1)] + [PollRail(8), PollRecord(8)]
  }

  lemma {:induction false} Finished(s: State, order: Option<int>, sent: string, was: nat, content: string, n: nat)
    requires InCeremony(s, order, sent, was, content, n)
    ensures var t := RunFrom(s, Finish());
            && t.ledger == [Row(1, 2, Reg, "s", Sha(content), n)] && t.rail == s.rail
            && t.parties == s.parties[1 := Party(false, true, order, Signed, None, None)]
  {
    RunJoins(s, [RailAnswers("s", Completed("signed")), PollRead(8, 1)], [PollRail(8), PollRecord(8)]);
    TwoSteps(s, RailAnswers("s", Completed("signed")), PollRead(8, 1));
    var a := s.(answers := map["s" := Completed("signed")]);
    ReadAfterAnswer(s, order, sent, was, content, n);
    TwoSteps(Goes(a, 8, Polling(1, "s", 2, Reg, content, Sha(content), n)), PollRail(8), PollRecord(8));
    RecordsAnswer(a, order, content, n);
    hide Apply, RunFrom;
  }

  lemma {:induction false} ReadAfterAnswer(s: State, order: Option<int>, sent: string, was: nat, content: string,
      n: nat)
    requires InCeremony(s, order, sent, was, content, n)
    ensures Apply(Apply(s, RailAnswers("s", Completed("signed"))), PollRead(8, 1))
            == Goes(s.(answers := map["s" := Completed("signed")]), 8,
                Polling(1, "s", 2, Reg, content, Sha(content), n))
  {
    hide Desk, Start, Record;
    var a := s.(answers := map["s" := Completed("signed")]);
    assert Apply(s, RailAnswers("s", Completed("signed"))) == a by {
      assert s.answers["s" := Completed("signed")] == map["s" := Completed("signed")];
    }
    ReadsLock(a, order, content, n);
    hide Apply;
  }

  lemma {:induction false} ReadsLock(a: State, order: Option<int>, content: string, n: nat)
    requires 1 in a.parties && a.parties[1] == Party(false, true, order, Invited, Some("s"), Some(2)) && 8 !in a.procs
    requires 2 in a.signatories && a.signatories[2] == Signatory(1, Reg, "", false)
    requires 1 in a.copies && a.copies[1] == Copy(content, Sha(content), None) && Stored(a, 1) == n
    ensures Apply(a, PollRead(8, 1)) == Goes(a, 8, Polling(1, "s", 2, Reg, content, Sha(content), n))
  {
    hide Desk, Start, Record;
  }

  lemma {:induction false} RailSays(g: State, pid: int, q: Proc, pdf: string)
    requires At(g, pid) == Some(q) && q.Polling? && q.sha == Sha(q.content) && pdf != ""
    requires q.sid in g.answers && g.answers[q.sid] == Completed(pdf)
    ensures Apply(g, PollRail(pid)) == Goes(g, pid, Recording(q.party, q.sid, q.signatory, q.reg, q.sha, q.copy, pdf))
  {
    hide Desk, Start, Record;
  }

  lemma {:induction false} Records(g: State, order: Option<int>, content: string, n: nat)
    requires At(g, 8) == Some(Recording(1, "s", 2, Reg, Sha(content), n, "signed"))
    requires 1 in g.parties && g.parties[1] == Party(false, true, order, Invited, Some("s"), Some(2))
    requires 2 in g.signatories && g.signatories[2] == Signatory(1, Reg, "", false) && g.ledger == [] && 1 in g.copies
    ensures var t := Apply(g, PollRecord(8));
            && t.ledger == [Row(1, 2, Reg, "s", Sha(content), n)] && t.rail == g.rail
            && t.copies == g.copies[1 := g.copies[1].(signed := Some("signed"))]
            && t.parties == g.parties[1 := Party(false, true, order, Signed, None, None)]
  {
    hide Desk, Start, Tally;
  }

  lemma {:induction false} RecordsAnswer(a: State, order: Option<int>, content: string, n: nat)
    requires 1 in a.parties && a.parties[1] == Party(false, true, order, Invited, Some("s"), Some(2))
    requires 2 in a.signatories && a.signatories[2] == Signatory(1, Reg, "", false) && a.ledger == [] && 1 in a.copies
    requires "s" in a.answers && a.answers["s"] == Completed("signed") && "s" in a.rail
    ensures var t := Apply(Apply(Goes(a, 8, Polling(1, "s", 2, Reg, content, Sha(content), n)), PollRail(8)),
            PollRecord(8));
            && t.ledger == [Row(1, 2, Reg, "s", Sha(content), n)] && t.rail == a.rail
            && t.copies == a.copies[1 := a.copies[1].(signed := Some("signed"))]
            && t.parties == a.parties[1 := Party(false, true, order, Signed, None, None)]
  {
    hide Apply;
    var q := Polling(1, "s", 2, Reg, content, Sha(content), n);
    RailSays(Goes(a, 8, q), 8, q, "signed");
    Records(Goes(Goes(a, 8, q), 8, Recording(1, "s", 2, Reg, Sha(content), n, "signed")), order, content, n);
  }
}
