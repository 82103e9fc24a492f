/** Who a ceremony is opened for, and three runs that show where the guarantees of PartySafety, PartyCoverage and
    PartyOrder end: a resend during a ceremony, one during a poll, and a send that broke off.

    The first is a send between the start of a ceremony and the poll that ends it: the ledger then covers bytes the
    signatory was never shown. The second falls between that poll's read and its record: the ledger covers what the
    signatory was shown, and the frozen copy is another. In the third a send has stored its copies and not marked the
    contract, so a party can be added that should have signed before. */
module PartyRuns {
  import opened Wrappers
  import opened PartySigning
  import opened PartyInvariant
  import opened PartySafety
  import opened PartyOrderSteps
  import opened PartyOrder
  import opened PartyScenes

  // ------------------------------------------------------------------ signerFor's choice

  /** A registered signatory in order of registration, as the query returns it. */
  datatype Candidate = Candidate(id: int, reg: string, user: string)

  datatype PickError = NoSignatory | NotOneOfThem

  /** The signed-in person's own row if there is one, the only row otherwise; never a guess among several. */
  method PickSigner(all: seq<Candidate>, user: string) returns (r: Result<Candidate, PickError>)
    ensures r.Ok? ==> r.value in all
    ensures r == Err(NoSignatory) <==> all == []
    ensures all != [] && user == "" ==> r == Ok(all[0])
    ensures r == Err(NotOneOfThem) <==> user != "" && |all| > 1 && forall i | 0 <= i < |all| :: all[i].user != user
    ensures r.Ok? && user != "" && (exists i :: 0 <= i < |all| && all[i].user == user) ==>
              exists i :: 0 <= i < |all| && r.value == all[i] && all[i].user == user && forall j | 0 <= j < i ::
                  all[j].user != user
    ensures r.Ok? && (user == "" || r.value.user != user) ==> r.value == all[0] && (user != "" ==> |all| == 1)
  {
    if |all| == 0 { return Err(NoSignatory); }
    var pick := all[0];
    if user != "" {
      var i := 0;
      while i < |all| && all[i].user != user
        invariant 0 <= i <= |all|
        invariant forall j | 0 <= j < i :: all[j].user != user
      {
        i := i + 1;
      }
      if i < |all| {
        pick := all[i];
      } else if |all| > 1 {
        return Err(NotOneOfThem);
      }
    }
    return Ok(pick);
  }

  // ------------------------------------------------------------------ a resend during a ceremony

  function ResentRun(): seq<Event> {
    Prepare(None) + Begin() + [StoreCopy(0, 1, "second")] + Finish()
  }

  lemma {:induction false} Resent(s: State)
    requires InCeremony(s, None, "first", 1, "first", 1)
    ensures InCeremony(RunFrom(s, [StoreCopy(0, 1, "second")]), None, "first", 1, "second", 2)
  {
    hide Tally;
    TwoSteps(s, StoreCopy(0, 1, "second"), BecomesContract);
  }

  /** A resend between start and poll: the ledger covers bytes the signatory was never shown. */
  lemma {:induction false} ResendIsMiscovered()
    ensures var s := Run(ResentRun());
            && s.ledger == [Row(1, 2, Reg, "s", Sha("second"), 2)]
            && "s" in s.rail && s.rail["s"].sent == "first" && s.rail["s"].copy == 1
               && Sha("second") != Sha(s.rail["s"].sent)
  {
    RunJoins(Empty(), Prepare(None) + Begin() + [StoreCopy(0, 1, "second")], Finish());
    RunJoins(Empty(), Prepare(None) + Begin(), [StoreCopy(0, 1, "second")]);
    RunJoins(Empty(), Prepare(None), Begin());
    Prepared(None);
    var s := Run(Prepare(None));
    Begun(s, None, "first", 1);
    Resent(RunFrom(s, Begin()));
    Finished(RunFrom(RunFrom(s, Begin()), [StoreCopy(0, 1, "second")]), None, "first", 1, "second", 2);
    assert "second"[0] != "first"[0];
    hide RunFrom;
  }

  // ------------------------------------------------------------------ a resend during a poll

  function BeginPoll(): seq<Event> { [RailAnswers("s", Completed("signed")), PollRead(8, 1)] }

  function EndPoll(): seq<Event> { [PollRail(8), PollRecord(8)] }

  function RefrozenRun(): seq<Event> {
    Prepare(None) + Begin() + BeginPoll() + [StoreCopy(0, 1, "second")] + EndPoll()
  }

  /** Party 1 in its ceremony, and a poll that has read its copy and carries it. */
  ghost predicate InPoll(g: State, carried: string, n: nat, content: string) {
    && 1 in g.parties && g.parties[1] == Party(false, true, None, Invited, Some("s"), Some(2))
    && 2 in g.signatories && g.signatories[2] == Signatory(1, Reg, "", false)
    && 1 in g.copies && g.copies[1] == Copy(content, Sha(content), None)
    && g.ledger == [] && "s" in g.rail && "s" in g.answers && g.answers["s"] == Completed("signed")
    && g.procs == map[8 := Polling(1, "s", 2, Reg, carried, Sha(carried), n)]
  }

  lemma {:induction false} ReadFirst(c: State)
    requires InCeremony(c, None, "first", 1, "first", 1)
    ensures InPoll(RunFrom(c, BeginPoll()), "first", 1, "first")
  {
    hide Apply, RunFrom;
    TwoSteps(c, RailAnswers("s", Completed("signed")), PollRead(8, 1));
    ReadAfterAnswer(c, None, "first", 1, "first", 1);
  }

  lemma {:induction false} ResentWhilePolling(g: State)
    requires InPoll(g, "first", 1, "first")
    ensures InPoll(RunFrom(g, [StoreCopy(0, 1, "second")]), "first", 1, "second")
  {
    hide Tally;
    TwoSteps(g, StoreCopy(0, 1, "second"), BecomesContract);
  }

  lemma {:induction false} RecordsCarried(t: State)
    requires InPoll(t, "first", 1, "second")
    ensures var s := RunFrom(t, EndPoll());
            && s.ledger == [Row(1, 2, Reg, "s", Sha("first"), 1)] && 1 in s.parties && s.parties[1].state == Signed
            && 1 in s.copies && s.copies[1] == Copy("second", Sha("second"), Some("signed"))
  {
    hide Apply, RunFrom;
    var q := Polling(1, "s", 2, Reg, "first", Sha("first"), 1);
    assert Goes(t, 8, q) == t by { assert t.procs[8 := q] == t.procs; }
    TwoSteps(t, PollRail(8), PollRecord(8));
    RecordsAnswer(t, None, "first", 1);
  }

  /** A resend between a poll's read and its record: the ledger covers bytes that the frozen copy no longer has. */
  lemma {:induction false} RecordIsOfAnOlderCopy()
    ensures var s := Run(RefrozenRun());
            && s.ledger == [Row(1, 2, Reg, "s", Sha("first"), 1)] && 1 in s.parties && s.parties[1].state == Signed
            && 1 in s.copies && s.copies[1] == Copy("second", Sha("second"), Some("signed"))
               && s.copies[1].sha != s.ledger[0].covered
  {
    hide RunFrom, InCeremony, Waiting, InPoll;
    RunJoins(Empty(), Prepare(None) + Begin() + BeginPoll() + [StoreCopy(0, 1, "second")], EndPoll());
    RunJoins(Empty(), Prepare(None) + Begin() + BeginPoll(), [StoreCopy(0, 1, "second")]);
    RunJoins(Empty(), Prepare(None) + Begin(), BeginPoll());
    RunJoins(Empty(), Prepare(None), Begin());
    Prepared(None);
    FirstTurn(Run(Prepare(None)));
    Begun(Run(Prepare(None)), None, "first", 1);
    var c := RunFrom(Run(Prepare(None)), Begin());
    ReadFirst(c);
    ResentWhilePolling(RunFrom(c, BeginPoll()));
    RecordsCarried(RunFrom(RunFrom(c, BeginPoll()), [StoreCopy(0, 1, "second")]));
    assert "second"[0] != "first"[0];
  }

  lemma {:induction false} FirstTurn(s: State)
    requires Waiting(s, None, "first", 1)
    ensures 1 in s.parties && TurnHasCome(s, 1)
  {}

  // ------------------------------------------------------------------ a send that broke off

  function BrokenOffRun(): seq<Event> {
    Prepare(Some(2)) + Begin() + [AddParty(3, false, true, Some(1), false)] + Finish()
  }

  /** The send stored a copy and never marked the contract, so parties can still be added: party 1 signs
      although party 3, with the smaller number, has not. */
  lemma {:induction false} BrokenOffSendBreaksOrder()
    ensures var s := Run(BrokenOffRun());
            && 1 in s.parties && s.parties[1].state == Signed && s.parties[1].order == Some(2)
            && 3 in s.parties && ComesBefore(s.parties[3], s.parties[1].order) && s.parties[3].state == Draft
  {
    RunJoins(Empty(), Prepare(Some(2)) + Begin() + [AddParty(3, false, true, Some(1), false)], Finish());
    RunJoins(Empty(), Prepare(Some(2)) + Begin(), [AddParty(3, false, true, Some(1), false)]);
    RunJoins(Empty(), Prepare(Some(2)), Begin());
    Prepared(Some(2));
    var s := Run(Prepare(Some(2)));
    Begun(s, Some(2), "first", 1);
    var t := RunFrom(s, Begin());
    Added(t);
    var u := RunFrom(t, [AddParty(3, false, true, Some(1), false)]);
    Finished(u, Some(2), "first", 1, "first", 1);
    hide RunFrom;
  }

  lemma {:induction false} Added(s: State)
    requires InCeremony(s, Some(2), "first", 1, "first", 1) && s.contract == NoContract && s.known == {1, 2}
    ensures var t := RunFrom(s, [AddParty(3, false, true, Some(1), false)]);
            InCeremony(t, Some(2), "first", 1, "first", 1) && 3 in t.parties
                && t.parties[3] == Party(false, true, Some(1), Draft, None, None)
  {
    hide Tally, StoreStep, RemoveStep, WithdrawStep, ReopenStep, Removable, Answerable;
    TwoSteps(s, AddParty(3, false, true, Some(1), false), BecomesContract);
  }

  /** So it is not an undisturbed run: the party was added between a send's copies and its mark. */
  lemma {:induction false} ThatRunIsDisturbed()
    ensures !UndisturbedRun(BrokenOffRun())
  {
    BrokenOffSendBreaksOrder();
    if UndisturbedRun(BrokenOffRun()) {
      JointOrder(BrokenOffRun(), 1, 3);
      assert false;
    }
  }
}
