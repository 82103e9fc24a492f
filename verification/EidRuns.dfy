/** Two runs that show where the guarantees of EidSessions end: two polls past the deadline, of which the second tells
    its caller COMPLETE although nobody has signed; and a rail that says COMPLETE and then REFUSED, whose second word
    deletes the row of a signature.

    The first scene is common to both: a ceremony is pushed and its row written. Then each run is put together two
    statements at a time, and one lemma for each pair says where it leads. */
module EidRuns {
  import opened Wrappers
  import opened EidSteps
  import opened EidSessions

  lemma {:induction false} RunJoins(s: State, a: seq<Event>, b: seq<Event>)
    ensures RunFrom(s, a + b) == RunFrom(RunFrom(s, a), b)
    decreases |b|
  {
    if b == [] {
      assert a + b == a;
    } else {
      RunJoins(s, a, b[..|b| - 1]);
      assert (a + b)[..|a + b| - 1] == a + b[..|b| - 1];
    }
  }

  lemma {:induction false} TwoSteps(s: State, a: Event, b: Event)
    ensures RunFrom(s, [a, b]) == Apply(Apply(s, a), b)
  {
    assert [a, b][..1] == [a] && [a][..0] == [];
    assert RunFrom(s, []) == s && RunFrom(s, [a]) == Apply(s, a);
  }

  const P := Purpose(1, "AA90010111", "")
  const Asked := Session(1, "AA90010111", "", false)

  /** The ceremony under way, with the handlers still at work on it. */
  function Under(sessions: map<string, Session>, answers: map<string, Answer>, procs: map<int, Proc>): State {
    State(sessions, [], map["s" := P], answers, procs, [])
  }

  lemma {:induction false} Started()
    ensures RunFrom(Empty(), [Push(0, "s", P), InsertRow(0)])
            == Under(map["s" := Asked], map[], map[0 := Inserted("s")])
  {
    TwoSteps(Empty(), Push(0, "s", P), InsertRow(0));
    assert Apply(Empty(), Push(0, "s", P)) == Under(map[], map[], map[0 := Pushed("s")]);
  }

  /** One poll gets as far as choosing what to do. */
  lemma {:induction false} PollBegins(s: State, pid: int, late: bool)
    requires pid !in s.procs && "s" in s.sessions && s.sessions["s"] == Asked
    ensures RunFrom(s, [PollLoad(pid, 1, "s", late), PollKind(pid)])
            == Goes(s, pid, if late then Expiring("s") else Asking("s", false))
  {
    TwoSteps(s, PollLoad(pid, 1, "s", late), PollKind(pid));
    assert s.procs[pid := Loaded("s", late)][pid := if late then Expiring("s") else Asking("s", false)]
        == s.procs[pid := if late then Expiring("s") else Asking("s", false)];
  }

  function Start2(): seq<Event> { [Push(0, "s", P), InsertRow(0)] }

  function TwoLatePolls(): seq<Event> {
    Start2() + [PollLoad(1, 1, "s", true), PollKind(1)] + [PollLoad(2, 1, "s", true), PollKind(2)]
        + [DeleteLate(1), DeleteLate(2)]
  }

  /** Two polls past the deadline: the second answers COMPLETE though nobody signed anything. */
  lemma {:induction false} LateCompleteCanBeFalse()
    ensures AnswersAreFinal(TwoLatePolls())
    ensures Run(TwoLatePolls()).reports == [Report("s", DeletingLate(false))] && Run(TwoLatePolls()).ledger == []
  {
    hide RunFrom, Apply;
    var a, b, c := Start2(), [PollLoad(1, 1, "s", true), PollKind(1)], [PollLoad(2, 1, "s", true), PollKind(2)];
    var d := [DeleteLate(1), DeleteLate(2)];
    RunJoins(Empty(), a + b + c, d);
    RunJoins(Empty(), a + b, c);
    RunJoins(Empty(), a, b);
    Started();
    var s := RunFrom(Empty(), a);
    PollBegins(s, 1, true);
    PollBegins(Goes(s, 1, Expiring("s")), 2, true);
    var t := Goes(Goes(s, 1, Expiring("s")), 2, Expiring("s"));
    TwoSteps(t, DeleteLate(1), DeleteLate(2));
    LateDeletes(t);
  }

  lemma {:induction false} LateDeletes(t: State)
    requires At(t, 1) == Some(Expiring("s")) && At(t, 2) == Some(Expiring("s")) && Unspent(t, "s")
    ensures Apply(Apply(t, DeleteLate(1)), DeleteLate(2)).reports == t.reports + [Report("s", DeletingLate(false))]
    ensures Apply(Apply(t, DeleteLate(1)), DeleteLate(2)).ledger == t.ledger
  {}

  function ProviderChangesItsMind(): seq<Event> {
    Start2() + [PollLoad(1, 1, "s", false), PollKind(1)] + [PollLoad(2, 1, "s", false), PollKind(2)]
    + [Answered("s", Complete(P.reg)), Ask(1, true)] + [Answered("s", Refused), Ask(2, true)]
        + [WriteSignature(1, true), Drop(2)]
  }

  /** Finality is needed: were a rail to say COMPLETE and then REFUSED, the row of a signature would go. */
  lemma {:induction false} FinalityIsNeeded()
    ensures Run(ProviderChangesItsMind()).ledger == [Row(1, P.reg, Some("s"))]
    ensures "s" !in Run(ProviderChangesItsMind()).sessions
  {
    var a, b, c := Start2(), [PollLoad(1, 1, "s", false), PollKind(1)], [PollLoad(2, 1, "s", false), PollKind(2)];
    var d, e, f := [Answered("s", Complete(P.reg)), Ask(1, true)], [Answered("s", Refused), Ask(2, true)],
        [WriteSignature(1, true), Drop(2)];
    RunJoins(Empty(), a + b + c + d + e, f);
    RunJoins(Empty(), a + b + c + d, e);
    RunJoins(Empty(), a + b + c, d);
    RunJoins(Empty(), a + b, c);
    RunJoins(Empty(), a, b);
    Started();
    var s := RunFrom(Empty(), a);
    PollBegins(s, 1, false);
    PollBegins(Goes(s, 1, Asking("s", false)), 2, false);
    var t := Goes(Goes(s, 1, Asking("s", false)), 2, Asking("s", false));
    YesThenNo(t, d, e, f);
    hide RunFrom, Apply;
  }

  lemma {:induction false} YesThenNo(t: State, d: seq<Event>, e: seq<Event>, f: seq<Event>)
    requires At(t, 1) == Some(Asking("s", false)) && At(t, 2) == Some(Asking("s", false)) && Unspent(t, "s")
    requires "s" in t.minted && t.minted["s"] == P && t.ledger == []
    requires d == [Answered("s", Complete(P.reg)), Ask(1, true)] && e == [Answered("s", Refused), Ask(2, true)]
    requires f == [WriteSignature(1, true), Drop(2)]
    ensures RunFrom(RunFrom(RunFrom(t, d), e), f).ledger == [Row(1, P.reg, Some("s"))]
    ensures "s" !in RunFrom(RunFrom(RunFrom(t, d), e), f).sessions
  {
    SaysYes(t);
    var u := RunFrom(t, d);
    SaysNo(u);
    WritesAndDrops(RunFrom(u, e));
    hide RunFrom, Apply;
  }

  lemma {:induction false} SaysYes(t: State)
    requires At(t, 1) == Some(Asking("s", false)) && "s" in t.minted && t.minted["s"] == P
    ensures RunFrom(t, [Answered("s", Complete(P.reg)), Ask(1, true)])
            == Goes(t.(answers := t.answers["s" := Complete(P.reg)]), 1, Writing("s", false))
  {
    TwoSteps(t, Answered("s", Complete(P.reg)), Ask(1, true));
  }

  lemma {:induction false} SaysNo(t: State)
    requires At(t, 2) == Some(Asking("s", false)) && "s" in t.minted
    ensures RunFrom(t, [Answered("s", Refused), Ask(2, true)])
            == Goes(t.(answers := t.answers["s" := Refused]), 2, Dropping("s"))
  {
    TwoSteps(t, Answered("s", Refused), Ask(2, true));
  }

  lemma {:induction false} WritesAndDrops(t: State)
    requires At(t, 1) == Some(Writing("s", false)) && At(t, 2) == Some(Dropping("s"))
    requires Unspent(t, "s") && "s" in t.minted && t.minted["s"] == P
    ensures var u := RunFrom(t, [WriteSignature(1, true), Drop(2)]);
            u.ledger == t.ledger + [Row(1, P.reg, Some("s"))] && "s" !in u.sessions
  {
    TwoSteps(t, WriteSignature(1, true), Drop(2));
  }

  /** So that run is not one whose answers are final. */
  lemma {:induction false} ThatRunIsNotFinal()
    ensures !AnswersAreFinal(ProviderChangesItsMind())
  {
    if AnswersAreFinal(ProviderChangesItsMind()) {
      FinalityIsNeeded();
      SpentExactlyWhenSigned(ProviderChangesItsMind(), "s");
    }
  }
}
