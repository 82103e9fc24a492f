/** Whether a contract's own state says what its parties have answered, over runs of the party-signing statements.

    The trigger recounts while a contract is out; the mark that puts it out, at the end of a send, is written without a
    recount. A party to whom the copy has already gone may have answered before the mark comes. */
module PartyStanding {
  import opened Wrappers
  import opened PartySigning
  import opened PartyTally
  import opened PartyInvariant
  import opened PartyCoverageSteps
  import opened PartyMoves

  /** A contract that is out says what its parties have answered. */
  ghost predicate Stands(s: State) {
    s.contract in {Sent, PartlySigned, Executed, Refused} ==> Says(s.parties, s.contract, s.contract)
  }

  /** Somebody has declined, or somebody whose signature is waited for has given it. */
  ghost predicate SomebodyAnswered(ps: map<int, Party>) {
    exists p :: HasDeclined(ps, p) || (IsAwaited(ps, p) && ps[p].state == Signed)
  }

  /** The mark at the end of a send comes after an answer. */
  ghost predicate MarkedOver(s: State, e: Event) {
    e.MarkSent? && e.pid in s.unmarked && s.contract in {NoContract, Drafting} && SomebodyAnswered(s.parties)
  }

  lemma {:induction false} SentSays(ps: map<int, Party>)
    ensures Says(ps, Sent, Sent) <==> !SomebodyAnswered(ps)
  {
    if p :| HasDeclined(ps, p) {
      var q := SomebodyIsAwaited(ps, p);
    }
  }

  /** What the contract says is of its parties' states alone. */
  lemma {:induction false} SameStates(a: map<int, Party>, b: map<int, Party>, c: Contract)
    requires a.Keys == b.Keys && forall p | p in a ::
               a[p].issuer == b[p].issuer && a[p].required == b[p].required && a[p].state == b[p].state
    requires Says(a, c, c)
    ensures Says(b, c, c)
  {
    forall p ensures MustSign(a, p) <==> MustSign(b, p) {}
    forall p ensures IsAwaited(a, p) <==> IsAwaited(b, p) {}
    forall p ensures HasDeclined(a, p) <==> HasDeclined(b, p) {}
    hide IsAwaited, HasDeclined;
  }

  lemma {:induction false} SessionsAside(s: State, e: Event)
    requires e.StartLock? || e.PollClear?
    ensures var t := Apply(s, e);
            t.contract == s.contract && t.parties.Keys == s.parties.Keys
            && forall p | p in s.parties ::
                 t.parties[p].issuer == s.parties[p].issuer && t.parties[p].required == s.parties[p].required
                 && t.parties[p].state == s.parties[p].state
  {
    hide Apply;
    ApplyWrites(s, e);
  }

  lemma {:induction false} MarkLeavesParties(s: State, e: Event)
    requires e.MarkSent? || e.BecomesContract?
    ensures Apply(s, e).parties == s.parties
  {
    hide Apply;
    ApplyWrites(s, e);
  }

  /** A statement leaves a contract's state true exactly when it is not the mark after an answer. */
  lemma {:induction false} StepStandsIff(s: State, e: Event)
    requires Stands(s)
    ensures Stands(Apply(s, e)) <==> !MarkedOver(s, e)
  {
    hide Apply, Says, SomebodyAnswered;
    var t := Apply(s, e);
    ContractMovesAre(s, e);
    if e.StartLock? || e.PollClear? {
      SessionsAside(s, e);
      if Out(s.contract) { SameStates(s.parties, t.parties, s.contract); }
    } else if e.MarkSent? || e.BecomesContract? {
      MarkLeavesParties(s, e);
      SentSays(s.parties);
      if Says(t.parties, s.contract, t.contract) { SaysSettles(t.parties, s.contract, t.contract); }
    } else if Says(t.parties, s.contract, t.contract) {
      SaysSettles(t.parties, s.contract, t.contract);
    }
  }

  ghost predicate AlwaysStands(events: seq<Event>) {
    forall k | 0 <= k <= |events| :: Stands(Run(events[..k]))
  }

  ghost predicate NeverMarkedOver(events: seq<Event>) {
    forall k | 0 <= k < |events| :: !MarkedOver(Run(events[..k]), events[k])
  }

  lemma {:induction false} StandsUpTo(events: seq<Event>, n: nat)
    requires n <= |events| && forall k | 0 <= k < n :: !MarkedOver(Run(events[..k]), events[k])
    ensures Stands(Run(events[..n]))
  {
    if n > 0 {
      hide Stands, Apply, MarkedOver;
      StandsUpTo(events, n - 1);
      assert events[..n][..n - 1] == events[..n - 1];
      StepStandsIff(Run(events[..n - 1]), events[n - 1]);
    }
  }

  lemma {:induction false} FirstMarkedOver(events: seq<Event>, n: nat) returns (k: nat)
    requires n <= |events| && exists j :: 0 <= j < n && MarkedOver(Run(events[..j]), events[j])
    ensures k < n && MarkedOver(Run(events[..k]), events[k])
    ensures forall j | 0 <= j < k :: !MarkedOver(Run(events[..j]), events[j])
  {
    hide MarkedOver, Run;
    if j :| 0 <= j < n - 1 && MarkedOver(Run(events[..j]), events[j]) {
      k := FirstMarkedOver(events, n - 1);
    } else {
      k := n - 1;
    }
  }

  /** In any run, interleaved as it may be: a contract that is out says at every point what its parties have answered
      exactly when no mark at the end of a send ever came after an answer. */
  lemma {:induction false} StandsIff(events: seq<Event>)
    ensures AlwaysStands(events) <==> NeverMarkedOver(events)
  {
    hide Stands, Apply, MarkedOver;
    if NeverMarkedOver(events) {
      forall k | 0 <= k <= |events| ensures Stands(Run(events[..k])) {
        StandsUpTo(events, k);
      }
    } else {
      var k := FirstMarkedOver(events, |events|);
      StandsUpTo(events, k);
      assert events[..k + 1][..k] == events[..k];
      StepStandsIff(Run(events[..k]), events[k]);
      assert !Stands(Run(events[..k + 1]));
    }
  }

  // ------------------------------------------------------------------ an answer before the mark

  function EarlyAnswer(): seq<Event> {
    [AddParty(1, false, true, None, false), BecomesContract, StoreCopy(0, 1, "copy"), Decline(1), MarkSent(0)]
  }

  /** One party, not the issuer, of a contract that is still a draft. */
  ghost predicate OneParty(s: State, state: PartyState) {
    s.contract == Drafting && s.parties == map[1 := Party(false, true, None, state, None, None)]
  }

  lemma {:induction false} Drafted()
    ensures OneParty(Apply(Apply(Empty(), AddParty(1, false, true, None, false)), BecomesContract), Draft)
  {
    hide Apply;
    ApplyWrites(Empty(), AddParty(1, false, true, None, false));
    ApplyWrites(Apply(Empty(), AddParty(1, false, true, None, false)), BecomesContract);
  }

  lemma {:induction false} SentAndDeclined(s: State)
    requires OneParty(s, Draft)
    ensures var t := Apply(Apply(s, StoreCopy(0, 1, "copy")), Decline(1)); OneParty(t, Declined) && 0 in t.unmarked
  {
    hide Apply;
    ApplyWrites(s, StoreCopy(0, 1, "copy"));
    ApplyWrites(Apply(s, StoreCopy(0, 1, "copy")), Decline(1));
    StillUnmarked(s);
  }

  /** A party that declines before the mark: the contract goes on saying SENT. */
  lemma {:induction false} EarlyAnswerIsMarkedOver()
    ensures var s := Run(EarlyAnswer());
            s.contract == Sent && 1 in s.parties && s.parties[1].state == Declined && !Stands(s)
  {
    hide Apply;
    FiveSteps(EarlyAnswer());
    Drafted();
    var s := Apply(Apply(Empty(), AddParty(1, false, true, None, false)), BecomesContract);
    SentAndDeclined(s);
    var t := Apply(Apply(s, StoreCopy(0, 1, "copy")), Decline(1));
    ApplyWrites(t, MarkSent(0));
    assert HasDeclined(t.parties, 1);
    SentSays(t.parties);
    hide Says, RunFrom;
  }

  lemma {:induction false} FiveSteps(e: seq<Event>)
    requires |e| == 5
    ensures Run(e) == Apply(Apply(Apply(Apply(Apply(Empty(), e[0]), e[1]), e[2]), e[3]), e[4])
  {
    hide Apply;
    assert e[..4][..3] == e[..3] && e[..3][..2] == e[..2] && e[..2][..1] == e[..1] && e[..1][..0] == [];
    assert RunFrom(Empty(), e[..1]) == Apply(Empty(), e[0]);
    assert RunFrom(Empty(), e[..2]) == Apply(RunFrom(Empty(), e[..1]), e[1]);
    assert RunFrom(Empty(), e[..3]) == Apply(RunFrom(Empty(), e[..2]), e[2]);
    assert RunFrom(Empty(), e[..4]) == Apply(RunFrom(Empty(), e[..3]), e[3]);
  }

  /** A send that has stored a copy is still to mark the contract, whoever declines. */
  lemma {:induction false} StillUnmarked(s: State)
    requires OneParty(s, Draft)
    ensures 0 in Apply(Apply(s, StoreCopy(0, 1, "copy")), Decline(1)).unmarked
  {
    hide Apply, Desk, SetParty;
    var t := Apply(s, StoreCopy(0, 1, "copy"));
    ApplyWrites(s, StoreCopy(0, 1, "copy"));
    Parts(s, StoreCopy(0, 1, "copy"));
    StoringIs(s, 0, 1, "copy");
    MarksItself(s);
    Parts(t, Decline(1));
    DeclineMarksNothing(t);
  }

  lemma {:induction false} MarksItself(s: State)
    requires 1 in s.parties && !s.parties[1].issuer
    ensures 0 in StoreStep(s, 0, 1, "copy").unmarked
  {
    hide Tally;
  }

  lemma {:induction false} DeclineMarksNothing(t: State)
    ensures Desk(t, Decline(1)).unmarked == t.unmarked
  {
    hide Tally;
  }
}
