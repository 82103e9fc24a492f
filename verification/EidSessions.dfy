/** What every run of the eID ceremonies' statements guarantees, interleaved as it may be. */
module EidSessions {
  import opened Wrappers
  import opened EidSteps

  /** The provider's answers are final in this run: a later word on a ceremony repeats the first. */
  ghost predicate AnswersAreFinal(events: seq<Event>) {
    forall k | 0 <= k < |events| && events[k].Answered? && events[k].sid in Run(events[..k]).answers ::
      events[k].answer == Run(events[..k]).answers[events[k].sid]
  }

  lemma {:induction false} RunKeepsInv(events: seq<Event>)
    requires AnswersAreFinal(events)
    ensures Inv(Run(events)) && AnswersFit(Run(events))
  {
    if events != [] {
      var init := events[..|events| - 1];
      assert forall k | 0 <= k <= |init| :: init[..k] == events[..k];
      RunKeepsInv(init);
      hide Inv, Apply, AnswersFit;
      FinalDropsNothing(Run(init), events[|events| - 1]);
      ApplyKeepsInv(Run(init), events[|events| - 1]);
      ApplyKeepsAnswers(Run(init), events[|events| - 1]);
    }
  }

  // ------------------------------------------------------------------ rails that change their mind

  ghost predicate AlwaysSpentIffSigned(events: seq<Event>) {
    forall k | 0 <= k <= |events| :: SpentIffSigned(Run(events[..k]))
  }

  ghost predicate NeverDropsSpent(events: seq<Event>) {
    forall k | 0 <= k < |events| :: !DropsSpent(Run(events[..k]), events[k])
  }

  lemma {:induction false} StepAt(events: seq<Event>, k: nat)
    requires k < |events|
    ensures Run(events[..k + 1]) == Apply(Run(events[..k]), events[k])
  {
    hide Apply;
    assert events[..k + 1][..k] == events[..k];
  }

  lemma {:induction false} InvUpTo(events: seq<Event>, n: nat)
    requires n <= |events| && forall k | 0 <= k < n :: !DropsSpent(Run(events[..k]), events[k])
    ensures Inv(Run(events[..n]))
  {
    if n > 0 {
      InvUpTo(events, n - 1);
      StepAt(events, n - 1);
      hide Inv, Apply, Run, DropsSpent;
      ApplyKeepsInv(Run(events[..n - 1]), events[n - 1]);
    }
  }

  lemma {:induction false} FirstDrop(events: seq<Event>, n: nat) returns (k: nat)
    requires n <= |events| && exists j :: 0 <= j < n && DropsSpent(Run(events[..j]), events[j])
    ensures k < n && DropsSpent(Run(events[..k]), events[k])
    ensures forall j | 0 <= j < k :: !DropsSpent(Run(events[..j]), events[j])
  {
    hide DropsSpent, Run;
    if j :| 0 <= j < n - 1 && DropsSpent(Run(events[..j]), events[j]) {
      k := FirstDrop(events, n - 1);
    } else {
      k := n - 1;
    }
  }

  /** Whatever the rails answer, and change their answers to: ceremonies are spent exactly when they are signed at
      every point of a run exactly when the unguarded DELETE never meets a spent row in it. */
  lemma {:induction false} SpentIsKeptIff(events: seq<Event>)
    ensures AlwaysSpentIffSigned(events) <==> NeverDropsSpent(events)
  {
    if NeverDropsSpent(events) {
      forall k | 0 <= k <= |events| ensures SpentIffSigned(Run(events[..k])) {
        InvUpTo(events, k);
      }
    } else {
      hide Inv, Apply, Run, SpentIffSigned, DropsSpent;
      var k := FirstDrop(events, |events|);
      InvUpTo(events, k);
      StepAt(events, k);
      DropIsNamed(Run(events[..k]), events[k]);
      DropKeepsInvIff(Run(events[..k]), events[k].pid);
    }
  }

  /** A rail that keeps to its first word never brings that about. */
  lemma {:induction false} FinalRunsDropNothing(events: seq<Event>)
    requires AnswersAreFinal(events)
    ensures NeverDropsSpent(events)
  {
    forall k | 0 <= k < |events| ensures !DropsSpent(Run(events[..k]), events[k]) {
      assert forall j | 0 <= j <= k :: events[..k][..j] == events[..j];
      RunKeepsInv(events[..k]);
      FinalDropsNothing(Run(events[..k]), events[k]);
    }
  }

  lemma {:induction false} DropIsNamed(s: State, e: Event)
    requires DropsSpent(s, e)
    ensures e.Drop? && e == Drop(e.pid)
  {}

  // ------------------------------------------------------------------ what every run guarantees

  /** Over any interleaving: a ceremony is spent exactly when the ledger holds one signature of it, never
      more; and that signature names the citizen the request was addressed to, on the document it was for. */
  lemma {:induction false} SpentExactlyWhenSigned(events: seq<Event>, sid: string)
    requires AnswersAreFinal(events)
    ensures var s := Run(events);
            && SignaturesOf(s.ledger, sid) <= 1
            && (SignaturesOf(s.ledger, sid) == 1 <==> sid in s.sessions && s.sessions[sid].consumed)
            && forall k | 0 <= k < |s.ledger| && s.ledger[k].session == Some(sid) ::
                 sid in s.sessions && s.ledger[k].signer == s.sessions[sid].reg
                     && s.ledger[k].doc == s.sessions[sid].doc
  {
    RunKeepsInv(events);
    var s := Run(events);
    forall k | 0 <= k < |s.ledger| && s.ledger[k].session == Some(sid) ensures SignaturesOf(s.ledger, sid) > 0 {
      Counted(s.ledger, sid, k);
    }
    hide SignaturesOf;
  }

  lemma {:induction false} Counted(ledger: seq<Row>, sid: string, k: nat)
    requires k < |ledger| && ledger[k].session == Some(sid)
    ensures SignaturesOf(ledger, sid) > 0
  {
    if k < |ledger| - 1 {
      Counted(ledger[..|ledger| - 1], sid, k);
    }
  }

  lemma {:induction false} SpentStays(s: State, e: Event, sid: string)
    requires Inv(s) && Spent(s, sid) && !DropsSpent(s, e)
    ensures Spent(Apply(s, e), sid) && Apply(s, e).sessions[sid] == s.sessions[sid]
  {
    hide SignaturesOf, SpentIffSigned, ReportsFit, SignedByAddressee, OnePusher;
    if e.Drop? && At(s, e.pid).Some? {
      assert ProcFits(s, s.procs[e.pid]);
    }
  }

  /** The row of a spent ceremony is never deleted, whatever runs beside it. */
  lemma {:induction false} SpentRowsStay(events: seq<Event>, more: seq<Event>, sid: string)
    requires AnswersAreFinal(events + more) && Spent(Run(events), sid)
    ensures Spent(Run(events + more), sid) && Run(events + more).sessions[sid] == Run(events).sessions[sid]
    decreases |more|
  {
    if more == [] {
      assert events + more == events;
    } else {
      var init, last := events + more[..|more| - 1], more[|more| - 1];
      assert (events + more)[..|events + more| - 1] == init;
      assert forall k | 0 <= k <= |init| :: init[..k] == (events + more)[..k];
      SpentRowsStay(events, more[..|more| - 1], sid);
      RunKeepsInv(init);
      FinalDropsNothing(Run(init), last);
      SpentStays(Run(init), last, sid);
      hide Inv, Apply;
    }
  }

  /** Every COMPLETE a poll answered is true, for good, except exactly those of a late poll that deleted no
      row because there was none: no signature of that ceremony exists or ever will. */
  lemma {:induction false} CompleteIsTrueIff(events: seq<Event>, k: nat)
    requires AnswersAreFinal(events) && k < |Run(events).reports|
    ensures var s := Run(events);
            SignaturesOf(s.ledger, s.reports[k].sid) == 1 <==> s.reports[k].via != DeletingLate(false)
  {
    RunKeepsInv(events);
    var s := Run(events);
    assert ReportFits(s, s.reports[k]);
    hide SignaturesOf;
  }
}
