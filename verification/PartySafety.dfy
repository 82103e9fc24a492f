/** What every run of the party-signing statements keeps, interleaved as it may be. */
module PartySafety {
  import opened Wrappers
  import opened PartySigning
  import opened PartyInvariant

  lemma {:induction false} RunKeepsInv(events: seq<Event>)
    ensures Inv(Run(events))
  {
    if events != [] {
      RunKeepsInv(events[..|events| - 1]);
      ApplyKeepsInv(Run(events[..|events| - 1]), events[|events| - 1]);
      hide Inv;
    }
  }

  /** In every run: a party is signed exactly when the ledger holds one row of it, never two; and that row is
      of the signatory for whom the session in force was opened, still registered and marked signed. */
  lemma {:induction false} SignedExactlyOnce(events: seq<Event>, party: int)
    ensures var s := Run(events);
            && ((party in s.parties && s.parties[party].state == Signed) <==> exists k :: RowOf(s.ledger, k, party))
            && (forall j, k | RowOf(s.ledger, j, party) && RowOf(s.ledger, k, party) :: j == k)
            && (forall k | RowOf(s.ledger, k, party) ::
                  var row := s.ledger[k];
                  && row.session in s.rail && s.rail[row.session].party == party
                  && s.rail[row.session].signatory == row.signatory && s.rail[row.session].reg == row.reg
                  && row.signatory in s.signatories
                     && s.signatories[row.signatory]
                     == Signatory(party, row.reg, s.signatories[row.signatory].user, true))
  {
    RunKeepsInv(events);
    var s := Run(events);
    forall k | RowOf(s.ledger, k, party)
        ensures RowFits(s, s.ledger[k])
        && SameSignatory(s, s.rail[s.ledger[k].session].signatory, party, s.ledger[k].reg) {
      assert RowFits(s, s.ledger[k]);
    }
    hide Run, CopiesFit, PartiesFit, ProcsFit;
  }

  /** Whatever is resent, declined, withdrawn, reopened or removed meanwhile, a signed party stays signed
      and undeleted, and its frozen and signed bytes never change. */
  lemma {:induction false} SignedIsFinal(events: seq<Event>, more: seq<Event>, party: int)
    requires party in Run(events).parties && Run(events).parties[party].state == Signed
    ensures SignedKept(Run(events), Run(events + more), party)
    decreases |more|
  {
    RunKeepsInv(events);
    assert PartyFits(Run(events), party, Run(events).parties[party]);
    if more == [] {
      assert events + more == events;
    } else {
      var init := events + more[..|more| - 1];
      assert (events + more)[..|events + more| - 1] == init;
      SignedIsFinal(events, more[..|more| - 1], party);
      RunKeepsInv(init);
      SignedStays(Run(init), more[|more| - 1], party);
      hide Inv, Apply, PartyFits;
    }
  }

  /** The check of the bytes never refuses: a copy is compared with its own hash, which is always its own. */
  lemma {:induction false} BytesCheckNeverFires(events: seq<Event>, pid: int)
    requires At(Run(events), pid).Some? && At(Run(events), pid).value.Polling?
    ensures var p := At(Run(events), pid).value; Sha(p.content) == p.sha
  {
    RunKeepsInv(events);
    assert ProcFits(Run(events), Run(events).procs[pid]);
  }

  /** A row covers the bytes the rail was given exactly when the two copies on record, the poll's and the start's,
      are the same bytes; so it does when they are one copy. */
  lemma {:induction false} CoversWhatWasSent(events: seq<Event>, k: nat)
    requires k < |Run(events).ledger|
    ensures var s := Run(events);
            var row := s.ledger[k];
            && row.session in s.rail && (row.party, row.copy) in s.history
               && (row.party, s.rail[row.session].copy) in s.history
            && (row.covered == Sha(s.rail[row.session].sent)
                <==> s.history[(row.party, row.copy)] == s.history[(row.party, s.rail[row.session].copy)])
            && (row.copy == s.rail[row.session].copy ==> row.covered == Sha(s.rail[row.session].sent))
  {
    RunKeepsInv(events);
    var s := Run(events);
    assert RowFits(s, s.ledger[k]);
    hide Run;
  }
}
