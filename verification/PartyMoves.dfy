/** The life of each row of a contract with other parties: which statements bring it, change it and take it away, and
    under what condition, in any interleaving. PartySigning says what each statement does; this says it row by row.

    Writes puts what one statement leaves in the tables as a relation between the tables before and after; one lemma for
    each statement shows that the step is so related, and the lemmas row by row rest on that alone. At the end the same
    for a handler in flight: when it goes on, and what it carries. */
module PartyMoves {
  import opened Wrappers
  import opened PartySigning
  import opened PartyInvariant
  import opened PartyCoverageSteps
  import opened PartyTally

  /** The statement records this party's signature: it finds the ceremony it polled still open, for the signatory it
      polled, who has not signed, and no signature of the party on the ledger. */
  ghost predicate Records(s: State, e: Event, p: int) {
    && e.PollRecord? && e.pid in s.procs && s.procs[e.pid].Recording? && s.procs[e.pid].party == p
    && var proc := s.procs[e.pid];
       && p in s.parties && s.parties[p].session == Some(proc.sid) && s.parties[p].state in {Invited, Viewed}
       && proc.signatory in s.signatories
       && s.signatories[proc.signatory].party == p && s.signatories[proc.signatory].reg == proc.reg
       && !s.signatories[proc.signatory].signed
       && forall k | 0 <= k < |s.ledger| :: s.ledger[k].party != p
  }

  /** The statement deletes this party. */
  ghost predicate Removes(s: State, e: Event, p: int) {
    && e.RemoveParty? && e.id == p && (e.stale || s.contract != Executed)
    && p in s.parties && s.parties[p].state in {Draft, Declined, Withdrawn, Expired}
  }

  /** What a statement makes of a party that stays. */
  ghost function Moved(s: State, e: Event, p: int): Party
    requires p in s.parties
  {
    var was := s.parties[p];
    match e
    case StoreCopy(_, party, _) =>
      if party == p && !was.issuer && was.state == Draft then was.(state := Invited) else was
    case View(party) => if party == p && was.state == Invited then was.(state := Viewed) else was
    case Decline(party) =>
      if party == p && was.state in {Invited, Viewed} then was.(state := Declined, session := None, signer := None)
      else was
    case Withdraw(stale) =>
      if (stale || s.contract != Executed) && !was.issuer && was.state in {Draft, Invited, Viewed}
      then was.(state := Withdrawn, session := None, signer := None) else was
    case Reopen(stale) =>
      if (stale || s.contract == Recalled) && was.state == Withdrawn then was.(state := Draft) else was
    case StartLock(pid, abandoned) =>
      if pid in s.procs && s.procs[pid].Pushed? && s.procs[pid].party == p && s.procs[pid].sid in s.rail
          && was.state in {Invited, Viewed} && (was.session.None? || abandoned)
      then was.(session := Some(s.procs[pid].sid), signer := Some(s.rail[s.procs[pid].sid].signatory)) else was
    case PollClear(pid) =>
      if pid in s.procs && s.procs[pid].Clearing? && s.procs[pid].party == p && was.session == Some(s.procs[pid].sid)
      then was.(session := None, signer := None) else was
    case PollRecord(_) =>
      if Records(s, e, p) then was.(state := Signed, session := None, signer := None) else was
    case _ => was
  }

  // ------------------------------------------------------------------ what each statement writes

  /** The contract's state after the trigger. */
  ghost function Counted(ps: map<int, Party>, c: Contract): Contract {
    if Out(c) then Tally(ps, c) else c
  }

  /** Only the parties and the contract's state differ. */
  ghost predicate OnlyParties(s: State, t: State) {
    t.copies == s.copies && t.signatories == s.signatories && t.ledger == s.ledger
  }

  /** What a statement writes in the tables, from `s` to `t`. */
  ghost predicate Writes(s: State, e: Event, t: State) {
    match e
    case AddParty(id, issuer, required, order, stale) =>
      && OnlyParties(s, t)
      && if id !in s.known && (stale || (s.contract in {NoContract, Drafting} && s.ledger == []))
         then && t.parties == s.parties[id := Party(issuer, required, order, Draft, None, None)]
              && t.contract == Counted(t.parties, s.contract)
         else t.parties == s.parties && t.contract == s.contract
    case BecomesContract =>
      && OnlyParties(s, t) && t.parties == s.parties
      && t.contract == if s.contract == NoContract then Drafting else s.contract
    case RemoveParty(id, _) =>
      && t.ledger == s.ledger
      && if Removes(s, e, id)
         then && t.parties == s.parties - {id} && t.copies == s.copies - {id}
              && (forall g :: g in t.signatories <==> g in s.signatories && s.signatories[g].party != id)
              && (forall g | g in t.signatories :: t.signatories[g] == s.signatories[g])
              && t.contract == Counted(t.parties, s.contract)
         else OnlyParties(s, t) && t.parties == s.parties && t.contract == s.contract
    case AddSignatory(id, party, reg, user) =>
      && t.parties == s.parties && t.copies == s.copies && t.ledger == s.ledger && t.contract == s.contract
      && t.signatories == if id !in s.known && party in s.parties
                          then s.signatories[id := Signatory(party, reg, user, false)] else s.signatories
    case RemoveSignatory(id) =>
      && t.parties == s.parties && t.copies == s.copies && t.ledger == s.ledger && t.contract == s.contract
      && t.signatories == if id in s.signatories && !s.signatories[id].signed
                          then s.signatories - {id} else s.signatories
    case StoreCopy(_, p, content) =>
      && t.signatories == s.signatories && t.ledger == s.ledger
      && if p in s.parties && !s.parties[p].issuer
         then && t.parties == s.parties[p := Moved(s, e, p)]
              && t.copies == (if p in s.copies && s.copies[p].signed.Some? then s.copies
                              else s.copies[p := Copy(content, Sha(content), None)])
              && t.contract == Counted(t.parties, s.contract)
         else t.copies == s.copies && t.parties == s.parties && t.contract == s.contract
    case MarkSent(pid) =>
      && OnlyParties(s, t) && t.parties == s.parties
      && t.contract == if pid in s.unmarked && s.contract in {NoContract, Drafting} then Sent else s.contract
    case View(p) =>
      && OnlyParties(s, t)
      && if p in s.parties && s.parties[p].state == Invited
         then t.parties == s.parties[p := Moved(s, e, p)] && t.contract == Counted(t.parties, s.contract)
         else t.parties == s.parties && t.contract == s.contract
    case Decline(p) =>
      && OnlyParties(s, t)
      && if p in s.parties && s.parties[p].state in {Invited, Viewed}
         then t.parties == s.parties[p := Moved(s, e, p)] && t.contract == Counted(t.parties, s.contract)
         else t.parties == s.parties && t.contract == s.contract
    case Withdraw(stale) =>
      && OnlyParties(s, t) && t.parties.Keys == s.parties.Keys
      && (forall p | p in t.parties :: t.parties[p] == Moved(s, e, p))
      && t.contract == if stale || s.contract != Executed then Recalled else s.contract
    case Reopen(stale) =>
      && t.signatories == s.signatories && t.ledger == s.ledger && t.parties.Keys == s.parties.Keys
      && (forall p | p in t.parties :: t.parties[p] == Moved(s, e, p))
      && (forall p :: p in t.copies
            <==> && p in s.copies
                 && !((stale || s.contract == Recalled) && p in s.parties
                      && s.parties[p].state in {Draft, Withdrawn} && s.copies[p].signed.None?))
      && (forall p | p in t.copies :: t.copies[p] == s.copies[p])
      && t.contract == if stale || s.contract == Recalled then Drafting else s.contract
    case StartLock(_, _) =>
      && OnlyParties(s, t) && t.contract == s.contract && t.parties.Keys == s.parties.Keys
      && forall p | p in t.parties :: t.parties[p] == Moved(s, e, p)
    case PollClear(_) =>
      && OnlyParties(s, t) && t.contract == s.contract && t.parties.Keys == s.parties.Keys
      && forall p | p in t.parties :: t.parties[p] == Moved(s, e, p)
    case PollRecord(pid) =>
      if pid in s.procs && s.procs[pid].Recording? && Records(s, e, s.procs[pid].party)
      then var q := s.procs[pid];
           && t.parties == s.parties[q.party := Moved(s, e, q.party)]
           && t.copies == (if q.party in s.copies
                           then s.copies[q.party := s.copies[q.party].(signed := Some(q.pdf))] else s.copies)
           && t.signatories == s.signatories[q.signatory := s.signatories[q.signatory].(signed := true)]
           && t.ledger == s.ledger + [Row(q.party, q.signatory, q.reg, q.sid, q.sha, q.copy)]
           && t.contract == Counted(t.parties, s.contract)
      else OnlyParties(s, t) && t.parties == s.parties && t.contract == s.contract
    case _ => OnlyParties(s, t) && t.parties == s.parties && t.contract == s.contract
  }

  lemma {:induction false} SetIs(s: State, id: int, p: Party)
    ensures var t := SetParty(s, id, p);
            OnlyParties(s, t) && t.parties == s.parties[id := p] && t.contract == Counted(t.parties, s.contract)
  {
    hide Tally;
  }

  lemma {:induction false} StartWritesNothing(s: State, e: Event)
    requires e.StartCheck? || e.StartPick? || e.StartPush?
    ensures OnlyParties(s, Start(s, e)) && Start(s, e).parties == s.parties && Start(s, e).contract == s.contract
  {
    hide Start;
    match e
    case StartCheck(pid, party) => CheckingIs(s, pid, party);
    case StartPick(pid, signatory) => PickingIs(s, pid, signatory);
    case StartPush(pid, sid) => PushingIs(s, pid, sid);
  }

  lemma {:induction false} AnswerWritesNothing(s: State, sid: string, answer: Answer)
    ensures var t := Poll(s, RailAnswers(sid, answer));
            OnlyParties(s, t) && t.parties == s.parties && t.contract == s.contract
  {
    hide Record;
  }

  lemma {:induction false} PollWritesNothing(s: State, e: Event)
    requires e.RailAnswers? || e.PollRead? || e.PollRail?
    ensures OnlyParties(s, Poll(s, e)) && Poll(s, e).parties == s.parties && Poll(s, e).contract == s.contract
  {
    hide Poll;
    match e
    case RailAnswers(sid, answer) => AnswerWritesNothing(s, sid, answer);
    case PollRead(pid, party) => ReadingIs(s, pid, party);
    case PollRail(pid) => AskingIs(s, pid);
  }

  lemma {:induction false} MarkStep(s: State, pid: int)
    ensures Desk(s, MarkSent(pid))
            == if pid !in s.unmarked then s
               else s.(unmarked := s.unmarked - {pid}, contract := if Unsent(s.contract) then Sent else s.contract)
  {
    hide StoreStep, RemoveStep, WithdrawStep, ReopenStep, SetParty, Removable, Answerable;
  }

  lemma {:induction false} MarkWrites(s: State, pid: int)
    ensures Writes(s, MarkSent(pid), Desk(s, MarkSent(pid)))
  {
    hide Desk;
    MarkStep(s, pid);
  }

  lemma {:induction false} BecomingStep(s: State)
    ensures Desk(s, BecomesContract) == if s.contract == NoContract then s.(contract := Drafting) else s
  {
    hide StoreStep, RemoveStep, WithdrawStep, ReopenStep, SetParty, Removable, Answerable;
  }

  lemma {:induction false} BecomingWrites(s: State)
    ensures Writes(s, BecomesContract, Desk(s, BecomesContract))
  {
    hide Desk;
    BecomingStep(s);
  }

  lemma {:induction false} AddWrites(s: State, id: int, issuer: bool, required: bool, order: Option<int>, stale: bool)
    ensures var e := AddParty(id, issuer, required, order, stale); Writes(s, e, Desk(s, e))
  {
    hide SetParty;
    SetIs(s.(known := s.known + {id}), id, Party(issuer, required, order, Draft, None, None));
  }

  lemma {:induction false} RemoveStepWrites(s: State, id: int)
    ensures var t := RemoveStep(s, id);
            && t.ledger == s.ledger
            && if id in s.parties && s.parties[id].state in {Draft, Declined, Withdrawn, Expired}
               then && t.parties == s.parties - {id} && t.copies == s.copies - {id}
                    && (forall g :: g in t.signatories <==> g in s.signatories && s.signatories[g].party != id)
                    && (forall g | g in t.signatories :: t.signatories[g] == s.signatories[g])
                    && t.contract == Counted(t.parties, s.contract)
               else t == s
  {
    hide Refresh;
    if id in s.parties && Removable(s.parties[id]) {
      RefreshWrites(s.(parties := s.parties - {id}, copies := s.copies - {id},
          signatories := map g | g in s.signatories && s.signatories[g].party != id :: s.signatories[g]));
    }
  }

  lemma {:induction false} RefreshWrites(u: State)
    ensures var t := Refresh(u);
            && t.parties == u.parties && t.copies == u.copies && t.signatories == u.signatories && t.ledger == u.ledger
            && t.contract == Counted(u.parties, u.contract)
  {
    hide Tally, Awaited, SignedOnes, DeclinedOnes, Mandatory, Delivered;
    if Out(u.contract) {
      assert Refresh(u) == u.(contract := Tally(u.parties, u.contract));
    } else {
      assert Refresh(u) == u;
    }
  }

  lemma {:induction false} RemovingIs(s: State, id: int, stale: bool)
    ensures Desk(s, RemoveParty(id, stale)) == if stale || s.contract != Executed then RemoveStep(s, id) else s
    ensures Desk(s, Withdraw(stale)) == if stale || s.contract != Executed then WithdrawStep(s) else s
    ensures Desk(s, Reopen(stale)) == if stale || s.contract == Recalled then ReopenStep(s) else s
  {
    hide RemoveStep, WithdrawStep, ReopenStep, StoreStep, SetParty;
  }

  lemma {:induction false} NamingStep(s: State, id: int, party: int, reg: string, user: string)
    ensures Desk(s, AddSignatory(id, party, reg, user))
            == if id in s.known || party !in s.parties then s
               else s.(known := s.known + {id},
                       signatories := s.signatories[id := Signatory(party, reg, user, false)])
  {
    hide StoreStep, RemoveStep, WithdrawStep, ReopenStep, SetParty, Removable, Answerable;
  }

  lemma {:induction false} NamingWrites(s: State, id: int, party: int, reg: string, user: string)
    ensures var e := AddSignatory(id, party, reg, user); Writes(s, e, Desk(s, e))
  {
    hide Desk;
    NamingStep(s, id, party, reg, user);
  }

  lemma {:induction false} UnnamingStep(s: State, id: int)
    ensures Desk(s, RemoveSignatory(id))
            == if id in s.signatories && !s.signatories[id].signed then s.(signatories := s.signatories - {id}) else s
  {
    hide StoreStep, RemoveStep, WithdrawStep, ReopenStep, SetParty, Removable, Answerable;
  }

  lemma {:induction false} UnnamingWrites(s: State, id: int)
    ensures Writes(s, RemoveSignatory(id), Desk(s, RemoveSignatory(id)))
  {
    hide Desk;
    UnnamingStep(s, id);
  }

  lemma {:induction false} StoreWrites(s: State, pid: int, p: int, content: string)
    ensures var t := StoreStep(s, pid, p, content);
            && t.signatories == s.signatories && t.ledger == s.ledger
            && if p in s.parties && !s.parties[p].issuer
               then && t.parties == s.parties[p := if s.parties[p].state == Draft
                                                   then s.parties[p].(state := Invited) else s.parties[p]]
                    && t.copies == (if p in s.copies && s.copies[p].signed.Some? then s.copies
                                    else s.copies[p := Copy(content, Sha(content), None)])
                    && t.contract == Counted(t.parties, s.contract)
               else t == s
  {
    hide Tally;
  }

  lemma {:induction false} ReadWrites(s: State, p: int)
    ensures Writes(s, View(p), Desk(s, View(p))) && Writes(s, Decline(p), Desk(s, Decline(p)))
  {
    hide SetParty;
    if p in s.parties {
      SetIs(s, p, s.parties[p].(state := Viewed));
      SetIs(s, p, s.parties[p].(state := Declined, session := None, signer := None));
    }
  }

  lemma {:induction false} WithdrawWrites(s: State)
    ensures var t := WithdrawStep(s);
            && OnlyParties(s, t) && t.contract == Recalled && t.parties.Keys == s.parties.Keys
            && forall p | p in t.parties ::
                 t.parties[p] == if !s.parties[p].issuer && s.parties[p].state in {Draft, Invited, Viewed}
                                 then s.parties[p].(state := Withdrawn, session := None, signer := None)
                                 else s.parties[p]
  {}

  lemma {:induction false} ReopenWrites(s: State)
    ensures var t := ReopenStep(s);
            && t.signatories == s.signatories && t.ledger == s.ledger
            && t.contract == Drafting && t.parties.Keys == s.parties.Keys
            && (forall p | p in t.parties ::
                  t.parties[p] == if s.parties[p].state == Withdrawn then s.parties[p].(state := Draft)
                                  else s.parties[p])
            && (forall p :: p in t.copies
                  <==> && p in s.copies
                       && !(p in s.parties && s.parties[p].state in {Draft, Withdrawn} && s.copies[p].signed.None?))
            && forall p | p in t.copies :: t.copies[p] == s.copies[p]
  {}

  lemma {:induction false} LockWrites(s: State, pid: int, abandoned: bool)
    ensures Writes(s, StartLock(pid, abandoned), Start(s, StartLock(pid, abandoned)))
  {
    hide Start, Records, Removes, Counted;
    if At(s, pid).Some? && At(s, pid).value.Pushed? {
      LockStep(s, pid, At(s, pid).value.party, At(s, pid).value.sid, abandoned);
    } else {
      NoLockStep(s, pid, abandoned);
    }
  }

  lemma {:induction false} ClearWrites(s: State, pid: int)
    ensures Writes(s, PollClear(pid), Poll(s, PollClear(pid)))
  {
    hide Poll, Records, Removes, Counted;
    if At(s, pid).Some? && At(s, pid).value.Clearing? {
      ClearStep(s, pid, At(s, pid).value.party, At(s, pid).value.sid);
    } else {
      NoClearStep(s, pid);
    }
  }

  lemma {:induction false} RecordIff(s: State, pid: int, q: Proc)
    requires pid in s.procs && s.procs[pid] == q && q.Recording?
    ensures Record(s, pid, q)
            == if Records(s, PollRecord(pid), q.party)
               then SetParty(Written(s, pid, q), q.party,
                             s.parties[q.party].(state := Signed, session := None, signer := None))
               else Ends(s, pid)
  {
    hide SetParty;
  }

  lemma {:induction false} RecordsMeans(s: State, e: Event, p: int)
    requires Records(s, e, p)
    ensures e.PollRecord? && e.pid in s.procs && s.procs[e.pid].Recording? && s.procs[e.pid].party == p
    ensures s.procs[e.pid].signatory in s.signatories && s.signatories[s.procs[e.pid].signatory].party == p
  {}

  lemma {:induction false} RecordedWrites(s: State, pid: int, q: Proc)
    requires pid in s.procs && s.procs[pid] == q && q.Recording? && Records(s, PollRecord(pid), q.party)
    ensures Writes(s, PollRecord(pid), SetParty(Written(s, pid, q), q.party,
              s.parties[q.party].(state := Signed, session := None, signer := None)))
  {
    var p := s.parties[q.party].(state := Signed, session := None, signer := None);
    assert Moved(s, PollRecord(pid), q.party) == p;
    hide SetParty, Counted, Removes, Records, Moved;
    SetIs(Written(s, pid, q), q.party, p);
  }

  lemma {:induction false} UnrecordedWrites(s: State, pid: int, t: State)
    requires t == s || t == Ends(s, pid)
    requires pid in s.procs && s.procs[pid].Recording? ==> !Records(s, PollRecord(pid), s.procs[pid].party)
    ensures Writes(s, PollRecord(pid), t)
  {
    hide Counted, Removes, Records, Moved;
  }

  lemma {:induction false} RecordWrites(s: State, pid: int)
    ensures Writes(s, PollRecord(pid), Poll(s, PollRecord(pid)))
  {
    hide Poll, Record, SetParty, Records, Writes, Written;
    RecordingIs(s, pid);
    if pid in s.procs && s.procs[pid].Recording? {
      RecordIff(s, pid, s.procs[pid]);
      if Records(s, PollRecord(pid), s.procs[pid].party) {
        RecordedWrites(s, pid, s.procs[pid]);
      } else {
        UnrecordedWrites(s, pid, Ends(s, pid));
      }
    } else {
      UnrecordedWrites(s, pid, s);
    }
  }

  lemma {:induction false} RemoveWrites(s: State, id: int, stale: bool)
    ensures Writes(s, RemoveParty(id, stale), Desk(s, RemoveParty(id, stale)))
  {
    hide Desk, RemoveStep, Counted;
    RemovingIs(s, id, stale);
    RemoveStepWrites(s, id);
  }

  lemma {:induction false} CopyWrites(s: State, pid: int, p: int, content: string)
    ensures Writes(s, StoreCopy(pid, p, content), Desk(s, StoreCopy(pid, p, content)))
  {
    hide Desk, StoreStep, Counted;
    StoringIs(s, pid, p, content);
    StoreWrites(s, pid, p, content);
  }

  lemma {:induction false} RecallWrites(s: State, stale: bool)
    ensures Writes(s, Withdraw(stale), Desk(s, Withdraw(stale)))
  {
    hide Desk, WithdrawStep, Counted, Records, Removes;
    RemovingIs(s, 0, stale);
    WithdrawWrites(s);
  }

  lemma {:induction false} RedraftWrites(s: State, stale: bool)
    ensures Writes(s, Reopen(stale), Desk(s, Reopen(stale)))
  {
    hide Desk, ReopenStep, Counted, Records, Removes;
    RemovingIs(s, 0, stale);
    ReopenWrites(s);
  }

  lemma {:induction false} DeskWrites(s: State, e: Event)
    requires DeskEvent(e)
    ensures Writes(s, e, Desk(s, e))
  {
    hide Desk, Writes;
    match e
    case AddParty(id, issuer, required, order, stale) => AddWrites(s, id, issuer, required, order, stale);
    case BecomesContract => BecomingWrites(s);
    case RemoveParty(id, stale) => RemoveWrites(s, id, stale);
    case AddSignatory(id, party, reg, user) => NamingWrites(s, id, party, reg, user);
    case RemoveSignatory(id) => UnnamingWrites(s, id);
    case StoreCopy(pid, party, content) => CopyWrites(s, pid, party, content);
    case MarkSent(pid) => MarkWrites(s, pid);
    case View(party) => ReadWrites(s, party);
    case Decline(party) => ReadWrites(s, party);
    case Withdraw(stale) => RecallWrites(s, stale);
    case Reopen(stale) => RedraftWrites(s, stale);
  }

  lemma {:induction false} CeremonyWrites(s: State, e: Event)
    requires !DeskEvent(e)
    ensures Writes(s, e, if StartEvent(e) then Start(s, e) else Poll(s, e))
  {
    hide Start, Poll, Counted, Records;
    match e
    case StartLock(pid, abandoned) => LockWrites(s, pid, abandoned);
    case PollClear(pid) => ClearWrites(s, pid);
    case PollRecord(pid) => RecordWrites(s, pid);
    case _ => if StartEvent(e) { StartWritesNothing(s, e); } else { PollWritesNothing(s, e); }
  }

  lemma {:induction false} ApplyWrites(s: State, e: Event)
    ensures Writes(s, e, Apply(s, e))
  {
    hide Apply, Desk, Start, Poll, Writes;
    Parts(s, e);
    if DeskEvent(e) { DeskWrites(s, e); } else { CeremonyWrites(s, e); }
  }

  // ------------------------------------------------------------------ row by row

  /** A party comes by being added, as a draft; it goes by being removed, when it is not out and has not signed. */
  lemma {:induction false} PartyComesIff(s: State, e: Event, p: int)
    ensures p !in s.parties ==>
              && (p in Apply(s, e).parties
                  <==> && e.AddParty? && e.id == p && p !in s.known
                       && (e.stale || (s.contract in {NoContract, Drafting} && s.ledger == [])))
              && (p in Apply(s, e).parties ==>
                    Apply(s, e).parties[p] == Party(e.issuer, e.required, e.order, Draft, None, None))
    ensures p in s.parties ==> (p !in Apply(s, e).parties <==> Removes(s, e, p))
  {
    hide Apply, Counted;
    ApplyWrites(s, e);
  }

  lemma {:induction false} PartyMovesAre(s: State, e: Event, p: int)
    requires p in s.parties && p in s.known && !Removes(s, e, p)
    ensures p in Apply(s, e).parties && Apply(s, e).parties[p] == Moved(s, e, p)
  {
    hide Apply, Counted;
    ApplyWrites(s, e);
  }

  /** The life of a party: sent to, opened, signed or declined; withdrawn with its contract before it has answered, and
      a draft again when that is reopened. Who it is, whether it has to sign and in which place never change. */
  lemma {:induction false} StatesMoveAlong(s: State, e: Event, p: int)
    requires p in s.parties && p in s.known && !Removes(s, e, p)
    ensures p in Apply(s, e).parties
    ensures var was, now := s.parties[p], Apply(s, e).parties[p];
            && now.issuer == was.issuer && now.required == was.required && now.order == was.order
            && (now.state != was.state ==>
                  && (was.state, now.state) in {
                       (Draft, Invited), (Invited, Viewed), (Invited, Signed), (Viewed, Signed), (Invited, Declined),
                       (Viewed, Declined), (Draft, Withdrawn), (Invited, Withdrawn), (Viewed, Withdrawn),
                       (Withdrawn, Draft)}
                  && (now.state == Invited ==> e.StoreCopy? && e.party == p && !was.issuer)
                  && (now.state == Viewed ==> e == View(p))
                  && (now.state == Declined ==> e == Decline(p) && now.session.None?)
                  && (now.state == Withdrawn ==> e.Withdraw? && !was.issuer && now.session.None?)
                  && (now.state == Draft ==> e.Reopen?)
                  && (now.state == Signed ==> Records(s, e, p) && now.session.None?))
    ensures e == View(p) && s.parties[p].state == Invited ==> Apply(s, e).parties[p].state == Viewed
    ensures e == Decline(p) && s.parties[p].state in {Invited, Viewed} ==> Apply(s, e).parties[p].state == Declined
    ensures Records(s, e, p) ==> Apply(s, e).parties[p].state == Signed
  {
    PartyMovesAre(s, e, p);
    hide Apply, Records, Removes;
  }

  /** A frozen copy is put on file by a send and replaced by the next, until it is signed; it goes with its party, or
      when a withdrawn contract is reopened before the party has signed. */
  lemma {:induction false} CopyMovesAre(s: State, e: Event, p: int)
    ensures var t, held := Apply(s, e), p in s.copies;
            var signed := held && s.copies[p].signed.Some?;
            if e.StoreCopy? && e.party == p && p in s.parties && !s.parties[p].issuer && !signed
            then p in t.copies && t.copies[p] == Copy(e.content, Sha(e.content), None)
            else if Removes(s, e, p) then p !in t.copies
            else if e.Reopen? && (e.stale || s.contract == Recalled) && p in s.parties
                    && s.parties[p].state in {Draft, Withdrawn} && !signed
            then p !in t.copies
            else if Records(s, e, p) && held
            then p in t.copies && t.copies[p] == s.copies[p].(signed := Some(s.procs[e.pid].pdf))
            else (p in t.copies <==> held) && (held ==> t.copies[p] == s.copies[p])
  {
    hide Apply, Counted, Moved, Records;
    if Records(s, e, p) { RecordsMeans(s, e, p); }
    ApplyWrites(s, e);
  }

  /** A signatory comes by being named, is marked by a recorded signature and by nothing else, and goes by being removed
      unsigned or with the party. */
  lemma {:induction false} SignatoryMovesAre(s: State, e: Event, g: int)
    ensures var t, there := Apply(s, e), g in s.signatories;
            if !there
            then && (g in t.signatories <==> e.AddSignatory? && e.id == g && g !in s.known && e.party in s.parties)
                 && (g in t.signatories ==> t.signatories[g] == Signatory(e.party, e.reg, e.user, false))
            else if (e.RemoveSignatory? && e.id == g && !s.signatories[g].signed)
                    || Removes(s, e, s.signatories[g].party)
            then g !in t.signatories
            else if e.PollRecord? && e.pid in s.procs && Records(s, e, s.procs[e.pid].party)
                    && s.procs[e.pid].signatory == g
            then g in t.signatories && t.signatories[g] == s.signatories[g].(signed := true)
            else g in s.known ==> g in t.signatories && t.signatories[g] == s.signatories[g]
  {
    hide Apply, Counted, Moved, Records;
    if e.PollRecord? && e.pid in s.procs && Records(s, e, s.procs[e.pid].party) {
      RecordsMeans(s, e, s.procs[e.pid].party);
    }
    ApplyWrites(s, e);
  }

  /** The ledger grows by a recorded signature and by nothing else, and says of it what the poll had read. */
  lemma {:induction false} LedgerGrowsBy(s: State, e: Event)
    ensures if e.PollRecord? && e.pid in s.procs && Records(s, e, s.procs[e.pid].party)
            then var q := s.procs[e.pid];
                 Apply(s, e).ledger == s.ledger + [Row(q.party, q.signatory, q.reg, q.sid, q.sha, q.copy)]
            else Apply(s, e).ledger == s.ledger
  {
    hide Apply, Counted, Moved;
    ApplyWrites(s, e);
  }

  lemma {:induction false} NotRecalled(s: State, e: Event, t: State)
    requires t.parties.Keys == s.parties.Keys && forall p | p in t.parties :: t.parties[p] == Moved(s, e, p)
    requires (e.Withdraw? && !e.stale && s.contract == Executed) || (e.Reopen? && !e.stale && s.contract != Recalled)
    ensures t.parties == s.parties
  {
    forall p | p in t.parties ensures t.parties[p] == s.parties[p] {}
    assert t.parties == s.parties;
  }

  /** The contract's own state is written by its becoming a contract, by the mark at the end of a send, by a withdrawal
      and by a reopening; and by the trigger, while it is out, to what its parties say. */
  lemma {:induction false} ContractMovesAre(s: State, e: Event)
    ensures var t := Apply(s, e);
            if e.BecomesContract? && s.contract == NoContract then t.contract == Drafting
            else if e.MarkSent? && e.pid in s.unmarked && s.contract in {NoContract, Drafting} then t.contract == Sent
            else if e.Withdraw? && (e.stale || s.contract != Executed) then t.contract == Recalled
            else if e.Reopen? && (e.stale || s.contract == Recalled) then t.contract == Drafting
            else if s.contract in {Sent, PartlySigned, Executed, Refused} && Apply(s, e).parties != s.parties
                    && !e.StartLock? && !e.PollClear?
            then Says(t.parties, s.contract, t.contract)
            else t.contract == s.contract
                 || (s.contract in {Sent, PartlySigned, Executed, Refused} && Says(t.parties, s.contract, t.contract))
  {
    hide Apply, Tally, Says, Records;
    ApplyWrites(s, e);
    if (e.Withdraw? && !e.stale && s.contract == Executed) || (e.Reopen? && !e.stale && s.contract != Recalled) {
      NotRecalled(s, e, Apply(s, e));
    }
    TallySaysWhatIsSo(Apply(s, e).parties, s.contract);
  }

  // ------------------------------------------------------------------ a handler in flight

  /** A ceremony may start exactly when every required party other than the issuer with a smaller number has signed. */
  lemma {:induction false} ChecksIff(s: State, pid: int, party: int)
    requires pid !in s.procs && party in s.parties
    ensures var t, order := Apply(s, StartCheck(pid, party)), s.parties[party].order;
            && (pid in t.procs
                <==> forall q | && q in s.parties && !s.parties[q].issuer && s.parties[q].required
                                && s.parties[q].order.Some? && order.Some? && s.parties[q].order.value < order.value ::
                       s.parties[q].state == Signed)
            && (pid in t.procs ==> t.procs[pid] == Checked(party))
  {
    hide Apply, Poll;
    Parts(s, StartCheck(pid, party));
  }

  /** It goes on exactly with a signatory of the party who has a number and has not signed, over a frozen copy that is
      not empty. */
  lemma {:induction false} PicksIff(s: State, pid: int, g: int)
    requires pid in s.procs && s.procs[pid].Checked?
    ensures var t, party := Apply(s, StartPick(pid, g)), s.procs[pid].party;
            && (pid in t.procs
                <==> && g in s.signatories && s.signatories[g].party == party && s.signatories[g].reg != ""
                     && !s.signatories[g].signed && party in s.copies && s.copies[party].content != "")
            && (pid in t.procs ==>
                  t.procs[pid] == Picked(party, g, s.signatories[g].reg, s.copies[party].content, Stored(s, party)))
  {
    hide Apply, Poll, Stored;
    Parts(s, StartPick(pid, g));
  }

  /** The rail is asked, once for each id, for the signature of whom was picked over what was read. */
  lemma {:induction false} PushesIff(s: State, pid: int, sid: string)
    requires pid in s.procs && s.procs[pid].Picked?
    ensures var t, p := Apply(s, StartPush(pid, sid)), s.procs[pid];
            if sid in s.rail then t == s
            else && t.rail == s.rail[sid := Ceremony(p.party, p.signatory, p.reg, p.content, p.copy)]
                 && pid in t.procs && t.procs[pid] == Pushed(p.party, sid)
  {
    hide Apply, Poll;
    Parts(s, StartPush(pid, sid));
  }

  /** A poll goes on exactly over an open ceremony whose signatory is still named with a number, and carries the copy on
      file as it is then. */
  lemma {:induction false} ReadsIff(s: State, pid: int, party: int)
    requires pid !in s.procs
    ensures var t := Apply(s, PollRead(pid, party));
            && (pid in t.procs
                <==> && party in s.parties && party in s.copies && s.parties[party].session.Some?
                     && s.parties[party].signer.Some? && s.parties[party].signer.value in s.signatories
                     && s.signatories[s.parties[party].signer.value].reg != "")
            && (pid in t.procs ==>
                  var p, g, c := s.parties[party], s.parties[party].signer.value, s.copies[party];
                  t.procs[pid] == Polling(party, p.session.value, g, s.signatories[g].reg, c.content, c.sha,
                                          Stored(s, party)))
  {
    hide Apply, Start, Record, Stored;
    Parts(s, PollRead(pid, party));
  }

  lemma {:induction false} AskStep(s: State, pid: int, p: Proc)
    requires At(s, pid) == Some(p) && p.Polling?
    ensures Apply(s, PollRail(pid))
            == if p.sid !in s.answers then Ends(s, pid)
               else if s.answers[p.sid].Settled? then Goes(s, pid, Clearing(p.party, p.sid))
               else if s.answers[p.sid].pdf == "" || Sha(p.content) != p.sha then Ends(s, pid)
               else Goes(s, pid, Recording(p.party, p.sid, p.signatory, p.reg, p.sha, p.copy, s.answers[p.sid].pdf))
  {
    hide Desk, Start, Record, Ends, Goes;
  }

  /** The rail's answer: none yet, over, or a document to record if it is not empty and the carried bytes have their own
      hash. */
  lemma {:induction false} AsksIff(s: State, pid: int)
    requires pid in s.procs && s.procs[pid].Polling?
    ensures var t, p := Apply(s, PollRail(pid)), s.procs[pid];
            if p.sid !in s.answers then pid !in t.procs
            else match s.answers[p.sid]
                 case Settled => pid in t.procs && t.procs[pid] == Clearing(p.party, p.sid)
                 case Completed(pdf) =>
                   if pdf == "" || Sha(p.content) != p.sha then pid !in t.procs
                   else && pid in t.procs
                        && t.procs[pid] == Recording(p.party, p.sid, p.signatory, p.reg, p.sha, p.copy, pdf)
  {
    hide Apply, Poll;
    AskStep(s, pid, s.procs[pid]);
  }
}
