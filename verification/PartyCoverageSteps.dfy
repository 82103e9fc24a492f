/** What one statement of the party-signing handlers does to the copies, the ceremonies and the ledger
    (modules/documents/partysign.go, sending.go, parties.go, inbox.go, invite.go).

    Statement by statement: what it leaves alone; for a handler in flight, where what it carries was read; for a
    ceremony on the rail, which handler's pick it was opened from; for a row of the ledger, which handler's poll it was
    recorded from; for a copy, whether it was stored just now or was there before with the same bytes. PartyCoverage
    follows a row of the ledger back through a whole run with these. */
module PartyCoverageSteps {
  import opened Wrappers
  import opened PartySigning
  import opened PartyInvariant

  // ------------------------------------------------------------------ what each statement leaves alone

  ghost predicate SameCeremonies(s: State, t: State) {
    t.procs == s.procs && t.rail == s.rail && t.ledger == s.ledger
  }

  lemma {:induction false} SettingKeeps(s: State, id: int, p: Party)
    ensures SameCeremonies(s, SetParty(s, id, p)) && SetParty(s, id, p).copies == s.copies
            && SetParty(s, id, p).parties == s.parties[id := p]
    ensures SetParty(s, id, p).stored == s.stored
  {
    hide Tally;
  }

  lemma {:induction false} StoringKeeps(s: State, pid: int, party: int, content: string)
    ensures SameCeremonies(s, StoreStep(s, pid, party, content))
    ensures var t := if party in s.parties && !s.parties[party].issuer then CopyStored(s, pid, party, content) else s;
            StoreStep(s, pid, party, content).copies == t.copies && StoreStep(s, pid, party, content).stored == t.stored
  {
    hide Refresh, SetParty;
    if party in s.parties && !s.parties[party].issuer {
      var p := s.parties[party];
      SettingKeeps(CopyStored(s, pid, party, content), party, if p.state == Draft then p.(state := Invited) else p);
    }
  }

  /** Copies that are there afterwards were there before, as they are, and none is numbered. */
  ghost predicate CopiesDwindle(s: State, t: State) {
    t.stored == s.stored && forall p | p in t.copies :: p in s.copies && t.copies[p] == s.copies[p]
  }

  lemma {:induction false} RemovingKeeps(s: State, id: int)
    ensures SameCeremonies(s, RemoveStep(s, id)) && CopiesDwindle(s, RemoveStep(s, id))
  {
    hide Tally;
  }

  lemma {:induction false} RecallingKeeps(s: State)
    ensures SameCeremonies(s, WithdrawStep(s)) && CopiesDwindle(s, WithdrawStep(s))
    ensures SameCeremonies(s, ReopenStep(s)) && CopiesDwindle(s, ReopenStep(s))
  {}

  predicate DeskEvent(e: Event) {
    e.AddParty? || e.BecomesContract? || e.RemoveParty? || e.AddSignatory? || e.RemoveSignatory?
    || e.StoreCopy? || e.MarkSent? || e.View? || e.Decline? || e.Withdraw? || e.Reopen?
  }

  predicate StartEvent(e: Event) { e.StartCheck? || e.StartPick? || e.StartPush? || e.StartLock? }

  lemma {:induction false} Parts(s: State, e: Event)
    ensures Apply(s, e) == if DeskEvent(e) then Desk(s, e) else if StartEvent(e) then Start(s, e) else Poll(s, e)
  {
    hide Desk, Start, Poll;
  }

  lemma {:induction false} MarkingIs(s: State, pid: int)
    ensures SameCeremonies(s, Desk(s, MarkSent(pid))) && CopiesDwindle(s, Desk(s, MarkSent(pid)))
  {
    hide StoreStep, RemoveStep, WithdrawStep, ReopenStep, SetParty, Removable, Answerable;
  }

  lemma {:induction false} BecomingIs(s: State)
    ensures SameCeremonies(s, Desk(s, BecomesContract)) && CopiesDwindle(s, Desk(s, BecomesContract))
  {
    hide StoreStep, RemoveStep, WithdrawStep, ReopenStep, SetParty, Removable, Answerable;
  }

  lemma {:induction false} NamingKeeps(s: State, id: int, party: int, reg: string, user: string)
    ensures SameCeremonies(s, Desk(s, AddSignatory(id, party, reg, user)))
            && CopiesDwindle(s, Desk(s, AddSignatory(id, party, reg, user)))
  {}

  lemma {:induction false} UnnamingKeeps(s: State, id: int)
    ensures SameCeremonies(s, Desk(s, RemoveSignatory(id))) && CopiesDwindle(s, Desk(s, RemoveSignatory(id)))
  {}

  lemma {:induction false} AddingKeeps(s: State, id: int, issuer: bool, required: bool, order: Option<int>, stale: bool)
    ensures var t := Desk(s, AddParty(id, issuer, required, order, stale)); SameCeremonies(s, t) && CopiesDwindle(s, t)
  {
    hide SetParty;
    SettingKeeps(s.(known := s.known + {id}), id, Party(issuer, required, order, Draft, None, None));
  }

  lemma {:induction false} AnsweringKeeps(s: State, party: int)
    ensures SameCeremonies(s, Desk(s, View(party))) && CopiesDwindle(s, Desk(s, View(party)))
    ensures SameCeremonies(s, Desk(s, Decline(party))) && CopiesDwindle(s, Desk(s, Decline(party)))
  {
    hide SetParty;
    if party in s.parties {
      SettingKeeps(s, party, s.parties[party].(state := Viewed));
      SettingKeeps(s, party, s.parties[party].(state := Declined, session := None, signer := None));
    }
  }

  lemma {:induction false} LeavingIs(s: State, id: int, stale: bool)
    ensures Desk(s, RemoveParty(id, stale)) == s || Desk(s, RemoveParty(id, stale)) == RemoveStep(s, id)
    ensures Desk(s, Withdraw(stale)) == s || Desk(s, Withdraw(stale)) == WithdrawStep(s)
    ensures Desk(s, Reopen(stale)) == s || Desk(s, Reopen(stale)) == ReopenStep(s)
  {
    hide RemoveStep, WithdrawStep, ReopenStep;
  }

  lemma {:induction false} StoringIs(s: State, pid: int, party: int, content: string)
    ensures Desk(s, StoreCopy(pid, party, content)) == StoreStep(s, pid, party, content)
  {
    hide StoreStep;
  }

  lemma {:induction false} DeskKeeps(s: State, e: Event)
    requires DeskEvent(e)
    ensures SameCeremonies(s, Desk(s, e))
    ensures !e.StoreCopy? ==> CopiesDwindle(s, Desk(s, e))
  {
    hide Desk, StoreStep, RemoveStep, WithdrawStep, ReopenStep;
    match e
    case AddParty(id, issuer, required, order, stale) => AddingKeeps(s, id, issuer, required, order, stale);
    case RemoveParty(id, stale) =>
      LeavingIs(s, id, stale);
      RemovingKeeps(s, id);
    case StoreCopy(pid, party, content) =>
      StoringIs(s, pid, party, content);
      StoringKeeps(s, pid, party, content);
    case View(party) => AnsweringKeeps(s, party);
    case Decline(party) => AnsweringKeeps(s, party);
    case Withdraw(stale) =>
      LeavingIs(s, 0, stale);
      RecallingKeeps(s);
    case Reopen(stale) =>
      LeavingIs(s, 0, stale);
      RecallingKeeps(s);
    case AddSignatory(id, party, reg, user) => NamingKeeps(s, id, party, reg, user);
    case RemoveSignatory(id) => UnnamingKeeps(s, id);
    case MarkSent(pid) => MarkingIs(s, pid);
    case BecomesContract => BecomingIs(s);
  }

  // ------------------------------------------------------------------ the ceremony's statements, one by one

  lemma {:induction false} CheckingIs(s: State, pid: int, party: int)
    ensures var t := Start(s, StartCheck(pid, party)); t == s || (pid !in s.procs && t == Goes(s, pid, Checked(party)))
  {
    hide TurnHasCome;
  }

  lemma {:induction false} PickingIs(s: State, pid: int, signatory: int)
    ensures var t := Start(s, StartPick(pid, signatory));
            match At(s, pid)
            case Some(Checked(party)) =>
              || t == Ends(s, pid)
              || (party in s.copies && signatory in s.signatories
                  && t == Goes(s, pid,
                     Picked(party, signatory, s.signatories[signatory].reg, s.copies[party].content,
                     Stored(s, party))))
            case _ => t == s
  {
    hide Stored;
  }

  lemma {:induction false} PushingIs(s: State, pid: int, sid: string)
    ensures var t := Start(s, StartPush(pid, sid));
            match At(s, pid)
            case Some(Picked(party, signatory, reg, content, copy)) =>
              t == if sid in s.rail then s
                   else Goes(s.(rail := s.rail[sid := Ceremony(party, signatory, reg, content, copy)]), pid,
                       Pushed(party, sid))
            case _ => t == s
  {}

  lemma {:induction false} LockingKeeps(s: State, pid: int, abandoned: bool)
    ensures var t := Start(s, StartLock(pid, abandoned));
            t.copies == s.copies && t.stored == s.stored && t.ledger == s.ledger && t.rail == s.rail
                && (t.procs == s.procs || t.procs == s.procs - {pid})
  {
    hide Start, TakesLock;
    var p := At(s, pid);
    if p.Some? && p.value.Pushed? {
      LockStep(s, pid, p.value.party, p.value.sid, abandoned);
    } else {
      NoLockStep(s, pid, abandoned);
    }
  }

  lemma {:induction false} AnsweringIs(s: State, sid: string, answer: Answer)
    ensures var t := Poll(s, RailAnswers(sid, answer));
            SameCeremonies(s, t) && t.copies == s.copies && t.stored == s.stored
  {
    hide Record;
  }

  lemma {:induction false} ReadingIs(s: State, pid: int, party: int)
    ensures var t := Poll(s, PollRead(pid, party));
            || t == s
            || (&& pid !in s.procs && party in s.parties && party in s.copies
                && s.parties[party].session.Some? && s.parties[party].signer.Some?
                   && s.parties[party].signer.value in s.signatories
                && t == Goes(s, pid, Polling(party, s.parties[party].session.value, s.parties[party].signer.value,
                                             s.signatories[s.parties[party].signer.value].reg,
                                             s.copies[party].content, s.copies[party].sha, Stored(s, party))))
  {
    hide Record, Stored;
  }

  lemma {:induction false} AskingIs(s: State, pid: int)
    ensures var t := Poll(s, PollRail(pid));
            match At(s, pid)
            case Some(Polling(party, sid, signatory, reg, content, sha, copy)) =>
              || t == Ends(s, pid)
              || t == Goes(s, pid, Clearing(party, sid))
              || (exists pdf :: t == Goes(s, pid, Recording(party, sid, signatory, reg, sha, copy, pdf)))
            case _ => t == s
  {
    hide Record;
  }

  lemma {:induction false} ClearStep(s: State, pid: int, party: int, sid: string)
    requires At(s, pid) == Some(Clearing(party, sid))
    ensures Poll(s, PollClear(pid))
            == if party in s.parties && s.parties[party].session == Some(sid)
               then Ends(s, pid).(parties := s.parties[party := s.parties[party].(session := None, signer := None)])
                   else Ends(s, pid)
  {
    hide Record;
  }

  lemma {:induction false} NoClearStep(s: State, pid: int)
    requires At(s, pid).None? || !At(s, pid).value.Clearing?
    ensures Poll(s, PollClear(pid)) == s
  {
    hide Record;
  }

  lemma {:induction false} ClearingKeeps(s: State, pid: int)
    ensures var t := Poll(s, PollClear(pid));
            t.copies == s.copies && t.stored == s.stored && t.ledger == s.ledger && t.rail == s.rail
                && (t.procs == s.procs || t.procs == s.procs - {pid})
  {
    hide Poll;
    var p := At(s, pid);
    if p.Some? && p.value.Clearing? {
      ClearStep(s, pid, p.value.party, p.value.sid);
    } else {
      NoClearStep(s, pid);
    }
  }

  lemma {:induction false} RecordingIs(s: State, pid: int)
    ensures Poll(s, PollRecord(pid))
            == if At(s, pid).Some? && At(s, pid).value.Recording? then Record(s, pid, s.procs[pid]) else s
  {
    hide Record;
  }

  /** recordPartySignature's writes but the party's own, and the trigger. */
  function Written(s: State, pid: int, p: Proc): State
    requires p.Recording? && p.signatory in s.signatories
  {
    Ends(s, pid).(signatories := s.signatories[p.signatory := s.signatories[p.signatory].(signed := true)],
                  copies := if p.party in s.copies then s.copies[p.party := s.copies[p.party].(signed := Some(p.pdf))]
                      else s.copies,
                  ledger := s.ledger + [Row(p.party, p.signatory, p.reg, p.sid, p.sha, p.copy)])
  }

  lemma {:induction false} RecordIs(s: State, pid: int, p: Proc)
    requires p.Recording?
    ensures || Record(s, pid, p) == Ends(s, pid)
            || (&& p.party in s.parties && Answerable(s.parties[p.party]) && p.signatory in s.signatories
                && Record(s, pid, p) == SetParty(Written(s, pid, p), p.party,
                   s.parties[p.party].(state := Signed, session := None, signer := None)))
  {
    hide Answerable, SetParty;
  }

  lemma {:induction false} WrittenKeeps(s: State, pid: int, p: Proc)
    requires p.Recording? && p.signatory in s.signatories
    ensures var t := Written(s, pid, p);
            && t.procs == s.procs - {pid} && t.rail == s.rail && t.copies.Keys == s.copies.Keys
               && t.parties == s.parties && t.stored == s.stored
            && (forall q | q in s.copies :: t.copies[q].content == s.copies[q].content)
            && t.ledger == s.ledger + [Row(p.party, p.signatory, p.reg, p.sid, p.sha, p.copy)]
  {}

  /** Recording keeps every copy's bytes and adds at most the row it was for. */
  lemma {:induction false} RecordKeeps(s: State, pid: int, p: Proc)
    requires p.Recording?
    ensures var t := Record(s, pid, p);
            && t.procs == s.procs - {pid} && t.rail == s.rail && t.copies.Keys == s.copies.Keys && t.stored == s.stored
            && (forall q | q in s.copies :: t.copies[q].content == s.copies[q].content)
            && (t.ledger == s.ledger
                || (&& t.ledger == s.ledger + [Row(p.party, p.signatory, p.reg, p.sid, p.sha, p.copy)]
                    && p.party in s.parties && Answerable(s.parties[p.party])
                    && p.party in t.parties && t.parties[p.party].state == Signed))
  {
    RecordIs(s, pid, p);
    if Record(s, pid, p) != Ends(s, pid) {
      WrittenKeeps(s, pid, p);
      SettingKeeps(Written(s, pid, p), p.party, s.parties[p.party].(state := Signed, session := None, signer := None));
    }
    hide Record, Answerable, SetParty, Written;
  }

  // ------------------------------------------------------------------ where what a process carries was read

  /** The statement picks what process `pid` is to push, or ends it. */
  ghost predicate Picks(s: State, e: Event, pid: int) {
    e.StartPick? && e.pid == pid && At(s, pid).Some? && At(s, pid).value.Checked?
  }

  /** The statement starts a poll as process `pid`. */
  ghost predicate Reads(s: State, e: Event, pid: int) {
    e.PollRead? && e.pid == pid && pid !in s.procs
  }

  /** The statement hands the rail the ceremony `sid`. */
  ghost predicate Mints(s: State, e: Event, sid: string) {
    e.StartPush? && e.sid == sid && sid !in s.rail && At(s, e.pid).Some? && At(s, e.pid).value.Picked?
  }

  ghost predicate PickedNow(s: State, p: Proc) {
    && p.Picked? && p.party in s.copies && p.content == s.copies[p.party].content && p.copy == Stored(s, p.party)
  }

  ghost predicate ReadNow(s: State, e: Event, p: Proc) {
    && p.Polling? && e.PollRead? && e.party == p.party && p.party in s.copies && p.sha == s.copies[p.party].sha
       && p.copy == Stored(s, p.party)
    && p.party in s.parties && s.parties[p.party].session == Some(p.sid)
  }

  /** What the process at `pid` is after a statement, by what it was before. */
  ghost predicate CameBy(s: State, e: Event, t: State, pid: int) {
    match At(t, pid)
    case Some(Picked(_, _, _, _, _)) => if Picks(s, e, pid) then PickedNow(s, t.procs[pid])
        else At(s, pid) == At(t, pid)
    case Some(Polling(_, _, _, _, _, _, _)) => if Reads(s, e, pid) then ReadNow(s, e, t.procs[pid])
        else At(s, pid) == At(t, pid)
    case Some(Recording(party, sid, signatory, reg, sha, copy, _)) =>
      || At(s, pid) == At(t, pid)
      || (&& At(s, pid).Some? && At(s, pid).value.Polling?
          && At(s, pid).value == Polling(party, sid, signatory, reg, At(s, pid).value.content, sha, copy))
    case _ => true
  }

  lemma {:induction false} StayingIs(s: State, e: Event, t: State, pid: int)
    requires At(t, pid) == At(s, pid) || At(t, pid).None?
    requires !Reads(s, e, pid) && !Picks(s, e, pid)
    ensures CameBy(s, e, t, pid)
  {}

  lemma {:induction false} StartCameBy(s: State, e: Event, pid: int)
    requires StartEvent(e)
    ensures CameBy(s, e, Start(s, e), pid)
  {
    hide Start, Stored;
    match e
    case StartCheck(other, party) => CheckingIs(s, other, party);
    case StartPick(other, signatory) => PickingIs(s, other, signatory);
    case StartPush(other, sid) => PushingIs(s, other, sid);
    case StartLock(other, abandoned) => LockingKeeps(s, other, abandoned);
  }

  lemma {:induction false} PollCameBy(s: State, e: Event, pid: int)
    requires !DeskEvent(e) && !StartEvent(e)
    ensures CameBy(s, e, Poll(s, e), pid)
  {
    hide Poll, Stored, Record;
    match e
    case RailAnswers(sid, answer) => AnsweringIs(s, sid, answer);
    case PollRead(other, party) => ReadingIs(s, other, party);
    case PollRail(other) => AskingIs(s, other);
    case PollClear(other) => ClearingKeeps(s, other);
    case PollRecord(other) =>
      RecordingIs(s, other);
      if At(s, other).Some? && At(s, other).value.Recording? {
        RecordKeeps(s, other, s.procs[other]);
      }
  }

  /** A process carries what it read until its next statement. */
  lemma {:induction false} EachCameBy(s: State, e: Event, pid: int)
    ensures CameBy(s, e, Apply(s, e), pid)
  {
    Parts(s, e);
    if DeskEvent(e) {
      DeskKeeps(s, e);
      StayingIs(s, e, Desk(s, e), pid);
    } else if StartEvent(e) {
      StartCameBy(s, e, pid);
    } else {
      PollCameBy(s, e, pid);
    }
    hide Desk, Start, Poll, Apply, CameBy;
  }

  // ------------------------------------------------------------------ the rail, the ledger and the copies

  ghost predicate RailStep(s: State, e: Event, t: State) {
    forall sid | sid in t.rail ::
      if Mints(s, e, sid) then var p := s.procs[e.pid];
          t.rail[sid] == Ceremony(p.party, p.signatory, p.reg, p.content, p.copy)
      else sid in s.rail && t.rail[sid] == s.rail[sid]
  }

  ghost predicate LedgerStep(s: State, e: Event, t: State) {
    || t.ledger == s.ledger
    || (&& e.PollRecord? && At(s, e.pid).Some? && At(s, e.pid).value.Recording?
        && var p := s.procs[e.pid];
        && t.ledger == s.ledger + [Row(p.party, p.signatory, p.reg, p.sid, p.sha, p.copy)]
        && p.party in s.parties && Answerable(s.parties[p.party]) && p.party in t.parties
           && t.parties[p.party].state == Signed)
  }

  lemma {:induction false} StartRail(s: State, e: Event)
    requires StartEvent(e)
    ensures RailStep(s, e, Start(s, e)) && Start(s, e).ledger == s.ledger && Start(s, e).copies == s.copies
            && Start(s, e).stored == s.stored
  {
    hide Start, Stored;
    match e
    case StartCheck(other, party) => CheckingIs(s, other, party);
    case StartPick(other, signatory) => PickingIs(s, other, signatory);
    case StartPush(other, sid) => PushingIs(s, other, sid);
    case StartLock(other, abandoned) => LockingKeeps(s, other, abandoned);
  }

  ghost predicate SameBytes(s: State, t: State) {
    t.stored == s.stored && forall p | p in t.copies :: p in s.copies && t.copies[p].content == s.copies[p].content
  }

  lemma {:induction false} PollRest(s: State, e: Event)
    requires !DeskEvent(e) && !StartEvent(e)
    ensures Poll(s, e).rail == s.rail && LedgerStep(s, e, Poll(s, e)) && SameBytes(s, Poll(s, e))
  {
    hide Poll, Stored, Record, Answerable;
    match e
    case RailAnswers(sid, answer) => AnsweringIs(s, sid, answer);
    case PollRead(other, party) => ReadingIs(s, other, party);
    case PollRail(other) => AskingIs(s, other);
    case PollClear(other) => ClearingKeeps(s, other);
    case PollRecord(other) =>
      RecordingIs(s, other);
      if At(s, other).Some? && At(s, other).value.Recording? {
        RecordKeeps(s, other, s.procs[other]);
      }
  }

  /** Ceremonies come to the rail from what was picked, rows to the ledger from what was read, and both stay. */
  lemma {:induction false} EachGrows(s: State, e: Event)
    ensures RailStep(s, e, Apply(s, e)) && LedgerStep(s, e, Apply(s, e))
  {
    Parts(s, e);
    if DeskEvent(e) {
      DeskKeeps(s, e);
    } else if StartEvent(e) {
      StartRail(s, e);
    } else {
      PollRest(s, e);
    }
    hide Desk, Start, Poll, Apply;
  }

  lemma {:induction false} RailStays(s: State, e: Event)
    ensures forall sid | sid in s.rail :: sid in Apply(s, e).rail && Apply(s, e).rail[sid] == s.rail[sid]
  {
    Parts(s, e);
    if DeskEvent(e) {
      DeskKeeps(s, e);
    } else if StartEvent(e) {
      match e
      case StartCheck(other, party) => CheckingIs(s, other, party);
      case StartPick(other, signatory) => PickingIs(s, other, signatory);
      case StartPush(other, sid) => PushingIs(s, other, sid);
      case StartLock(other, abandoned) => LockingKeeps(s, other, abandoned);
    } else {
      PollRest(s, e);
    }
    hide Desk, Start, Poll, Apply, Stored;
  }

  /** The statement stores a copy for the party: it is there, not the issuer, and has no signed copy. */
  ghost predicate Stores(s: State, e: Event, party: int) {
    && e.StoreCopy? && e.party == party && party in s.parties && !s.parties[party].issuer
    && !(party in s.copies && s.copies[party].signed.Some?)
  }

  /** A copy comes to the table by being stored, and its bytes never change. */
  lemma {:induction false} CopyStep(s: State, e: Event, party: int)
    requires party in Apply(s, e).copies
    ensures if Stores(s, e, party) then Apply(s, e).copies[party].content == e.content
            else party in s.copies && Apply(s, e).copies[party].content == s.copies[party].content
  {
    hide Desk, Start, Poll, Apply, StoreStep, RailStep, LedgerStep;
    Parts(s, e);
    if DeskEvent(e) {
      DeskKeeps(s, e);
      if e.StoreCopy? {
        StoringIs(s, e.pid, e.party, e.content);
        StoringKeeps(s, e.pid, e.party, e.content);
      }
    } else if StartEvent(e) {
      StartRail(s, e);
    } else {
      PollRest(s, e);
    }
  }

  /** A copy that is stored takes the party's next number, and nothing else numbers one. */
  lemma {:induction false} CountStep(s: State, e: Event, party: int)
    ensures Stored(Apply(s, e), party) == Stored(s, party) + if Stores(s, e, party) then 1 else 0
  {
    hide Desk, Start, Poll, Apply, StoreStep, RailStep, LedgerStep;
    Parts(s, e);
    if DeskEvent(e) {
      DeskKeeps(s, e);
      if e.StoreCopy? {
        StoringIs(s, e.pid, e.party, e.content);
        StoringKeeps(s, e.pid, e.party, e.content);
      }
    } else if StartEvent(e) {
      StartRail(s, e);
    } else {
      PollRest(s, e);
    }
  }
}
