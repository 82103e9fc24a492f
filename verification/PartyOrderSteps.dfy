/** What one statement of the party-signing handlers does to the joint signing order, to the gate before adding
    parties, and to the contract's own state, statement by statement.

    Three facts are carried along. Ordered: whoever is in force, having signed or holding a ceremony or being past the
    check of its start, has everybody with a smaller number signed. Gated: while parties may still be added, nobody
    but drafts is there and nobody is in force, in a run no guard of which was stale and no send of which broke off.
    TallyFits: a contract that reads EXECUTED has everybody awaited signed. For each of them there is one lemma for
    each statement; "Touches" lemmas say once what a statement of the ceremony changes, so that the three need not
    unfold it again. What they come to over whole runs is said in PartyOrder. */
module PartyOrderSteps {
  import opened Wrappers
  import opened Sets
  import opened PartySigning
  import opened PartyInvariant

  // ------------------------------------------------------------------ the order

  ghost predicate StartOf(p: Proc, party: int) {
    && (p.Checked? || p.Picked? || p.Pushed?)
    && (match p case Checked(x) => x == party case Picked(x, _, _, _, _) => x == party case Pushed(x, _) =>
       x == party case _ => false)
  }

  ghost predicate Starting(s: State, party: int) {
    exists pid :: pid in s.procs && StartOf(s.procs[pid], party)
  }

  /** Signed, in a ceremony, or past the check that lets one start. */
  ghost predicate InForce(s: State, party: int) {
    party in s.parties && (s.parties[party].state == Signed || s.parties[party].session.Some? || Starting(s, party))
  }

  /** Whoever is in force has everybody who comes before signed. */
  ghost predicate Ordered(s: State) {
    forall p, q | InForce(s, p) && q in s.parties && ComesBefore(s.parties[q], s.parties[p].order) ::
        s.parties[q].state == Signed
  }

  /** The terms on which a party takes part never change, and signed stays signed. */
  ghost predicate SameTerms(s: State, t: State) {
    forall q | q in t.parties ::
      && q in s.parties && t.parties[q].issuer == s.parties[q].issuer && t.parties[q].required == s.parties[q].required
      && t.parties[q].order == s.parties[q].order && (s.parties[q].state == Signed ==> t.parties[q].state == Signed)
  }

  lemma {:induction false} OrderFrame(s: State, t: State)
    requires Ordered(s) && SameTerms(s, t)
    requires forall p | InForce(t, p) :: InForce(s, p)
    ensures Ordered(t)
  {
    forall p, q | InForce(t, p) && q in t.parties && ComesBefore(t.parties[q], t.parties[p].order)
        ensures t.parties[q].state == Signed {
      assert InForce(s, p);
    }
  }

  /** Nothing started, and nobody newly locked or signed. */
  lemma {:induction false} DeskOrder(s: State, t: State)
    requires Ordered(s) && SameTerms(s, t) && t.procs == s.procs
    requires forall p | p in t.parties :: (t.parties[p].state == Signed ==> s.parties[p].state == Signed)
    requires forall p | p in t.parties :: (t.parties[p].session.Some? ==> s.parties[p].session.Some?)
    ensures Ordered(t)
  {
    forall p | InForce(t, p) ensures InForce(s, p) {
      assert Starting(t, p) <==> Starting(s, p);
    }
    OrderFrame(s, t);
  }

  lemma {:induction false} RefreshIs(s: State)
    ensures Refresh(s) == s.(contract := if Out(s.contract) then Tally(s.parties, s.contract) else s.contract)
  {
    hide Tally, Out;
  }

  lemma {:induction false} RefreshOrder(s: State)
    requires Ordered(s)
    ensures Ordered(Refresh(s))
  {
    hide Ordered, Refresh;
    RefreshIs(s);
    DeskOrder(s, Refresh(s));
  }

  lemma {:induction false} AnswersOrder(s: State, party: int)
    requires Inv(s) && Ordered(s)
    ensures Ordered(Apply(s, View(party))) && Ordered(Apply(s, Decline(party)))
  {
    hide Refresh, Inv, Ordered;
    if party in s.parties {
      var v := s.(parties := s.parties[party := s.parties[party].(state := Viewed)]);
      var d := s.(parties := s.parties[party := s.parties[party].(state := Declined, session := None, signer := None)]);
      if s.parties[party].state == Invited {
        DeskOrder(s, v);
        RefreshOrder(v);
      }
      if Answerable(s.parties[party]) {
        DeskOrder(s, d);
        RefreshOrder(d);
      }
    }
  }

  lemma {:induction false} InvitingOrder(s: State, party: int, p: Party)
    requires Ordered(s) && party in s.parties && p == s.parties[party]
    ensures Ordered(s.(parties := s.parties[party := if p.state == Draft then p.(state := Invited) else p]))
  {
    hide Ordered;
    DeskOrder(s, s.(parties := s.parties[party := if p.state == Draft then p.(state := Invited) else p]));
  }

  lemma {:induction false} StoreOrder(s: State, pid: int, party: int, content: string)
    requires Ordered(s)
    ensures Ordered(Apply(s, StoreCopy(pid, party, content)))
  {
    hide Refresh, Ordered;
    if party in s.parties && !s.parties[party].issuer {
      var p := s.parties[party];
      var u := CopyStored(s, pid, party, content);
      DeskOrder(s, u);
      InvitingOrder(u, party, p);
      RefreshOrder(u.(parties := u.parties[party := if p.state == Draft then p.(state := Invited) else p]));
    }
  }

  lemma {:induction false} RemoveOrder(s: State, id: int, stale: bool)
    requires Inv(s) && Ordered(s)
    ensures Ordered(Apply(s, RemoveParty(id, stale)))
  {
    hide Refresh, Inv, Ordered;
    var t := s.(parties := s.parties - {id}, copies := s.copies - {id},
                signatories := map g | g in s.signatories && s.signatories[g].party != id :: s.signatories[g]);
    DeskOrder(s, t);
    RefreshOrder(t);
  }

  lemma {:induction false} WithdrawOrder(s: State)
    requires Ordered(s)
    ensures Ordered(WithdrawStep(s))
  {
    hide Ordered;
    DeskOrder(s, WithdrawStep(s));
  }

  lemma {:induction false} ReopenOrder(s: State)
    requires Ordered(s)
    ensures Ordered(ReopenStep(s))
  {
    hide Ordered;
    DeskOrder(s, ReopenStep(s));
  }

  lemma {:induction false} RecallOrder(s: State, stale: bool)
    requires Ordered(s)
    ensures Ordered(Apply(s, Withdraw(stale))) && Ordered(Apply(s, Reopen(stale)))
  {
    hide Ordered, WithdrawStep, ReopenStep, StoreStep, RemoveStep, SetParty, Start, Poll;
    WithdrawOrder(s);
    ReopenOrder(s);
  }

  lemma {:induction false} QuietOrder(s: State, e: Event)
    requires Inv(s) && Ordered(s) && (e.BecomesContract? || e.MarkSent? || e.AddSignatory? || e.RemoveSignatory?)
    ensures Ordered(Apply(s, e))
  {
    hide Inv, Ordered, StoreStep, RemoveStep, WithdrawStep, ReopenStep, SetParty, Start, Poll;
    var t := Apply(s, e);
    assert t.parties == s.parties && t.procs == s.procs;
    hide Apply;
    DeskOrder(s, t);
  }

  // ------------------------------------------------------------------ the ceremony and the order

  /** The check is what lets a party into force. */
  lemma {:induction false} CheckOrder(s: State, pid: int, party: int)
    requires Ordered(s)
    ensures Ordered(Apply(s, StartCheck(pid, party)))
  {
    hide Desk, Poll;
    if pid !in s.procs && party in s.parties && TurnHasCome(s, party) {
      var t := Goes(s, pid, Checked(party));
      forall p, q | InForce(t, p) && q in t.parties && ComesBefore(t.parties[q], t.parties[p].order)
          ensures t.parties[q].state == Signed {
        if p != party {
          StartingGoing(s, pid, Checked(party), p);
          assert InForce(s, p);
        }
      }
    }
  }

  lemma {:induction false} StartingGoing(s: State, pid: int, p: Proc, party: int)
    requires !StartOf(p, party) || (pid in s.procs && StartOf(s.procs[pid], party))
    ensures Starting(Goes(s, pid, p), party) ==> Starting(s, party)
    ensures Starting(Ends(s, pid), party) ==> Starting(s, party)
  {
    if Starting(Goes(s, pid, p), party) {
      var x :| x in Goes(s, pid, p).procs && StartOf(Goes(s, pid, p).procs[x], party);
      assert x in s.procs && StartOf(s.procs[x], party);
    }
    if Starting(Ends(s, pid), party) {
      var x :| x in Ends(s, pid).procs && StartOf(Ends(s, pid).procs[x], party);
      assert x in s.procs && StartOf(s.procs[x], party);
    }
  }

  /** A process that only goes on, or ends. */
  lemma {:induction false} ProcOrder(s: State, t: State, pid: int, p: Proc)
    requires Ordered(s) && t.parties == s.parties
             && (t.procs == Goes(s, pid, p).procs || t.procs == Ends(s, pid).procs || t.procs == s.procs)
    requires forall x :: StartOf(p, x) ==> pid in s.procs && StartOf(s.procs[pid], x)
    ensures Ordered(t)
  {
    forall x | InForce(t, x) ensures InForce(s, x) {
      StartingGoing(s, pid, p, x);
      assert t.procs == s.procs ==> (Starting(t, x) <==> Starting(s, x));
      assert t.procs == Goes(s, pid, p).procs ==> (Starting(t, x) <==> Starting(Goes(s, pid, p), x));
      assert t.procs == Ends(s, pid).procs ==> (Starting(t, x) <==> Starting(Ends(s, pid), x));
    }
    OrderFrame(s, t);
  }

  /** A statement that leaves the parties alone and takes one process on, or ends it. */
  ghost predicate OnlyProc(s: State, t: State, pid: int, p: Proc) {
    && t.parties == s.parties && t.contract == s.contract && t.unmarked == s.unmarked
    && (t.procs == Goes(s, pid, p).procs || t.procs == Ends(s, pid).procs || t.procs == s.procs)
  }

  lemma {:induction false} PickTouches(s: State, pid: int, signatory: int) returns (p: Proc)
    ensures OnlyProc(s, Apply(s, StartPick(pid, signatory)), pid, p)
    ensures forall x :: StartOf(p, x) ==> pid in s.procs && StartOf(s.procs[pid], x)
  {
    hide Desk, Poll;
    p := Clearing(0, "");
    match At(s, pid)
    case Some(Checked(party)) =>
      if signatory in s.signatories && party in s.copies {
        p := Picked(party, signatory, s.signatories[signatory].reg, s.copies[party].content, Stored(s, party));
      }
    case _ =>
  }

  lemma {:induction false} PickOrder(s: State, pid: int, signatory: int)
    requires Ordered(s)
    ensures Ordered(Apply(s, StartPick(pid, signatory)))
  {
    var p := PickTouches(s, pid, signatory);
    hide Apply, Ordered;
    ProcOrder(s, Apply(s, StartPick(pid, signatory)), pid, p);
  }

  lemma {:induction false} PushTouches(s: State, pid: int, sid: string) returns (p: Proc)
    ensures OnlyProc(s, Apply(s, StartPush(pid, sid)), pid, p)
    ensures forall x :: StartOf(p, x) ==> pid in s.procs && StartOf(s.procs[pid], x)
  {
    hide Desk, Poll;
    p := if At(s, pid).Some? && At(s, pid).value.Picked? then Pushed(At(s, pid).value.party, sid) else Clearing(0, "");
  }

  lemma {:induction false} PushOrder(s: State, pid: int, sid: string)
    requires Ordered(s)
    ensures Ordered(Apply(s, StartPush(pid, sid)))
  {
    var p := PushTouches(s, pid, sid);
    hide Apply, Ordered;
    ProcOrder(s, Apply(s, StartPush(pid, sid)), pid, p);
  }

  /** The lock goes to a party whose start is past its check. */
  lemma {:induction false} LockingOrder(s: State, pid: int, party: int, sid: string, signer: int)
    requires Ordered(s) && party in s.parties && pid in s.procs && StartOf(s.procs[pid], party)
    ensures Ordered(Ends(s, pid).(parties := s.parties[party := s.parties[party].(session := Some(sid),
            signer := Some(signer))]))
  {
    var t := Ends(s, pid).(parties := s.parties[party := s.parties[party].(session := Some(sid),
        signer := Some(signer))]);
    hide Ordered;
    forall x | InForce(t, x) ensures InForce(s, x) {
      StartingGoing(s, pid, Clearing(0, ""), x);
      assert Starting(t, x) <==> Starting(Ends(s, pid), x);
      assert Starting(s, party);
    }
    OrderFrame(s, t);
  }

  lemma {:induction false} LockOrder(s: State, pid: int, abandoned: bool)
    requires Ordered(s)
    ensures Ordered(Apply(s, StartLock(pid, abandoned)))
  {
    hide Desk, Poll, Ordered;
    match At(s, pid)
    case Some(Pushed(party, sid)) =>
      ProcOrder(s, Ends(s, pid), pid, Clearing(0, ""));
      if party in s.parties && sid in s.rail {
        LockingOrder(s, pid, party, sid, s.rail[sid].signatory);
      }
    case _ =>
  }

  lemma {:induction false} AnswerTouches(s: State, sid: string, answer: Answer)
    ensures OnlyProc(s, Apply(s, RailAnswers(sid, answer)), 0, Clearing(0, ""))
  {
    hide Desk, Start, Record;
  }

  lemma {:induction false} ReadTouches(s: State, pid: int, party: int) returns (p: Proc)
    ensures OnlyProc(s, Apply(s, PollRead(pid, party)), pid, p) && forall x :: !StartOf(p, x)
  {
    hide Desk, Start, Record;
    p := Clearing(0, "");
    if party in s.parties && party in s.copies && s.parties[party].session.Some? && s.parties[party].signer.Some?
       && s.parties[party].signer.value in s.signatories {
      p := Polling(party, s.parties[party].session.value, s.parties[party].signer.value,
          s.signatories[s.parties[party].signer.value].reg,
                   s.copies[party].content, s.copies[party].sha, Stored(s, party));
    }
  }

  lemma {:induction false} RailEnds(s: State, pid: int, p: Proc)
    requires !(At(s, pid).Some? && At(s, pid).value.Polling? && At(s, pid).value.sid in s.answers)
    ensures OnlyProc(s, Apply(s, PollRail(pid)), pid, p)
  {
    hide Desk, Start, Record;
  }

  lemma {:induction false} RailTouches(s: State, pid: int) returns (p: Proc)
    ensures OnlyProc(s, Apply(s, PollRail(pid)), pid, p) && forall x :: !StartOf(p, x)
  {
    hide Apply;
    p := Clearing(0, "");
    if At(s, pid).Some? && At(s, pid).value.Polling? && At(s, pid).value.sid in s.answers {
      var q := At(s, pid).value;
      if s.answers[q.sid].Settled? {
        p := Clearing(q.party, q.sid);
      } else {
        p := Recording(q.party, q.sid, q.signatory, q.reg, q.sha, q.copy, s.answers[q.sid].pdf);
      }
      RailSteps(s, pid, q, p);
    } else {
      RailEnds(s, pid, p);
    }
  }

  lemma {:induction false} RailSteps(s: State, pid: int, q: Proc, p: Proc)
    requires At(s, pid) == Some(q) && q.Polling? && q.sid in s.answers
    requires p == if s.answers[q.sid].Settled? then Clearing(q.party, q.sid)
                  else Recording(q.party, q.sid, q.signatory, q.reg, q.sha, q.copy, s.answers[q.sid].pdf)
    ensures Apply(s, PollRail(pid)) == Goes(s, pid, p) || Apply(s, PollRail(pid)) == Ends(s, pid)
  {
    hide Desk, Start, Record;
  }

  lemma {:induction false} PollOrder(s: State, e: Event)
    requires Ordered(s) && (e.RailAnswers? || e.PollRead? || e.PollRail?)
    ensures Ordered(Apply(s, e))
  {
    hide Apply, Ordered;
    match e
    case RailAnswers(sid, answer) =>
      AnswerTouches(s, sid, answer);
      ProcOrder(s, Apply(s, e), 0, Clearing(0, ""));
    case PollRead(pid, party) =>
      var p := ReadTouches(s, pid, party);
      ProcOrder(s, Apply(s, e), pid, p);
    case PollRail(pid) =>
      var p := RailTouches(s, pid);
      ProcOrder(s, Apply(s, e), pid, p);
  }

  /** One party's lock goes, or it becomes signed out of its own open ceremony; the process ends. */
  ghost predicate OneSettles(s: State, t: State, pid: int, party: int) {
    && (t.procs == Ends(s, pid).procs || t.procs == s.procs)
    && (t.parties == s.parties
        || (&& party in s.parties && party in t.parties && t.parties == s.parties[party := t.parties[party]]
            && t.parties[party].issuer == s.parties[party].issuer
               && t.parties[party].required == s.parties[party].required
            && t.parties[party].order == s.parties[party].order && t.parties[party].session == None
            && s.parties[party].session.Some?
            && (s.parties[party].state == Signed ==> t.parties[party].state == Signed)))
  }

  lemma {:induction false} SettlesOrder(s: State, t: State, pid: int, party: int)
    requires Ordered(s) && OneSettles(s, t, pid, party)
    ensures Ordered(t)
  {
    forall x | InForce(t, x) ensures InForce(s, x) {
      StartingGoing(s, pid, Clearing(0, ""), x);
      assert Starting(t, x) ==> Starting(s, x);
    }
    OrderFrame(s, t);
  }

  lemma {:induction false} ClearTouches(s: State, pid: int) returns (party: int)
    ensures OneSettles(s, Apply(s, PollClear(pid)), pid, party)
  {
    hide Desk, Start, Record;
    party := if At(s, pid).Some? && At(s, pid).value.Clearing? then At(s, pid).value.party else 0;
  }

  lemma {:induction false} RecordTouches(s: State, pid: int, p: Proc)
    requires p.Recording?
    ensures OneSettles(s, Record(s, pid, p), pid, p.party)
  {
    hide Tally;
  }

  lemma {:induction false} RecordingOrder(s: State, pid: int)
    requires Ordered(s)
    ensures Ordered(Apply(s, PollRecord(pid)))
  {
    hide Desk, Start, Record, Ordered;
    if At(s, pid).Some? && At(s, pid).value.Recording? {
      RecordTouches(s, pid, s.procs[pid]);
      SettlesOrder(s, Record(s, pid, s.procs[pid]), pid, s.procs[pid].party);
    }
  }

  lemma {:induction false} ClearOrder(s: State, pid: int)
    requires Ordered(s)
    ensures Ordered(Apply(s, PollClear(pid)))
  {
    hide Apply, Ordered;
    var p := ClearTouches(s, pid);
    SettlesOrder(s, Apply(s, PollClear(pid)), pid, p);
  }

  // ------------------------------------------------------------------ adding a party

  lemma {:induction false} PartiesAreKnown(s: State)
    requires Inv(s)
    ensures forall p | p in s.parties :: p in s.known
  {
    forall p | p in s.parties ensures p in s.known {
      assert PartyFits(s, p, s.parties[p]);
    }
  }

  lemma {:induction false} NobodyStarts(s: State, id: int)
    requires Inv(s) && id !in s.known
    ensures !Starting(s, id)
  {
    forall pid | pid in s.procs ensures !StartOf(s.procs[pid], id) {
      assert ProcFits(s, s.procs[pid]);
    }
  }

  lemma {:induction false} NewcomerOrder(s: State, t: State, id: int, q: Party)
    requires Ordered(s) && id !in s.parties && t.parties == s.parties[id := q] && q.state == Draft && !InForce(t, id)
    requires forall p | p != id :: InForce(t, p) <==> InForce(s, p)
    ensures Ordered(t) <==> forall p | InForce(s, p) :: !ComesBefore(q, s.parties[p].order)
  {
    if p :| InForce(s, p) && ComesBefore(q, s.parties[p].order) {
      assert InForce(t, p) && t.parties[id] == q;
    }
  }

  /** Every other statement keeps the order, in any interleaving. */
  lemma {:induction false} ApplyKeepsOrder(s: State, e: Event)
    requires Inv(s) && Ordered(s) && !e.AddParty?
    ensures Ordered(Apply(s, e))
  {
    hide Inv, Ordered, Apply;
    match e
    case BecomesContract => QuietOrder(s, e);
    case RemoveParty(id, stale) => RemoveOrder(s, id, stale);
    case AddSignatory(_, _, _, _) => QuietOrder(s, e);
    case RemoveSignatory(_) => QuietOrder(s, e);
    case StoreCopy(pid, party, content) => StoreOrder(s, pid, party, content);
    case MarkSent(_) => QuietOrder(s, e);
    case View(party) => AnswersOrder(s, party);
    case Decline(party) => AnswersOrder(s, party);
    case Withdraw(stale) => RecallOrder(s, stale);
    case Reopen(stale) => RecallOrder(s, stale);
    case StartCheck(pid, party) => CheckOrder(s, pid, party);
    case StartPick(pid, signatory) => PickOrder(s, pid, signatory);
    case StartPush(pid, sid) => PushOrder(s, pid, sid);
    case StartLock(pid, abandoned) => LockOrder(s, pid, abandoned);
    case RailAnswers(_, _) => PollOrder(s, e);
    case PollRead(_, _) => PollOrder(s, e);
    case PollRail(_) => PollOrder(s, e);
    case PollClear(pid) => ClearOrder(s, pid);
    case PollRecord(pid) => RecordingOrder(s, pid);
  }

  // ------------------------------------------------------------------ when parties may be added

  /** Before it is sent, and with no send half done, no party is out; once recalled, none is left open. */
  ghost predicate Gated(s: State) {
    && (Unsent(s.contract) && s.unmarked == {} ==> forall p | p in s.parties :: !Answerable(s.parties[p]))
    && (s.contract == Recalled ==>
          forall p | p in s.parties && !s.parties[p].issuer :: s.parties[p].state != Draft && !Answerable(s.parties[p]))
  }

  /** A handler that adds or reopens does so on what it has just read, and a party is not added while
      somebody's start is between its check and its lock, or a send between its copies and its mark. */
  ghost predicate Undisturbed(s: State, e: Event) {
    && (e.AddParty? ==> !e.stale && s.unmarked == {} && forall p :: !Starting(s, p))
    && (e.Reopen? ==> !e.stale)
  }

  /** Parties as they were but for locks, with the contract no less out. */
  lemma {:induction false} GateFrame(s: State, t: State)
    requires Gated(s) && (t.contract == s.contract || Out(t.contract)) && s.unmarked <= t.unmarked
    requires forall p | p in t.parties :: p in s.parties && t.parties[p].issuer == s.parties[p].issuer
               && (Answerable(t.parties[p]) ==> Answerable(s.parties[p]))
                  && (t.parties[p].state == Draft ==> s.parties[p].state == Draft)
    ensures Gated(t)
  {}

  lemma {:induction false} RefreshGate(s: State)
    requires Gated(s)
    ensures Gated(Refresh(s))
  {
    hide Gated, Refresh, Tally;
    RefreshIs(s);
    TallyIsOut(s.parties, s.contract);
    GateFrame(s, Refresh(s));
  }

  lemma {:induction false} TallyIsOut(ps: map<int, Party>, was: Contract)
    ensures Tally(ps, was) == was || Out(Tally(ps, was))
  {}

  lemma {:induction false} AddGate(s: State, e: Event)
    requires Inv(s) && Gated(s) && e.AddParty? && !e.stale
    ensures Gated(Apply(s, e))
  {
    hide Refresh, Inv;
    if e.id !in s.known && Unsent(s.contract) && s.ledger == [] {
      RefreshGate(s.(known := s.known + {e.id},
          parties := s.parties[e.id := Party(e.issuer, e.required, e.order, Draft, None, None)]));
    }
    hide Gated;
  }

  lemma {:induction false} AnswersGate(s: State, party: int)
    requires Inv(s) && Gated(s)
    ensures Gated(Apply(s, View(party))) && Gated(Apply(s, Decline(party)))
  {
    hide Refresh, Inv, Gated;
    if party in s.parties && Answerable(s.parties[party]) {
      var v := s.(parties := s.parties[party := s.parties[party].(state := Viewed)]);
      var d := s.(parties := s.parties[party := s.parties[party].(state := Declined, session := None, signer := None)]);
      GateFrame(s, v);
      GateFrame(s, d);
      RefreshGate(v);
      RefreshGate(d);
    }
  }

  lemma {:induction false} StoreGate(s: State, pid: int, party: int, content: string)
    requires Inv(s) && Gated(s)
    ensures Gated(Apply(s, StoreCopy(pid, party, content)))
  {
    hide Refresh, Inv;
    if party in s.parties && !s.parties[party].issuer {
      var p := s.parties[party];
      var u := CopyStored(s, pid, party, content);
      var t := u.(parties := u.parties[party := if p.state == Draft then p.(state := Invited) else p]);
      assert pid in t.unmarked;
      assert Gated(t);
      RefreshGate(t);
    }
    hide Gated;
  }

  lemma {:induction false} RemoveGate(s: State, id: int, stale: bool)
    requires Gated(s)
    ensures Gated(Apply(s, RemoveParty(id, stale)))
  {
    hide Refresh, Gated;
    var t := s.(parties := s.parties - {id}, copies := s.copies - {id},
                signatories := map g | g in s.signatories && s.signatories[g].party != id :: s.signatories[g]);
    GateFrame(s, t);
    RefreshGate(t);
  }

  lemma {:induction false} RecalledIsGated(s: State)
    ensures Gated(WithdrawStep(s))
  {}

  lemma {:induction false} WithdrawGate(s: State, stale: bool)
    requires Gated(s)
    ensures Gated(Apply(s, Withdraw(stale)))
  {
    RecalledIsGated(s);
    hide Gated, WithdrawStep, ReopenStep, StoreStep, RemoveStep, SetParty, Start, Poll;
  }

  lemma {:induction false} ReopenGate(s: State)
    requires Inv(s) && Gated(s)
    ensures Gated(Apply(s, Reopen(false)))
  {
    IssuersAreDrafts(s);
    hide Inv;
  }

  lemma {:induction false} IssuersAreDrafts(s: State)
    requires Inv(s)
    ensures forall p | p in s.parties && s.parties[p].issuer :: s.parties[p].state == Draft
  {
    forall p | p in s.parties && s.parties[p].issuer ensures s.parties[p].state == Draft {
      assert PartyFits(s, p, s.parties[p]);
    }
  }

  lemma {:induction false} MarkGate(s: State, pid: int)
    requires Gated(s)
    ensures Gated(Apply(s, MarkSent(pid))) && Gated(Apply(s, BecomesContract))
  {
    hide StoreStep, RemoveStep, WithdrawStep, ReopenStep, SetParty, Start, Poll;
  }

  lemma {:induction false} NamingGate(s: State, e: Event)
    requires Gated(s) && (e.AddSignatory? || e.RemoveSignatory?)
    ensures Gated(Apply(s, e))
  {
    hide StoreStep, RemoveStep, WithdrawStep, ReopenStep, SetParty, Start, Poll, Gated;
    GateFrame(s, Apply(s, e));
    hide Apply;
  }

  lemma {:induction false} ProcGate(s: State, t: State, pid: int, p: Proc)
    requires Gated(s) && OnlyProc(s, t, pid, p)
    ensures Gated(t)
  {}

  lemma {:induction false} CheckTouches(s: State, pid: int, party: int)
    ensures OnlyProc(s, Apply(s, StartCheck(pid, party)), pid, Checked(party))
  {
    hide Desk, Poll, TurnHasCome;
  }

  lemma {:induction false} LockGate(s: State, pid: int, abandoned: bool)
    requires Gated(s)
    ensures Gated(Apply(s, StartLock(pid, abandoned)))
  {
    hide Desk, Poll, Gated;
    if At(s, pid).Some? && At(s, pid).value.Pushed? && At(s, pid).value.party in s.parties
        && At(s, pid).value.sid in s.rail {
      var p := At(s, pid).value;
      var t := Ends(s, pid).(parties := s.parties[p.party := s.parties[p.party].(session := Some(p.sid),
          signer := Some(s.rail[p.sid].signatory))]);
      GateFrame(s, t);
    }
    GateFrame(s, Ends(s, pid));
  }

  lemma {:induction false} ClearGate(s: State, pid: int)
    requires Gated(s)
    ensures Gated(Apply(s, PollClear(pid)))
  {
    hide Desk, Start, Record, Gated;
    if At(s, pid).Some? && At(s, pid).value.Clearing? && At(s, pid).value.party in s.parties {
      var p := At(s, pid).value;
      var t := Ends(s, pid).(parties := s.parties[p.party := s.parties[p.party].(session := None, signer := None)]);
      GateFrame(s, t);
    }
    GateFrame(s, Ends(s, pid));
  }

  lemma {:induction false} RecordingGate(s: State, pid: int, p: Proc)
    requires Gated(s) && p.Recording?
    ensures Gated(Record(s, pid, p))
  {
    hide Gated, Tally;
    var t := Record(s, pid, p);
    TallyIsOut(t.parties, s.contract);
    GateFrame(s, t);
  }

  lemma {:induction false} RecordGate(s: State, pid: int)
    requires Gated(s)
    ensures Gated(Apply(s, PollRecord(pid)))
  {
    hide Desk, Start, Record, Gated;
    if At(s, pid).Some? && At(s, pid).value.Recording? {
      RecordingGate(s, pid, s.procs[pid]);
    }
  }

  lemma {:induction false} ApplyKeepsGate(s: State, e: Event)
    requires Inv(s) && Gated(s) && Undisturbed(s, e)
    ensures Gated(Apply(s, e))
  {
    hide Inv, Gated, Apply;
    match e
    case AddParty(_, _, _, _, _) => AddGate(s, e);
    case BecomesContract => MarkGate(s, 0);
    case RemoveParty(id, stale) => RemoveGate(s, id, stale);
    case AddSignatory(_, _, _, _) => NamingGate(s, e);
    case RemoveSignatory(_) => NamingGate(s, e);
    case StoreCopy(pid, party, content) => StoreGate(s, pid, party, content);
    case MarkSent(pid) => MarkGate(s, pid);
    case View(party) => AnswersGate(s, party);
    case Decline(party) => AnswersGate(s, party);
    case Withdraw(stale) => WithdrawGate(s, stale);
    case Reopen(_) => ReopenGate(s);
    case StartCheck(pid, party) =>
      CheckTouches(s, pid, party);
      ProcGate(s, Apply(s, e), pid, Checked(party));
    case StartPick(pid, signatory) =>
      var p := PickTouches(s, pid, signatory);
      ProcGate(s, Apply(s, e), pid, p);
    case StartPush(pid, sid) =>
      var p := PushTouches(s, pid, sid);
      ProcGate(s, Apply(s, e), pid, p);
    case StartLock(pid, abandoned) => LockGate(s, pid, abandoned);
    case RailAnswers(sid, answer) =>
      AnswerTouches(s, sid, answer);
      ProcGate(s, Apply(s, e), 0, Clearing(0, ""));
    case PollRead(pid, party) =>
      var p := ReadTouches(s, pid, party);
      ProcGate(s, Apply(s, e), pid, p);
    case PollRail(pid) =>
      var p := RailTouches(s, pid);
      ProcGate(s, Apply(s, e), pid, p);
    case PollClear(pid) => ClearGate(s, pid);
    case PollRecord(pid) => RecordGate(s, pid);
  }

  lemma {:induction false} SignedHasRow(s: State, p: int)
    requires Inv(s) && p in s.parties && s.parties[p].state == Signed
    ensures s.ledger != []
  {
    var k :| RowOf(s.ledger, k, p);
  }

  /** Undisturbed, a party is added only when nobody is in force. */
  lemma {:induction false} NobodyInForce(s: State, e: Event)
    requires Inv(s) && Gated(s) && e.AddParty? && Undisturbed(s, e) && Unsent(s.contract) && s.ledger == []
    ensures forall p :: !InForce(s, p)
  {
    forall p ensures !InForce(s, p) {
      if p in s.parties {
        assert PartyFits(s, p, s.parties[p]);
        if s.parties[p].state == Signed {
          SignedHasRow(s, p);
          assert false;
        }
      }
    }
  }

  // ------------------------------------------------------------------ what EXECUTED means

  /** Everybody awaited has signed and nobody has declined. */
  ghost predicate Complete(ps: map<int, Party>) {
    Awaited(ps) != {} && DeclinedOnes(ps) == {} && Awaited(ps) <= SignedOnes(ps)
  }

  ghost predicate TallyFits(s: State) {
    s.contract == Executed ==> Complete(s.parties)
  }

  lemma {:induction false} AllAwaitedSigned(awaited: set<int>, signed: set<int>)
    requires |awaited * signed| >= |awaited|
    ensures awaited <= signed
  {
    forall x | x in awaited ensures x in signed {
      AllCounted(awaited, signed, x);
    }
    Smaller(awaited, signed);
  }

  lemma {:induction false} TallySays(ps: map<int, Party>, was: Contract)
    requires Tally(ps, was) == Executed && (was == Executed ==> Awaited(ps) != {})
    ensures Complete(ps)
  {
    AllAwaitedSigned(Awaited(ps), SignedOnes(ps));
    hide Awaited, SignedOnes, DeclinedOnes;
  }

  /** Whenever the trigger runs the tally is right, as long as a signed party is still there to await. */
  lemma {:induction false} RefreshTally(s: State)
    requires s.contract == Executed ==> SignedOnes(s.parties) != {}
    ensures TallyFits(Refresh(s))
  {
    if s.contract == Executed {
      SignedAreAwaited(s.parties);
    }
    if Out(s.contract) && Tally(s.parties, s.contract) == Executed {
      TallySays(s.parties, s.contract);
    }
    hide Tally, Complete, Awaited, SignedOnes;
  }

  lemma {:induction false} SignedAreAwaited(ps: map<int, Party>)
    requires SignedOnes(ps) != {}
    ensures Awaited(ps) != {}
  {
    var p := SomeMember(SignedOnes(ps));
    assert p in Delivered(ps);
  }

  lemma {:induction false} ExecutedHasSigned(s: State) returns (p: int)
    requires TallyFits(s) && s.contract == Executed
    ensures p in s.parties && !s.parties[p].issuer && s.parties[p].state == Signed
  {
    p := SomeMember(Awaited(s.parties));
    assert p in SignedOnes(s.parties);
  }

  /** Statements without a trigger leave roles and states, so the tally, as they were. */
  lemma {:induction false} SameShape(s: State, t: State)
    requires TallyFits(s) && (t.contract == Executed ==> s.contract == Executed)
    requires forall p :: p in t.parties <==> p in s.parties
    requires forall p | p in s.parties ::
             t.parties[p].issuer == s.parties[p].issuer && t.parties[p].required == s.parties[p].required
               && t.parties[p].state == s.parties[p].state
    ensures TallyFits(t)
  {
    SameMembers(Mandatory(t.parties), Mandatory(s.parties));
    SameMembers(Delivered(t.parties), Delivered(s.parties));
    SameMembers(SignedOnes(t.parties), SignedOnes(s.parties));
    SameMembers(DeclinedOnes(t.parties), DeclinedOnes(s.parties));
  }

  /** A statement whose trigger runs, on parties among which every signed one is still signed. */
  lemma {:induction false} TriggeredTally(s: State, t: State)
    requires TallyFits(s) && t.contract == s.contract
    requires forall p | p in s.parties && s.parties[p].state == Signed ::
             p in t.parties && t.parties[p].state == Signed && t.parties[p].issuer == s.parties[p].issuer
    ensures TallyFits(Refresh(t))
  {
    if s.contract == Executed {
      var p := ExecutedHasSigned(s);
      assert p in SignedOnes(t.parties);
    }
    RefreshTally(t);
  }

  lemma {:induction false} AddTally(s: State, e: Event)
    requires Inv(s) && TallyFits(s) && e.AddParty?
    ensures TallyFits(Apply(s, e))
  {
    PartiesAreKnown(s);
    hide Refresh, TallyFits, Inv;
    if e.id !in s.known {
      TriggeredTally(s, s.(known := s.known + {e.id},
          parties := s.parties[e.id := Party(e.issuer, e.required, e.order, Draft, None, None)]));
    }
  }

  lemma {:induction false} AnswersTally(s: State, party: int)
    requires TallyFits(s)
    ensures TallyFits(Apply(s, View(party))) && TallyFits(Apply(s, Decline(party)))
  {
    hide Refresh, TallyFits;
    if party in s.parties && Answerable(s.parties[party]) {
      TriggeredTally(s, s.(parties := s.parties[party := s.parties[party].(state := Viewed)]));
      TriggeredTally(s, s.(parties := s.parties[party := s.parties[party].(state := Declined, session := None,
          signer := None)]));
    }
  }

  lemma {:induction false} StoreTally(s: State, pid: int, party: int, content: string)
    requires TallyFits(s)
    ensures TallyFits(Apply(s, StoreCopy(pid, party, content)))
  {
    hide Refresh, TallyFits;
    if party in s.parties && !s.parties[party].issuer {
      var p := s.parties[party];
      var u := CopyStored(s, pid, party, content);
      TriggeredTally(s, u.(parties := u.parties[party := if p.state == Draft then p.(state := Invited) else p]));
    }
  }

  lemma {:induction false} RemoveTally(s: State, id: int, stale: bool)
    requires TallyFits(s)
    ensures TallyFits(Apply(s, RemoveParty(id, stale)))
  {
    hide Refresh, TallyFits;
    if id in s.parties && Removable(s.parties[id]) {
      TriggeredTally(s, s.(parties := s.parties - {id}, copies := s.copies - {id},
                           signatories := map g | g in s.signatories
                               && s.signatories[g].party != id :: s.signatories[g]));
    }
  }

  lemma {:induction false} RecordingTally(s: State, pid: int, p: Proc)
    requires TallyFits(s) && p.Recording?
    ensures TallyFits(Record(s, pid, p))
  {
    hide Refresh, TallyFits;
    var t := Record(s, pid, p);
    if p.party in s.parties && p.signatory in s.signatories {
      var u := Ends(s, pid).(signatories := s.signatories[p.signatory := s.signatories[p.signatory].(signed := true)],
                             copies := if p.party in s.copies
                                 then s.copies[p.party := s.copies[p.party].(signed := Some(p.pdf))] else s.copies,
                             ledger := s.ledger + [Row(p.party, p.signatory, p.reg, p.sid, p.sha, p.copy)],
                             parties := s.parties[p.party := s.parties[p.party].(state := Signed, session := None,
                                 signer := None)]);
      TriggeredTally(s, u);
    }
    SameShape(s, Ends(s, pid));
  }

  lemma {:induction false} RecordTally(s: State, pid: int)
    requires TallyFits(s)
    ensures TallyFits(Apply(s, PollRecord(pid)))
  {
    hide Desk, Start, Record, TallyFits;
    if At(s, pid).Some? && At(s, pid).value.Recording? {
      RecordingTally(s, pid, s.procs[pid]);
    }
  }

  lemma {:induction false} LockTally(s: State, pid: int, abandoned: bool)
    requires TallyFits(s)
    ensures TallyFits(Apply(s, StartLock(pid, abandoned)))
  {
    hide Desk, Poll, TallyFits;
    match At(s, pid)
    case Some(Pushed(party, sid)) =>
      SameShape(s, Ends(s, pid));
      if party in s.parties && sid in s.rail {
        SameShape(s, Ends(s, pid).(parties := s.parties[party := s.parties[party].(session := Some(sid),
            signer := Some(s.rail[sid].signatory))]));
      }
    case _ =>
  }

  lemma {:induction false} ClearTally(s: State, pid: int)
    requires TallyFits(s)
    ensures TallyFits(Apply(s, PollClear(pid)))
  {
    hide Desk, Start, Record, TallyFits;
    match At(s, pid)
    case Some(Clearing(party, sid)) =>
      SameShape(s, Ends(s, pid));
      if party in s.parties {
        SameShape(s, Ends(s, pid).(parties := s.parties[party := s.parties[party].(session := None, signer := None)]));
      }
    case _ =>
  }

  lemma {:induction false} MarkTally(s: State, pid: int)
    requires TallyFits(s)
    ensures TallyFits(Apply(s, MarkSent(pid)))
  {
    hide StoreStep, RemoveStep, WithdrawStep, ReopenStep, SetParty, Start, Poll, TallyFits;
    SameShape(s, s.(unmarked := s.unmarked - {pid}, contract := if Unsent(s.contract) then Sent else s.contract));
  }

  lemma {:induction false} BecomesTally(s: State)
    requires TallyFits(s)
    ensures TallyFits(Apply(s, BecomesContract))
  {
    hide StoreStep, RemoveStep, WithdrawStep, ReopenStep, SetParty, Start, Poll, TallyFits;
    SameShape(s, s.(contract := Drafting));
  }

  lemma {:induction false} RecallTally(s: State, stale: bool)
    requires TallyFits(s)
    ensures TallyFits(Apply(s, Withdraw(stale))) && TallyFits(Apply(s, Reopen(stale)))
  {
    hide Complete, StoreStep, RemoveStep, SetParty, Start, Poll;
  }

  lemma {:induction false} NamingTally(s: State, e: Event)
    requires TallyFits(s) && (e.AddSignatory? || e.RemoveSignatory?)
    ensures TallyFits(Apply(s, e))
  {
    hide StoreStep, RemoveStep, WithdrawStep, ReopenStep, SetParty, Start, Poll, TallyFits;
    SameShape(s, Apply(s, e));
    hide Apply;
  }

  lemma {:induction false} ProcTally(s: State, t: State, pid: int, p: Proc)
    requires TallyFits(s) && OnlyProc(s, t, pid, p)
    ensures TallyFits(t)
  {}

  lemma {:induction false} ApplyKeepsTally(s: State, e: Event)
    requires Inv(s) && TallyFits(s)
    ensures TallyFits(Apply(s, e))
  {
    hide Inv, TallyFits, Apply;
    match e
    case AddParty(_, _, _, _, _) => AddTally(s, e);
    case BecomesContract => BecomesTally(s);
    case RemoveParty(id, stale) => RemoveTally(s, id, stale);
    case AddSignatory(_, _, _, _) => NamingTally(s, e);
    case RemoveSignatory(_) => NamingTally(s, e);
    case StoreCopy(pid, party, content) => StoreTally(s, pid, party, content);
    case MarkSent(pid) => MarkTally(s, pid);
    case View(party) => AnswersTally(s, party);
    case Decline(party) => AnswersTally(s, party);
    case Withdraw(stale) => RecallTally(s, stale);
    case Reopen(stale) => RecallTally(s, stale);
    case StartCheck(pid, party) =>
      CheckTouches(s, pid, party);
      ProcTally(s, Apply(s, e), pid, Checked(party));
    case StartPick(pid, signatory) =>
      var p := PickTouches(s, pid, signatory);
      ProcTally(s, Apply(s, e), pid, p);
    case StartPush(pid, sid) =>
      var p := PushTouches(s, pid, sid);
      ProcTally(s, Apply(s, e), pid, p);
    case StartLock(pid, abandoned) => LockTally(s, pid, abandoned);
    case RailAnswers(sid, answer) =>
      AnswerTouches(s, sid, answer);
      ProcTally(s, Apply(s, e), 0, Clearing(0, ""));
    case PollRead(pid, party) =>
      var p := ReadTouches(s, pid, party);
      ProcTally(s, Apply(s, e), pid, p);
    case PollRail(pid) =>
      var p := RailTouches(s, pid);
      ProcTally(s, Apply(s, e), pid, p);
    case PollClear(pid) => ClearTally(s, pid);
    case PollRecord(pid) => RecordTally(s, pid);
  }
}
