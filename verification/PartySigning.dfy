/** Signing a contract with other parties (modules/documents/partysign.go, sending.go, parties.go, inbox.go,
    invite.go), one contract, one statement or committed transaction at a time, in any interleaving.

    The tables are maps by row id. A handler in flight is a process and carries what it has read; the answers of the
    rail, the clock and the ids that tables and rail mint are the environment's choice. A guard read in a statement of
    its own may be stale when its write lands, and the events say so. The history of copies and their numbers is there
    for the theorems alone and decides nothing. */
module PartySigning {
  import opened Wrappers

  /** A digest: equal only for equal bytes. */
  datatype Digest = Sha(bytes: string)

  datatype PartyState = Draft | Invited | Viewed | Signed | Declined | Withdrawn | Expired

  /** `session` is the lock of an open ceremony, `signer` the signatory it was opened for. */
  datatype Party = Party(issuer: bool, required: bool, order: Option<int>, state: PartyState, session: Option<string>,
      signer: Option<int>)

  /** A party's frozen copy. */
  datatype Copy = Copy(content: string, sha: Digest, signed: Option<string>)

  datatype Signatory = Signatory(party: int, reg: string, user: string, signed: bool)

  datatype Contract = NoContract | Drafting | Sent | PartlySigned | Executed | Refused | Recalled

  /** What the rail was asked: by whom, for which party, over which bytes, from which of its copies. */
  datatype Ceremony = Ceremony(party: int, signatory: int, reg: string, sent: string, copy: nat)

  datatype Answer = Completed(pdf: string) | Settled

  /** A party's row of the signature ledger, and from which of its copies the digest was read. */
  datatype Row = Row(party: int, signatory: int, reg: string, session: string, covered: Digest, copy: nat)

  datatype Proc =
    | Checked(party: int) // the order allows this party
    | Picked(party: int, signatory: int, reg: string, content: string, copy: nat)
    | Pushed(party: int, sid: string)
    | Polling(party: int, sid: string, signatory: int, reg: string, content: string, sha: Digest, copy: nat)
    | Clearing(party: int, sid: string)
    | Recording(party: int, sid: string, signatory: int, reg: string, sha: Digest, copy: nat, pdf: string)

  datatype State = State(
    contract: Contract,
    parties: map<int, Party>,
    copies: map<int, Copy>,
    signatories: map<int, Signatory>,
    ledger: seq<Row>,
    rail: map<string, Ceremony>,
    answers: map<string, Answer>,
    procs: map<int, Proc>,
    unmarked: set<int>, // sends that have stored a copy and not yet marked the contract sent
    known: set<int>, // every party and signatory id there ever was
    history: map<(int, nat), string>, // the bytes of every copy ever stored, numbered per party
    stored: map<int, nat>)

  /** `stale` marks a handler whose guard was read before something else came between: it goes on regardless. */
  datatype Event =
    | AddParty(id: int, issuer: bool, required: bool, order: Option<int>, stale: bool)
    | BecomesContract
    | RemoveParty(id: int, stale: bool)
    | AddSignatory(id: int, party: int, reg: string, user: string)
    | RemoveSignatory(id: int)
    | StoreCopy(pid: int, party: int, content: string)
    | MarkSent(pid: int)
    | View(party: int)
    | Decline(party: int)
    | Withdraw(stale: bool)
    | Reopen(stale: bool)
    | StartCheck(pid: int, party: int)
    | StartPick(pid: int, signatory: int)
    | StartPush(pid: int, sid: string)
    | StartLock(pid: int, abandoned: bool)
    | RailAnswers(sid: string, answer: Answer)
    | PollRead(pid: int, party: int)
    | PollRail(pid: int)
    | PollClear(pid: int)
    | PollRecord(pid: int)

  // ------------------------------------------------------------------ the trigger

  predicate Unsent(c: Contract) { c == NoContract || c == Drafting }

  predicate Out(c: Contract) { c == Sent || c == PartlySigned || c == Executed || c == Refused }

  /** The parties that are not the issuer, in the sets the trigger counts. */
  function Mandatory(ps: map<int, Party>): set<int> { set p | p in ps && !ps[p].issuer && ps[p].required }

  function Delivered(ps: map<int, Party>): set<int> { set p | p in ps && !ps[p].issuer && ps[p].state != Draft }

  function SignedOnes(ps: map<int, Party>): set<int> { set p | p in ps && !ps[p].issuer && ps[p].state == Signed }

  function DeclinedOnes(ps: map<int, Party>): set<int> { set p | p in ps && !ps[p].issuer && ps[p].state == Declined }

  /** Who has to sign: the mandatory parties, or if there is none, all it went out to. */
  function Awaited(ps: map<int, Party>): set<int> {
    if Mandatory(ps) != {} then Mandatory(ps) else Delivered(ps)
  }

  function Tally(ps: map<int, Party>, was: Contract): Contract {
    var done := |Awaited(ps) * SignedOnes(ps)|;
    if Awaited(ps) == {} then was
    else if DeclinedOnes(ps) != {} then Refused
    else if done >= |Awaited(ps)| then Executed
    else if done > 0 then PartlySigned
    else Sent
  }

  /** documents_refresh_contract_state: the contract follows its parties while it is out. */
  function Refresh(s: State): State {
    if Out(s.contract) then s.(contract := Tally(s.parties, s.contract)) else s
  }

  // ------------------------------------------------------------------ parties, copies, states

  predicate Removable(p: Party) {
    p.state == Draft || p.state == Declined || p.state == Withdrawn || p.state == Expired
  }

  predicate Answerable(p: Party) { p.state == Invited || p.state == Viewed }

  function SetParty(s: State, id: int, p: Party): State {
    Refresh(s.(parties := s.parties[id := p]))
  }

  function Stored(s: State, party: int): nat {
    if party in s.stored then s.stored[party] else 0
  }

  /** storePartyCopy: a signed copy stays, any other is replaced; a draft party becomes invited. */
  function StoreStep(s: State, pid: int, party: int, content: string): State {
    if party !in s.parties || s.parties[party].issuer then s
    else
      var kept := party in s.copies && s.copies[party].signed.Some?;
      var n := Stored(s, party) + 1;
      var t := if kept then s
               else s.(copies := s.copies[party := Copy(content, Sha(content), None)],
                       stored := s.stored[party := n], history := s.history[(party, n) := content]);
      var p := s.parties[party];
      SetParty(t.(unmarked := t.unmarked + {pid}), party, if p.state == Draft then p.(state := Invited) else p)
  }

  function RemoveStep(s: State, id: int): State {
    if id in s.parties && Removable(s.parties[id]) then
      Refresh(s.(parties := s.parties - {id}, copies := s.copies - {id},
                 signatories := map g | g in s.signatories && s.signatories[g].party != id :: s.signatories[g]))
    else s
  }

  function WithdrawStep(s: State): State {
    s.(contract := Recalled,
       parties := map p | p in s.parties ::
         if !s.parties[p].issuer && (s.parties[p].state == Draft || Answerable(s.parties[p]))
         then s.parties[p].(state := Withdrawn, session := None, signer := None) else s.parties[p])
  }

  function ReopenStep(s: State): State {
    var parties := map p | p in s.parties ::
      if s.parties[p].state == Withdrawn then s.parties[p].(state := Draft) else s.parties[p];
    s.(contract := Drafting, parties := parties,
       copies := map p | p in s.copies
           && !(p in parties && parties[p].state == Draft && s.copies[p].signed.None?) :: s.copies[p])
  }

  function Desk(s: State, e: Event): State
    requires e.AddParty? || e.BecomesContract? || e.RemoveParty? || e.AddSignatory? || e.RemoveSignatory?
             || e.StoreCopy? || e.MarkSent? || e.View? || e.Decline? || e.Withdraw? || e.Reopen?
  {
    match e
    case AddParty(id, issuer, required, order, stale) =>
      if id in s.known || !(stale || (Unsent(s.contract) && s.ledger == [])) then s
      else SetParty(s.(known := s.known + {id}), id, Party(issuer, required, order, Draft, None, None))
    case BecomesContract => if s.contract == NoContract then s.(contract := Drafting) else s
    case RemoveParty(id, stale) => if stale || s.contract != Executed then RemoveStep(s, id) else s
    case AddSignatory(id, party, reg, user) =>
      if id in s.known || party !in s.parties then s
      else s.(known := s.known + {id}, signatories := s.signatories[id := Signatory(party, reg, user, false)])
    case RemoveSignatory(id) =>
      if id in s.signatories && !s.signatories[id].signed then s.(signatories := s.signatories - {id}) else s
    case StoreCopy(pid, party, content) => StoreStep(s, pid, party, content)
    case MarkSent(pid) =>
      if pid !in s.unmarked then s
      else s.(unmarked := s.unmarked - {pid}, contract := if Unsent(s.contract) then Sent else s.contract)
    case View(party) =>
      if party in s.parties && s.parties[party].state == Invited
          then SetParty(s, party, s.parties[party].(state := Viewed)) else s
    case Decline(party) =>
      if party in s.parties && Answerable(s.parties[party])
      then SetParty(s, party, s.parties[party].(state := Declined, session := None, signer := None)) else s
    case Withdraw(stale) => if stale || s.contract != Executed then WithdrawStep(s) else s
    case Reopen(stale) => if stale || s.contract == Recalled then ReopenStep(s) else s
  }

  // ------------------------------------------------------------------ the ceremony

  function At(s: State, pid: int): Option<Proc> {
    if pid in s.procs then Some(s.procs[pid]) else None
  }

  function Goes(s: State, pid: int, p: Proc): State { s.(procs := s.procs[pid := p]) }

  function Ends(s: State, pid: int): State { s.(procs := s.procs - {pid}) }

  /** `q` has to sign before a party of this order. */
  predicate ComesBefore(q: Party, order: Option<int>) {
    !q.issuer && q.required && q.order.Some? && order.Some? && q.order.value < order.value
  }

  /** signerFor's first question: has everybody who comes before signed? */
  predicate TurnHasCome(s: State, party: int)
    requires party in s.parties
  {
    forall q | q in s.parties && ComesBefore(s.parties[q], s.parties[party].order) :: s.parties[q].state == Signed
  }

  function Start(s: State, e: Event): State
    requires e.StartCheck? || e.StartPick? || e.StartPush? || e.StartLock?
  {
    match e
    case StartCheck(pid, party) =>
      if pid !in s.procs && party in s.parties && TurnHasCome(s, party) then Goes(s, pid, Checked(party)) else s
    case StartPick(pid, signatory) =>
      (match At(s, pid)
       case Some(Checked(party)) =>
         // an unsigned signatory of this party with a number, and the party's frozen copy
         if signatory in s.signatories && s.signatories[signatory].party == party && !s.signatories[signatory].signed
            && s.signatories[signatory].reg != "" && party in s.copies && s.copies[party].content != ""
         then Goes(s, pid, Picked(party, signatory, s.signatories[signatory].reg, s.copies[party].content,
             Stored(s, party)))
         else Ends(s, pid)
       case _ => s)
    case StartPush(pid, sid) =>
      (match At(s, pid)
       case Some(Picked(party, signatory, reg, content, copy)) =>
         if sid in s.rail then s
         else Goes(s.(rail := s.rail[sid := Ceremony(party, signatory, reg, content, copy)]), pid, Pushed(party, sid))
       case _ => s)
    case StartLock(pid, abandoned) =>
      (match At(s, pid)
       case Some(Pushed(party, sid)) =>
         var t := Ends(s, pid);
         if party in s.parties && Answerable(s.parties[party]) && (s.parties[party].session == None || abandoned)
             && sid in s.rail
         then t.(parties := s.parties[party := s.parties[party].(session := Some(sid),
             signer := Some(s.rail[sid].signatory))])
         else t
       case _ => s)
  }

  /** recordPartySignature, all of it or nothing. */
  function Record(s: State, pid: int, p: Proc): State
    requires p.Recording?
  {
    var t := Ends(s, pid);
    if p.party in s.parties && s.parties[p.party].session == Some(p.sid) && Answerable(s.parties[p.party])
       && p.signatory in s.signatories
       && s.signatories[p.signatory].party == p.party && s.signatories[p.signatory].reg == p.reg
          && !s.signatories[p.signatory].signed
       && (forall k | 0 <= k < |s.ledger| :: s.ledger[k].party != p.party)
    then
      SetParty(
        t.(signatories := s.signatories[p.signatory := s.signatories[p.signatory].(signed := true)],
           copies := if p.party in s.copies then s.copies[p.party := s.copies[p.party].(signed := Some(p.pdf))]
               else s.copies,
           ledger := s.ledger + [Row(p.party, p.signatory, p.reg, p.sid, p.sha, p.copy)]),
        p.party, s.parties[p.party].(state := Signed, session := None, signer := None))
    else t
  }

  function Poll(s: State, e: Event): State
    requires e.RailAnswers? || e.PollRead? || e.PollRail? || e.PollClear? || e.PollRecord?
  {
    match e
    case RailAnswers(sid, answer) => if sid in s.rail then s.(answers := s.answers[sid := answer]) else s
    case PollRead(pid, party) =>
      if pid in s.procs || party !in s.parties || party !in s.copies then s
      else (match (s.parties[party].session, s.parties[party].signer)
        case (Some(sid), Some(signatory)) =>
          if signatory in s.signatories && s.signatories[signatory].reg != ""
          then Goes(s, pid, Polling(party, sid, signatory, s.signatories[signatory].reg,
                                    s.copies[party].content, s.copies[party].sha, Stored(s, party)))
          else s
        case _ => s)
    case PollRail(pid) =>
      (match At(s, pid)
       case Some(Polling(party, sid, signatory, reg, content, sha, copy)) =>
         if sid !in s.answers then Ends(s, pid)
         else (match s.answers[sid]
           case Settled => Goes(s, pid, Clearing(party, sid))
           case Completed(pdf) =>
             if pdf == "" || Sha(content) != sha then Ends(s, pid) // the bytes are checked against their own hash
             else Goes(s, pid, Recording(party, sid, signatory, reg, sha, copy, pdf)))
       case _ => s)
    case PollClear(pid) =>
      (match At(s, pid)
       case Some(Clearing(party, sid)) =>
         var t := Ends(s, pid);
         if party in s.parties && s.parties[party].session == Some(sid)
         then t.(parties := s.parties[party := s.parties[party].(session := None, signer := None)]) else t
       case _ => s)
    case PollRecord(pid) =>
      (match At(s, pid)
       case Some(Recording(_, _, _, _, _, _, _)) => Record(s, pid, s.procs[pid])
       case _ => s)
  }

  function Apply(s: State, e: Event): State {
    match e
    case AddParty(_, _, _, _, _) => Desk(s, e)
    case BecomesContract => Desk(s, e)
    case RemoveParty(_, _) => Desk(s, e)
    case AddSignatory(_, _, _, _) => Desk(s, e)
    case RemoveSignatory(_) => Desk(s, e)
    case StoreCopy(_, _, _) => Desk(s, e)
    case MarkSent(_) => Desk(s, e)
    case View(_) => Desk(s, e)
    case Decline(_) => Desk(s, e)
    case Withdraw(_) => Desk(s, e)
    case Reopen(_) => Desk(s, e)
    case StartCheck(_, _) => Start(s, e)
    case StartPick(_, _) => Start(s, e)
    case StartPush(_, _) => Start(s, e)
    case StartLock(_, _) => Start(s, e)
    case RailAnswers(_, _) => Poll(s, e)
    case PollRead(_, _) => Poll(s, e)
    case PollRail(_) => Poll(s, e)
    case PollClear(_) => Poll(s, e)
    case PollRecord(_) => Poll(s, e)
  }

  function Empty(): State {
    State(NoContract, map[], map[], map[], [], map[], map[], map[], {}, {}, map[], map[])
  }

  function RunFrom(s: State, events: seq<Event>): State {
    if events == [] then s else Apply(RunFrom(s, events[..|events| - 1]), events[|events| - 1])
  }

  function Run(events: seq<Event>): State { RunFrom(Empty(), events) }
}
