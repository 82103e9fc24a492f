/** A party's signing ceremony when nothing comes between its statements: starting it and polling it, over the
    rows of a ContractDesk, each held to its own steps of PartySigning.

    The rail, the clock and the other handlers are the environment: what the rail answers is a parameter. The lemmas
    say where the four statements of a start and of a poll lead by what the tables say when they are read, step by
    step; the methods then do the same to the rows and answer their callers as the code does. What the interleaved
    statements guarantee beside this is said in PartySafety, PartyOrder and PartyCoverage. */
module PartyCeremony {
  import opened Wrappers
  import opened PartySigning
  import opened PartyRuns
  import opened PartyHandlers
  import opened PartyTally

  datatype SignError = NotYourTurn | Unpicked(why: PickError) | NoPartyCopy | CeremonyOpen

  datatype Progress = NotStarted | Waiting | Over | NoDocument | BytesChanged | NotRecorded | Complete

  lemma {:induction false} FourSteps(s: State, a: Event, b: Event, c: Event, d: Event)
    ensures RunFrom(s, [a, b, c, d]) == Apply(Apply(Apply(Apply(s, a), b), c), d)
  {
    hide Apply;
    OneMore(s, [], a);
    OneMore(s, [a], b);
    OneMore(s, [a, b], c);
    OneMore(s, [a, b, c], d);
    assert [] + [a] == [a] && [a] + [b] == [a, b] && [a, b] + [c] == [a, b, c] && [a, b, c] + [d] == [a, b, c, d];
  }

  lemma {:induction false} GoesTwice(s: State, pid: int, p: Proc, q: Proc)
    requires pid !in s.procs
    ensures Goes(Goes(s, pid, p), pid, q) == Goes(s, pid, q) && Ends(Goes(s, pid, p), pid) == s
  {
    assert s.procs[pid := p][pid := q] == s.procs[pid := q];
    assert s.procs[pid := p] - {pid} == s.procs;
  }

  // ------------------------------------------------------------------ starting

  function StartSteps(pid: int, party: int, signatory: int, sid: string, abandoned: bool): seq<Event> {
    [StartCheck(pid, party), StartPick(pid, signatory), StartPush(pid, sid), StartLock(pid, abandoned)]
  }

  /** Who may be asked to sign: a signatory of this party with a number, who has not signed yet. */
  predicate Eligible(t: Tables, party: int, id: int) {
    id in t.signatories && t.signatories[id].party == party && !t.signatories[id].signed && t.signatories[id].reg != ""
  }

  /** `all` is what the query for them returns, oldest first. */
  ghost predicate Lists(t: Tables, party: int, all: seq<Candidate>) {
    && (forall i | 0 <= i < |all| :: Eligible(t, party, all[i].id) && all[i].user == t.signatories[all[i].id].user)
    && (forall id | Eligible(t, party, id) :: exists i :: 0 <= i < |all| && all[i].id == id)
  }

  predicate Blocked(ps: map<int, Party>, party: int)
    requires party in ps
  {
    exists q | q in ps :: ComesBefore(ps[q], ps[party].order) && ps[q].state != Signed
  }

  predicate HasCopy(t: Tables, party: int) { party in t.copies && t.copies[party].content != "" }

  predicate Free(p: Party, abandoned: bool) { Answerable(p) && (p.session == None || abandoned) }

  lemma {:induction false} PickedIs(s: State, pid: int, party: int, signatory: int)
    requires pid !in s.procs && party in s.parties && !Blocked(s.parties, party)
    requires Eligible(TablesOf(s), party, signatory) && HasCopy(TablesOf(s), party)
    ensures Apply(Apply(s, StartCheck(pid, party)), StartPick(pid, signatory))
            == Goes(s, pid, Picked(party, signatory, s.signatories[signatory].reg, s.copies[party].content,
                Stored(s, party)))
  {
    hide Desk, Poll;
    assert Apply(s, StartCheck(pid, party)) == Goes(s, pid, Checked(party));
    GoesTwice(s, pid, Checked(party),
        Picked(party, signatory, s.signatories[signatory].reg, s.copies[party].content, Stored(s, party)));
  }

  lemma {:induction false} LockedIs(s: State, pid: int, p: Proc, sid: string, abandoned: bool)
    requires At(s, pid) == Some(p) && p.Picked? && sid !in s.rail && p.party in s.parties
    ensures var t := Apply(Apply(s, StartPush(pid, sid)), StartLock(pid, abandoned));
            TablesOf(t) == if Free(s.parties[p.party], abandoned)
                           then TablesOf(s).(parties := s.parties[p.party := s.parties[p.party].(session := Some(sid),
                               signer := Some(p.signatory))])
                           else TablesOf(s)
  {
    hide Desk, Poll;
    assert Apply(s, StartPush(pid, sid))
        == Goes(s.(rail := s.rail[sid := Ceremony(p.party, p.signatory, p.reg, p.content, p.copy)]), pid,
            Pushed(p.party, sid));
  }

  /** A start that reaches the rail takes the lock, or changes nothing here. */
  lemma {:induction false} StartIs(s: State, pid: int, party: int, signatory: int, sid: string, abandoned: bool)
    requires pid !in s.procs && party in s.parties && !Blocked(s.parties, party) && sid !in s.rail
    requires Eligible(TablesOf(s), party, signatory) && HasCopy(TablesOf(s), party)
    ensures TablesOf(RunFrom(s, StartSteps(pid, party, signatory, sid, abandoned)))
            == if Free(s.parties[party], abandoned)
               then TablesOf(s).(parties := s.parties[party := s.parties[party].(session := Some(sid),
                   signer := Some(signatory))])
               else TablesOf(s)
  {
    hide Apply, RunFrom, Blocked;
    FourSteps(s, StartCheck(pid, party), StartPick(pid, signatory), StartPush(pid, sid), StartLock(pid, abandoned));
    PickedIs(s, pid, party, signatory);
    var p := Picked(party, signatory, s.signatories[signatory].reg, s.copies[party].content, Stored(s, party));
    LockedIs(Goes(s, pid, p), pid, p, sid, abandoned);
  }

  // ------------------------------------------------------------------ polling

  function PollSteps(pid: int, party: int): seq<Event> {
    [PollRead(pid, party), PollRail(pid), PollClear(pid), PollRecord(pid)]
  }

  /** There is a ceremony, and it is known whose. */
  predicate Readable(t: Tables, party: int) {
    && party in t.parties && party in t.copies && t.parties[party].session.Some? && t.parties[party].signer.Some?
    && t.parties[party].signer.value in t.signatories && t.signatories[t.parties[party].signer.value].reg != ""
  }

  /** The ceremony as the poll reads it. */
  function Reading(s: State, party: int): (p: Proc)
    requires Readable(TablesOf(s), party)
    ensures p.Polling? && p.party == party && p.sid == s.parties[party].session.value
  {
    var g := s.parties[party].signer.value;
    Polling(party, s.parties[party].session.value, g, s.signatories[g].reg, s.copies[party].content,
        s.copies[party].sha, Stored(s, party))
  }

  lemma {:induction false} NothingToDo(s: State, pid: int)
    requires pid !in s.procs
    ensures Apply(s, PollRail(pid)) == s && Apply(s, PollClear(pid)) == s && Apply(s, PollRecord(pid)) == s
  {
    hide Desk, Start, Record;
    assert At(s, pid) == None;
  }

  lemma {:induction false} PollReads(s: State, pid: int, party: int)
    requires pid !in s.procs
    ensures Apply(s, PollRead(pid, party))
            == if Readable(TablesOf(s), party) then Goes(s, pid, Reading(s, party)) else s
  {
    hide Desk, Start, Record;
  }

  /** What the rail's answer makes of the poll: nothing, a lock to clear, or a signature to record. */
  function AfterRail(p: Proc, answer: Option<Answer>): Option<Proc>
    requires p.Polling?
  {
    match answer
    case None => None
    case Some(Settled) => Some(Clearing(p.party, p.sid))
    case Some(Completed(pdf)) =>
      if pdf == "" || Sha(p.content) != p.sha then None
      else Some(Recording(p.party, p.sid, p.signatory, p.reg, p.sha, p.copy, pdf))
  }

  function AnswerOf(s: State, sid: string): Option<Answer> {
    if sid in s.answers then Some(s.answers[sid]) else None
  }

  lemma {:induction false} RailAnswered(s: State, pid: int, p: Proc)
    requires pid !in s.procs && p.Polling?
    ensures Apply(Goes(s, pid, p), PollRail(pid))
            == match AfterRail(p, AnswerOf(s, p.sid)) case Some(q) => Goes(s, pid, q) case None => s
  {
    hide Desk, Start, Record;
    assert At(Goes(s, pid, p), pid) == Some(p);
    match AfterRail(p, AnswerOf(s, p.sid))
    case Some(q) => GoesTwice(s, pid, p, q);
    case None => GoesTwice(s, pid, p, p);
  }

  /** The lock is cleared if it still is this ceremony's. */
  lemma {:induction false} ClearIs(s: State, pid: int, party: int, sid: string)
    requires pid !in s.procs && party in s.parties && s.parties[party].session == Some(sid)
    ensures Apply(Apply(Goes(s, pid, Clearing(party, sid)), PollClear(pid)), PollRecord(pid))
            == s.(parties := s.parties[party := s.parties[party].(session := None, signer := None)])
  {
    hide Desk, Start, Record;
    var g := Goes(s, pid, Clearing(party, sid));
    assert At(g, pid) == Some(Clearing(party, sid));
    GoesTwice(s, pid, Clearing(party, sid), Clearing(party, sid));
    var t := s.(parties := s.parties[party := s.parties[party].(session := None, signer := None)]);
    assert Apply(g, PollClear(pid)) == t;
    hide Apply;
    NothingToDo(t, pid);
  }

  /** What recordPartySignature's statements ask for, all of which have to hold. */
  ghost predicate Recordable(s: State, party: int)
    requires Readable(TablesOf(s), party)
  {
    && Answerable(s.parties[party])
    && s.signatories[s.parties[party].signer.value].party == party
       && !s.signatories[s.parties[party].signer.value].signed
    && forall k | 0 <= k < |s.ledger| :: s.ledger[k].party != party
  }

  /** The tables once the signature is on record. */
  function Recorded(s: State, party: int, pdf: string): Tables
    requires Readable(TablesOf(s), party)
  {
    var p := Reading(s, party);
    WithParty(
      TablesOf(s).(signatories := s.signatories[p.signatory := s.signatories[p.signatory].(signed := true)],
                   copies := s.copies[party := s.copies[party].(signed := Some(pdf))],
                   ledger := s.ledger + [Row(party, p.signatory, p.reg, p.sid, p.sha, p.copy)]),
      party, s.parties[party].(state := Signed, session := None, signer := None))
  }

  lemma {:induction false} RecordIs(s: State, pid: int, party: int, pdf: string)
    requires pid !in s.procs && Readable(TablesOf(s), party)
    ensures var p := Reading(s, party);
            var r := Recording(p.party, p.sid, p.signatory, p.reg, p.sha, p.copy, pdf);
            TablesOf(Apply(Apply(Goes(s, pid, r), PollClear(pid)), PollRecord(pid)))
            == if Recordable(s, party) then Recorded(s, party, pdf) else TablesOf(s)
  {
    var p := Reading(s, party);
    var r := Recording(p.party, p.sid, p.signatory, p.reg, p.sha, p.copy, pdf);
    RecordStep(Goes(s, pid, r), pid, r);
    RecordTables(s, pid, party, pdf);
    hide Apply, Record, Recorded, Recordable, Reading;
  }

  lemma {:induction false} RecordStep(g: State, pid: int, r: Proc)
    requires At(g, pid) == Some(r) && r.Recording?
    ensures Apply(Apply(g, PollClear(pid)), PollRecord(pid)) == Record(g, pid, r)
  {
    hide Desk, Start, Record;
    assert Apply(g, PollClear(pid)) == g;
  }

  lemma {:induction false} RecordTables(s: State, pid: int, party: int, pdf: string)
    requires pid !in s.procs && Readable(TablesOf(s), party)
    ensures var p := Reading(s, party);
            var r := Recording(p.party, p.sid, p.signatory, p.reg, p.sha, p.copy, pdf);
            TablesOf(Record(Goes(s, pid, r), pid, r))
                == if Recordable(s, party) then Recorded(s, party, pdf) else TablesOf(s)
  {
    hide Tally;
  }

  /** From `t` to `u` a party signs: the party and its ceremony, its signatory, its copy and one row of the ledger, and
      nothing else but what the contract says of itself. */
  ghost predicate SignedFrom(t: Tables, u: Tables, party: int, pdf: string, copyNo: nat) {
    && party in t.parties && t.parties[party].session.Some? && t.parties[party].signer.Some? && party in t.copies
    && t.parties[party].signer.value in t.signatories
    && var p, g := t.parties[party], t.parties[party].signer.value;
       && u.parties == t.parties[party := p.(state := Signed, session := None, signer := None)]
       && u.copies == t.copies[party := t.copies[party].(signed := Some(pdf))]
       && u.signatories == t.signatories[g := t.signatories[g].(signed := true)]
       && u.ledger == t.ledger + [Row(party, g, t.signatories[g].reg, p.session.value, t.copies[party].sha, copyNo)]
  }

  lemma {:induction false} RecordedMeans(s: State, party: int, pdf: string)
    requires Readable(TablesOf(s), party)
    ensures SignedFrom(TablesOf(s), Recorded(s, party, pdf), party, pdf, Stored(s, party))
  {
    hide Tally;
  }

  /** What a poll tells its caller, case by case, by what the tables said when it began and what the rail says. */
  ghost predicate Answers(t: Tables, party: int, answer: Option<Answer>, r: Progress) {
    if party !in t.parties || party !in t.copies || t.parties[party].session == None || t.parties[party].signer == None
    then r == NotStarted
    else
      var g := t.parties[party].signer.value;
      if g !in t.signatories || t.signatories[g].reg == "" then r == NotStarted
      else match answer
           case None => r == Waiting
           case Some(Settled) => r == Over
           case Some(Completed(pdf)) =>
             if pdf == "" then r == NoDocument
             else if Sha(t.copies[party].content) != t.copies[party].sha then r == BytesChanged
             else if && (t.parties[party].state == Invited || t.parties[party].state == Viewed)
                     && t.signatories[g].party == party && !t.signatories[g].signed
                     && forall k | 0 <= k < |t.ledger| :: t.ledger[k].party != party
             then r == Complete
             else r == NotRecorded
  }

  /** A required party other than the issuer has a smaller number and has not signed. */
  ghost predicate SomebodyBefore(ps: map<int, Party>, party: int)
    requires party in ps
  {
    exists q :: && q in ps && !ps[q].issuer && ps[q].required && ps[q].state != Signed
                && ps[q].order.Some? && ps[party].order.Some? && ps[q].order.value < ps[party].order.value
  }

  lemma {:induction false} BlockedIff(ps: map<int, Party>, party: int)
    requires party in ps
    ensures Blocked(ps, party) <==> SomebodyBefore(ps, party)
  {
    if Blocked(ps, party) {
      var q :| q in ps && ComesBefore(ps[q], ps[party].order) && ps[q].state != Signed;
      assert q in ps && ps[q].required;
    }
  }

  // ------------------------------------------------------------------ the handlers

  class Signing {
    const desk: ContractDesk

    constructor (desk: ContractDesk)
      ensures this.desk == desk
    {
      this.desk := desk;
    }

    /** signerFor and startPartySignature. `sid` is the id the rail mints, `all` the party's eligible signatories,
        `abandoned` whether the ceremony on the row is twenty minutes old. */
    method StartSignature(ghost pid: int, party: int, all: seq<Candidate>, user: string, sid: string, abandoned: bool)
      returns (r: Result<int, SignError>)
      requires desk.Valid() && pid !in desk.world.procs && party in desk.parties && sid !in desk.world.rail
      requires Lists(desk.Contents(), party, all)
      modifies desk
      ensures desk.Valid()
      ensures var was, p := old(desk.Contents()), old(desk.parties)[party];
              if SomebodyBefore(was.parties, party) then r == Err(NotYourTurn)
              else if all == [] then r == Err(Unpicked(NoSignatory))
              else if user != "" && |all| > 1 && (forall i | 0 <= i < |all| :: all[i].user != user)
              then r == Err(Unpicked(NotOneOfThem))
              else if party !in was.copies || was.copies[party].content == "" then r == Err(NoPartyCopy)
              else if (p.state != Invited && p.state != Viewed) || (p.session != None && !abandoned)
              then r == Err(CeremonyOpen)
              else r.Ok?
      ensures r.Err? && !r.error.CeremonyOpen? ==> desk.world == old(desk.world)
      ensures r.Ok? ==> Eligible(old(desk.Contents()), party, r.value)
                        && desk.world == RunFrom(old(desk.world), StartSteps(pid, party, r.value, sid, abandoned))
                        && desk.parties == old(desk.parties)[party := old(desk.parties)[party].(session := Some(sid),
                           signer := Some(r.value))]
      ensures r.Ok? && user == "" ==> r.value == all[0].id
      ensures r.Ok? && user != "" && old(desk.signatories)[r.value].user != user ==>
                forall id | Eligible(old(desk.Contents()), party, id) :: id == r.value
      ensures r.Err? ==> desk.Contents() == old(desk.Contents())
    {
      BlockedIff(desk.parties, party);
      hide RunFrom, Apply, Blocked, SomebodyBefore;
      if Blocked(desk.parties, party) { return Err(NotYourTurn); }
      var picked := PickSigner(all, user);
      if picked.Err? {
        assert picked.error == NoSignatory || picked.error == NotOneOfThem;
        return Err(Unpicked(picked.error));
      }
      var signatory := picked.value.id;
      if !(party in desk.copies && desk.copies[party].content != "") { return Err(NoPartyCopy); }
      StartIs(desk.world, pid, party, signatory, sid, abandoned);
      desk.world := RunFrom(desk.world, StartSteps(pid, party, signatory, sid, abandoned));
      var p := desk.parties[party];
      if !(Answerable(p) && (p.session == None || abandoned)) { return Err(CeremonyOpen); }
      desk.parties := desk.parties[party := p.(session := Some(sid), signer := Some(signatory))];
      r := Ok(signatory);
    }

    /** recordPartySignature, all of it or nothing: the party settles under its open ceremony, the very
        signatory it was opened for is marked, the signed bytes are kept and one ledger row is written. */
    method RecordSignature(ghost was: State, party: int, sid: string, signatory: int, reg: string, sha: Digest,
        pdf: string, copyNo: nat)
      returns (r: Progress)
      requires desk.Contents() == TablesOf(was) && Readable(TablesOf(was), party) && copyNo == Stored(was, party)
      requires var p := Reading(was, party); sid == p.sid && signatory == p.signatory && reg == p.reg && sha == p.sha
      modifies desk`contract, desk`parties, desk`copies, desk`signatories, desk`ledger
      ensures desk.Contents() == if Recordable(was, party) then Recorded(was, party, pdf) else TablesOf(was)
      ensures r == if Recordable(was, party) then Complete else NotRecorded
      ensures r == Complete ==> SignedFrom(old(desk.Contents()), desk.Contents(), party, pdf, copyNo)
      ensures r == NotRecorded ==> desk.Contents() == old(desk.Contents())
      ensures r == Complete && !old(desk.parties)[party].issuer
              && old(desk.contract) in {Sent, PartlySigned, Executed, Refused} ==>
                && Says(desk.parties, old(desk.contract), desk.contract)
                && (desk.contract == Executed
                    <==> && (forall q | IsAwaited(desk.parties, q) :: desk.parties[q].state == Signed)
                         && forall q :: !HasDeclined(desk.parties, q))
    {
      RecordedMeans(was, party, pdf);
      hide WithParty, SignedFrom;
      var p := desk.parties[party];
      if !(p.session == Some(sid) && Answerable(p)) { return NotRecorded; }
      var g := desk.signatories[signatory];
      if !(g.party == party && g.reg == reg && !g.signed) { return NotRecorded; }
      if exists k | 0 <= k < |desk.ledger| :: desk.ledger[k].party == party { return NotRecorded; }
      desk.signatories := desk.signatories[signatory := g.(signed := true)];
      desk.copies := desk.copies[party := desk.copies[party].(signed := Some(pdf))];
      desk.ledger := desk.ledger + [Row(party, signatory, reg, sid, sha, copyNo)];
      desk.UpdateParty(party, p.(state := Signed, session := None, signer := None));
      if !p.issuer {
        ghost var q := SomebodyIsAwaited(desk.parties, party);
      }
      r := Complete;
    }

    /** pollPartySignature: `answer` is what the rail says of the ceremony the row names, `copyNo` which of the
        party's copies is on file. */
    method PollSignature(ghost pid: int, party: int, answer: Option<Answer>, copyNo: nat) returns (r: Progress)
      requires desk.Valid() && pid !in desk.world.procs && copyNo == Stored(desk.world, party)
      requires Readable(desk.Contents(), party) ==> answer == AnswerOf(desk.world, desk.parties[party].session.value)
      modifies desk
      ensures desk.Valid() && desk.world == RunFrom(old(desk.world), PollSteps(pid, party))
      ensures r == Complete <==> desk.ledger != old(desk.ledger)
      ensures r == Complete ==>
                && party in desk.parties && desk.parties[party].state == Signed
                && desk.parties[party].session == None
      ensures Answers(old(desk.Contents()), party, answer, r)
      ensures r == Complete ==>
                && answer.Some? && answer.value.Completed?
                && SignedFrom(old(desk.Contents()), desk.Contents(), party, answer.value.pdf, copyNo)
      ensures r != Complete && r != Over ==> desk.Contents() == old(desk.Contents())
      ensures r == Over ==>
                var p := old(desk.parties)[party].(session := None, signer := None);
                desk.Contents() == old(desk.Contents()).(parties := old(desk.parties)[party := p])
    {
      hide RunFrom, Apply, WithParty;
      ghost var was := desk.world;
      FourSteps(was, PollRead(pid, party), PollRail(pid), PollClear(pid), PollRecord(pid));
      PollReads(was, pid, party);
      desk.world := RunFrom(was, PollSteps(pid, party));
      var now := Tables(desk.contract, desk.parties, desk.copies, desk.signatories, desk.ledger);
      if !Readable(now, party) {
        NothingToDo(was, pid);
        return NotStarted;
      }
      ghost var p := Reading(was, party);
      RailAnswered(was, pid, p);
      NothingToDo(was, pid);
      if answer == None { return Waiting; }
      var sid := desk.parties[party].session.value;
      if answer.value.Settled? {
        ClearIs(was, pid, party, sid);
        desk.parties := desk.parties[party := desk.parties[party].(session := None, signer := None)];
        return Over;
      }
      var pdf := answer.value.pdf;
      if pdf == "" { return NoDocument; }
      var copy := desk.copies[party];
      if Sha(copy.content) != copy.sha { return BytesChanged; } // the stored copy against its own hash
      RecordIs(was, pid, party, pdf);
      var signatory := desk.parties[party].signer.value;
      r := RecordSignature(was, party, sid, signatory, desk.signatories[signatory].reg, copy.sha, pdf, copyNo);
      RecordedMeans(was, party, pdf);
      hide Recorded, Recordable;
    }
  }
}
