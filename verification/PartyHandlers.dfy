/** The handlers of a contract with other parties, when nothing comes between their statements. Each is held to
    its own steps of PartySigning, so what PartySafety and PartyOrder prove of every interleaving is about this
    code.

    The tables are the object's fields; the state of PartySigning is ghost, and Valid ties the two. The lemmas say of
    each step what it does to the tables, in the terms the code itself uses: a party set and the trigger's recount, a
    copy put in the place of another, a contract withdrawn or reopened. A contract issued whole, in one transaction,
    is shown to be the one that drafting, naming and sending would have made. */
module PartyHandlers {
  import opened Wrappers
  import opened Sets
  import opened Text
  import opened PartySigning
  import opened PartyRuns
  import opened PartyTally

  /** The rows the handlers read and write. */
  datatype Tables = Tables(
    contract: Contract, parties: map<int, Party>, copies: map<int, Copy>, signatories: map<int, Signatory>,
        ledger: seq<Row>)

  function TablesOf(s: State): Tables {
    Tables(s.contract, s.parties, s.copies, s.signatories, s.ledger)
  }

  datatype DeskError =
    | NotDraft | AlreadySigned | AlreadyExecuted | NotWithdrawn | PartyNotFound | PartySettled | Shut | NoIssuer
    | NameRequired | NumberRequired | ForeignParty | AlreadyNamed | NoSuchNominee

  // ------------------------------------------------------------------ what each step does to the tables

  /** The trigger on the parties' rows. */
  function Recount(t: Tables): Tables {
    if Out(t.contract) then t.(contract := Tally(t.parties, t.contract)) else t
  }

  function WithParty(t: Tables, id: int, p: Party): Tables {
    Recount(t.(parties := t.parties[id := p]))
  }

  lemma {:induction false} SetPartyIs(s: State, id: int, p: Party)
    ensures TablesOf(SetParty(s, id, p)) == WithParty(TablesOf(s), id, p)
  {
    hide Tally;
  }

  lemma {:induction false} InsertIs(s: State, id: int, issuer: bool, required: bool, order: Option<int>)
    requires id !in s.known && Unsent(s.contract) && s.ledger == []
    ensures TablesOf(Apply(s, AddParty(id, issuer, required, order, false)))
            == TablesOf(s).(parties := s.parties[id := Party(issuer, required, order, Draft, None, None)])
  {
    hide Tally;
  }

  lemma {:induction false} AtTheDesk(s: State)
    ensures Apply(s, BecomesContract) == Desk(s, BecomesContract)
  {
    hide Desk, Start, Poll;
  }

  lemma {:induction false} DeskBecomes(s: State)
    ensures Desk(s, BecomesContract) == if s.contract == NoContract then s.(contract := Drafting) else s
  {
    hide StoreStep, RemoveStep, WithdrawStep, ReopenStep, SetParty, Removable, Answerable;
  }

  lemma {:induction false} BecomesIs(s: State)
    requires Unsent(s.contract)
    ensures TablesOf(Apply(s, BecomesContract)) == TablesOf(s).(contract := Drafting)
  {
    hide Apply, Desk;
    AtTheDesk(s);
    DeskBecomes(s);
  }

  lemma {:induction false} RemoveIs(s: State, id: int)
    requires s.contract != Executed && id in s.parties && Removable(s.parties[id])
    ensures TablesOf(Apply(s, RemoveParty(id, false)))
            == Recount(TablesOf(s).(parties := s.parties - {id}, copies := s.copies - {id},
                                    signatories := map g | g in s.signatories
                                        && s.signatories[g].party != id :: s.signatories[g]))
  {
    hide Tally, StoreStep, WithdrawStep, ReopenStep, Answerable, Start, Poll;
  }

  lemma {:induction false} StoreIs(s: State, pid: int, party: int, content: string)
    requires party in s.parties && !s.parties[party].issuer
    ensures var t := if party in s.copies && s.copies[party].signed.Some? then TablesOf(s)
                     else TablesOf(s).(copies := s.copies[party := Copy(content, Sha(content), None)]);
            TablesOf(Apply(s, StoreCopy(pid, party, content))) == WithParty(t, party, Invite(s.parties[party]))
    ensures pid in Apply(s, StoreCopy(pid, party, content)).unmarked
  {
    hide Tally;
  }

  function Invite(p: Party): Party { if p.state == Draft then p.(state := Invited) else p }

  lemma {:induction false} RecallIs(s: State)
    ensures s.contract != Executed ==> TablesOf(Apply(s, Withdraw(false))) == TablesOf(WithdrawStep(s))
    ensures s.contract == Recalled ==> TablesOf(Apply(s, Reopen(false))) == TablesOf(ReopenStep(s))
    ensures s.contract == Executed ==> Apply(s, Withdraw(false)) == s
    ensures s.contract != Recalled ==> Apply(s, Reopen(false)) == s
  {
    hide WithdrawStep, ReopenStep;
  }

  /** From `t` to `u` the contract is a draft again: the withdrawn parties with it, everybody else as they were, and of
      the copies the signed ones and those of the others. */
  ghost predicate ReopenedFrom(t: Tables, u: Tables) {
    && u.contract == Drafting && u.signatories == t.signatories && u.ledger == t.ledger
    && u.parties.Keys == t.parties.Keys
    && (forall p | p in u.parties ::
          u.parties[p] == if t.parties[p].state == Withdrawn then t.parties[p].(state := Draft) else t.parties[p])
    && (forall p :: p in u.copies
          <==> && p in t.copies
               && (t.copies[p].signed.Some? || p !in t.parties || !(t.parties[p].state in {Draft, Withdrawn})))
    && forall p | p in u.copies :: u.copies[p] == t.copies[p]
  }

  lemma {:induction false} ReopenMeans(s: State)
    ensures ReopenedFrom(TablesOf(s), TablesOf(ReopenStep(s)))
  {}

  // ------------------------------------------------------------------ a send

  /** A party as the send read it, with the copy rendered for it; None when rendering failed. */
  datatype Delivery = Delivery(party: int, copy: Option<string>)

  /** States a send leaves alone. */
  predicate HasEnded(p: Party) {
    p.state == Signed || p.state == Declined || p.state == Withdrawn || p.state == Expired
  }

  predicate GoesTo(ps: map<int, Party>, d: Delivery) {
    d.party in ps && !ps[d.party].issuer && !HasEnded(ps[d.party]) && d.copy.Some?
  }

  function CopiesToStore(pid: int, ps: map<int, Party>, plan: seq<Delivery>): seq<Event> {
    if plan == [] then []
    else
      var init, d := CopiesToStore(pid, ps, plan[..|plan| - 1]), plan[|plan| - 1];
      if GoesTo(ps, d) then init + [StoreCopy(pid, d.party, d.copy.value)] else init
  }

  lemma {:induction false} NothingYet(s: State, pid: int, ps: map<int, Party>)
    ensures CopiesToStore(pid, ps, []) == [] && RunFrom(s, []) == s
  {}

  lemma {:induction false} NextCopy(pid: int, ps: map<int, Party>, plan: seq<Delivery>, i: nat)
    requires i < |plan|
    ensures CopiesToStore(pid, ps, plan[..i + 1])
            == if GoesTo(ps, plan[i])
                then CopiesToStore(pid, ps, plan[..i]) + [StoreCopy(pid, plan[i].party, plan[i].copy.value)]
               else CopiesToStore(pid, ps, plan[..i])
  {
    hide GoesTo;
    assert plan[..i + 1][..i] == plan[..i];
  }

  /** A send's transactions: a copy for each open party, then the mark on the contract if there was any. */
  function SendSteps(pid: int, ps: map<int, Party>, plan: seq<Delivery>): seq<Event> {
    var copies := CopiesToStore(pid, ps, plan);
    if copies == [] then [] else copies + [MarkSent(pid)]
  }

  predicate HasIssuer(ps: map<int, Party>) { exists p | p in ps :: ps[p].issuer }

  lemma {:induction false} OneMore(s: State, events: seq<Event>, e: Event)
    ensures RunFrom(s, events + [e]) == Apply(RunFrom(s, events), e)
  {
    hide Apply;
    assert (events + [e])[..|events + [e]| - 1] == events;
  }

  lemma {:induction false} MarkIs(s: State, pid: int)
    requires pid in s.unmarked
    ensures TablesOf(Apply(s, MarkSent(pid)))
            == TablesOf(s).(contract := if Unsent(s.contract) then Sent else s.contract)
  {}

  /** A delivery goes out: rendered, and to a party other than the issuer that has not answered and is not shut. */
  ghost predicate GoesOut(ps: map<int, Party>, d: Delivery) {
    && d.party in ps && !ps[d.party].issuer && d.copy.Some?
    && (ps[d.party].state == Draft || ps[d.party].state == Invited || ps[d.party].state == Viewed)
  }

  /** One of the plan's deliveries goes out to this party. */
  ghost predicate SentTo(ps: map<int, Party>, plan: seq<Delivery>, party: int) {
    exists i :: 0 <= i < |plan| && plan[i].party == party && GoesOut(ps, plan[i])
  }

  ghost predicate SignedCopy(t: Tables, party: int) { party in t.copies && t.copies[party].signed.Some? }

  /** From `t` to `u` a plan is sent: the draft parties it goes out to are invited, and each party's copy is the last
      one rendered for it, except where the copy on file is signed. */
  ghost predicate SentFrom(t: Tables, u: Tables, plan: seq<Delivery>) {
    && u.signatories == t.signatories && u.ledger == t.ledger && u.parties.Keys == t.parties.Keys
    && (forall p | p in t.parties ::
          u.parties[p] == if t.parties[p].state == Draft && SentTo(t.parties, plan, p)
                          then t.parties[p].(state := Invited) else t.parties[p])
    && (forall p | !SentTo(t.parties, plan, p) || SignedCopy(t, p) ::
          (p in u.copies <==> p in t.copies) && (p in t.copies ==> u.copies[p] == t.copies[p]))
    && (forall i | && 0 <= i < |plan| && GoesOut(t.parties, plan[i]) && !SignedCopy(t, plan[i].party)
                   && !SentTo(t.parties, plan[i + 1..], plan[i].party) ::
          && plan[i].party in u.copies
          && u.copies[plan[i].party] == Copy(plan[i].copy.value, Sha(plan[i].copy.value), None))
  }

  lemma {:induction false} RenderedIs(ps: map<int, Party>)
    ensures forall d :: GoesOut(ps, d) ==> d.copy.Some?
  {}

  lemma {:induction false} SentToMore(ps: map<int, Party>, plan: seq<Delivery>, d: Delivery, party: int)
    ensures SentTo(ps, plan + [d], party) <==> SentTo(ps, plan, party) || (d.party == party && GoesOut(ps, d))
  {
    hide GoesOut;
    if SentTo(ps, plan, party) {
      var i :| 0 <= i < |plan| && plan[i].party == party && GoesOut(ps, plan[i]);
      assert (plan + [d])[i] == plan[i];
    }
    assert (plan + [d])[|plan|] == d;
  }

  lemma {:induction false} GoesOutIs(ps: map<int, Party>, d: Delivery)
    ensures GoesTo(ps, d) <==> GoesOut(ps, d)
  {}

  /** As many copies as deliveries that go out. */
  lemma {:induction false} CopiesCounted(pid: int, ps: map<int, Party>, plan: seq<Delivery>)
    ensures |CopiesToStore(pid, ps, plan)| == |set i | 0 <= i < |plan| && GoesOut(ps, plan[i])|
    ensures CopiesToStore(pid, ps, plan) != [] <==> exists i :: 0 <= i < |plan| && GoesOut(ps, plan[i])
  {
    var all := set i | 0 <= i < |plan| && GoesOut(ps, plan[i]);
    if plan != [] {
      var n := |plan| - 1;
      CopiesCounted(pid, ps, plan[..n]);
      GoesOutIs(ps, plan[n]);
      hide GoesTo, GoesOut;
      var init := set i | 0 <= i < n && GoesOut(ps, plan[..n][i]);
      SameMembers(all, if GoesOut(ps, plan[n]) then init + {n} else init);
      if i :| 0 <= i < n && GoesOut(ps, plan[..n][i]) {
        assert GoesOut(ps, plan[i]);
      }
      if i :| 0 <= i < |plan| && GoesOut(ps, plan[i]) {
        assert i < n ==> GoesOut(ps, plan[..n][i]);
      }
    }
  }

  lemma {:induction false} NothingSent(t: Tables)
    ensures SentFrom(t, t, [])
  {}

  lemma {:induction false} ContractAside(t: Tables, u: Tables, c: Contract, plan: seq<Delivery>)
    requires SentFrom(t, u, plan)
    ensures SentFrom(t, u.(contract := c), plan)
  {}

  /** One delivery more: nothing of it, or the party invited and its copy replaced. */
  lemma {:induction false} SentOneMore(t: Tables, u: Tables, v: Tables, plan: seq<Delivery>, d: Delivery)
    requires SentFrom(t, u, plan) && v.signatories == u.signatories && v.ledger == u.ledger
    requires if !GoesOut(t.parties, d) then v.parties == u.parties && v.copies == u.copies
             else && d.party in u.parties && d.copy.Some?
                  && v.parties == u.parties[d.party := if u.parties[d.party].state == Draft
                       then u.parties[d.party].(state := Invited) else u.parties[d.party]]
                  && v.copies == if SignedCopy(u, d.party) then u.copies
                       else u.copies[d.party := Copy(d.copy.value, Sha(d.copy.value), None)]
    ensures SentFrom(t, v, plan + [d])
  {
    RenderedIs(t.parties);
    hide SentTo, GoesOut;
    forall p ensures SentTo(t.parties, plan + [d], p)
                     <==> SentTo(t.parties, plan, p) || (d.party == p && GoesOut(t.parties, d)) {
      SentToMore(t.parties, plan, d, p);
    }
    forall i | 0 <= i < |plan|
      ensures SentTo(t.parties, (plan + [d])[i + 1..], plan[i].party)
              <==> SentTo(t.parties, plan[i + 1..], plan[i].party)
                   || (d.party == plan[i].party && GoesOut(t.parties, d)) {
      assert (plan + [d])[i + 1..] == plan[i + 1..] + [d];
      SentToMore(t.parties, plan[i + 1..], d, plan[i].party);
    }
    if GoesOut(t.parties, d) {
      CopyIsSigned(t, u, plan, d.party);
    }
    hide SignedCopy;
    forall i | && 0 <= i < |plan + [d]| && GoesOut(t.parties, (plan + [d])[i])
               && !SignedCopy(t, (plan + [d])[i].party)
               && !SentTo(t.parties, (plan + [d])[i + 1..], (plan + [d])[i].party)
      ensures && (plan + [d])[i].party in v.copies
              && v.copies[(plan + [d])[i].party]
                 == Copy((plan + [d])[i].copy.value, Sha((plan + [d])[i].copy.value), None)
    {
      if i < |plan| {
        assert (plan + [d])[i] == plan[i];
      } else {
        assert (plan + [d])[i] == d;
      }
    }
  }

  /** A send leaves the signed copies what they are, and makes no other signed. */
  lemma {:induction false} CopyIsSigned(t: Tables, u: Tables, plan: seq<Delivery>, party: int)
    requires SentFrom(t, u, plan)
    ensures SignedCopy(u, party) <==> SignedCopy(t, party)
  {
    if SentTo(t.parties, plan, party) && !SignedCopy(t, party) {
      var i := LastSent(t.parties, plan, party);
      assert u.copies[plan[i].party].signed.None?;
    }
    hide SentTo, GoesOut;
  }

  lemma {:induction false} LastSent(ps: map<int, Party>, plan: seq<Delivery>, party: int) returns (i: nat)
    requires SentTo(ps, plan, party)
    ensures i < |plan| && plan[i].party == party && GoesOut(ps, plan[i]) && !SentTo(ps, plan[i + 1..], party)
  {
    hide GoesOut;
    var n := |plan| - 1;
    assert plan == plan[..n] + [plan[n]];
    if plan[n].party == party && GoesOut(ps, plan[n]) {
      i := n;
    } else {
      SentToMore(ps, plan[..n], plan[n], party);
      i := LastSent(ps, plan[..n], party);
      assert plan[i + 1..] == plan[..n][i + 1..] + [plan[n]];
      SentToMore(ps, plan[..n][i + 1..], plan[n], party);
    }
  }

  /** A text that is more than spaces. */
  predicate NotBlank(text: string) { exists i | 0 <= i < |text| :: text[i] != ' ' }

  /** Somebody with a register number is named for the party. */
  predicate HasNumbered(signatories: map<int, Signatory>, party: int) {
    exists g | g in signatories :: signatories[g].party == party && NotBlank(signatories[g].reg)
  }

  lemma {:induction false} SkippedIs(ps: map<int, Party>, d: Delivery)
    requires d.party in ps
    ensures GoesTo(ps, d) <==> !(ps[d.party].issuer || HasEnded(ps[d.party]) || d.copy.None?)
    ensures GoesTo(ps, d) ==> d.copy.Some?
  {}

  /** A send under way: what its transactions have done to the tables, the part of the plan in `plan` being through. */
  ghost predicate Sending(pid: int, was: State, plan: seq<Delivery>, now: State, sent: nat) {
    && now == RunFrom(was, CopiesToStore(pid, was.parties, plan)) && sent == |CopiesToStore(pid, was.parties, plan)|
    && (sent > 0 ==> pid in now.unmarked) && SentFrom(TablesOf(was), TablesOf(now), plan)
    && if sent == 0 || Unsent(was.contract) then now.contract == was.contract
       else Out(now.contract) && Says(now.parties, now.contract, now.contract)
  }

  lemma {:induction false} SendingStarts(pid: int, was: State)
    ensures Sending(pid, was, [], was, 0)
  {
    NothingYet(was, pid, was.parties);
    NothingSent(TablesOf(was));
  }

  lemma {:induction false} SendingSkips(pid: int, was: State, plan: seq<Delivery>, i: nat, now: State, sent: nat)
    requires i < |plan| && Sending(pid, was, plan[..i], now, sent) && !GoesTo(was.parties, plan[i])
    ensures Sending(pid, was, plan[..i + 1], now, sent)
  {
    NextCopy(pid, was.parties, plan, i);
    GoesOutIs(was.parties, plan[i]);
    SentOneMore(TablesOf(was), TablesOf(now), TablesOf(now), plan[..i], plan[i]);
    assert plan[..i + 1] == plan[..i] + [plan[i]];
    hide RunFrom, CopiesToStore, SentFrom, GoesOut, GoesTo, Says;
  }

  lemma {:induction false} SendingEnds(pid: int, was: State, plan: seq<Delivery>, now: State, sent: nat)
    requires Sending(pid, was, plan, now, sent)
    ensures var t := if sent > 0 then Apply(now, MarkSent(pid)) else now;
            var c := if sent > 0 && Unsent(now.contract) then Sent else now.contract;
            && t == RunFrom(was, SendSteps(pid, was.parties, plan))
            && TablesOf(t) == TablesOf(now).(contract := c) && SentFrom(TablesOf(was), TablesOf(t), plan)
            && sent == |CopiesToStore(pid, was.parties, plan)|
            && sent == |set i | 0 <= i < |plan| && GoesOut(was.parties, plan[i])|
            && if !exists i :: 0 <= i < |plan| && GoesOut(was.parties, plan[i]) then c == was.contract
               else if Unsent(was.contract) then c == Sent
               else Says(t.parties, c, c)
  {
    CopiesCounted(pid, was.parties, plan);
    OneMore(was, CopiesToStore(pid, was.parties, plan), MarkSent(pid));
    if sent > 0 {
      MarkIs(now, pid);
      ContractAside(TablesOf(was), TablesOf(now), if Unsent(now.contract) then Sent else now.contract, plan);
    }
    hide Apply, RunFrom, CopiesToStore, SentFrom, GoesOut, Says;
  }

  /** What storing one copy does to the tables. */
  ghost predicate StoredFor(t: Tables, u: Tables, party: int, content: string) {
    && party in t.parties && u.signatories == t.signatories && u.ledger == t.ledger
    && u.parties == t.parties[party := if t.parties[party].state == Draft then t.parties[party].(state := Invited)
                                       else t.parties[party]]
    && u.copies == (if SignedCopy(t, party) then t.copies else t.copies[party := Copy(content, Sha(content), None)])
    && if t.contract in {Sent, PartlySigned, Executed, Refused} then Says(u.parties, t.contract, u.contract)
       else u.contract == t.contract
  }

  lemma {:induction false} SendingStores(pid: int, was: State, plan: seq<Delivery>, i: nat, now: State, sent: nat,
      content: string, next: State)
    requires i < |plan| && Sending(pid, was, plan[..i], now, sent)
    requires GoesTo(was.parties, plan[i]) && plan[i].copy == Some(content)
    requires next == Apply(now, StoreCopy(pid, plan[i].party, content)) && pid in next.unmarked
    requires StoredFor(TablesOf(now), TablesOf(next), plan[i].party, content)
    requires Unsent(was.contract) || Out(was.contract)
    ensures Sending(pid, was, plan[..i + 1], next, sent + 1)
  {
    hide Apply, RunFrom, CopiesToStore, SentFrom, GoesOut, GoesTo, Says;
    var d := plan[i];
    NextCopy(pid, was.parties, plan, i);
    GoesOutIs(was.parties, d);
    OneMore(was, CopiesToStore(pid, was.parties, plan[..i]), StoreCopy(pid, d.party, content));
    SentOneMore(TablesOf(was), TablesOf(now), TablesOf(next), plan[..i], d);
    assert plan[..i + 1] == plan[..i] + [d];
    if Out(now.contract) { SaysSettles(next.parties, now.contract, next.contract); }
  }

  // ------------------------------------------------------------------ a contract issued whole

  /** A contract issued to one party as the statements that would have made it by hand. */
  function IssueSteps(issuer: int, party: int, signatory: int, reg: string, content: string): seq<Event> {
    [AddParty(issuer, true, true, None, false), BecomesContract, AddParty(party, false, true, None, false),
     AddSignatory(signatory, party, reg, ""), StoreCopy(0, party, content), MarkSent(0)]
  }

  function IssuedParties(issuer: int, party: int, state: PartyState): map<int, Party> {
    map[issuer := Party(true, true, None, Draft, None, None), party := Party(false, true, None, state, None, None)]
  }

  /** Drafted for the party, its signatory named. */
  function DraftedFor(issuer: int, party: int, signatory: int, reg: string): State {
    Empty().(contract := Drafting, parties := IssuedParties(issuer, party, Draft),
             signatories := map[signatory := Signatory(party, reg, "", false)], known := {issuer, party, signatory})
  }

  lemma {:induction false} IssuerIs(issuer: int)
    ensures Apply(Apply(Empty(), AddParty(issuer, true, true, None, false)), BecomesContract)
            == Empty().(contract := Drafting, parties := map[issuer := Party(true, true, None, Draft, None, None)],
                known := {issuer})
  {
    hide Tally;
  }

  lemma {:induction false} PartyIs(s: State, issuer: int, party: int)
    requires s == Empty().(contract := Drafting, parties := map[issuer := Party(true, true, None, Draft, None, None)],
             known := {issuer})
    requires issuer != party
    ensures Apply(s, AddParty(party, false, true, None, false))
            == s.(parties := IssuedParties(issuer, party, Draft), known := {issuer, party})
  {
    hide Tally;
    var alone := map[issuer := Party(true, true, None, Draft, None, None)];
    assert alone[party := Party(false, true, None, Draft, None, None)] == IssuedParties(issuer, party, Draft);
  }

  lemma {:induction false} NamedIs(s: State, issuer: int, party: int, signatory: int, reg: string)
    requires s == Empty().(contract := Drafting, parties := IssuedParties(issuer, party, Draft),
             known := {issuer, party})
    requires issuer != party && signatory !in {issuer, party}
    ensures Apply(s, AddSignatory(signatory, party, reg, "")) == DraftedFor(issuer, party, signatory, reg)
  {
    hide Tally;
    assert {issuer, party} + {signatory} == {issuer, party, signatory};
  }

  lemma {:induction false} SixSteps(a: Event, b: Event, c: Event, d: Event, e: Event, f: Event)
    ensures Run([a, b, c, d, e, f]) == Apply(Apply(Apply(Apply(Apply(Apply(Empty(), a), b), c), d), e), f)
  {
    hide Apply;
    OneMore(Empty(), [], a);
    OneMore(Empty(), [a], b);
    OneMore(Empty(), [a, b], c);
    OneMore(Empty(), [a, b, c], d);
    OneMore(Empty(), [a, b, c, d], e);
    OneMore(Empty(), [a, b, c, d, e], f);
    assert [] + [a] == [a] && [a] + [b] == [a, b] && [a, b] + [c] == [a, b, c] && [a, b, c] + [d] == [a, b, c, d];
    assert [a, b, c, d] + [e] == [a, b, c, d, e] && [a, b, c, d, e] + [f] == [a, b, c, d, e, f];
  }

  lemma {:induction false} DeliveredIs(issuer: int, party: int, signatory: int, reg: string, content: string)
    requires issuer != party
    ensures var t := Apply(Apply(DraftedFor(issuer, party, signatory, reg), StoreCopy(0, party, content)), MarkSent(0));
            TablesOf(t) == Tables(Sent, IssuedParties(issuer, party, Invited),
                map[party := Copy(content, Sha(content), None)],
                                  map[signatory := Signatory(party, reg, "", false)], [])
  {
    var s := DraftedFor(issuer, party, signatory, reg);
    StoreIs(s, 0, party, content);
    MarkIs(Apply(s, StoreCopy(0, party, content)), 0);
    hide Apply, Tally;
    assert s.parties[party := Invite(s.parties[party])] == IssuedParties(issuer, party, Invited);
    assert s.copies[party := Copy(content, Sha(content), None)] == map[party := Copy(content, Sha(content), None)];
  }

  /** Issued in one transaction, a contract is as if it had been drafted, named and sent. */
  lemma {:induction false} IssuedIs(issuer: int, party: int, signatory: int, reg: string, content: string)
    requires issuer != party && signatory !in {issuer, party}
    ensures TablesOf(Run(IssueSteps(issuer, party, signatory, reg, content)))
            == Tables(Sent, IssuedParties(issuer, party, Invited), map[party := Copy(content, Sha(content), None)],
                      map[signatory := Signatory(party, reg, "", false)], [])
  {
    hide Apply, Tally, RunFrom;
    SixSteps(AddParty(issuer, true, true, None, false), BecomesContract, AddParty(party, false, true, None, false),
             AddSignatory(signatory, party, reg, ""), StoreCopy(0, party, content), MarkSent(0));
    IssuerIs(issuer);
    var s := Empty().(contract := Drafting, parties := map[issuer := Party(true, true, None, Draft, None, None)],
        known := {issuer});
    PartyIs(s, issuer, party);
    NamedIs(s.(parties := IssuedParties(issuer, party, Draft), known := {issuer, party}), issuer, party, signatory,
        reg);
    DeliveredIs(issuer, party, signatory, reg, content);
  }

  // ------------------------------------------------------------------ the handlers

  class ContractDesk {
    var contract: Contract
    var parties: map<int, Party>
    var copies: map<int, Copy>
    var signatories: map<int, Signatory>
    var ledger: seq<Row>
    ghost var world: State

    ghost function Contents(): Tables
      reads this
    {
      Tables(contract, parties, copies, signatories, ledger)
    }

    ghost predicate Valid()
      reads this
    {
      Contents() == TablesOf(world)
    }

    constructor ()
      ensures Valid() && world == Empty()
    {
      contract, parties, copies, signatories, ledger := NoContract, map[], map[], map[], [];
      world := Empty();
    }

    /** issueOne: one contract for one recipient, its rows inserted as they are after a send; `issuer`, `party` and
        `signatory` are the identifiers the tables mint. */
    constructor Issue(issuer: int, party: int, signatory: int, signerReg: string, content: string)
      requires issuer != party && signatory !in {issuer, party}
      ensures Valid() && world == Run(IssueSteps(issuer, party, signatory, Upper(Trim(signerReg)), content))
      ensures contract == Sent && ledger == []
      ensures parties == map[issuer := Party(true, true, None, Draft, None, None),
                             party := Party(false, true, None, Invited, None, None)]
      ensures signatories == map[signatory := Signatory(party, Upper(Trim(signerReg)), "", false)]
      ensures copies == map[party := Copy(content, Sha(content), None)]
    {
      hide RunFrom, Apply, Trim, Upper;
      contract := Sent;
      parties := map[issuer := Party(true, true, None, Draft, None, None),
          party := Party(false, true, None, Invited, None, None)];
      signatories := map[signatory := Signatory(party, Upper(Trim(signerReg)), "", false)];
      copies := map[party := Copy(content, Sha(content), None)];
      ledger := [];
      world := Run(IssueSteps(issuer, party, signatory, Upper(Trim(signerReg)), content));
      new;
      IssuedIs(issuer, party, signatory, Upper(Trim(signerReg)), content);
    }

    method RefreshContractState()
      modifies this`contract
      ensures Contents() == Recount(old(Contents()))
      ensures if old(contract) in {Sent, PartlySigned, Executed, Refused} then Says(parties, old(contract), contract)
              else contract == old(contract)
    {
      hide Tally, Says;
      TallySaysWhatIsSo(parties, contract);
      if Out(contract) {
        contract := Tally(parties, contract);
      }
    }

    method UpdateParty(id: int, p: Party)
      modifies this`contract, this`parties
      ensures Contents() == WithParty(old(Contents()), id, p)
      ensures parties == old(parties)[id := p]
      ensures if old(contract) in {Sent, PartlySigned, Executed, Refused} then Says(parties, old(contract), contract)
              else contract == old(contract)
    {
      hide Tally, Says;
      parties := parties[id := p];
      RefreshContractState();
    }

    // ---------------------------------------------------------------- parties

    /** `id` is the fresh identifier the table mints. The first party makes the document a contract. */
    method AddParty(id: int, issuer: bool, required: bool, order: Option<int>) returns (r: Result<(), DeskError>)
      requires Valid() && id !in world.known
      modifies this
      ensures Valid()
      ensures r == (if old(contract) != NoContract && old(contract) != Drafting then Err(NotDraft)
                    else if old(ledger) != [] then Err(AlreadySigned)
                    else Ok(()))
      ensures Contents() == if r.Err? then old(Contents())
                            else old(Contents()).(contract := Drafting,
                                parties := old(parties)[id := Party(issuer, required, order, Draft, None, None)])
      ensures world == if r.Ok? then Apply(Apply(old(world), Event.AddParty(id, issuer, required, order, false)),
              BecomesContract) else old(world)
    {
      hide Apply, Tally;
      if !Unsent(contract) { return Err(NotDraft); }
      if |ledger| > 0 { return Err(AlreadySigned); }
      InsertIs(world, id, issuer, required, order);
      BecomesIs(Apply(world, Event.AddParty(id, issuer, required, order, false)));
      world := Apply(Apply(world, Event.AddParty(id, issuer, required, order, false)), BecomesContract);
      UpdateParty(id, Party(issuer, required, order, Draft, None, None));
      if contract == NoContract { contract := Drafting; }
      r := Ok(());
    }

    /** Only a party that is not out, and not of an executed contract. */
    method RemoveParty(id: int) returns (r: Result<(), DeskError>)
      requires Valid()
      modifies this
      ensures Valid() && world == if r.Ok? then Apply(old(world), Event.RemoveParty(id, false)) else old(world)
      ensures r == (if old(contract) == Executed then Err(AlreadyExecuted)
                    else if id in old(parties) && old(parties)[id].state in {Draft, Declined, Withdrawn, Expired}
                    then Ok(())
                    else Err(PartyNotFound))
      ensures ledger == old(ledger)
      ensures r.Err? ==> Contents() == old(Contents())
      ensures r.Ok? ==>
                && parties == old(parties) - {id} && copies == old(copies) - {id}
                && (forall g :: g in signatories <==> g in old(signatories) && old(signatories)[g].party != id)
                && (forall g | g in signatories :: signatories[g] == old(signatories)[g])
                && if old(contract) in {Sent, PartlySigned, Refused} then Says(parties, old(contract), contract)
                   else contract == old(contract)
    {
      hide Apply, Recount;
      if contract == Executed { return Err(AlreadyExecuted); }
      if !(id in parties && Removable(parties[id])) { return Err(PartyNotFound); }
      RemoveIs(world, id);
      world := Apply(world, Event.RemoveParty(id, false));
      parties := parties - {id};
      copies := copies - {id}; // the rows that hang on it go with it
      signatories := map g | g in signatories && signatories[g].party != id :: signatories[g];
      RefreshContractState();
      r := Ok(());
    }

    method InsertSignatory(id: int, party: int, reg: string, user: string)
      requires Valid() && id !in world.known && party in parties
      modifies this
      ensures Valid() && world == Apply(old(world), Event.AddSignatory(id, party, reg, user))
      ensures Contents() == old(Contents()).(signatories := old(signatories)[id := Signatory(party, reg, user, false)])
    {
      world := Apply(world, Event.AddSignatory(id, party, reg, user));
      signatories := signatories[id := Signatory(party, reg, user, false)];
    }

    /** The issuing side names its own people: `foreign` says that the party is another organisation's. */
    method AddSignatory(id: int, party: int, fullName: string, reg: string, user: string, foreign: bool)
        returns (r: Result<(), DeskError>)
      requires Valid() && id !in world.known
      modifies this
      ensures Valid()
      ensures r == (if Trim(fullName) == "" then Err(NameRequired)
                    else if party !in old(parties) then Err(PartyNotFound)
                    else if foreign then Err(ForeignParty)
                    else if old(parties)[party].state == Signed
                        || old(parties)[party].state == Declined then Err(PartySettled)
                    else Ok(()))
      ensures Contents() == if r.Err? then old(Contents())
                            else old(Contents()).(signatories :=
                                old(signatories)[id := Signatory(party, Upper(Trim(reg)), user, false)])
      ensures world == if r.Ok? then Apply(old(world), Event.AddSignatory(id, party, Upper(Trim(reg)), user))
              else old(world)
    {
      hide Apply, Trim, Upper;
      if Trim(fullName) == "" { return Err(NameRequired); }
      if party !in parties { return Err(PartyNotFound); }
      if foreign { return Err(ForeignParty); }
      if parties[party].state == Signed || parties[party].state == Declined { return Err(PartySettled); }
      InsertSignatory(id, party, Upper(Trim(reg)), user);
      r := Ok(());
    }

    /** The receiving organisation names its own: only while the party is out, and only somebody the rail can find. */
    method Nominate(id: int, party: int, fullName: string, reg: string, user: string) returns (r: Result<(), DeskError>)
      requires Valid() && id !in world.known
      modifies this
      ensures Valid()
      ensures r == (if party !in old(parties) then Err(PartyNotFound)
                    else if old(parties)[party].state != Invited && old(parties)[party].state != Viewed
                    then Err(PartySettled)
                    else if Trim(fullName) == "" then Err(NameRequired)
                    else if Upper(Trim(reg)) == "" then Err(NumberRequired)
                    else Ok(()))
      ensures Contents() == if r.Err? then old(Contents())
                            else old(Contents()).(signatories :=
                                old(signatories)[id := Signatory(party, Upper(Trim(reg)), user, false)])
      ensures world == if r.Ok? then Apply(old(world), Event.AddSignatory(id, party, Upper(Trim(reg)), user))
              else old(world)
    {
      hide Apply, Trim, Upper;
      if party !in parties { return Err(PartyNotFound); }
      if !Answerable(parties[party]) { return Err(PartySettled); }
      if Trim(fullName) == "" { return Err(NameRequired); }
      if Upper(Trim(reg)) == "" { return Err(NumberRequired); }
      InsertSignatory(id, party, Upper(Trim(reg)), user);
      r := Ok(());
    }

    /** A party reached by an invitation names its signatory once: not when somebody with a number is registered. */
    method NominateByInvite(id: int, party: int, fullName: string, reg: string) returns (r: Result<(), DeskError>)
      requires Valid() && id !in world.known
      modifies this
      ensures Valid()
      ensures r == (if party !in old(parties) then Err(PartyNotFound)
                    else if old(parties)[party].state != Invited && old(parties)[party].state != Viewed
                    then Err(PartySettled)
                    else if Trim(fullName) == "" || Upper(Trim(reg)) == "" then Err(NameRequired)
                    else if exists g, k :: && g in old(signatories) && old(signatories)[g].party == party
                                           && 0 <= k < |old(signatories)[g].reg| && old(signatories)[g].reg[k] != ' '
                    then Err(AlreadyNamed)
                    else Ok(()))
      ensures Contents() == if r.Err? then old(Contents())
                            else old(Contents()).(signatories :=
                                old(signatories)[id := Signatory(party, Upper(Trim(reg)), "", false)])
      ensures world == if r.Ok? then Apply(old(world), Event.AddSignatory(id, party, Upper(Trim(reg)), ""))
              else old(world)
    {
      hide Apply, Trim, Upper;
      if party !in parties { return Err(PartyNotFound); }
      if !Answerable(parties[party]) { return Err(PartySettled); }
      if Trim(fullName) == "" || Upper(Trim(reg)) == "" { return Err(NameRequired); }
      if HasNumbered(signatories, party) { return Err(AlreadyNamed); }
      InsertSignatory(id, party, Upper(Trim(reg)), "");
      r := Ok(());
    }

    /** A signatory who has signed stays. */
    method RemoveSignatory(id: int) returns (r: Result<(), DeskError>)
      requires Valid()
      modifies this
      ensures Valid() && world == Apply(old(world), Event.RemoveSignatory(id))
      ensures r == if id in old(signatories) && !old(signatories)[id].signed then Ok(()) else Err(PartyNotFound)
      ensures Contents() == if r.Err? then old(Contents())
                            else old(Contents()).(signatories := old(signatories) - {id})
    {
      world := Apply(world, Event.RemoveSignatory(id));
      if !(id in signatories && !signatories[id].signed) { return Err(PartyNotFound); }
      signatories := signatories - {id};
      r := Ok(());
    }

    /** The receiving side takes back one of its own who has not signed. */
    method WithdrawNominee(id: int, party: int) returns (r: Result<(), DeskError>)
      requires Valid()
      modifies this
      ensures Valid()
      ensures r == (if party !in old(parties) then Err(PartyNotFound)
                    else if id in old(signatories) && old(signatories)[id].party == party
                        && !old(signatories)[id].signed then Ok(())
                    else Err(NoSuchNominee))
      ensures world == if r.Ok? then Apply(old(world), Event.RemoveSignatory(id)) else old(world)
      ensures Contents() == if r.Err? then old(Contents())
                            else old(Contents()).(signatories := old(signatories) - {id})
    {
      if party !in parties { return Err(PartyNotFound); }
      if !(id in signatories && signatories[id].party == party && !signatories[id].signed) {
        return Err(NoSuchNominee);
      }
      var removed := RemoveSignatory(id);
      r := Ok(());
    }

    // ---------------------------------------------------------------- sending

    /** storePartyCopy: any copy but a signed one is deleted and a new one inserted. */
    method StorePartyCopy(ghost pid: int, party: int, content: string)
      requires Valid() && party in parties && !parties[party].issuer
      modifies this
      ensures Valid() && world == Apply(old(world), StoreCopy(pid, party, content)) && pid in world.unmarked
      ensures var was := old(parties)[party];
              parties == old(parties)[party := if was.state == Draft then was.(state := Invited) else was]
      ensures copies == if party in old(copies) && old(copies)[party].signed.Some? then old(copies)
                        else old(copies)[party := Copy(content, Sha(content), None)]
      ensures signatories == old(signatories) && ledger == old(ledger)
      ensures if old(contract) in {Sent, PartlySigned, Executed, Refused} then Says(parties, old(contract), contract)
              else contract == old(contract)
    {
      hide Apply, Tally, Says;
      StoreIs(world, pid, party, content);
      world := Apply(world, StoreCopy(pid, party, content));
      if !(party in copies && copies[party].signed.Some?) {
        copies := copies - {party};
        copies := copies[party := Copy(content, Sha(content), None)];
      }
      var p := parties[party];
      if p.state == Draft { p := p.(state := Invited); }
      UpdateParty(party, p);
    }

    /** sendHandler from the parties' rows on: `plan` has one entry for each row asked for, in the order read. */
    method Send(ghost pid: int, plan: seq<Delivery>) returns (r: Result<nat, DeskError>)
      requires Valid() && forall i | 0 <= i < |plan| :: plan[i].party in parties
      modifies this
      ensures Valid()
      ensures if old(contract) == Executed || old(contract) == Recalled then r == Err(Shut)
              else if forall p | p in old(parties) :: !old(parties)[p].issuer then r == Err(NoIssuer)
              else r == Ok(|set i | 0 <= i < |plan| && GoesOut(old(parties), plan[i])|)
      ensures r.Err? ==> world == old(world) && Contents() == old(Contents())
      ensures r.Ok? ==> world == RunFrom(old(world), SendSteps(pid, old(parties), plan))
                        && r.value == |CopiesToStore(pid, old(parties), plan)|
      ensures r.Ok? ==> SentFrom(old(Contents()), Contents(), plan)
      ensures r.Ok? ==>
                if !exists i :: 0 <= i < |plan| && GoesOut(old(parties), plan[i]) then contract == old(contract)
                else if old(contract) == NoContract || old(contract) == Drafting then contract == Sent
                else Says(parties, contract, contract)
    {
      hide Apply, RunFrom, CopiesToStore, HasEnded, GoesOut, GoesTo, SentFrom, Says, Sending;
      if contract == Executed || contract == Recalled { return Err(Shut); }
      if !HasIssuer(parties) { return Err(NoIssuer); }
      ghost var was := world;
      var read := parties;
      var sent := 0;
      SendingStarts(pid, was);
      for i := 0 to |plan|
        invariant Valid() && Sending(pid, was, plan[..i], world, sent)
        invariant forall p | p in read :: p in parties && parties[p].issuer == read[p].issuer
      {
        var d := plan[i];
        SkippedIs(read, d);
        if read[d.party].issuer || HasEnded(read[d.party]) || d.copy.None? {
          SendingSkips(pid, was, plan, i, world, sent);
          continue;
        }
        ghost var now := world;
        StorePartyCopy(pid, d.party, d.copy.value);
        SendingStores(pid, was, plan, i, now, sent, d.copy.value, world);
        sent := sent + 1;
      }
      assert plan[..|plan|] == plan;
      SendingEnds(pid, was, plan, world, sent);
      if sent > 0 {
        world := Apply(world, MarkSent(pid));
        if Unsent(contract) { contract := Sent; }
      }
      r := Ok(sent);
    }

    /** Parties that have not answered are shut; the contract's own state is written last, over the trigger's. */
    method WithdrawContract() returns (r: Result<(), DeskError>)
      requires Valid()
      modifies this
      ensures Valid() && world == Apply(old(world), Withdraw(false))
      ensures r == if old(contract) == Executed then Err(AlreadyExecuted) else Ok(())
      ensures copies == old(copies) && signatories == old(signatories) && ledger == old(ledger)
      ensures r.Err? ==> contract == old(contract) && parties == old(parties)
      ensures r.Ok? ==>
                && contract == Recalled && parties.Keys == old(parties).Keys
                && forall p | p in parties ::
                     var was := old(parties)[p];
                     parties[p] == if !was.issuer && was.state in {Draft, Invited, Viewed}
                                   then was.(state := Withdrawn, session := None, signer := None) else was
    {
      hide Apply, Tally, Says;
      RecallIs(world);
      world := Apply(world, Withdraw(false));
      if contract == Executed { return Err(AlreadyExecuted); }
      parties := map p | p in parties ::
        if !parties[p].issuer && (parties[p].state == Draft || Answerable(parties[p]))
        then parties[p].(state := Withdrawn, session := None, signer := None) else parties[p];
      RefreshContractState();
      contract := Recalled;
      r := Ok(());
    }

    /** The withdrawn go back to draft and their unsigned copies are deleted; who signed or declined stays. */
    method ReopenContract() returns (r: Result<(), DeskError>)
      requires Valid()
      modifies this
      ensures Valid() && world == Apply(old(world), Reopen(false))
      ensures r == if old(contract) == Recalled then Ok(()) else Err(NotWithdrawn)
      ensures signatories == old(signatories) && ledger == old(ledger)
      ensures r.Err? ==> Contents() == old(Contents())
      ensures r.Ok? ==> ReopenedFrom(old(Contents()), Contents())
    {
      hide Apply, Tally, Says, ReopenedFrom;
      RecallIs(world);
      ReopenMeans(world);
      world := Apply(world, Reopen(false));
      if contract != Recalled { return Err(NotWithdrawn); }
      parties := map p | p in parties :: if parties[p].state == Withdrawn then parties[p].(state := Draft)
          else parties[p];
      RefreshContractState();
      copies := map p | p in copies
          && !(p in parties && parties[p].state == Draft && copies[p].signed.None?) :: copies[p];
      contract := Drafting;
      r := Ok(());
    }

    // ---------------------------------------------------------------- reading and declining

    /** markViewed, and the same through an invitation: only an invited party becomes viewed. */
    method MarkViewed(party: int)
      requires Valid() && party in parties
      modifies this
      ensures Valid() && world == Apply(old(world), View(party))
      ensures parties == if old(parties)[party].state == Invited
                         then old(parties)[party := old(parties)[party].(state := Viewed)] else old(parties)
      ensures copies == old(copies) && signatories == old(signatories) && ledger == old(ledger)
      ensures if old(parties)[party].state == Invited && old(contract) in {Sent, PartlySigned, Executed, Refused}
              then Says(parties, old(contract), contract) else contract == old(contract)
    {
      hide Tally, Says;
      SetPartyIs(world, party, world.parties[party].(state := Viewed));
      world := Apply(world, View(party));
      if parties[party].state != Invited { return; }
      UpdateParty(party, parties[party].(state := Viewed));
    }

    /** The three decline handlers: only a party that is out may decline, and its ceremony ends. */
    method DeclineParty(party: int) returns (r: Result<(), DeskError>)
      requires Valid()
      modifies this
      ensures Valid() && world == Apply(old(world), Decline(party))
      ensures r == (if party in old(parties) && old(parties)[party].state in {Invited, Viewed} then Ok(())
                    else Err(PartySettled))
      ensures copies == old(copies) && signatories == old(signatories) && ledger == old(ledger)
      ensures r.Err? ==> parties == old(parties) && contract == old(contract)
      ensures r.Ok? ==> parties == old(parties)[party := old(parties)[party].(state := Declined, session := None,
                          signer := None)]
      ensures r.Ok? && !old(parties)[party].issuer && old(contract) in {Sent, PartlySigned, Executed, Refused} ==>
                contract == Refused
    {
      hide Tally;
      if !(party in parties && Answerable(parties[party])) {
        world := Apply(world, Decline(party));
        return Err(PartySettled);
      }
      SetPartyIs(world, party, world.parties[party].(state := Declined, session := None, signer := None));
      world := Apply(world, Decline(party));
      UpdateParty(party, parties[party].(state := Declined, session := None, signer := None));
      if !parties[party].issuer {
        ghost var q := SomebodyIsAwaited(parties, party);
        assert HasDeclined(parties, party);
      }
      r := Ok(());
    }
  }
}
