/** What one statement of the party-signing handlers keeps, statement by statement (modules/documents/partysign.go,
    sending.go, parties.go, inbox.go, invite.go).

    The invariant says how the four kinds of rows fit together: every copy on file is one that was stored, under its
    number; a party that is signed has its copy, its signatory and its one ledger row, and no other party has a row;
    every ceremony on the rail was opened for a signatory of its party over a copy that was stored; every handler in
    flight carries what it once read. Each statement touches one or two of these, so the lemmas come in two kinds:
    frames, for what a statement leaves alone, and one lemma for each statement about what it changes. The last part
    follows one signed party, its copy and its row through every statement. What this comes to over whole runs is
    said in PartySafety. */
module PartyInvariant {
  import opened Wrappers
  import opened PartySigning

  // ------------------------------------------------------------------ the invariant

  /** Bytes numbered `copy` of this party were once stored, and were these. */
  ghost predicate WasCopy(s: State, party: int, copy: nat, content: string) {
    (party, copy) in s.history && s.history[(party, copy)] == content
  }

  /** Frozen copies carry their own hash, and only a signed party's is signed. */
  ghost predicate CopiesFit(s: State) {
    && (forall p | p in s.copies ::
          && p in s.parties && s.copies[p].sha == Sha(s.copies[p].content)
          && (s.copies[p].signed.Some? ==> s.parties[p].state == Signed)
          && WasCopy(s, p, Stored(s, p), s.copies[p].content))
    && (forall key | key in s.history :: key.1 <= Stored(s, key.0))
  }

  ghost predicate PartyFits(s: State, id: int, p: Party) {
    && id in s.known
    && (p.issuer ==> p.state == Draft)
    && (Answerable(p) ==> id in s.copies)
    && (p.state == Signed ==> id in s.copies && s.copies[id].signed.Some?)
    && (p.session.Some? ==> && Answerable(p) && p.session.value in s.rail && s.rail[p.session.value].party == id
                            && p.signer == Some(s.rail[p.session.value].signatory))
  }

  ghost predicate PartiesFit(s: State) {
    forall id | id in s.parties :: PartyFits(s, id, s.parties[id])
  }

  /** A signatory id keeps its citizen and its party for good. */
  ghost predicate SameSignatory(s: State, signatory: int, party: int, reg: string) {
    && signatory in s.known
    && (signatory in s.signatories ==> s.signatories[signatory].party == party && s.signatories[signatory].reg == reg)
  }

  ghost predicate RailFits(s: State) {
    && (forall sid | sid in s.rail ::
          && SameSignatory(s, s.rail[sid].signatory, s.rail[sid].party, s.rail[sid].reg)
          && WasCopy(s, s.rail[sid].party, s.rail[sid].copy, s.rail[sid].sent))
    && (forall g | g in s.signatories :: g in s.known)
  }

  /** The process acts for the ceremony it read: its party, its signatory and no other. */
  ghost predicate ForCeremony(s: State, sid: string, party: int, signatory: int, reg: string) {
    sid in s.rail && s.rail[sid].party == party && s.rail[sid].signatory == signatory && s.rail[sid].reg == reg
  }

  ghost predicate ProcFits(s: State, p: Proc) {
    match p
    case Checked(party) => party in s.known
    case Picked(party, signatory, reg, content, copy) =>
      party in s.known && SameSignatory(s, signatory, party, reg) && WasCopy(s, party, copy, content)
    case Pushed(party, sid) => party in s.known && sid in s.rail && s.rail[sid].party == party
    case Polling(party, sid, signatory, reg, content, sha, copy) =>
      ForCeremony(s, sid, party, signatory, reg) && sha == Sha(content) && WasCopy(s, party, copy, content)
    case Clearing(_, _) => true
    case Recording(party, sid, signatory, reg, sha, copy, _) =>
      ForCeremony(s, sid, party, signatory, reg) && WasCopy(s, party, copy, sha.bytes)
  }

  ghost predicate ProcsFit(s: State) {
    forall p | p in s.procs :: ProcFits(s, s.procs[p])
  }

  ghost predicate RowFits(s: State, row: Row) {
    && row.party in s.parties && s.parties[row.party].state == Signed
    && ForCeremony(s, row.session, row.party, row.signatory, row.reg)
    && row.signatory in s.signatories && s.signatories[row.signatory] .signed
    && WasCopy(s, row.party, row.copy, row.covered.bytes)
  }

  ghost predicate RowOf(ledger: seq<Row>, k: int, party: int) {
    0 <= k < |ledger| && ledger[k].party == party
  }

  ghost predicate LedgerFits(s: State) {
    && (forall k | 0 <= k < |s.ledger| :: RowFits(s, s.ledger[k]))
    && (forall j, k | 0 <= j < k < |s.ledger| :: s.ledger[j].party != s.ledger[k].party)
    && (forall p | p in s.parties && s.parties[p].state == Signed :: exists k :: RowOf(s.ledger, k, p))
  }

  ghost predicate Inv(s: State) {
    CopiesFit(s) && PartiesFit(s) && RailFits(s) && ProcsFit(s) && LedgerFits(s)
  }

  // ------------------------------------------------------------------ frames

  /** What came into being stays: ids, ceremonies and stored copies. */
  ghost predicate Grows(s: State, t: State) {
    && s.known <= t.known
    && (forall sid | sid in s.rail :: sid in t.rail && t.rail[sid] == s.rail[sid])
    && (forall key | key in s.history :: key in t.history && t.history[key] == s.history[key])
    && (forall g | g in t.signatories && g in s.known ::
          g in s.signatories && t.signatories[g].party == s.signatories[g].party
              && t.signatories[g].reg == s.signatories[g].reg)
  }

  lemma {:induction false} ProcsFrame(s: State, t: State)
    requires ProcsFit(s) && Grows(s, t) && forall p | p in t.procs :: p in s.procs && t.procs[p] == s.procs[p]
    ensures ProcsFit(t)
  {
    forall p | p in t.procs ensures ProcFits(t, t.procs[p]) {
      assert ProcFits(s, s.procs[p]);
    }
  }

  lemma {:induction false} RailFrame(s: State, t: State)
    requires RailFits(s) && Grows(s, t) && t.rail == s.rail && forall g | g in t.signatories :: g in t.known
    ensures RailFits(t)
  {}

  /** Signed parties, their signatories and the ledger untouched, the ledger goes on fitting. */
  lemma {:induction false} LedgerFrame(s: State, t: State)
    requires LedgerFits(s) && Grows(s, t) && t.ledger == s.ledger
    requires forall p | p in s.parties && s.parties[p].state == Signed :: p in t.parties && t.parties[p].state == Signed
    requires forall p | p in t.parties && t.parties[p].state == Signed :: p in s.parties && s.parties[p].state == Signed
    requires forall k | 0 <= k < |s.ledger| ::
             s.ledger[k].signatory in t.signatories && t.signatories[s.ledger[k].signatory].signed
    ensures LedgerFits(t)
  {
    forall k | 0 <= k < |t.ledger| ensures RowFits(t, t.ledger[k]) {
      assert RowFits(s, s.ledger[k]);
    }
  }

  ghost predicate SameSigned(s: State, t: State) {
    && (forall p | p in s.parties && s.parties[p].state == Signed :: p in t.parties && t.parties[p].state == Signed)
    && (forall p | p in t.parties && t.parties[p].state == Signed :: p in s.parties && s.parties[p].state == Signed)
  }

  ghost predicate RowSignatoriesKept(s: State, t: State) {
    forall k | 0 <= k < |s.ledger| ::
        s.ledger[k].signatory in t.signatories && t.signatories[s.ledger[k].signatory].signed
  }

  /** A change at the desk that leaves ceremonies, processes and the ledger alone. */
  lemma {:induction false} DeskFrame(s: State, t: State)
    requires Inv(s) && Grows(s, t) && SameSigned(s, t) && RowSignatoriesKept(s, t)
    requires t.rail == s.rail && t.procs == s.procs && t.ledger == s.ledger
    requires forall g | g in t.signatories :: g in t.known
    requires CopiesFit(t) && PartiesFit(t)
    ensures Inv(t)
  {
    ProcsFrame(s, t);
    RailFrame(s, t);
    LedgerFrame(s, t);
    hide CopiesFit, PartiesFit, RailFits, ProcsFit, LedgerFits, Grows;
  }

  lemma {:induction false} RowsAreKept(s: State)
    requires Inv(s)
    ensures RowSignatoriesKept(s, s)
  {
    forall k | 0 <= k < |s.ledger|
        ensures s.ledger[k].signatory in s.signatories && s.signatories[s.ledger[k].signatory].signed {
      assert RowFits(s, s.ledger[k]);
    }
  }

  lemma {:induction false} ContractIsFree(s: State, c: Contract)
    requires Inv(s)
    ensures Inv(s.(contract := c))
  {
    var t := s.(contract := c);
    RowsAreKept(s);
    assert CopiesFit(t);
    assert PartiesFit(t);
    hide CopiesFit, PartiesFit, RailFits, ProcsFit, LedgerFits;
    assert forall g | g in t.signatories :: g in t.known by { KnownSignatories(s); }
    DeskFrame(s, t);
  }

  lemma {:induction false} KnownSignatories(s: State)
    requires Inv(s)
    ensures forall g | g in s.signatories :: g in s.known
  {}

  lemma {:induction false} RefreshKeepsInv(s: State)
    requires Inv(s)
    ensures Inv(Refresh(s))
  {
    ContractIsFree(s, Refresh(s).contract);
    hide Inv, Tally;
  }

  /** Naming and removing signatories are the desk's business, and no other rows'. */
  lemma {:induction false} NamingIs(s: State, e: Event)
    requires e.AddSignatory? || e.RemoveSignatory?
    ensures Apply(s, e) == Desk(s, e)
  {
    hide Desk, Start, Poll;
  }

  // ------------------------------------------------------------------ one party changes

  /** A party that is not signed, before or after, may change as long as it fits. */
  lemma {:induction false} PutParty(s: State, id: int, p: Party, known: set<int>)
    requires Inv(s) && known >= s.known && PartyFits(s.(known := known), id, p) && p.state != Signed
    requires id in s.parties ==> s.parties[id].state != Signed
    ensures Inv(s.(parties := s.parties[id := p], known := known))
  {
    var t := s.(parties := s.parties[id := p], known := known);
    RowsAreKept(s);
    KnownSignatories(s);
    assert PartiesFit(t) by {
      forall q | q in t.parties ensures PartyFits(t, q, t.parties[q]) {
        assert q != id ==> PartyFits(s, q, s.parties[q]);
      }
    }
    assert CopiesFit(t);
    hide CopiesFit, PartiesFit, RailFits, ProcsFit, LedgerFits, PartyFits;
    DeskFrame(s, t);
  }

  lemma {:induction false} AddPartyKeepsInv(s: State, e: Event)
    requires Inv(s) && e.AddParty?
    ensures Inv(Apply(s, e))
  {
    if e.id !in s.known && e.id !in s.parties {
      var known := s.known + {e.id};
      var p := Party(e.issuer, e.required, e.order, Draft, None, None);
      PutParty(s, e.id, p, known);
      RefreshKeepsInv(s.(parties := s.parties[e.id := p], known := known));
    } else if e.id in s.parties {
      assert PartyFits(s, e.id, s.parties[e.id]);
    }
    hide Inv, Refresh;
  }

  lemma {:induction false} ViewKeepsInv(s: State, party: int)
    requires Inv(s)
    ensures Inv(Apply(s, View(party)))
  {
    if party in s.parties && s.parties[party].state == Invited {
      assert PartyFits(s, party, s.parties[party]);
      var p := s.parties[party].(state := Viewed);
      PutParty(s, party, p, s.known);
      RefreshKeepsInv(s.(parties := s.parties[party := p]));
    }
    hide Inv, Refresh;
  }

  lemma {:induction false} DeclineKeepsInv(s: State, party: int)
    requires Inv(s)
    ensures Inv(Apply(s, Decline(party)))
  {
    if party in s.parties && Answerable(s.parties[party]) {
      assert PartyFits(s, party, s.parties[party]);
      var p := s.parties[party].(state := Declined, session := None, signer := None);
      PutParty(s, party, p, s.known);
      RefreshKeepsInv(s.(parties := s.parties[party := p]));
    }
    hide Inv, Refresh;
  }

  // ------------------------------------------------------------------ copies

  function WithCopy(s: State, party: int, content: string): State {
    var n := Stored(s, party) + 1;
    s.(copies := s.copies[party := Copy(content, Sha(content), None)],
       stored := s.stored[party := n], history := s.history[(party, n) := content])
  }

  lemma {:induction false} CopyGrows(s: State, party: int, content: string)
    requires CopiesFit(s) && PartiesFit(s) && party in s.parties && forall g | g in s.signatories :: g in s.known
    ensures Grows(s, WithCopy(s, party, content)) && CopiesFit(WithCopy(s, party, content))
  {}

  lemma {:induction false} CopyIsFree(s: State, party: int, content: string)
    requires PartiesFit(s) && party in s.parties && (party in s.copies ==> s.copies[party].signed.None?)
    ensures PartiesFit(WithCopy(s, party, content))
  {
    var t := WithCopy(s, party, content);
    forall q | q in t.parties ensures PartyFits(t, q, t.parties[q]) {
      assert PartyFits(s, q, s.parties[q]);
    }
  }

  /** A new copy is numbered, and no copy stored before it is forgotten. */
  lemma {:induction false} PutCopy(s: State, party: int, content: string)
    requires Inv(s) && party in s.parties && (party in s.copies ==> s.copies[party].signed.None?)
    ensures Inv(WithCopy(s, party, content))
  {
    RowsAreKept(s);
    KnownSignatories(s);
    hide CopiesFit, PartiesFit, RailFits, ProcsFit, LedgerFits, Grows;
    CopyGrows(s, party, content);
    CopyIsFree(s, party, content);
    DeskFrame(s, WithCopy(s, party, content));
  }

  lemma {:induction false} UnmarkedIsFree(s: State, unmarked: set<int>)
    requires Inv(s)
    ensures Inv(s.(unmarked := unmarked))
  {
    var t := s.(unmarked := unmarked);
    RowsAreKept(s);
    KnownSignatories(s);
    assert CopiesFit(t);
    assert PartiesFit(t);
    hide CopiesFit, PartiesFit, RailFits, ProcsFit, LedgerFits;
    DeskFrame(s, t);
  }

  /** The copy of `party` as a send leaves it: replaced, unless it is signed. */
  function CopyStored(s: State, pid: int, party: int, content: string): State {
    var n := Stored(s, party) + 1;
    var t := if party in s.copies && s.copies[party].signed.Some? then s
             else s.(copies := s.copies[party := Copy(content, Sha(content), None)],
                     stored := s.stored[party := n], history := s.history[(party, n) := content]);
    t.(unmarked := t.unmarked + {pid})
  }

  lemma {:induction false} CopyStoredKeepsInv(s: State, pid: int, party: int, content: string)
    requires Inv(s) && party in s.parties
    ensures Inv(CopyStored(s, pid, party, content)) && party in CopyStored(s, pid, party, content).copies
  {
    hide Inv;
    if party in s.copies && s.copies[party].signed.Some? {
      UnmarkedIsFree(s, s.unmarked + {pid});
    } else {
      PutCopy(s, party, content);
      var n := Stored(s, party) + 1;
      UnmarkedIsFree(s.(copies := s.copies[party := Copy(content, Sha(content), None)],
                        stored := s.stored[party := n], history := s.history[(party, n) := content]),
                            s.unmarked + {pid});
    }
  }

  lemma {:induction false} StoreKeepsInv(s: State, pid: int, party: int, content: string)
    requires Inv(s)
    ensures Inv(Apply(s, StoreCopy(pid, party, content)))
  {
    hide Inv;
    if party in s.parties && !s.parties[party].issuer {
      var p := s.parties[party];
      var u := CopyStored(s, pid, party, content);
      CopyStoredKeepsInv(s, pid, party, content);
      InvitedFits(u, party, p);
      RefreshKeepsInv(u.(parties := u.parties[party := if p.state == Draft then p.(state := Invited) else p]));
      hide Refresh;
    }
  }

  lemma {:induction false} InvitedFits(s: State, id: int, p: Party)
    requires Inv(s) && id in s.parties && s.parties[id] == p && !p.issuer && id in s.copies
    ensures Inv(s.(parties := s.parties[id := if p.state == Draft then p.(state := Invited) else p]))
  {
    assert PartyFits(s, id, p);
    if p.state == Draft {
      PutParty(s, id, p.(state := Invited), s.known);
    } else {
      assert s.parties[id := p] == s.parties;
    }
    hide Inv;
  }

  // ------------------------------------------------------------------ leaving

  lemma {:induction false} RemoveKeepsInv(s: State, id: int)
    requires Inv(s)
    ensures Inv(RemoveStep(s, id))
  {
    if id in s.parties && Removable(s.parties[id]) {
      var t := s.(parties := s.parties - {id}, copies := s.copies - {id},
                  signatories := map g | g in s.signatories && s.signatories[g].party != id :: s.signatories[g]);
      KnownSignatories(s);
      assert RowSignatoriesKept(s, t) by {
        forall k | 0 <= k < |s.ledger|
            ensures s.ledger[k].signatory in t.signatories && t.signatories[s.ledger[k].signatory].signed {
          assert RowFits(s, s.ledger[k]);
        }
      }
      assert PartiesFit(t) by {
        forall q | q in t.parties ensures PartyFits(t, q, t.parties[q]) {
          assert PartyFits(s, q, s.parties[q]);
        }
      }
      assert CopiesFit(t);
      assert Grows(s, t);
      hide CopiesFit, PartiesFit, RailFits, ProcsFit, LedgerFits, Grows, RowSignatoriesKept;
      DeskFrame(s, t);
      RefreshKeepsInv(t);
    }
    hide Inv, Refresh;
  }

  lemma {:induction false} PutSignatories(s: State, t: State)
    requires Inv(s) && t == s.(known := t.known, signatories := t.signatories) && s.known <= t.known
    requires Grows(s, t) && RowSignatoriesKept(s, t) && forall g | g in t.signatories :: g in t.known
    ensures Inv(t)
  {
    assert PartiesFit(t) by {
      forall q | q in t.parties ensures PartyFits(t, q, t.parties[q]) {
        assert PartyFits(s, q, s.parties[q]);
      }
    }
    assert CopiesFit(t);
    hide CopiesFit, PartiesFit, RailFits, ProcsFit, LedgerFits, RowSignatoriesKept, Grows;
    DeskFrame(s, t);
  }

  lemma {:induction false} NamingKeepsInv(s: State, id: int, party: int, reg: string, user: string)
    requires Inv(s)
    ensures Inv(Desk(s, AddSignatory(id, party, reg, user)))
  {
    KnownSignatories(s);
    RowsAreKept(s);
    hide CopiesFit, PartiesFit, RailFits, ProcsFit, LedgerFits;
    PutSignatories(s, Desk(s, AddSignatory(id, party, reg, user)));
    hide Inv;
  }

  lemma {:induction false} UnnamingKeepsInv(s: State, id: int)
    requires Inv(s)
    ensures Inv(Desk(s, RemoveSignatory(id)))
  {
    if id in s.signatories && !s.signatories[id].signed {
      var t := s.(signatories := s.signatories - {id});
      assert Desk(s, RemoveSignatory(id)) == t;
      hide Desk;
      KnownSignatories(s);
      RowsAreKept(s);
      hide CopiesFit, PartiesFit, RailFits, ProcsFit, LedgerFits;
      PutSignatories(s, t);
    }
    hide Inv;
  }

  lemma {:induction false} SignatoriesKeepInv(s: State, e: Event)
    requires Inv(s) && (e.AddSignatory? || e.RemoveSignatory?)
    ensures Inv(Apply(s, e))
  {
    hide Apply, Inv, Desk;
    NamingIs(s, e);
    match e
    case AddSignatory(id, party, reg, user) => NamingKeepsInv(s, id, party, reg, user);
    case RemoveSignatory(id) => UnnamingKeepsInv(s, id);
  }

  lemma {:induction false} WithdrawKeepsInv(s: State)
    requires Inv(s)
    ensures Inv(WithdrawStep(s))
  {
    var t := WithdrawStep(s);
    KnownSignatories(s);
    RowsAreKept(s);
    assert PartiesFit(t) by {
      forall q | q in t.parties ensures PartyFits(t, q, t.parties[q]) {
        assert PartyFits(s, q, s.parties[q]);
      }
    }
    assert CopiesFit(t);
    hide CopiesFit, PartiesFit, RailFits, ProcsFit, LedgerFits;
    DeskFrame(s, t);
  }

  lemma {:induction false} ReopenKeepsInv(s: State)
    requires Inv(s)
    ensures Inv(ReopenStep(s))
  {
    var t := ReopenStep(s);
    KnownSignatories(s);
    RowsAreKept(s);
    assert PartiesFit(t) by {
      forall q | q in t.parties ensures PartyFits(t, q, t.parties[q]) {
        assert PartyFits(s, q, s.parties[q]);
      }
    }
    assert CopiesFit(t);
    hide CopiesFit, PartiesFit, RailFits, ProcsFit, LedgerFits;
    DeskFrame(s, t);
  }

  // ------------------------------------------------------------------ the ceremony's statements keep it

  /** A process takes its next step and nothing else changes. */
  lemma {:induction false} ProcStep(s: State, procs: map<int, Proc>)
    requires Inv(s) && forall p | p in procs :: ProcFits(s, procs[p])
    ensures Inv(s.(procs := procs))
  {
    var t := s.(procs := procs);
    assert CopiesFit(t);
    assert PartiesFit(t);
    assert RailFits(t);
    assert ProcsFit(t) by {
      forall p | p in procs ensures ProcFits(t, procs[p]) {
        assert ProcFits(s, procs[p]);
      }
    }
    assert LedgerFits(t) by {
      forall k | 0 <= k < |s.ledger| ensures RowFits(t, t.ledger[k]) {
        assert RowFits(s, s.ledger[k]);
      }
    }
    hide CopiesFit, PartiesFit, RailFits, ProcsFit, LedgerFits;
  }

  lemma {:induction false} EndingKeepsInv(s: State, pid: int)
    requires Inv(s)
    ensures Inv(Ends(s, pid))
  {
    var procs := s.procs - {pid};
    forall p | p in procs ensures ProcFits(s, procs[p]) {}
    ProcStep(s, procs);
    hide Inv;
  }

  lemma {:induction false} GoingKeepsInv(s: State, pid: int, p: Proc)
    requires Inv(s) && ProcFits(s, p)
    ensures Inv(Goes(s, pid, p))
  {
    var procs := s.procs[pid := p];
    forall q | q in procs ensures ProcFits(s, procs[q]) {}
    ProcStep(s, procs);
    hide Inv;
  }

  /** The copy a party holds now is one of those stored, under its present number. */
  lemma {:induction false} CopyNow(s: State, party: int)
    requires Inv(s) && party in s.copies
    ensures party in s.parties && party in s.known && WasCopy(s, party, Stored(s, party), s.copies[party].content)
    ensures s.copies[party].sha == Sha(s.copies[party].content)
  {
    assert PartyFits(s, party, s.parties[party]);
  }

  lemma {:induction false} CheckKeepsInv(s: State, pid: int, party: int)
    requires Inv(s)
    ensures Inv(Apply(s, StartCheck(pid, party)))
  {
    hide Desk, Poll;
    if party in s.parties {
      assert PartyFits(s, party, s.parties[party]);
      GoingKeepsInv(s, pid, Checked(party));
    }
    hide Inv;
  }

  lemma {:induction false} PickKeepsInv(s: State, pid: int, signatory: int)
    requires Inv(s)
    ensures Inv(Apply(s, StartPick(pid, signatory)))
  {
    hide Desk, Poll;
    EndingKeepsInv(s, pid);
    if At(s, pid).Some? && At(s, pid).value.Checked? && signatory in s.signatories {
      var party := At(s, pid).value.party;
      assert ProcFits(s, s.procs[pid]);
      KnownSignatories(s);
      if party in s.copies && s.signatories[signatory].party == party {
        CopyNow(s, party);
        GoingKeepsInv(s, pid, Picked(party, signatory, s.signatories[signatory].reg, s.copies[party].content,
            Stored(s, party)));
      }
    }
    hide Inv;
  }

  lemma {:induction false} PutCeremony(s: State, sid: string, c: Ceremony)
    requires Inv(s) && sid !in s.rail && SameSignatory(s, c.signatory, c.party, c.reg)
             && WasCopy(s, c.party, c.copy, c.sent)
    ensures Inv(s.(rail := s.rail[sid := c]))
  {
    var t := s.(rail := s.rail[sid := c]);
    assert Grows(s, t);
    ProcsFrame(s, t);
    assert RailFits(t);
    assert CopiesFit(t);
    assert PartiesFit(t) by {
      forall q | q in t.parties ensures PartyFits(t, q, t.parties[q]) {
        assert PartyFits(s, q, s.parties[q]);
      }
    }
    assert LedgerFits(t) by {
      forall k | 0 <= k < |s.ledger| ensures RowFits(t, t.ledger[k]) {
        assert RowFits(s, s.ledger[k]);
      }
    }
    hide CopiesFit, PartiesFit, RailFits, ProcsFit, LedgerFits, Grows;
  }

  lemma {:induction false} PushKeepsInv(s: State, pid: int, sid: string)
    requires Inv(s)
    ensures Inv(Apply(s, StartPush(pid, sid)))
  {
    hide Desk, Poll;
    if At(s, pid).Some? && At(s, pid).value.Picked? && sid !in s.rail {
      var p := At(s, pid).value;
      assert ProcFits(s, s.procs[pid]);
      var c := Ceremony(p.party, p.signatory, p.reg, p.content, p.copy);
      PutCeremony(s, sid, c);
      GoingKeepsInv(s.(rail := s.rail[sid := c]), pid, Pushed(p.party, sid));
    }
    hide Inv;
  }

  lemma {:induction false} LockKeepsInv(s: State, pid: int, abandoned: bool)
    requires Inv(s)
    ensures Inv(Apply(s, StartLock(pid, abandoned)))
  {
    hide Desk, Poll;
    if At(s, pid).Some? && At(s, pid).value.Pushed? {
      var p := At(s, pid).value;
      assert ProcFits(s, s.procs[pid]);
      EndingKeepsInv(s, pid);
      var t := Ends(s, pid);
      if p.party in s.parties && Answerable(s.parties[p.party]) {
        assert PartyFits(s, p.party, s.parties[p.party]);
        PutParty(t, p.party, s.parties[p.party].(session := Some(p.sid), signer := Some(s.rail[p.sid].signatory)),
            t.known);
      }
    }
    hide Inv;
  }

  lemma {:induction false} AnswerKeepsInv(s: State, sid: string, answer: Answer)
    requires Inv(s)
    ensures Inv(Apply(s, RailAnswers(sid, answer)))
  {
    var t := s.(answers := s.answers[sid := answer]);
    KnownSignatories(s);
    RowsAreKept(s);
    assert CopiesFit(t);
    assert PartiesFit(t);
    hide CopiesFit, PartiesFit, RailFits, ProcsFit, LedgerFits;
    DeskFrame(s, t);
  }

  lemma {:induction false} ReadKeepsInv(s: State, pid: int, party: int)
    requires Inv(s)
    ensures Inv(Apply(s, PollRead(pid, party)))
  {
    hide Desk, Start;
    if party in s.parties && party in s.copies && s.parties[party].session.Some? && s.parties[party].signer.Some? {
      var sid, signatory := s.parties[party].session.value, s.parties[party].signer.value;
      assert PartyFits(s, party, s.parties[party]);
      CopyNow(s, party);
      if signatory in s.signatories {
        assert SameSignatory(s, s.rail[sid].signatory, s.rail[sid].party, s.rail[sid].reg);
        GoingKeepsInv(s, pid, Polling(party, sid, signatory, s.signatories[signatory].reg,
                                      s.copies[party].content, s.copies[party].sha, Stored(s, party)));
      }
    }
    hide Inv;
  }

  lemma {:induction false} RailKeepsInv(s: State, pid: int)
    requires Inv(s)
    ensures Inv(Apply(s, PollRail(pid)))
  {
    hide Desk, Start;
    EndingKeepsInv(s, pid);
    if At(s, pid).Some? && At(s, pid).value.Polling? {
      var p := At(s, pid).value;
      assert ProcFits(s, s.procs[pid]);
      GoingKeepsInv(s, pid, Clearing(p.party, p.sid));
      if p.sid in s.answers && s.answers[p.sid].Completed? {
        GoingKeepsInv(s, pid, Recording(p.party, p.sid, p.signatory, p.reg, p.sha, p.copy, s.answers[p.sid].pdf));
      }
    }
    hide Inv;
  }

  lemma {:induction false} ClearKeepsInv(s: State, pid: int)
    requires Inv(s)
    ensures Inv(Apply(s, PollClear(pid)))
  {
    hide Desk, Start;
    if At(s, pid).Some? && At(s, pid).value.Clearing? {
      var p := At(s, pid).value;
      EndingKeepsInv(s, pid);
      var t := Ends(s, pid);
      if p.party in s.parties && s.parties[p.party].session == Some(p.sid) {
        assert PartyFits(s, p.party, s.parties[p.party]);
        PutParty(t, p.party, s.parties[p.party].(session := None, signer := None), t.known);
      }
    }
    hide Inv;
  }

  // ------------------------------------------------------------------ recording

  /** The state after recordPartySignature, before the trigger. */
  function Recorded(s: State, p: Proc): State
    requires p.Recording? && p.party in s.parties && p.signatory in s.signatories && p.party in s.copies
  {
    s.(signatories := s.signatories[p.signatory := s.signatories[p.signatory].(signed := true)],
       copies := s.copies[p.party := s.copies[p.party].(signed := Some(p.pdf))],
       ledger := s.ledger + [Row(p.party, p.signatory, p.reg, p.sid, p.sha, p.copy)],
       parties := s.parties[p.party := s.parties[p.party].(state := Signed, session := None, signer := None)])
  }

  ghost predicate CanRecord(s: State, p: Proc) {
    && p.Recording? && ProcFits(s, p)
    && p.party in s.parties && Answerable(s.parties[p.party]) && p.party in s.copies
    && p.signatory in s.signatories && s.signatories[p.signatory].party == p.party
       && s.signatories[p.signatory].reg == p.reg
    && forall k | 0 <= k < |s.ledger| :: s.ledger[k].party != p.party
  }

  lemma {:induction false} RecordedGrows(s: State, p: Proc)
    requires Inv(s) && CanRecord(s, p)
    ensures Grows(s, Recorded(s, p))
  {
    hide CopiesFit, PartiesFit, RailFits, ProcsFit, LedgerFits;
  }

  lemma {:induction false} RecordedParties(s: State, p: Proc)
    requires Inv(s) && CanRecord(s, p)
    ensures CopiesFit(Recorded(s, p)) && PartiesFit(Recorded(s, p))
  {
    var t := Recorded(s, p);
    forall q | q in t.parties ensures PartyFits(t, q, t.parties[q]) {
      assert PartyFits(s, q, s.parties[q]);
    }
    hide RailFits, ProcsFit, LedgerFits;
  }

  lemma {:induction false} RecordedRows(s: State, p: Proc)
    requires Inv(s) && CanRecord(s, p)
    ensures LedgerFits(Recorded(s, p))
  {
    var t := Recorded(s, p);
    RecordedGrows(s, p);
    forall k | 0 <= k < |t.ledger| ensures RowFits(t, t.ledger[k]) {
      if k < |s.ledger| {
        assert RowFits(s, s.ledger[k]);
      }
    }
    forall q | q in t.parties && t.parties[q].state == Signed ensures exists k :: RowOf(t.ledger, k, q) {
      if q == p.party {
        assert RowOf(t.ledger, |s.ledger|, q);
      } else {
        var k :| RowOf(s.ledger, k, q);
        assert RowOf(t.ledger, k, q);
      }
    }
    hide CopiesFit, PartiesFit, RailFits, ProcsFit;
  }

  lemma {:induction false} RecordedKeepsInv(s: State, p: Proc)
    requires Inv(s) && CanRecord(s, p)
    ensures Inv(Recorded(s, p))
  {
    var t := Recorded(s, p);
    RecordedGrows(s, p);
    RecordedParties(s, p);
    RecordedRows(s, p);
    ProcsFrame(s, t);
    assert RailFits(t) by {
      KnownSignatories(s);
      RailFrame(s, t);
    }
    hide CopiesFit, PartiesFit, RailFits, ProcsFit, LedgerFits;
  }

  lemma {:induction false} RecordKeepsInv(s: State, pid: int)
    requires Inv(s)
    ensures Inv(Apply(s, PollRecord(pid)))
  {
    hide Desk, Start;
    EndingKeepsInv(s, pid);
    var t := Ends(s, pid);
    if At(s, pid).Some? && At(s, pid).value.Recording? {
      var p := At(s, pid).value;
      assert ProcFits(s, p);
      assert ProcFits(t, p);
      if p.party in s.parties && Answerable(s.parties[p.party]) {
        assert PartyFits(s, p.party, s.parties[p.party]);
        if CanRecord(t, p) {
          RecordedKeepsInv(t, p);
          RefreshKeepsInv(Recorded(t, p));
        }
      }
    }
    hide Inv, Refresh, ProcFits;
  }


  lemma {:induction false} ApplyKeepsInv(s: State, e: Event)
    requires Inv(s)
    ensures Inv(Apply(s, e))
  {
    match e
    case AddParty(_, _, _, _, _) => AddPartyKeepsInv(s, e);
    case BecomesContract => ContractIsFree(s, Drafting);
    case RemoveParty(id, _) => RemoveKeepsInv(s, id);
    case AddSignatory(_, _, _, _) => SignatoriesKeepInv(s, e);
    case RemoveSignatory(_) => SignatoriesKeepInv(s, e);
    case StoreCopy(pid, party, content) => StoreKeepsInv(s, pid, party, content);
    case MarkSent(pid) => MarkKeepsInv(s, pid);
    case View(party) => ViewKeepsInv(s, party);
    case Decline(party) => DeclineKeepsInv(s, party);
    case Withdraw(_) => WithdrawKeepsInv(s);
    case Reopen(_) => ReopenKeepsInv(s);
    case StartCheck(pid, party) => CheckKeepsInv(s, pid, party);
    case StartPick(pid, signatory) => PickKeepsInv(s, pid, signatory);
    case StartPush(pid, sid) => PushKeepsInv(s, pid, sid);
    case StartLock(pid, abandoned) => LockKeepsInv(s, pid, abandoned);
    case RailAnswers(sid, answer) => AnswerKeepsInv(s, sid, answer);
    case PollRead(pid, party) => ReadKeepsInv(s, pid, party);
    case PollRail(pid) => RailKeepsInv(s, pid);
    case PollClear(pid) => ClearKeepsInv(s, pid);
    case PollRecord(pid) => RecordKeepsInv(s, pid);
    hide Inv;
  }

  lemma {:induction false} MarkKeepsInv(s: State, pid: int)
    requires Inv(s)
    ensures Inv(Apply(s, MarkSent(pid)))
  {
    UnmarkedIsFree(s, s.unmarked - {pid});
    var t := s.(unmarked := s.unmarked - {pid});
    ContractIsFree(t, if Unsent(s.contract) then Sent else s.contract);
    hide Inv;
  }

  // ------------------------------------------------------------------ one signed party

  /** A signed party, its copy and its row as they were. */
  ghost predicate SignedKept(s: State, t: State, party: int) {
    && party in t.parties && t.parties[party].state == Signed
    && party in s.copies && party in t.copies && t.copies[party] == s.copies[party]
    && s.ledger <= t.ledger
  }

  /** What is known of a signed party. */
  ghost predicate SignedAt(s: State, party: int) {
    && party in s.parties && s.parties[party].state == Signed && s.parties[party].session.None?
    && party in s.known && party in s.copies && s.copies[party].signed.Some?
  }

  lemma {:induction false} SignedMeans(s: State, party: int)
    requires Inv(s) && party in s.parties && s.parties[party].state == Signed
    ensures SignedAt(s, party)
  {
    assert PartyFits(s, party, s.parties[party]);
  }

  lemma {:induction false} RefreshKeepsSigned(s: State, t: State, party: int)
    requires SignedKept(s, t, party)
    ensures SignedKept(s, Refresh(t), party)
  {
    hide Tally;
  }

  /** Another party set, the signed one stays. */
  lemma {:induction false} OtherPartySet(s: State, t: State, party: int, id: int, p: Party)
    requires SignedKept(s, t, party) && id != party
    ensures SignedKept(s, SetParty(t, id, p), party)
  {
    hide Refresh;
    RefreshKeepsSigned(s, t.(parties := t.parties[id := p]), party);
  }

  lemma {:induction false} SignedAsIs(s: State, t: State, party: int)
    requires SignedAt(s, party) && t.copies == s.copies && t.ledger == s.ledger
    requires party in t.parties && t.parties[party].state == Signed
    ensures SignedKept(s, t, party)
  {}

  lemma {:induction false} AddKeepsSigned(s: State, party: int, id: int, issuer: bool, required: bool,
      order: Option<int>, stale: bool)
    requires SignedAt(s, party)
    ensures SignedKept(s, Apply(s, AddParty(id, issuer, required, order, stale)), party)
  {
    hide Refresh, SetParty;
    SignedAsIs(s, s, party);
    if id != party {
      SignedAsIs(s, s.(known := s.known + {id}), party);
      OtherPartySet(s, s.(known := s.known + {id}), party, id, Party(issuer, required, order, Draft, None, None));
    }
    hide SignedKept;
  }

  lemma {:induction false} AnswersKeepSigned(s: State, party: int, other: int)
    requires SignedAt(s, party)
    ensures SignedKept(s, Apply(s, View(other)), party) && SignedKept(s, Apply(s, Decline(other)), party)
  {
    hide Refresh, SetParty;
    SignedAsIs(s, s, party);
    if other != party && other in s.parties {
      OtherPartySet(s, s, party, other, s.parties[other].(state := Viewed));
      OtherPartySet(s, s, party, other, s.parties[other].(state := Declined, session := None, signer := None));
    }
    hide SignedKept;
  }

  lemma {:induction false} RemoveKeepsSigned(s: State, party: int, id: int, stale: bool)
    requires SignedAt(s, party)
    ensures SignedKept(s, Apply(s, RemoveParty(id, stale)), party)
  {
    hide Refresh;
    SignedAsIs(s, s, party);
    if id != party {
      RefreshKeepsSigned(s, s.(parties := s.parties - {id}, copies := s.copies - {id},
                         signatories := map g | g in s.signatories
                             && s.signatories[g].party != id :: s.signatories[g]), party);
    }
  }

  lemma {:induction false} StoreKeepsSigned(s: State, party: int, pid: int, other: int, content: string)
    requires SignedAt(s, party)
    ensures SignedKept(s, Apply(s, StoreCopy(pid, other, content)), party)
  {
    hide Refresh;
    SignedAsIs(s, s, party);
    if other in s.parties && !s.parties[other].issuer {
      var p := s.parties[other];
      var t := CopyStored(s, pid, other, content);
      assert SignedKept(s, t, party);
      var u := t.(parties := t.parties[other := if p.state == Draft then p.(state := Invited) else p]);
      assert SignedKept(s, u, party);
      RefreshKeepsSigned(s, u, party);
    }
    hide SignedKept;
  }

  lemma {:induction false} RecallKeepsSigned(s: State, party: int)
    requires SignedAt(s, party)
    ensures SignedKept(s, WithdrawStep(s), party) && SignedKept(s, ReopenStep(s), party)
  {}

  lemma {:induction false} RecallsKeepSigned(s: State, e: Event, party: int)
    requires SignedAt(s, party) && (e.Withdraw? || e.Reopen?)
    ensures SignedKept(s, Apply(s, e), party)
  {
    hide StoreStep, RemoveStep, SetParty, Start, Poll;
    RecallKeepsSigned(s, party);
    SignedAsIs(s, s, party);
    hide WithdrawStep, ReopenStep, SignedKept, SignedAt;
  }

  ghost predicate SameRecord(s: State, t: State) {
    t.parties == s.parties && t.copies == s.copies && t.ledger == s.ledger
  }

  lemma {:induction false} MarkTouches(s: State, pid: int)
    ensures SameRecord(s, Apply(s, MarkSent(pid)))
  {
    hide StoreStep, RemoveStep, WithdrawStep, ReopenStep, SetParty, Refresh, Tally, Record, TurnHasCome, Removable,
        Answerable, Start, Poll;
  }

  lemma {:induction false} BecomingTouches(s: State)
    ensures SameRecord(s, Apply(s, BecomesContract))
  {
    hide StoreStep, RemoveStep, WithdrawStep, ReopenStep, SetParty, Refresh, Tally, Record, TurnHasCome, Removable,
        Answerable, Start, Poll;
  }

  lemma {:induction false} NamingTouches(s: State, id: int, p: int, reg: string, user: string)
    ensures SameRecord(s, Apply(s, AddSignatory(id, p, reg, user)))
  {
    NamingIs(s, AddSignatory(id, p, reg, user));
    hide Apply;
  }

  lemma {:induction false} UnnamingTouches(s: State, id: int)
    ensures SameRecord(s, Apply(s, RemoveSignatory(id)))
  {
    NamingIs(s, RemoveSignatory(id));
    hide Apply;
  }

  lemma {:induction false} RecordedAsIs(s: State, t: State, party: int)
    requires SignedAt(s, party) && SameRecord(s, t)
    ensures SignedKept(s, t, party)
  {}

  lemma {:induction false} CheckingKeepsSigned(s: State, e: Event, party: int)
    requires SignedAt(s, party) && (e.StartCheck? || e.StartPick? || e.StartPush?)
    ensures SignedKept(s, Apply(s, e), party)
  {
    hide Desk, Poll, Record, Refresh, Tally, SetParty, TurnHasCome, SignedKept, ComesBefore;
    SignedAsIs(s, Apply(s, e), party);
    hide Apply;
  }

  predicate TakesLock(s: State, party: int, sid: string, abandoned: bool) {
    party in s.parties && Answerable(s.parties[party]) && (s.parties[party].session == None || abandoned)
        && sid in s.rail
  }

  lemma {:induction false} LockStep(s: State, pid: int, party: int, sid: string, abandoned: bool)
    requires At(s, pid) == Some(Pushed(party, sid))
    ensures Start(s, StartLock(pid, abandoned))
            == if TakesLock(s, party, sid, abandoned)
               then Ends(s, pid).(parties := s.parties[party := s.parties[party].(session := Some(sid),
                   signer := Some(s.rail[sid].signatory))])
               else Ends(s, pid)
  {}

  lemma {:induction false} NoLockStep(s: State, pid: int, abandoned: bool)
    requires At(s, pid).None? || !At(s, pid).value.Pushed?
    ensures Start(s, StartLock(pid, abandoned)) == s
  {}

  lemma {:induction false} LockIs(s: State, pid: int, abandoned: bool)
    ensures Apply(s, StartLock(pid, abandoned)) == Start(s, StartLock(pid, abandoned))
  {
    hide Desk, Start, Poll;
  }

  /** The lock is taken by a party that is out, so by none that has signed. */
  lemma {:induction false} LockKeepsSigned(s: State, pid: int, abandoned: bool, party: int)
    requires SignedAt(s, party)
    ensures SignedKept(s, Apply(s, StartLock(pid, abandoned)), party)
  {
    LockIs(s, pid, abandoned);
    hide Apply, Start, SignedKept;
    var p := At(s, pid);
    if p.Some? && p.value.Pushed? {
      LockStep(s, pid, p.value.party, p.value.sid, abandoned);
      SignedAsIs(s, Start(s, StartLock(pid, abandoned)), party);
    } else {
      NoLockStep(s, pid, abandoned);
      SignedAsIs(s, s, party);
    }
  }

  lemma {:induction false} PollKeepsSigned(s: State, e: Event, party: int)
    requires SignedAt(s, party) && (e.RailAnswers? || e.PollRead? || e.PollRail?)
    ensures SignedKept(s, Apply(s, e), party)
  {
    hide Desk, Start;
    hide Record, SignedKept;
    SignedAsIs(s, Apply(s, e), party);
    hide Apply;
  }

  lemma {:induction false} ClearKeepsSigned(s: State, pid: int, party: int)
    requires SignedAt(s, party)
    ensures SignedKept(s, Apply(s, PollClear(pid)), party)
  {
    hide Desk, Start, Record, SignedKept;
    SignedAsIs(s, s, party);
    SignedAsIs(s, Ends(s, pid), party);
    if At(s, pid).Some? && At(s, pid).value.Clearing? && At(s, pid).value.party in s.parties {
      var p := At(s, pid).value.party;
      SignedAsIs(s, Ends(s, pid).(parties := s.parties[p := s.parties[p].(session := None, signer := None)]), party);
    }
    hide SignedAt;
  }

  lemma {:induction false} RecordKeepsSigned(s: State, p: Proc, pid: int, party: int)
    requires SignedAt(s, party) && p.Recording?
    ensures SignedKept(s, Record(s, pid, p), party)
  {
    hide Tally;
  }

  lemma {:induction false} RecordingKeepsSigned(s: State, pid: int, party: int)
    requires SignedAt(s, party)
    ensures SignedKept(s, Apply(s, PollRecord(pid)), party)
  {
    hide Desk, Start;
    SignedAsIs(s, s, party);
    if At(s, pid).Some? && At(s, pid).value.Recording? {
      RecordKeepsSigned(s, s.procs[pid], pid, party);
    }
    hide Record, SignedKept, SignedAt;
  }

  lemma {:induction false} SignedStays(s: State, e: Event, party: int)
    requires Inv(s) && party in s.parties && s.parties[party].state == Signed
    ensures SignedKept(s, Apply(s, e), party)
  {
    SignedMeans(s, party);
    hide Inv, Apply, SignedAt, SignedKept, SameRecord;
    match e
    case AddParty(id, issuer, required, order, stale) => AddKeepsSigned(s, party, id, issuer, required, order, stale);
    case RemoveParty(id, stale) => RemoveKeepsSigned(s, party, id, stale);
    case View(other) => AnswersKeepSigned(s, party, other);
    case Decline(other) => AnswersKeepSigned(s, party, other);
    case StoreCopy(pid, other, content) => StoreKeepsSigned(s, party, pid, other, content);
    case Withdraw(_) => RecallsKeepSigned(s, e, party);
    case Reopen(_) => RecallsKeepSigned(s, e, party);
    case StartLock(pid, abandoned) => LockKeepsSigned(s, pid, abandoned, party);
    case PollClear(pid) => ClearKeepsSigned(s, pid, party);
    case PollRecord(pid) => RecordingKeepsSigned(s, pid, party);
    case BecomesContract =>
      BecomingTouches(s);
      RecordedAsIs(s, Apply(s, e), party);
    case MarkSent(pid) =>
      MarkTouches(s, pid);
      RecordedAsIs(s, Apply(s, e), party);
    case AddSignatory(id, p, reg, user) =>
      NamingTouches(s, id, p, reg, user);
      RecordedAsIs(s, Apply(s, e), party);
    case RemoveSignatory(id) =>
      UnnamingTouches(s, id);
      RecordedAsIs(s, Apply(s, e), party);
    case StartCheck(_, _) => CheckingKeepsSigned(s, e, party);
    case StartPick(_, _) => CheckingKeepsSigned(s, e, party);
    case StartPush(_, _) => CheckingKeepsSigned(s, e, party);
    case RailAnswers(_, _) => PollKeepsSigned(s, e, party);
    case PollRead(_, _) => PollKeepsSigned(s, e, party);
    case PollRail(_) => PollKeepsSigned(s, e, party);
  }
}
