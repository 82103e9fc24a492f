/** The transactions as the module runs them, statement by statement against one tenant's tables. Every
    method is held to the step of ApprovalLedger that the theorems of ApprovalSafety are about.

    Beside that each says its answer and what it writes in the tables' own fields, refusal by refusal in the order the
    code makes them. The lemmas say in the same terms what the guards ask: which chains a screen takes, and whom a
    policy that requires names would leave waiting for nobody. */
module ApprovalTransactions {
  import opened Wrappers
  import opened Sets
  import opened Text
  import opened RegNumbers
  import opened ApprovalRules
  import opened ApprovalLedger

  datatype SaveError =
    | BadChain(why: ChainError)
    | BadType(docType: string)
    | NoChannel
    | NeedsNames(named: NamedError)
    | WouldStrand

  datatype DocumentError = InvalidDocument | NotRoutable | TitleFrozen | NotFound

  /** Steps of different orders are all inserted, in their order. */
  lemma {:induction false} NothingClashes(steps: seq<Step>, m: nat)
    requires m <= |steps| && forall i, j | 0 <= i < j < |steps| :: steps[i].order != steps[j].order
    ensures InsertAll([], steps[..m]) == steps[..m]
  {
    if m > 0 {
      hide HasOrder;
      NothingClashes(steps, m - 1);
      OrderIsFree(steps, m);
      assert steps[..m][..m - 1] == steps[..m - 1];
      assert steps[..m] == steps[..m - 1] + [steps[m - 1]];
    }
  }

  lemma {:induction false} OrdersDiffer(steps: seq<Step>)
    requires forall i, j | 0 <= i < j < |steps| :: steps[i].order != steps[j].order
    ensures forall i, j | 0 <= i < j < |Fillable(steps)| :: Fillable(steps)[i].order != Fillable(steps)[j].order
  {}

  lemma {:induction false} OrderIsFree(steps: seq<Step>, m: nat)
    requires 0 < m <= |steps| && forall i, j | 0 <= i < j < |steps| :: steps[i].order != steps[j].order
    ensures !HasOrder(steps[..m - 1], steps[m - 1].order)
  {}

  /** snapshotApprovalChain: fill, insert step by step, then pin the requirement. */
  method SnapshotApprovalChain(d: Doc, stored: seq<Step>) returns (after: Doc)
    requires d.status == Pending
    ensures after == Waiting(d, stored)
    ensures after == d.(steps := after.steps, required := if |after.steps| == 0 then 1 else |after.steps|)
    ensures d.steps == [] && (forall i, j | 0 <= i < j < |stored| :: stored[i].order != stored[j].order) ==>
              Opened(stored, after.steps)
  {
    FillableMeans(stored);
    hide Fillable, Opened;
    var fillable := FillableChain(stored);
    var steps := d.steps;
    for i := 0 to |fillable|
      invariant steps == InsertAll(d.steps, fillable[..i])
    {
      assert fillable[..i + 1][..i] == fillable[..i];
      if !HasOrder(steps, fillable[i].order) {
        steps := steps + [fillable[i]];
      }
    }
    assert fillable[..|fillable|] == fillable;
    if d.steps == [] && forall i, j | 0 <= i < j < |stored| :: stored[i].order != stored[j].order {
      OrdersDiffer(stored);
      NothingClashes(fillable, |fillable|);
    }
    after := d.(steps := steps, required := if |steps| < 1 then 1 else |steps|);
  }

  /** unfilledSteps: asked again after the insert. */
  method UnfilledSteps(d: Doc) returns (left: nat)
    ensures left == |Unfilled(d.steps, d.ledger)|
  {
    left := 0;
    for i := 0 to |d.steps|
      invariant left == |Unfilled(d.steps[..i], d.ledger)|
    {
      assert d.steps[..i + 1][..i] == d.steps[..i];
      if !Filled(d.ledger, d.steps[i].order) {
        left := left + 1;
      }
    }
    assert d.steps[..|d.steps|] == d.steps;
  }

  // ------------------------------------------------------------------ what is taken, in the screens' own terms

  /** A chain the screen takes: of a known type, of at most ten steps, every step named and storable, every number given
      of a plausible length and given once; and where the type's policy asks for names, at least one step and a number
      at every one. */
  ghost predicate ChainTaken(policies: map<string, Policy>, docType: string, steps: seq<Step>) {
    var t := Upper(Trim(docType));
    && t in ["CONTRACT", "REQUEST", "APPROVAL"] && |steps| <= 10
    && (forall i | 0 <= i < |steps| ::
          var name, reg := Trim(steps[i].name), Upper(Trim(steps[i].signer));
          && name != "" && 0 as char !in name && 0 as char !in steps[i].signer
          && (reg == "" || (8 <= |reg| <= 64 && forall j | 0 <= j < i :: Upper(Trim(steps[j].signer)) != reg)))
    && (t in policies && policies[t].requireNamed ==>
          |steps| > 0 && forall i | 0 <= i < |steps| :: Upper(Trim(steps[i].signer)) != "")
  }

  lemma {:induction false} TakenMeans(s: State, docType: string, steps: seq<Step>)
    ensures ChainAccepted(s, docType, steps) <==> ChainTaken(s.policies, docType, steps)
    ensures |Cleaned(steps)| == |steps| && forall i | 0 <= i < |steps| ::
              Cleaned(steps)[i] == Step(i + 1, Trim(steps[i].name), Upper(Trim(steps[i].signer)))
  {
    FaultlessMeans(steps);
    hide Upper, Trim, Faultless;
    var c := Cleaned(steps);
    assert forall i | 0 <= i < |steps| :: c[i].signer == Upper(Trim(steps[i].signer));
  }

  /** Nobody waits, under the type, for an approval that names nobody. */
  ghost predicate NobodyWaitsUnnamed(docs: map<int, Doc>, t: string) {
    forall id | id in docs && docs[id].docType == t && docs[id].status == Pending ::
      docs[id].steps != [] && !SomeUnnamed(docs[id].steps, docs[id].ledger)
  }

  /** The step has no signature filed under it and names nobody. */
  ghost predicate Unnamed(step: Step, ledger: seq<Signature>) {
    step.signer == "" && forall k | 0 <= k < |ledger| :: ledger[k].step != step.order
  }

  ghost predicate SomeUnnamed(steps: seq<Step>, ledger: seq<Signature>) {
    exists i :: 0 <= i < |steps| && Unnamed(steps[i], ledger)
  }

  ghost predicate SomeOpen(steps: seq<Step>) {
    exists i :: 0 <= i < |steps| && steps[i].signer == ""
  }

  lemma {:induction false} OneMore(steps: seq<Step>, last: Step)
    ensures SomeOpen(steps + [last]) <==> SomeOpen(steps) || last.signer == ""
  {
    if SomeOpen(steps) {
      var i :| 0 <= i < |steps| && steps[i].signer == "";
      assert (steps + [last])[i].signer == "";
    }
    assert (steps + [last])[|steps|] == last;
  }

  lemma {:induction false} UnfilledNameNobody(steps: seq<Step>, ledger: seq<Signature>)
    ensures SomeOpen(Unfilled(steps, ledger)) <==> SomeUnnamed(steps, ledger)
  {
    if steps != [] {
      var init, last := steps[..|steps| - 1], steps[|steps| - 1];
      UnfilledNameNobody(init, ledger);
      OneMore(Unfilled(init, ledger), last);
      assert SomeUnnamed(steps, ledger) <==> SomeUnnamed(init, ledger) || Unnamed(last, ledger) by {
        if SomeUnnamed(init, ledger) {
          var i :| 0 <= i < |init| && Unnamed(init[i], ledger);
          assert Unnamed(steps[i], ledger);
        }
        assert forall i | 0 <= i < |steps| :: i < |init| ==> init[i] == steps[i];
      }
      hide SomeOpen, SomeUnnamed;
    }
  }

  lemma {:induction false} StrandedMeans(docs: map<int, Doc>, t: string)
    ensures NoneStranded(docs, t) <==> NobodyWaitsUnnamed(docs, t)
  {
    forall id | id in docs ensures Strands(docs[id], t) <==>
              && docs[id].docType == t && docs[id].status == Pending
              && (docs[id].steps == [] || SomeUnnamed(docs[id].steps, docs[id].ledger)) {
      UnfilledNameNobody(docs[id].steps, docs[id].ledger);
      hide Unfilled, SomeUnnamed;
    }
    hide Strands;
    if NoneStranded(docs, t) {
      forall id | id in docs && docs[id].docType == t && docs[id].status == Pending
        ensures docs[id].steps != [] && !SomeUnnamed(docs[id].steps, docs[id].ledger) {
        assert !Strands(docs[id], t);
      }
    }
  }

  class Documents {
    var chains: map<string, seq<Step>>
    var policies: map<string, Policy>
    var docs: map<int, Doc>

    ghost function Contents(): State
      reads this
    {
      State(chains, policies, docs)
    }

    constructor ()
      ensures Contents() == Empty()
    {
      chains, policies, docs := map[], map[], map[];
    }

    method ReplaceWorkflow(docType: string, steps: seq<Step>) returns (r: Result<(string, seq<Step>), SaveError>)
      modifies this
      ensures Contents() == Apply(old(Contents()), SaveChain(docType, steps))
      ensures r.Ok? <==> ChainAccepted(old(Contents()), docType, steps)
      ensures r.Ok? ==> r.value == (Upper(Trim(docType)), Cleaned(steps))
      ensures r.Ok? <==> ChainTaken(old(policies), docType, steps)
      ensures policies == old(policies) && docs == old(docs)
      ensures r.Err? ==> chains == old(chains)
      ensures r.Ok? ==>
                && chains == old(chains)[r.value.0 := r.value.1] && r.value.0 == Upper(Trim(docType))
                && |r.value.1| == |steps|
                && forall i | 0 <= i < |steps| ::
                     r.value.1[i] == Step(i + 1, Trim(steps[i].name), Upper(Trim(steps[i].signer)))
    {
      TakenMeans(Contents(), docType, steps);
      hide NormaliseRegNumber, Upper, Trim, Cleaned, CanRequireNamed, NoneStranded, ChainTaken;
      var valid := ValidateChain(docType, DocTypes(), steps);
      if valid.Err? { return Err(BadChain(valid.error)); }
      var (t, cleaned) := valid.value;
      var requireNamed := t in policies && policies[t].requireNamed;
      if requireNamed {
        var named := StepsCanRequireNamedSigners(cleaned);
        if named.Err? { return Err(NeedsNames(named.error)); }
      }
      chains := chains - {t};
      chains := chains[t := cleaned];
      r := Ok((t, cleaned));
    }

    /** pendingCanRequireNamedSigners: how many waiting documents the requirement would strand. */
    method CountStranded(t: string) returns (stranded: nat)
      ensures stranded == 0 <==> NoneStranded(docs, t)
      ensures stranded == 0 <==> NobodyWaitsUnnamed(docs, t)
    {
      StrandedMeans(docs, t);
      stranded := 0;
      var ids := docs.Keys;
      while |ids| > 0
        invariant ids <= docs.Keys
        invariant stranded == 0 <==> forall id | id in docs && id !in ids :: !Strands(docs[id], t)
        decreases |ids|
      {
        ghost var some := SomeMember(ids);
        var id :| id in ids;
        ids := ids - {id};
        if Strands(docs[id], t) {
          stranded := stranded + 1;
        }
      }
    }

    method SaveSignaturePolicy(docType: string, policy: Policy) returns (r: Result<Policy, SaveError>)
      modifies this
      ensures Contents() == Apply(old(Contents()), SavePolicy(docType, policy))
      ensures r.Ok? <==> PolicyAccepted(old(Contents()), docType, policy)
      ensures var t := Upper(Trim(docType));
              var chain := if t in chains then chains[t] else [];
              var before := if t in old(policies) then old(policies)[t] else Policy(true, true, false);
              var named := && |chain| > 0 && (forall i | 0 <= i < |chain| :: chain[i].signer != "")
                           && forall i, j | 0 <= i < j < |chain| :: chain[i].signer != chain[j].signer;
              if t !in ["CONTRACT", "REQUEST", "APPROVAL"] then r == Err(BadType(t))
              else if !policy.allowEid && !policy.allowDan then r == Err(NoChannel)
              else if policy.requireNamed && !named then r.Err? && r.error.NeedsNames?
              else if policy.requireNamed && !before.requireNamed && !NobodyWaitsUnnamed(docs, t)
              then r == Err(WouldStrand)
              else r == Ok(policy)
      ensures chains == old(chains) && docs == old(docs)
              && policies == if r.Ok? then old(policies)[Upper(Trim(docType)) := policy] else old(policies)
    {
      hide Upper, Trim, NoneStranded, NobodyWaitsUnnamed;
      var t := Upper(Trim(docType));
      if t !in DocTypes() { return Err(BadType(t)); }
      if !policy.allowEid && !policy.allowDan { return Err(NoChannel); }
      var wasRequired := t in policies && policies[t].requireNamed;
      if policy.requireNamed {
        var named := StepsCanRequireNamedSigners(if t in chains then chains[t] else []);
        if named.Err? { return Err(NeedsNames(named.error)); }
        if !wasRequired {
          var stranded := CountStranded(t);
          if stranded > 0 { return Err(WouldStrand); }
        }
      }
      policies := policies[t := policy];
      r := Ok(policy);
    }

    /** `id` is the fresh identifier the table mints. */
    method CreateDocument(id: int, title: string, docType: string) returns (r: Result<Doc, DocumentError>)
      requires id !in docs
      modifies this
      ensures Contents() == Apply(old(Contents()), Create(id, title, docType))
      ensures r.Ok? <==> GoodTitle(Trim(title)) && EffectiveType(docType) in DocTypes()
      ensures var name, t := Trim(title), Upper(Trim(docType));
              if 1 <= |name| <= 255 && 0 as char !in name && t in ["", "CONTRACT", "REQUEST", "APPROVAL"]
              then && r.Ok? && r.value.title == name && r.value.docType == (if t == "" then "CONTRACT" else t)
                   && r.value.status == Pending && r.value.ledger == []
                   && r.value.steps == InsertAll([], Fillable(if r.value.docType in chains
                                                              then chains[r.value.docType] else []))
                   && r.value.required == (if |r.value.steps| == 0 then 1 else |r.value.steps|)
              else r == Err(InvalidDocument)
      ensures r.Ok? ==>
                var chain := if r.value.docType in chains then chains[r.value.docType] else [];
                (forall i, j | 0 <= i < j < |chain| :: chain[i].order != chain[j].order) ==>
                  Opened(chain, r.value.steps)
      ensures chains == old(chains) && policies == old(policies)
              && docs == if r.Ok? then old(docs)[id := r.value] else old(docs)
    {
      hide Upper, Trim, Fillable, InsertAll, Opened;
      var name := Trim(title);
      var t := Upper(Trim(docType));
      if name == "" || |name| > TitleLimit || HasNul(name) { return Err(InvalidDocument); }
      if t == "" { t := DocTypes()[0]; }
      if t !in DocTypes() { return Err(InvalidDocument); }
      var d := Doc(t, name, Pending, [], 1, []);
      d := SnapshotApprovalChain(d, if t in chains then chains[t] else []);
      docs := docs[id := d];
      r := Ok(d);
    }

    method RouteDocument(id: int) returns (r: Result<Doc, DocumentError>)
      modifies this
      ensures Contents() == Apply(old(Contents()), Route(id))
      ensures r.Ok? <==> id in old(docs) && old(docs)[id].status == Draft
      ensures r.Ok? ==>
                var was := old(docs)[id];
                && r.value == was.(status := Pending, steps := r.value.steps, required := r.value.required)
                && r.value.steps == InsertAll(was.steps, Fillable(if was.docType in chains
                                                                  then chains[was.docType] else []))
                && r.value.required == (if |r.value.steps| == 0 then 1 else |r.value.steps|)
                && var chain := if was.docType in chains then chains[was.docType] else [];
                   was.steps == [] && (forall i, j | 0 <= i < j < |chain| :: chain[i].order != chain[j].order) ==>
                     Opened(chain, r.value.steps)
      ensures chains == old(chains) && policies == old(policies)
              && docs == if r.Ok? then old(docs)[id := r.value] else old(docs)
    {
      hide Fillable, InsertAll, Opened;
      if id !in docs || docs[id].status != Draft { return Err(NotRoutable); }
      var d := docs[id].(status := Pending);
      d := SnapshotApprovalChain(d, if d.docType in chains then chains[d.docType] else []);
      docs := docs[id := d];
      r := Ok(d);
    }

    method RenameDocument(id: int, title: string) returns (r: Result<Doc, DocumentError>)
      modifies this
      ensures Contents() == Apply(old(Contents()), Rename(id, title))
      ensures r.Ok? <==> GoodTitle(Trim(title)) && id in old(docs)
                         && (old(docs)[id].status == Draft || old(docs)[id].status == Pending)
                         && old(docs)[id].ledger == []
      ensures var name := Trim(title);
              if !(1 <= |name| <= 255 && 0 as char !in name) then r == Err(InvalidDocument)
              else if id in old(docs) && old(docs)[id].status in {Draft, Pending} && old(docs)[id].ledger == []
              then r == Ok(old(docs)[id].(title := name))
              else r == Err(TitleFrozen)
      ensures chains == old(chains) && policies == old(policies)
              && docs == if r.Ok? then old(docs)[id := r.value] else old(docs)
    {
      hide Trim;
      var name := Trim(title);
      if name == "" || |name| > TitleLimit || HasNul(name) { return Err(InvalidDocument); }
      if id !in docs || docs[id].status !in {Draft, Pending} { return Err(TitleFrozen); }
      if docs[id].ledger != [] { return Err(TitleFrozen); }
      docs := docs[id := docs[id].(title := name)];
      r := Ok(docs[id]);
    }

    method RejectDocument(id: int) returns (r: Result<Doc, DocumentError>)
      modifies this
      ensures Contents() == Apply(old(Contents()), Reject(id))
      ensures r == if id in old(docs) && old(docs)[id].status == Pending
                   then Ok(old(docs)[id].(status := Rejected)) else Err(NotFound)
      ensures chains == old(chains) && policies == old(policies)
              && docs == if r.Ok? then old(docs)[id := r.value] else old(docs)
    {
      if id !in docs || docs[id].status != Pending { return Err(NotFound); }
      docs := docs[id := docs[id].(status := Rejected)];
      r := Ok(docs[id]);
    }

    /** writeSignature: everything the decision rests on is read under the row's lock. */
    method WriteSignature(id: int, channel: string, identity: string) returns (o: Outcome)
      modifies this
      ensures Contents() == Apply(old(Contents()), Sign(id, channel, identity))
      ensures o == if id !in old(docs) then NotSignable
                   else Signing(old(docs)[id], PolicyFor(old(Contents()), old(docs)[id].docType), channel,
                       NormaliseRegNumber(identity)).1
      ensures var t := if id in old(docs) then old(docs)[id].docType else "";
              var policy := if t in policies then policies[t] else Policy(true, true, false);
              var admitted := (channel == "EID" && policy.allowEid) || (channel == "DAN" && policy.allowDan);
              && (o.Signed? ==> admitted)
              && (o == NotSignable <==> id !in old(docs) || old(docs)[id].status != Pending)
              && (o == ChannelRefused <==> id in old(docs) && old(docs)[id].status == Pending && !admitted)
      ensures chains == old(chains) && policies == old(policies)
      ensures !o.Signed? ==> docs == old(docs)
      ensures o.Signed? ==>
                && id in docs && docs == old(docs)[id := docs[id]]
                && var was, signed := old(docs)[id], docs[id];
                   && signed == was.(ledger := signed.ledger, status := o.status)
                   && |signed.ledger| == |was.ledger| + 1 && signed.ledger[..|was.ledger|] == was.ledger
                   && signed.ledger[|was.ledger|].signer == Upper(Trim(identity))
                   && signed.ledger[|was.ledger|].channel == channel
    {
      assert NormaliseRegNumber(identity) == Upper(Trim(identity));
      hide NormaliseRegNumber, PositionOf, Unfilled, MaxStep, MaxOrder, Upper, Trim;
      var reg := NormaliseRegNumber(identity);
      if id !in docs { return NotSignable; }
      var d := docs[id];
      assert docs[id := d] == docs;
      if d.status != Pending { return NotSignable; }
      var position := NextApprovalStep(d);
      var policy := if d.docType in policies then policies[d.docType] else DefaultPolicy();
      if !policy.Allows(channel) { return ChannelRefused; }
      var refusal := CheckSigner(position, reg, policy.requireNamed);
      if refusal.Some? { return SignerRefused(refusal.value); }
      var step;
      if position.next.Some? {
        step := position.next.value.order;
      } else {
        var past, last := MaxStep(d.ledger), MaxOrder(d.steps);
        step := (if past > last then past else last) + 1;
      }
      if HasSigned(d.ledger, reg) { return DuplicateSigner; }
      if Filled(d.ledger, step) { return DuplicateStep; }
      var after := d.(ledger := d.ledger + [Signature(reg, channel, step)]);
      var left := UnfilledSteps(after);
      var status := Pending;
      if left == 0 && position.applied + 1 >= d.required {
        status := Approved;
      }
      docs := docs[id := after.(status := status)];
      o := Signed(status);
    }
  }
}
