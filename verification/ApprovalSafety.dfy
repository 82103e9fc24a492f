/** What every run of the approval transactions keeps: chains, policies, documents and ledgers together. */
module ApprovalSafety {
  import opened Wrappers
  import opened Text
  import opened RegNumbers
  import opened ApprovalRules
  import opened ApprovalLedger

  // ------------------------------------------------------------------ the invariant

  ghost predicate GoodChain(steps: seq<Step>) {
    && |steps| <= MaxChainSteps && Completable(steps)
    && forall i | 0 <= i < |steps| :: steps[i].order == i + 1
  }

  /** Signature `k` fills step `k + 1`, given by its citizen if the step names one. */
  ghost predicate InOrder(steps: seq<Step>, ledger: seq<Signature>) {
    && (forall k | 0 <= k < |ledger| :: ledger[k].step == k + 1)
    && (forall k | 0 <= k < |ledger| && k < |steps| && steps[k].signer != "" :: ledger[k].signer == steps[k].signer)
  }

  ghost predicate DistinctLedger(ledger: seq<Signature>) {
    forall j, k | 0 <= j < k < |ledger| :: ledger[j].signer != ledger[k].signer
  }

  /** Nobody a later step names has signed yet. */
  ghost predicate HeldBack(steps: seq<Step>, ledger: seq<Signature>) {
    forall j, k | 0 <= k < |ledger| <= j < |steps| && steps[j].signer != "" :: ledger[k].signer != steps[j].signer
  }

  ghost predicate GoodLedger(steps: seq<Step>, ledger: seq<Signature>) {
    InOrder(steps, ledger) && DistinctLedger(ledger) && HeldBack(steps, ledger)
  }

  ghost predicate GoodDoc(d: Doc) {
    && GoodChain(d.steps) && d.required == Required(d.steps) && GoodLedger(d.steps, d.ledger)
    && match d.status
       case Draft => d.steps == [] && d.ledger == []
       case Pending => |d.ledger| < d.required
       case Approved => |d.ledger| == d.required
       case Rejected => |d.ledger| < d.required
  }

  /** Chains, policies and documents each in order; nothing said yet about how they fit. */
  ghost predicate Sound(s: State) {
    && (forall t | t in s.chains :: GoodChain(s.chains[t]))
    && (forall t | t in s.policies :: s.policies[t].allowEid || s.policies[t].allowDan)
    && (forall id | id in s.docs :: GoodDoc(s.docs[id]))
  }

  /** A type whose policy requires named signers has a chain that can meet it. */
  ghost predicate ChainsMeetPolicies(s: State) {
    forall t | t in s.policies && s.policies[t].requireNamed :: CanRequireNamed(ChainOf(s, t))
  }

  /** The remaining steps of a waiting document all name somebody. */
  ghost predicate NamesTheRest(d: Doc) {
    d.steps != [] && forall i | |d.ledger| <= i < |d.steps| :: d.steps[i].signer != ""
  }

  ghost predicate DocsMeetPolicies(s: State) {
    forall id | id in s.docs && s.docs[id].status == Pending && PolicyFor(s, s.docs[id].docType).requireNamed ::
      NamesTheRest(s.docs[id])
  }

  ghost predicate Inv(s: State) {
    Sound(s) && ChainsMeetPolicies(s) && DocsMeetPolicies(s)
  }

  // ------------------------------------------------------------------ positions

  /** The unfilled steps of a document in order are the rest of its chain. */
  lemma {:induction false} UnfilledIsTheRest(steps: seq<Step>, ledger: seq<Signature>, m: nat)
    requires m <= |steps| && forall i | 0 <= i < |steps| :: steps[i].order == i + 1
    requires forall k | 0 <= k < |ledger| :: ledger[k].step == k + 1
    ensures Unfilled(steps[..m], ledger) == Rest(steps, |ledger|, m)
  {
    if m > 0 {
      UnfilledIsTheRest(steps, ledger, m - 1);
      UnfilledStep(steps, ledger, m);
      FilledIs(ledger, steps[m - 1].order);
      RestStep(steps, |ledger|, m);
      hide Filled, Unfilled, Rest;
    }
  }

  ghost function Rest(steps: seq<Step>, n: nat, m: nat): seq<Step>
    requires m <= |steps|
  {
    if n < m then steps[n..m] else []
  }

  lemma {:induction false} RestStep(steps: seq<Step>, n: nat, m: nat)
    requires 0 < m <= |steps|
    ensures Rest(steps, n, m) == Rest(steps, n, m - 1) + if n < m then [steps[m - 1]] else []
  {}

  lemma {:induction false} UnfilledStep(steps: seq<Step>, ledger: seq<Signature>, m: nat)
    requires 0 < m <= |steps|
    ensures Unfilled(steps[..m], ledger)
            == Unfilled(steps[..m - 1], ledger) + if Filled(ledger, steps[m - 1].order) then [] else [steps[m - 1]]
  {
    assert steps[..m][..m - 1] == steps[..m - 1] && steps[..m][m - 1] == steps[m - 1];
  }

  lemma {:induction false} FilledIs(ledger: seq<Signature>, order: int)
    requires forall k | 0 <= k < |ledger| :: ledger[k].step == k + 1
    ensures Filled(ledger, order) <==> 1 <= order <= |ledger|
  {
    if 1 <= order <= |ledger| {
      assert ledger[order - 1].step == order;
    }
  }

  lemma {:induction false} NamedMeans(steps: seq<Step>, reg: string)
    ensures reg in Named(steps) <==> exists i :: 0 <= i < |steps| && steps[i].signer == reg && reg != ""
  {
    if steps != [] {
      var init := steps[..|steps| - 1];
      NamedMeans(init, reg);
      if i :| 0 <= i < |steps| && steps[i].signer == reg && reg != "" {
        assert i < |init| ==> init[i].signer == reg;
      }
    }
  }

  lemma {:induction false} PositionIs(d: Doc)
    requires GoodDoc(d)
    ensures var n := |d.ledger|;
            && PositionOf(d).applied == n
            && PositionOf(d).next == (if n < |d.steps| then Some(d.steps[n]) else None)
            && (n < |d.steps| ==> PositionOf(d).reserved == Named(d.steps[n + 1..]))
  {
    UnfilledIsTheRest(d.steps, d.ledger, |d.steps|);
    assert d.steps[..|d.steps|] == d.steps;
    if |d.ledger| < |d.steps| {
      assert d.steps[|d.ledger|..][1..] == d.steps[|d.ledger| + 1..];
    }
  }

  /** A step after the next one names this citizen. */
  ghost predicate NamedLater(d: Doc, reg: string) {
    exists i :: |d.ledger| < i < |d.steps| && d.steps[i].signer == reg && reg != ""
  }

  /** A citizen the document's next step would take. */
  ghost predicate Eligible(d: Doc, requireNamed: bool, reg: string) {
    var n := |d.ledger|;
    if n < |d.steps| && d.steps[n].signer != "" then reg == d.steps[n].signer
    else !requireNamed && !NamedLater(d, reg)
  }

  lemma {:induction false} ReservedMeans(d: Doc, reg: string)
    requires |d.ledger| < |d.steps|
    ensures reg in Named(d.steps[|d.ledger| + 1..]) <==> NamedLater(d, reg)
  {
    var n := |d.ledger|;
    var rest := d.steps[n + 1..];
    NamedMeans(rest, reg);
    if NamedLater(d, reg) {
      var i :| n < i < |d.steps| && d.steps[i].signer == reg;
      assert rest[i - n - 1].signer == reg;
    }
  }

  lemma {:induction false} CheckSignerMeans(d: Doc, reg: string, requireNamed: bool)
    requires GoodDoc(d)
    ensures CheckSigner(PositionOf(d), reg, requireNamed).None? <==> Eligible(d, requireNamed, reg)
  {
    PositionIs(d);
    hide PositionOf, NamedLater, Named, GoodDoc;
    if |d.ledger| < |d.steps| {
      ReservedMeans(d, reg);
    } else {
      assert !NamedLater(d, reg) by { NobodyLater(d, reg); }
    }
  }

  lemma {:induction false} NobodyLater(d: Doc, reg: string)
    requires |d.ledger| >= |d.steps|
    ensures !NamedLater(d, reg)
  {}

  lemma {:induction false} MaxStepIs(ledger: seq<Signature>)
    requires forall k | 0 <= k < |ledger| :: ledger[k].step == k + 1
    ensures MaxStep(ledger) == |ledger|
  {
    if ledger != [] {
      MaxStepIs(ledger[..|ledger| - 1]);
    }
  }

  lemma {:induction false} MaxOrderIs(steps: seq<Step>)
    requires forall k | 0 <= k < |steps| :: steps[k].order == k + 1
    ensures MaxOrder(steps) == |steps|
  {
    if steps != [] {
      MaxOrderIs(steps[..|steps| - 1]);
    }
  }

  /** The step number chosen is the next one, and no signature holds it: the constraint that would
      report a bug never fires. */
  lemma {:induction false} StepNumberIsFree(d: Doc)
    requires GoodDoc(d) && d.status == Pending
    ensures StepNumber(d, PositionOf(d)) == |d.ledger| + 1 && !Filled(d.ledger, StepNumber(d, PositionOf(d)))
  {
    PositionIs(d);
    MaxStepIs(d.ledger);
    MaxOrderIs(d.steps);
  }

  // ------------------------------------------------------------------ signing

  /** A signature is accepted exactly when the channel is allowed, the next step would take the citizen and
      the citizen has not signed. */
  lemma {:induction false} AcceptedMeans(d: Doc, policy: Policy, channel: string, reg: string)
    requires GoodDoc(d)
    ensures Signing(d, policy, channel, reg).1.Signed?
            <==> && d.status == Pending && policy.Allows(channel) && Eligible(d, policy.requireNamed, reg)
                 && !HasSigned(d.ledger, reg)
    ensures Signing(d, policy, channel, reg).1 != DuplicateStep
    ensures !Signing(d, policy, channel, reg).1.Signed? ==> Signing(d, policy, channel, reg).0 == d
  {
    CheckSignerMeans(d, reg, policy.requireNamed);
    if d.status == Pending {
      StepNumberIsFree(d);
    }
  }

  /** What a signature is answered, case by case, in the terms of the policy and of the document's own chain. */
  lemma {:induction false} OutcomeIs(d: Doc, policy: Policy, channel: string, reg: string)
    requires GoodDoc(d)
    ensures var n, o := |d.ledger|, Signing(d, policy, channel, reg).1;
            if d.status != Pending then o == NotSignable
            else if !((channel == "EID" && policy.allowEid) || (channel == "DAN" && policy.allowDan))
            then o == ChannelRefused
            else if n >= |d.steps| && policy.requireNamed then o == SignerRefused(NoChain)
            else if n < |d.steps| && d.steps[n].signer != "" && d.steps[n].signer != reg
            then o == SignerRefused(ReservedFor(d.steps[n]))
            else if n < |d.steps| && d.steps[n].signer == "" && policy.requireNamed
            then o == SignerRefused(OpenStep(d.steps[n]))
            else if n < |d.steps| && d.steps[n].signer == "" && reg != ""
                    && exists j :: n < j < |d.steps| && d.steps[j].signer == reg
            then o == SignerRefused(HeldForLater(d.steps[n]))
            else if exists k :: 0 <= k < n && d.ledger[k].signer == reg then o == DuplicateSigner
            else o == Signed(if n + 1 == d.required then Approved else Pending)
  {
    if d.status == Pending {
      PositionIs(d);
      if |d.ledger| < |d.steps| {
        ReservedMeans(d, reg);
      }
      StepNumberIsFree(d);
      if Signing(d, policy, channel, reg).1.Signed? {
        SigningIs(d, policy, channel, reg);
      }
    }
    hide PositionOf, StepNumber, Named, Unfilled, GoodLedger, GoodChain;
  }

  lemma {:induction false} LedgerGrowsInOrder(d: Doc, requireNamed: bool, reg: string, channel: string)
    requires GoodDoc(d) && d.status == Pending && Eligible(d, requireNamed, reg) && !HasSigned(d.ledger, reg)
    ensures GoodLedger(d.steps, d.ledger + [Signature(reg, channel, |d.ledger| + 1)])
  {
    var n := |d.ledger|;
    var after := d.ledger + [Signature(reg, channel, n + 1)];
    forall j, k | 0 <= k < |after| <= j < |d.steps| && d.steps[j].signer != ""
        ensures after[k].signer != d.steps[j].signer {
      assert k < n ==> after[k] == d.ledger[k];
    }
    assert InOrder(d.steps, after);
    assert DistinctLedger(after);
  }

  /** One accepted signature: the ledger grows by the next step, and the document is approved exactly when
      that was the last one. Counting signatures would have decided the same. */
  lemma {:induction false} SigningIs(d: Doc, policy: Policy, channel: string, reg: string)
    requires GoodDoc(d) && Signing(d, policy, channel, reg).1.Signed?
    ensures var after := Signing(d, policy, channel, reg).0;
            && GoodDoc(after)
            && after.ledger == d.ledger + [Signature(reg, channel, |d.ledger| + 1)]
            && after == d.(ledger := after.ledger, status := after.status)
            && (after.status == Approved <==> |after.ledger| == d.required)
            && (after.status == Approved <==> Unfilled(d.steps, after.ledger) == [])
            && Signing(d, policy, channel, reg).1 == Signed(after.status)
  {
    AcceptedMeans(d, policy, channel, reg);
    StepNumberIsFree(d);
    LedgerGrowsInOrder(d, policy.requireNamed, reg, channel);
    var ledger := d.ledger + [Signature(reg, channel, |d.ledger| + 1)];
    UnfilledIsTheRest(d.steps, ledger, |d.steps|);
    assert d.steps[..|d.steps|] == d.steps;
    PositionIs(d);
  }

  // ------------------------------------------------------------------ starting to wait

  lemma {:induction false} OrderIsFree(steps: seq<Step>, m: nat)
    requires 0 < m <= |steps| && forall i | 0 <= i < |steps| :: steps[i].order == i + 1
    ensures !HasOrder(steps[..m - 1], steps[m - 1].order)
  {}

  /** Inserting a chain numbered in order meets no conflict. */
  lemma {:induction false} InsertsWhole(steps: seq<Step>, m: nat)
    requires m <= |steps| && forall i | 0 <= i < |steps| :: steps[i].order == i + 1
    ensures InsertAll([], steps[..m]) == steps[..m]
  {
    if m > 0 {
      InsertsWhole(steps, m - 1);
      OrderIsFree(steps, m);
      hide HasOrder;
      assert steps[..m][..m - 1] == steps[..m - 1];
      assert steps[..m] == steps[..m - 1] + [steps[m - 1]];
    }
  }

  /** A document starts waiting under the stored chain as it stands, whole. */
  lemma {:induction false} WaitingIs(d: Doc, chain: seq<Step>)
    requires GoodChain(chain) && d.steps == [] && d.ledger == []
    ensures Waiting(d, chain) == d.(status := Pending, steps := chain, required := Required(chain))
    ensures GoodDoc(Waiting(d, chain))
  {
    CompletableIsFixed(chain);
    InsertsWhole(chain, |chain|);
    assert chain[..|chain|] == chain;
  }

  lemma {:induction false} ChainIsGood(s: State, t: string)
    requires Sound(s)
    ensures GoodChain(ChainOf(s, t))
  {}

  lemma {:induction false} SavedChainIsGood(steps: seq<Step>)
    requires |steps| <= MaxChainSteps && Faultless(steps, |steps|)
    ensures GoodChain(Cleaned(steps))
  {
    SavedIsCompletable(steps);
  }

  // ------------------------------------------------------------------ every transaction keeps it

  /** Replacing one document by a good one. */
  lemma {:induction false} SetDoc(s: State, id: int, d: Doc)
    requires Inv(s) && GoodDoc(d)
    requires d.status == Pending && PolicyFor(s, d.docType).requireNamed ==> NamesTheRest(d)
    ensures Inv(s.(docs := s.docs[id := d]))
  {
    hide GoodDoc, GoodChain, NamesTheRest, CanRequireNamed;
  }

  lemma {:induction false} StartsWaiting(s: State, id: int, d: Doc)
    requires Inv(s) && d.steps == [] && d.ledger == []
    ensures Inv(s.(docs := s.docs[id := Waiting(d, ChainOf(s, d.docType))]))
  {
    var chain := ChainOf(s, d.docType);
    ChainIsGood(s, d.docType);
    WaitingIs(d, chain);
    if PolicyFor(s, d.docType).requireNamed {
      assert d.docType in s.policies && CanRequireNamed(chain);
      assert NamesTheRest(Waiting(d, chain));
    }
    SetDoc(s, id, Waiting(d, chain));
  }

  lemma {:induction false} SignKeepsInv(s: State, id: int, channel: string, reg: string)
    requires Inv(s) && id in s.docs
    ensures Inv(s.(docs := s.docs[id := Signing(s.docs[id], PolicyFor(s, s.docs[id].docType), channel, reg).0]))
  {
    var d := s.docs[id];
    var policy := PolicyFor(s, d.docType);
    AcceptedMeans(d, policy, channel, reg);
    if Signing(d, policy, channel, reg).1.Signed? {
      SigningIs(d, policy, channel, reg);
      SetDoc(s, id, Signing(d, policy, channel, reg).0);
    } else {
      assert s.docs[id := d] == s.docs;
    }
  }

  lemma {:induction false} SaveChainKeepsInv(s: State, docType: string, steps: seq<Step>)
    requires Inv(s) && ChainAccepted(s, docType, steps)
    ensures Inv(Apply(s, SaveChain(docType, steps)))
  {
    SavedChainIsGood(steps);
    hide GoodDoc, GoodChain, NamesTheRest, CanRequireNamed, Cleaned, Upper, Trim;
  }

  /** The guard on documents already waiting is what their own unfilled steps need. */
  lemma {:induction false} NoneStrandedMeans(s: State, t: string)
    requires Sound(s) && NoneStranded(s.docs, t)
    ensures forall id | id in s.docs && s.docs[id].docType == t && s.docs[id].status == Pending ::
            NamesTheRest(s.docs[id])
  {
    forall id | id in s.docs && s.docs[id].docType == t && s.docs[id].status == Pending
        ensures NamesTheRest(s.docs[id]) {
      NotStranded(s.docs[id], t);
    }
  }

  lemma {:induction false} NotStranded(d: Doc, t: string)
    requires GoodDoc(d) && d.docType == t && d.status == Pending && !Strands(d, t)
    ensures NamesTheRest(d)
  {
    UnfilledIsTheRest(d.steps, d.ledger, |d.steps|);
    assert d.steps[..|d.steps|] == d.steps;
    var left := Unfilled(d.steps, d.ledger);
    hide Unfilled, GoodLedger, GoodChain;
    forall i | |d.ledger| <= i < |d.steps| ensures d.steps[i].signer != "" {
      assert d.steps[i] == left[i - |d.ledger|];
    }
  }

  lemma {:induction false} SavePolicyKeepsInv(s: State, docType: string, policy: Policy)
    requires Inv(s) && PolicyAccepted(s, docType, policy)
    ensures Inv(Apply(s, SavePolicy(docType, policy)))
  {
    var t := Upper(Trim(docType));
    if policy.requireNamed && !PolicyFor(s, t).requireNamed {
      NoneStrandedMeans(s, t);
    }
    hide GoodDoc, GoodChain, NamesTheRest, CanRequireNamed, NoneStranded, Upper, Trim;
  }

  /** Every committed transaction keeps the joint invariant. */
  lemma {:induction false} ApplyKeepsInv(s: State, e: Event)
    requires Inv(s)
    ensures Inv(Apply(s, e))
  {
    match e
    case SaveChain(docType, steps) =>
      if ChainAccepted(s, docType, steps) { SaveChainKeepsInv(s, docType, steps); }
    case SavePolicy(docType, policy) =>
      if PolicyAccepted(s, docType, policy) { SavePolicyKeepsInv(s, docType, policy); }
    case Create(id, title, docType) =>
      StartsWaiting(s, id, Doc(EffectiveType(docType), Trim(title), Pending, [], 1, []));
    case DraftArrives(id, title, docType) =>
      SetDoc(s, id, Doc(docType, title, Draft, [], 1, []));
    case Route(id) =>
      if id in s.docs && s.docs[id].status == Draft { StartsWaiting(s, id, s.docs[id]); }
    case Rename(id, title) =>
      if id in s.docs { SetDoc(s, id, s.docs[id].(title := Trim(title))); }
    case Reject(id) =>
      if id in s.docs && s.docs[id].status == Pending { SetDoc(s, id, s.docs[id].(status := Rejected)); }
    case Sign(id, channel, identity) =>
      if id in s.docs { SignKeepsInv(s, id, channel, NormaliseRegNumber(identity)); }
  }

  lemma {:induction false} RunKeepsInv(s: State, events: seq<Event>)
    requires Inv(s)
    ensures Inv(Run(s, events))
  {
    if events != [] {
      RunKeepsInv(s, events[..|events| - 1]);
      ApplyKeepsInv(Run(s, events[..|events| - 1]), events[|events| - 1]);
    }
  }

  lemma {:induction false} ReachableIsGood(events: seq<Event>)
    ensures Inv(Run(Empty(), events))
  {
    RunKeepsInv(Empty(), events);
  }

  // ------------------------------------------------------------------ no document is ever stuck

  /** A citizen with a plausible, normalised number whose signature the document would take now. */
  ghost predicate Takes(s: State, id: int, channel: string, reg: string)
    requires id in s.docs
  {
    && PlausibleRegNumber(reg) && NormaliseRegNumber(reg) == reg
    && Signing(s.docs[id], PolicyFor(s, s.docs[id].docType), channel, reg).1.Signed?
  }

  /** The signatures of a document that nobody could add to. */
  ghost predicate Stuck(s: State, id: int)
    requires id in s.docs
  {
    forall channel, reg :: !Takes(s, id, channel, reg)
  }

  ghost function Members(xs: seq<string>): set<string> { set x | x in xs }

  lemma {:induction false} MembersAreFewer(xs: seq<string>)
    ensures |Members(xs)| <= |xs|
  {
    if xs != [] {
      var init, last := xs[..|xs| - 1], xs[|xs| - 1];
      MembersAreFewer(init);
      assert Members(xs) == Members(init) + {last};
    }
  }

  /** Who may not take the next step of a document: those who signed it, and those a later step names. */
  ghost function Excluded(d: Doc): seq<string> {
    seq(|d.ledger|, k requires 0 <= k < |d.ledger| => d.ledger[k].signer)
    + if |d.ledger| < |d.steps|
      then seq(|d.steps| - |d.ledger| - 1, i requires 0 <= i < |d.steps| - |d.ledger| - 1 =>
          d.steps[|d.ledger| + 1 + i].signer)
      else []
  }

  lemma {:induction false} ExcludedAre(d: Doc)
    requires GoodDoc(d) && d.status == Pending
    ensures |Excluded(d)| <= MaxChainSteps
    ensures forall k | 0 <= k < |d.ledger| :: d.ledger[k].signer in Excluded(d)
    ensures forall i | |d.ledger| < i < |d.steps| :: d.steps[i].signer in Excluded(d)
  {
    forall k | 0 <= k < |d.ledger| ensures d.ledger[k].signer in Excluded(d) {
      assert Excluded(d)[k] == d.ledger[k].signer;
    }
    forall i | |d.ledger| < i < |d.steps| ensures d.steps[i].signer in Excluded(d) {
      assert Excluded(d)[i - 1] == d.steps[i].signer;
    }
  }

  /** Whoever the next step names has not signed: they were held back. */
  lemma {:induction false} NamedHasNotSigned(d: Doc)
    requires GoodDoc(d) && |d.ledger| < |d.steps| && d.steps[|d.ledger|].signer != ""
    ensures !HasSigned(d.ledger, d.steps[|d.ledger|].signer)
  {}

  /** The next approval of the document names no citizen, as it has no chain or the step is open. */
  ghost predicate NextNamesNobody(d: Doc) {
    |d.ledger| < |d.steps| ==> d.steps[|d.ledger|].signer == ""
  }

  /** Whenever the policy does not ask for a name the next step lacks, somebody can sign. */
  lemma {:induction false} SomebodyCanSign(s: State, id: int) returns (channel: string, reg: string)
    requires Sound(s) && id in s.docs && s.docs[id].status == Pending
    requires var d := s.docs[id];
             !PolicyFor(s, d.docType).requireNamed || !NextNamesNobody(d)
    ensures Takes(s, id, channel, reg)
  {
    var d := s.docs[id];
    var policy := PolicyFor(s, d.docType);
    var n := |d.ledger|;
    channel := if policy.allowEid then "EID" else "DAN";
    if n < |d.steps| && d.steps[n].signer != "" {
      reg := d.steps[n].signer;
      NamedHasNotSigned(d);
    } else {
      ExcludedAre(d);
      MembersAreFewer(Excluded(d));
      reg := SomebodyElse(Members(Excluded(d)));
    }
    AcceptedMeans(d, policy, channel, reg);
  }

  /** Exactly when a waiting document is stuck, for any sound state however it came about: the policy
      requires a named signer and the next approval has none to name. */
  lemma {:induction false} StuckIff(s: State, id: int)
    requires Sound(s) && id in s.docs && s.docs[id].status == Pending
    ensures Stuck(s, id) <==> PolicyFor(s, s.docs[id].docType).requireNamed && NextNamesNobody(s.docs[id])
  {
    var d := s.docs[id];
    var policy := PolicyFor(s, d.docType);
    if policy.requireNamed && NextNamesNobody(d) {
      forall channel, reg ensures !Takes(s, id, channel, reg) {
        AcceptedMeans(d, policy, channel, reg);
      }
    } else {
      var channel, reg := SomebodyCanSign(s, id);
    }
  }

  /** From an empty system, after any sequence of transactions, no waiting document is stuck. */
  lemma {:induction false} NeverStuck(events: seq<Event>, id: int)
    requires var s := Run(Empty(), events); id in s.docs && s.docs[id].status == Pending
    ensures !Stuck(Run(Empty(), events), id)
  {
    ReachableIsGood(events);
    StuckIff(Run(Empty(), events), id);
  }

  /** A document one signature further: approved when that was the last. */
  ghost predicate OneFurther(d: Doc, after: Doc) {
    && |after.ledger| == |d.ledger| + 1 <= d.required == after.required
    && after.status == if |after.ledger| == d.required then Approved else Pending
  }

  lemma {:induction false} TakenIsFurther(d: Doc, policy: Policy, channel: string, reg: string)
    requires GoodDoc(d) && Signing(d, policy, channel, reg).1.Signed?
    ensures OneFurther(d, Signing(d, policy, channel, reg).0)
  {
    SigningIs(d, policy, channel, reg);
    AcceptedMeans(d, policy, channel, reg);
  }

  lemma {:induction false} OneSignatureMore(s: State, id: int) returns (e: Event)
    requires Inv(s) && id in s.docs && s.docs[id].status == Pending
    ensures e.Sign? && Inv(Apply(s, e)) && id in Apply(s, e).docs && OneFurther(s.docs[id], Apply(s, e).docs[id])
  {
    StuckIff(s, id);
    var channel, reg :| Takes(s, id, channel, reg);
    e := Sign(id, channel, reg);
    ApplyKeepsInv(s, e);
    TakenIsFurther(s.docs[id], PolicyFor(s, s.docs[id].docType), channel, reg);
    hide Inv, OneFurther, Signing, NormaliseRegNumber;
  }

  /** More: signatures alone can finish it. */
  lemma {:induction false} CanBeFinished(s: State, id: int) returns (signatures: seq<Event>)
    requires Inv(s) && id in s.docs && s.docs[id].status == Pending
    ensures forall i | 0 <= i < |signatures| :: signatures[i].Sign?
    ensures |signatures| == s.docs[id].required - |s.docs[id].ledger|
    ensures var end := Run(s, signatures); id in end.docs && end.docs[id].status == Approved
    decreases s.docs[id].required - |s.docs[id].ledger|
  {
    var e := OneSignatureMore(s, id);
    var next := Apply(s, e);
    assert Run(s, [e]) == next by {
      assert [e][..0] == [] && Run(s, []) == s;
    }
    hide Inv, Apply;
    if next.docs[id].status == Approved {
      signatures := [e];
    } else {
      var more := CanBeFinished(next, id);
      signatures := [e] + more;
      RunJoins(s, [e], more);
    }
  }

  lemma {:induction false} RunJoins(s: State, a: seq<Event>, b: seq<Event>)
    ensures Run(s, a + b) == Run(Run(s, a), b)
    decreases |b|
  {
    if b == [] {
      assert a + b == a;
    } else {
      RunJoins(s, a, b[..|b| - 1]);
      assert (a + b)[..|a + b| - 1] == a + b[..|b| - 1];
    }
  }

  // ------------------------------------------------------------------ what an approval establishes

  /** In any reachable state: a document is approved exactly when it carries one signature for each of its
      steps (one in all if it has none), in step order, each by a different citizen, each named step by the
      citizen it names; and no signature was ever refused for its step number. */
  lemma {:induction false} ApprovalMeans(events: seq<Event>, id: int)
    requires id in Run(Empty(), events).docs
    ensures var d := Run(Empty(), events).docs[id];
            && d.required == (if |d.steps| == 0 then 1 else |d.steps|)
            && |d.ledger| <= d.required
            && (d.status == Approved <==> |d.ledger| == d.required)
            && (forall k | 0 <= k < |d.ledger| :: d.ledger[k].step == k + 1)
            && (forall j, k | 0 <= j < k < |d.ledger| :: d.ledger[j].signer != d.ledger[k].signer)
            && (forall k | 0 <= k < |d.ledger| && k < |d.steps| && d.steps[k].signer != "" ::
                  d.ledger[k].signer == d.steps[k].signer)
    ensures forall policy, channel, reg ::
            Signing(Run(Empty(), events).docs[id], policy, channel, reg).1 != DuplicateStep
  {
    ReachableIsGood(events);
    var d := Run(Empty(), events).docs[id];
    forall policy, channel, reg ensures Signing(d, policy, channel, reg).1 != DuplicateStep {
      AcceptedMeans(d, policy, channel, reg);
    }
  }

  /** What the signers saw stays as it was. */
  ghost predicate KeptAfterSigning(before: Doc, after: Doc) {
    && after.docType == before.docType
    && (before.status != Draft ==>
          after.steps == before.steps && after.required == before.required && after.status != Draft)
    && (before.ledger != [] ==> after.title == before.title)
    && before.ledger <= after.ledger
    && (before.status in {Approved, Rejected} ==> after == before.(title := after.title))
  }

  lemma {:induction false} SigningKeeps(d: Doc, policy: Policy, channel: string, reg: string)
    requires GoodDoc(d)
    ensures KeptAfterSigning(d, Signing(d, policy, channel, reg).0)
  {
    AcceptedMeans(d, policy, channel, reg);
    if Signing(d, policy, channel, reg).1.Signed? {
      SigningIs(d, policy, channel, reg);
    }
  }

  /** Every transaction but a signature leaves a document as it is, starts a draft waiting, renames an
      unsigned one or rejects a waiting one. */
  lemma {:induction false} OtherwiseKept(s: State, e: Event, id: int)
    requires Inv(s) && id in s.docs && !(e.Sign? && e.id == id)
    ensures id in Apply(s, e).docs && KeptAfterSigning(s.docs[id], Apply(s, e).docs[id])
  {
    hide GoodChain, GoodLedger, Signing, NormaliseRegNumber, Upper, Trim, ChainAccepted, PolicyAccepted,
        ChainsMeetPolicies, DocsMeetPolicies;
  }

  lemma {:induction false} ApplyKeepsSigned(s: State, e: Event, id: int)
    requires Inv(s) && id in s.docs
    ensures id in Apply(s, e).docs && KeptAfterSigning(s.docs[id], Apply(s, e).docs[id])
  {
    if e.Sign? && e.id == id {
      SigningKeeps(s.docs[id], PolicyFor(s, s.docs[id].docType), e.channel, NormaliseRegNumber(e.identity));
    } else {
      OtherwiseKept(s, e, id);
    }
  }

  /** Over any run: the chain is fixed once the document waits, the title once somebody has signed, and the
      ledger only grows. */
  lemma {:induction false} RunKeepsSigned(s: State, events: seq<Event>, id: int)
    requires Inv(s) && id in s.docs
    ensures id in Run(s, events).docs && KeptAfterSigning(s.docs[id], Run(s, events).docs[id])
  {
    if events != [] {
      var init := events[..|events| - 1];
      RunKeepsSigned(s, init, id);
      RunKeepsInv(s, init);
      ApplyKeepsSigned(Run(s, init), events[|events| - 1], id);
      hide Run, Inv;
    }
  }
}
