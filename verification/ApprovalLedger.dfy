/** Documents, their own chains and their signature ledgers, with the chains and policies of one tenant
    (modules/documents/documents.go, workflow.go, policies.go). Each committed transaction is one step. */
module ApprovalLedger {
  import opened Wrappers
  import opened Text
  import opened RegNumbers
  import opened ApprovalRules

  datatype Status = Draft | Pending | Approved | Rejected

  datatype Policy = Policy(allowEid: bool, allowDan: bool, requireNamed: bool) {
    /** An unknown channel is refused. */
    predicate Allows(channel: string) {
      (channel == "EID" && allowEid) || (channel == "DAN" && allowDan)
    }
  }

  function DefaultPolicy(): Policy { Policy(true, true, false) }

  /** One row of the ledger. */
  datatype Signature = Signature(signer: string, channel: string, step: int)

  datatype Doc = Doc(docType: string, title: string, status: Status, steps: seq<Step>, required: nat,
      ledger: seq<Signature>)

  datatype State = State(chains: map<string, seq<Step>>, policies: map<string, Policy>, docs: map<int, Doc>)

  function ChainOf(s: State, docType: string): seq<Step> {
    if docType in s.chains then s.chains[docType] else []
  }

  function PolicyFor(s: State, docType: string): Policy {
    if docType in s.policies then s.policies[docType] else DefaultPolicy()
  }

  // ------------------------------------------------------------------ where a document stands

  predicate Filled(ledger: seq<Signature>, order: int) {
    exists k :: 0 <= k < |ledger| && ledger[k].step == order
  }

  /** The steps no signature has filled, in order. */
  function Unfilled(steps: seq<Step>, ledger: seq<Signature>): seq<Step> {
    if steps == [] then []
    else
      var init := Unfilled(steps[..|steps| - 1], ledger);
      var last := steps[|steps| - 1];
      if Filled(ledger, last.order) then init else init + [last]
  }

  /** The citizens some steps name. */
  function Named(steps: seq<Step>): seq<string> {
    if steps == [] then []
    else
      var init := Named(steps[..|steps| - 1]);
      var last := steps[|steps| - 1];
      if last.signer == "" then init else init + [last.signer]
  }

  datatype Position = Position(applied: nat, next: Option<Step>, reserved: seq<string>)

  function PositionOf(d: Doc): Position {
    var left := Unfilled(d.steps, d.ledger);
    if left == [] then Position(|d.ledger|, None, []) else Position(|d.ledger|, Some(left[0]), Named(left[1..]))
  }

  method NextApprovalStep(d: Doc) returns (pos: Position)
    ensures pos == PositionOf(d)
  {
    var next, reserved := None, [];
    ghost var left := [];
    for i := 0 to |d.steps|
      invariant left == Unfilled(d.steps[..i], d.ledger)
      invariant next == if left == [] then None else Some(left[0])
      invariant reserved == if left == [] then [] else Named(left[1..])
    {
      var step := d.steps[i];
      ghost var was := left;
      assert d.steps[..i + 1][..i] == d.steps[..i];
      if !Filled(d.ledger, step.order) {
        left := left + [step];
        if next == None {
          next := Some(step);
        } else {
          assert left[1..] == was[1..] + [step] && left[1..][..|was| - 1] == was[1..];
          if step.signer != "" {
            reserved := reserved + [step.signer];
          }
        }
      }
    }
    assert d.steps[..|d.steps|] == d.steps;
    pos := Position(|d.ledger|, next, reserved);
  }

  // ------------------------------------------------------------------ who may sign

  datatype Refusal = NoChain | ReservedFor(step: Step) | OpenStep(step: Step) | HeldForLater(step: Step)

  function CheckSigner(pos: Position, reg: string, requireNamed: bool): Option<Refusal> {
    match pos.next
    case None => if requireNamed then Some(NoChain) else None
    case Some(step) =>
      if step.signer != "" then if step.signer == reg then None else Some(ReservedFor(step))
      else if requireNamed then Some(OpenStep(step))
      else if reg in pos.reserved then Some(HeldForLater(step))
      else None
  }

  function MaxStep(ledger: seq<Signature>): int {
    if ledger == [] then 0
    else
      var m := MaxStep(ledger[..|ledger| - 1]);
      if ledger[|ledger| - 1].step > m then ledger[|ledger| - 1].step else m
  }

  function MaxOrder(steps: seq<Step>): int {
    if steps == [] then 0
    else
      var m := MaxOrder(steps[..|steps| - 1]);
      if steps[|steps| - 1].order > m then steps[|steps| - 1].order else m
  }

  /** The step a signature is filed under: the one it was checked against, or past the end. */
  function StepNumber(d: Doc, pos: Position): int {
    match pos.next
    case Some(step) => step.order
    case None => (if MaxStep(d.ledger) > MaxOrder(d.steps) then MaxStep(d.ledger) else MaxOrder(d.steps)) + 1
  }

  datatype Outcome =
    | Signed(status: Status)
    | NotSignable
    | ChannelRefused
    | SignerRefused(why: Refusal)
    | DuplicateSigner // the unique index on (document, signer)
    | DuplicateStep // the unique constraint on (document, step)

  predicate HasSigned(ledger: seq<Signature>, reg: string) {
    exists k :: 0 <= k < |ledger| && ledger[k].signer == reg
  }

  /** What a signature does to a document under a policy. */
  function Signing(d: Doc, policy: Policy, channel: string, reg: string): (Doc, Outcome) {
    var pos := PositionOf(d);
    var step := StepNumber(d, pos);
    if d.status != Pending then (d, NotSignable)
    else if !policy.Allows(channel) then (d, ChannelRefused)
    else if CheckSigner(pos, reg, policy.requireNamed).Some?
        then (d, SignerRefused(CheckSigner(pos, reg, policy.requireNamed).value))
    else if HasSigned(d.ledger, reg) then (d, DuplicateSigner)
    else if Filled(d.ledger, step) then (d, DuplicateStep)
    else
      var ledger := d.ledger + [Signature(reg, channel, step)];
      var status := if Unfilled(d.steps, ledger) == [] && pos.applied + 1 >= d.required then Approved else Pending;
      (d.(ledger := ledger, status := status), Signed(status))
  }

  // ------------------------------------------------------------------ starting to wait

  predicate HasOrder(steps: seq<Step>, order: int) {
    exists k :: 0 <= k < |steps| && steps[k].order == order
  }

  /** INSERT … ON CONFLICT DO NOTHING, one step after another. */
  function InsertAll(have: seq<Step>, more: seq<Step>): seq<Step> {
    if more == [] then have
    else
      var init := InsertAll(have, more[..|more| - 1]);
      var last := more[|more| - 1];
      if HasOrder(init, last.order) then init else init + [last]
  }

  function Required(steps: seq<Step>): nat {
    if |steps| < 1 then 1 else |steps|
  }

  /** The document as it starts waiting under a chain. */
  ghost function Waiting(d: Doc, chain: seq<Step>): Doc {
    var steps := InsertAll(d.steps, Fillable(chain));
    d.(status := Pending, steps := steps, required := Required(steps))
  }

  const TitleLimit := 255

  predicate GoodTitle(title: string) {
    title != "" && |title| <= TitleLimit && !HasNul(title)
  }

  function EffectiveType(docType: string): string {
    var t := Upper(Trim(docType));
    if t == "" then DocTypes()[0] else t
  }

  // ------------------------------------------------------------------ the transactions

  datatype Event =
    | SaveChain(docType: string, steps: seq<Step>)
    | SavePolicy(docType: string, policy: Policy)
    | Create(id: int, title: string, docType: string)
    | DraftArrives(id: int, title: string, docType: string)
    | Route(id: int)
    | Rename(id: int, title: string)
    | Reject(id: int)
    | Sign(id: int, channel: string, identity: string)

  /** A document waiting under chain `t` with a remaining approval that names nobody. */
  predicate Strands(d: Doc, docType: string) {
    && d.docType == docType && d.status == Pending
    && (|| d.steps == []
        || exists i :: 0 <= i < |Unfilled(d.steps, d.ledger)| && Unfilled(d.steps, d.ledger)[i].signer == "")
  }

  /** No document already waiting would be left to nobody by requiring named signers. */
  predicate NoneStranded(docs: map<int, Doc>, docType: string) {
    forall id | id in docs :: !Strands(docs[id], docType)
  }

  ghost predicate ChainAccepted(s: State, docType: string, steps: seq<Step>) {
    var t := Upper(Trim(docType));
    && t in DocTypes() && |steps| <= MaxChainSteps && Faultless(steps, |steps|)
    && (PolicyFor(s, t).requireNamed ==> CanRequireNamed(Cleaned(steps)))
  }

  ghost predicate PolicyAccepted(s: State, docType: string, policy: Policy) {
    var t := Upper(Trim(docType));
    && t in DocTypes() && (policy.allowEid || policy.allowDan)
    && (policy.requireNamed ==>
          CanRequireNamed(ChainOf(s, t)) && (PolicyFor(s, t).requireNamed || NoneStranded(s.docs, t)))
  }

  /** One committed transaction; a refused one changes nothing. */
  ghost function Apply(s: State, e: Event): State {
    match e
    case SaveChain(docType, steps) =>
      if ChainAccepted(s, docType, steps) then s.(chains := s.chains[Upper(Trim(docType)) := Cleaned(steps)]) else s
    case SavePolicy(docType, policy) =>
      if PolicyAccepted(s, docType, policy) then s.(policies := s.policies[Upper(Trim(docType)) := policy]) else s
    case Create(id, title, docType) =>
      var t := EffectiveType(docType);
      if id !in s.docs && GoodTitle(Trim(title)) && t in DocTypes()
      then s.(docs := s.docs[id := Waiting(Doc(t, Trim(title), Pending, [], 1, []), ChainOf(s, t))]) else s
    case DraftArrives(id, title, docType) =>
      if id !in s.docs then s.(docs := s.docs[id := Doc(docType, title, Draft, [], 1, [])]) else s
    case Route(id) =>
      if id in s.docs && s.docs[id].status == Draft
      then s.(docs := s.docs[id := Waiting(s.docs[id], ChainOf(s, s.docs[id].docType))]) else s
    case Rename(id, title) =>
      if id in s.docs && GoodTitle(Trim(title)) && s.docs[id].status in {Draft, Pending} && s.docs[id].ledger == []
      then s.(docs := s.docs[id := s.docs[id].(title := Trim(title))]) else s
    case Reject(id) =>
      if id in s.docs && s.docs[id].status == Pending
      then s.(docs := s.docs[id := s.docs[id].(status := Rejected)]) else s
    case Sign(id, channel, identity) =>
      if id in s.docs
      then s.(docs := s.docs[id := Signing(s.docs[id], PolicyFor(s, s.docs[id].docType), channel,
          NormaliseRegNumber(identity)).0])
      else s
  }

  ghost function Run(s: State, events: seq<Event>): State {
    if events == [] then s else Apply(Run(s, events[..|events| - 1]), events[|events| - 1])
  }

  ghost function Empty(): State { State(map[], map[], map[]) }
}
