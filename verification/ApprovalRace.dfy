/** Creating and routing take no lock on the chain they copy (modules/documents/workflow.go:51-78, 286-290):
    here the chain is read in one step and the waiting document committed in a later one. */
module ApprovalRace {
  import opened Text
  import opened RegNumbers
  import opened ApprovalRules
  import opened ApprovalLedger
  import opened ApprovalSafety

  /** A create or route that has read its chain and not committed: invisible to everybody else. */
  datatype Open = Open(doc: Doc, chain: seq<Step>)

  datatype RaceState = RaceState(base: State, open: map<int, Open>)

  datatype RaceEvent =
    | Whole(event: Event)
    | ReadForCreate(id: int, title: string, docType: string)
    | ReadForRoute(id: int)
    | Commit(id: int)

  /** The row a transaction touches; one that is open is locked. */
  function Touches(e: Event): set<int> {
    match e
    case SaveChain(_, _) => {}
    case SavePolicy(_, _) => {}
    case Create(id, _, _) => {id}
    case DraftArrives(id, _, _) => {id}
    case Route(id) => {id}
    case Rename(id, _) => {id}
    case Reject(id) => {id}
    case Sign(id, _, _) => {id}
  }

  ghost function RaceApply(s: RaceState, e: RaceEvent): RaceState {
    match e
    case Whole(event) => if Touches(event) !! s.open.Keys then s.(base := Apply(s.base, event)) else s
    case ReadForCreate(id, title, docType) =>
      var t := EffectiveType(docType);
      if id !in s.base.docs && id !in s.open && GoodTitle(Trim(title)) && t in DocTypes()
      then s.(open := s.open[id := Open(Doc(t, Trim(title), Pending, [], 1, []), ChainOf(s.base, t))]) else s
    case ReadForRoute(id) =>
      if id in s.base.docs && id !in s.open && s.base.docs[id].status == Draft
      then s.(open := s.open[id := Open(s.base.docs[id], ChainOf(s.base, s.base.docs[id].docType))]) else s
    case Commit(id) =>
      if id in s.open
      then RaceState(s.base.(docs := s.base.docs[id := Waiting(s.open[id].doc, s.open[id].chain)]), s.open - {id})
          else s
  }

  ghost function RaceRun(s: RaceState, events: seq<RaceEvent>): RaceState {
    if events == [] then s else RaceApply(RaceRun(s, events[..|events| - 1]), events[|events| - 1])
  }

  lemma {:induction false} OpenedAndClosed(open: map<int, Open>, id: int, o: Open)
    requires id !in open
    ensures open[id := o] - {id} == open && open - {id} == open
  {}

  /** Nothing in between: reading and committing is the whole transaction. */
  lemma {:induction false} UninterruptedIsWhole(s: RaceState, id: int, title: string, docType: string)
    requires id !in s.open
    ensures RaceApply(RaceApply(s, ReadForCreate(id, title, docType)), Commit(id))
            == RaceApply(s, Whole(Create(id, title, docType)))
    ensures RaceApply(RaceApply(s, ReadForRoute(id)), Commit(id)) == RaceApply(s, Whole(Route(id)))
  {
    hide Waiting, EffectiveType, Trim;
    OpenedAndClosed(s.open, id,
        Open(Doc(EffectiveType(docType), Trim(title), Pending, [], 1, []), ChainOf(s.base, EffectiveType(docType))));
    if id in s.base.docs {
      OpenedAndClosed(s.open, id, Open(s.base.docs[id], ChainOf(s.base, s.base.docs[id].docType)));
    }
  }

  ghost predicate OpenIsGood(s: RaceState) {
    forall id | id in s.open ::
      GoodChain(s.open[id].chain) && s.open[id].doc.steps == [] && s.open[id].doc.ledger == []
  }

  lemma {:induction false} SoundSetDoc(s: State, id: int, d: Doc)
    requires Sound(s) && GoodDoc(d)
    ensures Sound(s.(docs := s.docs[id := d]))
  {
    hide GoodDoc, GoodChain;
  }

  /** Even raced, every chain, policy, document and ledger stays in order. */
  lemma {:induction false} ApplyKeepsSound(s: State, e: Event)
    requires Sound(s)
    ensures Sound(Apply(s, e))
  {
    hide Trim, Upper, NormaliseRegNumber, Waiting, CanRequireNamed;
    match e
    case SaveChain(docType, steps) =>
      if ChainAccepted(s, docType, steps) { SavedChainIsGood(steps); }
    case SavePolicy(docType, policy) =>
    case Create(id, title, docType) =>
      var t := EffectiveType(docType);
      WaitingIs(Doc(t, Trim(title), Pending, [], 1, []), ChainOf(s, t));
    case DraftArrives(id, title, docType) =>
      SoundSetDoc(s, id, Doc(docType, title, Draft, [], 1, []));
    case Route(id) =>
      if id in s.docs && s.docs[id].status == Draft { WaitingIs(s.docs[id], ChainOf(s, s.docs[id].docType)); }
    case Rename(id, title) =>
      if id in s.docs { SoundSetDoc(s, id, s.docs[id].(title := Trim(title))); }
    case Reject(id) =>
      if id in s.docs && s.docs[id].status == Pending { SoundSetDoc(s, id, s.docs[id].(status := Rejected)); }
    case Sign(id, channel, identity) =>
      if id in s.docs {
        var d := s.docs[id];
        var policy := PolicyFor(s, d.docType);
        AcceptedMeans(d, policy, channel, NormaliseRegNumber(identity));
        if Signing(d, policy, channel, NormaliseRegNumber(identity)).1.Signed? {
          SigningIs(d, policy, channel, NormaliseRegNumber(identity));
        }
        SoundSetDoc(s, id, Signing(d, policy, channel, NormaliseRegNumber(identity)).0);
      }
  }

  lemma {:induction false} RaceApplyKeepsSound(s: RaceState, e: RaceEvent)
    requires Sound(s.base) && OpenIsGood(s)
    ensures Sound(RaceApply(s, e).base) && OpenIsGood(RaceApply(s, e))
  {
    match e
    case Whole(event) => ApplyKeepsSound(s.base, event);
    case ReadForCreate(id, title, docType) => ChainIsGood(s.base, EffectiveType(docType));
    case ReadForRoute(id) =>
      if id in s.base.docs { ChainIsGood(s.base, s.base.docs[id].docType); }
    case Commit(id) =>
      if id in s.open {
        WaitingIs(s.open[id].doc, s.open[id].chain);
        SoundSetDoc(s.base, id, Waiting(s.open[id].doc, s.open[id].chain));
      }
  }

  lemma {:induction false} RaceRunKeepsSound(events: seq<RaceEvent>)
    ensures var s := RaceRun(RaceState(Empty(), map[]), events); Sound(s.base) && OpenIsGood(s)
  {
    if events != [] {
      RaceRunKeepsSound(events[..|events| - 1]);
      RaceApplyKeepsSound(RaceRun(RaceState(Empty(), map[]), events[..|events| - 1]), events[|events| - 1]);
    }
  }

  /** So in every raced run a waiting document is stuck exactly when the policy requires a named signer and
      its next approval names none. */
  lemma {:induction false} RacedStuckIff(events: seq<RaceEvent>, id: int)
    requires var s := RaceRun(RaceState(Empty(), map[]), events).base; id in s.docs && s.docs[id].status == Pending
    ensures var s := RaceRun(RaceState(Empty(), map[]), events).base;
            Stuck(s, id) <==> PolicyFor(s, s.docs[id].docType).requireNamed && NextNamesNobody(s.docs[id])
  {
    RaceRunKeepsSound(events);
    StuckIff(RaceRun(RaceState(Empty(), map[]), events).base, id);
  }

  /** A commit keeps the joint invariant exactly when the policy in force at that moment asks for no names,
      or the chain as it was read has steps and every one of them names somebody. */
  lemma {:induction false} CommitKeepsInvIff(s: RaceState, id: int)
    requires Inv(s.base) && OpenIsGood(s) && id in s.open
    ensures Inv(RaceApply(s, Commit(id)).base)
            <==> (PolicyFor(s.base, s.open[id].doc.docType).requireNamed
                ==> s.open[id].chain != [] && AllNamed(s.open[id].chain))
  {
    var d, chain := s.open[id].doc, s.open[id].chain;
    var after := Waiting(d, chain);
    WaitingIs(d, chain);
    if PolicyFor(s.base, d.docType).requireNamed ==> NamesTheRest(after) {
      SetDoc(s.base, id, after);
    } else {
      assert PolicyFor(RaceApply(s, Commit(id)).base, d.docType) == PolicyFor(s.base, d.docType);
      assert RaceApply(s, Commit(id)).base.docs[id] == after;
    }
    assert NamesTheRest(after) <==> chain != [] && AllNamed(chain);
  }

  /** The statement commits a chain as it was read that the policy in force no longer takes. */
  ghost predicate CommitsUnfit(s: RaceState, e: RaceEvent) {
    && e.Commit? && e.id in s.open
    && PolicyFor(s.base, s.open[e.id].doc.docType).requireNamed
    && !(s.open[e.id].chain != [] && AllNamed(s.open[e.id].chain))
  }

  lemma {:induction false} RaceKeepsInvIff(s: RaceState, e: RaceEvent)
    requires Inv(s.base) && OpenIsGood(s)
    ensures Inv(RaceApply(s, e).base) <==> !CommitsUnfit(s, e)
    ensures OpenIsGood(RaceApply(s, e))
  {
    RaceApplyKeepsSound(s, e);
    match e
    case Whole(event) => ApplyKeepsInv(s.base, event);
    case ReadForCreate(_, _, _) =>
    case ReadForRoute(_) =>
    case Commit(id) => if id in s.open { CommitKeepsInvIff(s, id); }
    hide Inv, OpenIsGood;
  }

  ghost predicate AlwaysInv(events: seq<RaceEvent>) {
    forall k | 0 <= k <= |events| :: Inv(RaceRun(RaceState(Empty(), map[]), events[..k]).base)
  }

  ghost predicate NeverUnfit(events: seq<RaceEvent>) {
    forall k | 0 <= k < |events| :: !CommitsUnfit(RaceRun(RaceState(Empty(), map[]), events[..k]), events[k])
  }

  lemma {:induction false} RaceStepAt(s: RaceState, events: seq<RaceEvent>, k: nat)
    requires k < |events|
    ensures RaceRun(s, events[..k + 1]) == RaceApply(RaceRun(s, events[..k]), events[k])
  {
    hide RaceApply;
    assert events[..k + 1][..k] == events[..k];
  }

  lemma {:induction false} InvUpTo(events: seq<RaceEvent>, n: nat)
    requires n <= |events|
    requires forall k | 0 <= k < n :: !CommitsUnfit(RaceRun(RaceState(Empty(), map[]), events[..k]), events[k])
    ensures Inv(RaceRun(RaceState(Empty(), map[]), events[..n]).base)
  {
    var start := RaceState(Empty(), map[]);
    if n > 0 {
      InvUpTo(events, n - 1);
      RaceStepAt(start, events, n - 1);
      RaceRunKeepsSound(events[..n - 1]);
      hide Inv, RaceApply, RaceRun, CommitsUnfit, Sound, OpenIsGood;
      RaceKeepsInvIff(RaceRun(start, events[..n - 1]), events[n - 1]);
    }
  }

  lemma {:induction false} FirstUnfit(events: seq<RaceEvent>, n: nat) returns (k: nat)
    requires n <= |events|
    requires exists j :: 0 <= j < n && CommitsUnfit(RaceRun(RaceState(Empty(), map[]), events[..j]), events[j])
    ensures k < n && CommitsUnfit(RaceRun(RaceState(Empty(), map[]), events[..k]), events[k])
    ensures forall j | 0 <= j < k :: !CommitsUnfit(RaceRun(RaceState(Empty(), map[]), events[..j]), events[j])
  {
    hide CommitsUnfit, RaceRun;
    if j :| 0 <= j < n - 1 && CommitsUnfit(RaceRun(RaceState(Empty(), map[]), events[..j]), events[j]) {
      k := FirstUnfit(events, n - 1);
    } else {
      k := n - 1;
    }
  }

  /** A raced run keeps chains, policies and waiting documents in step at every point exactly when none of its
      commits is of a chain that the policy in force by then no longer takes. */
  lemma {:induction false} RaceIsKeptIff(events: seq<RaceEvent>)
    ensures AlwaysInv(events) <==> NeverUnfit(events)
  {
    var start := RaceState(Empty(), map[]);
    if NeverUnfit(events) {
      forall k | 0 <= k <= |events| ensures Inv(RaceRun(start, events[..k]).base) {
        InvUpTo(events, k);
      }
    } else {
      hide Inv, RaceApply, RaceRun, CommitsUnfit, Sound, OpenIsGood;
      var k := FirstUnfit(events, |events|);
      InvUpTo(events, k);
      RaceRunKeepsSound(events[..k]);
      RaceStepAt(start, events, k);
      RaceKeepsInvIff(RaceRun(start, events[..k]), events[k]);
    }
  }

  /** And in such a run nobody is ever left waiting for a signature that no citizen can give. */
  lemma {:induction false} FitRaceStrandsNobody(events: seq<RaceEvent>, k: nat, id: int)
    requires NeverUnfit(events) && k <= |events|
    requires var s := RaceRun(RaceState(Empty(), map[]), events[..k]).base; id in s.docs && s.docs[id].status == Pending
    ensures !Stuck(RaceRun(RaceState(Empty(), map[]), events[..k]).base, id)
  {
    InvUpTo(events, k);
    StuckIff(RaceRun(RaceState(Empty(), map[]), events[..k]).base, id);
    hide RaceRun;
  }

  // ------------------------------------------------------------------ the race, run

  function RaceEvents(): seq<RaceEvent> {
    [ ReadForCreate(1, "Lease", "CONTRACT"),
      Whole(SaveChain("CONTRACT", [Step(1, "Director", As(8))])),
      Whole(SavePolicy("CONTRACT", Policy(true, true, true))),
      Commit(1) ]
  }

  lemma {:induction false} PlainText()
    ensures Upper(Trim("CONTRACT")) == "CONTRACT" && Trim("Lease") == "Lease" && Trim("Director") == "Director"
  {
    TrimIsTrimmed("CONTRACT");
    TrimIsTrimmed("Lease");
    TrimIsTrimmed("Director");
    assert Upper("CONTRACT") == "CONTRACT";
  }

  lemma {:induction false} OneNamedStep(steps: seq<Step>)
    requires steps == [Step(1, "Director", As(8))]
    ensures Faultless(steps, 1) && Cleaned(steps) == steps && CanRequireNamed(steps)
  {
    PlainText();
    AsIsNormal(8);
  }

  /** A document created while its type goes from no chain to named signers only can be signed by nobody. */
  lemma {:induction false} RacedDocumentIsStuck()
    ensures var s := RaceRun(RaceState(Empty(), map[]), RaceEvents()).base;
            1 in s.docs && s.docs[1].status == Pending && Stuck(s, 1)
  {
    var e := RaceEvents();
    PlainText();
    OneNamedStep([Step(1, "Director", As(8))]);
    var start := RaceState(Empty(), map[]);
    var s1 := RaceApply(start, e[0]);
    var s2 := RaceApply(s1, e[1]);
    var s3 := RaceApply(s2, e[2]);
    var s4 := RaceApply(s3, e[3]);
    var lease := Doc("CONTRACT", "Lease", Pending, [], 1, []);
    assert s1 == RaceState(Empty(), map[1 := Open(lease, [])]);
    assert s2.base == State(map["CONTRACT" := [Step(1, "Director", As(8))]], map[], map[]);
    assert s3.base == s2.base.(policies := map["CONTRACT" := Policy(true, true, true)]);
    WaitingIs(lease, []);
    assert s4.base == s3.base.(docs := map[1 := lease]);
    assert e[..4] == e && e[..3][..2] == e[..2] && e[..2][..1] == e[..1] && e[..4][..3] == e[..3] && e[..1][..0] == [];
    assert RaceRun(start, e[..1]) == s1;
    assert RaceRun(start, e[..2]) == s2;
    assert RaceRun(start, e[..3]) == s3;
    assert RaceRun(start, e[..4]) == s4;
    RacedStuckIff(e, 1);
  }
}
