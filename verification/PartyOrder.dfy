/** Joint signing order and the contract's own state, over runs of the party-signing statements. */
module PartyOrder {
  import opened Wrappers
  import opened PartySigning
  import opened PartyInvariant
  import opened PartySafety
  import opened PartyOrderSteps

  /** Adding a party breaks the order exactly when it is a required one that should have signed before
      somebody already in force. */
  lemma {:induction false} AddingKeepsOrderIff(s: State, e: Event)
    requires Inv(s) && Ordered(s) && e.AddParty? && e.id !in s.known
             && (e.stale || (Unsent(s.contract) && s.ledger == []))
    ensures Ordered(Apply(s, e))
            <==> forall p | InForce(s, p) ::
                !ComesBefore(Party(e.issuer, e.required, e.order, Draft, None, None), s.parties[p].order)
  {
    hide Tally, StoreStep, RemoveStep, WithdrawStep, ReopenStep, Removable, Answerable, Start, Poll;
    var q := Party(e.issuer, e.required, e.order, Draft, None, None);
    var t := Apply(s, e);
    PartiesAreKnown(s);
    NobodyStarts(s, e.id);
    assert t.parties == s.parties[e.id := q] && t.procs == s.procs;
    forall p ensures p != e.id ==> (InForce(t, p) <==> InForce(s, p)) {
      assert Starting(t, p) <==> Starting(s, p);
    }
    assert !InForce(t, e.id) by { assert Starting(t, e.id) <==> Starting(s, e.id); }
    assert t.parties[e.id] == q;
    hide Inv, Apply;
    NewcomerOrder(s, t, e.id, q);
  }

  lemma {:induction false} AddKeepsOrder(s: State, e: Event)
    requires Inv(s) && Ordered(s) && Gated(s) && e.AddParty? && Undisturbed(s, e)
    ensures Ordered(Apply(s, e))
  {
    if e.id !in s.known && Unsent(s.contract) && s.ledger == [] {
      NobodyInForce(s, e);
      AddingKeepsOrderIff(s, e);
    }
    hide Inv, Gated, Ordered;
  }

  ghost predicate UndisturbedRun(events: seq<Event>) {
    forall k | 0 <= k < |events| :: Undisturbed(Run(events[..k]), events[k])
  }

  lemma {:induction false} UndisturbedRunIsOrdered(events: seq<Event>)
    requires UndisturbedRun(events)
    ensures Ordered(Run(events)) && Gated(Run(events))
  {
    if events != [] {
      var init, e := events[..|events| - 1], events[|events| - 1];
      assert forall k | 0 <= k <= |init| :: init[..k] == events[..k];
      UndisturbedRunIsOrdered(init);
      RunKeepsInv(init);
      hide Inv, Ordered, Gated, Apply;
      ApplyKeepsGate(Run(init), e);
      if e.AddParty? { AddKeepsOrder(Run(init), e); } else { ApplyKeepsOrder(Run(init), e); }
    }
  }

  /** Joint signing: whoever has signed has every required party with a smaller number signed before. */
  lemma {:induction false} JointOrder(events: seq<Event>, p: int, q: int)
    requires UndisturbedRun(events)
    requires var ps := Run(events).parties;
             && p in ps && ps[p].state == Signed && ps[p].order.Some?
             && q in ps && !ps[q].issuer && ps[q].required && ps[q].order.Some?
             && ps[q].order.value < ps[p].order.value
    ensures Run(events).parties[q].state == Signed
  {
    UndisturbedRunIsOrdered(events);
    assert InForce(Run(events), p);
  }

  /** The statement adds a required party that should have signed before somebody already in force. */
  ghost predicate ComesTooLate(s: State, e: Event) {
    && e.AddParty? && e.id !in s.known && (e.stale || (Unsent(s.contract) && s.ledger == []))
    && !forall p | InForce(s, p) ::
       !ComesBefore(Party(e.issuer, e.required, e.order, Draft, None, None), s.parties[p].order)
  }

  lemma {:induction false} StepKeepsOrderIff(s: State, e: Event)
    requires Inv(s) && Ordered(s)
    ensures Ordered(Apply(s, e)) <==> !ComesTooLate(s, e)
  {
    if !e.AddParty? {
      ApplyKeepsOrder(s, e);
    } else if e.id !in s.known && (e.stale || (Unsent(s.contract) && s.ledger == [])) {
      AddingKeepsOrderIff(s, e);
    }
    hide Inv, Ordered, InForce, ComesBefore;
  }

  ghost predicate AlwaysOrdered(events: seq<Event>) {
    forall k | 0 <= k <= |events| :: Ordered(Run(events[..k]))
  }

  ghost predicate NobodyTooLate(events: seq<Event>) {
    forall k | 0 <= k < |events| :: !ComesTooLate(Run(events[..k]), events[k])
  }

  lemma {:induction false} StepAt(events: seq<Event>, k: nat)
    requires k < |events|
    ensures Run(events[..k + 1]) == Apply(Run(events[..k]), events[k])
  {
    hide Apply;
    assert events[..k + 1][..k] == events[..k];
  }

  lemma {:induction false} OrderedUpTo(events: seq<Event>, n: nat)
    requires n <= |events| && forall k | 0 <= k < n :: !ComesTooLate(Run(events[..k]), events[k])
    ensures Ordered(Run(events[..n]))
  {
    if n > 0 {
      hide Inv, Ordered, Apply, Run, ComesTooLate;
      OrderedUpTo(events, n - 1);
      RunKeepsInv(events[..n - 1]);
      StepAt(events, n - 1);
      StepKeepsOrderIff(Run(events[..n - 1]), events[n - 1]);
    }
  }

  lemma {:induction false} FirstTooLate(events: seq<Event>, n: nat) returns (k: nat)
    requires n <= |events| && exists j :: 0 <= j < n && ComesTooLate(Run(events[..j]), events[j])
    ensures k < n && ComesTooLate(Run(events[..k]), events[k])
    ensures forall j | 0 <= j < k :: !ComesTooLate(Run(events[..j]), events[j])
  {
    hide ComesTooLate, Run;
    if j :| 0 <= j < n - 1 && ComesTooLate(Run(events[..j]), events[j]) {
      k := FirstTooLate(events, n - 1);
    } else {
      k := n - 1;
    }
  }

  /** In any run, disturbed or not, the joint order holds at every point exactly when nobody who had to sign before
      was ever added after. */
  lemma {:induction false} OrderIsKeptIff(events: seq<Event>)
    ensures AlwaysOrdered(events) <==> NobodyTooLate(events)
  {
    if NobodyTooLate(events) {
      forall k | 0 <= k <= |events| ensures Ordered(Run(events[..k])) {
        OrderedUpTo(events, k);
      }
    } else {
      hide Inv, Ordered, Apply, Run, ComesTooLate;
      var k := FirstTooLate(events, |events|);
      OrderedUpTo(events, k);
      RunKeepsInv(events[..k]);
      StepAt(events, k);
      StepKeepsOrderIff(Run(events[..k]), events[k]);
    }
  }

  /** In every run, interleaved as it may be: a contract that reads EXECUTED has the signature of every
      required party, of at least one, and the refusal of none. */
  lemma {:induction false} ExecutedMeansAllSigned(events: seq<Event>)
    ensures var s := Run(events);
            s.contract == Executed ==>
              && (forall p | p in s.parties && s.parties[p].required && !s.parties[p].issuer ::
                 s.parties[p].state == Signed)
              && (exists p :: p in s.parties && !s.parties[p].issuer && s.parties[p].state == Signed)
              && (forall p | p in s.parties && !s.parties[p].issuer :: s.parties[p].state != Declined)
  {
    TallyInRuns(events);
    var s := Run(events);
    if s.contract == Executed {
      var x := ExecutedHasSigned(s);
      forall p | p in s.parties && s.parties[p].required && !s.parties[p].issuer ensures s.parties[p].state == Signed {
        assert p in Mandatory(s.parties);
        assert p in SignedOnes(s.parties);
      }
      forall p | p in s.parties && !s.parties[p].issuer ensures s.parties[p].state != Declined {
        assert p !in DeclinedOnes(s.parties);
      }
    }
    hide Run;
  }

  lemma {:induction false} TallyInRuns(events: seq<Event>)
    ensures TallyFits(Run(events))
  {
    if events != [] {
      var init := events[..|events| - 1];
      TallyInRuns(init);
      RunKeepsInv(init);
      ApplyKeepsTally(Run(init), events[|events| - 1]);
      hide Inv, TallyFits, Apply;
    }
  }
}
