/** What the contract's own state says of its parties, case by case, as a reader of the contract would put it. */
module PartyTally {
  import opened Sets
  import opened PartySigning

  /** A party other than the issuer that has to sign. */
  ghost predicate MustSign(ps: map<int, Party>, p: int) { p in ps && !ps[p].issuer && ps[p].required }

  /** Whose signature the contract waits for: everybody who has to sign, or if nobody has to, everybody it went to. */
  ghost predicate IsAwaited(ps: map<int, Party>, p: int) {
    && p in ps && !ps[p].issuer
    && (ps[p].required || ((forall q :: !MustSign(ps, q)) && ps[p].state != Draft))
  }

  ghost predicate HasDeclined(ps: map<int, Party>, p: int) { p in ps && !ps[p].issuer && ps[p].state == Declined }

  /** The state the parties put a contract in that is out, `was` if it waits for nobody. */
  ghost predicate Says(ps: map<int, Party>, was: Contract, c: Contract) {
    var declined, awaited := exists p :: HasDeclined(ps, p), exists p :: IsAwaited(ps, p);
    var some := exists p :: IsAwaited(ps, p) && ps[p].state == Signed;
    var all := forall p | IsAwaited(ps, p) :: ps[p].state == Signed;
    if !awaited then c == was
    else
      && (c == Refused <==> declined)
      && (c == Executed <==> !declined && all)
      && (c == PartlySigned <==> !declined && some && !all)
      && (c == Sent <==> !declined && !some)
  }

  lemma {:induction false} AwaitedAre(ps: map<int, Party>)
    ensures forall p :: p in Awaited(ps) <==> IsAwaited(ps, p)
  {
    if Mandatory(ps) != {} {
      var q := SomeMember(Mandatory(ps));
      assert MustSign(ps, q);
    } else {
      forall q ensures !MustSign(ps, q) {
        assert q !in Mandatory(ps);
      }
      assert Awaited(ps) == Delivered(ps);
      forall p ensures p in Delivered(ps) <==> IsAwaited(ps, p) {
        assert !MustSign(ps, p);
      }
    }
  }

  lemma {:induction false} DeclinedAre(ps: map<int, Party>)
    ensures DeclinedOnes(ps) != {} <==> exists p :: HasDeclined(ps, p)
  {
    if DeclinedOnes(ps) != {} {
      var p := SomeMember(DeclinedOnes(ps));
      assert HasDeclined(ps, p);
    }
    if p :| HasDeclined(ps, p) {
      assert p in DeclinedOnes(ps);
    }
  }

  /** Counting one set's members in another says whether some and whether all of them are there. */
  lemma {:induction false} CountedIn(a: set<int>, b: set<int>)
    ensures |a * b| >= |a| <==> forall x | x in a :: x in b
    ensures |a * b| > 0 <==> exists x :: x in a && x in b
  {
    if |a * b| >= |a| {
      forall x | x in a ensures x in b {
        AllCounted(a, b, x);
      }
    } else if forall x | x in a :: x in b {
      SameMembers(a * b, a);
    }
    if |a * b| > 0 {
      var x := SomeMember(a * b);
      assert x in a && x in b;
    }
    if x :| x in a && x in b {
      Smaller({x}, a * b);
    }
  }

  /** The trigger's count says exactly that. */
  lemma {:induction false} TallySaysWhatIsSo(ps: map<int, Party>, was: Contract)
    ensures Says(ps, was, Tally(ps, was))
  {
    AwaitedAre(ps);
    DeclinedAre(ps);
    CountedIn(Awaited(ps), SignedOnes(ps));
    hide Awaited, DeclinedOnes;
    if Awaited(ps) != {} {
      var p := SomeMember(Awaited(ps));
      assert IsAwaited(ps, p);
      if p :| IsAwaited(ps, p) && ps[p].state == Signed { assert p in Awaited(ps) && p in SignedOnes(ps); }
      if forall p | IsAwaited(ps, p) :: ps[p].state == Signed {
        assert forall x | x in Awaited(ps) :: x in SignedOnes(ps);
        assert p in SignedOnes(ps);
      }
    } else {
      forall p ensures !IsAwaited(ps, p) {
        assert p !in Awaited(ps);
      }
    }
  }

  /** What the parties say they go on saying, whatever the contract said before. */
  lemma {:induction false} SaysSettles(ps: map<int, Party>, was: Contract, c: Contract)
    requires Says(ps, was, c)
    ensures Says(ps, c, c)
    ensures was in {Sent, PartlySigned, Executed, Refused} ==> c in {Sent, PartlySigned, Executed, Refused}
  {
    if p :| IsAwaited(ps, p) {
      assert c == Refused || c == Executed || c == PartlySigned || c == Sent by {
        if forall q | IsAwaited(ps, q) :: ps[q].state == Signed { assert ps[p].state == Signed; }
      }
    }
    hide IsAwaited, HasDeclined;
  }

  /** A party that has answered is awaited, or others are. */
  lemma {:induction false} SomebodyIsAwaited(ps: map<int, Party>, p: int) returns (q: int)
    requires p in ps && !ps[p].issuer && ps[p].state != Draft
    ensures IsAwaited(ps, q)
  {
    if r :| MustSign(ps, r) {
      q := r;
    } else {
      q := p;
    }
  }
}
