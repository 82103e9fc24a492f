/** The approval chain's rules (domain/documents/chain.go): which chains can be saved, and which chain a
    document may actually be approved by. */
module ApprovalRules {
  import opened Wrappers
  import opened Text
  import opened RegNumbers

  /** One approval, in order. An empty signer means the step is open. */
  datatype Step = Step(order: int, name: string, signer: string)

  const MaxChainSteps := 10

  function DocTypes(): seq<string> { ["CONTRACT", "REQUEST", "APPROVAL"] }

  // ------------------------------------------------------------------ the fillable chain

  function RegAt(steps: seq<Step>, i: nat): string
    requires i < |steps|
  {
    NormaliseRegNumber(steps[i].signer)
  }

  lemma {:induction false} RegIs()
    ensures forall reg :: NormaliseRegNumber(reg) == Upper(Trim(reg))
  {}

  ghost predicate NamedBefore(steps: seq<Step>, i: nat, reg: string)
    requires i <= |steps|
  {
    exists j :: 0 <= j < i && RegAt(steps, j) == reg
  }

  /** Step `i` keeps its citizen: a number somebody could present, and its first mention in the chain. */
  ghost predicate KeepsName(steps: seq<Step>, i: nat)
    requires i < |steps|
  {
    PlausibleRegNumber(RegAt(steps, i)) && !NamedBefore(steps, i, RegAt(steps, i))
  }

  ghost function Fillable(steps: seq<Step>): seq<Step> {
    seq(|steps|, i requires 0 <= i < |steps| =>
      Step(steps[i].order, steps[i].name, if KeepsName(steps, i) then RegAt(steps, i) else ""))
  }

  /** Every step could be filled, and by a citizen of its own if it names one. */
  ghost predicate Completable(steps: seq<Step>) {
    && (forall i | 0 <= i < |steps| && steps[i].signer != "" ::
          PlausibleRegNumber(steps[i].signer) && NormaliseRegNumber(steps[i].signer) == steps[i].signer)
    && (forall i, j | 0 <= i < j < |steps| && steps[i].signer != "" :: steps[i].signer != steps[j].signer)
  }

  /** The loop's set: the presentable numbers met before step `i`. */
  ghost predicate MetBefore(steps: seq<Step>, i: nat, named: set<string>)
    requires i <= |steps|
  {
    forall reg :: reg in named <==> PlausibleRegNumber(reg) && NamedBefore(steps, i, reg)
  }

  lemma {:induction false} NamedGrows(steps: seq<Step>, i: nat, reg: string)
    requires i < |steps|
    ensures NamedBefore(steps, i + 1, reg) <==> NamedBefore(steps, i, reg) || reg == RegAt(steps, i)
  {
    hide NormaliseRegNumber;
    if NamedBefore(steps, i, reg) {
      var j :| 0 <= j < i && RegAt(steps, j) == reg;
      assert 0 <= j < i + 1 && RegAt(steps, j) == reg;
    }
  }

  lemma {:induction false} MetGrows(steps: seq<Step>, i: nat, named: set<string>)
    requires i < |steps| && MetBefore(steps, i, named)
    ensures MetBefore(steps, i + 1, if PlausibleRegNumber(RegAt(steps, i)) then named + {RegAt(steps, i)} else named)
  {
    hide NormaliseRegNumber;
    var after := if PlausibleRegNumber(RegAt(steps, i)) then named + {RegAt(steps, i)} else named;
    forall reg ensures reg in after <==> PlausibleRegNumber(reg) && NamedBefore(steps, i + 1, reg) {
      NamedGrows(steps, i, reg);
    }
  }

  /** `out` is the chain with the steps opened that nobody could fill: orders and names stay, and a citizen exactly
      where the number is of a plausible length and no earlier step gives the same one. */
  ghost predicate Opened(steps: seq<Step>, out: seq<Step>) {
    && |out| == |steps|
    && forall i | 0 <= i < |steps| ::
         var reg := Upper(Trim(steps[i].signer));
         && out[i].order == steps[i].order && out[i].name == steps[i].name
         && out[i].signer == if 8 <= |reg| <= 64 && forall j | 0 <= j < i :: Upper(Trim(steps[j].signer)) != reg
                             then reg else ""
  }

  lemma {:induction false} FillableMeans(steps: seq<Step>)
    ensures Opened(steps, Fillable(steps))
  {
    forall i | 0 <= i < |steps|
      ensures KeepsName(steps, i)
              <==> var reg := Upper(Trim(steps[i].signer));
                   8 <= |reg| <= 64 && forall j | 0 <= j < i :: Upper(Trim(steps[j].signer)) != reg
    {
      assert forall j | 0 <= j < |steps| :: RegAt(steps, j) == Upper(Trim(steps[j].signer));
      hide NormaliseRegNumber, Trim, Upper;
    }
    hide KeepsName, Trim, Upper;
  }

  method FillableChain(steps: seq<Step>) returns (out: seq<Step>)
    ensures out == Fillable(steps)
    ensures Opened(steps, out)
  {
    hide NormaliseRegNumber, Opened;
    out := [];
    var namedAt: set<string> := {};
    for i := 0 to |steps|
      invariant out == Fillable(steps)[..i]
      invariant MetBefore(steps, i, namedAt)
    {
      var reg := NormaliseRegNumber(steps[i].signer);
      MetGrows(steps, i, namedAt);
      assert reg in namedAt <==> PlausibleRegNumber(reg) && NamedBefore(steps, i, reg);
      if !PlausibleRegNumber(reg) || reg in namedAt {
        assert PlausibleRegNumber(reg) ==> namedAt + {reg} == namedAt;
        reg := "";
      } else {
        namedAt := namedAt + {reg};
      }
      out := out + [Step(steps[i].order, steps[i].name, reg)];
    }
    FillableMeans(steps);
  }

  /** Opening the steps nobody could fill leaves a chain that can be completed. */
  lemma {:induction false} FillableIsCompletable(steps: seq<Step>)
    ensures Completable(Fillable(steps))
  {
    var out := Fillable(steps);
    forall i | 0 <= i < |out| && out[i].signer != ""
      ensures PlausibleRegNumber(out[i].signer) && NormaliseRegNumber(out[i].signer) == out[i].signer
    {
      NormaliseIsIdempotent(steps[i].signer);
    }
    forall i, j | 0 <= i < j < |out| && out[i].signer != "" ensures out[i].signer != out[j].signer {
      if out[j].signer == out[i].signer {
        assert RegAt(steps, i) == RegAt(steps, j) && NamedBefore(steps, j, RegAt(steps, j));
      }
    }
  }

  /** A chain that can be completed is not touched, so the snapshot agrees with the screen. */
  lemma {:induction false} CompletableIsFixed(steps: seq<Step>)
    requires Completable(steps)
    ensures Fillable(steps) == steps
  {
    forall i | 0 <= i < |steps| ensures Fillable(steps)[i] == steps[i] {
      if steps[i].signer == "" {
        EmptyIsNobody();
      } else {
        FirstMention(steps, i);
      }
    }
  }

  lemma {:induction false} FirstMention(steps: seq<Step>, i: nat)
    requires Completable(steps) && i < |steps| && steps[i].signer != ""
    ensures !NamedBefore(steps, i, RegAt(steps, i))
  {
    EmptyIsNobody();
    forall j | 0 <= j < i ensures RegAt(steps, j) != RegAt(steps, i) {}
  }

  lemma {:induction false} EmptyIsNobody()
    ensures NormaliseRegNumber("") == "" && !PlausibleRegNumber("")
  {}

  // ------------------------------------------------------------------ what may be saved

  datatype StepFault = NoName | Unstorable | Implausible(reg: string) | Repeated(first: nat, reg: string)

  datatype ChainError = UnknownType(docType: string) | TooLong | BadStep(number: nat, fault: StepFault)

  /** TextFault's half that a sequence of scalar values can show: PostgreSQL text holds no NUL. */
  predicate HasNul(s: string) {
    exists i :: 0 <= i < |s| && s[i] == 0 as char
  }

  ghost function FirstNamed(steps: seq<Step>, i: nat, reg: string): nat
    requires i <= |steps| && NamedBefore(steps, i, reg)
  {
    if NamedBefore(steps, i - 1, reg) then FirstNamed(steps, i - 1, reg) else i - 1
  }

  /** What is wrong with step `i` of a chain whose earlier steps are all right. */
  ghost function FaultAt(steps: seq<Step>, i: nat): Option<StepFault>
    requires i < |steps|
  {
    var reg := RegAt(steps, i);
    if Trim(steps[i].name) == "" then Some(NoName)
    else if HasNul(Trim(steps[i].name)) || HasNul(steps[i].signer) then Some(Unstorable)
    else if reg == "" then None
    else if !PlausibleRegNumber(reg) then Some(Implausible(reg))
    else if NamedBefore(steps, i, reg) then Some(Repeated(FirstNamed(steps, i, reg) + 1, reg))
    else None
  }

  /** The chain as it is stored: numbered from one, names trimmed, numbers normalised. */
  ghost function Cleaned(steps: seq<Step>): seq<Step> {
    seq(|steps|, i requires 0 <= i < |steps| => Step(i + 1, Trim(steps[i].name), RegAt(steps, i)))
  }

  ghost predicate Faultless(steps: seq<Step>, n: nat)
    requires n <= |steps|
  {
    forall i | 0 <= i < n :: FaultAt(steps, i) == None
  }

  /** The whole decision. */
  ghost predicate Validates(docType: string, docTypes: seq<string>, steps: seq<Step>,
      r: Result<(string, seq<Step>), ChainError>) {
    var t := Upper(Trim(docType));
    if t !in docTypes then r == Err(UnknownType(t))
    else if |steps| > MaxChainSteps then r == Err(TooLong)
    else match r
      case Err(BadStep(number, fault)) =>
        1 <= number <= |steps| && Faultless(steps, number - 1) && FaultAt(steps, number - 1) == Some(fault)
      case Ok(saved) => saved == (t, Cleaned(steps)) && Faultless(steps, |steps|)
      case _ => false
  }

  /** The loop's map: every number met before step `i`, with the step that named it first. */
  ghost predicate FirstMet(steps: seq<Step>, i: nat, named: map<string, nat>)
    requires i <= |steps|
  {
    && (forall reg :: reg in named <==> reg != "" && NamedBefore(steps, i, reg))
    && (forall reg | reg in named :: NamedBefore(steps, i, reg) && named[reg] == FirstNamed(steps, i, reg) + 1)
  }

  lemma {:induction false} FirstMetGrows(steps: seq<Step>, i: nat, named: map<string, nat>)
    requires i < |steps| && FirstMet(steps, i, named) && RegAt(steps, i) !in named
    ensures FirstMet(steps, i + 1, if RegAt(steps, i) == "" then named else named[RegAt(steps, i) := i + 1])
  {
    hide NormaliseRegNumber;
    var reg := RegAt(steps, i);
    var after := if reg == "" then named else named[reg := i + 1];
    forall q ensures q in after <==> q != "" && NamedBefore(steps, i + 1, q) {
      NamedGrows(steps, i, q);
    }
    forall q | q in after ensures after[q] == FirstNamed(steps, i + 1, q) + 1 {
      NamedGrows(steps, i, q);
    }
  }

  /** What a fault says of the step it is found at, counted from one. */
  ghost predicate IsAtFault(steps: seq<Step>, number: nat, fault: StepFault) {
    && 1 <= number <= |steps|
    && var step := steps[number - 1];
       var name, reg := Trim(step.name), Upper(Trim(step.signer));
       match fault
       case NoName => name == ""
       case Unstorable => name != "" && (0 as char in name || 0 as char in step.signer)
       case Implausible(shown) => shown == reg && (1 <= |reg| < 8 || 64 < |reg|)
       case Repeated(first, shown) =>
         && shown == reg && 8 <= |reg| <= 64
         && 1 <= first < number && Upper(Trim(steps[first - 1].signer)) == reg
         && forall j | 0 <= j < first - 1 :: Upper(Trim(steps[j].signer)) != reg
  }

  /** A fault is reported as what it is. */
  lemma {:induction false} FaultMeans(steps: seq<Step>, i: nat)
    requires i < |steps| && FaultAt(steps, i).Some?
    ensures IsAtFault(steps, i + 1, FaultAt(steps, i).value)
  {
    RegIs();
    var reg := RegAt(steps, i);
    if NamedBefore(steps, i, reg) {
      FirstNamedIsFirst(steps, i, reg);
    }
    assert forall j | 0 <= j < |steps| :: RegAt(steps, j) == Upper(Trim(steps[j].signer));
    hide NormaliseRegNumber, Trim, Upper, FirstNamed;
  }

  lemma {:induction false} FaultsMean(steps: seq<Step>)
    ensures forall i | 0 <= i < |steps| && FaultAt(steps, i).Some? ::
              IsAtFault(steps, i + 1, FaultAt(steps, i).value)
  {
    hide FaultAt, IsAtFault;
    forall i | 0 <= i < |steps| && FaultAt(steps, i).Some? ensures IsAtFault(steps, i + 1, FaultAt(steps, i).value) {
      FaultMeans(steps, i);
    }
  }

  lemma {:induction false} FirstNamedIsFirst(steps: seq<Step>, i: nat, reg: string)
    requires i <= |steps| && NamedBefore(steps, i, reg)
    ensures var f := FirstNamed(steps, i, reg);
            f < i && RegAt(steps, f) == reg && forall j | 0 <= j < f :: RegAt(steps, j) != reg
  {
    hide NormaliseRegNumber;
    if NamedBefore(steps, i - 1, reg) {
      FirstNamedIsFirst(steps, i - 1, reg);
    } else {
      assert forall j | 0 <= j < i - 1 :: RegAt(steps, j) != reg;
    }
  }

  /** A chain without a fault, in the screen's own terms: every step is named, every text can be stored, and every
      number given is of a plausible length and given once. */
  lemma {:induction false} FaultlessMeans(steps: seq<Step>)
    ensures Faultless(steps, |steps|)
            <==> forall i | 0 <= i < |steps| ::
                   var name, reg := Trim(steps[i].name), Upper(Trim(steps[i].signer));
                   && name != "" && 0 as char !in name && 0 as char !in steps[i].signer
                   && (reg == "" || (8 <= |reg| <= 64 && forall j | 0 <= j < i :: Upper(Trim(steps[j].signer)) != reg))
  {
    RegIs();
    forall i | 0 <= i < |steps|
      ensures FaultAt(steps, i) == None
              <==> var name, reg := Trim(steps[i].name), Upper(Trim(steps[i].signer));
                   && name != "" && 0 as char !in name && 0 as char !in steps[i].signer
                   && (reg == "" || (8 <= |reg| <= 64 && forall j | 0 <= j < i :: Upper(Trim(steps[j].signer)) != reg))
    {
      hide NormaliseRegNumber, Trim, Upper, FirstNamed;
      assert RegAt(steps, i) == Upper(Trim(steps[i].signer));
      assert forall j | 0 <= j < i :: RegAt(steps, j) == Upper(Trim(steps[j].signer));
    }
    hide FaultAt, Trim, Upper;
  }

  method ValidateChain(docType: string, docTypes: seq<string>, steps: seq<Step>)
    returns (r: Result<(string, seq<Step>), ChainError>)
    ensures Validates(docType, docTypes, steps, r)
    ensures r == Err(UnknownType(Upper(Trim(docType)))) <==> Upper(Trim(docType)) !in docTypes
    ensures r == Err(TooLong) <==> Upper(Trim(docType)) in docTypes && |steps| > 10
    ensures r.Err? && r.error.BadStep? ==> IsAtFault(steps, r.error.number, r.error.fault)
  {
    FaultsMean(steps);
    hide NormaliseRegNumber, Trim, Upper, FirstNamed, IsAtFault;
    var t := Upper(Trim(docType));
    if t !in docTypes { return Err(UnknownType(t)); }
    if |steps| > MaxChainSteps { return Err(TooLong); }
    var cleaned: seq<Step> := [];
    var namedAt: map<string, nat> := map[];
    for i := 0 to |steps|
      invariant cleaned == Cleaned(steps)[..i]
      invariant Faultless(steps, i)
      invariant FirstMet(steps, i, namedAt)
    {
      var name := Trim(steps[i].name);
      if name == "" { return Err(BadStep(i + 1, NoName)); }
      if HasNul(name) || HasNul(steps[i].signer) { return Err(BadStep(i + 1, Unstorable)); }
      var reg := NormaliseRegNumber(steps[i].signer);
      if reg != "" && !PlausibleRegNumber(reg) { return Err(BadStep(i + 1, Implausible(reg))); }
      assert reg in namedAt <==> reg != "" && NamedBefore(steps, i, reg);
      if reg != "" {
        if reg in namedAt { return Err(BadStep(i + 1, Repeated(namedAt[reg], reg))); }
        FirstMetGrows(steps, i, namedAt);
        namedAt := namedAt[reg := i + 1];
      } else {
        FirstMetGrows(steps, i, namedAt);
      }
      cleaned := cleaned + [Step(i + 1, name, reg)];
    }
    assert Cleaned(steps)[..|steps|] == Cleaned(steps);
    r := Ok((t, cleaned));
  }

  /** What can be saved is exactly what the snapshot would leave alone: no screen shows a chain its
      documents would not carry. */
  lemma {:induction false} SavedIsCompletable(steps: seq<Step>)
    requires Faultless(steps, |steps|)
    ensures Completable(Cleaned(steps)) && Fillable(Cleaned(steps)) == Cleaned(steps)
  {
    var out := Cleaned(steps);
    forall i | 0 <= i < |out| && out[i].signer != ""
      ensures PlausibleRegNumber(out[i].signer) && NormaliseRegNumber(out[i].signer) == out[i].signer
    {
      assert FaultAt(steps, i) == None;
      NormaliseIsIdempotent(steps[i].signer);
    }
    forall i, j | 0 <= i < j < |out| && out[i].signer != "" ensures out[i].signer != out[j].signer {
      assert FaultAt(steps, j) == None;
      if out[j].signer == out[i].signer {
        assert NamedBefore(steps, j, RegAt(steps, j));
      }
    }
    CompletableIsFixed(out);
  }

  /** A step that can be written down: a name, and text PostgreSQL holds. */
  predicate Storable(step: Step) {
    Trim(step.name) != "" && !HasNul(Trim(step.name)) && !HasNul(step.signer)
  }

  /** Beyond that, the chains refused are exactly those that could never be completed as stored. */
  lemma {:induction false} RefusedIffUncompletable(steps: seq<Step>)
    ensures Faultless(steps, |steps|)
            <==> (forall i | 0 <= i < |steps| :: Storable(steps[i])) && Completable(Cleaned(steps))
  {
    if Faultless(steps, |steps|) {
      SavedIsCompletable(steps);
      forall i | 0 <= i < |steps| ensures Storable(steps[i]) {
        assert FaultAt(steps, i) == None;
      }
    } else {
      var i :| 0 <= i < |steps| && FaultAt(steps, i) != None;
      var out, reg := Cleaned(steps), RegAt(steps, i);
      if Storable(steps[i]) && PlausibleRegNumber(reg) {
        var j :| 0 <= j < i && RegAt(steps, j) == reg;
        assert out[j].signer == out[i].signer;
      } else {
        assert out[i].signer == reg;
      }
    }
  }

  // ------------------------------------------------------------------ named signers only

  datatype NamedError = NoSteps | NamesNobody(order: int) | SameCitizen(first: int, second: int)

  ghost predicate AllNamed(steps: seq<Step>) {
    forall i | 0 <= i < |steps| :: steps[i].signer != ""
  }

  ghost predicate DistinctSigners(steps: seq<Step>) {
    forall i, j | 0 <= i < j < |steps| :: steps[i].signer != steps[j].signer
  }

  /** A chain a policy that only accepts named signers can be completed under. */
  ghost predicate CanRequireNamed(steps: seq<Step>) {
    |steps| > 0 && AllNamed(steps) && DistinctSigners(steps)
  }

  /** The first step at fault, and the fault: it names nobody, or whom an earlier step names. */
  ghost predicate FirstFault(steps: seq<Step>, i: nat, e: NamedError) {
    && i < |steps| && AllNamed(steps[..i]) && DistinctSigners(steps[..i])
    && if steps[i].signer == "" then e == NamesNobody(steps[i].order)
       else exists j ::
         && 0 <= j < i && steps[j].signer == steps[i].signer
         && e == SameCitizen(steps[j].order, steps[i].order)
  }

  method StepsCanRequireNamedSigners(steps: seq<Step>) returns (r: Result<(), NamedError>)
    ensures r.Ok? <==> CanRequireNamed(steps)
    ensures r == Err(NoSteps) <==> steps == []
    ensures r.Err? && r.error != NoSteps ==> exists i: nat :: FirstFault(steps, i, r.error)
  {
    if |steps| == 0 { return Err(NoSteps); }
    var seen: map<string, int> := map[];
    for i := 0 to |steps|
      invariant AllNamed(steps[..i]) && DistinctSigners(steps[..i])
      invariant forall reg :: reg in seen <==> exists j :: 0 <= j < i && steps[j].signer == reg
      invariant forall j | 0 <= j < i :: steps[j].signer in seen && seen[steps[j].signer] == steps[j].order
    {
      if steps[i].signer == "" {
        assert FirstFault(steps, i, NamesNobody(steps[i].order));
        return Err(NamesNobody(steps[i].order));
      }
      if steps[i].signer in seen {
        assert FirstFault(steps, i, SameCitizen(seen[steps[i].signer], steps[i].order));
        return Err(SameCitizen(seen[steps[i].signer], steps[i].order));
      }
      seen := seen[steps[i].signer := steps[i].order];
      assert steps[i].signer in seen;
    }
    assert steps[..|steps|] == steps;
    r := Ok(());
  }
}
