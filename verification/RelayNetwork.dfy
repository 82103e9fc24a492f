/** Work going down a ring of installations (modules/urtuu/envelopes.go, handlers.go): who may hand to whom is
    any graph, cyclic or not, and an envelope once sent may arrive late, out of order, many times or never.

    A task's id is its place in one list of all tasks of all installations; a link is one installation. */
module RelayNetwork {
  import opened Wrappers
  import opened RelayRules

  /** Where received work came from: the sender and the mirror row it keeps. */
  datatype Origin = Origin(from: string, mirror: nat)

  /** Received work has an origin, a dispatched branch a target and a parent, local work neither. */
  datatype Task = Task(at: string, origin: Option<Origin>, target: Option<string>, parent: Option<nat>,
      chain: seq<string>)

  datatype Envelope = Envelope(from: string, to: string, mirror: nat, chain: seq<string>)

  /** Refused work is answered upward, with the reason. */
  datatype Answer = Answer(mirror: nat, why: Refusal)

  datatype State = State(tasks: seq<Task>, sent: seq<Envelope>, answers: seq<Answer>)

  datatype Event =
    | Raise(at: string, peers: seq<string>)
    | Delegate(task: nat, peers: seq<string>)
    | Deliver(envelope: nat, code: Lookup)

  /** sendDown: the mirror row, then the envelope, in the sender's transaction. */
  function SendDown(s: State, parent: nat, peer: string): State
    requires parent < |s.tasks|
  {
    var p := s.tasks[parent];
    s.(tasks := s.tasks + [Task(p.at, None, Some(peer), Some(parent), p.chain)],
       sent := s.sent + [Envelope(p.at, peer, |s.tasks|, p.chain)])
  }

  function SendAll(s: State, parent: nat, peers: seq<string>): (t: State)
    requires parent < |s.tasks|
    ensures |t.tasks| == |s.tasks| + |peers|
  {
    if peers == [] then s else SendDown(SendAll(s, parent, peers[..|peers| - 1]), parent, peers[|peers| - 1])
  }

  /** From `s` to `t` a task is handed to several peers: a branch for each, saying from where and to whom, and its
      envelope, in their order after what was there. */
  ghost predicate HandedOn(s: State, t: State, parent: nat, peers: seq<string>)
    requires parent < |s.tasks|
  {
    var p, n, m := s.tasks[parent], |s.tasks|, |s.sent|;
    && |t.tasks| == n + |peers| && t.tasks[..n] == s.tasks
    && |t.sent| == m + |peers| && t.sent[..m] == s.sent && t.answers == s.answers
    && forall i | 0 <= i < |peers| ::
         && t.tasks[n + i] == Task(p.at, None, Some(peers[i]), Some(parent), p.chain)
         && t.sent[m + i] == Envelope(p.at, peers[i], n + i, p.chain)
  }

  /** From `s` to `t` work is raised: its root, with itself alone in the chain, handed to several peers. */
  ghost predicate Raised(s: State, t: State, at: string, peers: seq<string>) {
    HandedOn(s.(tasks := s.tasks + [Task(at, None, None, None, [at])]), t, |s.tasks|, peers)
  }

  lemma {:induction false} SendAllHandsOn(s: State, parent: nat, peers: seq<string>)
    requires parent < |s.tasks|
    ensures HandedOn(s, SendAll(s, parent, peers), parent, peers)
  {
    if peers != [] {
      SendAllHandsOn(s, parent, peers[..|peers| - 1]);
      assert SendAll(s, parent, peers[..|peers| - 1]).tasks[parent] == s.tasks[parent];
    }
  }

  /** The unique index on where work came from. */
  ghost predicate AlreadyHere(s: State, origin: Origin) {
    exists i :: 0 <= i < |s.tasks| && s.tasks[i].origin == Some(origin)
  }

  ghost function Receive(s: State, e: Envelope, code: Lookup): State {
    var refusal := AssignmentRefusal(e.chain, e.to, code);
    if refusal.Some? then s.(answers := s.answers + [Answer(e.mirror, refusal.value)])
    else if AlreadyHere(s, Origin(e.from, e.mirror)) then s
    else s.(tasks := s.tasks + [Task(e.to, Some(Origin(e.from, e.mirror)), None, None, e.chain + [e.to])])
  }

  ghost function Apply(s: State, e: Event): State {
    match e
    case Raise(at, peers) => SendAll(s.(tasks := s.tasks + [Task(at, None, None, None, [at])]), |s.tasks|, peers)
    case Delegate(task, peers) => if task < |s.tasks| then SendAll(s, task, peers) else s
    case Deliver(k, code) => if k < |s.sent| then Receive(s, s.sent[k], code) else s
  }

  ghost function Run(events: seq<Event>): State {
    if events == [] then State([], [], []) else Apply(Run(events[..|events| - 1]), events[|events| - 1])
  }

  // ------------------------------------------------------------------ the way the work took

  /** The installations from where the work was raised to where this task is. */
  ghost function Path(tasks: seq<Task>, i: nat): seq<string>
    requires i < |tasks|
    decreases i
  {
    var t := tasks[i];
    if t.origin.Some? && t.origin.value.mirror < i && tasks[t.origin.value.mirror].parent.Some?
        && tasks[t.origin.value.mirror].parent.value < i
    then Path(tasks, tasks[t.origin.value.mirror].parent.value) + [t.at]
    else if t.parent.Some? && t.parent.value < i then Path(tasks, t.parent.value)
    else [t.at]
  }

  ghost predicate NoRepeats(chain: seq<string>) {
    forall i, j | 0 <= i < j < |chain| :: chain[i] != chain[j]
  }

  /** A row hangs on earlier rows, as its kind says. */
  ghost predicate Placed(tasks: seq<Task>, i: nat)
    requires i < |tasks|
  {
    var t := tasks[i];
    && (t.target.Some? ==> t.origin.None? && t.parent.Some? && t.parent.value < i && tasks[t.parent.value].at == t.at)
    && (t.origin.Some? ==>
          && t.parent.None? && t.origin.value.mirror < i
          && var m := tasks[t.origin.value.mirror];
             m.target == Some(t.at) && m.at == t.origin.value.from && m.parent.Some?
                 && m.parent.value < t.origin.value.mirror)
  }

  ghost predicate ChainFits(tasks: seq<Task>, i: nat)
    requires i < |tasks|
  {
    var t := tasks[i];
    t.chain == Path(tasks, i) && NoRepeats(t.chain) && t.chain != [] && t.chain[|t.chain| - 1] == t.at
  }

  ghost predicate EnvelopeFits(tasks: seq<Task>, e: Envelope) {
    && e.mirror < |tasks| && tasks[e.mirror].target == Some(e.to) && tasks[e.mirror].at == e.from
    && tasks[e.mirror].chain == e.chain
  }

  ghost predicate Inv(s: State) {
    && (forall i: nat | i < |s.tasks| :: Placed(s.tasks, i) && ChainFits(s.tasks, i))
    && (forall i, j | 0 <= i < j < |s.tasks| && s.tasks[i].origin.Some? :: s.tasks[i].origin != s.tasks[j].origin)
    && (forall k | 0 <= k < |s.sent| :: EnvelopeFits(s.tasks, s.sent[k]))
  }

  /** Later rows change nothing about earlier ones. */
  lemma {:induction false} PathGrows(tasks: seq<Task>, more: seq<Task>, i: nat)
    requires i < |tasks|
    ensures Path(tasks + more, i) == Path(tasks, i)
    decreases i
  {
    var t := tasks[i];
    assert (tasks + more)[i] == t;
    if t.origin.Some? && t.origin.value.mirror < i && tasks[t.origin.value.mirror].parent.Some?
        && tasks[t.origin.value.mirror].parent.value < i {
      PathGrows(tasks, more, tasks[t.origin.value.mirror].parent.value);
    } else if t.parent.Some? && t.parent.value < i {
      PathGrows(tasks, more, t.parent.value);
    }
  }

  /** One row more keeps the invariant when the row itself fits. */
  lemma {:induction false} OneRowMore(s: State, t: Task, sent: seq<Envelope>, answers: seq<Answer>)
    requires Inv(s) && Placed(s.tasks + [t], |s.tasks|) && ChainFits(s.tasks + [t], |s.tasks|)
    requires t.origin.Some? ==> !AlreadyHere(s, t.origin.value)
    requires sent == s.sent || (|sent| == |s.sent| + 1 && sent[..|s.sent|] == s.sent
             && EnvelopeFits(s.tasks + [t], sent[|s.sent|]))
    ensures Inv(State(s.tasks + [t], sent, answers))
  {
    var tasks := s.tasks + [t];
    forall i: nat | i < |tasks| ensures Placed(tasks, i) && ChainFits(tasks, i) {
      if i < |s.tasks| {
        PathGrows(s.tasks, [t], i);
        assert Placed(s.tasks, i) && ChainFits(s.tasks, i);
      }
    }
    forall k | 0 <= k < |sent| ensures EnvelopeFits(tasks, sent[k]) {
      if k < |s.sent| {
        assert sent[k] == sent[..|s.sent|][k];
        assert EnvelopeFits(s.tasks, s.sent[k]);
      }
    }
    hide Placed, ChainFits, EnvelopeFits;
  }

  lemma {:induction false} SendDownKeepsInv(s: State, parent: nat, peer: string)
    requires Inv(s) && parent < |s.tasks|
    ensures Inv(SendDown(s, parent, peer))
  {
    var p := s.tasks[parent];
    var t := Task(p.at, None, Some(peer), Some(parent), p.chain);
    PathGrows(s.tasks, [t], parent);
    assert ChainFits(s.tasks, parent);
    OneRowMore(s, t, s.sent + [Envelope(p.at, peer, |s.tasks|, p.chain)], s.answers);
  }

  lemma {:induction false} SendAllKeepsInv(s: State, parent: nat, peers: seq<string>)
    requires Inv(s) && parent < |s.tasks|
    ensures Inv(SendAll(s, parent, peers))
  {
    hide Inv;
    if peers != [] {
      SendAllKeepsInv(s, parent, peers[..|peers| - 1]);
      SendDownKeepsInv(SendAll(s, parent, peers[..|peers| - 1]), parent, peers[|peers| - 1]);
    }
  }

  lemma {:induction false} ReceiveKeepsInv(s: State, k: nat, code: Lookup)
    requires Inv(s) && k < |s.sent|
    ensures Inv(Receive(s, s.sent[k], code))
  {
    var e := s.sent[k];
    assert EnvelopeFits(s.tasks, e);
    if AssignmentRefusal(e.chain, e.to, code).None? && !AlreadyHere(s, Origin(e.from, e.mirror)) {
      var t := Task(e.to, Some(Origin(e.from, e.mirror)), None, None, e.chain + [e.to]);
      assert Placed(s.tasks, e.mirror) && ChainFits(s.tasks, e.mirror);
      var p := s.tasks[e.mirror].parent.value;
      PathGrows(s.tasks, [t], p);
      assert Path(s.tasks, e.mirror) == Path(s.tasks, p);
      assert Path(s.tasks + [t], |s.tasks|) == Path(s.tasks, p) + [e.to];
      OneRowMore(s, t, s.sent, s.answers);
    }
  }

  lemma {:induction false} ApplyKeepsInv(s: State, e: Event)
    requires Inv(s)
    ensures Inv(Apply(s, e))
  {
    match e
    case Raise(at, peers) =>
      var root := Task(at, None, None, None, [at]);
      OneRowMore(s, root, s.sent, s.answers);
      SendAllKeepsInv(s.(tasks := s.tasks + [root]), |s.tasks|, peers);
    case Delegate(task, peers) => if task < |s.tasks| { SendAllKeepsInv(s, task, peers); }
    case Deliver(k, code) => if k < |s.sent| { ReceiveKeepsInv(s, k, code); }
  }

  lemma {:induction false} RunKeepsInv(events: seq<Event>)
    ensures Inv(Run(events))
  {
    if events != [] {
      RunKeepsInv(events[..|events| - 1]);
      ApplyKeepsInv(Run(events[..|events| - 1]), events[|events| - 1]);
      hide Inv, Apply;
    }
  }

  // ------------------------------------------------------------------ what every run guarantees

  /** In every run over any graph: a task's origin chain is exactly the way its work took, and no installation
      is on it twice. */
  lemma {:induction false} ChainIsThePath(events: seq<Event>, i: nat)
    requires i < |Run(events).tasks|
    ensures var t := Run(events).tasks[i];
            t.chain == Path(Run(events).tasks, i) && NoRepeats(t.chain) && t.chain != []
                && t.chain[|t.chain| - 1] == t.at
  {
    RunKeepsInv(events);
    assert ChainFits(Run(events).tasks, i);
  }

  ghost function Installations(tasks: seq<Task>): set<string> {
    set i | 0 <= i < |tasks| :: tasks[i].at
  }

  lemma {:induction false} PathStaysWithin(tasks: seq<Task>, i: nat)
    requires i < |tasks|
    ensures forall x | x in Path(tasks, i) :: x in Installations(tasks)
    decreases i
  {
    var t := tasks[i];
    assert t.at in Installations(tasks);
    if t.origin.Some? && t.origin.value.mirror < i && tasks[t.origin.value.mirror].parent.Some?
        && tasks[t.origin.value.mirror].parent.value < i {
      PathStaysWithin(tasks, tasks[t.origin.value.mirror].parent.value);
    } else if t.parent.Some? && t.parent.value < i {
      PathStaysWithin(tasks, t.parent.value);
    }
  }

  lemma {:induction false} NoMoreThan(chain: seq<string>, all: set<string>)
    requires NoRepeats(chain) && forall x | x in chain :: x in all
    ensures |chain| <= |all|
  {
    if chain != [] {
      var init, last := chain[..|chain| - 1], chain[|chain| - 1];
      forall x | x in init ensures x in all - {last} {
        assert x in chain;
      }
      NoMoreThan(init, all - {last});
    }
  }

  /** Handing work on ends: what a task was received from has a chain one shorter, and no chain is longer
      than there are installations. */
  lemma {:induction false} DelegationEnds(events: seq<Event>, i: nat)
    requires i < |Run(events).tasks|
    ensures var s := Run(events);
            |s.tasks[i].chain| <= |Installations(s.tasks)|
    ensures var s := Run(events);
            s.tasks[i].origin.Some? ==>
              && s.tasks[i].origin.value.mirror < i
              && s.tasks[s.tasks[i].origin.value.mirror].parent.Some?
              && s.tasks[s.tasks[i].origin.value.mirror].parent.value < i
              && |s.tasks[i].chain| == |s.tasks[s.tasks[s.tasks[i].origin.value.mirror].parent.value].chain| + 1
  {
    RunKeepsInv(events);
    var s := Run(events);
    assert ChainFits(s.tasks, i) && Placed(s.tasks, i);
    PathStaysWithin(s.tasks, i);
    NoMoreThan(s.tasks[i].chain, Installations(s.tasks));
    if s.tasks[i].origin.Some? {
      assert ChainFits(s.tasks, s.tasks[s.tasks[i].origin.value.mirror].parent.value);
    }
    hide Run;
  }

  /** However often its envelope arrives, a dispatched branch becomes at most one task, at the installation it
      was addressed to. */
  lemma {:induction false} OneTaskPerBranch(events: seq<Event>, i: nat, j: nat)
    requires i < |Run(events).tasks| && j < |Run(events).tasks|
    requires Run(events).tasks[i].origin.Some? && Run(events).tasks[i].origin == Run(events).tasks[j].origin
    ensures i == j
    ensures var s := Run(events);
            s.tasks[i].origin.value.mirror < i && s.tasks[s.tasks[i].origin.value.mirror].target == Some(s.tasks[i].at)
  {
    RunKeepsInv(events);
    assert Placed(Run(events).tasks, i);
    hide Run;
  }

  /** Work addressed to an installation it has already been through is refused there and answered, never
      taken; otherwise only the code can refuse it. */
  lemma {:induction false} CycleIsRefused(s: State, k: nat, code: Lookup)
    requires k < |s.sent|
    ensures var e := s.sent[k];
            var t := Apply(s, Deliver(k, code));
            && (e.to in e.chain ==> t.tasks == s.tasks && t.answers == s.answers + [Answer(e.mirror, BeenHere)])
            && (e.to !in e.chain && code == Found(true)
               ==> AlreadyHere(t, Origin(e.from, e.mirror)) && t.answers == s.answers)
  {
    var e := s.sent[k];
    var t := Apply(s, Deliver(k, code));
    if e.to !in e.chain && code == Found(true) && !AlreadyHere(s, Origin(e.from, e.mirror)) {
      assert t.tasks[|s.tasks|].origin == Some(Origin(e.from, e.mirror));
    }
  }

  // ------------------------------------------------------------------ which envelopes are taken

  /** Each envelope has a mirror row of its own, and later ones later rows. */
  ghost predicate MirrorsRise(s: State) {
    && (forall i, j | 0 <= i < j < |s.sent| :: s.sent[i].mirror < s.sent[j].mirror)
    && (forall k | 0 <= k < |s.sent| :: s.sent[k].mirror < |s.tasks|)
  }

  /** What an envelope asks for has been taken in. */
  ghost predicate Taken(s: State, k: nat)
    requires k < |s.sent|
  {
    AlreadyHere(s, Origin(s.sent[k].from, s.sent[k].mirror))
  }

  /** What handing work on adds: branches, which come from nowhere, and their envelopes. */
  ghost predicate OnlyBranches(s: State, t: State) {
    && s.tasks <= t.tasks && s.sent <= t.sent && MirrorsRise(t)
    && (forall i | |s.tasks| <= i < |t.tasks| :: t.tasks[i].origin.None?)
    && (forall k | |s.sent| <= k < |t.sent| :: t.sent[k].mirror >= |s.tasks|)
  }

  lemma {:induction false} SendAllAdds(s: State, parent: nat, peers: seq<string>)
    requires parent < |s.tasks| && MirrorsRise(s)
    ensures OnlyBranches(s, SendAll(s, parent, peers))
  {
    if peers != [] {
      SendAllAdds(s, parent, peers[..|peers| - 1]);
    }
  }

  lemma {:induction false} BranchesTakeNothing(s: State, t: State, k: nat)
    requires Inv(s) && OnlyBranches(s, t) && k < |t.sent|
    ensures if k < |s.sent| then t.sent[k] == s.sent[k] && (Taken(t, k) <==> Taken(s, k)) else !Taken(t, k)
  {
    assert forall i | 0 <= i < |s.tasks| :: t.tasks[i] == s.tasks[i];
    forall i: nat | i < |s.tasks| && s.tasks[i].origin.Some? ensures s.tasks[i].origin.value.mirror < i {
      assert Placed(s.tasks, i);
    }
    if k < |s.sent| {
      var o := Origin(s.sent[k].from, s.sent[k].mirror);
      if AlreadyHere(s, o) {
        var i :| 0 <= i < |s.tasks| && s.tasks[i].origin == Some(o);
        assert t.tasks[i].origin == Some(o);
      }
    }
    hide Placed, ChainFits, EnvelopeFits;
  }

  lemma {:induction false} DeliveryTakes(s: State, d: nat, code: Lookup, k: nat)
    requires MirrorsRise(s) && d < |s.sent| && k < |s.sent|
    ensures var t := Receive(s, s.sent[d], code);
            && t.sent == s.sent && MirrorsRise(t)
            && (Taken(t, k) <==> Taken(s, k) || (d == k && code == Found(true) && s.sent[k].to !in s.sent[k].chain))
  {
    var t := Receive(s, s.sent[d], code);
    var o := Origin(s.sent[k].from, s.sent[k].mirror);
    assert s.sent[d].mirror == s.sent[k].mirror ==> d == k;
    if AlreadyHere(s, o) {
      var i :| 0 <= i < |s.tasks| && s.tasks[i].origin == Some(o);
      assert t.tasks[i].origin == Some(o);
    } else if t.tasks != s.tasks {
      assert t.tasks[|s.tasks|].origin == Some(Origin(s.sent[d].from, s.sent[d].mirror));
    }
  }

  lemma {:induction false} StepTakes(s: State, e: Event, k: nat)
    requires Inv(s) && MirrorsRise(s) && k < |Apply(s, e).sent|
    ensures var t := Apply(s, e);
            && MirrorsRise(t)
            && if k < |s.sent|
               then && t.sent[k] == s.sent[k]
                    && (Taken(t, k)
                        <==> Taken(s, k) || (e == Deliver(k, Found(true)) && s.sent[k].to !in s.sent[k].chain))
               else !Taken(t, k) && !e.Deliver?
  {
    match e
    case Raise(at, peers) =>
      var root := Task(at, None, None, None, [at]);
      var u := s.(tasks := s.tasks + [root]);
      OneRowMore(s, root, s.sent, s.answers);
      assert OnlyBranches(s, u);
      SendAllAdds(u, |s.tasks|, peers);
      if k < |s.sent| { BranchesTakeNothing(s, u, k); }
      BranchesTakeNothing(u, Apply(s, e), k);
    case Delegate(task, peers) =>
      if task < |s.tasks| {
        SendAllAdds(s, task, peers);
        BranchesTakeNothing(s, Apply(s, e), k);
      }
    case Deliver(d, code) =>
      if d < |s.sent| { DeliveryTakes(s, d, code, k); }
    hide Inv, Taken, OnlyBranches, SendAll;
  }

  /** The envelope arrived, and its code was found and in use. */
  ghost predicate CameWithGoodCode(events: seq<Event>, k: nat) {
    exists j :: 0 <= j < |events| && events[j] == Deliver(k, Found(true)) && k < |Run(events[..j]).sent|
  }

  lemma {:induction false} SentGrows(events: seq<Event>)
    ensures MirrorsRise(Run(events))
    ensures events != [] ==> |Run(events[..|events| - 1]).sent| <= |Run(events).sent|
  {
    if events != [] {
      var s, e := Run(events[..|events| - 1]), events[|events| - 1];
      SentGrows(events[..|events| - 1]);
      match e
      case Raise(at, peers) => SendAllAdds(s.(tasks := s.tasks + [Task(at, None, None, None, [at])]), |s.tasks|, peers);
      case Delegate(task, peers) => if task < |s.tasks| { SendAllAdds(s, task, peers); }
      case Deliver(d, code) => if d < |s.sent| { DeliveryTakes(s, d, code, d); }
      hide Taken, SendAll;
    }
  }

  lemma {:induction false} NotSentBefore(events: seq<Event>, j: nat, k: nat)
    requires j <= |events| && k < |Run(events[..j]).sent|
    ensures k < |Run(events).sent|
  {
    if j == |events| {
      assert events[..j] == events;
    } else {
      assert events[..|events| - 1][..j] == events[..j];
      NotSentBefore(events[..|events| - 1], j, k);
      SentGrows(events);
      hide Run;
    }
  }

  lemma {:induction false} CameBefore(events: seq<Event>, k: nat)
    requires events != []
    ensures var n := |events| - 1;
            CameWithGoodCode(events, k)
            <==> CameWithGoodCode(events[..n], k)
                 || (events[n] == Deliver(k, Found(true)) && k < |Run(events[..n]).sent|)
  {
    hide Run;
    var n := |events| - 1;
    assert forall j | 0 <= j <= n :: events[..n][..j] == events[..j];
    if CameWithGoodCode(events[..n], k) {
      var j :| 0 <= j < n && events[..n][j] == Deliver(k, Found(true)) && k < |Run(events[..n][..j]).sent|;
      assert events[j] == Deliver(k, Found(true)) && k < |Run(events[..j]).sent|;
    }
    if CameWithGoodCode(events, k) {
      var j :| 0 <= j < |events| && events[j] == Deliver(k, Found(true)) && k < |Run(events[..j]).sent|;
      if j < n { assert events[..n][j] == Deliver(k, Found(true)) && k < |Run(events[..n][..j]).sent|; }
    }
  }

  /** In every run over any graph: the work an envelope asks for has been taken in exactly when the envelope has come
      with a code in use, to an installation that the work has not been through. */
  lemma {:induction false} TakenIff(events: seq<Event>, k: nat)
    requires k < |Run(events).sent|
    ensures var s := Run(events);
            && s.sent[k].mirror < |s.tasks| && s.sent[k].chain == Path(s.tasks, s.sent[k].mirror)
            && (Taken(s, k) <==> CameWithGoodCode(events, k) && s.sent[k].to !in s.sent[k].chain)
  {
    RunKeepsInv(events);
    var s := Run(events);
    assert EnvelopeFits(s.tasks, s.sent[k]) && ChainFits(s.tasks, s.sent[k].mirror);
    if events != [] {
      var n := |events| - 1;
      var init := Run(events[..n]);
      RunKeepsInv(events[..n]);
      SentGrows(events[..n]);
      CameBefore(events, k);
      StepTakes(init, events[n], k);
      hide Inv, Apply, Taken, CameWithGoodCode, ChainFits, EnvelopeFits, Path;
      if k < |init.sent| {
        TakenIff(events[..n], k);
      } else {
        NeverCame(events[..n], k);
      }
    }
  }

  lemma {:induction false} NeverCame(events: seq<Event>, k: nat)
    requires k >= |Run(events).sent|
    ensures !CameWithGoodCode(events, k)
  {
    if CameWithGoodCode(events, k) {
      var j :| 0 <= j < |events| && events[j] == Deliver(k, Found(true)) && k < |Run(events[..j]).sent|;
      NotSentBefore(events, j, k);
    }
    hide Run;
  }
}
