/** The relay's transactions as they run: raising work, delegating it and taking it in, with the register numbers
    they draw. Each is held to the step of RelayNetwork and to the draws of RelayNumbers that the theorems there
    are about.

    A transaction that is rolled back changes no table, so its draws come back; the lemmas say of a commit and of a
    rollback what they leave of the counters. Dispatching to several peers is all or nothing: where the code is not
    open on one of the links, no branch is left. */
module RelayHandlers {
  import opened Wrappers
  import opened RelayRules
  import opened RelayNetwork
  import N = RelayNumbers

  // ------------------------------------------------------------------ drawing numbers

  /** One transaction drawing k numbers from one counter. */
  function Draws(n: N.State, tx: int, key: N.Key, k: nat): N.State {
    if k == 0 then n else N.Apply(Draws(n, tx, key, k - 1), N.Draw(tx, key))
  }

  function Consecutive(first: nat, k: nat): seq<nat> { seq(k, i requires 0 <= i => first + i) }

  lemma {:induction false} DrawsAre(n: N.State, tx: int, key: N.Key, k: nat)
    requires n.holds == map[]
    ensures Draws(n, tx, key, k)
            == if k == 0 then n else n.(holds := map[key := N.Hold(tx, Consecutive(N.Committed(n, key) + 1, k))])
  {
    if k > 0 {
      DrawsAre(n, tx, key, k - 1);
      assert Consecutive(N.Committed(n, key) + 1, k) == Consecutive(N.Committed(n, key) + 1, k - 1)
          + [N.Committed(n, key) + k];
    }
  }

  lemma {:induction false} CommitsHold(d: N.State, tx: int, key: N.Key, drawn: seq<nat>)
    requires d.holds == map[key := N.Hold(tx, drawn)]
    ensures var t := N.Apply(d, N.Commit(tx));
            && t.holds == map[] && t.next == d.next[key := N.Committed(d, key) + |drawn|]
            && t.register == d.register[key := N.Registered(d, key) + drawn]
  {
    var mine := set x | x in d.holds && d.holds[x].tx == tx;
    assert forall x :: x in mine <==> x == key;
    assert mine == {key};
    assert d.holds - {key} == map[];
    assert d.next.Keys + {key} == d.next[key := N.Committed(d, key) + |drawn|].Keys;
    assert d.register.Keys + {key} == d.register[key := N.Registered(d, key) + drawn].Keys;
  }

  /** A transaction that commits moves the counter on by what it drew, and no other counter. */
  lemma {:induction false} Commits(n: N.State, tx: int, key: N.Key, k: nat)
    requires n.holds == map[] && k > 0
    ensures var t := N.Apply(Draws(n, tx, key, k), N.Commit(tx));
            && t.holds == map[] && t.next == n.next[key := N.Committed(n, key) + k]
            && t.register == n.register[key := N.Registered(n, key) + Consecutive(N.Committed(n, key) + 1, k)]
  {
    DrawsAre(n, tx, key, k);
    CommitsHold(Draws(n, tx, key, k), tx, key, Consecutive(N.Committed(n, key) + 1, k));
    hide Draws, N.Apply;
  }

  /** One that is rolled back leaves the counters as they were. */
  lemma {:induction false} RollsBack(n: N.State, tx: int, key: N.Key, k: nat)
    requires n.holds == map[]
    ensures N.Apply(Draws(n, tx, key, k), N.Rollback(tx)) == n
  {
    DrawsAre(n, tx, key, k);
    hide Draws, Consecutive;
  }

  lemma {:induction false} SendOneMore(s: State, parent: nat, peers: seq<string>, i: nat)
    requires parent < |s.tasks| && i < |peers|
    ensures SendAll(s, parent, peers[..i + 1]) == SendDown(SendAll(s, parent, peers[..i]), parent, peers[i])
  {
    assert peers[..i + 1][..i] == peers[..i];
  }

  lemma {:induction false} RaiseIs(s: State, at: string, peers: seq<string>)
    ensures Apply(s, Raise(at, peers))
            == SendAll(s.(tasks := s.tasks + [Task(at, None, None, None, [at])]), |s.tasks|, peers)
    ensures Raised(s, Apply(s, Raise(at, peers)), at, peers)
  {
    hide SendAll;
    SendAllHandsOn(s.(tasks := s.tasks + [Task(at, None, None, None, [at])]), |s.tasks|, peers);
  }

  // ------------------------------------------------------------------ the transactions

  datatype Outcome = Done | NotOpen | NoBranches | Refused(why: Refusal) | AlreadyKnown

  class Relay {
    var tasks: seq<Task>
    var sent: seq<Envelope>
    var answers: seq<Answer>
    var next: map<N.Key, nat>
    ghost var numbers: N.State

    ghost function Contents(): State
      reads this
    {
      State(tasks, sent, answers)
    }

    /** Between transactions nothing holds a counter. */
    ghost predicate Valid()
      reads this
    {
      numbers.next == next && numbers.holds == map[]
    }

    constructor ()
      ensures Valid() && Contents() == Run([]) && numbers == N.Run([])
    {
      tasks, sent, answers, next := [], [], [], map[];
      numbers := N.State(map[], map[], map[]);
    }

    method NextNumber(key: N.Key) returns (number: string)
      modifies this`next
      ensures next == old(next)[key := (if key in old(next) then old(next)[key] else 0) + 1]
      ensures number == FormatNumber(key.line, key.year, next[key])
    {
      if key in next {
        next := next[key := next[key] + 1];
      } else {
        next := next[key := 1];
      }
      number := FormatNumber(key.line, key.year, next[key]);
    }

    /** sendDown: the mirror row with its own number, then the envelope. */
    method SendDownTo(key: N.Key, parent: nat, peer: string)
      requires parent < |tasks|
      modifies this`tasks, this`sent, this`next
      ensures Contents() == SendDown(old(Contents()), parent, peer)
      ensures var p := old(tasks)[parent];
              && tasks == old(tasks) + [Task(p.at, None, Some(peer), Some(parent), p.chain)]
              && sent == old(sent) + [Envelope(p.at, peer, |old(tasks)|, p.chain)] && answers == old(answers)
      ensures next == old(next)[key := (if key in old(next) then old(next)[key] else 0) + 1]
    {
      var p := tasks[parent];
      var number := NextNumber(key);
      var mirror := |tasks|;
      tasks := tasks + [Task(p.at, None, Some(peer), Some(parent), p.chain)];
      sent := sent + [Envelope(p.at, peer, mirror, p.chain)];
    }

    /** One branch for each peer, unless the code is not open on one of them: then none, and everything the
        transaction did is undone. */
    method SendToAll(key: N.Key, parent: nat, peers: seq<string>, open: set<string>) returns (ok: bool)
      requires parent < |tasks|
      modifies this`tasks, this`sent, this`next
      ensures ok <==> forall i | 0 <= i < |peers| :: peers[i] in open
      ensures ok ==> Contents() == SendAll(old(Contents()), parent, peers)
      ensures ok ==> next == if peers == [] then old(next)
              else old(next)[key := (if key in old(next) then old(next)[key] else 0) + |peers|]
      ensures answers == old(answers)
    {
      hide SendDown;
      for i := 0 to |peers|
        invariant forall j | 0 <= j < i :: peers[j] in open
        invariant parent < |tasks| && Contents() == SendAll(old(Contents()), parent, peers[..i])
        invariant next == if i == 0 then old(next)
                  else old(next)[key := (if key in old(next) then old(next)[key] else 0) + i]
      {
        if peers[i] !in open { return false; }
        SendOneMore(old(Contents()), parent, peers, i);
        SendDownTo(key, parent, peers[i]);
      }
      assert peers[..|peers|] == peers;
      ok := true;
    }

    /** handleCreateTask: the root, then its branches, in one transaction. */
    method CreateTask(ghost tx: int, key: N.Key, at: string, peers: seq<string>, open: set<string>) returns (o: Outcome)
      requires Valid()
      modifies this
      ensures Valid()
      ensures o == if forall i | 0 <= i < |peers| :: peers[i] in open then Done else NotOpen
      ensures o.NotOpen? ==> Contents() == old(Contents()) && numbers == old(numbers)
      ensures o.Done? ==> Contents() == Apply(old(Contents()), Raise(at, peers))
                          && numbers == N.Apply(Draws(old(numbers), tx, key, 1 + |peers|), N.Commit(tx))
      ensures o.Done? ==>
                && Raised(old(Contents()), Contents(), at, peers)
                && next == old(next)[key := (if key in old(next) then old(next)[key] else 0) + 1 + |peers|]
    {
      hide SendAll, Draws, N.Apply, Apply, Raised, HandedOn;
      RaiseIs(Contents(), at, peers);
      var before := (tasks, sent, next);
      var root := |tasks|;
      var number := NextNumber(key);
      tasks := tasks + [Task(at, None, None, None, [at])];
      var ok := SendToAll(key, root, peers, open);
      if !ok {
        tasks, sent, next := before.0, before.1, before.2;
        return NotOpen;
      }
      Commits(numbers, tx, key, 1 + |peers|);
      numbers := N.Apply(Draws(numbers, tx, key, 1 + |peers|), N.Commit(tx));
      o := Done;
    }

    /** handleDelegate's transaction; what it does to the task's own status is RelayRollUp's business. */
    method DelegateTask(ghost tx: int, key: N.Key, task: nat, peers: seq<string>, open: set<string>)
        returns (o: Outcome)
      requires Valid() && task < |tasks|
      modifies this
      ensures Valid()
      ensures o == if peers == [] then NoBranches else if forall i | 0 <= i < |peers| ::
              peers[i] in open then Done else NotOpen
      ensures !o.Done? ==> Contents() == old(Contents()) && numbers == old(numbers)
      ensures o.Done? ==> Contents() == Apply(old(Contents()), Delegate(task, peers))
                          && numbers == N.Apply(Draws(old(numbers), tx, key, |peers|), N.Commit(tx))
      ensures o.Done? ==>
                && HandedOn(old(Contents()), Contents(), task, peers)
                && next == old(next)[key := (if key in old(next) then old(next)[key] else 0) + |peers|]
    {
      hide SendAll, Draws, N.Apply, HandedOn;
      if |peers| == 0 { return NoBranches; }
      var before := (tasks, sent, next);
      var ok := SendToAll(key, task, peers, open);
      if !ok {
        tasks, sent, next := before.0, before.1, before.2;
        return NotOpen;
      }
      SendAllHandsOn(old(Contents()), task, peers);
      Commits(numbers, tx, key, |peers|);
      numbers := N.Apply(Draws(numbers, tx, key, |peers|), N.Commit(tx));
      o := Done;
    }

    /** receiveAssignment: refused and answered, or registered; an envelope that is already here draws a number
        and gives it back. */
    method ReceiveAssignment(ghost tx: int, key: N.Key, k: nat, code: Lookup) returns (o: Outcome)
      requires Valid() && k < |sent|
      modifies this
      ensures Valid() && Contents() == Apply(old(Contents()), Deliver(k, code))
      ensures o.Refused? <==> AssignmentRefusal(sent[k].chain, sent[k].to, code).Some?
      ensures o.AlreadyKnown? ==> Contents() == old(Contents())
                                  && N.Apply(Draws(old(numbers), tx, key, 1), N.Rollback(tx)) == numbers == old(numbers)
      ensures o.Done? ==> numbers == N.Apply(Draws(old(numbers), tx, key, 1), N.Commit(tx))
      ensures o.Refused? ==> numbers == old(numbers)
      ensures var e := old(sent)[k];
              if e.to in e.chain then o == Refused(BeenHere)
              else if code.Failed? then o == Refused(CouldNotCheck)
              else if code.NotFound? then o == Refused(NoSuchCode)
              else if !code.active then o == Refused(NotInUse)
              else if exists i :: 0 <= i < |old(tasks)| && old(tasks)[i].origin == Some(Origin(e.from, e.mirror))
              then o == AlreadyKnown
              else o == Done
      ensures var e := old(sent)[k];
              && sent == old(sent)
              && answers == old(answers) + (if o.Refused? then [Answer(e.mirror, o.why)] else [])
              && tasks == old(tasks) + (if o.Done? then [Task(e.to, Some(Origin(e.from, e.mirror)), None, None,
                                                              e.chain + [e.to])] else [])
              && next == if o.Done? then old(next)[key := (if key in old(next) then old(next)[key] else 0) + 1]
                         else old(next)
    {
      hide Draws, N.Apply;
      var e := sent[k];
      var refusal := AssignmentRefusal(e.chain, e.to, code);
      if refusal.Some? {
        answers := answers + [Answer(e.mirror, refusal.value)];
        return Refused(refusal.value);
      }
      var before := next;
      var number := NextNumber(key);
      var known := false;
      for i := 0 to |tasks|
        invariant known <==> exists j :: 0 <= j < i && tasks[j].origin == Some(Origin(e.from, e.mirror))
      {
        if tasks[i].origin == Some(Origin(e.from, e.mirror)) { known := true; }
      }
      if known {
        next := before;
        RollsBack(numbers, tx, key, 1);
        return AlreadyKnown;
      }
      tasks := tasks + [Task(e.to, Some(Origin(e.from, e.mirror)), None, None, e.chain + [e.to])];
      Commits(numbers, tx, key, 1);
      numbers := N.Apply(Draws(numbers, tx, key, 1), N.Commit(tx));
      o := Done;
    }
  }
}
