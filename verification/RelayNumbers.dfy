/** Register numbers (modules/urtuu/numbers.go): one counter row per tenant, line and year, incremented inside
    the transaction that registers the work and locked by it until that ends. */
module RelayNumbers {
  import opened RelayRules

  datatype Key = Key(tenant: string, line: Line, year: nat)

  /** A transaction holding a counter: what it has drawn from it so far. */
  datatype Hold = Hold(tx: int, drawn: seq<nat>)

  datatype State = State(next: map<Key, nat>, holds: map<Key, Hold>, register: map<Key, seq<nat>>)

  datatype Event =
    | Draw(tx: int, key: Key) // nextNumber; waits while another transaction holds the counter
    | Commit(tx: int)
    | Rollback(tx: int) // an error, or an arrival that was already here

  function Committed(s: State, key: Key): nat {
    if key in s.next then s.next[key] else 0
  }

  function Registered(s: State, key: Key): seq<nat> {
    if key in s.register then s.register[key] else []
  }

  function Apply(s: State, e: Event): State {
    match e
    case Draw(tx, key) =>
      if key in s.holds && s.holds[key].tx != tx then s
      else
        var drawn := if key in s.holds then s.holds[key].drawn else [];
        s.(holds := s.holds[key := Hold(tx, drawn + [Committed(s, key) + |drawn| + 1])])
    case Commit(tx) =>
      var mine := set key | key in s.holds && s.holds[key].tx == tx;
      State(
        map key | key in s.next.Keys + mine :: if key in mine then Committed(s, key) + |s.holds[key].drawn|
            else s.next[key],
        s.holds - mine,
        map key | key in s.register.Keys + mine :: if key in mine then Registered(s, key) + s.holds[key].drawn
            else s.register[key])
    case Rollback(tx) => s.(holds := s.holds - (set key | key in s.holds && s.holds[key].tx == tx))
  }

  function Run(events: seq<Event>): State {
    if events == [] then State(map[], map[], map[]) else Apply(Run(events[..|events| - 1]), events[|events| - 1])
  }

  /** What a statement does to one counter: a draw waits for its holder, and otherwise takes the next number; a commit
      registers what its own transaction drew and lets go of it, a rollback only lets go, and nobody else's counter
      moves. */
  lemma {:induction false} CounterMoves(s: State, e: Event, key: Key)
    ensures var t := Apply(s, e);
            var busy := key in s.holds && s.holds[key].tx != e.tx;
            var drawn := if key in s.holds then s.holds[key].drawn else [];
            if busy || (e.Draw? && e.key != key) || (!e.Draw? && key !in s.holds)
            then && (key in t.holds <==> key in s.holds) && (key in s.holds ==> t.holds[key] == s.holds[key])
                 && Committed(t, key) == Committed(s, key) && Registered(t, key) == Registered(s, key)
            else if e.Draw?
            then && key in t.holds
                 && t.holds[key] == Hold(e.tx, drawn + [(if key in s.next then s.next[key] else 0) + |drawn| + 1])
                 && Committed(t, key) == Committed(s, key) && Registered(t, key) == Registered(s, key)
            else && key !in t.holds
                 && Committed(t, key) == Committed(s, key) + (if e.Commit? then |drawn| else 0)
                 && Registered(t, key) == Registered(s, key) + if e.Commit? then drawn else []
  {
    match e
    case Draw(tx, k) =>
    case Commit(tx) =>
      if key in s.holds && s.holds[key].tx == tx {
        CommitFits1(s, tx, key);
      }
    case Rollback(tx) =>
  }

  lemma {:induction false} CommitFits1(s: State, tx: int, key: Key)
    requires key in s.holds && s.holds[key].tx == tx
    ensures var t := Apply(s, Commit(tx));
            && key !in t.holds && Committed(t, key) == Committed(s, key) + |s.holds[key].drawn|
            && Registered(t, key) == Registered(s, key) + s.holds[key].drawn
  {}

  /** 1, 2, …, n. */
  function UpTo(n: nat): seq<nat> { seq(n, i requires 0 <= i => i + 1) }

  /** The register of one counter is gapless, and an open transaction's numbers go straight on from it. */
  ghost predicate KeyFits(s: State, key: Key) {
    && Registered(s, key) == UpTo(Committed(s, key))
    && (key in s.holds ==> forall i | 0 <= i < |s.holds[key].drawn| ::
       s.holds[key].drawn[i] == Committed(s, key) + i + 1)
  }

  ghost predicate Inv(s: State) {
    forall key :: KeyFits(s, key)
  }

  lemma {:induction false} DrawFits(s: State, tx: int, key: Key, k: Key)
    requires KeyFits(s, k)
    ensures KeyFits(Apply(s, Draw(tx, key)), k)
  {}

  lemma {:induction false} CommitFits(s: State, tx: int, k: Key)
    requires KeyFits(s, k)
    ensures KeyFits(Apply(s, Commit(tx)), k)
  {
    var t := Apply(s, Commit(tx));
    if k in s.holds && s.holds[k].tx == tx {
      assert Registered(t, k) == Registered(s, k) + s.holds[k].drawn;
      assert Committed(t, k) == Committed(s, k) + |s.holds[k].drawn|;
    } else {
      assert Registered(t, k) == Registered(s, k) && Committed(t, k) == Committed(s, k);
    }
  }

  lemma {:induction false} RollbackFits(s: State, tx: int, k: Key)
    requires KeyFits(s, k)
    ensures KeyFits(Apply(s, Rollback(tx)), k)
  {}

  lemma {:induction false} ApplyKeepsInv(s: State, e: Event)
    requires Inv(s)
    ensures Inv(Apply(s, e))
  {
    hide Apply, KeyFits;
    forall k ensures KeyFits(Apply(s, e), k) {
      assert KeyFits(s, k);
      match e
      case Draw(tx, key) => DrawFits(s, tx, key, k);
      case Commit(tx) => CommitFits(s, tx, k);
      case Rollback(tx) => RollbackFits(s, tx, k);
    }
  }

  lemma {:induction false} RunKeepsInv(events: seq<Event>)
    ensures Inv(Run(events))
  {
    if events != [] {
      RunKeepsInv(events[..|events| - 1]);
      ApplyKeepsInv(Run(events[..|events| - 1]), events[|events| - 1]);
    }
  }

  /** Whatever rolls back, whoever waits: the committed numbers of a tenant, line and year are exactly
      1, 2, …, k, in the order they were committed. */
  lemma {:induction false} RegisterIsGapless(events: seq<Event>, key: Key)
    ensures Registered(Run(events), key) == UpTo(Committed(Run(events), key))
  {
    RunKeepsInv(events);
    assert KeyFits(Run(events), key);
  }

  /** So no two registrations of one tenant carry the same number, whatever their line or year. */
  lemma {:induction false} NumbersAreUnique(events: seq<Event>, k: Key, i: nat, l: Key, j: nat)
    requires k.tenant == l.tenant && i < |Registered(Run(events), k)| && j < |Registered(Run(events), l)|
    requires FormatNumber(k.line, k.year, Registered(Run(events), k)[i])
             == FormatNumber(l.line, l.year, Registered(Run(events), l)[j])
    ensures k == l && i == j
  {
    RegisterIsGapless(events, k);
    RegisterIsGapless(events, l);
    NumberIsInjective(k.line, k.year, Registered(Run(events), k)[i], l.line, l.year, Registered(Run(events), l)[j]);
    hide Run, FormatNumber;
  }

  /** A rolled-back transaction leaves no trace: what it drew will be drawn again. */
  lemma {:induction false} RollbackGivesBack(s: State, tx: int, key: Key, n: nat)
    requires key !in s.holds
    ensures var drew := Apply(s, Draw(tx, key));
            && Apply(drew, Rollback(tx)).next == s.next && Apply(drew, Rollback(tx)).register == s.register
            && key !in Apply(drew, Rollback(tx)).holds
            && Apply(Apply(drew, Rollback(tx)), Draw(n, key)).holds[key].drawn == drew.holds[key].drawn
  {}
}
