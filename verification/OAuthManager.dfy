/** The calls themselves, when nothing comes between their statements: each is held to its own sequence of
    steps, so what OAuthRenewal proves of every interleaving is about this code.

    The row is what the code reads and writes; the world around it, the provider and the other calls, is ghost. The
    lemmas say where the four steps of a renewal lead, by what the row says when it is read again under the lock: back
    at once with a newer token, out with an error, or through the provider to a new row. */
module OAuthManager {
  import opened Wrappers
  import opened OAuthRenewal

  function RenewalSteps(pid: int, reply: Reply, storeOk: bool): seq<Event> {
    [Lock(pid), ReadAgain(pid), Answer(pid, reply), Store(pid, storeOk)]
  }

  lemma {:induction false} FourSteps(s: State, pid: int, reply: Reply, storeOk: bool)
    ensures Run(s, RenewalSteps(pid, reply, storeOk))
            == Apply(Apply(Apply(Apply(s, Lock(pid)), ReadAgain(pid)), Answer(pid, reply)), Store(pid, storeOk))
  {
    var e := RenewalSteps(pid, reply, storeOk);
    hide Apply;
    RunFromPrefix(s, e, 0);
    RunFromPrefix(s, e, 1);
    RunFromPrefix(s, e, 2);
    RunFromPrefix(s, e, 3);
    assert e[..0] == [] && e[..4] == e;
  }

  /** The steps of a renewal keep the order. */
  lemma {:induction false} StepsAreOrderly(s: State, pid: int, reply: Reply, storeOk: bool)
    requires Orderly(s)
    ensures Orderly(Run(s, RenewalSteps(pid, reply, storeOk)))
  {
    FourSteps(s, pid, reply, storeOk);
    hide Apply, Orderly, Run;
    StepIsOrderly(s, Lock(pid));
    var a := Apply(s, Lock(pid));
    StepIsOrderly(a, ReadAgain(pid));
    var b := Apply(a, ReadAgain(pid));
    StepIsOrderly(b, Answer(pid, reply));
    StepIsOrderly(Apply(b, Answer(pid, reply)), Store(pid, storeOk));
  }

  /** A call that has ended takes no more steps. */
  lemma {:induction false} Idle(s: State, pid: int, reply: Reply, storeOk: bool)
    requires At(s, pid).None?
    ensures Apply(s, Answer(pid, reply)) == s && Apply(s, Store(pid, storeOk)) == s
  {}

  /** Where the four steps lead, by what the row says when it is read again. */
  lemma {:induction false} PathOf(s: State, pid: int, stale: string, reply: Reply, storeOk: bool)
    requires At(s, pid) == Some(Waiting(stale)) && s.lock == None
    requires reply.Refused? || (s.stored.refresh == s.current && Fresh(s, reply.access, reply.refresh))
    ensures var t := Run(s, RenewalSteps(pid, reply, storeOk));
            if s.stored.access != stale && s.stored.access != "" then
              t.stored == s.stored && t.held == s.held && t.gave == s.gave + [Return(stale, s.stored.access, |s.held|)]
            else if s.stored.refresh == "" || !reply.Granted? || !storeOk then
              t.stored == s.stored && t.gave == s.gave
            else
              && t.stored == Bundle(reply.access, Kept(s.stored.refresh, reply.refresh))
              && t.held == s.held + [reply.access] && t.gave == s.gave + [Return(stale, reply.access, |s.held| + 1)]
  {
    hide Run;
    FourSteps(s, pid, reply, storeOk);
    var a := Apply(s, Lock(pid));
    var b := Apply(a, ReadAgain(pid));
    if (s.stored.access != stale && s.stored.access != "") || s.stored.refresh == "" {
      Idle(b, pid, reply, storeOk);
    } else {
      assert b == Goes(Goes(s, pid, Holding(stale)).(lock := Some(pid)), pid, Exchanging(stale, s.stored.refresh));
      Exchanged(b, pid, stale, reply, storeOk);
    }
    hide Apply;
  }

  /** The exchange and what follows it. */
  lemma {:induction false} Exchanged(b: State, pid: int, stale: string, reply: Reply, storeOk: bool)
    requires At(b, pid) == Some(Exchanging(stale, b.stored.refresh))
    requires reply.Refused? || (b.stored.refresh == b.current && Fresh(b, reply.access, reply.refresh))
    ensures var t := Apply(Apply(b, Answer(pid, reply)), Store(pid, storeOk));
            if !reply.Granted? || !storeOk then t.stored == b.stored && t.gave == b.gave
            else
              && t.stored == Bundle(reply.access, Kept(b.stored.refresh, reply.refresh))
              && t.held == b.held + [reply.access] && t.gave == b.gave + [Return(stale, reply.access, |b.held| + 1)]
  {
    var c := Apply(b, Answer(pid, reply));
    if !reply.Granted? {
      Idle(c, pid, reply, storeOk);
    } else {
      assert At(c, pid) == Some(Storing(stale, Bundle(reply.access, Kept(b.stored.refresh, reply.refresh))));
    }
  }

  /** A connector's row, and the manager's three entrances to it. */
  class Manager {
    var row: Bundle
    ghost var world: State

    ghost predicate Valid() reads this {
      world.stored == row && Orderly(world)
    }

    /** The provider grants on the refresh token in force and on no other, and never issues a token twice. */
    ghost predicate Honest(reply: Reply) reads this {
      reply.Refused? || (row.refresh == world.current && Fresh(world, reply.access, reply.refresh))
    }

    /** saveGrant, on an account just connected. */
    constructor (grant: Bundle)
      requires grant.access != ""
      ensures Valid() && world == Connected(grant) && row == grant
    {
      row := grant;
      world := Connected(grant);
    }

    /** refresh: a response without a refresh token means the one presented stays. */
    method Refresh(presents: string, reply: Reply) returns (r: Option<Bundle>)
      ensures r == if reply.Granted? then Some(Bundle(reply.access, Kept(presents, reply.refresh))) else None
      ensures reply.Granted? ==>
                && r.Some? && r.value.access == reply.access
                && r.value.refresh == if reply.refresh == "" then presents else reply.refresh
    {
      if !reply.Granted? {
        return None;
      }
      var bundle := Bundle(reply.access, reply.refresh);
      if bundle.refresh == "" {
        bundle := bundle.(refresh := presents);
      }
      r := Some(bundle);
    }

    method RefreshAccess(ghost pid: int, stale: string, reply: Reply, storeOk: bool) returns (r: Option<string>)
      requires Valid() && Honest(reply) && At(world, pid) == Some(Waiting(stale)) && world.lock == None
      modifies this
      ensures Valid() && world == Run(old(world), RenewalSteps(pid, reply, storeOk))
      ensures r.Some? ==>
                && world.gave == old(world.gave) + [Return(stale, r.value, |world.held|)]
                && r.value != stale && r.value == row.access
      ensures r.None? ==> world.gave == old(world.gave) && row == old(row)
      ensures var was := old(row);
              if was.access != stale && was.access != "" then r == Some(was.access) && row == was
              else if was.refresh == "" || !reply.Granted? || !storeOk then r == None && row == was
              else && r == Some(reply.access)
                   && row == Bundle(reply.access, if reply.refresh == "" then was.refresh else reply.refresh)
    {
      assert stale in world.issued by {
        assert ProcFits(world, pid, world.procs[pid]);
      }
      PathOf(world, pid, stale, reply, storeOk);
      StepsAreOrderly(world, pid, reply, storeOk);
      world := Run(world, RenewalSteps(pid, reply, storeOk));
      hide Orderly, Run;
      var tok := row;
      if tok.access != stale && tok.access != "" {
        return Some(tok.access);
      }
      if tok.refresh == "" {
        return None;
      }
      var renewed := Refresh(tok.refresh, reply);
      if renewed.None? || !storeOk {
        return None;
      }
      row := renewed.value;
      r := Some(row.access);
    }

    /** An expired token is renewed; any other is handed out as it is. */
    method AccessToken(ghost pid: int, expired: bool, reply: Reply, storeOk: bool) returns (r: Option<string>)
      requires Valid() && Honest(reply) && pid !in world.procs && world.lock == None
      modifies this
      ensures Valid()
      ensures !expired ==> r == Some(old(row.access)) && row == old(row) && world == old(world)
      ensures expired ==> world == Run(Apply(old(world), Ask(pid, true)), RenewalSteps(pid, reply, storeOk))
      ensures expired && r.Some? ==> r.value != old(row.access) && r.value == row.access
      ensures r.None? ==> row == old(row)
      ensures var was := old(row);
              if !expired then r == Some(was.access) && row == was
              else if was.refresh == "" || !reply.Granted? || !storeOk then r == None && row == was
              else && r == Some(reply.access)
                   && row == Bundle(reply.access, if reply.refresh == "" then was.refresh else reply.refresh)
    {
      var tok := row;
      if !expired {
        return Some(tok.access);
      }
      StepIsOrderly(world, Ask(pid, true));
      hide Orderly, Run;
      world := Apply(world, Ask(pid, true));
      r := RefreshAccess(pid, tok.access, reply, storeOk);
    }

    /** Only a 401 about a token is met with a renewal, and only a different token is worth another try. Since a
        renewal never gives back the token complained of, that last test never fails. */
    method TokenAfterRejection(ghost pid: int, used: string, unauthorized: bool, reply: Reply, storeOk: bool)
        returns (r: Option<string>)
      requires Valid() && Honest(reply) && pid !in world.procs && world.lock == None && used in world.held
      modifies this
      ensures Valid()
      ensures !unauthorized ==> r == None && row == old(row) && world == old(world)
      ensures unauthorized ==> world == Run(Apply(old(world), Rejected(pid, used)), RenewalSteps(pid, reply, storeOk))
      ensures unauthorized ==> (r.Some? <==> |world.gave| > |old(world.gave)|)
      ensures r.Some? ==> r.value != used && r.value == row.access
      ensures unauthorized ==>
                var was := old(row);
                if was.access != used && was.access != "" then r == Some(was.access) && row == was
                else if was.refresh == "" || !reply.Granted? || !storeOk then r == None && row == was
                else && r == Some(reply.access)
                     && row == Bundle(reply.access, if reply.refresh == "" then was.refresh else reply.refresh)
    {
      if !unauthorized {
        return None;
      }
      StepIsOrderly(world, Rejected(pid, used));
      hide Orderly, Run;
      world := Apply(world, Rejected(pid, used));
      r := RefreshAccess(pid, used, reply, storeOk);
      if r.None? || r.value == used {
        return None;
      }
    }
  }
}
