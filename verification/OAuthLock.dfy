/** The lock of a connector's token (modules/integrations/oauth.go): who asks for a renewal, who is inside, and that
    nobody waits for good. These hold in every run, an account reconnected in the middle of an exchange included. */
module OAuthLock {
  import opened Wrappers
  import opened OAuthRenewal

  /** The lock is held by a call that is at work under it, and nobody else is past it. */
  ghost predicate LockFits(s: State) {
    && (s.lock.Some? ==> s.lock.value in s.procs && !s.procs[s.lock.value].Waiting?)
    && forall pid | pid in s.procs && !s.procs[pid].Waiting? :: s.lock == Some(pid)
  }

  lemma {:induction false} StepKeepsLock(s: State, e: Event)
    requires LockFits(s)
    ensures LockFits(Apply(s, e))
  {}

  /** In every run: at most one call is inside, and whoever is inside is still at work, so the lock is never left
      behind by a call that has ended. */
  lemma {:induction false} RunKeepsLock(grant: Bundle, events: seq<Event>)
    ensures LockFits(Run(Connected(grant), events))
  {
    if events != [] {
      var n := |events| - 1;
      RunKeepsLock(grant, events[..n]);
      hide LockFits, Apply;
      StepKeepsLock(Run(Connected(grant), events[..n]), events[n]);
    }
  }

  /** A call asks for a renewal exactly when it finds its token expired, or was refused with a token the row has held;
      it complains of that token, and a call that is under way asks for nothing more. */
  lemma {:induction false} CallsBeginIff(s: State, e: Event, pid: int)
    requires pid !in s.procs
    ensures pid in Apply(s, e).procs <==> e == Ask(pid, true) || (e.Rejected? && e.pid == pid && e.used in s.held)
    ensures pid in Apply(s, e).procs ==>
              Apply(s, e).procs[pid] == Waiting(if e.Ask? then s.stored.access else e.used)
  {}

  /** The row changes by a renewal that was stored, to the tokens it was granted, and by a reconnection. */
  lemma {:induction false} RowChangesIff(s: State, e: Event)
    ensures Apply(s, e).stored != s.stored ==>
              || (e.Store? && e.ok && e.pid in s.procs && s.procs[e.pid].Storing?
                  && Apply(s, e).stored == s.procs[e.pid].bundle)
              || (e.Reconnect? && Apply(s, e).stored == Bundle(e.access, e.refresh) && e.refresh != s.current)
    ensures e.Store? && e.ok && e.pid in s.procs && s.procs[e.pid].Storing? ==>
              Apply(s, e).stored == s.procs[e.pid].bundle
  {}

  /** What is put on record: every refresh token taken to the provider, with whether it was the one in force, and every
      renewal that was stored; and the row's tokens in the order it held them. */
  lemma {:induction false} RecordIs(s: State, e: Event)
    ensures var t := Apply(s, e);
            && t.trail == s.trail
                 + (if e.Answer? && e.pid in s.procs && s.procs[e.pid].Exchanging?
                    then [Presented(s.procs[e.pid].stale, s.procs[e.pid].presents == s.current, |s.held|)]
                    else if e.Store? && e.ok && e.pid in s.procs && s.procs[e.pid].Storing?
                    then [Renewed(s.procs[e.pid].stale, s.procs[e.pid].bundle.access, |s.held|)]
                    else [])
            && (e.Store? && e.ok && e.pid in s.procs && s.procs[e.pid].Storing? ==>
                  t.held == s.held + [s.procs[e.pid].bundle.access])
  {}

  /** A renewal goes to the provider exactly when the row, read again under the lock, still holds the token complained
      of and has a refresh token to present. */
  lemma {:induction false} ExchangesIff(s: State, pid: int)
    requires pid in s.procs && s.procs[pid].Holding?
    ensures var t, stale := Apply(s, ReadAgain(pid)), s.procs[pid].stale;
            && (pid in t.procs <==> (s.stored.access == stale || s.stored.access == "") && s.stored.refresh != "")
            && (pid in t.procs ==> t.procs[pid] == Exchanging(stale, s.stored.refresh))
            && t.gave == s.gave + if s.stored.access != stale && s.stored.access != ""
                                  then [Return(stale, s.stored.access, |s.held|)] else []
  {}

  // ------------------------------------------------------------------ nobody waits for good

  lemma {:induction false} ThreeSteps(s: State, a: Event, b: Event, c: Event)
    ensures Run(s, [a, b, c]) == Apply(Apply(Apply(s, a), b), c)
  {
    hide Apply;
    var e := [a, b, c];
    RunFromPrefix(s, e, 0);
    RunFromPrefix(s, e, 1);
    RunFromPrefix(s, e, 2);
    assert e[..0] == [] && e[..3] == e;
  }

  lemma {:induction false} RunJoins(s: State, a: seq<Event>, b: seq<Event>)
    ensures Run(s, a + b) == Run(Run(s, a), b)
    decreases |b|
  {
    if b == [] {
      assert a + b == a;
    } else {
      var n := |b| - 1;
      assert (a + b)[..|a + b| - 1] == a + b[..n];
      RunJoins(s, a, b[..n]);
      hide Apply;
    }
  }

  /** Three statements take the call inside to its end, even if the provider refuses it. */
  function Outward(pid: int): seq<Event> { [ReadAgain(pid), Answer(pid, Refused), Store(pid, false)] }

  lemma {:induction false} ReadsOut(s: State, pid: int)
    requires pid in s.procs && !s.procs[pid].Waiting? && s.lock == Some(pid)
    ensures var t := Apply(s, ReadAgain(pid));
            || (t.lock == None && t.procs == s.procs - {pid})
            || (t.lock == s.lock && pid in t.procs && Busy(t.procs[pid]) && t.procs - {pid} == s.procs - {pid})
  {
    var p := s.procs[pid];
    if p.Holding? {
      assert s.procs[pid := Exchanging(p.stale, s.stored.refresh)] - {pid} == s.procs - {pid};
    }
  }

  lemma {:induction false} AnswersOut(s: State, pid: int)
    requires pid in s.procs && Busy(s.procs[pid]) && s.lock == Some(pid)
    ensures var t := Apply(s, Answer(pid, Refused));
            || (t.lock == None && t.procs == s.procs - {pid})
            || (t == s && s.procs[pid].Storing?)
  {}

  /** A call that has ended takes no more steps. */
  lemma {:induction false} IsOut(s: State, pid: int)
    requires pid !in s.procs
    ensures Apply(s, Answer(pid, Refused)) == s && Apply(s, Store(pid, false)) == s
  {}

  lemma {:induction false} InsideEnds(s: State, pid: int)
    requires LockFits(s) && s.lock == Some(pid)
    ensures var t := Run(s, Outward(pid)); t.lock == None && t.procs == s.procs - {pid}
  {
    ThreeSteps(s, ReadAgain(pid), Answer(pid, Refused), Store(pid, false));
    var a := Apply(s, ReadAgain(pid));
    var b := Apply(a, Answer(pid, Refused));
    ReadsOut(s, pid);
    if pid in a.procs {
      AnswersOut(a, pid);
      if pid in b.procs {
        StoresOut(b, pid);
      } else {
        IsOut(b, pid);
      }
    } else {
      IsOut(a, pid);
    }
    hide Apply, Run;
  }

  lemma {:induction false} StoresOut(s: State, pid: int)
    requires pid in s.procs && s.procs[pid].Storing?
    ensures Apply(s, Store(pid, false)).lock == None && Apply(s, Store(pid, false)).procs == s.procs - {pid}
  {}

  /** From wherever a run has come to, every call that waits or works can be brought to its end. */
  lemma {:induction false} EveryCallCanEnd(grant: Bundle, events: seq<Event>, pid: int) returns (more: seq<Event>)
    requires pid in Run(Connected(grant), events).procs
    ensures pid !in Run(Connected(grant), events + more).procs && |more| <= 7
  {
    var s := Run(Connected(grant), events);
    RunKeepsLock(grant, events);
    if s.lock == Some(pid) {
      InsideEnds(s, pid);
      more := Outward(pid);
      RunJoins(Connected(grant), events, more);
    } else {
      var first: seq<Event> := [];
      if s.lock.Some? {
        InsideEnds(s, s.lock.value);
        first := Outward(s.lock.value);
      }
      var t := Run(s, first);
      RunJoins(Connected(grant), events, first);
      RunKeepsLock(grant, events + first);
      assert t.lock == None && pid in t.procs && t.procs[pid].Waiting?;
      more := first + ([Lock(pid)] + Outward(pid));
      RunKeepsLock(grant, events + first + [Lock(pid)]);
      RunJoins(Connected(grant), events + first, [Lock(pid)]);
      assert Run(t, [Lock(pid)]) == Apply(t, Lock(pid)) by { assert [Lock(pid)][..0] == []; }
      InsideEnds(Apply(t, Lock(pid)), pid);
      RunJoins(Connected(grant), events + first + [Lock(pid)], Outward(pid));
      assert events + more == events + first + [Lock(pid)] + Outward(pid);
    }
  }
}
