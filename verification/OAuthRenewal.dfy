/** Renewing a connector's OAuth token under its lock: any number of calls in one process, one statement at a
    time, against a provider that may rotate the refresh token. */
module OAuthRenewal {
  import opened Wrappers

  /** tokenBundle, as far as renewing goes. */
  datatype Bundle = Bundle(access: string, refresh: string)

  /** Where a call of refreshAccess stands. */
  datatype Proc =
    | Waiting(stale: string) // wants the lock
    | Holding(stale: string) // has it, is about to read the row again
    | Exchanging(stale: string, presents: string)
    | Storing(stale: string, bundle: Bundle)

  /** What the provider did with a refresh token presented to it. */
  datatype Reply =
    | Refused
    | Granted(access: string, refresh: string) // "" means: keep using the one you have
    | LostOnTheWay(access: string, refresh: string) // granted, but the response never arrived

  /** What happened, in order. after counts the access tokens the row had held by then. */
  datatype Entry =
    | Presented(stale: string, inForce: bool, after: nat)
    | Renewed(stale: string, access: string, after: nat)

  datatype Return = Return(stale: string, access: string, after: nat)

  datatype State = State(
    stored: Bundle,
    held: seq<string>, // access tokens the row has held, oldest first
    issued: set<string>, // access tokens the provider has issued
    known: set<string>, // refresh tokens it has issued
    current: string, // the refresh token it honours
    lock: Option<int>,
    procs: map<int, Proc>,
    trail: seq<Entry>,
    gave: seq<Return>)

  datatype Event =
    | Ask(pid: int, expired: bool) // accessToken
    | Rejected(pid: int, used: string) // tokenAfterRejection
    | Lock(pid: int)
    | ReadAgain(pid: int)
    | Answer(pid: int, reply: Reply)
    | Store(pid: int, ok: bool)
    | Reconnect(access: string, refresh: string) // somebody authorises the account again

  function At(s: State, pid: int): Option<Proc> {
    if pid in s.procs then Some(s.procs[pid]) else None
  }

  function Goes(s: State, pid: int, p: Proc): State { s.(procs := s.procs[pid := p]) }

  /** The call ends and lets go of the lock. */
  function Leaves(s: State, pid: int): State { s.(procs := s.procs - {pid}, lock := None) }

  function Gives(s: State, pid: int, stale: string, access: string): State {
    Leaves(s, pid).(gave := s.gave + [Return(stale, access, |s.held|)])
  }

  /** The refresh token in force once a grant has been made on the one presented. */
  function Kept(presents: string, refresh: string): string {
    if refresh == "" then presents else refresh
  }

  /** A provider issues access tokens and, when it rotates, refresh tokens it has not issued before. */
  predicate Fresh(s: State, access: string, refresh: string) {
    access != "" && access !in s.issued && (refresh == "" || refresh == s.current || refresh !in s.known)
  }

  function Issues(s: State, access: string, refresh: string): State {
    s.(issued := s.issued + {access}, known := s.known + {refresh}, current := refresh)
  }

  function Answers(s: State, pid: int, stale: string, presents: string, reply: Reply): State {
    var t := s.(trail := s.trail + [Presented(stale, presents == s.current, |s.held|)]);
    if reply.Refused? || presents != s.current || !Fresh(s, reply.access, reply.refresh) then Leaves(t, pid)
    else
      var refresh := Kept(presents, reply.refresh);
      if reply.LostOnTheWay? then Leaves(Issues(t, reply.access, refresh), pid)
      else Goes(Issues(t, reply.access, refresh), pid, Storing(stale, Bundle(reply.access, refresh)))
  }

  function Stores(s: State, pid: int, stale: string, bundle: Bundle): State {
    Gives(s.(stored := bundle, held := s.held + [bundle.access], trail := s.trail
        + [Renewed(stale, bundle.access, |s.held|)]),
          pid, stale, bundle.access)
  }

  function Apply(s: State, e: Event): State {
    match e
    case Ask(pid, expired) =>
      if pid !in s.procs && expired then Goes(s, pid, Waiting(s.stored.access)) else s
    case Rejected(pid, used) =>
      if pid !in s.procs && used in s.held then Goes(s, pid, Waiting(used)) else s
    case Lock(pid) =>
      (match At(s, pid)
       case Some(Waiting(stale)) => if s.lock == None then Goes(s, pid, Holding(stale)).(lock := Some(pid)) else s
       case _ => s)
    case ReadAgain(pid) =>
      (match At(s, pid)
       case Some(Holding(stale)) =>
         if s.stored.access != stale && s.stored.access != "" then Gives(s, pid, stale, s.stored.access)
         else if s.stored.refresh == "" then Leaves(s, pid) // reconnect the account
         else Goes(s, pid, Exchanging(stale, s.stored.refresh))
       case _ => s)
    case Answer(pid, reply) =>
      (match At(s, pid)
       case Some(Exchanging(stale, presents)) => Answers(s, pid, stale, presents, reply)
       case _ => s)
    case Store(pid, ok) =>
      (match At(s, pid)
       case Some(Storing(stale, bundle)) => if ok then Stores(s, pid, stale, bundle) else Leaves(s, pid)
       case _ => s)
    case Reconnect(access, refresh) =>
      if Fresh(s, access, refresh) && refresh != s.current
      then Issues(s, access, refresh).(stored := Bundle(access, refresh), held := s.held + [access])
      else s
  }

  /** Just connected, nobody asking. */
  function Connected(grant: Bundle): State {
    State(grant, [grant.access], {grant.access}, {grant.refresh, ""}, grant.refresh, None, map[], [], [])
  }

  function Run(s: State, events: seq<Event>): State {
    if events == [] then s else Apply(Run(s, events[..|events| - 1]), events[|events| - 1])
  }

  // ------------------------------------------------------------------ one renewal at a time

  ghost predicate Distinct(xs: seq<string>) {
    forall i, j | 0 <= i < j < |xs| :: xs[i] != xs[j]
  }

  ghost predicate RowFits(s: State) {
    && s.held != [] && s.held[|s.held| - 1] == s.stored.access && Distinct(s.held)
    && (forall x | x in s.held :: x in s.issued) && "" !in s.issued
    && s.stored.refresh in s.known && s.current in s.known && "" in s.known
  }

  ghost predicate ProcFits(s: State, pid: int, p: Proc) {
    && p.stale in s.held
    && (!p.Waiting? ==> s.lock == Some(pid))
    && (p.Exchanging? ==> p.stale == s.stored.access && p.presents == s.stored.refresh && p.presents != "")
    && (p.Storing? ==> p.stale == s.stored.access && p.bundle.access in s.issued && p.bundle.access !in s.held
                       && p.bundle.refresh in s.known && p.bundle.refresh != "")
  }

  ghost predicate ProcsFit(s: State) {
    forall pid | pid in s.procs :: ProcFits(s, pid, s.procs[pid])
  }

  /** What is on record was done to the token the row then held. */
  ghost predicate EntryFits(held: seq<string>, x: Entry) {
    && 1 <= x.after <= |held| && x.stale == held[x.after - 1]
    && (x.Renewed? ==> x.after < |held| && x.access == held[x.after])
  }

  ghost predicate TrailFits(held: seq<string>, trail: seq<Entry>) {
    && (forall k | 0 <= k < |trail| :: EntryFits(held, trail[k]))
    && (forall i, j | 0 <= i < j < |trail| :: trail[i].after <= trail[j].after)
    && (forall i, j | 0 <= i < j < |trail| && trail[i].Renewed? :: trail[i].after < trail[j].after)
  }

  /** What a call came back with was what the row then held, and newer than what it complained of. */
  ghost predicate ReturnFits(held: seq<string>, r: Return) {
    1 <= r.after <= |held| && r.access == held[r.after - 1] && r.stale in held[..r.after - 1]
  }

  ghost predicate ReturnsFit(held: seq<string>, gave: seq<Return>) {
    forall k | 0 <= k < |gave| :: ReturnFits(held, gave[k])
  }

  ghost predicate Orderly(s: State) {
    RowFits(s) && ProcsFit(s) && TrailFits(s.held, s.trail) && ReturnsFit(s.held, s.gave)
  }

  predicate Busy(p: Proc) { p.Exchanging? || p.Storing? }

  /** Somebody authorises the account again while a call is talking to the provider. */
  ghost predicate Interrupts(s: State, e: Event) {
    e.Reconnect? && Fresh(s, e.access, e.refresh) && e.refresh != s.current
    && exists pid :: pid in s.procs && Busy(s.procs[pid])
  }

  lemma {:induction false} HeldGrows(held: seq<string>, x: string, trail: seq<Entry>, gave: seq<Return>)
    requires TrailFits(held, trail) && ReturnsFit(held, gave)
    ensures TrailFits(held + [x], trail) && ReturnsFit(held + [x], gave)
  {
    var more := held + [x];
    forall k | 0 <= k < |trail| ensures EntryFits(more, trail[k]) {
      assert EntryFits(held, trail[k]);
    }
    forall k | 0 <= k < |gave| ensures ReturnFits(more, gave[k]) {
      assert ReturnFits(held, gave[k]);
      assert more[..gave[k].after - 1] == held[..gave[k].after - 1];
    }
  }

  lemma {:induction false} TrailGrows(held: seq<string>, trail: seq<Entry>, x: Entry)
    requires TrailFits(held, trail) && EntryFits(held, x)
    requires forall k | 0 <= k < |trail| ::
             trail[k].after <= x.after && (trail[k].Renewed? ==> trail[k].after < x.after)
    ensures TrailFits(held, trail + [x])
  {
    var more := trail + [x];
    forall k | 0 <= k < |more| ensures EntryFits(held, more[k]) {
      assert k < |trail| ==> more[k] == trail[k];
    }
  }

  /** An entry made now comes after all others. */
  lemma {:induction false} NowIsLast(held: seq<string>, trail: seq<Entry>)
    requires TrailFits(held, trail)
    ensures forall k | 0 <= k < |trail| :: trail[k].after <= |held| && (trail[k].Renewed? ==> trail[k].after < |held|)
  {
    forall k | 0 <= k < |trail| ensures trail[k].after <= |held| && (trail[k].Renewed? ==> trail[k].after < |held|) {
      assert EntryFits(held, trail[k]);
    }
  }

  lemma {:induction false} OlderThanTheRow(held: seq<string>, x: string)
    requires held != [] && x in held && x != held[|held| - 1]
    ensures x in held[..|held| - 1]
  {
    var i :| 0 <= i < |held| && held[i] == x;
    assert held[..|held| - 1][i] == x;
  }

  lemma {:induction false} ReadAgainIsOrderly(s: State, pid: int)
    requires Orderly(s)
    ensures Orderly(Apply(s, ReadAgain(pid)))
  {
    match At(s, pid)
    case Some(Holding(stale)) =>
      assert ProcFits(s, pid, s.procs[pid]);
      if s.stored.access != stale && s.stored.access != "" {
        OlderThanTheRow(s.held, stale);
      }
      assert s.stored.access in s.held;
    case _ =>
  }

  lemma {:induction false} AnswerIsOrderly(s: State, pid: int, reply: Reply)
    requires Orderly(s)
    ensures Orderly(Apply(s, Answer(pid, reply)))
  {
    match At(s, pid)
    case Some(Exchanging(stale, presents)) =>
      var p := s.procs[pid];
      assert ProcFits(s, pid, p);
      NowIsLast(s.held, s.trail);
      TrailGrows(s.held, s.trail, Presented(stale, presents == s.current, |s.held|));
      hide TrailFits, ReturnsFit;
    case _ =>
  }

  lemma {:induction false} StoreIsOrderly(s: State, pid: int, ok: bool)
    requires Orderly(s)
    ensures Orderly(Apply(s, Store(pid, ok)))
  {
    match At(s, pid)
    case Some(Storing(stale, bundle)) =>
      assert ProcFits(s, pid, s.procs[pid]);
      if ok {
        var held := s.held + [bundle.access];
        NowIsLast(s.held, s.trail);
        HeldGrows(s.held, bundle.access, s.trail, s.gave);
        TrailGrows(held, s.trail, Renewed(stale, bundle.access, |s.held|));
        assert held[..|s.held|] == s.held;
        assert s.held[|s.held| - 1] == stale;
        hide TrailFits;
      }
    case _ =>
  }

  lemma {:induction false} ReconnectIsOrderly(s: State, access: string, refresh: string)
    requires Orderly(s) && !Interrupts(s, Reconnect(access, refresh))
    ensures Orderly(Apply(s, Reconnect(access, refresh)))
  {
    if Fresh(s, access, refresh) && refresh != s.current {
      HeldGrows(s.held, access, s.trail, s.gave);
      hide TrailFits, ReturnsFit;
      var t := Apply(s, Reconnect(access, refresh));
      forall pid | pid in t.procs ensures ProcFits(t, pid, t.procs[pid]) {
        assert ProcFits(s, pid, s.procs[pid]) && !Busy(s.procs[pid]);
      }
    }
  }

  /** Every statement keeps the order, a reconnection in the middle of an exchange excepted. */
  lemma {:induction false} StepIsOrderly(s: State, e: Event)
    requires Orderly(s) && !Interrupts(s, e)
    ensures Orderly(Apply(s, e))
  {
    match e
    case Ask(pid, expired) => assert s.stored.access in s.held; hide TrailFits, ReturnsFit;
    case Rejected(pid, used) => hide TrailFits, ReturnsFit;
    case Lock(pid) =>
      assert pid in s.procs ==> ProcFits(s, pid, s.procs[pid]);
      hide TrailFits, ReturnsFit;
    case ReadAgain(pid) => hide Apply, Orderly; ReadAgainIsOrderly(s, pid);
    case Answer(pid, reply) => hide Apply, Orderly; AnswerIsOrderly(s, pid, reply);
    case Store(pid, ok) => hide Apply, Orderly; StoreIsOrderly(s, pid, ok);
    case Reconnect(access, refresh) => hide Apply, Orderly; ReconnectIsOrderly(s, access, refresh);
  }

  /** No event of a run interrupts an exchange. */
  ghost predicate Undisturbed(s: State, events: seq<Event>) {
    forall k | 0 <= k < |events| :: !Interrupts(Run(s, events[..k]), events[k])
  }

  lemma {:induction false} RunIsOrderly(grant: Bundle, events: seq<Event>)
    requires grant.access != "" && Undisturbed(Connected(grant), events)
    ensures Orderly(Run(Connected(grant), events))
  {
    if events != [] {
      var n := |events| - 1;
      forall k | 0 <= k < n ensures !Interrupts(Run(Connected(grant), events[..n][..k]), events[..n][k]) {
        assert events[..n][..k] == events[..k];
      }
      RunIsOrderly(grant, events[..n]);
      assert !Interrupts(Run(Connected(grant), events[..n]), events[n]);
      hide Orderly, Apply;
      StepIsOrderly(Run(Connected(grant), events[..n]), events[n]);
    }
  }

  /** In any run, whatever fails and however the calls interleave, an access token that has been renewed is
      never taken to the provider again; and every call that waited comes back with what the row held at that
      moment, which is newer than what it complained of. */
  lemma {:induction false} RenewedOnce(grant: Bundle, events: seq<Event>)
    requires grant.access != "" && Undisturbed(Connected(grant), events)
    ensures var s := Run(Connected(grant), events);
            && (forall i, j | 0 <= i < j < |s.trail| && s.trail[i].Renewed? :: s.trail[i].stale != s.trail[j].stale)
            && (forall k | 0 <= k < |s.gave| ::
                  var r := s.gave[k];
                  && 1 <= r.after <= |s.held| && r.access == s.held[r.after - 1]
                  && r.stale in s.held[..r.after - 1] && r.access != r.stale)
  {
    RunIsOrderly(grant, events);
    var s := Run(Connected(grant), events);
    hide Run, Apply;
    forall i, j | 0 <= i < j < |s.trail| && s.trail[i].Renewed? ensures s.trail[i].stale != s.trail[j].stale {
      assert EntryFits(s.held, s.trail[i]) && EntryFits(s.held, s.trail[j]);
      assert s.trail[i].after < s.trail[j].after;
    }
    forall k | 0 <= k < |s.gave|
      ensures var r := s.gave[k];
              1 <= r.after <= |s.held| && r.access == s.held[r.after - 1] && r.stale in s.held[..r.after - 1]
              && r.access != r.stale
    {
      assert ReturnFits(s.held, s.gave[k]);
    }
  }

  // ------------------------------------------------------------------ the grant stays in force

  /** Whoever reads the row, or is holding what it will say next, has the refresh token the provider honours;
      and nothing else was ever presented. */
  ghost predicate InForce(s: State) {
    && (forall pid | pid in s.procs :: (s.procs[pid].Exchanging? ==> s.procs[pid].presents == s.current)
                                       && (s.procs[pid].Storing? ==> s.procs[pid].bundle.refresh == s.current))
    && ((forall pid | pid in s.procs :: !s.procs[pid].Storing?) ==> s.stored.refresh == s.current)
    && (forall k | 0 <= k < |s.trail| && s.trail[k].Presented? :: s.trail[k].inForce)
  }

  /** The three ways to lose a grant: a rotated token that never arrives, one that is not stored, and a
      reconnection in the middle of an exchange. */
  ghost predicate Loses(s: State, e: Event) {
    match e
    case Answer(pid, reply) =>
      && At(s, pid).Some? && s.procs[pid].Exchanging? && reply.LostOnTheWay?
      && s.procs[pid].presents == s.current && Fresh(s, reply.access, reply.refresh)
      && reply.refresh != "" && reply.refresh != s.current
    case Store(pid, ok) =>
      At(s, pid).Some? && s.procs[pid].Storing? && !ok && s.procs[pid].bundle.refresh != s.stored.refresh
    case Reconnect(_, _) => Interrupts(s, e)
    case _ => false
  }

  /** Whoever holds the lock is alone in the section. */
  lemma {:induction false} AloneInside(s: State, pid: int)
    requires Orderly(s) && pid in s.procs && !s.procs[pid].Waiting?
    ensures s.lock == Some(pid) && forall other | other in s.procs && other != pid :: s.procs[other].Waiting?
  {
    assert ProcFits(s, pid, s.procs[pid]);
    forall other | other in s.procs && other != pid ensures s.procs[other].Waiting? {
      assert ProcFits(s, other, s.procs[other]);
    }
  }

  /** A statement that only moves a call between places where it has nothing in hand changes nothing here. */
  lemma {:induction false} IdleMove(s: State, t: State, pid: int)
    requires InForce(s)
    requires t.stored == s.stored && t.current == s.current && t.trail == s.trail
    requires forall other | other != pid :: At(t, other) == At(s, other)
    requires pid in s.procs ==> !Busy(s.procs[pid])
    requires pid in t.procs ==> !Busy(t.procs[pid])
    ensures InForce(t)
  {
    forall other | other in t.procs && other != pid ensures other in s.procs && t.procs[other] == s.procs[other] {
      assert At(t, other) == At(s, other);
    }
    if forall other | other in t.procs :: !t.procs[other].Storing? {
      forall other | other in s.procs ensures !s.procs[other].Storing? {
        assert At(t, other) == At(s, other) || other == pid;
      }
    }
  }

  /** With everybody else waiting, the grant is in force when the one inside, or the row, has it. */
  lemma {:induction false} OnlyOneInside(t: State, pid: int)
    requires forall other | other in t.procs && other != pid :: t.procs[other].Waiting?
    requires pid in t.procs ==> t.procs[pid].Storing?
    requires forall k | 0 <= k < |t.trail| && t.trail[k].Presented? :: t.trail[k].inForce
    ensures InForce(t) <==> (if pid in t.procs then t.procs[pid].bundle.refresh == t.current
            else t.stored.refresh == t.current)
  {}

  lemma {:induction false} AnswerAndTheGrant(s: State, pid: int, reply: Reply)
    requires Orderly(s) && InForce(s)
    ensures InForce(Apply(s, Answer(pid, reply))) <==> !Loses(s, Answer(pid, reply))
  {
    match At(s, pid)
    case Some(Exchanging(stale, presents)) =>
      AloneInside(s, pid);
      assert ProcFits(s, pid, s.procs[pid]);
      assert presents == s.current && presents == s.stored.refresh;
      var t := Apply(s, Answer(pid, reply));
      assert t.trail == s.trail + [Presented(stale, true, |s.held|)];
      hide Orderly;
      OnlyOneInside(t, pid);
      hide InForce;
    case _ =>
  }

  lemma {:induction false} StoreAndTheGrant(s: State, pid: int, ok: bool)
    requires Orderly(s) && InForce(s)
    ensures InForce(Apply(s, Store(pid, ok))) <==> !Loses(s, Store(pid, ok))
  {
    match At(s, pid)
    case Some(Storing(stale, bundle)) =>
      AloneInside(s, pid);
      hide Orderly;
      var t := Apply(s, Store(pid, ok));
      assert forall k | 0 <= k < |s.trail| :: t.trail[k] == s.trail[k];
    case _ =>
  }

  lemma {:induction false} ReconnectAndTheGrant(s: State, access: string, refresh: string)
    requires Orderly(s) && InForce(s)
    ensures InForce(Apply(s, Reconnect(access, refresh))) <==> !Loses(s, Reconnect(access, refresh))
  {
    if Fresh(s, access, refresh) && refresh != s.current {
      var t := Apply(s, Reconnect(access, refresh));
      if Interrupts(s, Reconnect(access, refresh)) {
        var pid :| pid in s.procs && Busy(s.procs[pid]);
        assert ProcFits(s, pid, s.procs[pid]);
        assert t.procs[pid] == s.procs[pid];
      }
    }
  }

  /** The step that keeps the grant in force is exactly the one that is not one of the three. */
  lemma {:induction false} GrantSurvivesIff(s: State, e: Event)
    requires Orderly(s) && InForce(s)
    ensures InForce(Apply(s, e)) <==> !Loses(s, e)
  {
    match e
    case Ask(pid, expired) => hide Orderly, InForce; if pid !in s.procs { IdleMove(s, Apply(s, e), pid); }
    case Rejected(pid, used) => hide Orderly, InForce; if pid !in s.procs { IdleMove(s, Apply(s, e), pid); }
    case Lock(pid) =>
      hide Orderly, InForce;
      if pid in s.procs && s.procs[pid].Waiting? { IdleMove(s, Apply(s, e), pid); }
    case ReadAgain(pid) =>
      if pid in s.procs && s.procs[pid].Holding? {
        AloneInside(s, pid);
      }
      hide Orderly;
    case Answer(pid, reply) => hide Apply, Orderly, InForce; AnswerAndTheGrant(s, pid, reply);
    case Store(pid, ok) => hide Apply, Orderly, InForce; StoreAndTheGrant(s, pid, ok);
    case Reconnect(access, refresh) => hide Apply, Orderly, InForce; ReconnectAndTheGrant(s, access, refresh);
  }

  ghost predicate AlwaysInForce(s: State, events: seq<Event>) {
    forall k | 0 <= k <= |events| :: InForce(Run(s, events[..k]))
  }

  ghost predicate NeverLoses(s: State, events: seq<Event>) {
    forall k | 0 <= k < |events| :: !Loses(Run(s, events[..k]), events[k])
  }

  lemma {:induction false} RunFromPrefix(s: State, events: seq<Event>, k: nat)
    requires k < |events|
    ensures Run(s, events[..k + 1]) == Apply(Run(s, events[..k]), events[k])
  {
    assert events[..k + 1][..k] == events[..k];
  }

  lemma {:induction false} OrderlyAndInForce(grant: Bundle, events: seq<Event>, k: nat)
    requires grant.access != "" && k <= |events|
    requires forall j | 0 <= j < k :: !Loses(Run(Connected(grant), events[..j]), events[j])
    ensures Orderly(Run(Connected(grant), events[..k])) && InForce(Run(Connected(grant), events[..k]))
  {
    if k > 0 {
      OrderlyAndInForce(grant, events, k - 1);
      var s := Run(Connected(grant), events[..k - 1]);
      RunFromPrefix(Connected(grant), events, k - 1);
      assert !Loses(s, events[k - 1]);
      assert !Interrupts(s, events[k - 1]);
      hide Run, Apply, Orderly, InForce;
      StepIsOrderly(s, events[k - 1]);
      GrantSurvivesIff(s, events[k - 1]);
    } else {
      assert events[..0] == [];
    }
  }

  /** A run presents only the refresh token in force, and ends with it in the row or in hand, exactly when none
      of its steps is one of the three. */
  lemma {:induction false} GrantIsKeptIff(grant: Bundle, events: seq<Event>)
    requires grant.access != ""
    ensures AlwaysInForce(Connected(grant), events) <==> NeverLoses(Connected(grant), events)
  {
    var s := Connected(grant);
    if NeverLoses(s, events) {
      forall k | 0 <= k <= |events| ensures InForce(Run(s, events[..k])) {
        OrderlyAndInForce(grant, events, k);
      }
    } else {
      var k := FirstLoss(s, events, |events|);
      OrderlyAndInForce(grant, events, k);
      RunFromPrefix(s, events, k);
      hide Run, Apply, Orderly, InForce;
      GrantSurvivesIff(Run(s, events[..k]), events[k]);
    }
  }

  lemma {:induction false} FirstLoss(s: State, events: seq<Event>, n: nat) returns (k: nat)
    requires n <= |events| && exists j :: 0 <= j < n && Loses(Run(s, events[..j]), events[j])
    ensures k < n && Loses(Run(s, events[..k]), events[k])
    ensures forall j | 0 <= j < k :: !Loses(Run(s, events[..j]), events[j])
  {
    if j :| 0 <= j < n - 1 && Loses(Run(s, events[..j]), events[j]) {
      k := FirstLoss(s, events, n - 1);
    } else {
      k := n - 1;
    }
  }

  // ------------------------------------------------------------------ what losing it means

  /** The row has a refresh token the provider no longer honours, and nobody has a better one in hand. */
  ghost predicate Stranded(s: State) {
    && s.stored.refresh != s.current
    && forall pid | pid in s.procs ::
       !s.procs[pid].Storing? && (s.procs[pid].Exchanging? ==> s.procs[pid].presents != s.current)
  }

  lemma {:induction false} LossStrands(s: State, e: Event)
    requires Orderly(s) && InForce(s) && Loses(s, e) && !e.Reconnect?
    ensures Stranded(Apply(s, e))
  {
    match e
    case Answer(pid, reply) =>
      AloneInside(s, pid);
      assert ProcFits(s, pid, s.procs[pid]);
      hide Orderly;
    case Store(pid, ok) =>
      AloneInside(s, pid);
      hide Orderly;
  }

  lemma {:induction false} StrandedStays(s: State, e: Event)
    requires Orderly(s) && Stranded(s) && !e.Reconnect?
    ensures Stranded(Apply(s, e)) && Apply(s, e).stored == s.stored
  {
    hide Orderly, Fresh, Issues;
  }

  /** Once the grant is lost, no renewal succeeds and the row stays as it is until somebody reconnects. */
  lemma {:induction false} OnlyReconnectingHelps(s: State, events: seq<Event>)
    requires Orderly(s) && Stranded(s) && forall k | 0 <= k < |events| :: !events[k].Reconnect?
    ensures var t := Run(s, events); Orderly(t) && Stranded(t) && t.stored == s.stored
  {
    if events != [] {
      var n := |events| - 1;
      assert !events[n].Reconnect?;
      forall k | 0 <= k < n ensures !events[..n][k].Reconnect? {
        assert events[..n][k] == events[k];
      }
      OnlyReconnectingHelps(s, events[..n]);
      hide Apply, Orderly, Stranded;
      StrandedStays(Run(s, events[..n]), events[n]);
      StepIsOrderly(Run(s, events[..n]), events[n]);
    }
  }
}
