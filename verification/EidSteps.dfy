/** eID signature ceremonies (modules/documents/eidsign.go, contentsign.go): starting, polling and clearing
    up, one SQL statement at a time and in any interleaving.

    A handler in flight is a process. What the provider answers, what the clock says and whether the
    document would take the signature are the environment's choice at each step.

    The invariant says how the pairing rows, the ledger of signatures and the handlers in flight fit together: a row
    says what its ceremony was started for and is written by the handler that pushed it and no other; a row is spent
    exactly when the ledger holds one signature of its ceremony, by the citizen it was addressed to. One lemma for each
    statement says that it keeps this, and of the unguarded DELETE when it does. What the rails' answers say is kept
    apart, for it holds only where they are final. EidSessions says what this comes to over whole runs. */
module EidSteps {
  import opened Wrappers

  /** The pairing row: which document, and to whom the request was addressed. A digest means the ceremony is
      over the document's file. */
  datatype Session = Session(doc: int, reg: string, digest: string, consumed: bool)

  datatype Row = Row(doc: int, signer: string, session: Option<string>)

  /** What a rail says of a ceremony that is over. */
  datatype Answer = Complete(identity: string) | Refused | Expired

  /** Where a handler has got to. */
  datatype Proc =
    | Pushed(sid: string) // the citizen's phone shows the request; its row is not written yet
    | Inserted(sid: string) // the others for this citizen are still to be retired
    | Loaded(sid: string, late: bool) // a poll that has read an unspent row
    | Expiring(sid: string)
    | Asking(sid: string, content: bool)
    | Dropping(sid: string) // the rail said it is over: the row goes
    | Writing(sid: string, content: bool)
    | Refusing(sid: string) // the write failed: did this ceremony sign after all?

  datatype Via = Loading | Recording | Rechecking | DeletingLate(rowThere: bool)

  /** A poll that told its caller COMPLETE. */
  datatype Report = Report(sid: string, via: Via)

  /** What a ceremony was started for. */
  datatype Purpose = Purpose(doc: int, reg: string, digest: string)

  datatype State = State(
    sessions: map<string, Session>,
    ledger: seq<Row>,
    minted: map<string, Purpose>, // every id a rail has handed out
    answers: map<string, Answer>,
    procs: map<int, Proc>,
    reports: seq<Report>)

  datatype Event =
    | Push(pid: int, sid: string, purpose: Purpose)
    | InsertRow(pid: int)
    | RetireOthers(pid: int)
    | Sweep(doc: int, stale: set<string>)
    | Answered(sid: string, answer: Answer)
    | PollLoad(pid: int, doc: int, sid: string, late: bool)
    | PollKind(pid: int)
    | DeleteLate(pid: int)
    | Ask(pid: int, trusted: bool)
    | Drop(pid: int)
    | WriteSignature(pid: int, accepted: bool)
    | Recheck(pid: int)
    | SignWithDan(doc: int, signer: string)

  // ------------------------------------------------------------------ the statements

  function Without(s: State, pid: int): State {
    s.(procs := s.procs - {pid})
  }

  function Goes(s: State, pid: int, p: Proc): State {
    s.(procs := s.procs[pid := p])
  }

  function Tells(s: State, pid: int, sid: string, via: Via): State {
    Without(s, pid).(reports := s.reports + [Report(sid, via)])
  }

  function At(s: State, pid: int): Option<Proc> {
    if pid in s.procs then Some(s.procs[pid]) else None
  }

  function Unspent(s: State, sid: string): bool {
    sid in s.sessions && !s.sessions[sid].consumed
  }

  /** DELETE … WHERE consumed_at IS NULL, over the rows a condition picks. */
  function DeleteUnspent(s: State, picked: set<string>): State {
    s.(sessions := map sid | sid in s.sessions && (s.sessions[sid].consumed || sid !in picked) :: s.sessions[sid])
  }

  function OthersOf(s: State, sid: string): set<string> {
    if sid !in s.minted then {}
    else
      set x | && x in s.sessions && x != sid
              && s.sessions[x].doc == s.minted[sid].doc && s.sessions[x].reg == s.minted[sid].reg
  }

  function Start(s: State, e: Event): State
    requires e.Push? || e.InsertRow? || e.RetireOthers?
  {
    match e
    case Push(pid, sid, purpose) =>
      if pid !in s.procs && sid !in s.minted then Goes(s, pid, Pushed(sid)).(minted := s.minted[sid := purpose]) else s
    case InsertRow(pid) =>
      (match At(s, pid)
       case Some(Pushed(sid)) =>
         if sid !in s.minted || sid in s.sessions then Without(s, pid)
         else
           var p := s.minted[sid];
           var t := s.(sessions := s.sessions[sid := Session(p.doc, p.reg, p.digest, false)]);
           if p.digest == "" then Goes(t, pid, Inserted(sid)) else Without(t, pid)
       case _ => s)
    case RetireOthers(pid) =>
      (match At(s, pid)
       case Some(Inserted(sid)) => Without(DeleteUnspent(s, OthersOf(s, sid)), pid)
       case _ => s)
  }

  /** The first statements of a poll. */
  function Read(s: State, e: Event): State
    requires e.PollLoad? || e.PollKind? || e.DeleteLate?
  {
    match e
    case PollLoad(pid, doc, sid, late) =>
      if pid in s.procs || sid !in s.sessions || s.sessions[sid].doc != doc then s
      else if s.sessions[sid].consumed then Tells(s, pid, sid, Loading)
      else Goes(s, pid, Loaded(sid, late))
    case PollKind(pid) =>
      (match At(s, pid)
       case Some(Loaded(sid, late)) =>
         if sid in s.sessions && s.sessions[sid].digest != "" then Goes(s, pid, Asking(sid, true))
         else if late then Goes(s, pid, Expiring(sid))
         else Goes(s, pid, Asking(sid, false))
       case _ => s)
    case DeleteLate(pid) =>
      (match At(s, pid)
       case Some(Expiring(sid)) =>
         if Unspent(s, sid) then Without(DeleteUnspent(s, {sid}), pid) // EXPIRED
         else Tells(s, pid, sid, DeletingLate(sid in s.sessions)) // no row deleted: COMPLETE
       case _ => s)
  }

  /** The rest of a poll: the rail's answer, and what is done with it. */
  function Finish(s: State, e: Event): State
    requires e.Ask? || e.Drop? || e.WriteSignature? || e.Recheck?
  {
    match e
    case Ask(pid, trusted) =>
      (match At(s, pid)
       case Some(Asking(sid, content)) =>
         if sid !in s.answers || sid !in s.minted then Without(s, pid)
         else (match s.answers[sid]
           case Complete(identity) =>
             // a content ceremony is trusted when the rail signed what was sent, an approval when it came
             // from the citizen it was addressed to
             if (if content then trusted else identity == s.minted[sid].reg)
             then Goes(s, pid, Writing(sid, content)) else Without(s, pid)
           case _ => Goes(s, pid, Dropping(sid)))
       case _ => s)
    case Drop(pid) =>
      (match At(s, pid)
       case Some(Dropping(sid)) => Without(s.(sessions := s.sessions - {sid}), pid)
       case _ => s)
    case WriteSignature(pid, accepted) =>
      (match At(s, pid)
       case Some(Writing(sid, content)) =>
         if accepted && Unspent(s, sid) && sid in s.minted then
           Tells(s.(ledger := s.ledger + [Row(s.minted[sid].doc, s.minted[sid].reg, Some(sid))],
                    sessions := s.sessions[sid := s.sessions[sid].(consumed := true)]), pid, sid, Recording)
         else if content then Without(s, pid) else Goes(s, pid, Refusing(sid))
       case _ => s)
    case Recheck(pid) =>
      (match At(s, pid)
       case Some(Refusing(sid)) =>
         if sid in s.sessions && s.sessions[sid].consumed then Tells(s, pid, sid, Rechecking) else Without(s, pid)
       case _ => s)
  }

  function Apply(s: State, e: Event): State {
    match e
    case Sweep(doc, stale) => DeleteUnspent(s, set sid | sid in s.sessions && s.sessions[sid].doc == doc
        && sid in stale)
    case Answered(sid, answer) => if sid in s.minted then s.(answers := s.answers[sid := answer]) else s
    case SignWithDan(doc, signer) => s.(ledger := s.ledger + [Row(doc, signer, None)])
    case Push(_, _, _) => Start(s, e)
    case InsertRow(_) => Start(s, e)
    case RetireOthers(_) => Start(s, e)
    case PollLoad(_, _, _, _) => Read(s, e)
    case PollKind(_) => Read(s, e)
    case DeleteLate(_) => Read(s, e)
    case Ask(_, _) => Finish(s, e)
    case Drop(_) => Finish(s, e)
    case WriteSignature(_, _) => Finish(s, e)
    case Recheck(_) => Finish(s, e)
  }

  function Empty(): State { State(map[], [], map[], map[], map[], []) }

  function RunFrom(s: State, events: seq<Event>): State {
    if events == [] then s else Apply(RunFrom(s, events[..|events| - 1]), events[|events| - 1])
  }

  function Run(events: seq<Event>): State { RunFrom(Empty(), events) }

  // ------------------------------------------------------------------ what each statement does to a row

  /** The statement deletes this row. */
  ghost predicate Deletes(s: State, e: Event, x: string) {
    && x in s.sessions
    && match e
       case Sweep(doc, stale) => !s.sessions[x].consumed && s.sessions[x].doc == doc && x in stale
       case RetireOthers(pid) =>
         && pid in s.procs && s.procs[pid].Inserted? && x != s.procs[pid].sid && s.procs[pid].sid in s.minted
         && !s.sessions[x].consumed && s.sessions[x].doc == s.minted[s.procs[pid].sid].doc
         && s.sessions[x].reg == s.minted[s.procs[pid].sid].reg
       case DeleteLate(pid) => pid in s.procs && s.procs[pid] == Expiring(x) && !s.sessions[x].consumed
       case Drop(pid) => pid in s.procs && s.procs[pid] == Dropping(x)
       case _ => false
  }

  /** The statement spends this row. */
  ghost predicate Spends(s: State, e: Event, x: string) {
    && x in s.sessions && x in s.minted && e.WriteSignature? && e.accepted && !s.sessions[x].consumed
    && e.pid in s.procs && s.procs[e.pid].Writing? && s.procs[e.pid].sid == x
  }

  /** In any interleaving: a row goes exactly by a sweep of its document, a later request to the same citizen on the
      same document, a poll past its deadline or a refusal of the rail, the first three only while it is unspent; and
      of one that stays nothing changes but that it is spent. */
  lemma {:induction false} RowsGoIff(s: State, e: Event, x: string)
    requires x in s.sessions
    ensures x !in Apply(s, e).sessions <==> Deletes(s, e, x)
    ensures !Deletes(s, e, x) ==>
              Apply(s, e).sessions[x] == if Spends(s, e, x) then s.sessions[x].(consumed := true) else s.sessions[x]
  {}

  /** A row comes only by the handler that pushed its ceremony, saying what it was started for. */
  lemma {:induction false} RowsComeIff(s: State, e: Event, x: string)
    requires x !in s.sessions
    ensures x in Apply(s, e).sessions <==> e.InsertRow? && e.pid in s.procs && s.procs[e.pid] == Pushed(x)
                                             && x in s.minted
    ensures x in Apply(s, e).sessions ==>
              Apply(s, e).sessions[x] == Session(s.minted[x].doc, s.minted[x].reg, s.minted[x].digest, false)
  {}

  /** The ledger grows by the citizen a spent ceremony was addressed to, by whoever signs over the other rail, and by
      nobody else. */
  lemma {:induction false} LedgerGrowsBy(s: State, e: Event)
    ensures match e
            case SignWithDan(doc, signer) => Apply(s, e).ledger == s.ledger + [Row(doc, signer, None)]
            case WriteSignature(pid, _) =>
              if pid in s.procs && s.procs[pid].Writing? && Spends(s, e, s.procs[pid].sid)
              then var sid := s.procs[pid].sid;
                   Apply(s, e).ledger == s.ledger + [Row(s.minted[sid].doc, s.minted[sid].reg, Some(sid))]
              else Apply(s, e).ledger == s.ledger
            case _ => Apply(s, e).ledger == s.ledger
  {
    match e
    case WriteSignature(pid, accepted) => assert Apply(s, e) == Finish(s, WriteSignature(pid, accepted));
    case _ =>
  }

  // ------------------------------------------------------------------ the invariant

  /** How many signatures of the ledger name this ceremony. */
  function SignaturesOf(ledger: seq<Row>, sid: string): nat {
    if ledger == [] then 0
    else SignaturesOf(ledger[..|ledger| - 1], sid) + if ledger[|ledger| - 1].session == Some(sid) then 1 else 0
  }

  ghost predicate Spent(s: State, sid: string) {
    sid in s.sessions && s.sessions[sid].consumed
  }

  ghost predicate AnsweredComplete(s: State, sid: string) {
    sid in s.answers && s.answers[sid].Complete?
  }

  /** Rows say what their ceremony was started for. */
  ghost predicate RowsMatch(s: State) {
    forall sid | sid in s.sessions ::
      && sid in s.minted
      && s.sessions[sid].doc == s.minted[sid].doc && s.sessions[sid].reg == s.minted[sid].reg
      && s.sessions[sid].digest == s.minted[sid].digest
  }

  /** Nobody is about to write the row of this ceremony. */
  ghost predicate NoPusher(s: State, sid: string) {
    forall p | p in s.procs :: !(s.procs[p].Pushed? && s.procs[p].sid == sid)
  }

  ghost predicate ProcFits(s: State, p: Proc) {
    && p.sid in s.minted
    && (if p.Pushed? then p.sid !in s.sessions else NoPusher(s, p.sid))
  }

  ghost predicate ProcsFit(s: State) {
    forall p | p in s.procs :: ProcFits(s, s.procs[p])
  }

  /** Only the process that pushed a ceremony writes its row. */
  ghost predicate OnePusher(s: State) {
    forall a, b | a in s.procs && b in s.procs && s.procs[a].Pushed? && s.procs[b].Pushed?
        && s.procs[a].sid == s.procs[b].sid ::
      a == b
  }

  /** A row that is gone and that nobody will write: it stays gone. */
  ghost predicate Gone(s: State, sid: string) {
    sid in s.minted && sid !in s.sessions && NoPusher(s, sid)
  }

  ghost predicate SpentIffSigned(s: State) {
    forall sid :: SignaturesOf(s.ledger, sid) == if Spent(s, sid) then 1 else 0
  }

  ghost predicate SignedByAddressee(s: State) {
    forall k | 0 <= k < |s.ledger| && s.ledger[k].session.Some? ::
      var sid := s.ledger[k].session.value;
      sid in s.minted && s.ledger[k].signer == s.minted[sid].reg && s.ledger[k].doc == s.minted[sid].doc
  }

  /** COMPLETE is true, except when a late poll found no row to delete because there was none. */
  ghost predicate ReportFits(s: State, r: Report) {
    if r.via == DeletingLate(false) then Gone(s, r.sid) else Spent(s, r.sid)
  }

  ghost predicate ReportsFit(s: State) {
    forall k | 0 <= k < |s.reports| :: ReportFits(s, s.reports[k])
  }

  ghost predicate Inv(s: State) {
    RowsMatch(s) && OnePusher(s) && SpentIffSigned(s) && SignedByAddressee(s) && ProcsFit(s) && ReportsFit(s)
  }

  /** The statement deletes the row of a signature: the rail had said COMPLETE, and then something else. */
  ghost predicate DropsSpent(s: State, e: Event) {
    e.Drop? && At(s, e.pid).Some? && At(s, e.pid).value.Dropping? && Spent(s, At(s, e.pid).value.sid)
  }

  /** What the rail's answers say, where they are final: spent ceremonies and those about to be were approved, and
      those about to be dropped were not. */
  ghost predicate AnswersFit(s: State) {
    && (forall sid | sid in s.sessions && s.sessions[sid].consumed :: AnsweredComplete(s, sid))
    && (forall p | p in s.procs ::
          && (s.procs[p].Writing? ==> AnsweredComplete(s, s.procs[p].sid))
          && (s.procs[p].Dropping? ==> s.procs[p].sid in s.answers && !s.answers[s.procs[p].sid].Complete?))
  }

  // ------------------------------------------------------------------ every statement keeps it

  lemma {:induction false} DeletingKeepsInv(s: State, picked: set<string>)
    requires Inv(s)
    ensures Inv(DeleteUnspent(s, picked))
  {
    var t := DeleteUnspent(s, picked);
    assert forall sid :: Spent(t, sid) <==> Spent(s, sid);
    hide SignaturesOf;
  }

  lemma {:induction false} EndingKeepsInv(s: State, pid: int)
    requires Inv(s)
    ensures Inv(Without(s, pid))
  {
    hide SignaturesOf;
    assert forall sid :: Spent(Without(s, pid), sid) <==> Spent(s, sid);
  }

  lemma {:induction false} GoingKeepsInv(s: State, pid: int, p: Proc)
    requires Inv(s) && !p.Pushed? && p.sid in s.minted && (NoPusher(s, p.sid) || NoPusher(Without(s, pid), p.sid))
    ensures Inv(Goes(s, pid, p))
  {
    hide SignaturesOf;
    var t := Goes(s, pid, p);
    assert forall sid :: Spent(t, sid) <==> Spent(s, sid);
    forall sid | NoPusher(s, sid) || NoPusher(Without(s, pid), sid) ensures NoPusher(t, sid) {
      NoPusherGoing(s, pid, p, sid);
    }
  }

  lemma {:induction false} NoPusherGoing(s: State, pid: int, p: Proc, sid: string)
    requires !p.Pushed? && (NoPusher(s, sid) || NoPusher(Without(s, pid), sid))
    ensures NoPusher(Goes(s, pid, p), sid)
  {
    forall q | q in Goes(s, pid, p).procs
        ensures !(Goes(s, pid, p).procs[q].Pushed? && Goes(s, pid, p).procs[q].sid == sid) {
      assert q != pid ==> q in Without(s, pid).procs;
    }
  }

  lemma {:induction false} TellingKeepsInv(s: State, pid: int, sid: string, via: Via)
    requires Inv(s) && ReportFits(s, Report(sid, via))
    ensures Inv(Tells(s, pid, sid, via))
  {
    EndingKeepsInv(s, pid);
    var t := Without(s, pid);
    var u := Tells(s, pid, sid, via);
    assert forall x :: Spent(u, x) <==> Spent(t, x);
    assert forall x :: NoPusher(s, x) ==> NoPusher(t, x);
    assert forall x :: NoPusher(u, x) <==> NoPusher(t, x);
    assert ReportFits(t, Report(sid, via));
    hide SignaturesOf;
  }

  lemma {:induction false} OneRowMore(ledger: seq<Row>, row: Row, sid: string)
    ensures SignaturesOf(ledger + [row], sid) == SignaturesOf(ledger, sid) + if row.session == Some(sid) then 1 else 0
  {
    assert (ledger + [row])[..|ledger|] == ledger;
  }

  /** The rail mints a fresh id, so nothing speaks of it yet. */
  lemma {:induction false} PushKeepsInv(s: State, pid: int, sid: string, purpose: Purpose)
    requires Inv(s) && pid !in s.procs && sid !in s.minted
    ensures Inv(Apply(s, Push(pid, sid, purpose)))
  {
    var t := Apply(s, Push(pid, sid, purpose));
    assert forall x :: Spent(t, x) <==> Spent(s, x);
    forall x | x != sid && NoPusher(s, x) ensures NoPusher(t, x) {}
    forall k | 0 <= k < |s.reports| ensures s.reports[k].sid in s.minted {
      assert ReportFits(s, s.reports[k]);
    }
    hide SignaturesOf;
  }

  lemma {:induction false} InsertKeepsInv(s: State, pid: int)
    requires Inv(s)
    ensures Inv(Apply(s, InsertRow(pid)))
  {
    if At(s, pid).Some? && At(s, pid).value.Pushed? {
      var sid := At(s, pid).value.sid;
      assert ProcFits(s, s.procs[pid]);
      var p := s.minted[sid];
      var t := s.(sessions := s.sessions[sid := Session(p.doc, p.reg, p.digest, false)], procs := s.procs - {pid});
      InsertedRow(s, pid, t);
      if p.digest == "" {
        GoingKeepsInv(t, pid, Inserted(sid));
      }
      hide SignaturesOf, Inv;
    }
  }

  lemma {:induction false} InsertedRow(s: State, pid: int, t: State)
    requires Inv(s) && pid in s.procs && s.procs[pid].Pushed?
    requires s.procs[pid].sid in s.minted
    requires var sid := s.procs[pid].sid; var p := s.minted[sid];
             t == s.(sessions := s.sessions[sid := Session(p.doc, p.reg, p.digest, false)], procs := s.procs - {pid})
    ensures Inv(t) && NoPusher(t, s.procs[pid].sid)
  {
    var sid := s.procs[pid].sid;
    assert ProcFits(s, s.procs[pid]);
    forall x ensures Spent(t, x) <==> Spent(s, x) {}
    forall q | q in t.procs ensures q in s.procs && ProcFits(s, s.procs[q])
        && !(t.procs[q].Pushed? && t.procs[q].sid == sid) {}
    forall x | NoPusher(s, x) ensures NoPusher(t, x) {}
    forall k | 0 <= k < |s.reports| ensures ReportFits(t, s.reports[k]) {
      assert ReportFits(s, s.reports[k]);
    }
    hide SignaturesOf;
  }

  lemma {:induction false} ReadKeepsInv(s: State, e: Event)
    requires Inv(s) && (e.PollLoad? || e.PollKind? || e.DeleteLate?)
    ensures Inv(Apply(s, e))
  {
    match e
    case PollLoad(pid, doc, sid, late) =>
      if pid !in s.procs && sid in s.sessions {
        NobodyPushesWritten(s, sid);
        if s.sessions[sid].consumed {
          TellingKeepsInv(s, pid, sid, Loading);
        } else {
          GoingKeepsInv(s, pid, Loaded(sid, late));
        }
      }
    case PollKind(pid) =>
      if At(s, pid).Some? && At(s, pid).value.Loaded? {
        var sid := At(s, pid).value.sid;
        assert ProcFits(s, s.procs[pid]);
        GoingKeepsInv(s, pid, Asking(sid, true));
        GoingKeepsInv(s, pid, Asking(sid, false));
        GoingKeepsInv(s, pid, Expiring(sid));
      }
    case DeleteLate(pid) =>
      if At(s, pid).Some? && At(s, pid).value.Expiring? {
        var sid := At(s, pid).value.sid;
        assert ProcFits(s, s.procs[pid]);
        if Unspent(s, sid) {
          DeletingKeepsInv(s, {sid});
          EndingKeepsInv(DeleteUnspent(s, {sid}), pid);
        } else {
          TellingKeepsInv(s, pid, sid, DeletingLate(sid in s.sessions));
        }
      }
  }

  lemma {:induction false} NobodyPushesWritten(s: State, sid: string)
    requires Inv(s) && sid in s.sessions
    ensures NoPusher(s, sid) && sid in s.minted
  {
    forall p | p in s.procs ensures !(s.procs[p].Pushed? && s.procs[p].sid == sid) {
      assert ProcFits(s, s.procs[p]);
    }
  }

  lemma {:induction false} AskKeepsInv(s: State, pid: int, trusted: bool)
    requires Inv(s)
    ensures Inv(Apply(s, Ask(pid, trusted)))
  {
    if At(s, pid).Some? && At(s, pid).value.Asking? {
      var sid := At(s, pid).value.sid;
      assert ProcFits(s, s.procs[pid]);
      EndingKeepsInv(s, pid);
      if sid in s.answers {
        if s.answers[sid].Complete? {
          GoingKeepsInv(s, pid, Writing(sid, At(s, pid).value.content));
        } else {
          GoingKeepsInv(s, pid, Dropping(sid));
        }
      }
    }
  }

  /** Dropping a row keeps the invariant, and loses no signature, exactly when the ceremony was never spent. */
  lemma {:induction false} DropKeepsInvIff(s: State, pid: int)
    requires Inv(s)
    ensures Inv(Apply(s, Drop(pid))) <==> !DropsSpent(s, Drop(pid))
    ensures SpentIffSigned(Apply(s, Drop(pid))) <==> !DropsSpent(s, Drop(pid))
  {
    hide SignaturesOf;
    if At(s, pid).Some? && At(s, pid).value.Dropping? {
      var sid := At(s, pid).value.sid;
      assert ProcFits(s, s.procs[pid]);
      if Spent(s, sid) {
        assert SignaturesOf(s.ledger, sid) == 1 && !Spent(Apply(s, Drop(pid)), sid);
        assert Apply(s, Drop(pid)).ledger == s.ledger;
      } else {
        assert DeleteUnspent(s, {sid}).sessions == s.sessions - {sid};
        DeletingKeepsInv(s, {sid});
        EndingKeepsInv(DeleteUnspent(s, {sid}), pid);
      }
    }
  }

  lemma {:induction false} WriteKeepsInv(s: State, pid: int, accepted: bool)
    requires Inv(s)
    ensures Inv(Apply(s, WriteSignature(pid, accepted)))
  {
    if At(s, pid).Some? && At(s, pid).value.Writing? {
      var sid := At(s, pid).value.sid;
      assert ProcFits(s, s.procs[pid]);
      if accepted && Unspent(s, sid) {
        var t := s.(ledger := s.ledger + [Row(s.minted[sid].doc, s.minted[sid].reg, Some(sid))],
                    sessions := s.sessions[sid := s.sessions[sid].(consumed := true)]);
        SpendingKeepsInv(s, sid, t);
        TellingKeepsInv(t, pid, sid, Recording);
      } else {
        EndingKeepsInv(s, pid);
        GoingKeepsInv(s, pid, Refusing(sid));
      }
    }
  }

  /** The signature and the spending of its ceremony are one transaction. */
  lemma {:induction false} SpendingKeepsInv(s: State, sid: string, t: State)
    requires Inv(s) && Unspent(s, sid) && sid in s.minted
    requires t == s.(ledger := s.ledger + [Row(s.minted[sid].doc, s.minted[sid].reg, Some(sid))],
                     sessions := s.sessions[sid := s.sessions[sid].(consumed := true)])
    ensures Inv(t) && Spent(t, sid)
  {
    var row := Row(s.minted[sid].doc, s.minted[sid].reg, Some(sid));
    forall x ensures SignaturesOf(t.ledger, x) == if Spent(t, x) then 1 else 0 {
      OneRowMore(s.ledger, row, x);
      assert x != sid ==> (Spent(t, x) <==> Spent(s, x));
    }
    hide SignaturesOf, SpentIffSigned;
    forall x ensures NoPusher(t, x) <==> NoPusher(s, x) {}
    assert ReportsFit(t) by {
      forall k | 0 <= k < |s.reports| ensures ReportFits(t, t.reports[k]) {
        assert ReportFits(s, s.reports[k]);
      }
    }
    assert ProcsFit(t) by {
      forall p | p in s.procs ensures ProcFits(t, s.procs[p]) {
        assert ProcFits(s, s.procs[p]);
      }
    }
    assert SpentIffSigned(t) by { SpentIffSignedAt(t); }
  }

  lemma {:induction false} SpentIffSignedAt(t: State)
    requires forall x :: SignaturesOf(t.ledger, x) == if Spent(t, x) then 1 else 0
    ensures SpentIffSigned(t)
  {}

  lemma {:induction false} RecheckKeepsInv(s: State, pid: int)
    requires Inv(s)
    ensures Inv(Apply(s, Recheck(pid)))
  {
    if At(s, pid).Some? && At(s, pid).value.Refusing? {
      EndingKeepsInv(s, pid);
      if Spent(s, At(s, pid).value.sid) {
        TellingKeepsInv(s, pid, At(s, pid).value.sid, Rechecking);
      }
    }
  }

  lemma {:induction false} AnswerKeepsInv(s: State, sid: string, answer: Answer)
    requires Inv(s)
    ensures Inv(Apply(s, Answered(sid, answer)))
  {
    hide SignaturesOf;
    var t := Apply(s, Answered(sid, answer));
    forall x ensures Spent(t, x) <==> Spent(s, x) {}
    forall x ensures NoPusher(t, x) <==> NoPusher(s, x) {}
    forall p | p in s.procs ensures ProcFits(t, s.procs[p]) {
      assert ProcFits(s, s.procs[p]);
    }
    forall k | 0 <= k < |s.reports| ensures ReportFits(t, t.reports[k]) {
      assert ReportFits(s, s.reports[k]);
    }
  }

  lemma {:induction false} DanKeepsInv(s: State, doc: int, signer: string)
    requires Inv(s)
    ensures Inv(Apply(s, SignWithDan(doc, signer)))
  {
    var t := Apply(s, SignWithDan(doc, signer));
    forall x ensures SignaturesOf(t.ledger, x) == SignaturesOf(s.ledger, x) {
      OneRowMore(s.ledger, Row(doc, signer, None), x);
    }
    forall x ensures Spent(t, x) <==> Spent(s, x) {}
    forall x ensures NoPusher(t, x) <==> NoPusher(s, x) {}
    hide SignaturesOf;
  }

  lemma {:induction false} ApplyKeepsInv(s: State, e: Event)
    requires Inv(s) && !DropsSpent(s, e)
    ensures Inv(Apply(s, e))
  {
    hide Inv;
    match e
    case Push(pid, sid, purpose) => if pid !in s.procs && sid !in s.minted { PushKeepsInv(s, pid, sid, purpose); }
    case InsertRow(pid) => InsertKeepsInv(s, pid);
    case RetireOthers(pid) =>
      if At(s, pid).Some? && At(s, pid).value.Inserted? {
        var picked := OthersOf(s, At(s, pid).value.sid);
        DeletingKeepsInv(s, picked);
        EndingKeepsInv(DeleteUnspent(s, picked), pid);
      }
    case Sweep(doc, stale) => DeletingKeepsInv(s, set sid | sid in s.sessions && s.sessions[sid].doc == doc
        && sid in stale);
    case Answered(sid, answer) => AnswerKeepsInv(s, sid, answer);
    case PollLoad(_, _, _, _) => ReadKeepsInv(s, e);
    case PollKind(_) => ReadKeepsInv(s, e);
    case DeleteLate(_) => ReadKeepsInv(s, e);
    case Ask(pid, trusted) => AskKeepsInv(s, pid, trusted);
    case Drop(pid) => DropKeepsInvIff(s, pid);
    case WriteSignature(pid, accepted) => WriteKeepsInv(s, pid, accepted);
    case Recheck(pid) => RecheckKeepsInv(s, pid);
    case SignWithDan(doc, signer) => DanKeepsInv(s, doc, signer);
  }

  lemma {:induction false} StartKeepsAnswers(s: State, e: Event)
    requires AnswersFit(s) && (e.Push? || e.InsertRow? || e.RetireOthers?)
    ensures AnswersFit(Start(s, e))
  {}

  lemma {:induction false} ReadKeepsAnswers(s: State, e: Event)
    requires AnswersFit(s) && (e.PollLoad? || e.PollKind? || e.DeleteLate?)
    ensures AnswersFit(Read(s, e))
  {}

  lemma {:induction false} AskKeepsAnswers(s: State, e: Event)
    requires AnswersFit(s) && (e.Ask? || e.Drop? || e.Recheck?)
    ensures AnswersFit(Finish(s, e))
  {}

  lemma {:induction false} WriteKeepsAnswers(s: State, pid: int, accepted: bool)
    requires AnswersFit(s)
    ensures AnswersFit(Finish(s, WriteSignature(pid, accepted)))
  {}

  /** Where a rail does not change its mind, its answers go on fitting. */
  lemma {:induction false} ApplyKeepsAnswers(s: State, e: Event)
    requires AnswersFit(s)
    requires e.Answered? && e.sid in s.answers ==> e.answer == s.answers[e.sid]
    ensures AnswersFit(Apply(s, e))
  {
    hide Start, Read, Finish;
    match e
    case Push(_, _, _) => StartKeepsAnswers(s, e);
    case InsertRow(_) => StartKeepsAnswers(s, e);
    case RetireOthers(_) => StartKeepsAnswers(s, e);
    case PollLoad(_, _, _, _) => ReadKeepsAnswers(s, e);
    case PollKind(_) => ReadKeepsAnswers(s, e);
    case DeleteLate(_) => ReadKeepsAnswers(s, e);
    case Ask(_, _) => AskKeepsAnswers(s, e);
    case Drop(_) => AskKeepsAnswers(s, e);
    case Recheck(_) => AskKeepsAnswers(s, e);
    case WriteSignature(pid, accepted) => WriteKeepsAnswers(s, pid, accepted);
    case Sweep(_, _) =>
    case Answered(_, _) =>
    case SignWithDan(_, _) =>
  }

  /** And then no row of a signature is ever dropped. */
  lemma {:induction false} FinalDropsNothing(s: State, e: Event)
    requires AnswersFit(s)
    ensures !DropsSpent(s, e)
  {}
}
