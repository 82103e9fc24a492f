/** The two handlers as they run when nothing comes between their statements. Each is held to its own
    sequence of steps, so what EidSessions proves of every interleaving is about this code.

    A poll is seven statements, of which its branch reaches only some; the others find no process to continue and do
    nothing. One lemma for each branch says where the seven lead: nothing found or already spent, too late, no answer
    yet, refused, approved by somebody else, approved. */
module EidHandlers {
  import opened Wrappers
  import opened EidSteps

  datatype Progress = Unknown | Running | Over(answer: Answer) | TooLate | Done | NotAccepted

  /** A poll's statements in order; the ones its branch does not reach do nothing. */
  function PollSteps(pid: int, doc: int, sid: string, late: bool, trusted: bool, accepted: bool): seq<Event> {
    [PollLoad(pid, doc, sid, late), PollKind(pid), DeleteLate(pid), Ask(pid, trusted), Drop(pid),
        WriteSignature(pid, accepted), Recheck(pid)]
  }

  function StartSteps(pid: int, sid: string, purpose: Purpose): seq<Event> {
    [Push(pid, sid, purpose), InsertRow(pid), RetireOthers(pid)]
  }

  // ------------------------------------------------------------------ the paths of a poll

  lemma {:induction false} OneStep(s: State, events: seq<Event>, k: nat)
    requires k < |events|
    ensures RunFrom(s, events[..k + 1]) == Apply(RunFrom(s, events[..k]), events[k])
  {
    assert events[..k + 1][..k] == events[..k];
  }

  lemma {:induction false} ThreeSteps(s: State, e: seq<Event>)
    requires |e| == 3
    ensures RunFrom(s, e) == Apply(Apply(Apply(s, e[0]), e[1]), e[2])
  {
    hide Apply;
    OneStep(s, e, 0);
    OneStep(s, e, 1);
    OneStep(s, e, 2);
    assert e[..0] == [] && e[..3] == e;
  }

  lemma {:induction false} SevenSteps(s: State, e: seq<Event>)
    requires |e| == 7
    ensures RunFrom(s, e) == Apply(Apply(Apply(Apply(RunFrom(s, e[..3]), e[3]), e[4]), e[5]), e[6])
    ensures RunFrom(s, e[..3]) == Apply(Apply(Apply(s, e[0]), e[1]), e[2])
  {
    hide Apply;
    ThreeSteps(s, e[..3]);
    OneStep(s, e, 3);
    OneStep(s, e, 4);
    OneStep(s, e, 5);
    OneStep(s, e, 6);
    assert e[..7] == e;
  }

  ghost predicate StepOf(e: Event, pid: int) {
    e in {PollKind(pid), DeleteLate(pid), Drop(pid), Recheck(pid)}
    || (e.Ask? && e.pid == pid) || (e.WriteSignature? && e.pid == pid)
  }

  /** A handler that has ended takes no more steps. */
  lemma {:induction false} Idle(s: State, pid: int, e: Event)
    requires pid !in s.procs && StepOf(e, pid)
    ensures Apply(s, e) == s
  {
    assert At(s, pid) == None;
  }

  lemma {:induction false} Ends(s: State, pid: int, p: Proc)
    requires pid !in s.procs
    ensures Without(Goes(s, pid, p), pid) == s && Without(s, pid) == s
    ensures forall q :: Goes(Goes(s, pid, q), pid, p) == Goes(s, pid, p)
  {
    assert s.procs[pid := p] - {pid} == s.procs && s.procs - {pid} == s.procs;
    forall q ensures Goes(Goes(s, pid, q), pid, p) == Goes(s, pid, p) {
      assert s.procs[pid := q][pid := p] == s.procs[pid := p];
    }
  }

  /** The poll that finds nothing, or finds the ceremony spent, ends with its first statement. */
  lemma {:induction false} PollStops(s: State, pid: int, doc: int, sid: string, late: bool, trusted: bool,
      accepted: bool)
    requires pid !in s.procs && (Unspent(s, sid) ==> s.sessions[sid].doc != doc)
    ensures RunFrom(s, PollSteps(pid, doc, sid, late, trusted, accepted))
            == if sid in s.sessions
                && s.sessions[sid].doc == doc then s.(reports := s.reports + [Report(sid, Loading)]) else s
  {
    var e := PollSteps(pid, doc, sid, late, trusted, accepted);
    SevenSteps(s, e);
    var t := Apply(s, e[0]);
    Ends(s, pid, Loaded(sid, late));
    hide Apply;
    Idle(t, pid, e[1]);
    Idle(t, pid, e[2]);
    Idle(t, pid, e[3]);
    Idle(t, pid, e[4]);
    Idle(t, pid, e[5]);
    Idle(t, pid, e[6]);
  }

  /** An unspent ceremony is loaded and its branch chosen. */
  lemma {:induction false} LoadAndChoose(s: State, pid: int, doc: int, sid: string, late: bool)
    requires pid !in s.procs && Unspent(s, sid) && s.sessions[sid].doc == doc
    ensures Apply(Apply(s, PollLoad(pid, doc, sid, late)), PollKind(pid))
            == Goes(s, pid, if s.sessions[sid].digest != "" then Asking(sid, true) else if late then Expiring(sid)
                else Asking(sid, false))
  {
    Ends(s, pid, Asking(sid, true));
    Ends(s, pid, Asking(sid, false));
    Ends(s, pid, Expiring(sid));
    assert Apply(s, PollLoad(pid, doc, sid, late)) == Goes(s, pid, Loaded(sid, late));
  }

  lemma {:induction false} DeletesLate(s: State, pid: int, sid: string)
    requires pid !in s.procs && Unspent(s, sid)
    ensures Apply(Goes(s, pid, Expiring(sid)), DeleteLate(pid)) == s.(sessions := s.sessions - {sid})
  {
    var g := Goes(s, pid, Expiring(sid));
    assert Apply(g, DeleteLate(pid)) == Without(DeleteUnspent(g, {sid}), pid);
    assert g.procs - {pid} == s.procs;
    assert DeleteUnspent(g, {sid}).sessions == s.sessions - {sid};
  }

  /** Past the deadline, an unspent approval is deleted. */
  lemma {:induction false} PollIsLate(s: State, pid: int, doc: int, sid: string, trusted: bool, accepted: bool)
    requires pid !in s.procs && Unspent(s, sid) && s.sessions[sid].doc == doc && s.sessions[sid].digest == ""
    ensures RunFrom(s, PollSteps(pid, doc, sid, true, trusted, accepted)) == s.(sessions := s.sessions - {sid})
  {
    hide Apply;
    var e := PollSteps(pid, doc, sid, true, trusted, accepted);
    SevenSteps(s, e);
    var t := s.(sessions := s.sessions - {sid});
    LoadAndChoose(s, pid, doc, sid, true);
    DeletesLate(s, pid, sid);
    Idle(t, pid, e[3]);
    Idle(t, pid, e[4]);
    Idle(t, pid, e[5]);
    Idle(t, pid, e[6]);
  }

  /** Otherwise the rail is asked. */
  lemma {:induction false} PollAsks(s: State, pid: int, doc: int, sid: string, late: bool, trusted: bool,
      accepted: bool)
    requires pid !in s.procs && Unspent(s, sid) && s.sessions[sid].doc == doc && (late ==> s.sessions[sid].digest != "")
    ensures RunFrom(s, PollSteps(pid, doc, sid, late, trusted, accepted))
            == Apply(Apply(Apply(Apply(Goes(s, pid, Asking(sid, s.sessions[sid].digest != "")),
                 Ask(pid, trusted)), Drop(pid)), WriteSignature(pid, accepted)), Recheck(pid))
  {
    var e := PollSteps(pid, doc, sid, late, trusted, accepted);
    var asking := Goes(s, pid, Asking(sid, s.sessions[sid].digest != ""));
    assert Apply(asking, DeleteLate(pid)) == asking;
    hide Apply;
    SevenSteps(s, e);
    LoadAndChoose(s, pid, doc, sid, late);
  }

  /** No answer yet, or an approval that is not this ceremony's: nothing changes. */
  lemma {:induction false} AskedInVain(s: State, pid: int, sid: string, content: bool, trusted: bool, accepted: bool)
    requires pid !in s.procs && sid in s.minted
    requires sid in s.answers ==>
               s.answers[sid].Complete? && !(if content then trusted else s.answers[sid].identity == s.minted[sid].reg)
    ensures Apply(Apply(Apply(Apply(Goes(s, pid, Asking(sid, content)), Ask(pid, trusted)), Drop(pid)),
            WriteSignature(pid, accepted)), Recheck(pid)) == s
  {
    Ends(s, pid, Asking(sid, content));
    assert Apply(Goes(s, pid, Asking(sid, content)), Ask(pid, trusted)) == s;
    hide Apply;
    Idle(s, pid, Drop(pid));
    Idle(s, pid, WriteSignature(pid, accepted));
    Idle(s, pid, Recheck(pid));
  }

  lemma {:induction false} AskedAndRefused(s: State, pid: int, sid: string, content: bool, trusted: bool,
      accepted: bool)
    requires pid !in s.procs && sid in s.minted && sid in s.answers && !s.answers[sid].Complete?
    ensures Apply(Apply(Apply(Apply(Goes(s, pid, Asking(sid, content)), Ask(pid, trusted)), Drop(pid)),
            WriteSignature(pid, accepted)), Recheck(pid))
            == s.(sessions := s.sessions - {sid})
  {
    Ends(s, pid, Dropping(sid));
    assert Apply(Goes(s, pid, Asking(sid, content)), Ask(pid, trusted)) == Goes(s, pid, Dropping(sid));
    var t := s.(sessions := s.sessions - {sid});
    Ends(t, pid, Dropping(sid));
    assert Apply(Goes(s, pid, Dropping(sid)), Drop(pid)) == t;
    hide Apply;
    Idle(t, pid, WriteSignature(pid, accepted));
    Idle(t, pid, Recheck(pid));
  }

  /** The approval of the citizen it was addressed to: signed and spent together, or nothing changes. */
  lemma {:induction false} AskedAndApproved(s: State, pid: int, sid: string, content: bool, trusted: bool,
      accepted: bool)
    requires pid !in s.procs && sid in s.minted && Unspent(s, sid) && sid in s.answers && s.answers[sid].Complete?
    requires if content then trusted else s.answers[sid].identity == s.minted[sid].reg
    ensures Apply(Apply(Apply(Apply(Goes(s, pid, Asking(sid, content)), Ask(pid, trusted)), Drop(pid)),
            WriteSignature(pid, accepted)), Recheck(pid))
            == if !accepted then s
               else s.(ledger := s.ledger + [Row(s.minted[sid].doc, s.minted[sid].reg, Some(sid))],
                       sessions := s.sessions[sid := s.sessions[sid].(consumed := true)],
                       reports := s.reports + [Report(sid, Recording)])
  {
    var w := Goes(s, pid, Writing(sid, content));
    Ends(s, pid, Writing(sid, content));
    assert Apply(Goes(s, pid, Asking(sid, content)), Ask(pid, trusted)) == w;
    assert Apply(w, Drop(pid)) == w;
    WriteStep(s, pid, sid, content, accepted);
    hide Apply;
  }

  lemma {:induction false} WriteStep(s: State, pid: int, sid: string, content: bool, accepted: bool)
    requires pid !in s.procs && sid in s.minted && Unspent(s, sid)
    ensures Apply(Apply(Goes(s, pid, Writing(sid, content)), WriteSignature(pid, accepted)), Recheck(pid))
            == if !accepted then s
               else s.(ledger := s.ledger + [Row(s.minted[sid].doc, s.minted[sid].reg, Some(sid))],
                       sessions := s.sessions[sid := s.sessions[sid].(consumed := true)],
                       reports := s.reports + [Report(sid, Recording)])
  {
    Ends(s, pid, Writing(sid, content));
    Ends(s, pid, Refusing(sid));
    var w := Goes(s, pid, Writing(sid, content));
    if !accepted && !content {
      assert Apply(w, WriteSignature(pid, accepted)) == Goes(s, pid, Refusing(sid));
    }
  }

  /** A start's row stands, and for an approval the earlier ones to the same citizen are retired. */
  lemma {:induction false} StartIs(s: State, pid: int, sid: string, purpose: Purpose)
    requires pid !in s.procs && sid !in s.minted && sid !in s.sessions
    ensures var t := s.(minted := s.minted[sid := purpose],
                        sessions := s.sessions[sid := Session(purpose.doc, purpose.reg, purpose.digest, false)]);
            RunFrom(s, StartSteps(pid, sid, purpose))
                == if purpose.digest == "" then DeleteUnspent(t, OthersOf(t, sid)) else t
  {
    var e := StartSteps(pid, sid, purpose);
    ThreeSteps(s, e);
    var m := s.(minted := s.minted[sid := purpose]);
    var t := m.(sessions := s.sessions[sid := Session(purpose.doc, purpose.reg, purpose.digest, false)]);
    assert Apply(s, e[0]) == Goes(m, pid, Pushed(sid));
    Ends(t, pid, Pushed(sid));
    Ends(t, pid, Inserted(sid));
    assert Apply(Goes(m, pid, Pushed(sid)), e[1]) == if purpose.digest == "" then Goes(t, pid, Inserted(sid)) else t;
    assert purpose.digest == "" ==>
        Without(DeleteUnspent(Goes(t, pid, Inserted(sid)), OthersOf(t, sid)), pid)
            == DeleteUnspent(t, OthersOf(t, sid));
    assert OthersOf(Goes(t, pid, Inserted(sid)), sid) == OthersOf(t, sid);
  }

  /** What a start retires, as its DELETE says it. */
  lemma {:induction false} RetiredAre(t: State, sid: string, purpose: Purpose)
    requires sid in t.minted && t.minted[sid] == purpose
    ensures DeleteUnspent(t, OthersOf(t, sid))
            == t.(sessions := map x | x in t.sessions
                 && (t.sessions[x].consumed || x == sid || t.sessions[x].doc != purpose.doc
                     || t.sessions[x].reg != purpose.reg) :: t.sessions[x])
  {}

  // ------------------------------------------------------------------ the handlers

  class EidDesk {
    var sessions: map<string, Session>
    var ledger: seq<Row>
    var minted: map<string, Purpose>
    var answers: map<string, Answer>
    ghost var procs: map<int, Proc>
    ghost var reports: seq<Report>

    ghost function Contents(): State
      reads this
    {
      State(sessions, ledger, minted, answers, procs, reports)
    }

    constructor ()
      ensures Contents() == Empty()
    {
      sessions, ledger, minted, answers, procs, reports := map[], [], map[], map[], map[], [];
    }

    /** Rows say what their ceremony was started for, as they do in every run. */
    ghost predicate Valid()
      reads this
    {
      RowsMatch(Contents())
    }

    /** StartEIDSignature from the push on: `sid` is the id the rail minted. */
    method Start(ghost pid: int, sid: string, purpose: Purpose)
      requires pid !in procs && sid !in minted && sid !in sessions
      modifies this
      ensures Contents() == RunFrom(old(Contents()), StartSteps(pid, sid, purpose))
      ensures procs == old(procs) && ledger == old(ledger) && sid in sessions && !sessions[sid].consumed
      ensures sessions[sid] == Session(purpose.doc, purpose.reg, purpose.digest, false)
      ensures forall x | x in sessions && x != sid :: x in old(sessions) && sessions[x] == old(sessions)[x]
      ensures forall x | x in old(sessions) ::
                x !in sessions <==> && purpose.digest == "" && !old(sessions)[x].consumed
                                    && old(sessions)[x].doc == purpose.doc && old(sessions)[x].reg == purpose.reg
    {
      StartIs(Contents(), pid, sid, purpose);
      hide RunFrom, Apply, DeleteUnspent, OthersOf;
      minted := minted[sid := purpose];
      sessions := sessions[sid := Session(purpose.doc, purpose.reg, purpose.digest, false)];
      if purpose.digest == "" {
        RetiredAre(Contents(), sid, purpose);
        sessions := map x | x in sessions
          && (sessions[x].consumed || x == sid || sessions[x].doc != purpose.doc || sessions[x].reg != purpose.reg) ::
             sessions[x];
      }
    }

    /** PollEIDSignature: `late`, `trusted` and `accepted` are the clock, the rail's own check of what it
        signed and the document's answer. */
    method Poll(ghost pid: int, doc: int, sid: string, late: bool, trusted: bool, accepted: bool) returns (r: Progress)
      requires Valid() && pid !in procs
      modifies this
      ensures Contents() == RunFrom(old(Contents()), PollSteps(pid, doc, sid, late, trusted, accepted))
      ensures procs == old(procs)
      ensures r.Done? <==> reports != old(reports)
      ensures if sid !in old(sessions) || old(sessions)[sid].doc != doc then r == Unknown
              else
                var row := old(sessions)[sid];
                if row.consumed then r == Done
                else if row.digest == "" && late then r == TooLate
                else if sid !in answers then r == Running
                else match answers[sid]
                     case Complete(identity) =>
                       if (if row.digest != "" then trusted else identity == row.reg) && accepted
                       then r == Done && ledger == old(ledger) + [Row(doc, row.reg, Some(sid))]
                       else r == NotAccepted
                     case _ => r == Over(answers[sid])
      ensures r != Done ==> ledger == old(ledger)
      ensures forall x | x in old(sessions) && x != sid :: x in sessions && sessions[x] == old(sessions)[x]
      ensures sid in old(sessions) ==> (sid !in sessions <==> r == TooLate || r.Over?)
    {
      ghost var was := Contents();
      hide RunFrom, Apply;
      if sid !in sessions || sessions[sid].doc != doc {
        PollStops(was, pid, doc, sid, late, trusted, accepted);
        return Unknown;
      }
      var session := sessions[sid];
      if session.consumed {
        PollStops(was, pid, doc, sid, late, trusted, accepted);
        reports := reports + [Report(sid, Loading)];
        return Done;
      }
      var content := session.digest != "";
      if !content && late {
        PollIsLate(was, pid, doc, sid, trusted, accepted);
        sessions := sessions - {sid};
        return TooLate;
      }
      PollAsks(was, pid, doc, sid, late, trusted, accepted);
      if sid !in answers {
        AskedInVain(was, pid, sid, content, trusted, accepted);
        return Running;
      }
      if !answers[sid].Complete? {
        AskedAndRefused(was, pid, sid, content, trusted, accepted);
        sessions := sessions - {sid};
        return Over(answers[sid]);
      }
      // the approval has to come from the citizen the request was addressed to
      if !(if content then trusted else answers[sid].identity == session.reg) {
        AskedInVain(was, pid, sid, content, trusted, accepted);
        return NotAccepted;
      }
      AskedAndApproved(was, pid, sid, content, trusted, accepted);
      if !accepted { return NotAccepted; }
      ledger := ledger + [Row(doc, session.reg, Some(sid))];
      sessions := sessions[sid := session.(consumed := true)];
      reports := reports + [Report(sid, Recording)];
      return Done;
    }
  }
}
