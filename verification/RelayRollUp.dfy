/** The roll-up at one installation (modules/urtuu/envelopes.go, tasks.go, handlers.go): a delegated task
    completes once every branch of it has. A task's id is its place in the list of rows, so a branch comes
    after the task it was split from. */
module RelayRollUp {
  import opened Wrappers
  import opened Text
  import opened RelayRules

  /** `target` names the office a branch was given to; a task without one is this installation's own. */
  datatype Row = Row(parent: Option<nat>, target: Option<string>, line: Line, status: Status, answer: string)

  predicate BranchOf(r: Row, parent: nat) { r.parent == Some(parent) && r.target.Some? }

  /** A branch that is not COMPLETED, a CLOSED one among them. */
  predicate Outstanding(rows: seq<Row>, parent: nat) {
    exists i :: 0 <= i < |rows| && BranchOf(rows[i], parent) && rows[i].status != Completed
  }

  /** The table's own refusal: a service request is not finished with nothing to tell the applicant. */
  predicate Storable(r: Row) {
    !(r.line == Service && r.target.None? && (r.status == Completed || r.status == Closed) && r.answer == "")
  }

  /** move: one transition, if the status table and the schema allow it. */
  predicate MayMove(r: Row, to: Status) {
    CanMoveTo(r.status, to) && Storable(r.(status := to))
  }

  // ------------------------------------------------------------------ gathering and climbing

  function BranchAnswers(rows: seq<Row>, parent: nat): seq<Branch> {
    if rows == [] then []
    else
      var init, last := BranchAnswers(rows[..|rows| - 1], parent), rows[|rows| - 1];
      if BranchOf(last, parent) && last.answer != "" then init + [Branch(last.target.value, last.answer)] else init
  }

  /** Nothing on the assignment line, and nothing over an answer already written. */
  function Gathered(rows: seq<Row>, parent: nat): seq<Row>
    requires parent < |rows|
  {
    var r := rows[parent];
    var answer := Joined(BranchAnswers(rows, parent));
    if r.line != Service || Trim(r.answer) != "" || answer == "" then rows else rows[parent := r.(answer := answer)]
  }

  function RolledUp(rows: seq<Row>, parent: nat): (t: seq<Row>)
    ensures |t| == |rows|
    decreases parent
  {
    if parent >= |rows| || Outstanding(rows, parent) then rows
    else
      var g := Gathered(rows, parent);
      if !MayMove(g[parent], Completed) then g
      else
        var m := g[parent := g[parent].(status := Completed)];
        if m[parent].parent.Some? && m[parent].parent.value < parent then RolledUp(m, m[parent].parent.value) else m
  }

  class Board {
    var rows: seq<Row>

    /** rollUp, as it runs. The parent's row is older than the branch's, so the climb ends. */
    method RollUp(parent: nat)
      requires parent < |rows| && forall i: nat | i < |rows| && rows[i].parent.Some? :: rows[i].parent.value < i
      modifies this
      ensures rows == RolledUp(old(rows), parent)
      decreases parent
    {
      var outstanding := 0;
      for i := 0 to |rows|
        invariant outstanding == 0
                  <==> forall j | 0 <= j < i :: !(BranchOf(rows[j], parent) && rows[j].status != Completed)
        invariant rows == old(rows)
      {
        if BranchOf(rows[i], parent) && rows[i].status != Completed { outstanding := outstanding + 1; }
      }
      if outstanding > 0 { return; }
      GatherAnswers(parent);
      ghost var gathered := rows;
      if !MayMove(rows[parent], Completed) { return; }
      rows := rows[parent := rows[parent].(status := Completed)];
      if rows[parent].parent.Some? {
        RollUp(rows[parent].parent.value);
      }
    }

    method GatherAnswers(parent: nat)
      requires parent < |rows|
      modifies this
      ensures rows == Gathered(old(rows), parent)
      ensures var r, joined := old(rows)[parent], Joined(BranchAnswers(old(rows), parent));
              rows == if r.line == Service && Trim(r.answer) == "" && joined != ""
                      then old(rows)[parent := r.(answer := joined)] else old(rows)
    {
      if rows[parent].line != Service || Trim(rows[parent].answer) != "" { return; }
      var branches: seq<Branch> := [];
      for i := 0 to |rows|
        invariant branches == BranchAnswers(rows[..i], parent) && rows == old(rows)
      {
        assert rows[..i + 1][..i] == rows[..i];
        if BranchOf(rows[i], parent) && rows[i].answer != "" {
          branches := branches + [Branch(rows[i].target.value, rows[i].answer)];
        }
      }
      assert rows[..|rows|] == rows;
      var answer := JoinAnswers(branches);
      if answer == "" { return; }
      rows := rows[parent := rows[parent].(answer := answer)];
    }

    /** transition: accept, assign, return, complete or close, by hand. The answer is written before the move and
        stays when the move is refused. */
    method Transition(task: nat, to: Status, answer: string) returns (moved: bool)
      requires task < |rows| && to != Delegated && Placed(rows)
      modifies this
      ensures rows == Apply(old(rows), Move(task, to, answer))
      ensures var was := old(rows)[task];
              var said := if answer != "" then answer else was.answer;
              var mute := was.line == Service && was.target.None? && said == "";
              && (moved <==> CanMoveTo(was.status, to) && !(mute && was.status in {Completed, Closed})
                             && !(mute && to in {Completed, Closed}))
              && (mute && was.status in {Completed, Closed} ==> rows == old(rows))
              && (!moved && !(mute && was.status in {Completed, Closed}) ==>
                    rows == old(rows)[task := was.(answer := said)])
              && (moved ==>
                    var t := old(rows)[task := was.(answer := said, status := to)];
                    rows == if to == Completed && was.parent.Some? then RolledUp(t, was.parent.value) else t)
    {
      hide RolledUp, Outstanding, Gathered;
      var r := rows[task];
      if answer != "" {
        r := r.(answer := answer);
      }
      if !Storable(r) { return false; }
      rows := rows[task := r];
      if !MayMove(r, to) { return false; }
      rows := rows[task := r.(status := to)];
      assert rows == old(rows)[task := r.(status := to)];
      moved := true;
      if to == Completed && rows[task].parent.Some? {
        RollUp(rows[task].parent.value);
      }
    }

    /** receiveUpdate: news of a branch, taken only if it does not go back; an unknown status is not news. */
    method ReceiveUpdate(task: nat, status: Status, answer: string)
      requires task < |rows| && Placed(rows)
      modifies this
      ensures rows == Apply(old(rows), Hear(task, status, answer))
      ensures var was := old(rows)[task];
              if was.target.None? || !Known(status) || !SupersededBy(was.status, status) then rows == old(rows)
              else
                var t := old(rows)[task := was.(status := status, answer := if answer != "" then answer
                                                                            else was.answer)];
                rows == if was.parent.Some? then RolledUp(t, was.parent.value) else t
    {
      hide RolledUp, Outstanding, Gathered;
      if !Known(status) || rows[task].target.None? || !SupersededBy(rows[task].status, status) { return; }
      var r := rows[task].(status := status);
      if answer != "" {
        r := r.(answer := answer);
      }
      rows := rows[task := r];
      if rows[task].parent.Some? {
        RollUp(rows[task].parent.value);
      }
    }

    /** handleDelegate: the branches first, committed on their own, and only then the move. */
    method DelegateTask(task: nat, peers: seq<string>) returns (moved: bool)
      requires task < |rows|
      modifies this
      ensures rows == Apply(old(rows), Delegate(task, peers))
      ensures moved <==> peers != [] && MayMove(old(rows)[task], Delegated)
      ensures moved <==> peers != [] && old(rows)[task].status in {Accepted, InProgress}
      ensures var n, was := |old(rows)|, old(rows)[task];
              && |rows| == n + |peers|
              && (forall i | 0 <= i < n ::
                    rows[i] == if i == task && moved then was.(status := Delegated) else old(rows)[i])
              && (forall i | 0 <= i < |peers| ::
                    rows[n + i] == Row(Some(task), Some(peers[i]), was.line, Received, ""))
    {
      if |peers| == 0 { return false; }
      for i := 0 to |peers|
        invariant rows == old(rows) + Branches(task, old(rows)[task].line, peers[..i])
      {
        assert Branches(task, old(rows)[task].line, peers[..i + 1])
            == Branches(task, old(rows)[task].line, peers[..i])
                + [Row(Some(task), Some(peers[i]), old(rows)[task].line, Received, "")];
        rows := rows + [Row(Some(task), Some(peers[i]), rows[task].line, Received, "")];
      }
      assert peers[..|peers|] == peers;
      if !MayMove(rows[task], Delegated) { return false; }
      rows := rows[task := rows[task].(status := Delegated)];
      moved := true;
    }
  }

  // ------------------------------------------------------------------ what a roll-up does

  /** Nothing but statuses and answers. */
  ghost predicate SameShape(a: seq<Row>, b: seq<Row>) {
    && |a| == |b|
    && forall i | 0 <= i < |a| :: a[i].parent == b[i].parent && a[i].target == b[i].target && a[i].line == b[i].line
  }

  /** Statuses that only rise to COMPLETED. */
  ghost predicate OnlyCompletes(a: seq<Row>, b: seq<Row>) {
    SameShape(a, b) && forall i | 0 <= i < |a| :: b[i].status == a[i].status || b[i].status == Completed
  }

  lemma {:induction false} GatherChangesAnAnswer(rows: seq<Row>, parent: nat)
    requires parent < |rows|
    ensures var g := Gathered(rows, parent);
            SameShape(rows, g) && forall i | 0 <= i < |rows| ::
                g[i].status == rows[i].status && (i != parent ==> g[i] == rows[i])
  {}

  /** The climb touches nothing younger than where it starts. */
  lemma {:induction false} YoungerStay(rows: seq<Row>, parent: nat, j: nat)
    requires parent < j < |rows|
    ensures RolledUp(rows, parent)[j] == rows[j]
    decreases parent
  {
    if !Outstanding(rows, parent) {
      var g := Gathered(rows, parent);
      GatherChangesAnAnswer(rows, parent);
      if MayMove(g[parent], Completed) && g[parent].parent.Some? && g[parent].parent.value < parent {
        YoungerStay(g[parent := g[parent].(status := Completed)], g[parent].parent.value, j);
      }
    }
  }

  lemma {:induction false} RollUpOnlyCompletes(rows: seq<Row>, parent: nat)
    ensures OnlyCompletes(rows, RolledUp(rows, parent))
    decreases parent
  {
    if parent < |rows| && !Outstanding(rows, parent) {
      var g := Gathered(rows, parent);
      GatherChangesAnAnswer(rows, parent);
      if MayMove(g[parent], Completed) && g[parent].parent.Some? && g[parent].parent.value < parent {
        RollUpOnlyCompletes(g[parent := g[parent].(status := Completed)], g[parent].parent.value);
      }
    }
  }

  /** Completing rows leaves none of them outstanding that was not. */
  lemma {:induction false} CompletingKeeps(a: seq<Row>, b: seq<Row>, parent: nat)
    requires OnlyCompletes(a, b) && !Outstanding(a, parent)
    ensures !Outstanding(b, parent)
  {}

  /** Sound: a roll-up changes a status only to COMPLETED, only where the table and the schema allow it, and
      only where every branch is complete. */
  lemma {:induction false} RollUpIsSound(rows: seq<Row>, parent: nat, i: nat)
    requires i < |rows|
    ensures var t := RolledUp(rows, parent);
            t[i].status != rows[i].status ==>
              t[i].status == Completed && CanMoveTo(rows[i].status, Completed) && Storable(t[i]) && !Outstanding(t, i)
    decreases parent, 0
  {
    if parent < |rows| && !Outstanding(rows, parent) {
      var g := Gathered(rows, parent);
      GatherChangesAnAnswer(rows, parent);
      if MayMove(g[parent], Completed) {
        var m := g[parent := g[parent].(status := Completed)];
        assert OnlyCompletes(rows, m);
        CompletingKeeps(rows, m, parent);
        if m[parent].parent.Some? && m[parent].parent.value < parent {
          ClimbIsSound(rows, m, parent, m[parent].parent.value, i);
        }
      }
    }
  }

  lemma {:induction false} ClimbIsSound(rows: seq<Row>, m: seq<Row>, parent: nat, above: nat, i: nat)
    requires above < parent < |rows| == |m| && i < |rows| && m[parent].status == Completed && Storable(m[parent])
    requires forall j | 0 <= j < |rows| && j != parent :: m[j].status == rows[j].status
    requires CanMoveTo(rows[parent].status, Completed) && !Outstanding(m, parent)
    ensures var t := RolledUp(m, above);
            t[i].status != rows[i].status ==>
              t[i].status == Completed && CanMoveTo(rows[i].status, Completed) && Storable(t[i]) && !Outstanding(t, i)
    decreases above, 1
  {
    RollUpIsSound(m, above, i);
    if i == parent {
      YoungerStay(m, above, parent);
      RollUpOnlyCompletes(m, above);
      CompletingKeeps(m, RolledUp(m, above), parent);
    }
    hide RolledUp, Outstanding;
  }

  // ------------------------------------------------------------------ what the service line is told

  /** The branches' answers are gathered in the order of their rows, each under its office, and the blank ones not. */
  lemma {:induction false} BranchAnswersAre(rows: seq<Row>, parent: nat, i: nat)
    requires i < |rows|
    ensures |BranchAnswers(rows[..i + 1], parent)|
            == |BranchAnswers(rows[..i], parent)| + if BranchOf(rows[i], parent) && rows[i].answer != "" then 1 else 0
    ensures BranchOf(rows[i], parent) && rows[i].answer != "" ==>
              && |BranchAnswers(rows[..i], parent)| < |BranchAnswers(rows, parent)|
              && BranchAnswers(rows, parent)[|BranchAnswers(rows[..i], parent)|]
                 == Branch(rows[i].target.value, rows[i].answer)
  {
    var n := |rows| - 1;
    assert rows[..i + 1][..i] == rows[..i];
    if i < n {
      BranchAnswersAre(rows[..n], parent, i);
      assert rows[..n][..i] == rows[..i];
    } else {
      assert rows[..i + 1] == rows;
    }
  }

  /** A delegated task of this installation, its branches done, as the roll-up leaves it: on the service line with the
      branches' joined answer if it had none of its own, and where there is nothing to tell the applicant as it was; on
      the assignment line completed with the answer it had. */
  lemma {:induction false} RollUpTells(rows: seq<Row>, i: nat)
    requires i < |rows| && rows[i].target.None? && rows[i].status == Delegated
    requires forall b | 0 <= b < |rows| && rows[b].parent == Some(i) && rows[b].target.Some? ::
               rows[b].status == Completed
    requires rows[i].parent.Some? ==> rows[i].parent.value < i
    ensures var r, t := rows[i], RolledUp(rows, i);
            var joined := Joined(BranchAnswers(rows, i));
            var answer := if r.line == Service && Trim(r.answer) == "" && joined != "" then joined else r.answer;
            if r.line == Service && answer == "" then t == rows
            else t[i] == r.(status := Completed, answer := answer)
  {
    hide Joined, BranchAnswers, Trim;
    assert !Outstanding(rows, i);
    var g := Gathered(rows, i);
    if MayMove(g[i], Completed) && g[i].parent.Some? {
      YoungerStay(g[i := g[i].(status := Completed)], g[i].parent.value, i);
    }
  }

  /** An answer of the assignment line is never touched, and one that says something never overwritten. */
  lemma {:induction false} AnswersStand(rows: seq<Row>, parent: nat, i: nat)
    requires i < |rows| && (rows[i].line == Assignment || Trim(rows[i].answer) != "")
    ensures RolledUp(rows, parent)[i].answer == rows[i].answer && RolledUp(rows, parent)[i].line == rows[i].line
    decreases parent
  {
    hide Joined, BranchAnswers, Trim, Outstanding;
    if parent < |rows| && !Outstanding(rows, parent) {
      var g := Gathered(rows, parent);
      if MayMove(g[parent], Completed) && g[parent].parent.Some? && g[parent].parent.value < parent {
        AnswersStand(g[parent := g[parent].(status := Completed)], g[parent].parent.value, i);
      }
    }
  }

  // ------------------------------------------------------------------ nothing is left undone

  /** An own task on the assignment line that waits on branches all of which are complete. */
  ghost predicate Eligible(rows: seq<Row>, i: nat)
    requires i < |rows|
  {
    rows[i].target.None? && rows[i].line == Assignment && rows[i].status == Delegated && !Outstanding(rows, i)
  }

  ghost predicate SettledBut(rows: seq<Row>, but: int) {
    forall i: nat | i < |rows| && i != but :: !Eligible(rows, i)
  }

  ghost predicate Settled(rows: seq<Row>) { SettledBut(rows, -1) }

  /** Completing one row can make only its own parent eligible. */
  lemma {:induction false} OneCompletes(rows: seq<Row>, m: seq<Row>, i: nat)
    requires i < |rows| && SameShape(rows, m) && m[i].status == Completed && SettledBut(rows, i)
    requires forall j | 0 <= j < |rows| && j != i :: m[j].status == rows[j].status
    ensures SettledBut(m, if m[i].parent.Some? then m[i].parent.value else -1)
  {
    forall k: nat | k < |m| && m[i].parent != Some(k) ensures !Eligible(m, k) {
      if k != i && Eligible(m, k) {
        SameBranches(rows, m, i, k);
        assert Eligible(rows, k);
      }
    }
  }

  lemma {:induction false} SameBranches(rows: seq<Row>, m: seq<Row>, i: nat, k: nat)
    requires i < |rows| && SameShape(rows, m) && m[i].parent != Some(k)
    requires forall j | 0 <= j < |rows| && j != i :: m[j].status == rows[j].status
    ensures Outstanding(rows, k) <==> Outstanding(m, k)
  {
    if Outstanding(rows, k) {
      var j :| 0 <= j < |rows| && BranchOf(rows[j], k) && rows[j].status != Completed;
      assert BranchOf(m[j], k);
    }
    if Outstanding(m, k) {
      var j :| 0 <= j < |m| && BranchOf(m[j], k) && m[j].status != Completed;
      assert BranchOf(rows[j], k);
    }
  }

  /** Complete: when only this task may be waiting on finished branches, the roll-up leaves none that is, all
      the way up. */
  lemma {:induction false} RollUpSettles(rows: seq<Row>, parent: nat)
    requires parent < |rows| && SettledBut(rows, parent)
    requires forall i: nat | i < |rows| && rows[i].parent.Some? :: rows[i].parent.value < i
    ensures Settled(RolledUp(rows, parent))
    decreases parent
  {
    if !Outstanding(rows, parent) {
      var g := Gathered(rows, parent);
      GatherChangesAnAnswer(rows, parent);
      GatherSettles(rows, g, parent);
      if MayMove(g[parent], Completed) {
        var m := g[parent := g[parent].(status := Completed)];
        OneCompletes(g, m, parent);
        if m[parent].parent.Some? {
          RollUpSettles(m, m[parent].parent.value);
        }
      } else {
        assert !Eligible(g, parent);
      }
    }
    hide Eligible, Outstanding, Gathered;
  }

  lemma {:induction false} GatherSettles(rows: seq<Row>, g: seq<Row>, but: int)
    requires SameShape(rows, g) && SettledBut(rows, but) && forall i | 0 <= i < |rows| :: g[i].status == rows[i].status
    ensures SettledBut(g, but)
  {
    forall k: nat | k < |g| && k != but ensures !Eligible(g, k) {
      if Outstanding(rows, k) {
        var j :| 0 <= j < |rows| && BranchOf(rows[j], k) && rows[j].status != Completed;
        assert BranchOf(g[j], k) && g[j].status != Completed;
      } else {
        assert !Eligible(rows, k);
      }
    }
  }

  // ------------------------------------------------------------------ runs at one installation

  datatype Event =
    | Raise(line: Line, peers: seq<string>)
    | Arrive(line: Line)
    | Delegate(task: nat, peers: seq<string>)
    | Move(task: nat, to: Status, answer: string) // accept, assign, return, complete, close
    | Hear(task: nat, status: Status, answer: string) // a subordinate's news of a branch

  function Branches(parent: nat, line: Line, peers: seq<string>): seq<Row> {
    seq(|peers|, i requires 0 <= i < |peers| => Row(Some(parent), Some(peers[i]), line, Received, ""))
  }

  function Put(rows: seq<Row>, i: nat, r: Row): seq<Row>
    requires i < |rows|
  {
    rows[i := r]
  }

  function WithParent(rows: seq<Row>, task: nat): seq<Row>
    requires task < |rows|
  {
    if rows[task].parent.Some? then RolledUp(rows, rows[task].parent.value) else rows
  }

  /** One handler or one received envelope, with the roll-up it sets off. */
  function Apply(rows: seq<Row>, e: Event): seq<Row> {
    match e
    case Raise(line, peers) =>
      rows + [Row(None, None, line, if |peers| > 0 then Delegated else Received, "")] + Branches(|rows|, line, peers)
    case Arrive(line) => rows + [Row(None, None, line, Received, "")]
    case Delegate(task, peers) =>
      if task >= |rows| || peers == [] then rows
      else
        // the branches are committed first, and stay even when the move is refused
        var t := rows + Branches(task, rows[task].line, peers);
        if MayMove(t[task], Delegated) then Put(t, task, t[task].(status := Delegated)) else t
    case Move(task, to, answer) =>
      if task >= |rows| || to == Delegated
          || !Storable(rows[task].(answer := if answer != "" then answer else rows[task].answer)) then rows
      else
        var r := rows[task].(answer := if answer != "" then answer else rows[task].answer);
        if !MayMove(r, to) then Put(rows, task, r)
        else
          var t := Put(rows, task, r.(status := to));
          if to == Completed then WithParent(t, task) else t
    case Hear(task, status, answer) =>
      if task >= |rows| || rows[task].target.None? || !Known(status)
          || !SupersededBy(rows[task].status, status) then rows
      else WithParent(Put(rows, task,
          rows[task].(status := status, answer := if answer != "" then answer else rows[task].answer)), task)
  }

  /** Work raised here is this installation's own, and waits at once on a branch for each office it is split to; work
      that arrives waits to be accepted. */
  lemma {:induction false} NewRowsAre(rows: seq<Row>, line: Line, peers: seq<string>)
    ensures Apply(rows, Arrive(line)) == rows + [Row(None, None, line, Received, "")]
    ensures var t, n := Apply(rows, Raise(line, peers)), |rows|;
            && |t| == n + 1 + |peers| && t[..n] == rows
            && t[n] == Row(None, None, line, if peers == [] then Received else Delegated, "")
            && forall i | 0 <= i < |peers| ::
                 t[n + 1 + i] == Row(Some(n), Some(peers[i]), line, Received, "")
  {
    var t, n := Apply(rows, Raise(line, peers)), |rows|;
    var branches := Branches(n, line, peers);
    assert t == rows + [Row(None, None, line, if |peers| > 0 then Delegated else Received, "")] + branches;
    hide Apply;
    forall i | 0 <= i < |peers| ensures t[n + 1 + i] == Row(Some(n), Some(peers[i]), line, Received, "") {
      assert t[n + 1 + i] == branches[i];
    }
  }

  function Run(rows: seq<Row>, events: seq<Event>): seq<Row> {
    if events == [] then rows else Apply(Run(rows, events[..|events| - 1]), events[|events| - 1])
  }

  /** A branch is younger than the task it was split from. */
  ghost predicate Placed(rows: seq<Row>) {
    forall i: nat | i < |rows| && rows[i].parent.Some? :: rows[i].parent.value < i
  }

  lemma {:induction false} SameShapePlaced(a: seq<Row>, b: seq<Row>)
    requires SameShape(a, b) && Placed(a)
    ensures Placed(b)
  {}

  lemma {:induction false} BranchesAdded(rows: seq<Row>, t: seq<Row>, parent: nat, line: Line, peers: seq<string>)
    requires Placed(rows) && Settled(rows) && parent < |rows| && t == rows + Branches(parent, line, peers)
    ensures Placed(t) && Settled(t)
    ensures peers != [] ==> Outstanding(t, parent)
  {
    if peers != [] {
      assert BranchOf(t[|rows|], parent) && t[|rows|].status != Completed;
    }
    forall k: nat | k < |t| ensures !Eligible(t, k) {
      if k < |rows| {
        assert !Eligible(rows, k);
        if Outstanding(rows, k) {
          var j :| 0 <= j < |rows| && BranchOf(rows[j], k) && rows[j].status != Completed;
          assert BranchOf(t[j], k);
        }
      }
    }
  }

  lemma {:induction false} RowAdded(rows: seq<Row>, r: Row)
    requires Placed(rows) && Settled(rows) && r.parent.None? && r.target.None?
    ensures Placed(rows + [r]) && SettledBut(rows + [r], |rows|)
    ensures r.status != Delegated ==> Settled(rows + [r])
  {
    var t := rows + [r];
    forall k: nat | k < |rows| ensures !Eligible(t, k) {
      assert !Eligible(rows, k);
      if Outstanding(rows, k) {
        var j :| 0 <= j < |rows| && BranchOf(rows[j], k) && rows[j].status != Completed;
        assert BranchOf(t[j], k);
      }
    }
  }

  lemma {:induction false} RaiseSettles(rows: seq<Row>, line: Line, peers: seq<string>)
    requires Placed(rows) && Settled(rows)
    ensures Placed(Apply(rows, Raise(line, peers))) && Settled(Apply(rows, Raise(line, peers)))
  {
    var root := Row(None, None, line, if |peers| > 0 then Delegated else Received, "");
    var t := rows + [root];
    var u := t + Branches(|rows|, line, peers);
    RowAdded(rows, root);
    if peers == [] {
      assert u == t;
    } else {
      assert BranchOf(u[|t|], |rows|) && u[|t|].status != Completed;
      forall k: nat | k < |u| ensures !Eligible(u, k) {
        if k < |rows| {
          assert !Eligible(t, k);
          if Outstanding(t, k) {
            var j :| 0 <= j < |t| && BranchOf(t[j], k) && t[j].status != Completed;
            assert BranchOf(u[j], k);
          }
        }
      }
    }
  }

  /** One row's status or answer changes to something other than DELEGATED. */
  lemma {:induction false} OneChanges(rows: seq<Row>, i: nat, r: Row)
    requires Placed(rows) && Settled(rows) && i < |rows|
    requires r.parent == rows[i].parent && r.target == rows[i].target && r.line == rows[i].line
    requires r.target.None? ==> r.status != Delegated || r.status == rows[i].status
    ensures Placed(rows[i := r])
    ensures SettledBut(rows[i := r], if r.parent.Some? then r.parent.value else -1)
    ensures r.status != Completed || rows[i].status == Completed ==> Settled(rows[i := r])
  {
    var t := rows[i := r];
    forall k: nat | k < |t| ensures Eligible(t, k)
        ==> r.parent == Some(k) && r.status == Completed && rows[i].status != Completed {
      assert !Eligible(rows, k);
      if Outstanding(rows, k) {
        var j :| 0 <= j < |rows| && BranchOf(rows[j], k) && rows[j].status != Completed;
        assert j != i || r.status != Completed ==> BranchOf(t[j], k) && t[j].status != Completed;
      }
    }
  }

  lemma {:induction false} ParentSettles(rows: seq<Row>, i: nat)
    requires Placed(rows) && i < |rows| && SettledBut(rows, if rows[i].parent.Some? then rows[i].parent.value else -1)
    ensures Placed(WithParent(rows, i)) && Settled(WithParent(rows, i))
  {
    if rows[i].parent.Some? {
      RollUpSettles(rows, rows[i].parent.value);
      RollUpOnlyCompletes(rows, rows[i].parent.value);
      SameShapePlaced(rows, RolledUp(rows, rows[i].parent.value));
    }
    hide RolledUp, Eligible;
  }

  lemma {:induction false} DelegateSettles(rows: seq<Row>, task: nat, peers: seq<string>)
    requires Placed(rows) && Settled(rows)
    ensures Placed(Apply(rows, Delegate(task, peers))) && Settled(Apply(rows, Delegate(task, peers)))
  {
    if task < |rows| && peers != [] {
      var t := rows + Branches(task, rows[task].line, peers);
      BranchesAdded(rows, t, task, rows[task].line, peers);
      var u := Put(t, task, t[task].(status := Delegated));
      DelegatedIsWaiting(t, u, task);
    }
  }

  lemma {:induction false} DelegatedIsWaiting(t: seq<Row>, u: seq<Row>, task: nat)
    requires Placed(t) && Settled(t) && task < |t| && Outstanding(t, task)
             && u == Put(t, task, t[task].(status := Delegated))
    ensures Placed(u) && Settled(u)
  {
    forall k: nat | k < |u| ensures !Eligible(u, k) {
      assert !Eligible(t, k);
      if Outstanding(t, k) {
        var j :| 0 <= j < |t| && BranchOf(t[j], k) && t[j].status != Completed;
        assert BranchOf(u[j], k) && u[j].status != Completed;
      }
    }
  }

  lemma {:induction false} MoveSettles(rows: seq<Row>, task: nat, to: Status, answer: string)
    requires Placed(rows) && Settled(rows)
    ensures Placed(Apply(rows, Move(task, to, answer))) && Settled(Apply(rows, Move(task, to, answer)))
  {
    if task < |rows| && to != Delegated {
      var r := rows[task].(answer := if answer != "" then answer else rows[task].answer);
      OneChanges(rows, task, r);
      OneChanges(rows, task, r.(status := to));
      ParentSettles(Put(rows, task, r.(status := to)), task);
    }
    hide Settled, SettledBut, WithParent;
  }

  lemma {:induction false} HearSettles(rows: seq<Row>, task: nat, status: Status, answer: string)
    requires Placed(rows) && Settled(rows)
    ensures Placed(Apply(rows, Hear(task, status, answer))) && Settled(Apply(rows, Hear(task, status, answer)))
  {
    if task < |rows| && rows[task].target.Some? {
      var r := rows[task].(status := status, answer := if answer != "" then answer else rows[task].answer);
      OneChanges(rows, task, r);
      ParentSettles(Put(rows, task, r), task);
    }
    hide Settled, SettledBut, WithParent;
  }

  /** In every run no task of this installation waits, on the assignment line, on branches that are all
      complete: the last branch's completion finished it in the same step, and everything above it. */
  lemma {:induction false} NothingLeftUndone(events: seq<Event>)
    ensures Placed(Run([], events)) && Settled(Run([], events))
  {
    if events != [] {
      var rows := Run([], events[..|events| - 1]);
      NothingLeftUndone(events[..|events| - 1]);
      match events[|events| - 1]
      case Raise(line, peers) => RaiseSettles(rows, line, peers);
      case Arrive(line) => RowAdded(rows, Row(None, None, line, Received, ""));
      case Delegate(task, peers) => DelegateSettles(rows, task, peers);
      case Move(task, to, answer) => MoveSettles(rows, task, to, answer);
      case Hear(task, status, answer) => HearSettles(rows, task, status, answer);
      hide Settled, Placed;
    }
  }

  // ------------------------------------------------------------------ a closed branch

  lemma {:induction false} RolledUpKeepsClosed(rows: seq<Row>, parent: nat, b: nat)
    requires b < |rows| && rows[b].status == Closed
    ensures RolledUp(rows, parent)[b].status == Closed
    ensures RolledUp(rows, parent)[b].parent == rows[b].parent && RolledUp(rows, parent)[b].target == rows[b].target
  {
    RollUpOnlyCompletes(rows, parent);
    RollUpIsSound(rows, parent, b);
    hide RolledUp;
  }

  lemma {:induction false} ClosedStays(rows: seq<Row>, e: Event, b: nat)
    requires b < |rows| && rows[b].status == Closed
    ensures var t := Apply(rows, e);
            b < |t| && t[b].status == Closed && t[b].parent == rows[b].parent && t[b].target == rows[b].target
  {
    match e
    case Move(task, to, answer) =>
      if task < |rows| {
        var r := rows[task].(answer := if answer != "" then answer else rows[task].answer);
        var t := Put(rows, task, r.(status := to));
        if MayMove(r, to) && t[task].parent.Some? && task != b { RolledUpKeepsClosed(t, t[task].parent.value, b); }
      }
    case Hear(task, status, answer) =>
      if task < |rows| {
        var t := Put(rows, task, rows[task].(status := status, answer := if answer != "" then answer
            else rows[task].answer));
        if t[task].parent.Some? && task != b { RolledUpKeepsClosed(t, t[task].parent.value, b); }
      }
    case _ =>
    hide RolledUp;
  }

  /** A branch once CLOSED counts as outstanding for good: whatever happens afterwards, no roll-up of the task
      it was split from does anything again. */
  lemma {:induction false} ClosedBranchBlocks(rows: seq<Row>, events: seq<Event>, b: nat, parent: nat)
    requires b < |rows| && rows[b].status == Closed && BranchOf(rows[b], parent)
    ensures var t := Run(rows, events);
            b < |t| && t[b].status == Closed && BranchOf(t[b], parent) && RolledUp(t, parent) == t
  {
    if events != [] {
      ClosedBranchBlocks(rows, events[..|events| - 1], b, parent);
      ClosedStays(Run(rows, events[..|events| - 1]), events[|events| - 1], b);
    }
    hide Apply;
  }

  // ------------------------------------------------------------------ what news can still complete

  ghost predicate HasClosed(rows: seq<Row>, task: nat) {
    exists b :: 0 <= b < |rows| && BranchOf(rows[b], task) && rows[b].status == Closed
  }

  /** News of the task's branches and of nothing else. */
  ghost predicate NewsOf(rows: seq<Row>, task: nat, news: seq<Event>) {
    forall k | 0 <= k < |news| :: news[k].Hear? && news[k].task < |rows| && BranchOf(rows[news[k].task], task)
  }

  ghost predicate CompletedBy(rows: seq<Row>, task: nat, news: seq<Event>)
    requires task < |rows|
  {
    NewsOf(rows, task, news) && task < |Run(rows, news)| && Run(rows, news)[task].status == Completed
  }

  /** An own task on the assignment line that is delegated. */
  ghost predicate Waits(rows: seq<Row>, task: nat)
    requires task < |rows|
  {
    rows[task].target.None? && rows[task].line == Assignment && rows[task].status == Delegated
  }

  ghost function StillOut(rows: seq<Row>, task: nat): set<int> {
    set i | 0 <= i < |rows| && BranchOf(rows[i], task) && rows[i].status != Completed
  }

  /** News of a branch changes that branch and, while another is outstanding, no other row. */
  lemma {:induction false} OneHeard(rows: seq<Row>, task: nat, e: Event)
    requires task < |rows| && Waits(rows, task) && NewsOf(rows, task, [e]) && HasClosed(rows, task)
    ensures var t := Apply(rows, e);
            |t| == |rows| && t[task] == rows[task] && HasClosed(t, task)
            && forall i | 0 <= i < |rows| :: t[i].parent == rows[i].parent && t[i].target == rows[i].target
  {
    assert [e][0] == e;
    var b :| 0 <= b < |rows| && BranchOf(rows[b], task) && rows[b].status == Closed;
    var i := e.task;
    var r := rows[i].(status := e.status, answer := if e.answer != "" then e.answer else rows[i].answer);
    var u := Put(rows, i, r);
    if i != b {
      assert BranchOf(u[b], task) && u[b].status != Completed;
      assert RolledUp(u, task) == u;
    }
    assert BranchOf(Apply(rows, e)[b], task);
  }

  lemma {:induction false} ClosedIsNeverCompleted(rows: seq<Row>, task: nat, news: seq<Event>)
    requires task < |rows| && Waits(rows, task) && HasClosed(rows, task) && NewsOf(rows, task, news)
    ensures var t := Run(rows, news);
            |t| == |rows| && t[task] == rows[task] && HasClosed(t, task)
            && forall i | 0 <= i < |rows| :: t[i].parent == rows[i].parent && t[i].target == rows[i].target
  {
    hide Apply, HasClosed;
    if news != [] {
      var n := |news| - 1;
      ClosedIsNeverCompleted(rows, task, news[..n]);
      OneHeard(Run(rows, news[..n]), task, news[n]);
    }
  }

  /** One outstanding branch completes: the task with it if it was the last, and nothing else if not. */
  lemma {:induction false} OneCompleted(rows: seq<Row>, task: nat, i: nat)
    requires task < |rows| && Waits(rows, task) && Placed(rows)
    requires i < |rows| && BranchOf(rows[i], task) && rows[i].status != Completed && rows[i].status != Closed
    ensures var t, u := Apply(rows, Hear(i, Completed, "")), rows[i := rows[i].(status := Completed)];
            && |t| == |rows|
            && if Outstanding(u, task) then t == u else t[task].status == Completed
  {
    var u := rows[i := rows[i].(status := Completed)];
    assert Apply(rows, Hear(i, Completed, "")) == RolledUp(u, task);
    if !Outstanding(u, task) {
      var m := u[task := u[task].(status := Completed)];
      assert Gathered(u, task) == u;
      if m[task].parent.Some? {
        YoungerStay(m, m[task].parent.value, task);
      }
    }
  }

  /** News of the last branch of a service request completes the request with what its branches answered. */
  lemma {:induction false} LastAnswerCompletes(rows: seq<Row>, task: nat, i: nat, answer: string)
    requires task < |rows| && Placed(rows)
    requires rows[task].target.None? && rows[task].line == Service && rows[task].status == Delegated
    requires Trim(rows[task].answer) == ""
    requires i < |rows| && BranchOf(rows[i], task) && rows[i].status != Completed && rows[i].status != Closed
    requires forall b | 0 <= b < |rows| && b != i && BranchOf(rows[b], task) :: rows[b].status == Completed
    ensures var news := rows[i].(status := Completed, answer := if answer != "" then answer else rows[i].answer);
            var joined := Joined(BranchAnswers(rows[i := news], task));
            joined != "" ==>
              Apply(rows, Hear(i, Completed, answer))[task] == rows[task].(status := Completed, answer := joined)
  {
    hide Joined, BranchAnswers, Trim;
    var news := rows[i].(status := Completed, answer := if answer != "" then answer else rows[i].answer);
    var u := rows[i := news];
    assert Apply(rows, Hear(i, Completed, answer)) == RolledUp(u, task);
    RollUpTells(u, task);
  }

  /** With one branch alone: the request ends with that office's own words, if its name holds no colon and space. */
  lemma {:induction false} OneOfficeAnswers(rows: seq<Row>, task: nat, i: nat, answer: string)
    requires task < |rows| && Placed(rows)
    requires rows[task].target.None? && rows[task].line == Service && rows[task].status == Delegated
    requires Trim(rows[task].answer) == ""
    requires i < |rows| && BranchOf(rows[i], task) && rows[i].status != Completed && rows[i].status != Closed
    requires forall b | 0 <= b < |rows| && b != i :: !BranchOf(rows[b], task)
    requires Trim(answer) != "" && answer != "" && !HasColon(rows[i].target.value)
    ensures Apply(rows, Hear(i, Completed, answer))[task] == rows[task].(status := Completed, answer := answer)
  {
    var u := rows[i := rows[i].(status := Completed, answer := answer)];
    OnlyAnswer(u, task, i, |u|);
    assert u[..|u|] == u;
    OneAnswerStandsIff(Branch(rows[i].target.value, answer));
    LastAnswerCompletes(rows, task, i, answer);
    hide Apply, Joined, BranchAnswers, Trim;
  }

  lemma {:induction false} OnlyAnswer(rows: seq<Row>, task: nat, i: nat, n: nat)
    requires i < |rows| && n <= |rows| && BranchOf(rows[i], task) && rows[i].answer != ""
    requires forall b | 0 <= b < |rows| && b != i :: !BranchOf(rows[b], task)
    ensures BranchAnswers(rows[..n], task) == if i < n then [Branch(rows[i].target.value, rows[i].answer)] else []
  {
    if n > 0 {
      OnlyAnswer(rows, task, i, n - 1);
      assert rows[..n][..n - 1] == rows[..n - 1];
    }
  }

  /** All its branches' completions, one after another, complete the task. */
  lemma {:induction false} NewsCompletes(rows: seq<Row>, task: nat) returns (news: seq<Event>)
    requires task < |rows| && Waits(rows, task) && Placed(rows) && Outstanding(rows, task) && !HasClosed(rows, task)
    ensures CompletedBy(rows, task, news)
    decreases |StillOut(rows, task)|
  {
    var i :| 0 <= i < |rows| && BranchOf(rows[i], task) && rows[i].status != Completed;
    var e := Hear(i, Completed, "");
    var u := rows[i := rows[i].(status := Completed)];
    OneCompleted(rows, task, i);
    RunOfOne(rows, e);
    if Outstanding(u, task) {
      assert StillOut(u, task) == StillOut(rows, task) - {i};
      assert !HasClosed(u, task) by {
        assert forall b | 0 <= b < |u| && BranchOf(u[b], task) :: BranchOf(rows[b], task) && u[b].status != Closed;
      }
      var more := NewsCompletes(u, task);
      news := [e] + more;
      RunJoins(rows, [e], more);
      assert forall k | 0 < k < |news| :: news[k] == more[k - 1] && BranchOf(u[news[k].task], task);
    } else {
      news := [e];
    }
  }

  lemma {:induction false} RunOfOne(rows: seq<Row>, e: Event)
    ensures Run(rows, [e]) == Apply(rows, e)
  {
    hide Apply;
    assert [e][..0] == [];
    assert Run(rows, []) == rows;
  }

  lemma {:induction false} RunJoins(rows: seq<Row>, a: seq<Event>, b: seq<Event>)
    ensures Run(rows, a + b) == Run(Run(rows, a), b)
    decreases |b|
  {
    hide Apply;
    if b == [] {
      assert a + b == a;
    } else {
      RunJoins(rows, a, b[..|b| - 1]);
      assert (a + b)[..|a + b| - 1] == a + b[..|b| - 1];
    }
  }

  /** In every run: a task of this installation that waits on the assignment line can still be completed by news of
      its branches exactly when none of them is CLOSED. */
  lemma {:induction false} CanStillCompleteIff(events: seq<Event>, task: nat)
    requires task < |Run([], events)| && Waits(Run([], events), task)
    ensures (exists news: seq<Event> :: CompletedBy(Run([], events), task, news)) <==> !HasClosed(Run([], events), task)
  {
    var rows := Run([], events);
    NothingLeftUndone(events);
    assert !Eligible(rows, task);
    hide Run, Apply, HasClosed, NewsOf;
    if HasClosed(rows, task) {
      forall news: seq<Event> ensures !CompletedBy(rows, task, news) {
        if NewsOf(rows, task, news) { ClosedIsNeverCompleted(rows, task, news); }
      }
    } else {
      var news := NewsCompletes(rows, task);
    }
  }

  /** It can come about: a branch completed and then closed before its sibling completes leaves the task
      delegated for ever. */
  lemma {:induction false} ClosedTooSoon()
    ensures var t := Run([], [Raise(Assignment, ["A", "B"]), Hear(1, Completed, ""), Move(1, Closed, ""),
            Hear(2, Completed, "")]);
            |t| == 3 && t[0].status == Delegated && t[1].status == Closed && t[2].status == Completed
  {
    var e := [Raise(Assignment, ["A", "B"]), Hear(1, Completed, ""), Move(1, Closed, ""), Hear(2, Completed, "")];
    var root := Row(None, None, Assignment, Delegated, "");
    var a, b := Row(Some(0), Some("A"), Assignment, Received, ""), Row(Some(0), Some("B"), Assignment, Received, "");
    RaisedTwo();
    FourSteps([], e);
    var t := [root, a, b];
    HeardBesideAnother(t, 1, 2, 0);
    var u := t[1 := a.(status := Completed)];
    ClosedByHand(u, 1);
    var v := u[1 := a.(status := Closed)];
    HeardBesideAnother(v, 2, 1, 0);
    hide Apply;
  }

  /** One branch completes while another of the same task is not complete. */
  lemma {:induction false} HeardBesideAnother(rows: seq<Row>, i: nat, j: nat, parent: nat)
    requires i < |rows| && j < |rows| && i != j && BranchOf(rows[i], parent) && BranchOf(rows[j], parent)
    requires rows[i].status == Received && rows[j].status != Completed
    ensures Apply(rows, Hear(i, Completed, "")) == rows[i := rows[i].(status := Completed)]
  {
    var t := rows[i := rows[i].(status := Completed)];
    assert BranchOf(t[j], parent) && t[j].status != Completed;
    assert RolledUp(t, parent) == t;
  }

  lemma {:induction false} ClosedByHand(rows: seq<Row>, i: nat)
    requires i < |rows| && rows[i].target.Some? && rows[i].status == Completed
    ensures Apply(rows, Move(i, Closed, "")) == rows[i := rows[i].(status := Closed)]
  {}

  lemma {:induction false} RaisedTwo()
    ensures Apply([], Raise(Assignment, ["A", "B"]))
            == [Row(None, None, Assignment, Delegated, ""), Row(Some(0), Some("A"), Assignment, Received, ""),
                Row(Some(0), Some("B"), Assignment, Received, "")]
  {
    assert Branches(0, Assignment, ["A", "B"])
        == [Row(Some(0), Some("A"), Assignment, Received, ""), Row(Some(0), Some("B"), Assignment, Received, "")];
  }

  lemma {:induction false} FourSteps(rows: seq<Row>, e: seq<Event>)
    requires |e| == 4
    ensures Run(rows, e) == Apply(Apply(Apply(Apply(rows, e[0]), e[1]), e[2]), e[3])
  {
    hide Apply;
    assert e[..4] == e && e[..3][..2] == e[..2] && e[..2][..1] == e[..1] && e[..4][..3] == e[..3] && e[..1][..0] == [];
    assert Run(rows, e[..1]) == Apply(rows, e[0]);
    assert Run(rows, e[..2]) == Apply(Run(rows, e[..1]), e[1]);
    assert Run(rows, e[..3]) == Apply(Run(rows, e[..2]), e[2]);
  }

  /** The branches are committed before the move is tried: they are there afterwards, outstanding, whether the task
      moved or not; and it stays as it was exactly when the table or the schema does not let it be DELEGATED. */
  lemma {:induction false} RefusedDelegationLeavesBranches(rows: seq<Row>, task: nat, peers: seq<string>)
    requires task < |rows| && peers != []
    ensures var t := Apply(rows, Delegate(task, peers));
            && |t| == |rows| + |peers| && Outstanding(t, task)
            && (t[task] == rows[task] <==> !MayMove(rows[task], Delegated))
            && (MayMove(rows[task], Delegated) ==> t[task] == rows[task].(status := Delegated))
            && forall i | 0 <= i < |rows| && i != task :: t[i] == rows[i]
  {
    var t := Apply(rows, Delegate(task, peers));
    assert BranchOf(t[|rows|], task) && t[|rows|].status != Completed;
  }
}
