/** The fail-closed runtime state machine. */
module RuntimeStates {
  import opened Wrappers

  datatype RuntimeState =
    | Disarmed | Starting | Reconciling | Ready | Executing | Degraded | Halted | Stopping

  predicate CanMove(s: RuntimeState, t: RuntimeState) {
    match s
    case Disarmed => t.Starting?
    case Starting => t.Reconciling? || t.Halted? || t.Stopping?
    case Reconciling => t.Ready? || t.Degraded? || t.Halted? || t.Stopping?
    case Ready => t.Executing? || t.Reconciling? || t.Degraded? || t.Halted? || t.Stopping?
    case Executing => t.Ready? || t.Reconciling? || t.Degraded? || t.Halted? || t.Stopping?
    case Degraded => t.Reconciling? || t.Halted? || t.Stopping?
    case Halted => t.Reconciling? || t.Stopping?
    case Stopping => t.Disarmed?
  }

  /** Blockers are kept sorted and unique by the source, that is, as a set. */
  datatype Status = Status(state: RuntimeState, revision: nat, reason: string, blockers: set<string>)

  const INITIAL := Status(Disarmed, 0, "not started", {})

  datatype MoveError = IllegalMove

  /** The same state for the same reason is no transition; anything else needs the table
      and takes a new revision. */
  function Transition(
    s: Status, target: RuntimeState, reason: string, blockers: set<string>
  ): Result<Status, MoveError> {
    if target == s.state && reason == s.reason && blockers == s.blockers then Ok(s)
    else if target != s.state && !CanMove(s.state, target) then Err(IllegalMove)
    else Ok(Status(target, s.revision + 1, reason, blockers))
  }

  /** The states passed through, one per requested transition. */
  function States(from: Status, moves: seq<(RuntimeState, string, set<string>)>): (path: seq<RuntimeState>)
    ensures |path| == |moves| + 1
    ensures path[|moves|] == Final(from, moves).state
  {
    if moves == [] then [from.state]
    else States(from, moves[..|moves| - 1]) + [Final(from, moves).state]
  }

  /** The status after a sequence of requested transitions, refused ones left out. */
  function Final(from: Status, moves: seq<(RuntimeState, string, set<string>)>): Status {
    if moves == [] then from
    else
      var before := Final(from, moves[..|moves| - 1]);
      var (target, reason, blockers) := moves[|moves| - 1];
      var r := Transition(before, target, reason, blockers);
      if r.Ok? then r.value else before
  }

  /** From halted, however the run goes on, the first ready state comes after a
      reconciling one. */
  lemma {:induction false} ReadyOnlyThroughReconciling(
    from: Status, moves: seq<(RuntimeState, string, set<string>)>, i: nat
  )
    requires from.state.Halted? && i <= |moves| && States(from, moves)[i].Ready?
    ensures exists j :: 0 <= j < i && States(from, moves)[j].Reconciling?
  {
    var init := moves[..|moves| - 1];
    if i < |moves| {
      ReadyOnlyThroughReconciling(from, init, i);
      var j :| 0 <= j < i && States(from, init)[j].Reconciling?;
      assert States(from, moves)[j].Reconciling?;
    } else {
      OutsideReconciling(from, moves, i);
    }
  }

  lemma {:induction false} OutsideReconciling(
    from: Status, moves: seq<(RuntimeState, string, set<string>)>, i: nat
  )
    requires from.state.Halted? && i == |moves|
    requires States(from, moves)[i].Ready? || States(from, moves)[i].Executing?
    ensures exists j :: 0 <= j < i && States(from, moves)[j].Reconciling?
  {
    var init := moves[..|moves| - 1];
    assert i > 0;
    var before := Final(from, init);
    assert States(from, init)[i - 1] == before.state;
    if before.state.Reconciling? {
      assert States(from, moves)[i - 1].Reconciling?;
    } else {
      OutsideReconciling(from, init, i - 1);
      var j :| 0 <= j < i - 1 && States(from, init)[j].Reconciling?;
      assert States(from, moves)[j].Reconciling?;
    }
  }

  /** Revisions count the transitions made. */
  lemma {:induction false} RevisionsAscend(from: Status, moves: seq<(RuntimeState, string, set<string>)>)
    ensures from.revision <= Final(from, moves).revision <= from.revision + |moves|
    ensures Final(from, moves).revision == from.revision ==> Final(from, moves) == from
  {
    if moves != [] {
      RevisionsAscend(from, moves[..|moves| - 1]);
    }
  }
}
