/**
 Single-flight worktree preparation (rust/src/git/worktree_manager.rs:125-146):
 concurrent calls for one path join one cell, whose first joiner prepares the
 worktree. A call that has its result removes the cell from the map, but only
 when the map still holds that same cell.
 */
module SingleFlight {
  import opened Options

  type Path = string

  /** A prepared worktree, by its base commit, or the error. */
  type Answer = Result<string, string>

  type CellId = nat

  type CallId = nat

  /** An initialization cell: the call that runs `prepare_once`, and its result. */
  datatype Cell = Cell(path: Path, running: Option<CallId>, answer: Option<Answer>)

  datatype Call =
    | Joined(cell: CellId)
    | Told(cell: CellId, answer: Answer)
    | Returned(cell: CellId, answer: Answer)

  datatype Manager = Manager(
    pending: map<Path, CellId>,
    cells: map<CellId, Cell>,
    calls: map<CallId, Call>)

  const IDLE := Manager(map[], map[], map[])

  datatype Step =
    | Join(call: CallId, path: Path, newCell: CellId)
    | StartPreparing(call: CallId)
    | FinishPreparing(call: CallId, answer: Answer)
    | TakeAnswer(call: CallId)
    | Leave(call: CallId)

  ghost predicate Enabled(m: Manager, step: Step) {
    match step
    case Join(call, _, newCell) => call !in m.calls && newCell !in m.cells
    case StartPreparing(call) =>
      HasJoined(m, call) && m.cells[m.calls[call].cell].running.None? && m.cells[m.calls[call].cell].answer.None?
    case FinishPreparing(call, _) => HasJoined(m, call) && m.cells[m.calls[call].cell].running == Some(call)
    case TakeAnswer(call) => HasJoined(m, call) && m.cells[m.calls[call].cell].answer.Some?
    case Leave(call) => call in m.calls && m.calls[call].Told? && m.calls[call].cell in m.cells
  }

  predicate HasJoined(m: Manager, call: CallId) {
    call in m.calls && m.calls[call].Joined? && m.calls[call].cell in m.cells
  }

  /** `guarded` says whether leaving compares the cells, as the source does. */
  function Next(m: Manager, step: Step, guarded: bool): Manager
    requires Enabled(m, step)
  {
    match step
    case Join(call, path, newCell) =>
      if path in m.pending then m.(calls := m.calls[call := Joined(m.pending[path])])
      else Manager(m.pending[path := newCell], m.cells[newCell := Cell(path, None, None)], m.calls[call := Joined(newCell)])
    case StartPreparing(call) =>
      var id := m.calls[call].cell;
      m.(cells := m.cells[id := m.cells[id].(running := Some(call))])
    case FinishPreparing(call, answer) =>
      var id := m.calls[call].cell;
      m.(cells := m.cells[id := m.cells[id].(running := None, answer := Some(answer))],
         calls := m.calls[call := Told(id, answer)])
    case TakeAnswer(call) =>
      var id := m.calls[call].cell;
      m.(calls := m.calls[call := Told(id, m.cells[id].answer.value)])
    case Leave(call) =>
      var told := m.calls[call];
      var path := m.cells[told.cell].path;
      m.(pending := if path in m.pending && (m.pending[path] == told.cell || !guarded) then m.pending - {path}
                    else m.pending,
         calls := m.calls[call := Returned(told.cell, told.answer)])
  }

  ghost function After(m: Manager, steps: seq<Step>, guarded: bool): Option<Manager>
    decreases |steps|
  {
    if steps == [] then Some(m)
    else if Enabled(m, steps[0]) then After(Next(m, steps[0], guarded), steps[1..], guarded) else None
  }

  /** Two preparations of one path at the same time. */
  predicate Overlap(m: Manager, a: CellId, b: CellId) {
    && a in m.cells && b in m.cells && a != b && m.cells[a].path == m.cells[b].path
    && m.cells[a].running.Some? && m.cells[b].running.Some?
  }

  // ---------------------------------------------------------------- the map as it is updated

  /** A cell, told apart from others by identity (Arc::ptr_eq). */
  class Preparation {
    var answer: Option<Answer>

    constructor ()
      ensures answer == None
    {
      answer := None;
    }
  }

  class PendingMap {
    var pending: map<Path, Preparation>

    constructor ()
      ensures pending == map[]
    {
      pending := map[];
    }

    /** The cell of a path: the one in the map, or a new one that is put there. */
    method Enter(path: Path) returns (preparation: Preparation)
      modifies this
      ensures path in old(pending) ==> preparation == old(pending)[path] && pending == old(pending)
      ensures path !in old(pending) ==>
                fresh(preparation) && preparation.answer == None && pending == old(pending)[path := preparation]
    {
      if path !in pending {
        var created := new Preparation();
        pending := pending[path := created];
      }
      preparation := pending[path];
    }

    /** Removes the cell this call joined, and no other. */
    method Leave(path: Path, preparation: Preparation)
      modifies this
      ensures path in old(pending) && old(pending)[path] == preparation ==> pending == old(pending) - {path}
      ensures !(path in old(pending) && old(pending)[path] == preparation) ==> pending == old(pending)
    {
      if path in pending && pending[path] == preparation {
        pending := pending - {path};
      }
    }
  }

  // ---------------------------------------------------------------- invariant

  /** The map leads to cells of its paths, and to every cell that has no answer yet. */
  ghost predicate Indexed(m: Manager) {
    && (forall path <- m.pending :: m.pending[path] in m.cells && m.cells[m.pending[path]].path == path)
    && (forall id <- m.cells :: m.cells[id].answer.None? ==>
          m.cells[id].path in m.pending && m.pending[m.cells[id].path] == id)
  }

  /** A call that was told a result was told the one of the cell it joined; a cell prepares before it has one. */
  ghost predicate Agreed(m: Manager) {
    && (forall call <- m.calls :: m.calls[call].cell in m.cells)
    && (forall call <- m.calls :: !m.calls[call].Joined? ==>
          m.cells[m.calls[call].cell].answer == Some(m.calls[call].answer))
    && (forall id <- m.cells :: m.cells[id].running.Some? ==> m.cells[id].answer.None?)
  }

  lemma StepKeepsIndexed(m: Manager, step: Step)
    requires Indexed(m) && Agreed(m) && Enabled(m, step)
    ensures Indexed(Next(m, step, true))
  {
    if step.Leave? {
      assert m.cells[m.calls[step.call].cell].answer.Some?;
    }
  }

  lemma StepKeepsAgreed(m: Manager, step: Step)
    requires Indexed(m) && Agreed(m) && Enabled(m, step)
    ensures Agreed(Next(m, step, true))
  {
  }

  lemma {:induction false} ReachableInv(m: Manager, steps: seq<Step>)
    requires Indexed(m) && Agreed(m) && After(m, steps, true).Some?
    ensures Indexed(After(m, steps, true).value) && Agreed(After(m, steps, true).value)
    decreases |steps|
  {
    if steps != [] {
      StepKeepsIndexed(m, steps[0]);
      StepKeepsAgreed(m, steps[0]);
      ReachableInv(Next(m, steps[0], true), steps[1..]);
    }
  }

  // ---------------------------------------------------------------- theorems

  /** In every interleaving, no two preparations of one path run at the same time. */
  lemma AtMostOnePreparationRuns(steps: seq<Step>, a: CellId, b: CellId)
    requires After(IDLE, steps, true).Some?
    ensures !Overlap(After(IDLE, steps, true).value, a, b)
  {
    ReachableInv(IDLE, steps);
  }

  /** A call returns the answer of the cell it joined. */
  lemma JoinersGetTheCellsAnswer(steps: seq<Step>, call: CallId)
    requires After(IDLE, steps, true).Some?
    requires call in After(IDLE, steps, true).value.calls && After(IDLE, steps, true).value.calls[call].Returned?
    ensures var m := After(IDLE, steps, true).value;
            m.calls[call].cell in m.cells && m.cells[m.calls[call].cell].answer == Some(m.calls[call].answer)
  {
    ReachableInv(IDLE, steps);
  }

  /** A cell leaves the map only with an answer, and no step takes an answer back or moves a call to another cell. */
  lemma CellsLeaveAnswered(steps: seq<Step>, step: Step, path: Path)
    requires After(IDLE, steps, true).Some? && Enabled(After(IDLE, steps, true).value, step)
    ensures var m := After(IDLE, steps, true).value;
            var next := Next(m, step, true);
            && (path in m.pending && (path !in next.pending || next.pending[path] != m.pending[path]) ==>
                  m.pending[path] in m.cells && m.cells[m.pending[path]].answer.Some?)
            && (forall id <- m.cells :: m.cells[id].answer.Some? ==>
                  id in next.cells && next.cells[id].answer == m.cells[id].answer)
            && (forall call <- m.calls :: call in next.calls && next.calls[call].cell == m.calls[call].cell)
  {
    ReachableInv(IDLE, steps);
  }

  /** Every cell in the map is waited for, by a call that will remove it if nobody else does first. */
  ghost predicate Awaited(m: Manager) {
    forall path <- m.pending :: exists call :: Awaits(m, call, m.pending[path])
  }

  predicate Awaits(m: Manager, call: CallId, cell: CellId) {
    call in m.calls && !m.calls[call].Returned? && m.calls[call].cell == cell
  }

  lemma StepKeepsAwaited(m: Manager, step: Step)
    requires Indexed(m) && Agreed(m) && Awaited(m) && Enabled(m, step)
    ensures Awaited(Next(m, step, true))
  {
    var next := Next(m, step, true);
    forall path <- next.pending ensures exists call :: Awaits(next, call, next.pending[path]) {
      if path in m.pending {
        var call :| Awaits(m, call, m.pending[path]);
        assert Awaits(next, call, next.pending[path]);
      } else {
        assert Awaits(next, step.call, next.pending[path]);
      }
    }
  }

  lemma {:induction false} ReachableAwaited(m: Manager, steps: seq<Step>)
    requires Indexed(m) && Agreed(m) && Awaited(m) && After(m, steps, true).Some?
    ensures Awaited(After(m, steps, true).value)
    decreases |steps|
  {
    if steps != [] {
      StepKeepsIndexed(m, steps[0]);
      StepKeepsAgreed(m, steps[0]);
      StepKeepsAwaited(m, steps[0]);
      ReachableAwaited(Next(m, steps[0], true), steps[1..]);
    }
  }

  /** No cell is left behind: once every call has returned the map is empty, and the next call prepares anew. */
  lemma ReturnedCallsLeaveNothing(steps: seq<Step>)
    requires After(IDLE, steps, true).Some?
    requires forall call <- After(IDLE, steps, true).value.calls :: After(IDLE, steps, true).value.calls[call].Returned?
    ensures After(IDLE, steps, true).value.pending == map[]
  {
    ReachableAwaited(IDLE, steps);
  }

  /** The call that leaves takes its own cell out of the map, and no other. */
  lemma LeavingTakesTheCell(steps: seq<Step>, call: CallId)
    requires After(IDLE, steps, true).Some? && Enabled(After(IDLE, steps, true).value, Leave(call))
    ensures var m := After(IDLE, steps, true).value;
            var next := Next(m, Leave(call), true);
            && next.calls == m.calls[call := Returned(m.calls[call].cell, m.calls[call].answer)] && next.cells == m.cells
            && forall path :: path in next.pending <==> path in m.pending && m.pending[path] != m.calls[call].cell
  {
    ReachableInv(IDLE, steps);
  }

  lemma {:induction false} AfterAppend(m: Manager, first: seq<Step>, second: seq<Step>, guarded: bool)
    requires After(m, first, guarded).Some?
    ensures After(m, first + second, guarded) == After(After(m, first, guarded).value, second, guarded)
    decreases |first|
  {
    if first == [] {
      assert first + second == second;
    } else {
      assert (first + second)[1..] == first[1..] + second;
      AfterAppend(Next(m, first[0], guarded), first[1..], second, guarded);
    }
  }

  /** Two calls join a cell and get its answer; the first one leaves. */
  function FirstRound(path: Path, answer: Answer): seq<Step> {
    [Join(0, path, 0), Join(1, path, 1), StartPreparing(0), FinishPreparing(0, answer), TakeAnswer(1), Leave(0)]
  }

  /** A third call starts over, the second one of the first round leaves, and a fourth call comes. */
  function SecondRound(path: Path): seq<Step> {
    [Join(2, path, 1), StartPreparing(2), Leave(1), Join(3, path, 2), StartPreparing(3)]
  }

  function Between(path: Path, answer: Answer): Manager {
    Manager(map[], map[0 := Cell(path, None, Some(answer))], map[0 := Returned(0, answer), 1 := Told(0, answer)])
  }

  lemma FirstRoundEnds(path: Path, answer: Answer)
    ensures After(IDLE, FirstRound(path, answer), false) == Some(Between(path, answer))
  {
    var steps := FirstRound(path, answer);
    var m1 := Next(IDLE, steps[0], false);
    var m2 := Next(m1, steps[1], false);
    var m3 := Next(m2, steps[2], false);
    var m4 := Next(m3, steps[3], false);
    var m5 := Next(m4, steps[4], false);
    var m6 := Next(m5, steps[5], false);
    assert m6 == Between(path, answer);
    Replay([IDLE, m1, m2, m3, m4, m5, m6], steps, false);
  }

  lemma SecondRoundOverlaps(path: Path, answer: Answer)
    ensures var end := After(Between(path, answer), SecondRound(path), false);
            end.Some? && Overlap(end.value, 1, 2)
  {
    var steps, m0 := SecondRound(path), Between(path, answer);
    var m1 := Next(m0, steps[0], false);
    var m2 := Next(m1, steps[1], false);
    var m3 := Next(m2, steps[2], false);
    var m4 := Next(m3, steps[3], false);
    var m5 := Next(m4, steps[4], false);
    Replay([m0, m1, m2, m3, m4, m5], steps, false);
  }

  /** Without the comparison, a late leaver removes a newer cell, and a second preparation starts beside the first. */
  lemma UnguardedLeavingOverlaps(path: Path, answer: Answer)
    ensures var end := After(IDLE, FirstRound(path, answer) + SecondRound(path), false);
            end.Some? && Overlap(end.value, 1, 2)
  {
    FirstRoundEnds(path, answer);
    SecondRoundOverlaps(path, answer);
    AfterAppend(IDLE, FirstRound(path, answer), SecondRound(path), false);
  }

  /** A run is what its states, one per step, say it is. */
  lemma {:induction false} Replay(states: seq<Manager>, steps: seq<Step>, guarded: bool)
    requires |states| == |steps| + 1
    requires forall i :: 0 <= i < |steps| ==>
               Enabled(states[i], steps[i]) && states[i + 1] == Next(states[i], steps[i], guarded)
    ensures After(states[0], steps, guarded) == Some(states[|steps|])
    decreases |steps|
  {
    if steps != [] {
      Replay(states[1..], steps[1..], guarded);
    }
  }
}
