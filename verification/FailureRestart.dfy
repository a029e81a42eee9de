/**
 What a restart remembers about failures (src/operations/journal.ts): journal
 calls change memory at once and ask for file writes, which run one at a time
 and write the whole memory of the moment they start. Whenever no write is
 outstanding, the file answers every question about a turn as memory does.
 */
module FailureRestart {
  import opened Options
  import opened FailureOrder
  import opened FailureMerge
  import opened FailureStore

  /** Memory, the file, the write that is running, and how many more are queued behind it. */
  datatype World = World(memory: Store, file: Store, writing: Option<Store>, queued: nat, lost: bool)

  datatype Step =
    | RetainStep(key: TurnKey, candidate: Failure, operationId: Option<string>, order: Option<Order>, aliased: bool)
    | ClearStep(recoveries: seq<Recovery>)
    | BeginStep(operation: Operation)
    | BindStep(index: nat, turnId: string)
    | StartWrite
    | FinishWrite
    | FailWrite
    | Restart

  /** What the gateway may do: a failure names a run operation, a new operation has no failure, a turn is bound once. */
  predicate Enabled(w: World, step: Step) {
    match step
    case RetainStep(_, _, id, _, _) =>
      NamedOperation(w.memory, id).Some? ==> NamedOperation(w.memory, id).value.turnStart
    case ClearStep(_) => true
    case BeginStep(op) => op.terminal.None?
    case BindStep(i, _) => i < |w.memory.operations| && w.memory.operations[i].turnId.None?
    case StartWrite => w.writing.None? && w.queued > 0
    case FinishWrite => w.writing.Some?
    case FailWrite => w.writing.Some?
    case Restart => true
  }

  function Asked(w: World, memory: Store, write: bool): World {
    w.(memory := memory, queued := w.queued + if write then 1 else 0)
  }

  function Next(w: World, step: Step): World
    requires Enabled(w, step)
  {
    match step
    case RetainStep(key, candidate, id, order, aliased) =>
      var r := RetainIn(w.memory, key, candidate, id, order, aliased);
      Asked(w, r.store, r.write)
    case ClearStep(recoveries) => Asked(w, ClearIn(w.memory, recoveries), ClearWrites(w.memory, recoveries))
    case BeginStep(op) => Asked(w, w.memory.(operations := w.memory.operations + [op]), true)
    case BindStep(i, turnId) =>
      Asked(w, w.memory.(operations := w.memory.operations[i := w.memory.operations[i].(turnId := Some(turnId))]), true)
    case StartWrite => w.(writing := Some(w.memory), queued := w.queued - 1)
    case FinishWrite => w.(file := w.writing.value, writing := None, lost := false)
    case FailWrite => w.(writing := None, lost := true)
    case Restart => World(w.file, w.file, None, 0, false)
  }

  /** The world after a run from a freshly loaded file; none if a step of it was not enabled. */
  function After(file: Store, steps: seq<Step>): Option<World> {
    if steps == [] then Some(World(file, file, None, 0, false))
    else
      match After(file, steps[..|steps| - 1])
      case None => None
      case Some(w) => if Enabled(w, steps[|steps| - 1]) then Some(Next(w, steps[|steps| - 1])) else None
  }

  /** A record as the journal validates it: a terminal failure belongs to the run operation's own turn. */
  predicate ValidOperation(op: Operation) {
    op.terminal.Some? ==> op.turnStart && op.turnId == Some(op.terminal.value.turnId)
  }

  /** The recorded terminal failures of a turn agree while nothing is retained for it, and a recovered turn has none. */
  ghost predicate Coherent(s: Store) {
    && (forall i :: 0 <= i < |s.operations| ==> ValidOperation(s.operations[i]))
    && (forall k :: k in s.failures && s.failures[k].Failed? ==> s.failures[k].failure.turnId == k.turnId)
    && (forall k, i, j :: k !in s.failures && 0 <= i < |s.operations| && 0 <= j < |s.operations|
                          && Records(s.operations[i], k) && Records(s.operations[j], k)
                          ==> s.operations[i].terminal == s.operations[j].terminal)
    && (forall k, i :: k in s.failures && s.failures[k].Recovered? && 0 <= i < |s.operations| ==> !Records(s.operations[i], k))
  }

  /** The same failure or recovery, its order equal up to the admission watermark. */
  predicate SameRetained(a: Retained, b: Retained) {
    && SamePersisted(a.order, b.order)
    && (a.Failed? <==> b.Failed?)
    && (a.Failed? ==> a.failure == b.failure)
    && (a.Recovered? ==> a.state == b.state)
  }

  /** The file holds what memory holds, except entries that an operation's own failure already answers for. */
  ghost predicate Mirrors(file: Store, memory: Store) {
    && file.operations == memory.operations
    && file.failures.Keys <= memory.failures.Keys
    && (forall k :: k in file.failures ==> SameRetained(memory.failures[k], file.failures[k]))
    && (forall k :: k in memory.failures && k !in file.failures ==>
                      memory.failures[k].Failed? && memory.failures[k].order.None?
                      && FindTerminal(file.operations, k) == Some(memory.failures[k].failure))
  }

  /** What the last write leaves, or will leave, in the file. */
  function LastWritten(w: World): Store { if w.writing.Some? then w.writing.value else w.file }

  ghost predicate Inv(w: World) {
    && Coherent(w.memory) && Coherent(w.file) && (w.writing.Some? ==> Coherent(w.writing.value))
    && (w.queued == 0 && (w.writing.None? ==> !w.lost) ==> Mirrors(LastWritten(w), w.memory))
  }

  // ----- Retain -----

  lemma FindTerminalAgrees(s: Store, key: TurnKey, i: nat)
    requires Coherent(s) && key !in s.failures && i < |s.operations| && Records(s.operations[i], key)
    ensures FindTerminal(s.operations, key) == s.operations[i].terminal
  {
  }

  /** The failure a candidate competes with belongs to the candidate's turn, and a recovered turn has none. */
  lemma ExistingIsOfTheTurn(s: Store, key: TurnKey, id: Option<string>, candidate: Failure, order: Option<Order>, aliased: bool)
    requires Coherent(s) && (NamedOperation(s, id).Some? ==> !Mismatched(NamedOperation(s, id).value, key))
    requires NamedOperation(s, id).Some? ==> NamedOperation(s, id).value.turnStart
    ensures var existing := EvidenceFor(Lookup(s, key), Fallback(s, key, NamedOperation(s, id)), candidate, order, aliased).existing;
      && (existing.Some? ==> existing.value.turnId == key.turnId)
      && (existing.Some? ==> !(key in s.failures && s.failures[key].Recovered?))
      && (existing.Some? && key !in s.failures ==> FindTerminal(s.operations, key) == existing)
  {
    var operation := NamedOperation(s, id);
    if operation.Some? && operation.value.terminal.Some? {
      assert Records(operation.value, key);
      if key !in s.failures {
        FindTerminalAgrees(s, key, FindOperation(s.operations, id.value));
      }
    }
  }

  lemma FailureKeepsTurn(e: Evidence, admitted: Option<Admitted>, turnId: string)
    requires e.candidate.turnId == turnId && (e.existing.Some? ==> e.existing.value.turnId == turnId)
    ensures e.NextFailure(admitted).turnId == turnId
  {
  }

  lemma RetainKeepsCoherent(s: Store, key: TurnKey, candidate: Failure, id: Option<string>, order: Option<Order>, aliased: bool)
    requires Coherent(s) && (NamedOperation(s, id).Some? ==> NamedOperation(s, id).value.turnStart)
    ensures Coherent(RetainIn(s, key, candidate, id, order, aliased).store)
  {
    var operation := NamedOperation(s, id);
    var r := RetainIn(s, key, candidate, id, order, aliased);
    if candidate.turnId == key.turnId && !(operation.Some? && Mismatched(operation.value, key)) && r.answer != Ok(None) {
      ExistingIsOfTheTurn(s, key, id, candidate, order, aliased);
      var e := EvidenceFor(Lookup(s, key), Fallback(s, key, operation), candidate, order, aliased);
      FailureKeepsTurn(e, if operation.Some? then operation.value.admitted else None, key.turnId);
      RecordingKeepsCoherent(s, key, id, r.store.failures[key]);
    }
  }

  lemma RecordingKeepsCoherent(s: Store, key: TurnKey, id: Option<string>, retained: Retained)
    requires Coherent(s) && retained.Failed? && retained.failure.turnId == key.turnId
    requires NamedOperation(s, id).Some? ==> NamedOperation(s, id).value.turnStart && !Mismatched(NamedOperation(s, id).value, key)
    ensures Coherent(Store(s.failures[key := retained], s.operations))
    ensures Coherent(Store(s.failures[key := retained], Recorded(s.operations, id, key, retained.failure)))
  {
    var ops := Recorded(s.operations, id, key, retained.failure);
    forall k, i | 0 <= i < |ops| && k != key && Records(ops[i], k)
      ensures ops[i] == s.operations[i]
    {
    }
  }

  lemma QuietRetainMirrors(s: Store, file: Store, key: TurnKey, candidate: Failure, id: Option<string>, order: Option<Order>, aliased: bool)
    requires Coherent(s) && Mirrors(file, s) && (NamedOperation(s, id).Some? ==> NamedOperation(s, id).value.turnStart)
    requires !RetainIn(s, key, candidate, id, order, aliased).write
    ensures Mirrors(file, RetainIn(s, key, candidate, id, order, aliased).store)
  {
    var operation := NamedOperation(s, id);
    var retained := Lookup(s, key);
    if candidate.turnId == key.turnId && !(operation.Some? && Mismatched(operation.value, key)) {
      if !Refused(retained, Timed(order, retained)) {
        ExistingIsOfTheTurn(s, key, id, candidate, order, aliased);
        QuietDecision(retained, Fallback(s, key, operation), candidate, operation, key.turnId, order, aliased);
        var d := Decide(retained, Fallback(s, key, operation), candidate, operation, key.turnId, order, aliased);
        QuietEntryMirrors(s, file, key, Failed(d.failure, d.order));
      }
    }
  }

  lemma QuietDecision(
    retained: Option<Retained>, fallback: Option<Failure>, candidate: Failure, operation: Option<Operation>,
    turnId: string, order: Option<Order>, aliased: bool)
    requires !Decide(retained, fallback, candidate, operation, turnId, order, aliased).write
    ensures var d := Decide(retained, fallback, candidate, operation, turnId, order, aliased);
      && EvidenceFor(retained, fallback, candidate, order, aliased).existing == Some(d.failure)
      && SamePersisted(OrderOf(retained), d.order)
  {
  }

  lemma QuietEntryMirrors(s: Store, file: Store, key: TurnKey, next: Retained)
    requires Mirrors(file, s) && next.Failed? && SamePersisted(OrderOf(Lookup(s, key)), next.order)
    requires key in s.failures ==> s.failures[key].Failed? && s.failures[key].failure == next.failure
    requires key !in s.failures ==> FindTerminal(s.operations, key) == Some(next.failure)
    ensures Mirrors(file, Store(s.failures[key := next], s.operations))
  {
  }

  // ----- Clear -----

  /** Recoveries leave tombstones on the turns they change; the other turns keep their state, but for renewed tombstones. */
  lemma {:induction false} ClearedTurnsEffect(failures: map<TurnKey, Retained>, recoveries: seq<Recovery>)
    ensures var (after, cleared) := ClearedTurns(failures, recoveries);
      && failures.Keys <= after.Keys && after.Keys == failures.Keys + cleared
      && (forall k :: k in cleared ==> after[k].Recovered?)
      && (forall k :: k in failures && k !in cleared ==> SameRetained(after[k], failures[k]))
  {
    if recoveries != [] {
      ClearedTurnsEffect(failures, recoveries[..|recoveries| - 1]);
    }
  }

  lemma ClearKeepsCoherent(s: Store, recoveries: seq<Recovery>)
    requires Coherent(s)
    ensures Coherent(ClearIn(s, recoveries))
  {
    ClearedTurnsEffect(s.failures, recoveries);
    var cleared := ClearedTurns(s.failures, recoveries).1;
    var ops := ClearIn(s, recoveries).operations;
    forall k, i | 0 <= i < |ops| && Records(ops[i], k)
      ensures k !in cleared && ops[i] == s.operations[i]
    {
    }
  }

  lemma QuietClearMirrors(s: Store, file: Store, recoveries: seq<Recovery>)
    requires Mirrors(file, s) && !ClearWrites(s, recoveries)
    ensures Mirrors(file, ClearIn(s, recoveries))
  {
    ClearedTurnsEffect(s.failures, recoveries);
    assert Stripped(s.operations, {}) == s.operations;
  }

  // ----- Every run -----

  lemma RetainKeepsInv(w: World, step: Step)
    requires Inv(w) && Enabled(w, step) && step.RetainStep?
    ensures Inv(Next(w, step))
  {
    hide Coherent, RetainIn, Mirrors;
    var RetainStep(key, candidate, id, order, aliased) := step;
    RetainKeepsCoherent(w.memory, key, candidate, id, order, aliased);
    if !RetainIn(w.memory, key, candidate, id, order, aliased).write && Mirrors(LastWritten(w), w.memory) {
      QuietRetainMirrors(w.memory, LastWritten(w), key, candidate, id, order, aliased);
    }
  }

  lemma ClearKeepsInv(w: World, step: Step)
    requires Inv(w) && Enabled(w, step) && step.ClearStep?
    ensures Inv(Next(w, step))
  {
    hide Coherent, ClearIn, Mirrors;
    var recoveries := step.recoveries;
    ClearKeepsCoherent(w.memory, recoveries);
    if !ClearWrites(w.memory, recoveries) && Mirrors(LastWritten(w), w.memory) {
      QuietClearMirrors(w.memory, LastWritten(w), recoveries);
    }
  }

  lemma OperationKeepsInv(w: World, step: Step)
    requires Inv(w) && Enabled(w, step) && (step.BeginStep? || step.BindStep?)
    ensures Inv(Next(w, step))
  {
    var ops := Next(w, step).memory.operations;
    forall k, i | 0 <= i < |ops| && Records(ops[i], k) ensures i < |w.memory.operations| && ops[i] == w.memory.operations[i] {
    }
  }

  lemma StepKeepsInv(w: World, step: Step)
    requires Inv(w) && Enabled(w, step)
    ensures Inv(Next(w, step))
  {
    match step
    case RetainStep(_, _, _, _, _) => RetainKeepsInv(w, step);
    case ClearStep(_) => ClearKeepsInv(w, step);
    case BeginStep(_) => OperationKeepsInv(w, step);
    case BindStep(_, _) => OperationKeepsInv(w, step);
    case _ =>
  }

  lemma {:induction false} RunKeepsInv(file: Store, steps: seq<Step>)
    requires Coherent(file) && After(file, steps).Some?
    ensures Inv(After(file, steps).value)
  {
    if steps != [] {
      RunKeepsInv(file, steps[..|steps| - 1]);
      StepKeepsInv(After(file, steps[..|steps| - 1]).value, steps[|steps| - 1]);
    }
  }

  /**
   Restart transparency: in every run, whenever no write is queued or running
   and the last one did not fail, a restart answers every question about every
   turn as the running journal does, and recalls its evidence up to the
   admission watermark.
   */
  lemma RestartAnswersTheSame(file: Store, steps: seq<Step>, key: TurnKey)
    requires Coherent(file) && After(file, steps).Some?
    requires var w := After(file, steps).value; w.queued == 0 && w.writing.None? && !w.lost
    ensures var w := After(file, steps).value;
      var reloaded := Next(w, Restart).memory;
      && GetFailure(reloaded, key) == GetFailure(w.memory, key)
      && GetRecovery(reloaded, key) == GetRecovery(w.memory, key)
      && SameButAdmission(OrderOf(Lookup(reloaded, key)), OrderOf(Lookup(w.memory, key)))
  {
    RunKeepsInv(file, steps);
    hide After;
    SamePersistedMeans(OrderOf(Lookup(After(file, steps).value.file, key)), OrderOf(Lookup(After(file, steps).value.memory, key)));
  }

  /** Two orders that differ in their admission at most. */
  predicate SameButAdmission(a: Option<Order>, b: Option<Order>) {
    && a.Some? == b.Some?
    && (a.Some? ==>
          && a.value.protocol == b.value.protocol && a.value.scope == b.value.scope
          && a.value.sequence == b.value.sequence && a.value.protocolStartedAt == b.value.protocolStartedAt
          && a.value.failureIdentity == b.value.failureIdentity && a.value.updatedAt == b.value.updatedAt
          && a.value.runIdentity == b.value.runIdentity && a.value.item == b.value.item)
  }

  lemma SamePersistedMeans(a: Option<Order>, b: Option<Order>)
    ensures SamePersisted(a, b) <==> SameButAdmission(a, b)
  {
  }

  // ----- Writes -----

  lemma Extend(file: Store, steps: seq<Step>, w: World, step: Step) returns (longer: seq<Step>)
    requires After(file, steps) == Some(w) && Enabled(w, step)
    ensures After(file, longer) == Some(Next(w, step))
  {
    longer := steps + [step];
    assert longer[..|longer| - 1] == steps;
  }

  /** Writes that go through bring the file to memory, whatever was lost before: from then on a restart forgets nothing. */
  lemma {:induction false} QueuedWritesGoThrough(file: Store, steps: seq<Step>) returns (longer: seq<Step>)
    requires After(file, steps).Some?
    requires var w := After(file, steps).value; w.writing.None? && w.queued > 0
    ensures var w := After(file, steps).value;
      After(file, longer) == Some(World(w.memory, w.memory, None, 0, false))
    decreases After(file, steps).value.queued
  {
    var w := After(file, steps).value;
    hide After;
    longer := Extend(file, steps, w, StartWrite);
    longer := Extend(file, longer, Next(w, StartWrite), FinishWrite);
    if w.queued > 1 {
      longer := QueuedWritesGoThrough(file, longer);
    }
  }

  /** A new operation is remembered last and asks for a write, and so does binding one to its turn; other operations stay. */
  lemma OperationsAreRemembered(w: World, op: Operation, n: nat, turnId: string)
    ensures Enabled(w, BeginStep(op)) ==>
      var v := Next(w, BeginStep(op));
      && v == w.(memory := v.memory, queued := w.queued + 1) && v.memory.failures == w.memory.failures
      && v.memory.operations == w.memory.operations + [op]
    ensures Enabled(w, BindStep(n, turnId)) ==>
      var v := Next(w, BindStep(n, turnId));
      && v == w.(memory := v.memory, queued := w.queued + 1) && v.memory.failures == w.memory.failures
      && |v.memory.operations| == |w.memory.operations|
      && forall i :: 0 <= i < |w.memory.operations| ==>
           v.memory.operations[i] == if i == n then w.memory.operations[i].(turnId := Some(turnId)) else w.memory.operations[i]
  {
  }

  /** A failed write leaves memory and file as they were; a restart takes the file for memory and drops what was queued. */
  lemma FailuresLeaveTheFile(w: World)
    ensures Enabled(w, FailWrite) ==> Next(w, FailWrite) == World(w.memory, w.file, None, w.queued, true)
    ensures Next(w, Restart) == World(w.file, w.file, None, 0, false)
  {
  }
}
