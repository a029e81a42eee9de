/**
 The journal's failure records (src/operations/journal.ts): the in-memory maps
 that retainTerminalFailure and clearTerminalFailures update in place, when they
 ask for a file write, and what a restart therefore remembers.
 */
module FailureStore {
  import opened Options
  import opened FailureOrder
  import opened FailureMerge

  datatype TurnKey = TurnKey(threadId: string, turnId: string)

  /** An operation record, as far as failures concern it. */
  datatype Operation = Operation(
    operationId: string,
    turnStart: bool,
    threadId: Option<string>,
    turnId: Option<string>,
    terminal: Option<Failure>,
    admitted: Option<Admitted>)

  datatype Store = Store(failures: map<TurnKey, Retained>, operations: seq<Operation>)

  datatype Recovery = Recovery(key: TurnKey, state: RecoveredState, order: Option<Order>)

  datatype RetainError = TurnMismatch | OperationMismatch

  /** The store after a retain call, its answer, and whether it asks for a write. */
  datatype Retention = Retention(store: Store, answer: Result<Option<Failure>, RetainError>, write: bool)

  /** The index of the first operation with the id, or the number of operations. */
  function FindOperation(ops: seq<Operation>, id: string): (i: nat)
    ensures i <= |ops|
    ensures i < |ops| ==> ops[i].operationId == id
    ensures forall j :: 0 <= j < i ==> ops[j].operationId != id
  {
    if ops == [] || ops[0].operationId == id then 0 else 1 + FindOperation(ops[1..], id)
  }

  /** The run operation records a terminal failure of the turn. */
  predicate Records(op: Operation, key: TurnKey) {
    && op.turnStart && op.threadId == Some(key.threadId) && op.turnId == Some(key.turnId)
    && op.terminal.Some? && op.terminal.value.turnId == key.turnId
  }

  /** The terminal failure of the first run operation that records one for the turn. */
  function FindTerminal(ops: seq<Operation>, key: TurnKey): (f: Option<Failure>)
    ensures f.Some? ==> exists i :: 0 <= i < |ops| && Records(ops[i], key) && ops[i].terminal == f
    ensures f.None? ==> forall i :: 0 <= i < |ops| ==> !Records(ops[i], key)
  {
    if ops == [] then None
    else if Records(ops[0], key) then ops[0].terminal
    else FindTerminal(ops[1..], key)
  }

  function Lookup(store: Store, key: TurnKey): Option<Retained> {
    if key in store.failures then Some(store.failures[key]) else None
  }

  /** getFailureByTurnId */
  function GetFailure(store: Store, key: TurnKey): Option<Failure> {
    match Lookup(store, key)
    case Some(Failed(f, _)) => Some(f)
    case Some(Recovered(_, _)) => None
    case None => FindTerminal(store.operations, key)
  }

  /** getRecoveryByTurnId */
  function GetRecovery(store: Store, key: TurnKey): Option<RecoveredState> {
    match Lookup(store, key)
    case Some(Recovered(state, _)) => Some(state)
    case _ => None
  }

  predicate Mismatched(op: Operation, key: TurnKey) {
    op.threadId != Some(key.threadId) || (op.turnId.Some? && op.turnId != Some(key.turnId))
  }

  /** The failure a candidate competes with when nothing is retained for its turn. */
  function Fallback(store: Store, key: TurnKey, operation: Option<Operation>): Option<Failure> {
    OrElse(if operation.Some? then operation.value.terminal else None, FindTerminal(store.operations, key))
  }

  function NamedOperation(store: Store, operationId: Option<string>): Option<Operation> {
    if operationId.Some? then
      var i := FindOperation(store.operations, operationId.value);
      if i < |store.operations| then Some(store.operations[i]) else None
    else None
  }

  /** What is retained next, and whether that needs a write. */
  datatype Decision = Decision(failure: Failure, order: Option<Order>, write: bool)

  function Decide(
    retained: Option<Retained>, fallback: Option<Failure>, candidate: Failure, operation: Option<Operation>,
    turnId: string, observed: Option<Order>, aliased: bool): Decision
  {
    var e := EvidenceFor(retained, fallback, candidate, observed, aliased);
    var failure := e.NextFailure(if operation.Some? then operation.value.admitted else None);
    var operationChanged := operation.Some?
                            && (operation.value.turnId != Some(turnId) || operation.value.terminal != Some(failure));
    var same := e.existing == Some(failure) && SamePersisted(e.stored, e.NextOrder()) && !operationChanged;
    Decision(failure, e.NextOrder(), !same)
  }

  /** retainTerminalFailure */
  function RetainIn(
    store: Store, key: TurnKey, candidate: Failure, operationId: Option<string>, observed: Option<Order>, aliased: bool): Retention
  {
    if candidate.turnId != key.turnId then Retention(store, Err(TurnMismatch), false)
    else
      var operation := NamedOperation(store, operationId);
      if operation.Some? && Mismatched(operation.value, key) then Retention(store, Err(OperationMismatch), false)
      else
        var retained := Lookup(store, key);
        if Refused(retained, Timed(observed, retained)) then Retention(store, Ok(None), false)
        else
          var d := Decide(retained, Fallback(store, key, operation), candidate, operation, key.turnId, observed, aliased);
          Retention(
            Store(store.failures[key := Failed(d.failure, d.order)],
                  if d.write then Recorded(store.operations, operationId, key, d.failure) else store.operations),
            Ok(Some(d.failure)), d.write)
  }

  /** The operations with the failure recorded on the named one. */
  function Recorded(ops: seq<Operation>, operationId: Option<string>, key: TurnKey, failure: Failure): (r: seq<Operation>)
    ensures |r| == |ops|
  {
    if operationId.None? || FindOperation(ops, operationId.value) == |ops| then ops
    else
      var i := FindOperation(ops, operationId.value);
      ops[i := ops[i].(turnId := Some(key.turnId), terminal := Some(failure))]
  }

  /** Whether a recovery that is not skipped only renews the tombstone already there. */
  predicate Renews(retained: Option<Retained>, recovery: Recovery) {
    && retained.Some? && retained.value.Recovered? && retained.value.state == recovery.state
    && SamePersisted(retained.value.order, OrderOf(Clear(retained, recovery.state, recovery.order)))
  }

  /** The failures after the recoveries, and the turns whose records they changed. */
  function ClearedTurns(failures: map<TurnKey, Retained>, recoveries: seq<Recovery>): (map<TurnKey, Retained>, set<TurnKey>) {
    if recoveries == [] then (failures, {})
    else
      var (before, cleared) := ClearedTurns(failures, recoveries[..|recoveries| - 1]);
      var r := recoveries[|recoveries| - 1];
      var retained := if r.key in before then Some(before[r.key]) else None;
      if Skipped(retained, r.order) then (before, cleared)
      else
        (before[r.key := Clear(retained, r.state, r.order).value], if Renews(retained, r) then cleared else cleared + {r.key})
  }

  predicate Clears(op: Operation, cleared: set<TurnKey>) {
    && op.turnStart && op.threadId.Some? && op.turnId.Some? && op.terminal.Some?
    && TurnKey(op.threadId.value, op.turnId.value) in cleared
  }

  function Stripped(ops: seq<Operation>, cleared: set<TurnKey>): (r: seq<Operation>)
    ensures |r| == |ops|
    ensures forall i :: 0 <= i < |ops| ==> r[i] == if Clears(ops[i], cleared) then ops[i].(terminal := None) else ops[i]
  {
    seq(|ops|, i requires 0 <= i < |ops| => if Clears(ops[i], cleared) then ops[i].(terminal := None) else ops[i])
  }

  /** clearTerminalFailures */
  function ClearIn(store: Store, recoveries: seq<Recovery>): Store {
    var (failures, cleared) := ClearedTurns(store.failures, recoveries);
    Store(failures, Stripped(store.operations, cleared))
  }

  predicate ClearWrites(store: Store, recoveries: seq<Recovery>) {
    ClearedTurns(store.failures, recoveries).1 != {}
  }

  class FailureJournal {
    var failures: map<TurnKey, Retained>
    var operations: seq<Operation>
    /** How many times persist has been called. */
    var writesRequested: nat

    ghost function Contents(): Store
      reads this
    {
      Store(failures, operations)
    }

    constructor (loaded: Store)
      ensures Contents() == loaded && writesRequested == 0
    {
      failures, operations, writesRequested := loaded.failures, loaded.operations, 0;
    }

    method FindNamed(operationId: Option<string>) returns (i: nat)
      ensures i == if operationId.Some? then FindOperation(operations, operationId.value) else |operations|
    {
      if operationId.None? { return |operations|; }
      i := 0;
      while i < |operations| && operations[i].operationId != operationId.value
        invariant i <= |operations|
        invariant forall j :: 0 <= j < i ==> operations[j].operationId != operationId.value
      {
        i := i + 1;
      }
    }

    method FindLegacy(key: TurnKey) returns (failure: Option<Failure>)
      ensures failure == FindTerminal(operations, key)
    {
      var i := 0;
      while i < |operations| && !Records(operations[i], key)
        invariant i <= |operations|
        invariant FindTerminal(operations, key) == FindTerminal(operations[i..], key)
      {
        assert operations[i..][1..] == operations[i + 1..];
        i := i + 1;
      }
      failure := if i < |operations| then operations[i].terminal else None;
    }

    method RetainTerminalFailure(
      key: TurnKey, candidate: Failure, operationId: Option<string>, observed: Option<Order>, aliased: bool)
      returns (answer: Result<Option<Failure>, RetainError>)
      modifies this
      ensures var r := RetainIn(old(Contents()), key, candidate, operationId, observed, aliased);
        && Contents() == r.store && answer == r.answer
        && writesRequested == old(writesRequested) + if r.write then 1 else 0
    {
      hide Decide, Refused, Timed, Mismatched, FindOperation, FindTerminal;
      if candidate.turnId != key.turnId { return Err(TurnMismatch); }
      var i := FindNamed(operationId);
      var operation := if i < |operations| then Some(operations[i]) else None;
      if operation.Some? && Mismatched(operation.value, key) { return Err(OperationMismatch); }
      var legacy := FindLegacy(key);
      var retained := if key in failures then Some(failures[key]) else None;
      if Refused(retained, Timed(observed, retained)) { return Ok(None); }
      var fallback := OrElse(if operation.Some? then operation.value.terminal else None, legacy);
      var d := Decide(retained, fallback, candidate, operation, key.turnId, observed, aliased);
      failures := failures[key := Failed(d.failure, d.order)];
      answer := Ok(Some(d.failure));
      if d.write {
        if operation.Some? {
          operations := operations[i := operation.value.(turnId := Some(key.turnId), terminal := Some(d.failure))];
        }
        writesRequested := writesRequested + 1;
      }
    }

    method ClearTerminalFailures(recoveries: seq<Recovery>)
      modifies this
      ensures Contents() == ClearIn(old(Contents()), recoveries)
      ensures writesRequested == old(writesRequested) + if ClearWrites(old(Contents()), recoveries) then 1 else 0
    {
      var cleared: set<TurnKey> := {};
      for n := 0 to |recoveries|
        invariant (failures, cleared) == ClearedTurns(old(failures), recoveries[..n])
        invariant operations == old(operations) && writesRequested == old(writesRequested)
      {
        assert recoveries[..n + 1][..n] == recoveries[..n];
        var r := recoveries[n];
        var retained := if r.key in failures then Some(failures[r.key]) else None;
        if !Skipped(retained, r.order) {
          if !Renews(retained, r) {
            cleared := cleared + {r.key};
          }
          failures := failures[r.key := Clear(retained, r.state, r.order).value];
        }
      }
      assert recoveries[..|recoveries|] == recoveries;
      if cleared == {} {
        assert operations == Stripped(operations, cleared);
        return;
      }
      for i := 0 to |operations|
        invariant |operations| == |old(operations)|
        invariant forall j :: 0 <= j < i ==> operations[j] == Stripped(old(operations), cleared)[j]
        invariant forall j :: i <= j < |operations| ==> operations[j] == old(operations)[j]
        invariant failures == ClearedTurns(old(failures), recoveries).0 && writesRequested == old(writesRequested)
      {
        if Clears(operations[i], cleared) {
          operations := operations[i := operations[i].(terminal := None)];
        }
      }
      assert operations == Stripped(old(operations), cleared);
      writesRequested := writesRequested + 1;
    }
  }
}
