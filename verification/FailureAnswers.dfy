/**
 What the journal answers about a turn after it was told of a failure or a
 recovery, what it records on the run's operation, and when it writes
 (src/operations/journal.ts:423-595).
 */
module FailureAnswers {
  import opened Options
  import opened FailureAttribution
  import opened FailureMerge
  import opened FailureOrder
  import opened FailureRecovery
  import opened FailureStore
  import opened FailureTurns
  import opened Watermark

  // ----- Answers -----

  /** The operation is one of another thread, or bound to another turn. */
  predicate OfAnotherTurn(op: Operation, key: TurnKey) {
    op.threadId != Some(key.threadId) || op.turnId !in {None, Some(key.turnId)}
  }

  /** A retain fails exactly if the candidate or the named operation is of another turn, and then it changes nothing. */
  lemma MismatchFailsExactly(
    store: Store, key: TurnKey, candidate: Failure, id: Option<string>, observed: Option<Order>, aliased: bool)
    ensures var r := RetainIn(store, key, candidate, id, observed, aliased);
      && (r.answer == Err(TurnMismatch) <==> candidate.turnId != key.turnId)
      && (r.answer == Err(OperationMismatch) <==>
            && candidate.turnId == key.turnId && NamedOperation(store, id).Some?
            && OfAnotherTurn(NamedOperation(store, id).value, key))
      && (r.answer.Err? ==> r.store == store && !r.write)
  {
  }

  /** What is told of a turn. */
  predicate Tells(store: Store, key: TurnKey, failure: Option<Failure>, recovery: Option<RecoveredState>) {
    GetFailure(store, key) == failure && GetRecovery(store, key) == recovery
  }

  /** A failure that is taken is what the journal tells of the turn from then on; one kept out by a recovery changes nothing. */
  lemma TakenFailureIsTold(
    store: Store, key: TurnKey, candidate: Failure, id: Option<string>, observed: Option<Order>, aliased: bool)
    requires RetainIn(store, key, candidate, id, observed, aliased).answer.Ok?
    ensures var r := RetainIn(store, key, candidate, id, observed, aliased);
      if r.answer.value.Some? then Tells(r.store, key, r.answer.value, None)
      else r.store == store && !r.write && GetFailure(store, key) == None && GetRecovery(store, key).Some?
  {
  }

  /** A recovery that is not overtaken is what the journal tells of the turn from then on, and no failure. */
  lemma TakenRecoveryIsTold(store: Store, recoveries: seq<Recovery>)
    requires recoveries != []
    ensures var before := ClearIn(store, recoveries[..|recoveries| - 1]);
      var last := recoveries[|recoveries| - 1];
      !Overtaken(Lookup(before, last.key), last.order) ==>
        Tells(ClearIn(store, recoveries), last.key, None, Some(last.state))
  {
    var before := ClearIn(store, recoveries[..|recoveries| - 1]);
    var last := recoveries[|recoveries| - 1];
    assert Lookup(before, last.key) == Find(ClearedTurns(store.failures, recoveries[..|recoveries| - 1]).0, last.key);
    TombstoneHoldsTheState(Lookup(before, last.key), last.state, last.order);
  }

  /** Where nothing is retained, the first run operation that records a failure of the turn answers. */
  lemma RecordedFailureIsTold(store: Store, key: TurnKey)
    requires key !in store.failures
    ensures GetRecovery(store, key).None?
    ensures GetFailure(store, key).None? <==> forall i :: 0 <= i < |store.operations| ==> !Records(store.operations[i], key)
    ensures GetFailure(store, key).Some? ==>
      exists i: nat :: IsFirstRecord(store.operations, key, i) && store.operations[i].terminal == GetFailure(store, key)
  {
    if GetFailure(store, key).Some? {
      var i := FirstRecord(store.operations, key);
      assert IsFirstRecord(store.operations, key, i);
    }
  }

  predicate IsFirstRecord(ops: seq<Operation>, key: TurnKey, i: nat) {
    i < |ops| && Records(ops[i], key) && forall j :: 0 <= j < i ==> !Records(ops[j], key)
  }

  lemma {:induction false} FirstRecord(ops: seq<Operation>, key: TurnKey) returns (i: nat)
    requires FindTerminal(ops, key).Some?
    ensures IsFirstRecord(ops, key, i) && ops[i].terminal == FindTerminal(ops, key)
  {
    if Records(ops[0], key) {
      i := 0;
    } else {
      var k := FirstRecord(ops[1..], key);
      i := k + 1;
      assert ops[i] == ops[1..][k];
      forall j | 0 <= j < i ensures !Records(ops[j], key) {
        assert j > 0 ==> ops[j] == ops[1..][j - 1];
      }
    }
  }

  /** A new failure competes with the retained one, else with the named operation's own, else with the first one recorded. */
  lemma CompetitorIsFound(store: Store, key: TurnKey, id: Option<string>)
    ensures var named := NamedOperation(store, id);
      Competitor(Lookup(store, key), Fallback(store, key, named)) ==
        if key in store.failures && store.failures[key].Failed? then Some(store.failures[key].failure)
        else if named.Some? && named.value.terminal.Some? then named.value.terminal
        else FindTerminal(store.operations, key)
    ensures id.None? ==> NamedOperation(store, id).None?
    ensures id.Some? ==> (NamedOperation(store, id).None? <==> forall op <- store.operations :: op.operationId != id.value)
    ensures id.Some? ==> forall i :: 0 <= i < |store.operations| && IsFirstNamed(store.operations, id.value, i) ==>
                           NamedOperation(store, id) == Some(store.operations[i])
  {
    if id.Some? {
      var n := FindOperation(store.operations, id.value);
      forall i | 0 <= i < |store.operations| && IsFirstNamed(store.operations, id.value, i) ensures i == n {
      }
      assert n < |store.operations| ==> store.operations[n] in store.operations;
    }
  }

  // ----- The run's operation -----

  /** A failure that is taken stands on the named operation, bound to the turn; no other operation is touched. */
  lemma OperationRecordsTheFailure(
    store: Store, key: TurnKey, candidate: Failure, id: Option<string>, observed: Option<Order>, aliased: bool)
    requires var answer := RetainIn(store, key, candidate, id, observed, aliased).answer; answer.Ok? && answer.value.Some?
    ensures var r := RetainIn(store, key, candidate, id, observed, aliased);
      && |r.store.operations| == |store.operations|
      && forall i :: 0 <= i < |store.operations| ==>
           r.store.operations[i] ==
             if id.Some? && IsFirstNamed(store.operations, id.value, i)
             then store.operations[i].(turnId := Some(key.turnId), terminal := r.answer.value)
             else store.operations[i]
  {
    if id.Some? {
      var n := FindOperation(store.operations, id.value);
      forall i | 0 <= i < |store.operations| && IsFirstNamed(store.operations, id.value, i) ensures i == n {
      }
    }
  }

  predicate IsFirstNamed(ops: seq<Operation>, id: string, i: nat) {
    i < |ops| && ops[i].operationId == id && forall j :: 0 <= j < i ==> ops[j].operationId != id
  }

  /** The run operation recorded a failure of a turn that has recovered. */
  predicate RecoveredRun(op: Operation, changed: set<TurnKey>) {
    && op.turnStart && op.terminal.Some? && op.threadId.Some? && op.turnId.Some?
    && TurnKey(op.threadId.value, op.turnId.value) in changed
  }

  /** The turns whose record a list of recoveries changes: each is told as recovered from then on, and not only anew. */
  function ChangedTurns(store: Store, recoveries: seq<Recovery>): set<TurnKey> {
    ClearedTurns(store.failures, recoveries).1
  }

  /** A turn is changed exactly if one of its recoveries is neither overtaken nor the one already recorded. */
  lemma {:induction false} ChangedExactly(store: Store, recoveries: seq<Recovery>, key: TurnKey)
    ensures key in ChangedTurns(store, recoveries) <==>
      exists i :: 0 <= i < |recoveries| && recoveries[i].key == key
                  && ChangesRecord(Lookup(ClearIn(store, recoveries[..i]), key), recoveries[i])
  {
    if recoveries != [] {
      var n := |recoveries| - 1;
      var most, r := recoveries[..n], recoveries[n];
      ChangedExactly(store, most, key);
      assert forall i :: 0 <= i < n ==> most[..i] == recoveries[..i] && most[i] == recoveries[i];
      var before := Lookup(ClearIn(store, most), r.key);
      assert before == Find(ClearedTurns(store.failures, most).0, r.key);
      if r.key == key {
        TombstoneHoldsTheState(before, r.state, r.order);
        assert ChangesRecord(before, recoveries[n]) <==> !Skipped(before, r.order) && !Renews(before, r);
      }
    }
  }

  /** The recovery is not overtaken, and a restart would not tell it from what is recorded. */
  predicate ChangesRecord(retained: Option<Retained>, r: Recovery) {
    && !Overtaken(retained, r.order)
    && !(retained.Some? && retained.value.Recovered? && retained.value.state == r.state
         && SamePersisted(retained.value.order, OrderOf(Apply(retained, ClearCall(r.state, r.order)))))
  }

  /** Recoveries take the recorded failures of the turns they change off the run operations, and nothing else. */
  lemma OperationsForgetTheFailure(store: Store, recoveries: seq<Recovery>)
    ensures var after := ClearIn(store, recoveries);
      && |after.operations| == |store.operations|
      && forall i :: 0 <= i < |store.operations| ==>
           after.operations[i] ==
             if RecoveredRun(store.operations[i], ChangedTurns(store, recoveries))
             then store.operations[i].(terminal := None) else store.operations[i]
  {
  }

  // ----- Writes -----

  /** A retain asks for a write exactly if the reason, the order up to its admission, or the operation is not as before. */
  lemma RetainWritesExactly(
    store: Store, key: TurnKey, candidate: Failure, id: Option<string>, observed: Option<Order>, aliased: bool)
    requires var answer := RetainIn(store, key, candidate, id, observed, aliased).answer; answer.Ok? && answer.value.Some?
    ensures var r, operation := RetainIn(store, key, candidate, id, observed, aliased), NamedOperation(store, id);
      !r.write <==>
        && Competitor(Lookup(store, key), Fallback(store, key, operation)) == r.answer.value
        && SamePersisted(OrderOf(Lookup(store, key)), OrderOf(Lookup(r.store, key)))
        && (operation.Some? ==> operation.value.turnId == Some(key.turnId) && operation.value.terminal == r.answer.value)
  {
  }

  /** A list of recoveries asks for a write exactly if one of them changes the record of its turn. */
  lemma ClearWritesExactly(store: Store, recoveries: seq<Recovery>)
    ensures ClearWrites(store, recoveries) <==>
      exists i :: 0 <= i < |recoveries|
                  && ChangesRecord(Lookup(ClearIn(store, recoveries[..i]), recoveries[i].key), recoveries[i])
  {
    hide ChangesRecord, ClearIn, Lookup;
    var changed := ChangedTurns(store, recoveries);
    assert ClearWrites(store, recoveries) == (changed != {});
    if changed != {} {
      var key :| key in changed;
      ChangedExactly(store, recoveries, key);
    }
    if i :| 0 <= i < |recoveries|
            && ChangesRecord(Lookup(ClearIn(store, recoveries[..i]), recoveries[i].key), recoveries[i]) {
      ChangedExactly(store, recoveries, recoveries[i].key);
    }
  }
}
