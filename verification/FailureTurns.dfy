/**
 How journal calls about many turns look to one of them (src/operations/journal.ts:445-594):
 every call is a run of retain and clear calls on each turn it names, and
 leaves the others alone. This carries what holds for one turn over to the journal.
 */
module FailureTurns {
  import opened Options
  import opened FailureOrder
  import opened FailureMerge
  import opened FailureStore
  import opened Watermark

  /** A retain that is not refused as a mismatch is one retain call on its turn. */
  lemma RetainIsOneCall(
    store: Store, key: TurnKey, other: TurnKey, candidate: Failure, id: Option<string>, observed: Option<Order>, aliased: bool)
    ensures var r := RetainIn(store, key, candidate, id, observed, aliased);
      var operation := NamedOperation(store, id);
      && (other != key ==> Lookup(r.store, other) == Lookup(store, other))
      && (r.answer.Err? ==> r.store == store)
      && (r.answer.Ok? ==>
            Lookup(r.store, key)
            == Apply(Lookup(store, key),
                     RetainCall(candidate, observed, Fallback(store, key, operation), aliased,
                                if operation.Some? then operation.value.admitted else None)))
      && (r.answer.Ok? ==> GetFailure(r.store, key) == r.answer.value || r.answer.value.None?)
  {
  }

  /** The clear calls that a list of recoveries makes on one turn. */
  function ClearCalls(recoveries: seq<Recovery>, key: TurnKey): seq<Call> {
    if recoveries == [] then []
    else
      var r := recoveries[|recoveries| - 1];
      ClearCalls(recoveries[..|recoveries| - 1], key) + if r.key == key then [ClearCall(r.state, r.order)] else []
  }

  function Find(failures: map<TurnKey, Retained>, key: TurnKey): Option<Retained> {
    if key in failures then Some(failures[key]) else None
  }

  lemma AfterOne(start: Option<Retained>, calls: seq<Call>, call: Call)
    ensures After(start, calls + [call]) == Apply(After(start, calls), call)
  {
    assert (calls + [call])[..|calls|] == calls;
  }

  lemma {:induction false} ClearedTurnsAreRuns(failures: map<TurnKey, Retained>, recoveries: seq<Recovery>, key: TurnKey)
    ensures Find(ClearedTurns(failures, recoveries).0, key) == After(Find(failures, key), ClearCalls(recoveries, key))
  {
    if recoveries != [] {
      var n := |recoveries| - 1;
      ClearedTurnsAreRuns(failures, recoveries[..n], key);
      if recoveries[n].key == key {
        AfterOne(Find(failures, key), ClearCalls(recoveries[..n], key), ClearCall(recoveries[n].state, recoveries[n].order));
      } else {
        assert ClearCalls(recoveries, key) == ClearCalls(recoveries[..n], key);
      }
    }
  }

  /** A list of recoveries is, for each turn, the run of its own clear calls. */
  lemma ClearIsARun(store: Store, recoveries: seq<Recovery>, key: TurnKey)
    ensures Lookup(ClearIn(store, recoveries), key) == After(Lookup(store, key), ClearCalls(recoveries, key))
  {
    ClearedTurnsAreRuns(store.failures, recoveries, key);
  }

  // ----- Runs of journal calls -----

  datatype JournalCall =
    | Retaining(key: TurnKey, candidate: Failure, id: Option<string>, observed: Option<Order>, aliased: bool)
    | Clearing(recoveries: seq<Recovery>)

  function ApplyJournal(store: Store, call: JournalCall): Store {
    match call
    case Retaining(key, candidate, id, observed, aliased) => RetainIn(store, key, candidate, id, observed, aliased).store
    case Clearing(recoveries) => ClearIn(store, recoveries)
  }

  function AfterJournal(store: Store, calls: seq<JournalCall>): Store {
    if calls == [] then store else ApplyJournal(AfterJournal(store, calls[..|calls| - 1]), calls[|calls| - 1])
  }

  /** The calls on one turn that one journal call amounts to. */
  function CallsOn(store: Store, call: JournalCall, key: TurnKey): seq<Call> {
    match call
    case Retaining(k, candidate, id, observed, aliased) =>
      if k != key || RetainIn(store, k, candidate, id, observed, aliased).answer.Err? then []
      else
        var operation := NamedOperation(store, id);
        [RetainCall(candidate, observed, Fallback(store, key, operation), aliased,
                    if operation.Some? then operation.value.admitted else None)]
    case Clearing(recoveries) => ClearCalls(recoveries, key)
  }

  /** The calls on one turn that a run of journal calls amounts to. */
  function TurnRun(store: Store, calls: seq<JournalCall>, key: TurnKey): seq<Call> {
    if calls == [] then []
    else
      var n := |calls| - 1;
      TurnRun(store, calls[..n], key) + CallsOn(AfterJournal(store, calls[..n]), calls[n], key)
  }

  lemma {:induction false} AfterAppend(start: Option<Retained>, a: seq<Call>, b: seq<Call>)
    ensures After(start, a + b) == After(After(start, a), b)
  {
    if b == [] {
      assert a + b == a;
    } else {
      var n := |b| - 1;
      AfterAppend(start, a, b[..n]);
      assert (a + b)[..|a + b| - 1] == a + b[..n];
    }
  }

  /** One journal call on one turn. */
  lemma CallIsARun(store: Store, call: JournalCall, key: TurnKey)
    ensures Lookup(ApplyJournal(store, call), key) == After(Lookup(store, key), CallsOn(store, call, key))
  {
    match call
    case Retaining(k, candidate, id, observed, aliased) =>
      RetainIsOneCall(store, k, key, candidate, id, observed, aliased);
      var calls := CallsOn(store, call, key);
      if calls != [] {
        AfterOne(Lookup(store, key), [], calls[0]);
        assert [] + [calls[0]] == calls;
      }
    case Clearing(recoveries) => ClearIsARun(store, recoveries, key);
  }

  /** For each turn, any run of journal calls about any turns is a run of calls on that turn. */
  lemma {:induction false} JournalRunIsTurnRun(store: Store, calls: seq<JournalCall>, key: TurnKey)
    ensures Lookup(AfterJournal(store, calls), key) == After(Lookup(store, key), TurnRun(store, calls, key))
  {
    if calls != [] {
      var n := |calls| - 1;
      var before := AfterJournal(store, calls[..n]);
      JournalRunIsTurnRun(store, calls[..n], key);
      CallIsARun(before, calls[n], key);
      AfterAppend(Lookup(store, key), TurnRun(store, calls[..n], key), CallsOn(before, calls[n], key));
    }
  }

  lemma {:induction false} TurnRunGrows(store: Store, calls: seq<JournalCall>, key: TurnKey, i: nat)
    requires i <= |calls|
    ensures TurnRun(store, calls[..i], key) <= TurnRun(store, calls, key)
    decreases |calls| - i
  {
    if i == |calls| {
      assert calls[..i] == calls;
    } else {
      TurnRunGrows(store, calls, key, i + 1);
      assert calls[..i + 1][..i] == calls[..i];
    }
  }

  /** What a run of journal calls must be for one turn: the gateway's orders, with admissions that differ across protocols. */
  ghost predicate GatewayRun(store: Store, calls: seq<JournalCall>, key: TurnKey) {
    var start, run := Lookup(store, key), TurnRun(store, calls, key);
    Clean(start) && FromGateway(start, run) && DistinctAdmissions(start, run)
  }

  function StoredOrder(store: Store, calls: seq<JournalCall>, key: TurnKey): Option<Order> {
    OrderOf(Lookup(AfterJournal(store, calls), key))
  }

  /** The order stored at a moment, as a state of the run of calls on the turn. */
  lemma MomentOfTheRun(store: Store, calls: seq<JournalCall>, key: TurnKey, i: nat)
    requires i <= |calls|
    ensures var run, n := TurnRun(store, calls, key), |TurnRun(store, calls[..i], key)|;
      n <= |run| && StoredOrder(store, calls[..i], key) == OrderOf(After(Lookup(store, key), run[..n]))
  {
    hide AfterJournal, TurnRun, After, Lookup;
    var run, first := TurnRun(store, calls, key), TurnRun(store, calls[..i], key);
    JournalRunIsTurnRun(store, calls[..i], key);
    TurnRunGrows(store, calls, key, i);
    assert run[..|first|] == first;
  }

  /** The orders stored at two moments, as states of one run of calls on the turn. */
  lemma MomentsOfTheRun(store: Store, calls: seq<JournalCall>, key: TurnKey, i: nat, j: nat)
    requires i <= j <= |calls|
    ensures var start, run := Lookup(store, key), TurnRun(store, calls, key);
      var n, m := |TurnRun(store, calls[..i], key)|, |TurnRun(store, calls[..j], key)|;
      && n <= m <= |run|
      && StoredOrder(store, calls[..i], key) == OrderOf(After(start, run[..n]))
      && StoredOrder(store, calls[..j], key) == OrderOf(After(start, run[..m]))
  {
    hide StoredOrder, TurnRun, After, Lookup, OrderOf;
    MomentOfTheRun(store, calls, key, i);
    MomentOfTheRun(store, calls, key, j);
    assert calls[..j][..i] == calls[..i];
    TurnRunGrows(store, calls[..j], key, i);
  }

  /**
   The watermark of the whole journal: over any run of calls about any turns, at
   any two moments, era and admission of the order stored for a turn have not
   gone back; and from one call on the turn to the next it compares at or above.
   */
  lemma JournalNeverMovesBack(store: Store, calls: seq<JournalCall>, key: TurnKey, i: nat, j: nat)
    requires i <= j <= |calls| && GatewayRun(store, calls, key)
    ensures var early, late := StoredOrder(store, calls[..i], key), StoredOrder(store, calls[..j], key);
      && (early.Some? ==> late.Some? && Era(early.value) <= Era(late.value) && Admission(early.value) <= Admission(late.value))
      && (late.Some? ==> Stored(late.value))
      && (early.Some? && |TurnRun(store, calls[..j], key)| == |TurnRun(store, calls[..i], key)| + 1 ==>
            Advanced(early.value, late.value))
  {
    var start, run := Lookup(store, key), TurnRun(store, calls, key);
    var n, m := |TurnRun(store, calls[..i], key)|, |TurnRun(store, calls[..j], key)|;
    MomentsOfTheRun(store, calls, key, i, j);
    NeverBackBetween(start, run, n, m);
    if m == n + 1 {
      WatermarkNeverMovesBack(start, run, n);
    }
  }

  lemma {:induction false} NeverBackBetween(start: Option<Retained>, run: seq<Call>, n: nat, m: nat)
    requires n <= m <= |run| && Clean(start) && FromGateway(start, run) && DistinctAdmissions(start, run)
    ensures var early, late := OrderOf(After(start, run[..n])), OrderOf(After(start, run[..m]));
      && (early.Some? ==> late.Some? && Era(early.value) <= Era(late.value) && Admission(early.value) <= Admission(late.value))
      && (late.Some? ==> Stored(late.value))
  {
    hide After, FromGateway, DistinctAdmissions;
    if n < m {
      NeverBackBetween(start, run, n, m - 1);
      WatermarkNeverMovesBack(start, run, m - 1);
    } else {
      RunIsClean(start, run, n);
    }
  }

  lemma RunIsClean(start: Option<Retained>, run: seq<Call>, n: nat)
    requires n <= |run| && Clean(start) && FromGateway(start, run) && DistinctAdmissions(start, run)
    ensures Clean(After(start, run[..n]))
  {
    RunStaysClean(start, run);
  }

  /**
   At any two moments, where the scope tells whether an order has an update
   time, the order stored for a turn is at or above what it was on era, sequence,
   update time and scope.
   */
  lemma JournalWatermarkAdvances(store: Store, calls: seq<JournalCall>, key: TurnKey, i: nat, j: nat, shape: Shape)
    requires i <= j <= |calls| && GatewayRun(store, calls, key)
    requires DatedRun(Lookup(store, key), TurnRun(store, calls, key), shape)
    ensures NoLowerPlace(StoredOrder(store, calls[..i], key), StoredOrder(store, calls[..j], key), shape)
    ensures UniformRun(Lookup(store, key), TurnRun(store, calls, key), shape) ==>
              NoLowerKey(StoredOrder(store, calls[..i], key), StoredOrder(store, calls[..j], key), shape)
  {
    hide AfterJournal, TurnRun, After, Clean, FromGateway, DistinctAdmissions, DatedRun, UniformRun, NoLowerPlace, NoLowerKey;
    MomentsOfTheRun(store, calls, key, i, j);
    KeyNeverDecreases(Lookup(store, key), TurnRun(store, calls, key),
                      |TurnRun(store, calls[..i], key)|, |TurnRun(store, calls[..j], key)|, shape);
  }

  /**
   Two journals that saw the same protocol-2 facts about a turn, among whatever
   else and in whatever order, agree on whether it recovered and on its watermark.
   */
  lemma JournalsConverge(store: Store, one: seq<JournalCall>, other: seq<JournalCall>, key: TurnKey, era: nat)
    requires var start := Lookup(store, key);
      && V2Run(start, TurnRun(store, one, key), era) && V2Run(start, TurnRun(store, other, key), era)
      && Facts(start, TurnRun(store, one, key)) == Facts(start, TurnRun(store, other, key))
    ensures var a, b := AfterJournal(store, one), AfterJournal(store, other);
      && Lookup(a, key).Some? == Lookup(b, key).Some?
      && GetRecovery(a, key).Some? == GetRecovery(b, key).Some?
      && (Lookup(a, key).Some? ==>
            && Lookup(a, key).value.order.Some? && Lookup(b, key).value.order.Some?
            && Rank(Lookup(a, key).value.order.value) == Rank(Lookup(b, key).value.order.value))
  {
    JournalRunIsTurnRun(store, one, key);
    JournalRunIsTurnRun(store, other, key);
    ArrivalOrderDoesNotMatter(Lookup(store, key), TurnRun(store, one, key), TurnRun(store, other, key), era);
  }
}
