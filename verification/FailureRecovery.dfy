/**
 Which recovery a turn is said to have had (src/operations/journal.ts:562-584):
 what a recovery leaves, and which of many stands in the end.
 */
module FailureRecovery {
  import opened Options
  import opened FailureOrder
  import opened FailureMerge
  import opened FailureReasons
  import opened FailureStore
  import opened Watermark

  /** The recovery is older than what is retained, or has no order beside one. */
  predicate Overtaken(retained: Option<Retained>, observed: Option<Order>) {
    && retained.Some? && retained.value.order.Some?
    && (observed.None? || Compare(WithEra(observed.value, retained.value.order), retained.value.order.value) < 0)
  }

  /**
   A recovery that is not overtaken leaves a tombstone with its own state and its
   own order, given its era; only the admission may be that of the stored order
   of the era, if that is later. An overtaken one leaves everything as it was.
   */
  lemma TombstoneHoldsTheState(retained: Option<Retained>, state: RecoveredState, observed: Option<Order>)
    ensures var next := Apply(retained, ClearCall(state, observed));
      if Overtaken(retained, observed) then next == retained
      else
        && next.Some? && next.value.Recovered? && next.value.state == state
        && (next.value.order.Some? <==> observed.Some?)
        && (observed.Some? ==>
              var own, kept := WithEra(observed.value, OrderOf(retained)), next.value.order.value;
              && kept.(readStartedAt := own.readStartedAt) == own
              && Admission(kept) >= Admission(own)
              && (Admission(kept) > Admission(own) ==>
                    OrderOf(retained).Some? && OrderOf(retained).value.protocol == own.protocol
                    && Era(OrderOf(retained).value) == Era(own) && Admission(kept) == Admission(OrderOf(retained).value)))
  {
  }

  /** A failure is kept out by a tombstone exactly if it is not strictly later. */
  lemma TombstoneKeepsOutExactly(retained: Option<Retained>, call: Call)
    requires retained.Some? && retained.value.Recovered? && call.RetainCall?
    ensures var next := Apply(retained, call);
      if call.order.None? || (retained.value.order.Some? && !LaterThan(call.order, retained.value.order)) then next == retained
      else next.Some? && next.value.Failed?
  {
  }

  /** The i-th call recovers the turn, and no later one changes anything. */
  ghost predicate LastRecovery(start: Option<Retained>, calls: seq<Call>, i: nat)
    requires i < |calls|
  {
    && calls[i].ClearCall? && !Overtaken(After(start, calls[..i]), calls[i].order)
    && forall j :: i < j < |calls| ==> LeavesAsIs(start, calls, j)
  }

  predicate LeavesAsIs(start: Option<Retained>, calls: seq<Call>, j: nat)
    requires j < |calls|
  {
    After(start, calls[..j + 1]) == After(start, calls[..j])
  }

  /** The state told of a recovered turn is that of the last recovery taken, or of the start. */
  ghost predicate ToldByTheLast(start: Option<Retained>, calls: seq<Call>) {
    var now := After(start, calls);
    now.Some? && now.value.Recovered? ==>
      || now == start
      || exists i :: 0 <= i < |calls| && LastRecovery(start, calls, i) && calls[i].state == now.value.state
  }

  lemma {:induction false} RecoveryIsTheLastTaken(start: Option<Retained>, calls: seq<Call>)
    ensures ToldByTheLast(start, calls)
  {
    if calls != [] {
      var n := |calls| - 1;
      var most, call := calls[..n], calls[n];
      RecoveryIsTheLastTaken(start, most);
      var before, now := After(start, most), After(start, calls);
      assert now == Apply(before, call) && calls[..n + 1] == calls;
      if now.Some? && now.value.Recovered? {
        if call.ClearCall? {
          TombstoneHoldsTheState(before, call.state, call.order);
        } else if before.Some? && before.value.Recovered? {
          TombstoneKeepsOutExactly(before, call);
        }
        hide After;
        if call.ClearCall? && !Overtaken(before, call.order) {
          assert LastRecovery(start, calls, n);
        } else {
          StillTheLast(start, calls);
        }
      }
    }
  }

  lemma StillTheLast(start: Option<Retained>, calls: seq<Call>)
    requires calls != [] && ToldByTheLast(start, calls[..|calls| - 1])
    requires After(start, calls) == After(start, calls[..|calls| - 1])
    ensures ToldByTheLast(start, calls)
  {
    var most, now := calls[..|calls| - 1], After(start, calls);
    hide After, LastRecovery;
    if now.Some? && now.value.Recovered? && now != start {
      var i :| 0 <= i < |most| && LastRecovery(start, most, i) && most[i].state == now.value.state;
      LastRecoveryStands(start, calls, i);
    }
  }

  lemma LastRecoveryStands(start: Option<Retained>, calls: seq<Call>, i: nat)
    requires i < |calls| - 1 && LastRecovery(start, calls[..|calls| - 1], i)
    requires After(start, calls) == After(start, calls[..|calls| - 1])
    ensures LastRecovery(start, calls, i)
  {
    hide After, Overtaken;
    var n := |calls| - 1;
    var most := calls[..n];
    assert LeavesAsIs(start, calls, n) by { assert calls[..n + 1] == calls; }
    hide LeavesAsIs;
    assert most[..i] == calls[..i];
    forall j | i < j < |calls| ensures LeavesAsIs(start, calls, j) {
      if j < n {
        LeavesTheSame(start, calls, n, j);
      }
    }
  }

  lemma LeavesTheSame(start: Option<Retained>, calls: seq<Call>, n: nat, j: nat)
    requires j < n <= |calls|
    ensures LeavesAsIs(start, calls[..n], j) == LeavesAsIs(start, calls, j)
  {
    hide After;
    assert calls[..n][..j] == calls[..j] && calls[..n][..j + 1] == calls[..j + 1];
  }

  /** A recovery of the rank and state was seen in the run, or at its start. */
  ghost predicate RecoverySeen(state: RecoveredState, rank: seq<int>, start: Option<Retained>, calls: seq<Call>) {
    || (start.Some? && start.value.Recovered? && start.value.order.Some?
        && start.value.state == state && Rank(start.value.order.value) == rank)
    || exists i :: 0 <= i < |calls| && RecoversAt(calls[i], state, rank)
  }

  predicate RecoversAt(call: Call, state: RecoveredState, rank: seq<int>) {
    call.ClearCall? && call.order.Some? && call.state == state && Rank(call.order.value) == rank
  }

  /** Over any protocol-2 run, the state told of a recovered turn is that of a recovery of the highest rank. */
  lemma {:induction false} V2RecoveryIsAtTheTop(start: Option<Retained>, calls: seq<Call>, era: nat)
    requires V2Run(start, calls, era) && After(start, calls).Some? && After(start, calls).value.Recovered?
    ensures var now := After(start, calls).value;
      && now.order.Some? && RecoverySeen(now.state, Rank(now.order.value), start, calls)
      && forall f <- Facts(start, calls) :: !Before(Rank(now.order.value), f.rank)
  {
    RunReachesVerdict(start, calls, era);
    if calls != [] {
      var n := |calls| - 1;
      var most, call, now := calls[..n], calls[n], After(start, calls).value;
      RunReachesVerdict(start, most, era);
      V2RecoveryStep(After(start, most), call, era);
      hide Apply, Facts, VerdictOf, V2Run;
      if RecoversAt(call, now.state, Rank(now.order.value)) {
        assert RecoversAt(calls[n], now.state, Rank(now.order.value));
      } else {
        V2RecoveryIsAtTheTop(start, most, era);
        SeenBefore(now.state, Rank(now.order.value), start, calls);
      }
    }
  }

  lemma SeenBefore(state: RecoveredState, rank: seq<int>, start: Option<Retained>, calls: seq<Call>)
    requires calls != [] && RecoverySeen(state, rank, start, calls[..|calls| - 1])
    ensures RecoverySeen(state, rank, start, calls)
  {
    var most := calls[..|calls| - 1];
    if i :| 0 <= i < |most| && RecoversAt(most[i], state, rank) {
      assert RecoversAt(calls[i], state, rank);
    }
  }

  lemma V2RecoveryStep(retained: Option<Retained>, call: Call, era: nat)
    requires retained.Some? ==> retained.value.order.Some? && V2Order(retained.value.order.value, era, retained.value.Recovered?)
    requires V2Call(call, era) && (retained.None? ==> era == 0)
    requires Apply(retained, call).Some? && Apply(retained, call).value.Recovered?
    ensures var next := Apply(retained, call).value;
      && next.order.Some?
      && (RecoversAt(call, next.state, Rank(next.order.value)) || Apply(retained, call) == retained)
  {
    TimedInEra(call, retained, era);
    if call.ClearCall? {
      TombstoneHoldsTheState(retained, call.state, call.order);
    } else if retained.Some? && retained.value.Recovered? {
      TombstoneKeepsOutExactly(retained, call);
    }
  }
}
