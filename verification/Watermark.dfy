/**
 What every run of retain and clear calls keeps for one turn: the watermark of
 evidence only advances, and under protocol 2 the outcome does not depend on
 the order in which observations arrive.
 */
module Watermark {
  import opened Options
  import opened FailureOrder
  import opened FailureMerge

  /** One journal call about the turn, with what the journal's operations contribute. */
  datatype Call =
    | RetainCall(candidate: Failure, order: Option<Order>, fallback: Option<Failure>, aliased: bool, admitted: Option<Admitted>)
    | ClearCall(state: RecoveredState, order: Option<Order>)

  function Apply(retained: Option<Retained>, call: Call): Option<Retained> {
    match call
    case RetainCall(c, o, fallback, aliased, admitted) => Retain(retained, fallback, c, o, aliased, admitted)
    case ClearCall(state, o) => Clear(retained, state, o)
  }

  /** The state of the turn after a run of calls. */
  function After(start: Option<Retained>, calls: seq<Call>): Option<Retained> {
    if calls == [] then start else Apply(After(start, calls[..|calls| - 1]), calls[|calls| - 1])
  }

  /**
   The gateway's orders, at some point of a run: as failureEvidenceOrder builds
   them, or given their era by orderFailureEvidence at an earlier moment.
   */
  ghost predicate FromGateway(start: Option<Retained>, calls: seq<Call>) {
    forall i :: 0 <= i < |calls| && calls[i].order.Some? ==> GatewayOrder(calls[i].order.value, start, calls, i)
  }

  ghost predicate GatewayOrder(o: Order, start: Option<Retained>, calls: seq<Call>, n: nat)
    requires n <= |calls|
  {
    o.readStartedAt.Some? && (o.protocolStartedAt.None? || exists m :: 0 <= m <= n && AnnotatedAt(o, start, calls, m))
  }

  /** orderFailureEvidence gave the order its era after the first m calls. */
  predicate AnnotatedAt(o: Order, start: Option<Retained>, calls: seq<Call>, m: nat)
    requires m <= |calls|
  {
    o == Timed(Some(o.(protocolStartedAt := None)), After(start, calls[..m])).value
  }

  predicate SameInstant(a: Option<Order>, b: Option<Order>) {
    a.Some? && b.Some? && a.value.protocol != b.value.protocol && a.value.readStartedAt == b.value.readStartedAt
  }

  /** Reads under different protocols were admitted at different instants, as a strictly increasing clock makes them. */
  ghost predicate DistinctAdmissions(start: Option<Retained>, calls: seq<Call>) {
    && (forall i :: 0 <= i < |calls| ==> !SameInstant(calls[i].order, OrderOf(start)))
    && (forall i, j :: 0 <= i < |calls| && 0 <= j < |calls| ==> !SameInstant(calls[i].order, calls[j].order))
  }

  predicate Clean(retained: Option<Retained>) {
    OrderOf(retained).Some? ==> Stored(OrderOf(retained).value)
  }

  predicate SameAdmission(a: Order, b: Option<Order>) {
    b.Some? && a.protocol == b.value.protocol && a.readStartedAt == b.value.readStartedAt
  }

  /** The stored order's protocol and admission are those of an earlier observation. */
  ghost predicate Seen(now: Option<Retained>, start: Option<Retained>, calls: seq<Call>) {
    OrderOf(now).Some? ==>
      || SameAdmission(OrderOf(now).value, OrderOf(start))
      || exists i :: 0 <= i < |calls| && SameAdmission(OrderOf(now).value, calls[i].order)
  }

  /** The fields that order evidence within an era; admissions and attribution do not. */
  predicate SameEvidence(a: Order, b: Order) {
    a.sequence == b.sequence && a.updatedAt == b.updatedAt && a.scope == b.scope && a.item == b.item
  }

  /** `later` may replace `earlier` as the stored order. */
  predicate Advanced(earlier: Order, later: Order) {
    && Compare(later, earlier) >= 0
    && Era(later) >= Era(earlier)
    && Admission(later) >= Admission(earlier)
    && (Era(later) == Era(earlier) ==> later.protocol == earlier.protocol && CompareEvidence(later, earlier) >= 0)
    && (Era(later) > Era(earlier) ==> Era(later) > Admission(earlier))
  }

  /** The stored order after a call is the one before with a later admission, or the observation's. */
  predicate Derived(next: Order, before: Option<Order>, observed: Option<Order>) {
    || (before.Some? && next.protocol == before.value.protocol && Era(next) == Era(before.value) && SameEvidence(next, before.value)
        && (next.readStartedAt == before.value.readStartedAt
            || (observed.Some? && observed.value.protocol == next.protocol && next.readStartedAt == observed.value.readStartedAt)))
    || (observed.Some? && next.protocol == observed.value.protocol && SameEvidence(next, observed.value)
        && (next.readStartedAt == observed.value.readStartedAt
            || (before.Some? && before.value.protocol == next.protocol && next.readStartedAt == before.value.readStartedAt)))
  }

  lemma SelfEvidence(o: Order)
    ensures CompareEvidence(o, o) == 0
  {
    if o.item.Some? {
      BeforeIsTotal(o.item.value.id, o.item.value.id);
    }
  }

  /** `next` is the order `base` with an admission at least as late. */
  predicate Readmitted(next: Order, base: Order) {
    && next.protocol == base.protocol && next.protocolStartedAt == base.protocolStartedAt && SameEvidence(next, base)
    && next.readStartedAt.Some? && Admission(next) >= Admission(base)
  }

  lemma SameEvidenceCompares(a: Order, b: Order, c: Order)
    requires SameEvidence(a, b)
    ensures CompareEvidence(a, c) == CompareEvidence(b, c)
  {
  }

  /** A stored order advances to an observation that is not before it, given a later admission within its era. */
  lemma ReadmissionAdvances(stored: Order, base: Order, next: Order)
    requires Stored(stored) && Stored(base) && Readmitted(next, base)
    requires base == stored
             || (base.protocol == stored.protocol && Era(base) == Era(stored) && CompareEvidence(base, stored) >= 0)
             || (base.protocol != stored.protocol && Era(base) > Admission(stored))
    requires base.protocol == stored.protocol && Era(base) == Era(stored) ==> Admission(next) >= Admission(stored)
    ensures Advanced(stored, next)
  {
    SelfEvidence(stored);
    SameEvidenceCompares(next, base, stored);
  }

  /** The order retained next is the observation's if its reason wins, else the stored one, readmitted. */
  lemma NextOrderReadmits(e: Evidence)
    requires e.order.Some? ==> Stored(e.order.value)
    requires e.stored.Some? ==> Stored(e.stored.value)
    ensures var base := if e.Advances() && e.order.Some? then e.order else e.stored;
      var next := e.NextOrder();
      && next.Some? == base.Some?
      && (base.Some? ==>
            && Readmitted(next.value, base.value)
            && (SameAdmission(next.value, base) || SameAdmission(next.value, e.stored) || SameAdmission(next.value, e.order))
            && (e.stored.Some? && e.SameEra(e.stored.value, base.value) ==> Admission(next.value) >= Admission(e.stored.value)))
  {
  }

  lemma RetainAdvances(
    retained: Option<Retained>, fallback: Option<Failure>, candidate: Failure, observed: Option<Order>,
    aliased: bool, admitted: Option<Admitted>)
    requires Clean(retained) && (observed.Some? ==> Fits(observed.value, OrderOf(retained)))
    requires !SameInstant(observed, OrderOf(retained))
    ensures var next := OrderOf(Retain(retained, fallback, candidate, observed, aliased, admitted));
      && (OrderOf(retained).Some? ==> next.Some? && Advanced(OrderOf(retained).value, next.value))
      && (next.Some? ==> Stored(next.value) && Derived(next.value, OrderOf(retained), observed))
  {
    var e := EvidenceFor(retained, fallback, candidate, observed, aliased);
    if observed.Some? && e.stored.Some? {
      WithEraCases(observed.value, e.stored.value);
    }
    if Refused(retained, e.order) {
      if e.stored.Some? { ReadmissionAdvances(e.stored.value, e.stored.value, e.stored.value); }
    } else {
      NextOrderReadmits(e);
      var base := if e.Advances() && e.order.Some? then e.order else e.stored;
      if e.stored.Some? && base.Some? {
        ReadmissionAdvances(e.stored.value, base.value, e.NextOrder().value);
      }
    }
  }

  lemma ClearAdvances(retained: Option<Retained>, state: RecoveredState, observed: Option<Order>)
    requires Clean(retained) && (observed.Some? ==> Fits(observed.value, OrderOf(retained)))
    requires !SameInstant(observed, OrderOf(retained))
    ensures var next := OrderOf(Clear(retained, state, observed));
      && (OrderOf(retained).Some? ==> next.Some? && Advanced(OrderOf(retained).value, next.value))
      && (next.Some? ==> Stored(next.value) && Derived(next.value, OrderOf(retained), observed))
  {
    if OrderOf(retained).Some? {
      var stored := OrderOf(retained).value;
      if observed.Some? { WithEraCases(observed.value, stored); }
      var base := if Skipped(retained, observed) then stored else Timed(observed, retained).value;
      ReadmissionAdvances(stored, base, OrderOf(Clear(retained, state, observed)).value);
    }
  }

  lemma ApplyAdvances(retained: Option<Retained>, call: Call)
    requires Clean(retained) && (call.order.Some? ==> Fits(call.order.value, OrderOf(retained)))
    requires !SameInstant(call.order, OrderOf(retained))
    ensures var next := OrderOf(Apply(retained, call));
      && (OrderOf(retained).Some? ==> next.Some? && Advanced(OrderOf(retained).value, next.value))
      && (next.Some? ==> Stored(next.value) && Derived(next.value, OrderOf(retained), call.order))
  {
    match call
    case RetainCall(c, o, fallback, aliased, admitted) => RetainAdvances(retained, fallback, c, o, aliased, admitted);
    case ClearCall(state, o) => ClearAdvances(retained, state, o);
  }

  predicate Since(early: Option<Order>, late: Option<Order>) {
    early.Some? ==> late.Some? && Progressed(early.value, late.value)
  }

  /** A gateway's order fits whatever the run has come to. */
  lemma GatewayOrderFits(o: Order, start: Option<Retained>, calls: seq<Call>)
    requires GatewayOrder(o, start, calls, |calls|) && Clean(After(start, calls))
    requires forall m :: 0 <= m <= |calls| ==> Clean(After(start, calls[..m]))
    requires forall m :: 0 <= m <= |calls| ==> Since(OrderOf(After(start, calls[..m])), OrderOf(After(start, calls)))
    ensures Fits(o, OrderOf(After(start, calls)))
  {
    if o.protocolStartedAt.Some? {
      var m :| 0 <= m <= |calls| && AnnotatedAt(o, start, calls, m);
      var early, late := OrderOf(After(start, calls[..m])), OrderOf(After(start, calls));
      assert Since(early, late);
      if early.Some? {
        AnnotatedFits(o.(protocolStartedAt := None), early.value, late.value);
      }
    }
  }

  lemma FromGatewayPrefix(start: Option<Retained>, calls: seq<Call>, n: nat)
    requires FromGateway(start, calls) && n <= |calls|
    ensures FromGateway(start, calls[..n])
    ensures n < |calls| && calls[n].order.Some? ==> GatewayOrder(calls[n].order.value, start, calls[..n], n)
  {
    forall i, m | 0 <= m <= i <= n && i < |calls| && calls[i].order.Some? && AnnotatedAt(calls[i].order.value, start, calls, m)
      ensures AnnotatedAt(calls[i].order.value, start, calls[..n], m)
    {
      assert calls[..n][..m] == calls[..m];
    }
    forall i | 0 <= i < n && calls[i].order.Some? ensures GatewayOrder(calls[i].order.value, start, calls[..n], i) {
      assert GatewayOrder(calls[i].order.value, start, calls, i);
    }
    if n < |calls| && calls[n].order.Some? {
      assert GatewayOrder(calls[n].order.value, start, calls, n);
    }
  }

  /** What holds after every prefix of a run. */
  ghost predicate RunKeeps(start: Option<Retained>, calls: seq<Call>) {
    && Clean(After(start, calls)) && Seen(After(start, calls), start, calls)
    && (forall m :: 0 <= m <= |calls| ==> Clean(After(start, calls[..m])))
    && (forall m :: 0 <= m <= |calls| ==> Since(OrderOf(After(start, calls[..m])), OrderOf(After(start, calls))))
  }

  lemma {:induction false} RunStaysClean(start: Option<Retained>, calls: seq<Call>)
    requires Clean(start) && FromGateway(start, calls) && DistinctAdmissions(start, calls)
    ensures RunKeeps(start, calls)
  {
    if calls == [] {
      assert forall m :: 0 <= m <= |calls| ==> calls[..m] == [];
    } else {
      var n := |calls| - 1;
      FromGatewayPrefix(start, calls, n);
      RunStaysClean(start, calls[..n]);
      CallFits(start, calls);
      ApplyAdvances(After(start, calls[..n]), calls[n]);
      hide FromGateway, DistinctAdmissions;
      OneMoreKeeps(start, calls);
    }
  }

  lemma SinceThen(early: Option<Order>, middle: Option<Order>, late: Option<Order>)
    requires Since(early, middle) && (middle.Some? ==> late.Some? && Advanced(middle.value, late.value))
    ensures Since(early, late)
  {
  }

  lemma OneMoreKeeps(start: Option<Retained>, calls: seq<Call>)
    requires calls != [] && RunKeeps(start, calls[..|calls| - 1])
    requires var before, next := OrderOf(After(start, calls[..|calls| - 1])), OrderOf(After(start, calls));
      && (before.Some? ==> next.Some? && Advanced(before.value, next.value))
      && (next.Some? ==> Stored(next.value) && Derived(next.value, before, calls[|calls| - 1].order))
    ensures RunKeeps(start, calls)
  {
    var n := |calls| - 1;
    var before := calls[..n];
    SeenGrows(start, calls);
    hide After, Derived, Advanced, Progressed, Seen;
    forall m | 0 <= m <= |calls|
      ensures Clean(After(start, calls[..m])) && Since(OrderOf(After(start, calls[..m])), OrderOf(After(start, calls)))
    {
      if m <= n {
        assert before[..m] == calls[..m];
        SinceThen(OrderOf(After(start, calls[..m])), OrderOf(After(start, before)), OrderOf(After(start, calls)));
      } else {
        assert calls[..m] == calls;
        SinceItself(OrderOf(After(start, calls)));
      }
    }
  }

  lemma SinceItself(o: Option<Order>)
    ensures Since(o, o)
  {
  }

  lemma SeenGrows(start: Option<Retained>, calls: seq<Call>)
    requires calls != [] && Seen(After(start, calls[..|calls| - 1]), start, calls[..|calls| - 1])
    requires var before, next := OrderOf(After(start, calls[..|calls| - 1])), OrderOf(After(start, calls));
      next.Some? ==> Derived(next.value, before, calls[|calls| - 1].order)
    ensures Seen(After(start, calls), start, calls)
  {
  }

  /** The last call of a run meets what one call asks for. */
  lemma CallFits(start: Option<Retained>, calls: seq<Call>)
    requires calls != [] && FromGateway(start, calls) && DistinctAdmissions(start, calls)
    requires RunKeeps(start, calls[..|calls| - 1])
    ensures var before, call := After(start, calls[..|calls| - 1]), calls[|calls| - 1];
      && (call.order.Some? ==> Fits(call.order.value, OrderOf(before)))
      && !SameInstant(call.order, OrderOf(before))
  {
    var n := |calls| - 1;
    FromGatewayPrefix(start, calls, n);
    if calls[n].order.Some? {
      GatewayOrderFits(calls[n].order.value, start, calls[..n]);
    }
  }

  /**
   Over any run of calls about a turn, the stored order never moves backwards:
   each call leaves an order that compares at or above the one before, and
   neither the era nor the admission watermark ever decreases.
   */
  lemma {:induction false} WatermarkNeverMovesBack(start: Option<Retained>, calls: seq<Call>, n: nat)
    requires Clean(start) && FromGateway(start, calls) && DistinctAdmissions(start, calls) && n < |calls|
    ensures var before, after := OrderOf(After(start, calls[..n])), OrderOf(After(start, calls[..n + 1]));
      && (before.Some? ==> after.Some? && Advanced(before.value, after.value))
      && (after.Some? ==> Stored(after.value))
  {
    FromGatewayPrefix(start, calls, n);
    FromGatewayPrefix(start, calls, n + 1);
    assert calls[..n + 1][..n] == calls[..n];
    RunStaysClean(start, calls[..n]);
    CallFits(start, calls[..n + 1]);
    ApplyAdvances(After(start, calls[..n]), calls[n]);
  }

  /** The scope tells whether the order has an update time; nothing is said about a root item. */
  predicate Dated(o: Order, shape: Shape) {
    o.updatedAt.Some? == if o.scope.Full? then shape.fullDated else shape.shellDated
  }

  /** (era, snapshot sequence, update time, scope). */
  function Place(o: Order, shape: Shape): seq<int> {
    Key(o.(item := None), shape.(fullItem := false, shellItem := false))
  }

  predicate DatedOrder(o: Option<Order>, shape: Shape) { o.Some? ==> Dated(o.value, shape) }

  predicate UniformOrder(o: Option<Order>, shape: Shape) { o.Some? ==> Uniform(o.value, shape) }

  /** The scope of every observation of the run, and of what was retained before it, tells whether it has an update time. */
  ghost predicate DatedRun(start: Option<Retained>, calls: seq<Call>, shape: Shape) {
    && DatedOrder(OrderOf(start), shape)
    && forall i :: 0 <= i < |calls| ==> DatedOrder(calls[i].order, shape)
  }

  /** It also tells whether it names a root item. */
  ghost predicate UniformRun(start: Option<Retained>, calls: seq<Call>, shape: Shape) {
    && UniformOrder(OrderOf(start), shape)
    && forall i :: 0 <= i < |calls| ==> UniformOrder(calls[i].order, shape)
  }

  lemma DerivedFields(next: Order, before: Option<Order>, observed: Option<Order>, shape: Shape)
    requires Derived(next, before, observed)
    ensures DatedOrder(before, shape) && DatedOrder(observed, shape) ==> Dated(next, shape)
    ensures UniformOrder(before, shape) && UniformOrder(observed, shape) ==> Uniform(next, shape)
  {
  }

  lemma LastCallDerives(start: Option<Retained>, calls: seq<Call>)
    requires Clean(start) && FromGateway(start, calls) && DistinctAdmissions(start, calls) && calls != []
    ensures var before, after := After(start, calls[..|calls| - 1]), After(start, calls);
      OrderOf(after).Some? ==> Derived(OrderOf(after).value, OrderOf(before), calls[|calls| - 1].order)
  {
    var n := |calls| - 1;
    FromGatewayPrefix(start, calls, n);
    RunStaysClean(start, calls[..n]);
    CallFits(start, calls);
    ApplyAdvances(After(start, calls[..n]), calls[n]);
  }

  lemma {:induction false} RunStaysUniform(start: Option<Retained>, calls: seq<Call>, shape: Shape)
    requires Clean(start) && FromGateway(start, calls) && DistinctAdmissions(start, calls) && DatedRun(start, calls, shape)
    ensures DatedOrder(OrderOf(After(start, calls)), shape)
    ensures UniformRun(start, calls, shape) ==> UniformOrder(OrderOf(After(start, calls)), shape)
  {
    if calls != [] {
      var n := |calls| - 1;
      FromGatewayPrefix(start, calls, n);
      LastCallDerives(start, calls);
      hide FromGateway, After, Clean, Derived;
      RunStaysUniform(start, calls[..n], shape);
      if OrderOf(After(start, calls)).Some? {
        DerivedFields(OrderOf(After(start, calls)).value, OrderOf(After(start, calls[..n])), calls[n].order, shape);
      }
    }
  }

  lemma AdvancedPlaces(earlier: Order, later: Order, shape: Shape)
    requires Advanced(earlier, later) && Dated(earlier, shape) && Dated(later, shape)
    ensures !Before(Place(later, shape), Place(earlier, shape))
  {
    var e, l := earlier.(item := None), later.(item := None);
    if Era(later) == Era(earlier) {
      EvidenceAgrees(l, e, shape.(fullItem := false, shellItem := false));
    } else {
      assert Place(later, shape)[0] == Era(later) && Place(earlier, shape)[0] == Era(earlier);
    }
  }

  lemma AdvancedKeys(earlier: Order, later: Order, shape: Shape)
    requires Advanced(earlier, later) && Uniform(earlier, shape) && Uniform(later, shape)
    ensures !Before(Key(later, shape), Key(earlier, shape))
  {
    if Era(later) == Era(earlier) {
      EvidenceAgrees(later, earlier, shape);
    } else {
      assert Key(later, shape)[0] == Era(later) && Key(earlier, shape)[0] == Era(earlier);
    }
  }

  lemma NotBeforeTransitive(a: seq<int>, b: seq<int>, c: seq<int>)
    requires !Before(a, b) && !Before(b, c)
    ensures !Before(a, c)
  {
    BeforeIsTotal(a, b);
    BeforeIsTotal(b, c);
    if Before(a, c) && Before(c, b) {
      BeforeTransitive(a, c, b);
    }
  }

  predicate NoLowerPlace(early: Option<Order>, late: Option<Order>, shape: Shape) {
    early.Some? ==> late.Some? && !Before(Place(late.value, shape), Place(early.value, shape))
  }

  predicate NoLowerKey(early: Option<Order>, late: Option<Order>, shape: Shape) {
    early.Some? ==> late.Some? && !Before(Key(late.value, shape), Key(early.value, shape))
  }

  lemma NoLowerTransitive(a: Option<Order>, b: Option<Order>, c: Option<Order>, shape: Shape)
    ensures NoLowerPlace(a, b, shape) && NoLowerPlace(b, c, shape) ==> NoLowerPlace(a, c, shape)
    ensures NoLowerKey(a, b, shape) && NoLowerKey(b, c, shape) ==> NoLowerKey(a, c, shape)
  {
    hide Key, Place, Before;
    if a.Some? && b.Some? && c.Some? {
      if NoLowerPlace(a, b, shape) && NoLowerPlace(b, c, shape) {
        NotBeforeTransitive(Place(c.value, shape), Place(b.value, shape), Place(a.value, shape));
      }
      if NoLowerKey(a, b, shape) && NoLowerKey(b, c, shape) {
        NotBeforeTransitive(Key(c.value, shape), Key(b.value, shape), Key(a.value, shape));
      }
    }
  }

  lemma NoLowerItself(a: Option<Order>, shape: Shape)
    ensures NoLowerPlace(a, a, shape) && NoLowerKey(a, a, shape)
  {
    if a.Some? {
      BeforeIsTotal(Key(a.value, shape), Key(a.value, shape));
      BeforeIsTotal(Place(a.value, shape), Place(a.value, shape));
    }
  }

  lemma PrefixStaysUniform(start: Option<Retained>, calls: seq<Call>, n: nat, shape: Shape)
    requires Clean(start) && FromGateway(start, calls) && DistinctAdmissions(start, calls) && DatedRun(start, calls, shape)
    requires n <= |calls|
    ensures DatedOrder(OrderOf(After(start, calls[..n])), shape)
    ensures UniformRun(start, calls, shape) ==> UniformOrder(OrderOf(After(start, calls[..n])), shape)
  {
    hide After, FromGateway, Clean;
    FromGatewayPrefix(start, calls, n);
    RunStaysUniform(start, calls[..n], shape);
  }

  lemma OneCallNoLower(start: Option<Retained>, calls: seq<Call>, n: nat, shape: Shape)
    requires Clean(start) && FromGateway(start, calls) && DistinctAdmissions(start, calls) && DatedRun(start, calls, shape)
    requires n < |calls|
    ensures NoLowerPlace(OrderOf(After(start, calls[..n])), OrderOf(After(start, calls[..n + 1])), shape)
    ensures UniformRun(start, calls, shape) ==>
              NoLowerKey(OrderOf(After(start, calls[..n])), OrderOf(After(start, calls[..n + 1])), shape)
  {
    hide After, FromGateway, Clean, Key, Place, Advanced, Before;
    WatermarkNeverMovesBack(start, calls, n);
    PrefixStaysUniform(start, calls, n, shape);
    PrefixStaysUniform(start, calls, n + 1, shape);
    hide DistinctAdmissions, DatedRun, UniformRun;
    var last, next := OrderOf(After(start, calls[..n])), OrderOf(After(start, calls[..n + 1]));
    if last.Some? {
      AdvancedPlaces(last.value, next.value, shape);
      if UniformRun(start, calls, shape) {
        AdvancedKeys(last.value, next.value, shape);
      }
    }
  }

  /**
   Where the scope tells whether there is an update time, any later state of the
   turn is at or above any earlier one on era, sequence, update time and scope,
   not only the next; and where it tells whether a root item is named, on the
   item as well.
   */
  lemma {:induction false} KeyNeverDecreases(start: Option<Retained>, calls: seq<Call>, i: nat, j: nat, shape: Shape)
    requires Clean(start) && FromGateway(start, calls) && DistinctAdmissions(start, calls) && DatedRun(start, calls, shape)
    requires i <= j <= |calls|
    ensures NoLowerPlace(OrderOf(After(start, calls[..i])), OrderOf(After(start, calls[..j])), shape)
    ensures UniformRun(start, calls, shape) ==>
              NoLowerKey(OrderOf(After(start, calls[..i])), OrderOf(After(start, calls[..j])), shape)
  {
    hide After, FromGateway, DistinctAdmissions, Clean, DatedRun, UniformRun, NoLowerPlace, NoLowerKey;
    var first := OrderOf(After(start, calls[..i]));
    if i == j {
      NoLowerItself(first, shape);
    } else {
      KeyNeverDecreases(start, calls, i, j - 1, shape);
      OneCallNoLower(start, calls, j - 1, shape);
      NoLowerTransitive(first, OrderOf(After(start, calls[..j - 1])), OrderOf(After(start, calls[..j])), shape);
    }
  }

  /**
   The distinct admissions are needed: two reads admitted at one instant under
   different protocols can take the retained era back.
   */
  lemma SameInstantTakesTheEraBack() returns (start: Option<Retained>, first: Call, second: Call)
    ensures Clean(start) && first.order.Some? && Observed(first.order.value)
    ensures second.order.Some? && Observed(second.order.value)
    ensures SameInstant(first.order, second.order)
    ensures var once := Apply(start, first);
      OrderOf(once).Some? && OrderOf(Apply(once, second)).Some?
      && Era(OrderOf(Apply(once, second)).value) < Era(OrderOf(once).value)
  {
    var session := Failure(Quota, None, None, None, None, "limit", None, "m", "t", None, None, T3Session);
    var early := Order(V1, Shell, 0, Some(1), None, None, None, None, None);
    start := Some(Failed(session, Some(early)));
    first := RetainCall(session, Some(early.(protocol := V2, readStartedAt := Some(2))), None, false, None);
    second := RetainCall(session.(source := T3Message), Some(early.(readStartedAt := Some(2))), None, false, None);
    assert OrderOf(Apply(start, first)) == Some(first.order.value.(protocolStartedAt := Some(2)));
  }

  /**
   So is the turn an order was annotated for: an era taken from another turn of
   the thread can take the admission back.
   */
  lemma ForeignEraTakesTheAdmissionBack() returns (start: Option<Retained>, call: Call)
    ensures Clean(start) && OrderOf(start).Some? && call.order.Some? && Stored(call.order.value)
    ensures ForeignEra(call.order.value, OrderOf(start).value)
    ensures OrderOf(Apply(start, call)).Some? && Admission(OrderOf(Apply(start, call)).value) < Admission(OrderOf(start).value)
  {
    var session := Failure(Quota, None, None, None, None, "limit", None, "m", "t", None, None, T3Session);
    var late := Order(V1, Full, 0, Some(100), None, None, None, None, None);
    start := Some(Failed(session, Some(late)));
    call := RetainCall(session, Some(late.(sequence := 1, readStartedAt := Some(80), protocolStartedAt := Some(50))), None, false, None);
  }

  /** The property of one call: the stored order, its era and its admission do not move backwards. */
  predicate NotBack(earlier: Order, later: Order) {
    Compare(later, earlier) >= 0 && Era(later) >= Era(earlier) && Admission(later) >= Admission(earlier)
  }

  /** The observation replaces the stored order rather than being refused, skipped or outranked. */
  predicate TakesOrder(retained: Option<Retained>, call: Call) {
    match call
    case ClearCall(_, o) => !Skipped(retained, o)
    case RetainCall(c, o, fallback, aliased, _) =>
      o.Some? && !Refused(retained, Timed(o, retained)) && EvidenceFor(retained, fallback, c, o, aliased).Advances()
  }

  /** Another protocol's read of the very instant of the stored order, with an earlier era. */
  predicate RivalInstant(o: Order, stored: Order) {
    o.protocol != stored.protocol && o.readStartedAt == stored.readStartedAt && Era(o) < Era(stored)
  }

  /** An older read whose era was taken from another turn, where the stored order knows of no transition. */
  predicate ForeignEra(o: Order, stored: Order) {
    && o.protocol == stored.protocol && Era(stored) == 0
    && 0 < Era(o) <= Admission(stored) && Admission(o) < Admission(stored)
  }

  /** The two ways to move a stored order back. */
  predicate MovesBack(o: Option<Order>, stored: Order) {
    o.Some? && (RivalInstant(o.value, stored) || ForeignEra(o.value, stored))
  }

  /** Exactly when one call, with any order it may be given, moves the stored order back: there are two ways. */
  lemma StepMovesBackExactly(retained: Option<Retained>, call: Call)
    requires Clean(retained) && OrderOf(retained).Some? && (call.order.Some? ==> Stored(call.order.value))
    ensures OrderOf(Apply(retained, call)).Some?
    ensures NotBack(OrderOf(retained).value, OrderOf(Apply(retained, call)).value)
       <==> !(TakesOrder(retained, call) && MovesBack(call.order, OrderOf(retained).value))
  {
    if call.RetainCall? {
      RetainMovesBackExactly(retained, call);
    } else {
      ClearMovesBackExactly(retained, call);
    }
  }

  lemma ClearMovesBackExactly(retained: Option<Retained>, call: Call)
    requires Clean(retained) && OrderOf(retained).Some? && (call.order.Some? ==> Stored(call.order.value)) && call.ClearCall?
    ensures OrderOf(Apply(retained, call)).Some?
    ensures NotBack(OrderOf(retained).value, OrderOf(Apply(retained, call)).value)
       <==> !(TakesOrder(retained, call) && MovesBack(call.order, OrderOf(retained).value))
  {
    SelfEvidence(OrderOf(retained).value);
  }

  lemma RetainMovesBackExactly(retained: Option<Retained>, call: Call)
    requires Clean(retained) && OrderOf(retained).Some? && (call.order.Some? ==> Stored(call.order.value)) && call.RetainCall?
    ensures OrderOf(Apply(retained, call)).Some?
    ensures NotBack(OrderOf(retained).value, OrderOf(Apply(retained, call)).value)
       <==> !(TakesOrder(retained, call) && MovesBack(call.order, OrderOf(retained).value))
  {
    var stored := OrderOf(retained).value;
    SelfEvidence(stored);
    var e := EvidenceFor(retained, call.fallback, call.candidate, call.order, call.aliased);
    if !Refused(retained, e.order) {
      TimedIsStored(call.order, stored);
      NextOrderReadmits(e);
      if !e.Advances() { SameEvidenceCompares(e.NextOrder().value, stored, stored); }
    }
  }

  lemma TimedIsStored(order: Option<Order>, stored: Order)
    requires Stored(stored) && (order.Some? ==> Stored(order.value))
    ensures order.Some? ==> Stored(WithEra(order.value, Some(stored)))
  {
  }

  // ----- Convergence under protocol 2 -----

  /** What orders protocol-2 evidence of one era for a verdict: snapshot sequence, update time, scope. */
  function Rank(o: Order): seq<int> {
    [o.sequence as int, o.updatedAt.Or(0), ScopeRank(o.scope)]
  }

  /** Protocol-2 evidence of one era, with an update time; recoveries name no error item. */
  predicate V2Order(o: Order, era: nat, recovery: bool) {
    o.protocol == V2 && Era(o) == era && Stored(o) && o.updatedAt.Some? && (recovery ==> o.item.None?)
  }

  /** An observation of the era, annotated or not: the journal places it in the era it has stored. */
  predicate V2Call(c: Call, era: nat) {
    && c.order.Some? && Stored(c.order.value) && c.order.value.readStartedAt.value >= era
    && (era == 0 ==> Era(c.order.value) == 0)
    && V2Order(c.order.value.(protocolStartedAt := Some(era)), era, c.ClearCall?)
  }

  ghost predicate V2Run(start: Option<Retained>, calls: seq<Call>, era: nat) {
    && (start.None? ==> era == 0)
    && (start.Some? ==> start.value.order.Some? && V2Order(start.value.order.value, era, start.value.Recovered?))
    && forall i :: 0 <= i < |calls| ==> V2Call(calls[i], era)
  }

  /** What an observation says, apart from when it arrived: a failure or a recovery, and its rank. */
  datatype Fact = Fact(recovery: bool, rank: seq<int>)

  function Facts(start: Option<Retained>, calls: seq<Call>): set<Fact>
    requires start.Some? ==> start.value.order.Some?
    requires forall i :: 0 <= i < |calls| ==> calls[i].order.Some?
  {
    if calls == [] then
      if start.None? then {} else {Fact(start.value.Recovered?, Rank(start.value.order.value))}
    else
      var call := calls[|calls| - 1];
      Facts(start, calls[..|calls| - 1]) + {Fact(call.ClearCall?, Rank(call.order.value))}
  }

  /** The retained state is the verdict of the facts: their highest rank, recovered exactly when a recovery has it. */
  ghost predicate VerdictOf(retained: Option<Retained>, facts: set<Fact>, era: nat) {
    && (retained.None? <==> facts == {})
    && (retained.Some? ==>
          && retained.value.order.Some?
          && V2Order(retained.value.order.value, era, retained.value.Recovered?)
          && var top := Rank(retained.value.order.value);
          && (exists f :: f in facts && f.rank == top)
          && (forall f :: f in facts ==> !Before(top, f.rank))
          && (retained.value.Recovered? <==> Fact(true, top) in facts))
  }

  lemma CompareRanks(a: Order, b: Order, era: nat, recovery: bool)
    requires V2Order(a, era, false) && V2Order(b, era, false) && (recovery ==> a.item.None? || b.item.None?)
    ensures Before(Rank(a), Rank(b)) ==> Compare(a, b) < 0
    ensures Before(Rank(b), Rank(a)) ==> Compare(a, b) > 0
    ensures recovery && Rank(a) == Rank(b) ==> Compare(a, b) == 0
  {
    var x, y := Rank(a), Rank(b);
    assert x == [x[0]] + ([x[1]] + [x[2]]) && y == [y[0]] + ([y[1]] + [y[2]]);
    BeforeOfTriples(x, y);
    BeforeOfTriples(y, x);
  }

  lemma BeforeOfTriples(x: seq<int>, y: seq<int>)
    requires |x| == |y| == 3
    ensures Before(x, y) <==> x[0] < y[0] || (x[0] == y[0] && (x[1] < y[1] || (x[1] == y[1] && x[2] < y[2])))
  {
    assert Before(x[1..], y[1..]) <==> x[1] < y[1] || (x[1] == y[1] && Before(x[2..], y[2..])) by {
      assert x[1..][1..] == x[2..] && y[1..][1..] == y[2..];
    }
    assert Before(x[2..], y[2..]) <==> x[2] < y[2] by {
      assert x[2..][1..] == [] && y[2..][1..] == [];
    }
  }

  /** Under protocol 2 a failure that is not stale always brings its order along. */
  lemma V2Advances(e: Evidence)
    requires e.IsV2() && !e.Stale()
    ensures e.Advances()
  {
  }

  lemma TimedInEra(call: Call, retained: Option<Retained>, era: nat)
    requires V2Call(call, era) && (OrderOf(retained).None? ==> era == 0)
    requires OrderOf(retained).Some? ==> V2Order(OrderOf(retained).value, era, false)
    ensures var o := Timed(call.order, retained).value;
      V2Order(o, era, call.ClearCall?) && Rank(o) == Rank(call.order.value)
      && Admission(o) == Admission(call.order.value) && SameEvidence(o, call.order.value)
  {
  }

  /** The facts after one more observation keep their verdict. */
  lemma VerdictStep(retained: Option<Retained>, facts: set<Fact>, call: Call, era: nat)
    requires VerdictOf(retained, facts, era) && V2Call(call, era) && (retained.None? ==> era == 0)
    ensures VerdictOf(Apply(retained, call), facts + {Fact(call.ClearCall?, Rank(call.order.value))}, era)
  {
    TimedInEra(call, retained, era);
    var order := Timed(call.order, retained).value;
    var fact := Fact(call.ClearCall?, Rank(order));
    var next := Apply(retained, call);
    if retained.None? {
      if call.RetainCall? {
        NextOrderReadmits(EvidenceFor(retained, call.fallback, call.candidate, call.order, call.aliased));
        V2Advances(EvidenceFor(retained, call.fallback, call.candidate, call.order, call.aliased));
      }
      BeforeIsTotal(fact.rank, fact.rank);
      assert fact in facts + {fact};
    } else {
      var stored := retained.value.order.value;
      CompareRanks(order, stored, era, retained.value.Recovered? || call.ClearCall?);
      BeforeIsTotal(Rank(order), Rank(stored));
      VerdictStepOver(retained, facts, call, era);
    }
  }

  /** A strictly higher rank decides alone; at equal ranks a recovery wins. */
  lemma V2Outcome(retained: Option<Retained>, call: Call, era: nat)
    requires retained.Some? && retained.value.order.Some? && V2Order(retained.value.order.value, era, retained.value.Recovered?)
    requires V2Call(call, era)
    ensures var stored, rank := Rank(retained.value.order.value), Rank(call.order.value);
      var next := Apply(retained, call);
      && next.Some? && next.value.order.Some?
      && V2Order(next.value.order.value, era, next.value.Recovered?)
      && Rank(next.value.order.value) == (if Before(rank, stored) then stored else rank)
      && (next.value.Recovered? <==>
            if Before(rank, stored) then retained.value.Recovered?
            else if Before(stored, rank) then call.ClearCall?
            else retained.value.Recovered? || call.ClearCall?)
  {
    TimedInEra(call, retained, era);
    var order, stored := Timed(call.order, retained).value, retained.value.order.value;
    CompareRanks(order, stored, era, retained.value.Recovered? || call.ClearCall?);
    BeforeIsTotal(Rank(order), Rank(stored));
    ApplyAdvances(retained, call);
    if call.RetainCall? {
      var e := EvidenceFor(retained, call.fallback, call.candidate, call.order, call.aliased);
      if !Refused(retained, e.order) {
        NextOrderReadmits(e);
        if !e.Stale() { V2Advances(e); }
      }
    }
  }

  lemma VerdictStepOver(retained: Option<Retained>, facts: set<Fact>, call: Call, era: nat)
    requires retained.Some? && VerdictOf(retained, facts, era) && V2Call(call, era)
    ensures VerdictOf(Apply(retained, call), facts + {Fact(call.ClearCall?, Rank(call.order.value))}, era)
  {
    TimedInEra(call, retained, era);
    var order, stored := Timed(call.order, retained).value, retained.value.order.value;
    var fact := Fact(call.ClearCall?, Rank(order));
    var all := facts + {fact};
    CompareRanks(order, stored, era, retained.value.Recovered? || call.ClearCall?);
    BeforeIsTotal(Rank(order), Rank(stored));
    V2Outcome(retained, call, era);
    var next := Apply(retained, call);
    var top := Rank(next.value.order.value);
    assert fact in all;
    forall f | f in all ensures !Before(top, f.rank) {
      if f in facts { NotBeforeTransitive(top, Rank(stored), f.rank); }
    }
  }

  /** After any protocol-2 run of one era, the retained state is the verdict of everything observed. */
  lemma {:induction false} RunReachesVerdict(start: Option<Retained>, calls: seq<Call>, era: nat)
    requires V2Run(start, calls, era)
    ensures VerdictOf(After(start, calls), Facts(start, calls), era)
  {
    if calls == [] {
      if start.Some? {
        BeforeIsTotal(Rank(start.value.order.value), Rank(start.value.order.value));
        assert Fact(start.value.Recovered?, Rank(start.value.order.value)) in Facts(start, calls);
      }
    } else {
      var before, call := calls[..|calls| - 1], calls[|calls| - 1];
      RunReachesVerdict(start, before, era);
      VerdictStep(After(start, before), Facts(start, before), call, era);
    }
  }

  /** A verdict is determined by its facts. */
  lemma VerdictIsUnique(a: Option<Retained>, b: Option<Retained>, facts: set<Fact>, era: nat)
    requires VerdictOf(a, facts, era) && VerdictOf(b, facts, era)
    ensures a.Some? == b.Some?
    ensures a.Some? ==> Rank(a.value.order.value) == Rank(b.value.order.value) && a.value.Recovered? == b.value.Recovered?
  {
    if a.Some? {
      BeforeIsTotal(Rank(a.value.order.value), Rank(b.value.order.value));
    }
  }

  /**
   Convergence: two runs that observe the same failures and recoveries of a
   turn, in any order and any number of times, retain the same watermark and the
   same verdict. The turn is recovered exactly when a recovery has that watermark.
   */
  lemma ArrivalOrderDoesNotMatter(start: Option<Retained>, one: seq<Call>, other: seq<Call>, era: nat)
    requires V2Run(start, one, era) && V2Run(start, other, era) && Facts(start, one) == Facts(start, other)
    ensures var a, b := After(start, one), After(start, other);
      && a.Some? == b.Some?
      && (a.Some? ==>
            && a.value.order.Some? && b.value.order.Some?
            && Rank(a.value.order.value) == Rank(b.value.order.value)
            && a.value.Recovered? == b.value.Recovered?
            && (a.value.Recovered? <==> Fact(true, Rank(a.value.order.value)) in Facts(start, one)))
  {
    RunReachesVerdict(start, one, era);
    RunReachesVerdict(start, other, era);
    VerdictIsUnique(After(start, one), After(start, other), Facts(start, one), era);
  }

  lemma {:induction false} FactsHaveWitnesses(start: Option<Retained>, calls: seq<Call>, f: Fact)
    requires start.Some? ==> start.value.order.Some?
    requires forall i :: 0 <= i < |calls| ==> calls[i].order.Some?
    ensures f in Facts(start, calls) <==>
      || (start.Some? && f == Fact(start.value.Recovered?, Rank(start.value.order.value)))
      || exists c :: c in calls && c.order.Some? && f == Fact(c.ClearCall?, Rank(c.order.value))
  {
    if calls != [] {
      var before, call := calls[..|calls| - 1], calls[|calls| - 1];
      FactsHaveWitnesses(start, before, f);
      assert calls == before + [call];
    }
  }

  /** In particular, permuting the calls of a run changes neither the watermark nor the verdict. */
  lemma PermutedRunsAgree(start: Option<Retained>, one: seq<Call>, other: seq<Call>, era: nat)
    requires V2Run(start, one, era) && multiset(one) == multiset(other)
    ensures var a, b := After(start, one), After(start, other);
      && a.Some? == b.Some?
      && (a.Some? ==>
            && a.value.order.Some? && b.value.order.Some?
            && Rank(a.value.order.value) == Rank(b.value.order.value)
            && a.value.Recovered? == b.value.Recovered?)
  {
    assert forall c :: c in one <==> c in multiset(one);
    assert forall c :: c in other <==> c in multiset(other);
    forall i | 0 <= i < |other| ensures V2Call(other[i], era) {
      assert other[i] in one;
    }
    forall f ensures f in Facts(start, one) <==> f in Facts(start, other) {
      FactsHaveWitnesses(start, one, f);
      FactsHaveWitnesses(start, other, f);
    }
    ArrivalOrderDoesNotMatter(start, one, other, era);
  }
}
