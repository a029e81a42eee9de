/**
 The order on failure evidence (src/t3/failure-order.ts): which of two
 observations of one turn is the later one, across stale reads and across
 changes of the orchestration protocol.
 */
module FailureOrder {
  import opened Options

  datatype Protocol = V1 | V2

  datatype Scope = Full | Shell

  /** A root error item. Times are parsed; the id is its UTF-16 code units. */
  datatype Item = Item(updatedAt: int, ordinal: nat, id: seq<nat>)

  datatype RunIdentity = RunIdentity(provider: Option<string>, model: string)

  datatype Order = Order(
    protocol: Protocol,
    scope: Scope,
    sequence: nat,
    readStartedAt: Option<nat>,
    protocolStartedAt: Option<nat>,
    failureIdentity: Option<string>,
    updatedAt: Option<int>,
    runIdentity: Option<RunIdentity>,
    item: Option<Item>)

  /** `order.readStartedAt ?? 0` */
  function Admission(o: Order): nat { o.readStartedAt.Or(0) }

  /** `order.protocolStartedAt ?? 0` */
  function Era(o: Order): nat { o.protocolStartedAt.Or(0) }

  /** failureOrderWithEra: gives an observation the era it belongs to. */
  function WithEra(order: Order, existing: Option<Order>): Order {
    if existing.None? || order.readStartedAt.None? then order
    else
      var stored, read := existing.value, order.readStartedAt.value;
      if read < Era(stored) then order
      else
        var started :=
          if order.protocol == stored.protocol then Era(stored)
          else if read > Admission(stored) then read else 0;
        if started != 0 then order.(protocolStartedAt := Some(started)) else order
  }

  /** The `a || b` of two comparison results. */
  function Then(a: int, b: int): int { if a != 0 then a else b }

  function ScopeRank(s: Scope): int { if s.Full? then 1 else 0 }

  /** compareFailureOrder. Only the sign of the result means anything. */
  function Compare(candidate: Order, existing: Order): int {
    if candidate.readStartedAt.Some? && candidate.readStartedAt.value < Era(existing) then -1
    else if existing.readStartedAt.Some? && existing.readStartedAt.value < Era(candidate) then 1
    else if candidate.protocol != existing.protocol then Admission(candidate) - Admission(existing)
    else CompareEvidence(candidate, existing)
  }

  function CompareEvidence(candidate: Order, existing: Order): int {
    Then(candidate.sequence - existing.sequence,
         Then(CompareUpdatedAt(candidate, existing),
              Then(ScopeRank(candidate.scope) - ScopeRank(existing.scope),
                   CompareItems(candidate, existing))))
  }

  function CompareUpdatedAt(candidate: Order, existing: Order): int {
    if candidate.updatedAt.Some? && existing.updatedAt.Some?
    then candidate.updatedAt.value - existing.updatedAt.value else 0
  }

  function CompareItems(candidate: Order, existing: Order): int {
    if candidate.item.Some? && existing.item.Some? then
      var c, e := candidate.item.value, existing.item.value;
      Then(c.updatedAt - e.updatedAt,
           Then(c.ordinal - e.ordinal,
                if Before(c.id, e.id) then -1 else if Before(e.id, c.id) then 1 else 0))
    else 0
  }

  /** samePersistedFailureOrder: equal up to the in-memory admission watermark. */
  predicate SamePersisted(left: Option<Order>, right: Option<Order>) {
    match (left, right)
    case (None, None) => true
    case (Some(l), Some(r)) => l.(readStartedAt := None) == r.(readStartedAt := None)
    case _ => false
  }

  /** An order without an admission is before every admitted one of another protocol, in one era. */
  lemma UnadmittedIsEarliest(a: Order, b: Order)
    requires a.readStartedAt.None? && b.readStartedAt.Some? && b.readStartedAt.value > 0
    requires a.protocol != b.protocol && Era(a) == 0
    ensures Compare(a, b) < 0 && (Era(b) == 0 ==> Compare(b, a) > 0)
  {
  }

  // ----- The simple order the comparator refines -----

  /** Dictionary order on sequences of numbers; a proper prefix comes first. */
  predicate Before(a: seq<int>, b: seq<int>) {
    b != [] && (a == [] || a[0] < b[0] || (a[0] == b[0] && Before(a[1..], b[1..])))
  }

  lemma {:induction false} BeforeTransitive(a: seq<int>, b: seq<int>, c: seq<int>)
    requires Before(a, b) && Before(b, c)
    ensures Before(a, c)
  {
    if a != [] && a[0] == b[0] && b[0] == c[0] {
      BeforeTransitive(a[1..], b[1..], c[1..]);
    }
  }

  lemma {:induction false} BeforeIsTotal(a: seq<int>, b: seq<int>)
    ensures Before(a, b) || a == b || Before(b, a)
    ensures !(Before(a, b) && Before(b, a))
    ensures !Before(a, a)
  {
    if a != [] && b != [] {
      BeforeIsTotal(a[1..], b[1..]);
      assert a == [a[0]] + a[1..] && b == [b[0]] + b[1..];
    }
    if a != [] {
      BeforeIsTotal(a[1..], a[1..]);
    }
  }

  /** Which optional fields the orders of each scope carry. */
  datatype Shape = Shape(fullDated: bool, shellDated: bool, fullItem: bool, shellItem: bool)

  predicate Uniform(o: Order, shape: Shape) {
    && o.updatedAt.Some? == (if o.scope.Full? then shape.fullDated else shape.shellDated)
    && o.item.Some? == (if o.scope.Full? then shape.fullItem else shape.shellItem)
  }

  /** When the upstream changed protocol, and the protocol it spoke from each change on. */
  datatype Timeline = Timeline(boundaries: set<nat>, initial: Protocol, spoken: map<nat, Protocol>)

  /** The order's era is the last protocol change at or before its read, and its protocol is that era's. */
  ghost predicate Placed(o: Order, time: Timeline) {
    && o.readStartedAt.Some?
    && Era(o) <= o.readStartedAt.value
    && (forall b :: b in time.boundaries && b <= o.readStartedAt.value ==> b <= Era(o))
    && if Era(o) == 0 then o.protocol == time.initial
       else Era(o) in time.boundaries && Era(o) in time.spoken && o.protocol == time.spoken[Era(o)]
  }

  function UpdatedAtKey(o: Order): seq<int> {
    if o.updatedAt.Some? then [o.updatedAt.value] else []
  }

  function ItemKey(o: Order): seq<int> {
    if o.item.Some? then [o.item.value.updatedAt, o.item.value.ordinal] + o.item.value.id else []
  }

  /** Update time, scope and item; the scope comes first where only one scope is dated. */
  function TimeKey(o: Order, shape: Shape): seq<int> {
    if shape.fullDated && shape.shellDated then UpdatedAtKey(o) + ([ScopeRank(o.scope)] + ItemKey(o))
    else [ScopeRank(o.scope)] + (UpdatedAtKey(o) + ItemKey(o))
  }

  /** (era, snapshot sequence, update time, scope, item): its dictionary order is the simple order. */
  function Key(o: Order, shape: Shape): seq<int> {
    [Era(o) as int] + ([o.sequence as int] + TimeKey(o, shape))
  }

  /** The sign of a comparison result agrees with the dictionary order of two keys. */
  predicate Agrees(comparison: int, a: seq<int>, b: seq<int>) {
    && (comparison < 0 <==> Before(a, b))
    && (comparison == 0 <==> a == b)
    && (comparison > 0 <==> Before(b, a))
  }

  lemma AgreesOnHead(x: int, y: int, a: seq<int>, b: seq<int>, rest: int)
    requires Agrees(rest, a, b)
    ensures Agrees(Then(x - y, rest), [x] + a, [y] + b)
  {
    assert ([x] + a)[1..] == a && ([y] + b)[1..] == b;
    assert [x] + a == [y] + b ==> ([x] + a)[0] == ([y] + b)[0] && ([x] + a)[1..] == ([y] + b)[1..];
  }

  lemma ItemsAgree(a: Order, b: Order)
    requires a.item.Some? == b.item.Some?
    ensures Agrees(CompareItems(a, b), ItemKey(a), ItemKey(b))
  {
    if a.item.Some? {
      var c, e := a.item.value, b.item.value;
      var ids := if Before(c.id, e.id) then -1 else if Before(e.id, c.id) then 1 else 0;
      BeforeIsTotal(c.id, e.id);
      AgreesOnHead(c.ordinal, e.ordinal, c.id, e.id, ids);
      AgreesOnHead(c.updatedAt, e.updatedAt, [c.ordinal as int] + c.id, [e.ordinal as int] + e.id, Then(c.ordinal - e.ordinal, ids));
      assert ItemKey(a) == [c.updatedAt] + ([c.ordinal as int] + c.id);
      assert ItemKey(b) == [e.updatedAt] + ([e.ordinal as int] + e.id);
    }
  }

  lemma ScopesAgree(a: Order, b: Order)
    requires a.item.Some? == b.item.Some? || a.scope != b.scope
    ensures Agrees(Then(ScopeRank(a.scope) - ScopeRank(b.scope), CompareItems(a, b)),
                   [ScopeRank(a.scope)] + ItemKey(a), [ScopeRank(b.scope)] + ItemKey(b))
  {
    var sa, sb := ScopeRank(a.scope), ScopeRank(b.scope);
    if sa == sb {
      ItemsAgree(a, b);
      AgreesOnHead(sa, sb, ItemKey(a), ItemKey(b), CompareItems(a, b));
    } else {
      assert ([sa] + ItemKey(a))[0] == sa && ([sb] + ItemKey(b))[0] == sb;
    }
  }

  lemma DatesAgree(a: Order, b: Order, x: seq<int>, y: seq<int>, rest: int)
    requires a.updatedAt.Some? == b.updatedAt.Some? && Agrees(rest, x, y)
    ensures Agrees(Then(CompareUpdatedAt(a, b), rest), UpdatedAtKey(a) + x, UpdatedAtKey(b) + y)
  {
    if a.updatedAt.Some? {
      AgreesOnHead(a.updatedAt.value, b.updatedAt.value, x, y, rest);
    } else {
      assert [] + x == x && [] + y == y;
    }
  }

  lemma TimesAgree(a: Order, b: Order, shape: Shape)
    requires Uniform(a, shape) && Uniform(b, shape)
    ensures Agrees(Then(CompareUpdatedAt(a, b), Then(ScopeRank(a.scope) - ScopeRank(b.scope), CompareItems(a, b))),
                   TimeKey(a, shape), TimeKey(b, shape))
  {
    var sa, sb := ScopeRank(a.scope), ScopeRank(b.scope);
    if shape.fullDated && shape.shellDated {
      ScopesAgree(a, b);
      DatesAgree(a, b, [sa] + ItemKey(a), [sb] + ItemKey(b), Then(sa - sb, CompareItems(a, b)));
    } else if a.scope == b.scope {
      ItemsAgree(a, b);
      DatesAgree(a, b, ItemKey(a), ItemKey(b), CompareItems(a, b));
      AgreesOnHead(sa, sb, UpdatedAtKey(a) + ItemKey(a), UpdatedAtKey(b) + ItemKey(b),
                   Then(CompareUpdatedAt(a, b), CompareItems(a, b)));
    } else {
      assert TimeKey(a, shape)[0] == sa && TimeKey(b, shape)[0] == sb;
    }
  }

  /** On orders of one era that carry the same optional fields by scope, the evidence comparison is the dictionary order. */
  lemma EvidenceAgrees(a: Order, b: Order, shape: Shape)
    requires Uniform(a, shape) && Uniform(b, shape) && Era(a) == Era(b)
    ensures Agrees(CompareEvidence(a, b), Key(a, shape), Key(b, shape))
  {
    var times := Then(CompareUpdatedAt(a, b), Then(ScopeRank(a.scope) - ScopeRank(b.scope), CompareItems(a, b)));
    TimesAgree(a, b, shape);
    AgreesOnHead(a.sequence, b.sequence, TimeKey(a, shape), TimeKey(b, shape), times);
    AgreesOnHead(Era(a), Era(b), [a.sequence as int] + TimeKey(a, shape), [b.sequence as int] + TimeKey(b, shape),
                 CompareEvidence(a, b));
  }

  /**
   The comparator refines the simple order: for orders placed on one timeline
   whose scopes tell their optional fields, it is the dictionary order of their keys.
   */
  lemma CompareRefinesKeyOrder(a: Order, b: Order, time: Timeline, shape: Shape)
    requires Placed(a, time) && Placed(b, time) && Uniform(a, shape) && Uniform(b, shape)
    ensures Agrees(Compare(a, b), Key(a, shape), Key(b, shape))
  {
    assert Key(a, shape)[0] == Era(a) && Key(b, shape)[0] == Era(b);
    if Era(a) == Era(b) {
      EvidenceAgrees(a, b, shape);
    }
  }

  /** Hence no two orders of a class each come before the other, and the order is total and transitive. */
  lemma CompareIsTotalPreorder(a: Order, b: Order, c: Order, time: Timeline, shape: Shape)
    requires Placed(a, time) && Placed(b, time) && Placed(c, time)
    requires Uniform(a, shape) && Uniform(b, shape) && Uniform(c, shape)
    ensures (Compare(a, b) < 0 <==> Compare(b, a) > 0) && (Compare(a, b) == 0 <==> Compare(b, a) == 0)
    ensures Compare(a, b) <= 0 && Compare(b, c) <= 0 ==> Compare(a, c) <= 0
    ensures Compare(a, b) < 0 && Compare(b, c) <= 0 ==> Compare(a, c) < 0
    ensures Compare(a, b) <= 0 && Compare(b, c) < 0 ==> Compare(a, c) < 0
  {
    CompareRefinesKeyOrder(a, b, time, shape);
    CompareRefinesKeyOrder(b, a, time, shape);
    CompareRefinesKeyOrder(b, c, time, shape);
    CompareRefinesKeyOrder(a, c, time, shape);
    BeforeIsTotal(Key(a, shape), Key(b, shape));
    BeforeIsTotal(Key(b, shape), Key(c, shape));
    if Before(Key(a, shape), Key(b, shape)) && Before(Key(b, shape), Key(c, shape)) {
      BeforeTransitive(Key(a, shape), Key(b, shape), Key(c, shape));
    }
  }

  /**
   Without a common set of optional fields the comparator is not transitive:
   three orders of one protocol and era where each is at or above the next.
   */
  lemma MixedUpdatedAtIsCyclic() returns (a: Order, b: Order, c: Order)
    ensures a.updatedAt.Some? && b.updatedAt.None? && c.updatedAt.Some?
    ensures Era(a) == Era(b) == Era(c) == 0 && a.protocol == b.protocol == c.protocol
    ensures Compare(a, b) > 0 && Compare(b, c) >= 0 && Compare(c, a) > 0
  {
    c := Order(V2, Shell, 1, Some(1), None, None, Some(2), None, None);
    a := c.(scope := Full, updatedAt := Some(1));
    b := c.(updatedAt := None);
  }

  /** The scope of an order and the optional fields it carries. */
  datatype Presence = Presence(scope: Scope, dated: bool, item: bool)

  function PresenceOf(o: Order): Presence { Presence(o.scope, o.updatedAt.Some?, o.item.Some?) }

  /** Within the class the scope tells which optional fields an order carries. */
  predicate ScopeTells(class_: set<Presence>) {
    forall p, q :: p in class_ && q in class_ && p.scope == q.scope ==> p == q
  }

  /** The comparator is transitive on the orders of the class, on any timeline. */
  ghost predicate TransitiveOn(class_: set<Presence>) {
    forall time: Timeline, a: Order, b: Order, c: Order ::
      (Placed(a, time) && Placed(b, time) && Placed(c, time)
       && PresenceOf(a) in class_ && PresenceOf(b) in class_ && PresenceOf(c) in class_
       && Compare(a, b) <= 0 && Compare(b, c) <= 0) ==> Compare(a, c) <= 0
  }

  function ShapeOf(class_: set<Presence>): Shape {
    Shape(exists p <- class_ :: p.scope.Full? && p.dated, exists p <- class_ :: p.scope.Shell? && p.dated,
          exists p <- class_ :: p.scope.Full? && p.item, exists p <- class_ :: p.scope.Shell? && p.item)
  }

  lemma ClassIsUniform(class_: set<Presence>, o: Order)
    requires ScopeTells(class_) && PresenceOf(o) in class_
    ensures Uniform(o, ShapeOf(class_))
  {
  }

  /** An order of the presence, with these update times, at one sequence of the first era. */
  function Sample(p: Presence, dated: int, item: int): Order {
    Order(V1, p.scope, 0, Some(1), None, None, if p.dated then Some(dated) else None, None,
          if p.item then Some(Item(item, 0, [])) else None)
  }

  const ONE_ERA := Timeline({}, V1, map[])

  lemma SampleIsPlaced(p: Presence, dated: int, item: int)
    ensures Placed(Sample(p, dated, item), ONE_ERA) && PresenceOf(Sample(p, dated, item)) == p
  {
  }

  lemma SamplesCompare(p: Presence, q: Presence, dated: int, other: int, item: int, otherItem: int)
    requires p.scope == q.scope
    ensures Compare(Sample(p, dated, item), Sample(q, other, otherItem))
         == Then(if p.dated && q.dated then dated - other else 0, if p.item && q.item then item - otherItem else 0)
  {
    var a, b := Sample(p, dated, item), Sample(q, other, otherItem);
    assert CompareItems(a, b) == if p.item && q.item then item - otherItem else 0;
  }

  /** Two presences of one scope: three orders that the comparator does not chain. */
  lemma MixedFieldsAreNotTransitive(class_: set<Presence>, p: Presence, q: Presence)
    requires p in class_ && q in class_ && p.scope == q.scope
    requires (p.dated && !q.dated) || (p.dated == q.dated && p.item && !q.item)
    ensures !TransitiveOn(class_)
  {
    hide TransitiveOn, Sample, Placed, PresenceOf, Compare;
    var high := if p.dated && !q.dated then 1 else 2;
    SampleIsPlaced(p, 2, high);
    SampleIsPlaced(q, 2, 1);
    SampleIsPlaced(p, if p.dated && !q.dated then 1 else 2, 1);
    var low := if p.dated && !q.dated then 1 else 2;
    SamplesCompare(p, q, 2, 2, high, 1);
    SamplesCompare(q, p, 2, low, 1, 1);
    SamplesCompare(p, p, 2, low, high, 1);
    Unchained(class_, Sample(p, 2, high), Sample(q, 2, 1), Sample(p, low, 1));
  }

  lemma Unchained(class_: set<Presence>, a: Order, b: Order, c: Order)
    requires Placed(a, ONE_ERA) && Placed(b, ONE_ERA) && Placed(c, ONE_ERA)
    requires PresenceOf(a) in class_ && PresenceOf(b) in class_ && PresenceOf(c) in class_
    requires Compare(a, b) <= 0 && Compare(b, c) <= 0 && Compare(a, c) > 0
    ensures !TransitiveOn(class_)
  {
  }

  /** The comparator is transitive on a class of orders exactly when the scope tells the optional fields. */
  lemma CompareIsTransitiveExactly(class_: set<Presence>)
    ensures TransitiveOn(class_) <==> ScopeTells(class_)
  {
    if ScopeTells(class_) {
      forall time: Timeline, a: Order, b: Order, c: Order |
        && Placed(a, time) && Placed(b, time) && Placed(c, time)
        && PresenceOf(a) in class_ && PresenceOf(b) in class_ && PresenceOf(c) in class_
        && Compare(a, b) <= 0 && Compare(b, c) <= 0
        ensures Compare(a, c) <= 0
      {
        ClassIsUniform(class_, a);
        ClassIsUniform(class_, b);
        ClassIsUniform(class_, c);
        CompareIsTotalPreorder(a, b, c, time, ShapeOf(class_));
      }
    } else {
      var p, q :| p in class_ && q in class_ && p.scope == q.scope && p != q;
      if (p.dated && !q.dated) || (p.dated == q.dated && p.item) {
        MixedFieldsAreNotTransitive(class_, p, q);
      } else {
        MixedFieldsAreNotTransitive(class_, q, p);
      }
    }
  }

  // ----- What failureOrderWithEra gives an observation -----

  /** An order as failureEvidenceOrder builds it: read at a known admission, its era not yet known. */
  predicate Observed(o: Order) { o.readStartedAt.Some? && o.protocolStartedAt.None? }

  /** An order as the journal stores it: its era began at or before its admission. */
  predicate Stored(o: Order) { o.readStartedAt.Some? && Era(o) <= o.readStartedAt.value }

  /**
   An order that can reach the journal when `stored` is retained: an observation,
   or one that was given its era by an earlier order of the same turn.
   */
  predicate Fits(o: Order, stored: Option<Order>) {
    && Stored(o)
    && (stored.Some? ==>
          || Era(o) <= Era(stored.value)
          || (o.protocol == stored.value.protocol && Era(stored.value) > 0)
          || (o.protocol != stored.value.protocol && Era(o) == Admission(o)))
  }

  /**
   An order given its era is before the stored order, or of the same protocol and
   era, or of a new era that begins at its own admission, strictly after every
   admission the stored order has seen. The exception is a read admitted at the
   very instant of the stored one under another protocol, which the strictly
   increasing read clock rules out.
   */
  lemma WithEraCases(order: Order, stored: Order)
    requires Fits(order, Some(stored)) && Stored(stored)
    requires order.protocol != stored.protocol ==> order.readStartedAt != stored.readStartedAt
    ensures var o := WithEra(order, Some(stored));
      && Stored(o) && o.protocol == order.protocol && o.readStartedAt == order.readStartedAt
      && o.(protocolStartedAt := order.protocolStartedAt) == order
      && (|| Compare(o, stored) < 0
          || (o.protocol == stored.protocol && Era(o) == Era(stored) && Compare(o, stored) == CompareEvidence(o, stored))
          || (o.protocol != stored.protocol && Era(o) == Admission(o) > Admission(stored) && Compare(o, stored) > 0))
  {
  }

  /** `late` may be retained some calls after `early`: the era is no earlier, and it tells the protocol. */
  predicate Progressed(early: Order, late: Order) {
    Era(late) >= Era(early) && (Era(late) == Era(early) ==> late.protocol == early.protocol)
  }

  /** An observation annotated while `early` was retained can still be placed when `late` is. */
  lemma AnnotatedFits(observation: Order, early: Order, late: Order)
    requires Observed(observation) && Stored(early) && Stored(late) && Progressed(early, late)
    ensures Fits(WithEra(observation, Some(early)), Some(late))
  {
  }
}
