/**
 How one observation of a failed or recovered turn is merged into what the
 journal retains for that turn (src/operations/journal.ts, retainTerminalFailure,
 clearTerminalFailures and the two merge helpers).
 */
module FailureMerge {
  import opened Numbers
  import opened Options
  import opened FailureOrder

  datatype Source = T3Turn | T3Session | T3Activity | T3Message | T3V2TurnItem

  datatype Category = Quota | RateLimit | AuthBilling | ProviderInternal | ProviderError | Unknown

  datatype Failure = Failure(
    category: Category,
    class_: Option<string>,
    retryable: Option<bool>,
    retry: Option<string>,
    code: Option<string>,
    message: string,
    provider: Option<string>,
    model: string,
    turnId: string,
    resetAt: Option<string>,
    retryAfter: Option<string>,
    source: Source)

  datatype RecoveredState = Completed | Interrupted

  /** What the journal holds for a turn: a failure, or a recovery tombstone. */
  datatype Retained =
    | Failed(failure: Failure, order: Option<Order>)
    | Recovered(state: RecoveredState, order: Option<Order>)

  /** The model selection a run operation was admitted with. */
  datatype Admitted = Admitted(model: string, provider: Option<string>)

  function OrElse<T>(first: Option<T>, second: Option<T>): Option<T> {
    if first.Some? then first else second
  }

  function Priority(s: Source): nat {
    match s
    case T3Turn => 0
    case T3Session => 1
    case T3Activity => 2
    case T3Message => 3
    case T3V2TurnItem => 4
  }

  predicate SameText(a: Failure, b: Failure) { a.message == b.message && a.class_ == b.class_ }

  function WithReset(base: Failure, newer: Failure, older: Failure): Failure {
    base.(resetAt := OrElse(newer.resetAt, older.resetAt), retryAfter := OrElse(newer.retryAfter, older.retryAfter))
  }

  /** mergeOrderedFailure */
  function MergeOrdered(existing: Option<Failure>, candidate: Failure, sameObservation: bool): Failure {
    if sameObservation && existing.Some? && SameText(existing.value, candidate)
    then WithReset(candidate, candidate, existing.value) else candidate
  }

  /** The reason mergeTerminalFailure prefers; true for the candidate. */
  predicate PrefersCandidate(existing: Failure, candidate: Failure) {
    var upgradesUnknown := !existing.source.T3V2TurnItem? && existing.category.Unknown? && !candidate.category.Unknown?;
    var losesKnown := candidate.category.Unknown? && !existing.category.Unknown?;
    upgradesUnknown || (!losesKnown && Priority(candidate.source) > Priority(existing.source))
  }

  /** mergeTerminalFailure */
  function MergeTerminal(existing: Option<Failure>, candidate: Failure, sameReason: bool): Failure {
    if existing.None? || candidate.source.T3V2TurnItem? then candidate
    else
      var e := existing.value;
      var (preferred, other) := if PrefersCandidate(e, candidate) then (candidate, e) else (e, candidate);
      if !sameReason || !SameText(preferred, other) then preferred
      else
        preferred.(
        category := if preferred.category.Unknown? && preferred.source == other.source then other.category else preferred.category,
        class_ := OrElse(preferred.class_, other.class_),
        retryable := OrElse(preferred.retryable, other.retryable),
        retry := OrElse(preferred.retry, other.retry),
        code := OrElse(preferred.code, other.code),
        provider := OrElse(preferred.provider, other.provider),
        resetAt := OrElse(preferred.resetAt, other.resetAt),
        retryAfter := OrElse(preferred.retryAfter, other.retryAfter))
  }

  /**
   One failure observation beside what is retained. `existing` is the failure it
   competes with, `stored` the order retained for the turn, `order` the
   observation's order with its era, and `aliased` says that the caller passed
   the retained failure itself back as the candidate.
   */
  datatype Evidence = Evidence(
    existing: Option<Failure>,
    stored: Option<Order>,
    candidate: Failure,
    order: Option<Order>,
    aliased: bool)
  {
    function Comparison(): Option<int> {
      if order.Some? && stored.Some? then Some(Compare(order.value, stored.value)) else None
    }

    predicate Later() { Comparison().Some? && Comparison().value > 0 }

    predicate Stale() {
      stored.Some? && (order.None? || (Comparison().Some? && Comparison().value < 0))
    }

    predicate IsV2() { order.Some? && order.value.protocol == V2 }

    predicate IsShell() { order.Some? && order.value.scope.Shell? }

    predicate NewerProtocol() { Later() && order.value.protocol != stored.value.protocol }

    predicate SameReason() {
      && order.Some? && order.value.failureIdentity.Some?
      && stored.Some? && order.value.failureIdentity == stored.value.failureIdentity
    }

    predicate LaterV1() {
      && Later() && existing.Some? && candidate.source == existing.value.source
      && (candidate.source.T3Activity? || candidate.source.T3Message?
          || (candidate.source.T3Session?
              && (order.value.scope.Full? || !SameReason() || candidate.class_ != existing.value.class_)))
    }

    predicate MatchingShell() {
      && IsShell() && existing.Some?
      && (IsV2() || (candidate.source.T3Session? && existing.value.source.T3Session?))
      && SameReason() && SameText(existing.value, candidate)
    }

    predicate UnboundShell() { IsV2() && IsShell() && candidate.source.T3Turn? && existing.Some? }

    predicate Ordered() { IsV2() || LaterV1() || NewerProtocol() }

    predicate SameObservation() { Comparison() == Some(0) && SameReason() }

    /** The first merge: which reason wins, before run attribution. */
    function Merged(): Failure {
      if (Stale() || UnboundShell()) && existing.Some? then existing.value
      else if MatchingShell() then WithReset(existing.value, candidate, existing.value)
      else if Ordered() then MergeOrdered(existing, candidate, SameObservation())
      else MergeTerminal(existing, candidate, SameReason())
    }

    /** Whether the winning reason is the very object that was retained. */
    predicate KeepsObject() {
      if (Stale() || UnboundShell()) && existing.Some? then true
      else if MatchingShell() then false
      else if Ordered() then
        aliased && !(SameObservation() && existing.Some? && SameText(existing.value, candidate))
      else if existing.None? || candidate.source.T3V2TurnItem? then aliased
      else if SameReason() && SameText(existing.value, candidate) then false
      else aliased || !PrefersCandidate(existing.value, candidate)
    }

    function Attributed(): Failure {
      if !Stale() && IsV2() && IsShell() && existing.Some?
      then Merged().(provider := existing.value.provider, model := existing.value.model) else Merged()
    }

    /** The winning reason is the candidate's, so its order is the one to keep. */
    predicate Advances() {
      && !Stale()
      && (UnboundShell() || MatchingShell()
          || (Attributed().source == candidate.source && Attributed().message == candidate.message
              && Attributed().category == candidate.category))
    }

    function CandidateOrder(): Option<Order> {
      if KeepsObject() && order.Some?
      then Some(order.value.(failureIdentity := if stored.Some? then stored.value.failureIdentity else None))
      else order
    }

    function ReasonOrder(): Option<Order> {
      if Advances() then OrElse(CandidateOrder(), stored) else stored
    }

    function RunAttribution(): Option<RunIdentity> {
      OrElse(if order.Some? then order.value.runIdentity else None,
             if stored.Some? then stored.value.runIdentity else None)
    }

    predicate SameEra(a: Order, b: Order) { a.protocol == b.protocol && Era(a) == Era(b) }

    /** The order retained next: the winner's, never an earlier admission of the same era. */
    function NextOrder(): Option<Order> {
      if ReasonOrder().None? then None
      else
        var reason := ReasonOrder().value;
        var next := if RunAttribution().Some? then reason.(runIdentity := RunAttribution()) else reason;
        if stored.Some? && SameEra(stored.value, next) then
          var shell := if MatchingShell() && SameEra(order.value, next) then Admission(order.value) else 0;
          Some(next.(readStartedAt := Some(Max(Admission(next), Max(Admission(stored.value), shell)))))
        else Some(next)
    }

    function NextFailure(admitted: Option<Admitted>): Failure {
      var a := Attributed();
      var merged := if RunAttribution().Some?
        then a.(provider := RunAttribution().value.provider, model := RunAttribution().value.model) else a;
      if admitted.Some? && !(NextOrder().Some? && NextOrder().value.protocol == V2) && !merged.source.T3V2TurnItem? then
        var provider := OrElse(admitted.value.provider, merged.provider).Or("");
        merged.(model := admitted.value.model, provider := if provider == "" then None else Some(provider))
      else merged
    }
  }

  function OrderOf(retained: Option<Retained>): Option<Order> {
    if retained.Some? then retained.value.order else None
  }

  /** The order an observation is compared with: its own, with the era the retained order gives it. */
  function Timed(observed: Option<Order>, retained: Option<Retained>): Option<Order> {
    if observed.Some? then Some(WithEra(observed.value, OrderOf(retained))) else None
  }

  /** A recovery tombstone refuses a failure that is not strictly later. */
  predicate Refused(retained: Option<Retained>, order: Option<Order>) {
    && retained.Some? && retained.value.Recovered?
    && (order.None? || (retained.value.order.Some? && Compare(order.value, retained.value.order.value) <= 0))
  }

  function EvidenceFor(
    retained: Option<Retained>, fallback: Option<Failure>, candidate: Failure, observed: Option<Order>, aliased: bool): Evidence
  {
    var existing := if retained.Some? && retained.value.Failed? then Some(retained.value.failure) else fallback;
    Evidence(existing, OrderOf(retained), candidate, Timed(observed, retained), aliased)
  }

  /** What retainTerminalFailure makes of the retained state of the candidate's turn. */
  function Retain(
    retained: Option<Retained>, fallback: Option<Failure>, candidate: Failure, observed: Option<Order>,
    aliased: bool, admitted: Option<Admitted>): Option<Retained>
  {
    if Refused(retained, Timed(observed, retained)) then retained
    else
      var e := EvidenceFor(retained, fallback, candidate, observed, aliased);
      Some(Failed(e.NextFailure(admitted), e.NextOrder()))
  }

  /** clearTerminalFailures skips a recovery that is earlier than what is retained, or has no order beside one. */
  predicate Skipped(retained: Option<Retained>, observed: Option<Order>) {
    && OrderOf(retained).Some?
    && (observed.None? || Compare(Timed(observed, retained).value, OrderOf(retained).value) < 0)
  }

  /** What one recovery makes of the retained state of its turn. */
  function Clear(retained: Option<Retained>, state: RecoveredState, observed: Option<Order>): Option<Retained> {
    if Skipped(retained, observed) then retained
    else
      var order, stored := Timed(observed, retained), OrderOf(retained);
      var merged :=
        if order.Some? && stored.Some? && stored.value.protocol == order.value.protocol && Era(stored.value) == Era(order.value)
        then Some(order.value.(readStartedAt := Some(Max(Admission(order.value), Admission(stored.value)))))
        else order;
      Some(Recovered(state, merged))
  }
}
