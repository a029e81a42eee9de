/**
 Whose run a retained failure names, and which of two reasons is kept
 (src/operations/journal.ts:472-524 and 686-723): stated by the observation, what
 is retained and the operation's admitted settings.
 */
module FailureAttribution {
  import opened Options
  import opened FailureOrder
  import opened FailureMerge
  import opened FailureStore
  import opened FailureReasons
  import opened FailureTurns
  import opened Watermark

  // ----- Which reason is kept -----

  /** What makes one reason stronger than another: an item of protocol 2, then a known category, then the source. */
  function Strength(f: Failure): seq<int> {
    [if f.source.T3V2TurnItem? then 1 else 0, if Knows(f) then 1 else 0, Priority(f.source)]
  }

  predicate Stronger(a: Failure, b: Failure) {
    var x, y := Strength(a), Strength(b);
    x[0] > y[0] || (x[0] == y[0] && (x[1] > y[1] || (x[1] == y[1] && x[2] > y[2])))
  }

  /** The sources from the weakest to the strongest. */
  const SOURCES := [T3Turn, T3Session, T3Activity, T3Message, T3V2TurnItem]

  lemma SourcesAreRanked(i: nat, j: nat)
    requires i < |SOURCES| && j < |SOURCES|
    ensures Priority(SOURCES[i]) < Priority(SOURCES[j]) <==> i < j
  {
  }

  /** Each optional field of the winner, or where it has none the other's. */
  predicate Completed(merged: Failure, winner: Failure, other: Failure) {
    && merged.source == winner.source && merged.message == winner.message && merged.model == winner.model
    && merged.turnId == winner.turnId && merged.class_ == winner.class_
    && merged.category == (if !Knows(winner) && winner.source == other.source then other.category else winner.category)
    && Filled(merged.retryable, winner.retryable, other.retryable) && Filled(merged.retry, winner.retry, other.retry)
    && Filled(merged.code, winner.code, other.code) && Filled(merged.provider, winner.provider, other.provider)
    && Filled(merged.resetAt, winner.resetAt, other.resetAt)
    && Filled(merged.retryAfter, winner.retryAfter, other.retryAfter)
  }

  predicate Filled<T(==)>(merged: Option<T>, own: Option<T>, other: Option<T>) {
    if own.Some? then merged == own else merged == other
  }

  /**
   Two reasons: the strictly stronger one is kept, at equal strength the one
   retained before, but a new item of protocol 2 always. It is kept whole, or
   completed by the other when both are the same reason in the same words.
   */
  lemma StrongerReasonIsKept(existing: Failure, candidate: Failure, sameReason: bool)
    ensures var merged := MergeTerminal(Some(existing), candidate, sameReason);
      if candidate.source.T3V2TurnItem? then merged == candidate
      else if Stronger(candidate, existing) then
        if sameReason && SameText(existing, candidate) then Completed(merged, candidate, existing) else merged == candidate
      else
        if sameReason && SameText(existing, candidate) then Completed(merged, existing, candidate) else merged == existing
  {
  }

  // ----- Whose run it names -----

  /** Model and provider of the reason with the failure's source and message, its provider filled in from the other reason. */
  predicate OfReason(f: Failure, model: string, provider: Option<string>, reason: Failure, other: Option<Failure>) {
    && SameOrigin(f, reason) && model == reason.model
    && (provider == reason.provider
        || (reason.provider.None? && other.Some? && SameText(reason, other.value) && provider == other.value.provider))
  }

  predicate V2Shell(o: Option<Order>) { o.Some? && o.value.protocol.V2? && o.value.scope.Shell? }

  /** The failure an observation competes with: the retained one, else the operation's or another operation's. */
  function Competitor(retained: Option<Retained>, fallback: Option<Failure>): Option<Failure> {
    if retained.Some? && retained.value.Failed? then Some(retained.value.failure) else fallback
  }

  function RunOf(o: Option<Order>): Option<RunIdentity> { if o.Some? then o.value.runIdentity else None }

  /**
   The run the evidence names: that of the observation's run identity, else of the
   stored one; a shell of protocol 2 leaves the failure it competes with its run;
   else it is the kept reason's.
   */
  predicate NamesRun(
    f: Failure, model: string, provider: Option<string>, competitor: Option<Failure>, stored: Option<Order>,
    candidate: Failure, observed: Option<Order>)
  {
    var run := OrElse(RunOf(observed), RunOf(stored));
    if run.Some? then model == run.value.model && provider == run.value.provider
    else if V2Shell(observed) && competitor.Some? then
      model == competitor.value.model && provider == competitor.value.provider
    else
      || OfReason(f, model, provider, candidate, competitor)
      || (competitor.Some? && OfReason(f, model, provider, competitor.value, Some(candidate)))
  }

  /** The admitted settings apply: the evidence kept is not of protocol 2. */
  predicate SettingsApply(f: Failure, order: Option<Order>, admitted: Option<Admitted>) {
    admitted.Some? && !(order.Some? && order.value.protocol.V2?) && !f.source.T3V2TurnItem?
  }

  function NonEmpty(provider: Option<string>): Option<string> { if provider == Some("") then None else provider }

  /**
   Model and provider of a retained failure: those the operation was admitted
   with, where they apply, its provider filled in from the evidence if it names
   none; else those the evidence names.
   */
  ghost predicate Attributed(
    f: Failure, order: Option<Order>, competitor: Option<Failure>, stored: Option<Order>,
    candidate: Failure, observed: Option<Order>, admitted: Option<Admitted>)
  {
    if !SettingsApply(f, order, admitted) then
      NamesRun(f, f.model, f.provider, competitor, stored, candidate, observed)
    else
      && f.model == admitted.value.model
      && if admitted.value.provider.Some? then f.provider == NonEmpty(admitted.value.provider)
         else exists model, provider ::
           NamesRun(f, model, provider, competitor, stored, candidate, observed) && f.provider == NonEmpty(provider)
  }

  /** One retain call that is not refused. */
  lemma RetainAttributes(retained: Option<Retained>, call: Call)
    requires call.RetainCall? && !Refused(retained, Timed(call.order, retained))
    ensures var next := Apply(retained, call);
      && next.Some? && next.value.Failed?
      && Attributed(next.value.failure, next.value.order, Competitor(retained, call.fallback), OrderOf(retained),
                    call.candidate, call.order, call.admitted)
  {
    var e := EvidenceFor(retained, call.fallback, call.candidate, call.order, call.aliased);
    EvidenceNamesRun(e, call.order);
    SettingsOverride(e, call.order, call.admitted);
  }

  /** What the evidence names, before the admitted settings are looked at. */
  function Named(e: Evidence): Failure { e.NextFailure(None) }

  lemma EvidenceNamesRun(e: Evidence, observed: Option<Order>)
    requires e.order.Some? == observed.Some?
    requires observed.Some? ==> e.order.value.(protocolStartedAt := observed.value.protocolStartedAt) == observed.value
    ensures NamesRun(Named(e), Named(e).model, Named(e).provider, e.existing, e.stored, e.candidate, observed)
  {
  }

  lemma SettingsOverride(e: Evidence, observed: Option<Order>, admitted: Option<Admitted>)
    requires NamesRun(Named(e), Named(e).model, Named(e).provider, e.existing, e.stored, e.candidate, observed)
    ensures Attributed(e.NextFailure(admitted), e.NextOrder(), e.existing, e.stored, e.candidate, observed, admitted)
  {
    hide NamesRun;
    var f, named := e.NextFailure(admitted), Named(e);
    assert f == named.(model := f.model, provider := f.provider);
    NamesSame(named, f, named.model, named.provider, e.existing, e.stored, e.candidate, observed);
    assert named == f || SettingsApply(f, e.NextOrder(), admitted);
  }

  /** Only source and message of the failure matter to what is named. */
  lemma NamesSame(
    f: Failure, g: Failure, model: string, provider: Option<string>, competitor: Option<Failure>, stored: Option<Order>,
    candidate: Failure, observed: Option<Order>)
    requires SameOrigin(f, g) && NamesRun(f, model, provider, competitor, stored, candidate, observed)
    ensures NamesRun(g, model, provider, competitor, stored, candidate, observed)
  {
  }

  /** The failure that retainTerminalFailure retains and answers. */
  lemma AnswerIsAttributed(
    store: Store, key: TurnKey, candidate: Failure, id: Option<string>, observed: Option<Order>, aliased: bool)
    requires var answer := RetainIn(store, key, candidate, id, observed, aliased).answer; answer.Ok? && answer.value.Some?
    ensures var r := RetainIn(store, key, candidate, id, observed, aliased);
      var operation := NamedOperation(store, id);
      && Lookup(r.store, key).Some? && Lookup(r.store, key).value.Failed?
      && Lookup(r.store, key).value.failure == r.answer.value.value
      && Attributed(r.answer.value.value, OrderOf(Lookup(r.store, key)),
                    Competitor(Lookup(store, key), Fallback(store, key, operation)), OrderOf(Lookup(store, key)),
                    candidate, observed, if operation.Some? then operation.value.admitted else None)
  {
    var operation := NamedOperation(store, id);
    RetainAttributes(
      Lookup(store, key),
      RetainCall(candidate, observed, Fallback(store, key, operation), aliased,
                 if operation.Some? then operation.value.admitted else None));
  }

  // ----- Over runs of calls -----

  /** No reason of the call or the state is an item of protocol 2. */
  predicate NoItem(f: Option<Failure>) { f.Some? ==> !f.value.source.T3V2TurnItem? }

  /** Protocol-1 calls under one operation, admitted with the same settings each time. */
  predicate UnderSettings(start: Option<Retained>, calls: seq<Call>, admitted: Admitted) {
    && V1Calls(start, calls)
    && NoItem(FailureOf(start))
    && forall c <- calls :: c.RetainCall? ==> c.admitted == Some(admitted) && NoItem(c.fallback)
  }

  function FailureOf(retained: Option<Retained>): Option<Failure> {
    if retained.Some? && retained.value.Failed? then Some(retained.value.failure) else None
  }

  predicate NamesSettings(f: Failure, admitted: Admitted) {
    && f.model == admitted.model
    && (admitted.provider.Some? ==> f.provider == NonEmpty(admitted.provider))
  }

  lemma OneCallNamesSettings(retained: Option<Retained>, call: Call, admitted: Admitted)
    requires V1Order(OrderOf(retained)) && V1Order(call.order) && NoItem(FailureOf(retained))
    requires call.RetainCall? ==> call.admitted == Some(admitted) && NoItem(call.fallback) && !call.candidate.source.T3V2TurnItem?
    ensures var next := FailureOf(Apply(retained, call));
      && NoItem(next)
      && (next.Some? ==> NamesSettings(next.value, admitted) || (Apply(retained, call) == retained))
  {
    OneCallStaysV1(retained, call);
    if call.RetainCall? && !Refused(retained, Timed(call.order, retained)) {
      RetainAttributes(retained, call);
      MergeKeepsAnOrigin(EvidenceFor(retained, call.fallback, call.candidate, call.order, call.aliased), call.admitted);
    }
  }

  /** Over any protocol-1 run under one operation, the retained failure names the settings the operation was admitted with. */
  lemma {:induction false} V1RunNamesItsSettings(start: Option<Retained>, calls: seq<Call>, admitted: Admitted)
    requires UnderSettings(start, calls, admitted)
    requires FailureOf(start).Some? ==> NamesSettings(FailureOf(start).value, admitted)
    ensures var now := FailureOf(After(start, calls)); NoItem(now) && (now.Some? ==> NamesSettings(now.value, admitted))
  {
    if calls != [] {
      var n := |calls| - 1;
      assert forall c <- calls[..n] :: c in calls;
      V1RunNamesItsSettings(start, calls[..n], admitted);
      RunStaysV1(start, calls, n);
      assert calls[n] in calls;
      OneCallNamesSettings(After(start, calls[..n]), calls[n], admitted);
    }
  }

  /** The order's run identity, if it has one, is this one. */
  predicate OfRun(o: Option<Order>, run: RunIdentity) { RunOf(o).Some? ==> RunOf(o) == Some(run) }

  predicate NamesIdentity(retained: Option<Retained>, run: RunIdentity) {
    && retained.Some? && retained.value.Failed? && RunOf(retained.value.order) == Some(run)
    && retained.value.failure.model == run.model && retained.value.failure.provider == run.provider
  }

  /** Protocol-2 evidence of one run. */
  predicate V2OfRun(call: Call, run: RunIdentity) {
    call.order.Some? && call.order.value.protocol.V2? && OfRun(call.order, run)
  }

  lemma IdentityStays(retained: Option<Retained>, call: Call, run: RunIdentity)
    requires retained.Some? && retained.value.Failed? && retained.value.order.Some? && retained.value.order.value.protocol.V2?
    requires RunOf(retained.value.order) == Some(run) && V2OfRun(call, run)
    requires call.RetainCall? || Skipped(retained, call.order)
    ensures call.ClearCall? ==> Apply(retained, call) == retained
    ensures call.RetainCall? ==> NamesIdentity(Apply(retained, call), run)
    ensures OrderOf(Apply(retained, call)).Some? && OrderOf(Apply(retained, call)).value.protocol.V2?
  {
  }

  /**
   Run attribution is immutable: once a protocol-2 failure is retained with the
   identity of its run, every later failure of the turn names that run, as long
   as the turn does not recover and no evidence names another run.
   */
  lemma {:induction false} RunIdentityStays(retained: Option<Retained>, calls: seq<Call>, run: RunIdentity)
    requires NamesIdentity(retained, run) && retained.value.order.value.protocol.V2?
    requires forall c <- calls :: V2OfRun(c, run)
    requires forall i :: 0 <= i < |calls| ==> calls[i].RetainCall? || Skipped(After(retained, calls[..i]), calls[i].order)
    ensures NamesIdentity(After(retained, calls), run) && After(retained, calls).value.order.value.protocol.V2?
  {
    if calls != [] {
      var n := |calls| - 1;
      var most := calls[..n];
      assert forall c <- most :: c in calls;
      forall i | 0 <= i < n ensures most[i].RetainCall? || Skipped(After(retained, most[..i]), most[i].order) {
        assert most[..i] == calls[..i];
      }
      RunIdentityStays(retained, most, run);
      assert calls[n] in calls;
      IdentityStays(After(retained, most), calls[n], run);
    }
  }
}
