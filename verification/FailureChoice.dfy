/**
 What one observation of a failure leaves, told by the observation and what is
 retained alone (src/operations/journal.ts:468-516): which reason, and the order
 of which observation.
 */
module FailureChoice {
  import opened Numbers
  import opened Options
  import opened FailureAttribution
  import opened FailureMerge
  import opened FailureOrder
  import opened FailureReasons
  import opened Watermark

  /** The observation is older than what is retained, or has no order beside one that has. */
  predicate Older(o: Option<Order>, stored: Option<Order>) {
    stored.Some? && (o.None? || Compare(WithEra(o.value, stored), stored.value) < 0)
  }

  /** The observation is of the very moment of what is retained. */
  predicate SameMoment(o: Option<Order>, stored: Option<Order>) {
    o.Some? && stored.Some? && Compare(WithEra(o.value, stored), stored.value) == 0
  }

  /** A turn failure in a shell of protocol 2, which names no root item: text of the session. */
  predicate RootLess(candidate: Failure, o: Option<Order>) { V2Shell(o) && candidate.source.T3Turn? }

  /** The same failure seen again in a shell. */
  predicate ShellAgain(existing: Failure, stored: Option<Order>, candidate: Failure, o: Option<Order>) {
    || SeenAgain(existing, stored, candidate, o)
    || (V2Shell(o) && SameIdentity(o, stored) && SameText(existing, candidate))
  }

  /** Authoritative or newer evidence replaces the reason: protocol 2, a new one of its source, or a newer protocol. */
  predicate Replaces(existing: Option<Failure>, stored: Option<Order>, candidate: Failure, o: Option<Order>) {
    || (o.Some? && o.value.protocol.V2?)
    || (existing.Some? && NewFromSource(existing.value, stored, candidate, o))
    || (LaterThan(o, stored) && o.value.protocol != stored.value.protocol)
  }

  /** The reset times of the first, or where it has none those of the second. */
  function FillResets(f: Failure, first: Failure, second: Failure): Failure {
    f.(resetAt := if first.resetAt.Some? then first.resetAt else second.resetAt,
       retryAfter := if first.retryAfter.Some? then first.retryAfter else second.retryAfter)
  }

  /** The reason left, but for whose run it names. */
  predicate Chosen(
    f: Failure, existing: Option<Failure>, stored: Option<Order>, candidate: Failure, o: Option<Order>)
  {
    if existing.None? then SameButAttribution(f, candidate)
    else
      var e := existing.value;
      if Older(o, stored) || RootLess(candidate, o) then SameButAttribution(f, e)
      else if ShellAgain(e, stored, candidate, o) then SameButAttribution(f, FillResets(e, candidate, e))
      else if Replaces(existing, stored, candidate, o) then
        SameButAttribution(
          f, if SameMoment(o, stored) && SameIdentity(o, stored) && SameText(e, candidate)
             then FillResets(candidate, candidate, e) else candidate)
      else SameButAttribution(f, MergeTerminal(existing, candidate, SameIdentity(o, stored)))
  }

  /** One retain call that is not refused leaves the reason chosen; StrongerReasonIsKept says which a merge prefers. */
  lemma ReasonIsChosen(retained: Option<Retained>, call: Call)
    requires call.RetainCall? && !Refused(retained, Timed(call.order, retained))
    ensures var next := Apply(retained, call);
      && next.Some? && next.value.Failed?
      && Chosen(next.value.failure, Competitor(retained, call.fallback), OrderOf(retained), call.candidate, call.order)
  {
    var e := EvidenceFor(retained, call.fallback, call.candidate, call.order, call.aliased);
    MergedIsChosen(e, call.order);
    hide Chosen;
    AttributionKeepsChoice(e, call.order, call.admitted);
  }

  predicate SameTiming(e: Evidence, o: Option<Order>) { e.order == if o.Some? then Some(WithEra(o.value, e.stored)) else None }

  lemma MergedIsChosen(e: Evidence, o: Option<Order>)
    requires SameTiming(e, o)
    ensures Chosen(e.Merged(), e.existing, e.stored, e.candidate, o)
  {
  }

  lemma AttributionKeepsChoice(e: Evidence, o: Option<Order>, admitted: Option<Admitted>)
    requires Chosen(e.Merged(), e.existing, e.stored, e.candidate, o)
    ensures Chosen(e.NextFailure(admitted), e.existing, e.stored, e.candidate, o)
  {
    SameChoice(e.Merged(), e.NextFailure(admitted), e.existing, e.stored, e.candidate, o);
  }

  lemma SameChoice(
    f: Failure, g: Failure, existing: Option<Failure>, stored: Option<Order>, candidate: Failure, o: Option<Order>)
    requires Chosen(f, existing, stored, candidate, o) && SameButAttribution(g, f)
    ensures Chosen(g, existing, stored, candidate, o)
  {
  }

  // ----- Whose order is kept -----

  /** The observation's order is kept: it is not older, and its failure is the one left, or confirmed. */
  predicate Taken(
    f: Failure, existing: Option<Failure>, stored: Option<Order>, candidate: Failure, o: Option<Order>)
  {
    && !Older(o, stored)
    && ((existing.Some? && (RootLess(candidate, o) || ShellAgain(existing.value, stored, candidate, o)))
        || (f.source == candidate.source && f.message == candidate.message && f.category == candidate.category))
  }

  /** An order but for its admission and the identities it carries. */
  predicate SamePlace(a: Order, b: Order) {
    a.(readStartedAt := b.readStartedAt, failureIdentity := b.failureIdentity, runIdentity := b.runIdentity) == b
  }

  /**
   The order left: the observation's, given its era, if it is taken; else the
   stored one. It keeps the run that either names, and its admission is the latest
   one of its era that it stands for.
   */
  predicate OrderChosen(
    next: Option<Order>, f: Failure, existing: Option<Failure>, stored: Option<Order>, candidate: Failure, o: Option<Order>)
  {
    var own := if o.Some? then Some(WithEra(o.value, stored)) else None;
    var base := if Taken(f, existing, stored, candidate, o) && o.Some? then own else stored;
    && next.Some? == base.Some?
    && (base.Some? ==> Placed(next.value, base.value, OrElse(RunOf(o), RunOf(stored))))
    && (base.Some? ==>
          Admission(next.value)
          == LatestAdmission(base.value, stored, own, existing.Some? && ShellAgain(existing.value, stored, candidate, o)))
  }

  predicate Placed(next: Order, base: Order, run: Option<RunIdentity>) {
    SamePlace(next, base) && next.runIdentity == OrElse(run, base.runIdentity)
  }

  predicate SameEraAs(a: Option<Order>, b: Order) { a.Some? && a.value.protocol == b.protocol && Era(a.value) == Era(b) }

  function LatestAdmission(base: Order, stored: Option<Order>, own: Option<Order>, again: bool): nat {
    if !SameEraAs(stored, base) then Admission(base)
    else
      Max(Max(Admission(base), Admission(stored.value)),
          if again && SameEraAs(own, base) then Admission(own.value) else 0)
  }

  lemma OrderIsChosen(retained: Option<Retained>, call: Call)
    requires call.RetainCall? && !Refused(retained, Timed(call.order, retained))
    ensures var next := Apply(retained, call).value;
      OrderChosen(next.order, next.failure, Competitor(retained, call.fallback), OrderOf(retained), call.candidate, call.order)
  {
    var e := EvidenceFor(retained, call.fallback, call.candidate, call.order, call.aliased);
    NextOrderIsChosen(e, call.order, call.admitted);
  }

  lemma NextOrderIsChosen(e: Evidence, o: Option<Order>, admitted: Option<Admitted>)
    requires SameTiming(e, o)
    ensures OrderChosen(e.NextOrder(), e.NextFailure(admitted), e.existing, e.stored, e.candidate, o)
  {
    EvidenceInWords(e, o);
    TakenInWords(e, o, admitted);
    NextOrderIsPlaced(e);
    hide e.Stale, e.UnboundShell, e.MatchingShell, e.Advances, e.NextFailure, e.NextOrder, Older, ShellAgain, Taken, Placed;
  }

  lemma NextOrderIsPlaced(e: Evidence)
    ensures var base := if e.Advances() && e.order.Some? then e.order else e.stored;
      && e.NextOrder().Some? == base.Some?
      && (base.Some? ==> Placed(e.NextOrder().value, base.value, OrElse(RunOf(e.order), RunOf(e.stored))))
      && (base.Some? ==>
            Admission(e.NextOrder().value) == LatestAdmission(base.value, e.stored, e.order, e.MatchingShell()))
  {
    assert e.MatchingShell() ==> e.order.Some?;
    hide e.Stale, e.UnboundShell, e.MatchingShell, e.Attributed, e.Advances, e.KeepsObject;
  }

  lemma EvidenceInWords(e: Evidence, o: Option<Order>)
    requires SameTiming(e, o)
    ensures e.Stale() <==> Older(o, e.stored)
    ensures e.UnboundShell() <==> e.existing.Some? && RootLess(e.candidate, o)
    ensures e.MatchingShell() <==> e.existing.Some? && ShellAgain(e.existing.value, e.stored, e.candidate, o)
  {
  }

  lemma TakenInWords(e: Evidence, o: Option<Order>, admitted: Option<Admitted>)
    requires SameTiming(e, o)
    ensures e.Advances() <==> Taken(e.NextFailure(admitted), e.existing, e.stored, e.candidate, o)
  {
    EvidenceInWords(e, o);
    hide e.Stale, e.UnboundShell, e.MatchingShell, e.Merged, e.NextOrder, Older, ShellAgain;
  }

  // ----- Which failure the order identifies -----

  /** The reason left is the very one retained, neither completed nor replaced; `aliased` says that it was passed back. */
  predicate LeftAlone(
    existing: Option<Failure>, stored: Option<Order>, candidate: Failure, o: Option<Order>, aliased: bool)
  {
    if existing.None? then aliased
    else if RootLess(candidate, o) then true
    else if ShellAgain(existing.value, stored, candidate, o) then false
    else if Replaces(existing, stored, candidate, o) then
      aliased && !(SameMoment(o, stored) && SameIdentity(o, stored) && SameText(existing.value, candidate))
    else if candidate.source.T3V2TurnItem? then aliased
    else if SameIdentity(o, stored) && SameText(existing.value, candidate) then false
    else aliased || !Stronger(candidate, existing.value)
  }

  function IdentityOf(o: Option<Order>): Option<string> { if o.Some? then o.value.failureIdentity else None }

  /** The order left identifies the failure that is left: as the observation does, if its order is taken and its reason new. */
  lemma IdentityIsChosen(retained: Option<Retained>, call: Call)
    requires call.RetainCall? && !Refused(retained, Timed(call.order, retained))
    ensures var next, existing, stored := Apply(retained, call).value, Competitor(retained, call.fallback), OrderOf(retained);
      next.order.Some? ==>
        IdentityOf(next.order) ==
          if Taken(next.failure, existing, stored, call.candidate, call.order) && call.order.Some?
             && !LeftAlone(existing, stored, call.candidate, call.order, call.aliased)
          then IdentityOf(call.order) else IdentityOf(stored)
  {
    var e := EvidenceFor(retained, call.fallback, call.candidate, call.order, call.aliased);
    TakenInWords(e, call.order, call.admitted);
    EvidenceInWords(e, call.order);
    assert e.Stale() ==> !e.Advances();
    if !e.Stale() { KeptInWords(e, call.order); }
    hide Older, ShellAgain, Taken, LeftAlone;
  }

  lemma KeptInWords(e: Evidence, o: Option<Order>)
    requires SameTiming(e, o) && !e.Stale()
    ensures e.KeepsObject() <==> LeftAlone(e.existing, e.stored, e.candidate, o, e.aliased)
  {
  }
}
