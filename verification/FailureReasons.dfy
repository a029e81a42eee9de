/**
 What merging observations does to the reason of a failure (src/operations/journal.ts:
 mergeTerminalFailure, mergeOrderedFailure and their use in retainTerminalFailure).
 */
module FailureReasons {
  import opened Options
  import opened FailureOrder
  import opened FailureMerge
  import opened Watermark

  /** Two failures that differ at most in whose run they are attributed to. */
  predicate SameButAttribution(a: Failure, b: Failure) { a.(provider := b.provider, model := b.model) == b }

  // ----- One merge -----

  /** A known category is never given up, except for the authoritative item of protocol 2. */
  lemma KnownCategoryIsKept(existing: Failure, candidate: Failure, sameReason: bool)
    requires !candidate.source.T3V2TurnItem? && !existing.source.T3V2TurnItem?
    ensures MergeTerminal(Some(existing), candidate, sameReason).category.Unknown?
       <==> existing.category.Unknown? && candidate.category.Unknown?
  {
  }

  /** A weaker source takes over only by knowing a category that the stronger one did not. */
  lemma WeakerSourceNeedsACategory(existing: Failure, candidate: Failure, sameReason: bool)
    ensures var merged := MergeTerminal(Some(existing), candidate, sameReason);
            Priority(merged.source) < Priority(existing.source) ==>
              existing.category.Unknown? && !merged.category.Unknown? && !existing.source.T3V2TurnItem?
  {
  }

  /** Seeing the same failure twice is seeing it once. */
  lemma RepeatedObservationChangesNothing(existing: Option<Failure>, candidate: Failure, sameReason: bool)
    ensures var once := MergeTerminal(existing, candidate, sameReason);
            MergeTerminal(Some(once), candidate, sameReason) == once
    ensures var once := MergeOrdered(existing, candidate, sameReason);
            MergeOrdered(Some(once), candidate, sameReason) == once
  {
  }

  // ----- One observation -----

  /** An older observation, or one of protocol 2 that names no run, can change the attribution and nothing else. */
  lemma OldEvidenceOnlyAttributes(e: Evidence, admitted: Option<Admitted>)
    requires e.existing.Some? && (e.Stale() || e.UnboundShell())
    ensures SameButAttribution(e.NextFailure(admitted), e.existing.value)
    ensures e.Stale() && e.RunAttribution().None? && admitted.None? ==> e.NextFailure(admitted) == e.existing.value
  {
  }

  /** Later evidence of protocol 2 about another error replaces the whole reason. */
  lemma LaterV2Replaces(e: Evidence, admitted: Option<Admitted>)
    requires e.IsV2() && e.Later() && !e.UnboundShell() && !e.MatchingShell()
    ensures SameButAttribution(e.NextFailure(admitted), e.candidate)
  {
  }

  // ----- Every run -----

  /** The reason was observed: its source and message are those of the start, a candidate or an operation's own failure. */
  ghost predicate WasObserved(f: Failure, start: Option<Retained>, calls: seq<Call>) {
    || (start.Some? && start.value.Failed? && SameOrigin(f, start.value.failure))
    || exists i :: 0 <= i < |calls| && calls[i].RetainCall? && FromCall(f, calls[i])
  }

  predicate SameOrigin(a: Failure, b: Failure) { a.source == b.source && a.message == b.message }

  predicate FromCall(f: Failure, call: Call)
    requires call.RetainCall?
  {
    SameOrigin(f, call.candidate) || (call.fallback.Some? && SameOrigin(f, call.fallback.value))
  }

  lemma MergeKeepsAnOrigin(e: Evidence, admitted: Option<Admitted>)
    ensures SameOrigin(e.NextFailure(admitted), e.candidate)
         || (e.existing.Some? && SameOrigin(e.NextFailure(admitted), e.existing.value))
  {
  }

  /** No run of calls makes up a reason. */
  lemma {:induction false} ReasonsAreObserved(start: Option<Retained>, calls: seq<Call>)
    ensures var now := After(start, calls);
            now.Some? && now.value.Failed? ==> WasObserved(now.value.failure, start, calls)
  {
    if calls != [] {
      var n := |calls| - 1;
      var before, call := After(start, calls[..n]), calls[n];
      ReasonsAreObserved(start, calls[..n]);
      if call.RetainCall? && !Refused(before, Timed(call.order, before)) {
        var e := EvidenceFor(before, call.fallback, call.candidate, call.order, call.aliased);
        MergeKeepsAnOrigin(e, call.admitted);
        var f := e.NextFailure(call.admitted);
        if SameOrigin(f, call.candidate) || before.None? || before.value.Recovered? {
          assert FromCall(f, calls[n]);
        } else {
          ObservedBefore(f, before.value.failure, start, calls[..n], calls);
        }
      } else if before.Some? && before.value.Failed? {
        ObservedBefore(before.value.failure, before.value.failure, start, calls[..n], calls);
      }
    }
  }

  lemma ObservedBefore(f: Failure, g: Failure, start: Option<Retained>, early: seq<Call>, calls: seq<Call>)
    requires WasObserved(g, start, early) && SameOrigin(f, g) && early <= calls
    ensures WasObserved(f, start, calls)
  {
    if i :| 0 <= i < |early| && early[i].RetainCall? && FromCall(g, early[i]) {
      assert FromCall(f, calls[i]);
    }
  }

  // ----- Every run: the category -----

  predicate Knows(f: Failure) { !f.category.Unknown? }

  predicate KnownNow(retained: Option<Retained>) {
    retained.Some? && retained.value.Failed? && Knows(retained.value.failure)
  }

  /** The failure the observation competes with is kept, whatever the observation says. */
  predicate Keeps(e: Evidence) { e.existing.Some? && (e.Stale() || e.UnboundShell() || e.MatchingShell()) }

  /** The observation is taken, whatever it competes with. */
  predicate Takes(e: Evidence) { !Keeps(e) && (e.existing.None? || e.Ordered() || e.candidate.source.T3V2TurnItem?) }

  /** After the observation a category is known. */
  predicate KnowsAfter(e: Evidence) {
    if Keeps(e) then Knows(e.existing.value)
    else if Takes(e) then Knows(e.candidate)
    else Knows(e.existing.value) || (Knows(e.candidate) && !e.existing.value.source.T3V2TurnItem?)
  }

  lemma ItemsCategoryIsKept(existing: Failure, candidate: Failure, sameReason: bool)
    requires existing.source.T3V2TurnItem? && !candidate.source.T3V2TurnItem?
    ensures MergeTerminal(Some(existing), candidate, sameReason).category == existing.category
  {
  }

  lemma NextIsKnown(e: Evidence, admitted: Option<Admitted>)
    ensures Knows(e.NextFailure(admitted)) <==> KnowsAfter(e)
  {
    if !Keeps(e) && !Takes(e) {
      if e.existing.value.source.T3V2TurnItem? {
        ItemsCategoryIsKept(e.existing.value, e.candidate, e.SameReason());
      } else {
        KnownCategoryIsKept(e.existing.value, e.candidate, e.SameReason());
      }
    }
  }

  /** The call takes a known category away: a recovery, or evidence that knows none and is taken all the same. */
  predicate Forgets(retained: Option<Retained>, call: Call) {
    match call
    case ClearCall(_, o) => !Skipped(retained, o)
    case RetainCall(c, o, fallback, aliased, _) =>
      !Knows(c) && Takes(EvidenceFor(retained, fallback, c, o, aliased))
  }

  /**
   The call makes a category known: the candidate's, taken or merged into what is
   retained, or where no failure is retained that of the failure it competes with.
   */
  predicate Teaches(retained: Option<Retained>, call: Call) {
    match call
    case ClearCall(_, _) => false
    case RetainCall(c, o, fallback, aliased, _) =>
      && !Refused(retained, Timed(o, retained))
      && var e := EvidenceFor(retained, fallback, c, o, aliased);
         if retained.Some? && retained.value.Failed?
         then Knows(c) && !Keeps(e) && (Takes(e) || !e.existing.value.source.T3V2TurnItem?)
         else KnowsAfter(e)
  }

  /** One call: what was known stays known unless the call forgets it, and nothing else becomes known but by being taught. */
  lemma KnowledgeStep(retained: Option<Retained>, call: Call)
    ensures KnownNow(Apply(retained, call)) <==> (KnownNow(retained) && !Forgets(retained, call)) || Teaches(retained, call)
  {
    if call.RetainCall? {
      NextIsKnown(EvidenceFor(retained, call.fallback, call.candidate, call.order, call.aliased), call.admitted);
    }
  }

  predicate ForgetsAt(start: Option<Retained>, calls: seq<Call>, i: nat)
    requires i < |calls|
  {
    Forgets(After(start, calls[..i]), calls[i])
  }

  predicate TeachesAt(start: Option<Retained>, calls: seq<Call>, i: nat)
    requires i < |calls|
  {
    Teaches(After(start, calls[..i]), calls[i])
  }

  /** From the n-th call on nothing was forgotten. */
  ghost predicate KeptFrom(start: Option<Retained>, calls: seq<Call>, n: nat) {
    forall i :: n <= i < |calls| ==> !ForgetsAt(start, calls, i)
  }

  /** A category was known at the start or taught by a call, and never forgotten since. */
  ghost predicate Learned(start: Option<Retained>, calls: seq<Call>) {
    || (KnownNow(start) && KeptFrom(start, calls, 0))
    || exists i :: 0 <= i < |calls| && TeachesAt(start, calls, i) && KeptFrom(start, calls, i + 1)
  }

  /** Over any run, ordered or not: a category is known in the end exactly when it was learned and not forgotten since. */
  lemma {:induction false} KnownExactlyIfLearned(start: Option<Retained>, calls: seq<Call>)
    ensures KnownNow(After(start, calls)) <==> Learned(start, calls)
  {
    hide Forgets, Teaches, KnownNow;
    if calls != [] {
      var n := |calls| - 1;
      KnownExactlyIfLearned(start, calls[..n]);
      KnowledgeStep(After(start, calls[..n]), calls[n]);
      LearnedStep(start, calls);
    }
  }

  lemma LearnedStep(start: Option<Retained>, calls: seq<Call>)
    requires calls != []
    ensures Learned(start, calls)
       <==> (Learned(start, calls[..|calls| - 1]) && !ForgetsAt(start, calls, |calls| - 1))
            || TeachesAt(start, calls, |calls| - 1)
  {
    hide Forgets, Teaches, KnownNow, After;
    var n := |calls| - 1;
    var most := calls[..n];
    assert forall i :: 0 <= i < n ==> most[..i] == calls[..i] && most[i] == calls[i];
    assert forall i :: 0 <= i < n ==> ForgetsAt(start, most, i) == ForgetsAt(start, calls, i);
    assert forall i :: 0 <= i < n ==> TeachesAt(start, most, i) == TeachesAt(start, calls, i);
    forall k | 0 <= k <= n ensures KeptFrom(start, calls, k) <==> KeptFrom(start, most, k) && !ForgetsAt(start, calls, n) {
    }
  }

  // ----- Protocol 1 -----

  predicate V1Order(o: Option<Order>) { o.Some? ==> o.value.protocol == V1 }

  /** Protocol-1 evidence: its orders are of protocol 1, and no candidate is an item of protocol 2. */
  predicate V1Calls(start: Option<Retained>, calls: seq<Call>) {
    && V1Order(OrderOf(start))
    && forall c <- calls :: V1Order(c.order) && (c.RetainCall? ==> !c.candidate.source.T3V2TurnItem?)
  }

  lemma OneCallStaysV1(retained: Option<Retained>, call: Call)
    requires V1Order(OrderOf(retained)) && V1Order(call.order)
    ensures V1Order(OrderOf(Apply(retained, call)))
  {
  }

  lemma {:induction false} RunStaysV1(start: Option<Retained>, calls: seq<Call>, n: nat)
    requires V1Calls(start, calls) && n <= |calls|
    ensures V1Order(OrderOf(After(start, calls[..n])))
  {
    if n > 0 {
      RunStaysV1(start, calls, n - 1);
      assert calls[..n][..n - 1] == calls[..n - 1];
      assert calls[n - 1] in calls;
      OneCallStaysV1(After(start, calls[..n - 1]), calls[n - 1]);
    }
  }

  predicate LaterThan(o: Option<Order>, stored: Option<Order>) {
    o.Some? && stored.Some? && Compare(WithEra(o.value, stored), stored.value) > 0
  }

  /** Both orders identify the failure, and as the same one. */
  predicate SameIdentity(o: Option<Order>, stored: Option<Order>) {
    o.Some? && stored.Some? && o.value.failureIdentity.Some? && o.value.failureIdentity == stored.value.failureIdentity
  }

  /** A later observation from the same source, which for a session must be new: a full one, or another failure or class. */
  predicate NewFromSource(existing: Failure, stored: Option<Order>, candidate: Failure, o: Option<Order>) {
    && LaterThan(o, stored) && candidate.source == existing.source
    && match candidate.source
       case T3Turn => false
       case T3Session => o.value.scope.Full? || !SameIdentity(o, stored) || candidate.class_ != existing.class_
       case _ => true
  }

  /** The same session failure seen again in a shell: same identity, same words. */
  predicate SeenAgain(existing: Failure, stored: Option<Order>, candidate: Failure, o: Option<Order>) {
    && SameIdentity(o, stored) && o.value.scope.Shell? && candidate.source.T3Session? && existing.source.T3Session?
    && candidate.message == existing.message && candidate.class_ == existing.class_
  }

  /**
   A protocol-1 turn forgets a known category to a recovery that is not skipped,
   or to later evidence of the same source that knows none and is not the same
   shell failure seen again; to nothing else.
   */
  lemma V1ForgetsExactly(start: Option<Retained>, calls: seq<Call>, i: nat)
    requires V1Calls(start, calls) && i < |calls| && KnownNow(After(start, calls[..i]))
    ensures var before, call := After(start, calls[..i]), calls[i];
      !KnownNow(After(start, calls[..i + 1])) <==>
        if call.ClearCall? then
          before.value.order.None?
          || (call.order.Some? && Compare(WithEra(call.order.value, before.value.order), before.value.order.value) >= 0)
        else
          && call.candidate.category.Unknown?
          && NewFromSource(before.value.failure, before.value.order, call.candidate, call.order)
          && !SeenAgain(before.value.failure, before.value.order, call.candidate, call.order)
  {
    RunStaysV1(start, calls, i);
    assert calls[i] in calls && calls[..i + 1][..i] == calls[..i];
    KnowledgeStep(After(start, calls[..i]), calls[i]);
    assert After(start, calls[..i + 1]) == Apply(After(start, calls[..i]), calls[i]);
    hide After;
    ForgetsOfV1(After(start, calls[..i]), calls[i]);
  }

  lemma ForgetsOfV1(before: Option<Retained>, call: Call)
    requires KnownNow(before) && V1Order(OrderOf(before)) && V1Order(call.order)
    requires call.RetainCall? ==> !call.candidate.source.T3V2TurnItem?
    ensures call.ClearCall? ==> (Forgets(before, call) <==>
        before.value.order.None?
        || (call.order.Some? && Compare(WithEra(call.order.value, before.value.order), before.value.order.value) >= 0))
    ensures call.RetainCall? ==> !(Forgets(before, call) && Teaches(before, call))
    ensures call.RetainCall? ==> (Forgets(before, call) <==>
        && call.candidate.category.Unknown?
        && NewFromSource(before.value.failure, before.value.order, call.candidate, call.order)
        && !SeenAgain(before.value.failure, before.value.order, call.candidate, call.order))
  {
  }

  // ----- Protocol 2 -----

  /** The evidence names the run it is about: it is not a turn failure seen in a shell. */
  predicate Bound(call: Call) {
    call.RetainCall? && call.order.Some? && call.order.value.scope.Shell? ==> !call.candidate.source.T3Turn?
  }

  /** The failure's text is that of an observation of the rank, or of the start. */
  ghost predicate SeenAt(f: Failure, rank: seq<int>, start: Option<Retained>, calls: seq<Call>) {
    || (start.Some? && start.value.Failed? && start.value.order.Some?
        && SameText(f, start.value.failure) && Rank(start.value.order.value) == rank)
    || exists i :: 0 <= i < |calls| && SaysAt(calls[i], f, rank)
  }

  predicate SaysAt(call: Call, f: Failure, rank: seq<int>) {
    call.RetainCall? && call.order.Some? && SameText(f, call.candidate) && Rank(call.order.value) == rank
  }

  /** One protocol-2 observation leaves a text of the rank retained next: its own, or the one retained before. */
  lemma V2TextStep(retained: Option<Retained>, call: Call, era: nat)
    requires retained.Some? ==> retained.value.order.Some? && V2Order(retained.value.order.value, era, retained.value.Recovered?)
    requires V2Call(call, era) && Bound(call) && (retained.None? ==> era == 0)
    requires call.RetainCall? && Apply(retained, call).Some? && Apply(retained, call).value.Failed?
    ensures var next := Apply(retained, call).value;
      && next.order.Some?
      && (SaysAt(call, next.failure, Rank(next.order.value))
          || (retained.Some? && retained.value.Failed? && SameText(next.failure, retained.value.failure)
              && Rank(next.order.value) == Rank(retained.value.order.value)))
  {
    TimedInEra(call, retained, era);
    var e := EvidenceFor(retained, call.fallback, call.candidate, call.order, call.aliased);
    if retained.Some? {
      V2Outcome(retained, call, era);
      CompareRanks(e.order.value, retained.value.order.value, era, retained.value.Recovered?);
      if e.Stale() {
        OldEvidenceOnlyAttributes(e, call.admitted);
      } else {
        TakenTextIsTheCandidates(e, call.admitted);
        BeforeIsTotal(Rank(call.order.value), Rank(retained.value.order.value));
      }
    } else {
      TakenTextIsTheCandidates(e, call.admitted);
      V2Advances(e);
      NextOrderReadmits(e);
    }
  }

  lemma TakenTextIsTheCandidates(e: Evidence, admitted: Option<Admitted>)
    requires e.IsV2() && !e.Stale() && !e.UnboundShell()
    ensures SameText(e.NextFailure(admitted), e.candidate)
  {
    if !e.MatchingShell() && e.Later() {
      LaterV2Replaces(e, admitted);
    }
  }

  lemma SeenLater(f: Failure, g: Failure, rank: seq<int>, start: Option<Retained>, early: seq<Call>, calls: seq<Call>)
    requires SeenAt(g, rank, start, early) && SameText(f, g) && early <= calls
    ensures SeenAt(f, rank, start, calls)
  {
    if i :| 0 <= i < |early| && SaysAt(early[i], g, rank) {
      assert SaysAt(calls[i], f, rank);
    }
  }

  lemma {:induction false} V2TextIsSeen(start: Option<Retained>, calls: seq<Call>, era: nat)
    requires V2Run(start, calls, era) && forall c <- calls :: Bound(c)
    requires After(start, calls).Some? && After(start, calls).value.Failed?
    ensures var now := After(start, calls).value;
      now.order.Some? && SeenAt(now.failure, Rank(now.order.value), start, calls)
  {
    if calls != [] {
      var n := |calls| - 1;
      var before, call, now := After(start, calls[..n]), calls[n], After(start, calls).value;
      RunReachesVerdict(start, calls[..n], era);
      assert call in calls;
      hide Clear, Retain, SeenAt;
      if call.RetainCall? {
        V2TextStep(before, call, era);
      } else {
        SkippedKeeps(before, call);
      }
      if call.RetainCall? && SaysAt(call, now.failure, Rank(now.order.value)) {
        SeenLast(now.failure, Rank(now.order.value), start, calls);
      } else {
        V2TextIsSeen(start, calls[..n], era);
        SeenLater(now.failure, before.value.failure, Rank(now.order.value), start, calls[..n], calls);
      }
    }
  }

  lemma SkippedKeeps(retained: Option<Retained>, call: Call)
    requires call.ClearCall? && Apply(retained, call).Some? && Apply(retained, call).value.Failed?
    ensures Apply(retained, call) == retained
  {
  }

  lemma SeenLast(f: Failure, rank: seq<int>, start: Option<Retained>, calls: seq<Call>)
    requires calls != [] && SaysAt(calls[|calls| - 1], f, rank)
    ensures SeenAt(f, rank, start, calls)
  {
  }

  /**
   Over any protocol-2 run of evidence that names its run, the text of the
   retained failure is one observed at the very rank that is retained, which is
   the highest of the run: not an older one.
   */
  lemma V2ReasonIsAtTheTop(start: Option<Retained>, calls: seq<Call>, era: nat)
    requires V2Run(start, calls, era) && forall c <- calls :: Bound(c)
    requires After(start, calls).Some? && After(start, calls).value.Failed?
    ensures var now := After(start, calls).value;
      && now.order.Some? && SeenAt(now.failure, Rank(now.order.value), start, calls)
      && forall f <- Facts(start, calls) :: !Before(Rank(now.order.value), f.rank)
  {
    RunReachesVerdict(start, calls, era);
    V2TextIsSeen(start, calls, era);
  }

  /** All that was observed at the rank says the same. */
  ghost predicate OneTextAt(text: Failure, rank: seq<int>, start: Option<Retained>, calls: seq<Call>) {
    forall f: Failure :: SeenAt(f, rank, start, calls) ==> SameText(f, text)
  }

  /**
   Convergence of the reason: two such runs with the same facts, which disagree
   on no text at their highest rank, retain the same text.
   */
  lemma V2ReasonsAgree(start: Option<Retained>, one: seq<Call>, other: seq<Call>, era: nat, text: Failure)
    requires V2Run(start, one, era) && V2Run(start, other, era) && Facts(start, one) == Facts(start, other)
    requires (forall c <- one :: Bound(c)) && (forall c <- other :: Bound(c))
    requires After(start, one).Some? && After(start, one).value.Failed? && After(start, one).value.order.Some?
    requires var top := Rank(After(start, one).value.order.value);
      OneTextAt(text, top, start, one) && OneTextAt(text, top, start, other)
    ensures var a, b := After(start, one), After(start, other);
      b.Some? && b.value.Failed? && SameText(a.value.failure, text) && SameText(b.value.failure, text)
  {
    ArrivalOrderDoesNotMatter(start, one, other, era);
    hide After, SameText, SeenAt;
    V2TextIsSeen(start, one, era);
    V2TextIsSeen(start, other, era);
  }
}
