/**
 The retry loop of a native tool call (src/t3/native-mcp.ts): how often a call
 may have run upstream, and what each ending says about that.
 */
module NativeRetry {

  datatype Error =
    | Http(status: nat)
    | RequestTimeout
    | ConnectionClosed
    | ProtocolError
    | ConnectionRefused
    | OtherError

  /** What one attempt meets. `ran` says whether T3 ran the tool although no answer arrived. */
  datatype Event =
    | NoCredential
    | NotConnected(error: Error)
    | Failed(error: Error, ran: bool)
    | Answer

  datatype Class = Rejected | Unauthorized | Unprocessed | Unknown

  datatype Ending = Answered | NativeRejected | CredentialInvalid | CredentialRejected | Unavailable | OutcomeUnknown

  const MAX_ATTEMPTS: nat := 3

  predicate CredentialRefused(error: Error) { error == Http(401) || error == Http(403) }

  /** classifyFailure */
  function Classify(error: Error, sent: bool): Class {
    if CredentialRefused(error) then Unauthorized
    else if !sent then Unprocessed
    else match error
      case Http(status) => if status == 404 then Unprocessed else Unknown
      case RequestTimeout => Unknown
      case ConnectionClosed => Unknown
      case ProtocolError => Rejected
      case ConnectionRefused => Unprocessed
      case OtherError => Unknown
  }

  /** invalidatesConnection: the connection is dropped when T3 forgot its session or refuses its token. */
  predicate Invalidates(error: Error) { CredentialRefused(error) || error == Http(404) }

  /**
   Answers that tell that T3 did not run the tool: it refused the token, had
   forgotten the session, took the request for a wrong one, or was not reached.
   A timeout, a closed connection and every other error tell nothing.
   */
  predicate TellsNotRun(error: Error) {
    error in {Http(401), Http(403), Http(404), ProtocolError, ConnectionRefused}
  }

  /** The request may have run: it was answered, or sent and nothing tells that it did not. */
  predicate MayHaveRun(event: Event) {
    event.Answer? || (event.Failed? && !TellsNotRun(event.error))
  }

  predicate Ran(event: Event) { event.Answer? || (event.Failed? && event.ran) }

  /** Upstream answers are true: a tool that ran is not said to have not. */
  predicate Honest(event: Event) { Ran(event) ==> MayHaveRun(event) }

  predicate Retries(attempt: nat, event: Event, mutating: bool) {
    (event.NotConnected? || event.Failed?)
    && var failure := Classify(event.error, event.Failed?);
       && failure != Rejected && failure != Unauthorized
       && if attempt == 1 then failure != Unknown || !mutating
          else event.Failed? && Invalidates(event.error) && attempt < MAX_ATTEMPTS
  }

  /** How a call ends at an attempt that is not repeated. */
  function EndingOf(event: Event, mutating: bool): Ending {
    match event
    case Answer => Answered
    case NoCredential => CredentialInvalid
    case NotConnected(error) => if CredentialRefused(error) then CredentialRejected else Unavailable
    case Failed(error, _) =>
      match Classify(error, true)
      case Rejected => NativeRejected
      case Unauthorized => CredentialRejected
      case Unprocessed => Unavailable
      case Unknown => if mutating then OutcomeUnknown else Unavailable
  }

  /** A finished call: the attempts before the last were repeated, and the last was not. */
  ghost predicate Finished(upstream: nat -> Event, mutating: bool, ending: Ending, attempts: nat) {
    && attempts >= 1
    && (forall k :: 1 <= k < attempts ==> Retries(k, upstream(k), mutating))
    && !Retries(attempts, upstream(attempts), mutating)
    && ending == EndingOf(upstream(attempts), mutating)
  }

  /** callTool, against whatever each attempt meets. */
  method CallTool(upstream: nat -> Event, mutating: bool) returns (ending: Ending, attempts: nat)
    ensures attempts <= MAX_ATTEMPTS
    ensures Finished(upstream, mutating, ending, attempts)
  {
    attempts := 1;
    while true
      invariant 1 <= attempts <= MAX_ATTEMPTS
      invariant forall k :: 1 <= k < attempts ==> Retries(k, upstream(k), mutating)
      decreases MAX_ATTEMPTS - attempts
    {
      var event := upstream(attempts);
      if event.NoCredential? {
        return CredentialInvalid, attempts;
      }
      if event.Answer? {
        return Answered, attempts;
      }
      var failure := Classify(event.error, event.Failed?);
      var dropped := event.Failed? && Invalidates(event.error);
      if failure == Rejected {
        return NativeRejected, attempts;
      }
      if failure == Unauthorized {
        return CredentialRejected, attempts;
      }
      var processed := failure == Unknown;
      var retry := if attempts == 1 then !processed || !mutating else dropped && attempts < MAX_ATTEMPTS;
      if !retry {
        return if processed && mutating then OutcomeUnknown else Unavailable, attempts;
      }
      attempts := attempts + 1;
    }
  }

  /** Whatever drops a connection tells that the tool did not run, so dropping is a safe reason to send again. */
  lemma DroppedIsUnprocessed(error: Error)
    ensures Invalidates(error) ==> TellsNotRun(error)
    ensures Classify(error, true) == Unknown <==> !TellsNotRun(error)
  {
  }

  /** An attempt failed before its request was sent, or with an answer that tells that nothing ran. */
  predicate SafeToRepeat(event: Event) {
    || (event.NotConnected? && event.error !in {Http(401), Http(403)})
    || (event.Failed? && event.error in {Http(404), ConnectionRefused})
  }

  /**
   What is sent again: after the first attempt whatever cannot have run and was
   not refused, and for a call that only reads whatever may have failed in
   between; after the second only what met a forgotten session.
   */
  lemma RepeatedExactly(attempt: nat, event: Event, mutating: bool)
    requires 1 <= attempt <= 3
    ensures Retries(attempt, event, mutating) <==>
      if attempt == 1 then SafeToRepeat(event) || (!mutating && event.Failed? && MayHaveRun(event))
      else attempt < 3 && event.Failed? && event.error == Http(404)
  {
  }

  /** What the ending of a call tells of its last attempt. */
  lemma EndingsTell(upstream: nat -> Event, mutating: bool, ending: Ending, attempts: nat)
    requires Finished(upstream, mutating, ending, attempts)
    ensures var last := upstream(attempts);
      && (ending == Answered <==> last.Answer?)
      && (ending == CredentialInvalid <==> last.NoCredential?)
      && (ending == CredentialRejected <==> (last.NotConnected? || last.Failed?) && last.error in {Http(401), Http(403)})
      && (ending == NativeRejected <==> last.Failed? && last.error == ProtocolError)
      && (ending == OutcomeUnknown <==> mutating && last.Failed? && MayHaveRun(last))
  {
  }

  /**
   A mutating call may have run at most once, and then on its last attempt;
   the ending tells whether it may have.
   */
  lemma MutatingCallRunsAtMostOnce(upstream: nat -> Event, ending: Ending, attempts: nat)
    requires Finished(upstream, true, ending, attempts)
    ensures attempts <= 3
    ensures forall k :: 1 <= k < attempts ==> !MayHaveRun(upstream(k))
    ensures MayHaveRun(upstream(attempts)) <==> ending in {Answered, OutcomeUnknown}
  {
    assert !Retries(MAX_ATTEMPTS, upstream(MAX_ATTEMPTS), true);
    hide Invalidates;
    forall k | 1 <= k < attempts ensures !MayHaveRun(upstream(k)) {
      assert Retries(k, upstream(k), true);
      DroppedIsUnprocessed(upstream(k).error);
    }
  }

  function Times(upstream: nat -> Event, attempts: nat): nat {
    if attempts == 0 then 0 else Times(upstream, attempts - 1) + if Ran(upstream(attempts)) then 1 else 0
  }

  lemma {:induction false} RanOnlyBefore(upstream: nat -> Event, attempts: nat)
    requires forall k :: 1 <= k <= attempts ==> !Ran(upstream(k))
    ensures Times(upstream, attempts) == 0
  {
    if attempts > 0 {
      RanOnlyBefore(upstream, attempts - 1);
    }
  }

  /** The number of times T3 really ran a mutating tool, from how its call ended. */
  lemma MutatingCallCount(upstream: nat -> Event, ending: Ending, attempts: nat)
    requires Finished(upstream, true, ending, attempts)
    requires forall k :: 1 <= k <= attempts ==> Honest(upstream(k))
    ensures Times(upstream, attempts) <= 1
    ensures ending == Answered ==> Times(upstream, attempts) == 1
    ensures ending !in {Answered, OutcomeUnknown} ==> Times(upstream, attempts) == 0
  {
    MutatingCallRunsAtMostOnce(upstream, ending, attempts);
    RanOnlyBefore(upstream, attempts - 1);
  }

  /** A call that only reads may run twice, on its first and its last attempt, and no more often. */
  lemma ReadingCallRunsAtMostTwice(upstream: nat -> Event, ending: Ending, attempts: nat)
    requires Finished(upstream, false, ending, attempts)
    requires forall k :: 1 <= k <= attempts ==> Honest(upstream(k))
    ensures attempts <= 3 && Times(upstream, attempts) <= 2
    ensures forall k :: 1 < k < attempts ==> !Ran(upstream(k))
  {
    assert !Retries(MAX_ATTEMPTS, upstream(MAX_ATTEMPTS), false);
    forall k | 1 < k < attempts ensures !Ran(upstream(k)) {
      assert Retries(k, upstream(k), false);
    }
    assert Times(upstream, 0) == 0 && Times(upstream, 1) <= 1;
    if attempts == 3 {
      assert Times(upstream, 2) == Times(upstream, 1);
    }
  }
}
