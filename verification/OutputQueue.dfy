/**
 The byte-bounded output queue (rust/src/mcp/output.rs). Senders share a locked
 state; the receiver takes a frame out of the channel before it takes the lock
 to give its bytes back, so a frame can be out of the channel and still counted,
 or in the channel and not counted yet.
 */
module OutputQueue {
  import opened Numbers
  import opened Options

  type Frame = seq<Byte>

  const QUEUE_CAPACITY: nat := 128
  const QUEUE_BYTES: nat := 8 * 1024 * 1024

  /**
   `credit` is the size of a frame its sender has put in the channel but not yet
   counted; that sender holds the lock. `alive` says that a Delivery still
   exists. `accepted` and `received` are the frames so far.
   */
  datatype Queue = Queue(
    open: bool,
    queuedBytes: nat,
    credit: Option<nat>,
    channel: seq<Frame>,
    popped: Option<Frame>,
    failed: bool,
    ended: bool,
    alive: bool,
    dropped: bool,
    accepted: seq<Frame>,
    received: seq<Frame>)

  const NEW_QUEUE := Queue(true, 0, None, [], None, false, false, true, false, [], [])

  datatype Step =
    | TrySend(frame: Frame)
    | CountSent
    | Finish
    | Cancel
    | Pop
    | GiveBack
    | ReportFailure
    | DropOutput
    | DropDeliveries

  predicate LockFree(q: Queue) { q.credit.None? }

  predicate Receiving(q: Queue) { !q.ended && !q.dropped }

  predicate Enabled(q: Queue, step: Step) {
    match step
    case TrySend(_) => LockFree(q) && q.alive
    case CountSent => q.credit.Some?
    case Finish => LockFree(q) && q.alive
    case Cancel => true
    case Pop => Receiving(q) && !q.failed && q.popped.None? && q.channel != []
    case GiveBack => q.popped.Some? && (q.alive ==> LockFree(q))
    case ReportFailure => Receiving(q) && q.failed && q.popped.None?
    case DropOutput => !q.dropped && q.popped.None? && LockFree(q)
    case DropDeliveries => q.alive && LockFree(q)
  }

  /** Whether a frame fits: by bytes, by the channel's capacity, and while there is a receiver. */
  predicate Fits(q: Queue, frame: Frame) {
    |frame| <= SaturatingSub(QUEUE_BYTES, q.queuedBytes) && |q.channel| < QUEUE_CAPACITY && !q.dropped
  }

  function Next(q: Queue, step: Step): Queue
    requires Enabled(q, step)
  {
    match step
    case TrySend(frame) =>
      if !q.open then q
      else if !Fits(q, frame) then q.(open := false, failed := true)
      else q.(channel := q.channel + [frame], credit := Some(|frame|), accepted := q.accepted + [frame])
    case CountSent => q.(queuedBytes := q.queuedBytes + q.credit.value, credit := None)
    case Finish => q.(open := false)
    case Cancel => q.(failed := true)
    case Pop => q.(channel := q.channel[1..], popped := Some(q.channel[0]))
    case GiveBack =>
      var returned := q.(popped := None, received := q.received + [q.popped.value]);
      if q.alive then returned.(queuedBytes := SaturatingSub(q.queuedBytes, |q.popped.value|)) else returned
    case ReportFailure => q.(ended := true)
    case DropOutput => q.(dropped := true, open := false, failed := true)
    case DropDeliveries => q.(alive := false, open := false)
  }

  function After(q: Queue, steps: seq<Step>): Option<Queue>
    decreases |steps|
  {
    if steps == [] then Some(q)
    else if Enabled(q, steps[0]) then After(Next(q, steps[0]), steps[1..]) else None
  }

  // ---------------------------------------------------------------- the shared objects

  lemma TwoSteps(q: Queue, first: Step, second: Step)
    requires Enabled(q, first) && Enabled(Next(q, first), second)
    ensures After(q, [first, second]) == Some(Next(Next(q, first), second))
  {
    var middle := Next(q, first);
    assert [second][1..] == [];
    assert After(middle, [second]) == Some(Next(middle, second));
    assert [first, second][1..] == [second];
  }

  /** What a poll of `recv` gives. */
  datatype Polled = Taken(frame: Frame) | Broken | End | Pending

  /** Delivery and Output over one shared state; each call is one or two steps of the queue. */
  class OutputChannel {
    var open: bool
    var queuedBytes: nat
    var channel: seq<Frame>
    var failed: bool
    var ended: bool
    var alive: bool
    var dropped: bool
    ghost var accepted: seq<Frame>
    ghost var received: seq<Frame>

    ghost function View(): Queue
      reads this
    {
      Queue(open, queuedBytes, None, channel, None, failed, ended, alive, dropped, accepted, received)
    }

    constructor ()
      ensures View() == NEW_QUEUE
    {
      open, alive, failed, ended, dropped := true, true, false, false, false;
      queuedBytes, channel := 0, [];
      accepted, received := [], [];
    }

    /** `send_bytes`, from taking the lock to releasing it. */
    method SendBytes(frame: Frame) returns (sent: bool)
      requires alive
      modifies this
      ensures sent <==> old(open) && Fits(old(View()), frame)
      ensures sent ==> After(old(View()), [TrySend(frame), CountSent]) == Some(View())
      ensures !sent ==> View() == Next(old(View()), TrySend(frame))
    {
      if !open {
        return false;
      }
      if |frame| > SaturatingSub(QUEUE_BYTES, queuedBytes) || |channel| >= QUEUE_CAPACITY || dropped {
        open, failed := false, true;
        sent := false;
      } else {
        TwoSteps(View(), TrySend(frame), CountSent);
        channel, accepted := channel + [frame], accepted + [frame];
        queuedBytes := queuedBytes + |frame|;
        sent := true;
      }
    }

    method FinishSending()
      requires alive
      modifies this
      ensures View() == Next(old(View()), Finish)
    {
      open := false;
    }

    method Fail()
      requires alive
      modifies this
      ensures After(old(View()), [Finish, Cancel]) == Some(View())
    {
      TwoSteps(View(), Finish, Cancel);
      open := false;
      failed := true;
    }

    /** One poll of `recv`: a failure first, then the next frame, then the end; it waits while more may come. */
    method Recv() returns (result: Polled)
      requires !dropped
      modifies this
      ensures var was := old(View());
              if was.ended then result == End && View() == was
              else if was.failed then result == Broken && View() == Next(was, ReportFailure)
              else if was.channel != [] then result == Taken(was.channel[0]) && After(was, [Pop, GiveBack]) == Some(View())
              else View() == was && if AtEnd(was) then result == End else result == Pending && Waits(was)
    {
      if ended {
        return End;
      }
      if failed {
        ended := true;
        return Broken;
      }
      if channel == [] {
        return if open then Pending else End;
      }
      TwoSteps(View(), Pop, GiveBack);
      var frame := channel[0];
      channel, received := channel[1..], received + [frame];
      if alive {
        queuedBytes := SaturatingSub(queuedBytes, |frame|);
      }
      result := Taken(frame);
    }
  }

  // ---------------------------------------------------------------- every interleaving

  function Bytes(frames: seq<Frame>): nat { if frames == [] then 0 else |frames[0]| + Bytes(frames[1..]) }

  lemma {:induction false} BytesSnoc(frames: seq<Frame>, last: Frame)
    ensures Bytes(frames + [last]) == Bytes(frames) + |last|
  {
    if frames == [] {
      assert [last][1..] == [];
    } else {
      assert (frames + [last])[1..] == frames[1..] + [last];
      BytesSnoc(frames[1..], last);
    }
  }

  function Held(q: Queue): seq<Frame> { (if q.popped.Some? then [q.popped.value] else []) + q.channel }

  /** Byte conservation: what is counted or about to be counted is in the channel, or out of it and not given back. */
  predicate Counted(q: Queue) {
    && (q.alive ==> q.queuedBytes + q.credit.Or(0) == Bytes(Held(q)))
    && q.queuedBytes + q.credit.Or(0) <= QUEUE_BYTES
  }

  /** Received, popped and queued frames together are the accepted ones, in order. */
  predicate Ordered(q: Queue) { q.accepted == q.received + Held(q) }

  predicate Inv(q: Queue) {
    && Counted(q) && Ordered(q) && |q.channel| <= QUEUE_CAPACITY
    && (q.credit.Some? ==> q.alive) && (!q.alive ==> !q.open)
  }

  lemma TrySendKeepsInv(q: Queue, frame: Frame)
    requires Inv(q) && Enabled(q, TrySend(frame))
    ensures Inv(Next(q, TrySend(frame)))
  {
    if q.open && Fits(q, frame) {
      assert Held(Next(q, TrySend(frame))) == Held(q) + [frame];
      BytesSnoc(Held(q), frame);
    }
  }

  lemma PopKeepsInv(q: Queue)
    requires Inv(q) && Enabled(q, Pop)
    ensures Inv(Next(q, Pop))
  {
    assert Held(Next(q, Pop)) == Held(q);
  }

  lemma GiveBackCounts(q: Queue)
    requires Counted(q) && Enabled(q, GiveBack)
    ensures Counted(Next(q, GiveBack))
  {
    assert Held(q)[0] == q.popped.value && Held(q)[1..] == q.channel;
    assert Held(Next(q, GiveBack)) == q.channel;
  }

  lemma GiveBackKeepsOrder(q: Queue)
    requires Ordered(q) && Enabled(q, GiveBack)
    ensures Ordered(Next(q, GiveBack))
  {
    Reassociate(q.received, [q.popped.value], q.channel);
    assert Held(Next(q, GiveBack)) == q.channel;
  }

  lemma Reassociate(a: seq<Frame>, b: seq<Frame>, c: seq<Frame>)
    ensures a + (b + c) == (a + b) + c
    ensures [] + c == c
  {
  }

  /** Steps that move no frame. */
  lemma OtherStepKeepsInv(q: Queue, step: Step)
    requires Inv(q) && Enabled(q, step) && !step.TrySend? && !step.Pop? && !step.GiveBack?
    ensures Inv(Next(q, step))
  {
    assert Held(Next(q, step)) == Held(q);
  }

  lemma StepKeepsInv(q: Queue, step: Step)
    requires Inv(q) && Enabled(q, step)
    ensures Inv(Next(q, step))
  {
    match step
    case TrySend(frame) => TrySendKeepsInv(q, frame);
    case Pop => PopKeepsInv(q);
    case GiveBack =>
      GiveBackCounts(q);
      GiveBackKeepsOrder(q);
    case _ => OtherStepKeepsInv(q, step);
  }

  lemma {:induction false} ReachableInv(q: Queue, steps: seq<Step>)
    requires Inv(q) && After(q, steps).Some?
    ensures Inv(After(q, steps).value)
    decreases |steps|
  {
    if steps != [] {
      StepKeepsInv(q, steps[0]);
      ReachableInv(Next(q, steps[0]), steps[1..]);
    }
  }

  /**
   After any interleaving: bytes are conserved and bounded, giving bytes back
   never saturates, and the receiver has a prefix of what was accepted.
   */
  lemma BytesAreConserved(steps: seq<Step>)
    requires After(NEW_QUEUE, steps).Some?
    ensures var q := After(NEW_QUEUE, steps).value;
            && (q.alive ==> q.queuedBytes + q.credit.Or(0) == Bytes(Held(q)))
            && q.queuedBytes <= QUEUE_BYTES && |q.channel| <= QUEUE_CAPACITY
            && (Enabled(q, GiveBack) && q.alive ==> q.queuedBytes >= |q.popped.value|)
            && q.received <= q.accepted
  {
    ReachableInv(NEW_QUEUE, steps);
    var q := After(NEW_QUEUE, steps).value;
    if q.popped.Some? {
      assert Held(q)[0] == q.popped.value;
    }
  }

  /**
   In every reachable state of an open queue a frame is accepted exactly if it and
   the frames not yet received fit into 8 MiB, fewer than 128 are in the channel,
   and there is a receiver; a frame that is not closes and fails the queue.
   */
  lemma RefusedExactly(steps: seq<Step>, frame: Frame)
    requires After(NEW_QUEUE, steps).Some? && Enabled(After(NEW_QUEUE, steps).value, TrySend(frame))
    requires After(NEW_QUEUE, steps).value.open
    ensures var q := After(NEW_QUEUE, steps).value;
            var next := Next(q, TrySend(frame));
            if Bytes(Held(q)) + |frame| <= 8_388_608 && |q.channel| < 128 && !q.dropped
            then next == q.(channel := q.channel + [frame], credit := Some(|frame|), accepted := q.accepted + [frame])
            else next == q.(open := false, failed := true)
  {
    ReachableInv(NEW_QUEUE, steps);
  }

  /** A closed queue stays closed and accepts nothing more. */
  lemma {:induction false} ClosedAcceptsNothing(q: Queue, steps: seq<Step>)
    requires !q.open && After(q, steps).Some?
    ensures !After(q, steps).value.open && After(q, steps).value.accepted == q.accepted
    decreases |steps|
  {
    if steps != [] {
      ClosedAcceptsNothing(Next(q, steps[0]), steps[1..]);
    }
  }

  /** `recv` sees the end of the channel: it is empty and its only sender is gone. */
  predicate AtEnd(q: Queue) { Idle(q) && !q.open }

  /** Nothing is there to be taken, and no failure to report. */
  predicate Idle(q: Queue) { Receiving(q) && !q.failed && q.popped.None? && q.channel == [] }

  /** `recv` waits. */
  predicate Waits(q: Queue) { Idle(q) && q.open }

  /** A receiver that sees the end has received everything. */
  lemma EndMeansDrained(steps: seq<Step>)
    requires After(NEW_QUEUE, steps).Some? && AtEnd(After(NEW_QUEUE, steps).value)
    ensures var q := After(NEW_QUEUE, steps).value; q.received == q.accepted
  {
    ReachableInv(NEW_QUEUE, steps);
  }

  /** A receiver that waits has received everything as well. */
  lemma WaitingHasAll(steps: seq<Step>)
    requires After(NEW_QUEUE, steps).Some? && Waits(After(NEW_QUEUE, steps).value)
    ensures var q := After(NEW_QUEUE, steps).value; q.received == q.accepted
  {
    ReachableInv(NEW_QUEUE, steps);
  }

  /**
   No wake-up is lost: whatever happens next ends the wait, but for a sender
   counting a frame; then a poll gives the frame just sent, the failure, or the
   end, unless the receiver itself is dropped.
   */
  lemma WaitingEndsExactly(q: Queue, step: Step)
    requires Waits(q) && Enabled(q, step)
    ensures Waits(Next(q, step)) <==> step.CountSent?
    ensures var now := Next(q, step);
      match step
      case TrySend(frame) => if Fits(q, frame) then now.channel == [frame] && !now.failed else now.failed
      case Cancel => now.failed
      case Finish => AtEnd(now)
      case DropDeliveries => AtEnd(now)
      case DropOutput => now.dropped
      case _ => step.CountSent?
  {
    assert step.TrySend? && Fits(q, step.frame) ==> Next(q, step).channel == [step.frame];
  }

  /** A failure is reported once, before any frame that is left; after that nothing more is received. */
  lemma FailureIsReportedOnce(q: Queue, steps: seq<Step>)
    requires q.failed && Enabled(q, ReportFailure) && After(Next(q, ReportFailure), steps).Some?
    ensures !Enabled(q, Pop)
    ensures var end := After(Next(q, ReportFailure), steps).value;
            end.received == q.received && !Enabled(end, Pop) && !Enabled(end, ReportFailure)
  {
    StaysEnded(Next(q, ReportFailure), steps);
  }

  lemma {:induction false} StaysEnded(q: Queue, steps: seq<Step>)
    requires q.ended && q.popped.None? && After(q, steps).Some?
    ensures var end := After(q, steps).value; end.ended && end.popped.None? && end.received == q.received
    decreases |steps|
  {
    if steps != [] {
      StaysEnded(Next(q, steps[0]), steps[1..]);
    }
  }

  /** The receiver, or the last sender, goes: the queue takes nothing more, and without a receiver it has failed. */
  lemma DropsClose(q: Queue)
    ensures Enabled(q, DropOutput) ==> Next(q, DropOutput) == q.(dropped := true, open := false, failed := true)
    ensures Enabled(q, DropDeliveries) ==> Next(q, DropDeliveries) == q.(alive := false, open := false)
    ensures Enabled(q, DropDeliveries) ==> !Enabled(Next(q, DropDeliveries), Finish)
  {
  }

  function Drain(n: nat): seq<Step> { if n == 0 then [] else [Pop, GiveBack] + Drain(n - 1) }

  /** Once the queue is finished without a failure, reading on reaches the end with every frame received. */
  lemma {:induction false} FinishedQueueDrains(q: Queue)
    requires Inv(q) && !q.open && !q.failed && Receiving(q) && q.popped.None? && LockFree(q)
    ensures var end := After(q, Drain(|q.channel|));
            end.Some? && AtEnd(end.value) && end.value.received == q.accepted == end.value.accepted
    decreases |q.channel|
  {
    if q.channel != [] {
      var popped := Next(q, Pop);
      StepKeepsInv(q, Pop);
      var returned := Next(popped, GiveBack);
      StepKeepsInv(popped, GiveBack);
      FinishedQueueDrains(returned);
      var rest := Drain(|q.channel| - 1);
      var steps := Drain(|q.channel|);
      assert steps == [Pop, GiveBack] + rest;
      assert steps[0] == Pop && steps[1..] == [GiveBack] + rest;
      assert ([GiveBack] + rest)[1..] == rest;
      assert After(popped, steps[1..]) == After(returned, rest);
    }
  }
}
