/**
 What a reused idempotency key is answered with: the record of the very payload
 that was asked for, and a refusal for any other.
 */
module DispatchPayload {
  import opened Options
  import opened Journal
  import opened Dispatch
  import opened DispatchInvariant

  /** The caller has got a record from begin, or found one under its key. */
  predicate PastBegin(p: Phase) {
    p.Saving? || p.Ready? || p.AwaitingT3? || p.Settling? || p.Reconciling? || p.Returned?
  }

  predicate HoldsOwn(j: State, p: Phase) { PastBegin(p) ==> Holds(j.memory, p.rec) }

  /** Callers' records are in memory: update finds the record it means. */
  ghost predicate Held(w: World) {
    forall c :: c in w.callers ==> HoldsOwn(w.j, w.callers[c])
  }

  ghost predicate Keyed(s: Store) { forall k :: k in s.entries ==> s.entries[k].key == k }

  lemma MemoryIsKeyed(w: World)
    requires Inv(w)
    ensures Keyed(w.j.memory)
  {
  }

  lemma PatchKeepsHeld(w: World, c: Caller, req: Request, rec: Record, status: Status, guarded: bool)
    requires Held(w) && Keyed(w.j.memory)
    ensures Held(Patch(w, c, req, rec, status, guarded))
  {
  }

  lemma StampKeepsHeld(w: World, c: Caller, task: string, stage: Stage, next: Option<Id>)
    requires Held(w)
    ensures Held(Stamp(w, c, task, stage, next))
  {
  }

  lemma FoundKeepsHeld(w: World, c: Caller, req: Request)
    requires Held(w) && Keyed(w.j.memory)
    ensures Held(LookedUp(w, c, req))
    ensures forall id :: Held(RecordBegun(w, c, req, id))
  {
  }

  lemma JournalStepKeepsHeld(w: World, step: Step)
    requires Held(w) && Keyed(w.j.memory) && Enabled(w, step) && JournalStep(step)
    ensures Held(Next(w, step))
  {
    match step
    case FindRecord(c) => FoundKeepsHeld(w, c, w.callers[c].req);
    case BeginRecord(c, id) => FoundKeepsHeld(w, c, w.callers[c].req);
    case ReadFails(c, rejectsTask) =>
      if rejectsTask && w.callers[c].req.task.Some? {
        StampKeepsHeld(w, c, w.callers[c].req.task.value, TaskRejected, None);
      }
    case AbandonCommand(c) =>
      var rec := w.callers[c].rec;
      var v := w.(h := w.h.(abandoned := w.h.abandoned + {rec.commandId}));
      assert Held(v);
      PatchKeepsHeld(v, c, w.callers[c].req, rec, Rejected, false);
    case SendCommand(c) =>
  }

  lemma AnswerStepKeepsHeld(w: World, step: Step)
    requires Held(w) && Keyed(w.j.memory) && Enabled(w, step) && AnswerStep(step)
    ensures Held(Next(w, step))
  {
    var c := step.c;
    var req, rec := w.callers[c].req, w.callers[c].rec;
    match step
    case AnswerAccepted(_) => PatchKeepsHeld(w, c, req, rec, Accepted, true);
    case AnswerRefused(_) => PatchKeepsHeld(w, c, req, rec, Rejected, false);
    case AnswerLost(_) => PatchKeepsHeld(w, c, req, rec, Uncertain, false);
    case ReconcileEnds(_, _) => PatchKeepsHeld(w, c, req, rec, Accepted, false);
  }

  lemma TaskStepKeepsHeld(w: World, step: Step)
    requires Held(w) && Enabled(w, step) && (StartStep(step) || TaskStep(step))
    ensures Held(Next(w, step))
  {
    hide Found;
  }

  lemma FailedWriteKeepsHeld(w: World)
    requires Held(w) && Keyed(w.j.memory) && w.j.writing.Some? && w.j.queue != []
    ensures Held(WriteFailed(w))
  {
    var c, failed := w.j.queue[0], w.(j := Broken(w.j));
    if c in w.callers && w.callers[c].Settling? && w.callers[c].guarded {
      assert Held(Leave(failed, c));
      PatchKeepsHeld(Leave(failed, c), c, w.callers[c].req, w.callers[c].rec, Uncertain, false);
    }
  }

  /** Only a running gateway has callers. */
  lemma StoppedHasNone(w: World)
    requires Inv(w) && !w.up
    ensures w.callers == map[]
  {
  }

  lemma HostStepKeepsHeld(w: World, step: Step)
    requires Inv(w) && Held(w) && Keyed(w.j.memory) && Enabled(w, step) && HostStep(step)
    ensures Held(Next(w, step))
  {
    if step.Init? {
      StoppedHasNone(w);
    } else if step.FailWrite? {
      FailedWriteKeepsHeld(w);
    } else if step.FinishWrite? {
      FinishedWriteKeepsHeld(w);
    }
    hide Inv, Keyed;
  }

  lemma FinishedWriteKeepsHeld(w: World)
    requires Held(w) && w.j.writing.Some? && w.j.queue != []
    ensures Held(WriteFinished(w))
  {
  }

  lemma StepKeepsHeld(w: World, step: Step)
    requires Inv(w) && Held(w) && Enabled(w, step)
    ensures Held(Next(w, step))
  {
    MemoryIsKeyed(w);
    hide Inv, Enabled, Keyed;
    if JournalStep(step) {
      hide Next, Held;
      JournalStepKeepsHeld(w, step);
    } else if AnswerStep(step) {
      hide Next, Held;
      AnswerStepKeepsHeld(w, step);
    } else if StartStep(step) || TaskStep(step) {
      hide Next, Held;
      TaskStepKeepsHeld(w, step);
    } else if HostStep(step) {
      hide Next, Held;
      HostStepKeepsHeld(w, step);
    } else {
      UpstreamKeepsHeld(w, step);
    }
  }

  lemma UpstreamKeepsHeld(w: World, step: Step)
    requires Held(w) && Enabled(w, step) && (step.Apply? || step.Refuse? || step.OtherClient?)
    ensures Held(Next(w, step))
  {
    hide Tokens;
  }

  lemma {:induction false} ReachableHeld(steps: seq<Step>)
    requires After(steps).Some?
    ensures Held(After(steps).value)
  {
    if steps != [] {
      ReachableInv(steps[..|steps| - 1]);
      ReachableHeld(steps[..|steps| - 1]);
      StepKeepsHeld(After(steps[..|steps| - 1]).value, steps[|steps| - 1]);
    }
  }

  // ----- Theorems -----

  /** The caller's record is of its own key, kind and payload, and memory has it. */
  predicate OwnRecord(w: World, c: Caller)
    requires c in w.callers && PastBegin(w.callers[c])
  {
    var input, rec := w.callers[c].req.input, w.callers[c].rec;
    && rec.key == input.key && rec.kind == input.kind && rec.payloadHash == input.payloadHash
    && Holds(w.j.memory, rec)
  }

  lemma RecordIsOwn(w: World, c: Caller)
    requires Inv(w) && Held(w) && c in w.callers && PastBegin(w.callers[c])
    ensures OwnRecord(w, c)
  {
    hide Inv;
    PhaseIsGood(w, c);
    hide UnsentOk;
  }

  /**
   In every reachable world a caller that is past begin, whether its record was
   new, reused or found, holds the record of its own key, kind and payload.
   */
  lemma CallsHoldTheirPayload(steps: seq<Step>, c: Caller)
    requires After(steps).Some?
    requires c in After(steps).value.callers && PastBegin(After(steps).value.callers[c])
    ensures OwnRecord(After(steps).value, c)
  {
    hide Inv, Held, OwnRecord;
    ReachableInv(steps);
    ReachableHeld(steps);
    RecordIsOwn(After(steps).value, c);
  }

  /** The command sent is the one the caller asks for, with its kind and its payload. */
  predicate IsTheCallers(w: World, c: Caller, s: Sent)
    requires c in w.callers && PastBegin(w.callers[c])
  {
    var input := w.callers[c].req.input;
    && s.token in w.h.born && s.token == w.callers[c].rec.operationId
    && w.h.born[s.token].payloadHash == input.payloadHash && s.kind == input.kind
  }

  /** Whoever gets past begin under a key that was dispatched asks for the very command that was dispatched. */
  lemma DispatchedPayloadIsTheCallers(steps: seq<Step>, c: Caller, i: nat)
    requires After(steps).Some? && i < |After(steps).value.h.sent|
    requires c in After(steps).value.callers && PastBegin(After(steps).value.callers[c])
    requires After(steps).value.h.sent[i].key == After(steps).value.callers[c].req.input.key
    ensures IsTheCallers(After(steps).value, c, After(steps).value.h.sent[i])
  {
    hide Inv, Held, IsTheCallers;
    ReachableInv(steps);
    ReachableHeld(steps);
    SentIsTheCallers(After(steps).value, c, i);
  }

  lemma SentIsTheCallers(w: World, c: Caller, i: nat)
    requires Inv(w) && Held(w) && c in w.callers && PastBegin(w.callers[c])
    requires i < |w.h.sent| && w.h.sent[i].key == w.callers[c].req.input.key
    ensures IsTheCallers(w, c, w.h.sent[i])
  {
    hide Inv, Held;
    RecordIsOwn(w, c);
    CallersRun(w, c);
    PhaseIsGood(w, c);
    SentIsOnFile(w, i);
    hide UnsentOk;
  }

  lemma SentIsOnFile(w: World, i: nat)
    requires Inv(w) && w.up && i < |w.h.sent|
    ensures var s := w.h.sent[i];
      && s.token in w.h.born && w.h.born[s.token].key == s.key && w.h.born[s.token].kind == s.kind
      && s.key in w.j.memory.entries && w.j.memory.entries[s.key].operationId == s.token
  {
    assert SentOk(w.h, w.j.file, w.h.sent[i]);
  }

  /** The key is in memory with another payload or kind. */
  predicate UsedOtherwise(j: State, input: Input) {
    && input.key in j.memory.entries
    && (j.memory.entries[input.key].payloadHash != input.payloadHash || j.memory.entries[input.key].kind != input.kind)
  }

  /** Such a call fails: the journal, the history and every other caller stay as they are. Any other call goes on. */
  lemma OtherPayloadIsRefused(w: World, step: Step)
    requires Enabled(w, step) && (step.FindRecord? || step.BeginRecord?)
    ensures var v := Next(w, step);
      && (UsedOtherwise(w.j, w.callers[step.c].req.input) ==> v == w.(callers := w.callers - {step.c}))
      && (step.c !in v.callers ==> UsedOtherwise(w.j, w.callers[step.c].req.input))
  {
  }

  /** A task key started with another payload is refused; a known task, or a new one with that payload, is gone on with. */
  lemma OtherTaskIsRefused(w: World, c: Caller, task: string, hash: string, ref: Id)
    requires Enabled(w, StartTask(c, task, hash, ref))
    ensures var v, tasks := Next(w, StartTask(c, task, hash, ref)), w.j.memory.tasks;
      if task in tasks && tasks[task].payloadHash != hash then v == w
      else
        && c in v.callers && task in v.j.memory.tasks && v.j.memory.tasks[task].payloadHash == hash
        && v.callers[c] == (if task in tasks then TaskGate(tasks[task]) else TaskSaving(v.j.memory.tasks[task]))
        && (task in tasks ==> v.j == w.j)
        && (task !in tasks ==> v.j.memory.tasks[task] == Task(ref, task, hash, TaskPrepared))
  {
  }
}
