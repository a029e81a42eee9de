/**
 What the protocol records of each outcome, and that a task that nothing gets in
 the way of runs through to run_accepted.
 */
module DispatchOutcomes {
  import opened Options
  import opened Journal
  import opened Dispatch
  import opened DispatchInvariant
  import opened DispatchPayload
  import opened DispatchTheorems

  // ----- What is recorded -----

  /** Memory is as before, but for the status of the record under the key; a write of it is queued, and the caller waits. */
  predicate Records(w: World, v: World, c: Caller, status: Status)
    requires c in w.callers && PastBegin(w.callers[c])
  {
    var req, key := w.callers[c].req, w.callers[c].rec.key;
    && key in w.j.memory.entries
    && v.j.memory == w.j.memory.(entries := w.j.memory.entries[key := w.j.memory.entries[key].(status := status)])
    && v.j.file == w.j.file && v.j.writing == w.j.writing && v.j.queue == w.j.queue + [c]
    && c in v.callers && v.callers[c].Settling? && v.callers[c].req == req && v.callers[c].rec == v.j.memory.entries[key]
    && v.callers - {c} == w.callers - {c} && v.h.sent == w.h.sent
  }

  /** What the answer about a command is recorded as. */
  function Answered(step: Step): Status
    requires AnswerStep(step) || step.AbandonCommand?
  {
    match step
    case AnswerAccepted(_) => Accepted
    case AnswerRefused(_) => Rejected
    case AnswerLost(_) => Uncertain
    case ReconcileEnds(_, _) => Accepted
    case AbandonCommand(_) => Rejected
  }

  lemma PatchRecords(w: World, u: World, c: Caller, status: Status, guarded: bool)
    requires c in w.callers && PastBegin(w.callers[c]) && Holds(w.j.memory, w.callers[c].rec)
    requires u.j == w.j && u.callers == w.callers && u.h.sent == w.h.sent
    ensures Records(w, Patch(u, c, w.callers[c].req, w.callers[c].rec, status, guarded), c, status)
  {
    var v := Patch(u, c, w.callers[c].req, w.callers[c].rec, status, guarded);
    assert v.callers - {c} == w.callers - {c};
  }

  /**
   In every reachable world the answer to a call's command is recorded: accepted,
   rejected for a refusal and for a command given up before it was sent, uncertain
   for a lost answer; and accepted where reconciliation finds an undecided one.
   Otherwise a reconciliation changes nothing.
   */
  lemma AnswersAreRecorded(steps: seq<Step>, step: Step)
    requires After(steps).Some? && Enabled(After(steps).value, step) && SettlingStep(step)
    ensures var w := After(steps).value;
      var v, c := Next(w, step), step.c;
      if step.ReconcileEnds? && (!step.found || w.callers[c].rec.status in {Accepted, Rejected})
      then v == Move(w, c, Returned(w.callers[c].req, w.callers[c].rec))
      else Records(w, v, c, Answered(step))
  {
    ReachableInv(steps);
    ReachableHeld(steps);
    AnswerIsRecorded(After(steps).value, step);
  }

  lemma AnswerIsRecorded(w: World, step: Step)
    requires Held(w) && Enabled(w, step) && SettlingStep(step)
    ensures var v, c := Next(w, step), step.c;
      if step.ReconcileEnds? && (!step.found || w.callers[c].rec.status in {Accepted, Rejected})
      then v == Move(w, c, Returned(w.callers[c].req, w.callers[c].rec))
      else Records(w, v, c, Answered(step))
  {
    var c := step.c;
    assert HoldsOwn(w.j, w.callers[c]);
    var u := if step.AbandonCommand? then w.(h := w.h.(abandoned := w.h.abandoned + {w.callers[c].rec.commandId})) else w;
    PatchRecords(w, u, c, Answered(step), step.AnswerAccepted?);
    hide Records, Found, Held;
  }

  /** The stage a task is shown at when one of its calls returns. */
  function StageShown(kind: Kind, status: Status): Stage {
    match (kind.ThreadCreate?, status)
    case (true, Accepted) => ThreadCreated
    case (true, Rejected) => TaskRejected
    case (true, _) => ThreadCreateUncertain
    case (false, Accepted) => RunAccepted
    case (false, Rejected) => DispatchRejected
    case (false, _) => DispatchUncertain
  }

  /** When a call returns, its task is shown at the stage of the call's outcome; an accepted create goes on to the send. */
  lemma ReturnShowsTheOutcome(w: World, c: Caller)
    requires Enabled(w, Return(c))
    ensures var v := Next(w, Return(c));
      var Returned(req, rec) := w.callers[c];
      if req.task.None? then v == Leave(w, c)
      else if req.task.value !in w.j.memory.tasks then v == Leave(w, c)
      else
        var t := req.task.value;
        && v.j.memory == w.j.memory.(tasks := w.j.memory.tasks[t := w.j.memory.tasks[t].(stage := StageShown(rec.kind, rec.status))])
        && v.j.queue == w.j.queue + [c]
        && v.callers == w.callers[c := Staging(t, if rec.kind.ThreadCreate? && rec.status.Accepted? then rec.threadId else None)]
        && v.h == w.h
  {
  }

  /** A summary shows the run's outcome where there is a run, else the create's, else the stage as it was. */
  lemma SummaryShowsTheOutcome(w: World, c: Caller)
    requires Enabled(w, SummaryEnds(c, true)) && w.callers[c].job.key in w.j.memory.tasks
    ensures var Summary(t, create, run) := w.callers[c];
      var v := Next(w, SummaryEnds(c, true));
      v.j.memory.tasks[t.key].stage ==
        (if run.Some? then StageShown(TurnStart, run.value.status)
         else if create.Some? then StageShown(ThreadCreate, create.value.status)
         else t.stage)
  {
  }

  /** A call that fails before begin ends; for the errors that reject a task, its task is recorded as rejected. */
  lemma FailedReadEndsTheCall(w: World, c: Caller, rejectsTask: bool)
    requires Enabled(w, ReadFails(c, rejectsTask))
    ensures var v, req := Next(w, ReadFails(c, rejectsTask)), w.callers[c].req;
      if rejectsTask && req.task.Some? && req.task.value in w.j.memory.tasks then
        && v.j.memory == SetStage(w.j.memory, req.task.value, TaskRejected) && v.j.queue == w.j.queue + [c]
        && v.callers == w.callers[c := Staging(req.task.value, None)] && v.h == w.h
      else v == w.(callers := w.callers - {c})
  {
  }

  /** The record's command is one that leaves a trace at T3: a thread, or a message in a known thread. */
  predicate Traceable(r: Record) { r.kind.ThreadCreate? || (r.kind.TurnStart? && r.threadId.Some?) }

  /**
   In every reachable world reconciliation finds the command of a record in memory
   exactly if T3 has applied it: a lost answer is made good, and nothing else is
   taken for one.
   */
  lemma AppliedIsFoundExactly(steps: seq<Step>, key: string)
    requires After(steps).Some? && key in After(steps).value.j.memory.entries
    requires Traceable(After(steps).value.j.memory.entries[key])
    ensures var w := After(steps).value;
      Found(w.h, w.j.memory.entries[key]) <==> w.j.memory.entries[key].commandId in w.h.applied
  {
    ReachableInv(steps);
    hide After;
    var w := After(steps).value;
    var r := w.j.memory.entries[key];
    assert GoodRecord(w.h, r);
    if r.commandId in w.h.applied {
      AppliedIsFound(w, r);
    }
    if Found(w.h, r) {
      FoundIsApplied(w.h, w.j.file, r);
    }
  }

  lemma AppliedIsFound(w: World, r: Record)
    requires Inv(w) && Born(w.h, r) && Traceable(r) && r.commandId in w.h.applied
    ensures Found(w.h, r)
  {
    assert w.h.born[r.operationId].operationId == r.operationId;
    var i :| 0 <= i < |w.h.sent| && w.h.sent[i].token == r.commandId;
    assert SentOk(w.h, w.j.file, w.h.sent[i]);
  }

  /** A finished write leaves on disk the memory it started from, and its caller goes on. */
  lemma FinishedWriteIsOnDisk(w: World)
    requires Enabled(w, FinishWrite) && w.j.queue[0] in w.callers
    ensures var v, c := Next(w, FinishWrite), w.j.queue[0];
      && v.j == State(w.j.memory, w.j.writing.value, w.j.queue[1..], None) && v.h == w.h
      && match w.callers[c]
         case TaskSaving(t) => v.callers == w.callers[c := TaskGate(t)]
         case Saving(req, rec) => v.callers == w.callers[c := Ready(req, rec)]
         case Settling(req, rec, _) => v.callers == w.callers[c := Returned(req, rec)]
         case Staging(t, Some(thread)) => v.callers == w.callers[c := TaskCreated(t, thread)]
         case SummarySaving(t, create, run) => v.callers == w.callers[c := Summary(t, create, run)]
         case _ => v.callers == w.callers - {c}
  {
  }

  // ----- A task runs through -----

  function Only(c: Caller, p: Phase): map<Caller, Phase> { map[c := p] }

  /** The world of one caller in a phase, with everything written. */
  function Quiet(c: Caller, p: Phase, store: Store, h: History): World {
    World(State(store, store, [], None), true, Only(c, p), h)
  }

  /** The caller changes memory, and its write goes through. */
  lemma WriteGoesThrough(steps: seq<Step>, c: Caller, p: Phase, next: Phase, old_: Store, store: Store, h: History)
    returns (longer: seq<Step>)
    requires After(steps) == Some(World(State(store, old_, [c], None), true, Only(c, p), h))
    requires Resumed(p) == Some(next)
    ensures After(longer) == Some(Quiet(c, next, store, h))
  {
    hide After, Found;
    var w := World(State(store, old_, [c], None), true, Only(c, p), h);
    var v;
    longer, v := WriteOut(steps, w);
    assert [c][1..] == [] && v.callers == Only(c, next);
    assert v == Quiet(c, next, store, h);
  }

  /** The history after a call's command was begun, sent and applied. */
  function Served(h: History, req: Request, id: Id): History {
    var r := NewRecord(req.input, id);
    h.(born := h.born[id := r], sent := h.sent + [CommandOf(req, r)], applied := h.applied + {id})
  }

  function Kept(store: Store, input: Input, id: Id, status: Status): Store {
    store.(entries := store.entries[input.key := NewRecord(input, id).(status := status)])
  }

  lemma CallBegins(steps: seq<Step>, c: Caller, req: Request, store: Store, h: History, id: Id) returns (longer: seq<Step>)
    requires After(steps) == Some(Quiet(c, Lookup(req), store, h)) && req.input.key !in store.entries
    requires id !in h.born && id !in h.external
    ensures var r := NewRecord(req.input, id);
      After(longer) == Some(Quiet(c, Ready(req, r), Kept(store, req.input, id, Prepared), h.(born := h.born[id := r])))
  {
    hide After, Found;
    var r := NewRecord(req.input, id);
    var s, u := Extend(steps, Quiet(c, Lookup(req), store, h), FindRecord(c));
    assert u == Quiet(c, Reading(req), store, h);
    s, u := Extend(s, u, BeginRecord(c, id));
    var kept := Kept(store, req.input, id, Prepared);
    assert u == World(State(kept, store, [c], None), true, Only(c, Saving(req, r)), h.(born := h.born[id := r]));
    longer := WriteGoesThrough(s, c, Saving(req, r), Ready(req, r), store, kept, h.(born := h.born[id := r]));
  }

  lemma CommandIsServed(steps: seq<Step>, c: Caller, req: Request, store: Store, h: History, id: Id) returns (longer: seq<Step>)
    requires var r := NewRecord(req.input, id);
      After(steps) == Some(Quiet(c, Ready(req, r), Kept(store, req.input, id, Prepared), h.(born := h.born[id := r])))
    requires id !in h.refused
    ensures After(longer)
         == Some(Quiet(c, AwaitingT3(req, NewRecord(req.input, id)), Kept(store, req.input, id, Prepared), Served(h, req, id)))
  {
    hide After, Found;
    var r := NewRecord(req.input, id);
    var kept, born := Kept(store, req.input, id, Prepared), h.(born := h.born[id := r]);
    var s, u := Extend(steps, Quiet(c, Ready(req, r), kept, born), SendCommand(c));
    assert u.callers == Only(c, AwaitingT3(req, r));
    TokensAppend(h.sent, CommandOf(req, r));
    longer, u := Extend(s, u, Apply(id));
  }

  lemma AnswerComes(steps: seq<Step>, c: Caller, req: Request, store: Store, h: History, id: Id) returns (longer: seq<Step>)
    requires After(steps)
          == Some(Quiet(c, AwaitingT3(req, NewRecord(req.input, id)), Kept(store, req.input, id, Prepared), Served(h, req, id)))
    ensures After(longer)
         == Some(Quiet(c, Returned(req, NewRecord(req.input, id).(status := Accepted)),
                       Kept(store, req.input, id, Accepted), Served(h, req, id)))
  {
    hide After, Found;
    var r := NewRecord(req.input, id);
    var old_, kept, served := Kept(store, req.input, id, Prepared), Kept(store, req.input, id, Accepted), Served(h, req, id);
    var s, u := Extend(steps, Quiet(c, AwaitingT3(req, r), old_, served), AnswerAccepted(c));
    var p := Settling(req, r.(status := Accepted), true);
    assert u.j.memory.entries == kept.entries && u.callers == Only(c, p);
    assert u == World(State(kept, old_, [c], None), true, Only(c, p), served);
    longer := WriteGoesThrough(s, c, p, Returned(req, r.(status := Accepted)), old_, kept, served);
  }

  /** One call with nothing in its way: begun, on disk, sent, applied, answered, and recorded on disk. */
  lemma CallSucceeds(steps: seq<Step>, c: Caller, req: Request, store: Store, h: History, id: Id) returns (longer: seq<Step>)
    requires After(steps) == Some(Quiet(c, Lookup(req), store, h)) && req.input.key !in store.entries
    requires id !in h.born && id !in h.external && id !in h.refused
    ensures After(longer)
         == Some(Quiet(c, Returned(req, NewRecord(req.input, id).(status := Accepted)),
                       Kept(store, req.input, id, Accepted), Served(h, req, id)))
  {
    hide After;
    var s := CallBegins(steps, c, req, store, h, id);
    s := CommandIsServed(s, c, req, store, h, id);
    longer := AnswerComes(s, c, req, store, h, id);
  }

  lemma StageIsSet(steps: seq<Step>, c: Caller, req: Request, rec: Record, store: Store, h: History)
    returns (longer: seq<Step>)
    requires After(steps) == Some(Quiet(c, Returned(req, rec), store, h)) && rec.status.Accepted?
    requires req.task.Some? && req.task.value in store.tasks
    ensures var t := req.task.value;
      After(longer) == Some(World(State(SetStage(store, t, StageShown(rec.kind, rec.status)), store, [c], None), true,
                                  Only(c, Staging(t, if rec.kind.ThreadCreate? then rec.threadId else None)), h))
  {
    hide After, Found;
    var t := req.task.value;
    var u;
    longer, u := Extend(steps, Quiet(c, Returned(req, rec), store, h), Return(c));
    assert u.callers == Only(c, Staging(t, if rec.kind.ThreadCreate? then rec.threadId else None));
    assert u.j == State(SetStage(store, t, StageShown(rec.kind, rec.status)), store, [c], None);
  }

  /** The call's outcome is shown as the task's stage, on disk. */
  lemma StageIsShown(steps: seq<Step>, c: Caller, req: Request, rec: Record, store: Store, h: History)
    returns (longer: seq<Step>)
    requires After(steps) == Some(Quiet(c, Returned(req, rec), store, h)) && rec.status.Accepted?
    requires req.task.Some? && req.task.value in store.tasks
    ensures var t := req.task.value;
      var shown := SetStage(store, t, StageShown(rec.kind, rec.status));
      After(longer) ==
        if rec.kind.ThreadCreate? && rec.threadId.Some? then Some(Quiet(c, TaskCreated(t, rec.threadId.value), shown, h))
        else Some(World(State(shown, shown, [], None), true, map[], h))
  {
    hide After, Found;
    var t := req.task.value;
    var shown := SetStage(store, t, StageShown(rec.kind, rec.status));
    var next := if rec.kind.ThreadCreate? then rec.threadId else None;
    var s := StageIsSet(steps, c, req, rec, store, h);
    var u := World(State(shown, store, [c], None), true, Only(c, Staging(t, next)), h);
    if next.Some? {
      longer := WriteGoesThrough(s, c, Staging(t, next), TaskCreated(t, next.value), store, shown, h);
    } else {
      var v;
      longer, v := WriteOut(s, u);
      assert [c][1..] == [] && v.callers == map[];
    }
  }

  /** The requests of a task's two calls, with the payloads they are sent with. */
  function CreateOf(task: string, hash: string): Request { Request(Input(ThreadCreate, ThreadKey(task), hash, None), Some(task)) }

  function SendOf(task: string, hash: string, thread: Id): Request {
    Request(Input(TurnStart, RunKey(task), hash, Some(thread)), Some(task))
  }

  lemma HostStarts() returns (steps: seq<Step>)
    ensures After(steps) == Some(World(State(NOTHING, NOTHING, [], None), true, map[], EMPTY))
  {
    assert Recovered(NOTHING.entries) == map[];
    assert After([]) == Some(Initial());
    hide After, Found;
    var u;
    steps, u := Extend([], Initial(), Init(1));
    assert u == World(State(NOTHING, NOTHING, [], None), true, map[], EMPTY);
  }

  lemma TaskIsRecorded(task: string, hash: string) returns (steps: seq<Step>)
    ensures var t := Task(1, task, hash, TaskPrepared);
      After(steps) == Some(World(State(Store(map[], map[task := t]), NOTHING, [1], None), true, Only(1, TaskSaving(t)), EMPTY))
  {
    hide After, Found;
    var s := HostStarts();
    var u := World(State(NOTHING, NOTHING, [], None), true, map[], EMPTY);
    steps, u := Extend(s, u, StartTask(1, task, hash, 1));
    var t := Task(1, task, hash, TaskPrepared);
    assert u == World(State(Store(map[], map[task := t]), NOTHING, [1], None), true, Only(1, TaskSaving(t)), EMPTY);
  }

  lemma TaskBegins(task: string, hash: string, createHash: string) returns (steps: seq<Step>)
    ensures After(steps)
         == Some(Quiet(1, Lookup(CreateOf(task, createHash)), Store(map[], map[task := Task(1, task, hash, TaskPrepared)]), EMPTY))
  {
    hide After, Found;
    var t := Task(1, task, hash, TaskPrepared);
    var store := Store(map[], map[task := t]);
    var s := TaskIsRecorded(task, hash);
    s := WriteGoesThrough(s, 1, TaskSaving(t), TaskGate(t), NOTHING, store, EMPTY);
    var v;
    steps, v := Extend(s, Quiet(1, TaskGate(t), store, EMPTY), Gate(1, createHash));
    assert v.callers == Only(1, Lookup(CreateOf(task, createHash)));
  }

  /**
   A task that nothing gets in the way of runs through: for every task and every
   payload there is a run in which its thread is created, its message is sent to
   that thread, both are applied, and the task is shown and stored as run_accepted.
   */
  lemma TaskRunsThrough(task: string, hash: string, createHash: string, sendHash: string) returns (steps: seq<Step>)
    ensures var create, send := CreateOf(task, createHash), SendOf(task, sendHash, 1);
      var first, second := NewRecord(create.input, 1), NewRecord(send.input, 2);
      var store := Store(
        map[ThreadKey(task) := first.(status := Accepted), RunKey(task) := second.(status := Accepted)],
        map[task := Task(1, task, hash, RunAccepted)]);
      After(steps) == Some(World(State(store, store, [], None), true, map[],
        History(map[1 := first, 2 := second], {}, [CommandOf(create, first), CommandOf(send, second)], {1, 2}, {}, {})))
  {
    KeysDiffer(task);
    var create, send := CreateOf(task, createHash), SendOf(task, sendHash, 1);
    var begun := Store(map[], map[task := Task(1, task, hash, TaskPrepared)]);
    var s := TaskBegins(task, hash, createHash);
    hide After;
    s := CallSucceeds(s, 1, create, begun, EMPTY, 1);
    var made, h := Kept(begun, create.input, 1, Accepted), Served(EMPTY, create, 1);
    s := StageIsShown(s, 1, create, NewRecord(create.input, 1).(status := Accepted), made, h);
    var shown := SetStage(made, task, ThreadCreated);
    s := SendBegins(s, task, sendHash, 1, shown, h);
    s := CallSucceeds(s, 1, send, shown, h, 2);
    var sent, end := Kept(shown, send.input, 2, Accepted), Served(h, send, 2);
    steps := StageIsShown(s, 1, send, NewRecord(send.input, 2).(status := Accepted), sent, end);
    TaskEnds(task, hash, create, send);
  }

  /** What two calls with nothing in their way add up to. */
  lemma TaskEnds(task: string, hash: string, create: Request, send: Request)
    requires create.input.key != send.input.key
    ensures var first, second := NewRecord(create.input, 1), NewRecord(send.input, 2);
      var made := Kept(Store(map[], map[task := Task(1, task, hash, TaskPrepared)]), create.input, 1, Accepted);
      && SetStage(Kept(SetStage(made, task, ThreadCreated), send.input, 2, Accepted), task, RunAccepted)
         == Store(map[create.input.key := first.(status := Accepted), send.input.key := second.(status := Accepted)],
                  map[task := Task(1, task, hash, RunAccepted)])
      && Served(Served(EMPTY, create, 1), send, 2)
         == History(map[1 := first, 2 := second], {}, [CommandOf(create, first), CommandOf(send, second)], {1, 2}, {}, {})
  {
  }

  lemma SendBegins(steps: seq<Step>, task: string, hash: string, thread: Id, store: Store, h: History) returns (longer: seq<Step>)
    requires After(steps) == Some(Quiet(1, TaskCreated(task, thread), store, h))
    ensures After(longer) == Some(Quiet(1, Lookup(SendOf(task, hash, thread)), store, h))
  {
    hide After, Found;
    var v;
    longer, v := Extend(steps, Quiet(1, TaskCreated(task, thread), store, h), SendTask(1, hash));
    assert v.callers == Only(1, Lookup(SendOf(task, hash, thread)));
  }
}
