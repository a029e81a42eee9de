/**
 The gateway's commands to T3 as a protocol (src/gateway.ts: taskStart,
 threadCreate, threadSend, pendingActionRespond, dispatchNew, reconcile,
 taskSummary, over src/operations/journal.ts). Callers interleave wherever the
 source awaits; T3 applies or refuses a command when it likes; answers and
 writes can be lost; the gateway can stop and start again.
 */
module Dispatch {
  import opened Options
  import opened Journal

  /** One call of threadCreate, threadSend or pendingActionRespond, on behalf of a task or not. */
  datatype Request = Request(input: Input, task: Option<string>)

  /** Where a caller stands; each phase ends at an await. */
  datatype Phase =
    | Starting
    | TaskSaving(job: Task)
    | TaskGate(job: Task)
    | TaskCreated(task: string, thread: Id)
    | Lookup(req: Request)
    | Reading(req: Request)
    | Saving(req: Request, rec: Record)
    | Ready(req: Request, rec: Record)
    | AwaitingT3(req: Request, rec: Record)
    | Settling(req: Request, rec: Record, guarded: bool)
    | Reconciling(req: Request, rec: Record)
    | Returned(req: Request, rec: Record)
    | Staging(task: string, next: Option<Id>)
    | Summary(job: Task, create: Option<Record>, run: Option<Record>)
    | SummarySaving(job: Task, create: Option<Record>, run: Option<Record>)

  /** A command handed to client.dispatch. */
  datatype Sent = Sent(
    token: Id, key: string, kind: Kind, thread: Option<Id>, message: Option<Id>, task: Option<string>)

  /**
   What has happened: `born` remembers each record as it was begun, `external`
   the ids of threads and messages that other clients made, `sent` the commands
   dispatched, and the sets those T3 applied, those it refused, and those given
   up before they were sent.
   */
  datatype History = History(
    born: map<Id, Record>,
    external: set<Id>,
    sent: seq<Sent>,
    applied: set<Id>,
    refused: set<Id>,
    abandoned: set<Id>)

  /** The journal, whether the gateway runs, its callers in progress, and the history. */
  datatype World = World(j: State, up: bool, callers: map<Caller, Phase>, h: History)

  datatype Step =
    // callers
    | StartTask(c: Caller, task: string, hash: string, ref: Id)
    | Gate(c: Caller, hash: string)
    | SendTask(c: Caller, hash: string)
    | StartCall(c: Caller, input: Input)
    | FindRecord(c: Caller)
    | ReadFails(c: Caller, rejectsTask: bool)
    | BeginRecord(c: Caller, id: Id)
    | AbandonCommand(c: Caller)
    | SendCommand(c: Caller)
    | AnswerAccepted(c: Caller)
    | AnswerRefused(c: Caller)
    | AnswerLost(c: Caller)
    | ReconcileEnds(c: Caller, found: bool)
    | Return(c: Caller)
    | StartSummary(c: Caller, task: string)
    | SummaryReconciles(c: Caller, create: bool, found: bool)
    | SummaryEnds(c: Caller, writes: bool)
    // the journal's write chain
    | StartWrite
    | FinishWrite
    | FailWrite
    // T3, other clients, and the host
    | Apply(id: Id)
    | Refuse(id: Id)
    | OtherClient(id: Id)
    | Crash
    | Init(c: Caller)

  const NOTHING := Store(map[], map[])

  function Initial(): World {
    World(State(NOTHING, NOTHING, [], None), false, map[], History(map[], {}, [], {}, {}, {}))
  }

  // ----- What T3 holds -----

  function Tokens(sent: seq<Sent>): set<Id> { set i | 0 <= i < |sent| :: sent[i].token }

  /** T3 has the thread: another client made it, or it applied the command that creates it. */
  ghost predicate HoldsThread(h: History, thread: Id) {
    || thread in h.external
    || exists i :: 0 <= i < |h.sent| && h.sent[i].kind.ThreadCreate? && h.sent[i].thread == Some(thread) && h.sent[i].token in h.applied
  }

  /** T3 has the message: another client sent it, or it applied the command that carries it. */
  ghost predicate HoldsMessage(h: History, message: Id) {
    || message in h.external
    || exists i :: 0 <= i < |h.sent| && h.sent[i].kind.TurnStart? && h.sent[i].message == Some(message) && h.sent[i].token in h.applied
  }

  /** What reconcile can find upstream as proof that a record's command was applied. */
  ghost predicate Found(h: History, r: Record) {
    && r.threadId.Some?
    && match r.kind
       case ThreadCreate => HoldsThread(h, r.threadId.value)
       case TurnStart => r.messageId.Some? && HoldsMessage(h, r.messageId.value)
       case _ => false
  }

  predicate Undecided(r: Record) { r.status.Prepared? || r.status.Uncertain? }

  /** taskStageFromOperations */
  function StageOf(fallback: Stage, create: Option<Record>, run: Option<Record>): Stage {
    if run.Some? then
      match run.value.status
      case Accepted => RunAccepted
      case Rejected => DispatchRejected
      case _ => DispatchUncertain
    else if create.Some? then
      match create.value.status
      case Accepted => ThreadCreated
      case Rejected => TaskRejected
      case _ => ThreadCreateUncertain
    else fallback
  }

  /** The stage taskStart records when one of its two calls returns. */
  function ReturnedStage(rec: Record): Stage {
    if rec.kind.ThreadCreate? then StageOf(TaskPrepared, Some(rec), None) else StageOf(TaskPrepared, None, Some(rec))
  }

  // ----- Steps -----

  predicate Waiting(p: Phase) {
    p.Starting? || p.TaskSaving? || p.Saving? || p.Settling? || p.Staging? || p.SummarySaving?
  }

  function Entry(s: Store, key: string): Option<Record> {
    if key in s.entries then Some(s.entries[key]) else None
  }

  predicate Holds(s: Store, r: Record) { r.key in s.entries && s.entries[r.key].operationId == r.operationId }

  function Move(w: World, c: Caller, p: Phase): World { w.(callers := w.callers[c := p]) }

  function Leave(w: World, c: Caller): World { w.(callers := w.callers - {c}) }

  /** The caller changes the journal's memory and waits for a write of it. */
  function Write(w: World, c: Caller, p: Phase, memory: Store): World {
    w.(j := Save(w.j, memory, c), callers := w.callers[c := p])
  }

  /** journal.update on behalf of a call; an unknown operation makes it throw. */
  function Patch(w: World, c: Caller, req: Request, rec: Record, status: Status, guarded: bool): World {
    if Holds(w.j.memory, rec) then
      Write(w, c, Settling(req, w.j.memory.entries[rec.key].(status := status), guarded), SetStatus(w.j.memory, rec.key, status))
    else Leave(w, c)
  }

  /** journal.updateTask on behalf of a task; an unknown task makes it throw. */
  function Stamp(w: World, c: Caller, task: string, stage: Stage, next: Option<Id>): World {
    if task in w.j.memory.tasks then Write(w, c, Staging(task, next), SetStage(w.j.memory, task, stage)) else Leave(w, c)
  }

  /** The caller's next phase once its write is on disk; none when it is done. */
  function Resumed(p: Phase): Option<Phase> {
    match p
    case TaskSaving(task) => Some(TaskGate(task))
    case Saving(req, rec) => Some(Ready(req, rec))
    case Settling(req, rec, _) => Some(Returned(req, rec))
    case Staging(task, Some(thread)) => Some(TaskCreated(task, thread))
    case SummarySaving(task, create, run) => Some(Summary(task, create, run))
    case _ => None
  }

  ghost predicate Enabled(w: World, step: Step) {
    match step
    case StartTask(c, _, _, ref) => w.up && c !in w.callers && forall k :: k in w.j.memory.tasks ==> w.j.memory.tasks[k].taskRef != ref
    case Gate(c, _) => c in w.callers && w.callers[c].TaskGate?
    case SendTask(c, _) => c in w.callers && w.callers[c].TaskCreated?
    case StartCall(c, _) => w.up && c !in w.callers
    case FindRecord(c) => c in w.callers && w.callers[c].Lookup?
    case ReadFails(c, _) => c in w.callers && w.callers[c].Reading?
    case BeginRecord(c, id) => c in w.callers && w.callers[c].Reading? && id !in w.h.born && id !in w.h.external
    case AbandonCommand(c) => c in w.callers && w.callers[c].Ready? && w.callers[c].rec.kind.ThreadCreate?
    case SendCommand(c) => c in w.callers && w.callers[c].Ready?
    case AnswerAccepted(c) => c in w.callers && w.callers[c].AwaitingT3? && w.callers[c].rec.commandId in w.h.applied
    case AnswerRefused(c) => c in w.callers && w.callers[c].AwaitingT3? && w.callers[c].rec.commandId in w.h.refused
    case AnswerLost(c) => c in w.callers && w.callers[c].AwaitingT3?
    case ReconcileEnds(c, found) => c in w.callers && w.callers[c].Reconciling? && (found ==> Found(w.h, w.callers[c].rec))
    case Return(c) => c in w.callers && w.callers[c].Returned?
    case StartSummary(c, _) => w.up && c !in w.callers
    case SummaryReconciles(c, create, found) =>
      && c in w.callers && w.callers[c].Summary?
      && var r := if create then w.callers[c].create else w.callers[c].run;
         r.Some? && Undecided(r.value) && (found ==> Found(w.h, r.value))
    case SummaryEnds(c, writes) =>
      && c in w.callers && w.callers[c].Summary?
      && (StageOf(w.callers[c].job.stage, w.callers[c].create, w.callers[c].run) != w.callers[c].job.stage ==> writes)
    case StartWrite => CanStart(w.j)
    case FinishWrite => w.j.writing.Some? && w.j.queue != []
    case FailWrite => w.j.writing.Some? && w.j.queue != []
    case Apply(id) => id in Tokens(w.h.sent) && id !in w.h.refused
    case Refuse(id) => id in Tokens(w.h.sent) && id !in w.h.applied
    case OtherClient(id) => id !in w.h.born
    case Crash => true
    case Init(c) => !w.up
  }

  // What the steps do, where they do more than move one caller.

  function TaskStarted(w: World, c: Caller, task: string, hash: string, ref: Id): World {
    match BeginTask(w.j.memory.tasks, task, hash, ref)
    case TaskConflict => w
    case TaskReused(t) => Move(w, c, TaskGate(t))
    case TaskFresh(t) => Write(w, c, TaskSaving(t), w.j.memory.(tasks := w.j.memory.tasks[task := t]))
  }

  /** A task whose run was begun without its own create is only looked at; any other goes on to create. */
  function GatePassed(w: World, c: Caller, t: Task, hash: string): World {
    var memory := w.j.memory;
    if ThreadKey(t.key) !in memory.entries && RunKey(t.key) in memory.entries
    then Move(w, c, Summary(t, None, Entry(memory, RunKey(t.key))))
    else Move(w, c, Lookup(Request(Input(ThreadCreate, ThreadKey(t.key), hash, None), Some(t.key))))
  }

  function LookedUp(w: World, c: Caller, req: Request): World {
    if req.input.key !in w.j.memory.entries then Move(w, c, Reading(req))
    else
      match Begin(w.j.memory.entries, req.input, 0)
      case Reused(r) => Move(w, c, Reconciling(req, r))
      case _ => Leave(w, c)
  }

  function RecordBegun(w: World, c: Caller, req: Request, id: Id): World {
    match Begin(w.j.memory.entries, req.input, id)
    case Conflict => Leave(w, c)
    case Reused(r) => Move(w, c, Reconciling(req, r))
    case Fresh(r) =>
      World(Save(w.j, w.j.memory.(entries := w.j.memory.entries[r.key := r]), c), w.up,
            w.callers[c := Saving(req, r)], w.h.(born := w.h.born[id := r]))
  }

  /** Preparing the worktree failed: the command is given up. */
  function CommandAbandoned(w: World, c: Caller, req: Request, rec: Record): World {
    Patch(w.(h := w.h.(abandoned := w.h.abandoned + {rec.commandId})), c, req, rec, Rejected, false)
  }

  function CommandOf(req: Request, rec: Record): Sent {
    Sent(rec.commandId, rec.key, rec.kind, rec.threadId, rec.messageId, req.task)
  }

  /** client.dispatch is called. */
  function CommandSent(w: World, c: Caller, req: Request, rec: Record): World {
    World(w.j, w.up, w.callers[c := AwaitingT3(req, rec)], w.h.(sent := w.h.sent + [CommandOf(req, rec)]))
  }

  function Reconciled(w: World, c: Caller, req: Request, rec: Record, found: bool): World {
    if Undecided(rec) && found then Patch(w, c, req, rec, Accepted, false) else Move(w, c, Returned(req, rec))
  }

  function CallReturned(w: World, c: Caller, req: Request, rec: Record): World {
    if req.task.None? then Leave(w, c)
    else
      Stamp(w, c, req.task.value, ReturnedStage(rec),
            if rec.kind.ThreadCreate? && rec.status.Accepted? then rec.threadId else None)
  }

  function SummaryReconciled(w: World, c: Caller, t: Task, cr: Option<Record>, run: Option<Record>, create: bool): World
    requires (if create then cr else run).Some?
  {
    var r := (if create then cr else run).value;
    if !Holds(w.j.memory, r) then Leave(w, c)
    else
      var updated := Some(w.j.memory.entries[r.key].(status := Accepted));
      Write(w, c, if create then SummarySaving(t, updated, run) else SummarySaving(t, cr, updated),
            SetStatus(w.j.memory, r.key, Accepted))
  }

  function WriteFinished(w: World): World
    requires w.j.writing.Some? && w.j.queue != []
  {
    var c, saved := w.j.queue[0], w.(j := Finished(w.j));
    if c in w.callers && Resumed(w.callers[c]).Some? then Move(saved, c, Resumed(w.callers[c]).value) else Leave(saved, c)
  }

  /** dispatchNew catches the failed write of an acceptance and records uncertainty; elsewhere the error ends the call. */
  function WriteFailed(w: World): World
    requires w.j.writing.Some? && w.j.queue != []
  {
    var c, failed := w.j.queue[0], w.(j := Broken(w.j));
    if c in w.callers && w.callers[c].Settling? && w.callers[c].guarded
    then Patch(Leave(failed, c), c, w.callers[c].req, w.callers[c].rec, Uncertain, false) else Leave(failed, c)
  }

  function Crashed(w: World): World { World(State(NOTHING, w.j.file, [], None), false, map[], w.h) }

  function Initialized(w: World, c: Caller): World {
    var loaded := Store(Recovered(w.j.file.entries), w.j.file.tasks);
    if loaded.entries == w.j.file.entries
    then World(w.j.(memory := loaded), true, w.callers, w.h)
    else World(Save(w.j, loaded, c), true, w.callers[c := Starting], w.h)
  }

  ghost function Next(w: World, step: Step): World
    requires Enabled(w, step)
  {
    match step
    case StartTask(c, task, hash, ref) => TaskStarted(w, c, task, hash, ref)
    case Gate(c, hash) => GatePassed(w, c, w.callers[c].job, hash)
    case SendTask(c, hash) =>
      var TaskCreated(task, thread) := w.callers[c];
      Move(w, c, Lookup(Request(Input(TurnStart, RunKey(task), hash, Some(thread)), Some(task))))
    case StartCall(c, input) => Move(w, c, Lookup(Request(input, None)))
    case FindRecord(c) => LookedUp(w, c, w.callers[c].req)
    case ReadFails(c, rejectsTask) =>
      if rejectsTask && w.callers[c].req.task.Some? then Stamp(w, c, w.callers[c].req.task.value, TaskRejected, None) else Leave(w, c)
    case BeginRecord(c, id) => RecordBegun(w, c, w.callers[c].req, id)
    case AbandonCommand(c) => CommandAbandoned(w, c, w.callers[c].req, w.callers[c].rec)
    case SendCommand(c) => CommandSent(w, c, w.callers[c].req, w.callers[c].rec)
    case AnswerAccepted(c) => Patch(w, c, w.callers[c].req, w.callers[c].rec, Accepted, true)
    case AnswerRefused(c) => Patch(w, c, w.callers[c].req, w.callers[c].rec, Rejected, false)
    case AnswerLost(c) => Patch(w, c, w.callers[c].req, w.callers[c].rec, Uncertain, false)
    case ReconcileEnds(c, found) => Reconciled(w, c, w.callers[c].req, w.callers[c].rec, found)
    case Return(c) => CallReturned(w, c, w.callers[c].req, w.callers[c].rec)
    case StartSummary(c, task) =>
      if task in w.j.memory.tasks
      then Move(w, c, Summary(w.j.memory.tasks[task], Entry(w.j.memory, ThreadKey(task)), Entry(w.j.memory, RunKey(task)))) else w
    case SummaryReconciles(c, create, found) =>
      var Summary(t, cr, run) := w.callers[c];
      if found then SummaryReconciled(w, c, t, cr, run, create) else w
    case SummaryEnds(c, writes) =>
      var Summary(t, create, run) := w.callers[c];
      if writes then Stamp(w, c, t.key, StageOf(t.stage, create, run), None) else Leave(w, c)
    case StartWrite => w.(j := Started(w.j))
    case FinishWrite => WriteFinished(w)
    case FailWrite => WriteFailed(w)
    case Apply(id) => w.(h := w.h.(applied := w.h.applied + {id}))
    case Refuse(id) => w.(h := w.h.(refused := w.h.refused + {id}))
    case OtherClient(id) => w.(h := w.h.(external := w.h.external + {id}))
    case Crash => Crashed(w)
    case Init(c) => Initialized(w, c)
  }

  /** The world after a run from an empty data directory; none if a step of it was not enabled. */
  ghost function After(steps: seq<Step>): Option<World> {
    if steps == [] then Some(Initial())
    else
      match After(steps[..|steps| - 1])
      case None => None
      case Some(w) => if Enabled(w, steps[|steps| - 1]) then Some(Next(w, steps[|steps| - 1])) else None
  }
}
