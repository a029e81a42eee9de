/** What every step of the dispatch protocol keeps. */
module DispatchInvariant {
  import opened Options
  import opened Journal
  import opened Dispatch

  type Callers = map<Caller, Phase>

  // ----- Claims about records and callers; they survive as the history grows -----

  /** A record is the one that was begun with its id, but for its status. */
  predicate Born(h: History, r: Record) {
    r.operationId in h.born && r.(status := Prepared) == h.born[r.operationId]
  }

  /** Accepted means applied upstream; rejected means refused by T3 or never sent. */
  predicate Sound(h: History, r: Record) {
    && (r.status.Accepted? ==> r.commandId in h.applied)
    && (r.status.Rejected? ==> r.commandId in h.refused || r.commandId in h.abandoned)
  }

  predicate GoodRecord(h: History, r: Record) { Born(h, r) && Sound(h, r) }

  /** A command begun under the key was applied. */
  ghost predicate AppliedUnder(h: History, key: string) {
    exists id :: id in h.born && h.born[id].key == key && id in h.applied
  }

  /** A command begun under the key was refused by T3 or given up. */
  ghost predicate RefusedUnder(h: History, key: string) {
    exists id :: id in h.born && h.born[id].key == key && (id in h.refused || id in h.abandoned)
  }

  /** What a task's stage says about the commands under its keys. */
  ghost predicate SoundStage(h: History, task: string, stage: Stage) {
    && (stage.RunAccepted? ==> AppliedUnder(h, RunKey(task)))
    && (stage.ThreadCreated? ==> AppliedUnder(h, ThreadKey(task)))
    && (stage.DispatchRejected? ==> RefusedUnder(h, RunKey(task)))
  }

  ghost predicate GoodTask(h: History, t: Task) { SoundStage(h, t.key, t.stage) }

  ghost predicate GoodStore(h: History, s: Store) {
    && (forall k :: k in s.entries ==> s.entries[k].key == k && GoodRecord(h, s.entries[k]))
    && (forall k :: k in s.tasks ==> s.tasks[k].key == k && GoodTask(h, s.tasks[k]))
  }

  /** The thread is the one that the task's applied thread.create made. */
  predicate CreatedFor(h: History, task: string, thread: Id) {
    thread in h.born && h.born[thread].kind.ThreadCreate? && h.born[thread].key == ThreadKey(task) && thread in h.applied
  }

  /** A task's calls use its derived keys, and its send goes to the thread its create made. */
  predicate TaskCall(h: History, kind: Kind, key: string, thread: Option<Id>, task: Option<string>) {
    task.Some? ==>
      || (kind.ThreadCreate? && key == ThreadKey(task.value))
      || (kind.TurnStart? && key == RunKey(task.value) && thread.Some? && CreatedFor(h, task.value, thread.value))
  }

  predicate GoodRequest(h: History, req: Request) {
    TaskCall(h, req.input.kind, req.input.key, req.input.threadId, req.task)
  }

  predicate GoodCall(h: History, req: Request, r: Record) {
    && GoodRequest(h, req) && GoodRecord(h, r)
    && r.key == req.input.key && r.kind == req.input.kind && r.payloadHash == req.input.payloadHash
  }

  predicate GoodEntry(h: History, r: Option<Record>, key: string) {
    r.Some? ==> GoodRecord(h, r.value) && r.value.key == key
  }

  ghost predicate GoodSummary(h: History, t: Task, create: Option<Record>, run: Option<Record>) {
    GoodTask(h, t) && GoodEntry(h, create, ThreadKey(t.key)) && GoodEntry(h, run, RunKey(t.key))
  }

  ghost predicate GoodPhase(h: History, p: Phase) {
    match p
    case Starting => true
    case TaskSaving(t) => GoodTask(h, t)
    case TaskGate(t) => GoodTask(h, t)
    case TaskCreated(task, thread) => CreatedFor(h, task, thread)
    case Staging(task, next) => next.Some? ==> CreatedFor(h, task, next.value)
    case Lookup(req) => GoodRequest(h, req)
    case Reading(req) => GoodRequest(h, req)
    case Summary(t, create, run) => GoodSummary(h, t, create, run)
    case SummarySaving(t, create, run) => GoodSummary(h, t, create, run)
    case _ => GoodCall(h, p.req, p.rec)
  }

  ghost predicate GoodStores(h: History, j: State) {
    GoodStore(h, j.memory) && GoodStore(h, j.file) && (j.writing.Some? ==> GoodStore(h, j.writing.value))
  }

  ghost predicate GoodCallers(h: History, callers: Callers) {
    forall c :: c in callers ==> GoodPhase(h, callers[c])
  }

  /** Born records carry their own id where it is drawn fresh, and no other client uses it. */
  ghost predicate BornInv(h: History) {
    forall id :: id in h.born ==>
      && h.born[id].operationId == id == h.born[id].commandId && h.born[id].status.Prepared? && id !in h.external
      && (h.born[id].kind.ThreadCreate? ==> h.born[id].threadId == Some(id))
      && (h.born[id].kind.TurnStart? ==> h.born[id].messageId == Some(id))
  }

  // ----- Files, the write queue, T3 -----

  /** The second store knows every record of the first. */
  ghost predicate Within(a: Store, b: Store) {
    forall k :: k in a.entries ==> k in b.entries && b.entries[k].operationId == a.entries[k].operationId
  }

  ghost predicate FileInv(j: State, up: bool) {
    && (up ==> Within(j.file, j.memory))
    && (j.writing.Some? ==> up && j.queue != [] && Within(j.file, j.writing.value) && Within(j.writing.value, j.memory))
  }

  ghost predicate QueueInv(queue: seq<Caller>, callers: Callers, up: bool) {
    && (forall i, j :: 0 <= i < j < |queue| ==> queue[i] != queue[j])
    && (forall c :: c in queue <==> c in callers && Waiting(callers[c]))
    && (!up ==> callers == map[] && queue == [])
  }

  /** The dispatched command is that of the record under its key, which is on disk. */
  predicate SentOk(h: History, file: Store, s: Sent) {
    && s.token in h.born
    && s == Sent(s.token, h.born[s.token].key, h.born[s.token].kind, h.born[s.token].threadId, h.born[s.token].messageId, s.task)
    && s.key in file.entries && file.entries[s.key].operationId == s.token
    && TaskCall(h, s.kind, s.key, s.thread, s.task)
  }

  ghost predicate SentInv(h: History, file: Store) {
    && (forall i :: 0 <= i < |h.sent| ==> SentOk(h, file, h.sent[i]))
    && (forall i, j :: 0 <= i < j < |h.sent| ==> h.sent[i].key != h.sent[j].key)
  }

  ghost predicate T3Inv(h: History) {
    && h.applied <= Tokens(h.sent) && h.refused <= Tokens(h.sent)
    && h.applied !! h.refused && h.abandoned !! Tokens(h.sent) && h.abandoned <= h.born.Keys
  }

  predicate Unsent(p: Phase) { p.Saving? || p.Ready? }

  /** The write that is running will make the caller's record durable if it is the caller's own. */
  predicate Heading(j: State, c: Caller) { j.writing.Some? && j.queue != [] && c == j.queue[0] }

  /** A caller that will send holds the only right to: its record was never sent and never given up. */
  ghost predicate UnsentOk(h: History, j: State, c: Caller, p: Phase)
    requires Unsent(p)
  {
    && Holds(j.memory, p.rec) && p.rec == NewRecord(p.req.input, p.rec.operationId)
    && p.rec.operationId in h.born && p.rec.operationId !in Tokens(h.sent) && p.rec.operationId !in h.abandoned
    && (p.Ready? ==> Holds(j.file, p.rec))
    && (p.Saving? && Heading(j, c) ==> Holds(j.writing.value, p.rec))
    && (p.Saving? ==> c in j.queue)
  }

  ghost predicate UnsentInv(h: History, j: State, callers: Callers) {
    && (forall c :: c in callers && Unsent(callers[c]) ==> UnsentOk(h, j, c, callers[c]))
    && (forall c, d :: (c in callers && d in callers && Unsent(callers[c]) && Unsent(callers[d])
                        && callers[c].rec.operationId == callers[d].rec.operationId) ==> c == d)
  }

  ghost predicate Inv(w: World) {
    && BornInv(w.h) && GoodStores(w.h, w.j) && GoodCallers(w.h, w.callers)
    && FileInv(w.j, w.up) && QueueInv(w.j.queue, w.callers, w.up)
    && SentInv(w.h, w.j.file) && T3Inv(w.h) && UnsentInv(w.h, w.j, w.callers)
  }

  lemma PhaseIsGood(w: World, c: Caller)
    requires Inv(w) && c in w.callers
    ensures GoodPhase(w.h, w.callers[c])
    ensures Unsent(w.callers[c]) ==> UnsentOk(w.h, w.j, c, w.callers[c])
    ensures !Waiting(w.callers[c]) ==> c !in w.j.queue
  {
    hide GoodPhase, UnsentOk, GoodStores, FileInv, SentInv, T3Inv, BornInv;
  }

  // ----- Growing histories -----

  ghost predicate Grows(h: History, g: History) {
    && (forall id :: id in h.born ==> id in g.born && g.born[id] == h.born[id])
    && h.applied <= g.applied && h.refused <= g.refused && h.abandoned <= g.abandoned
  }

  lemma GrowthKeepsTask(h: History, g: History, t: Task)
    requires Grows(h, g) && GoodTask(h, t)
    ensures GoodTask(g, t)
  {
    if t.stage.RunAccepted? {
      assert AppliedUnder(h, RunKey(t.key));
    } else if t.stage.ThreadCreated? {
      assert AppliedUnder(h, ThreadKey(t.key));
    } else if t.stage.DispatchRejected? {
      assert RefusedUnder(h, RunKey(t.key));
    }
  }

  lemma GrowthKeepsStore(h: History, g: History, s: Store)
    requires Grows(h, g) && GoodStore(h, s)
    ensures GoodStore(g, s)
  {
    forall k | k in s.tasks ensures GoodTask(g, s.tasks[k]) {
      GrowthKeepsTask(h, g, s.tasks[k]);
    }
  }

  lemma GrowthKeepsPhase(h: History, g: History, p: Phase)
    requires Grows(h, g) && GoodPhase(h, p)
    ensures GoodPhase(g, p)
  {
    if p.TaskSaving? || p.TaskGate? || p.Summary? || p.SummarySaving? {
      GrowthKeepsTask(h, g, p.job);
    }
  }

  lemma GrowthKeepsGood(h: History, g: History, j: State, callers: Callers)
    requires Grows(h, g) && GoodStores(h, j) && GoodCallers(h, callers)
    ensures GoodStores(g, j) && GoodCallers(g, callers)
  {
    GrowthKeepsStore(h, g, j.memory);
    GrowthKeepsStore(h, g, j.file);
    if j.writing.Some? { GrowthKeepsStore(h, g, j.writing.value); }
    forall c | c in callers ensures GoodPhase(g, callers[c]) { GrowthKeepsPhase(h, g, callers[c]); }
  }

  // ----- The shapes of steps -----

  /** A caller that does not wait for a write may go on to a phase that does not either. */
  lemma MoveKeepsInv(w: World, c: Caller, p: Phase)
    requires Inv(w) && w.up && (c in w.callers ==> !Waiting(w.callers[c]))
    requires GoodPhase(w.h, p) && !Waiting(p) && !Unsent(p)
    ensures Inv(Move(w, c, p))
  {
  }

  lemma LeaveKeepsInv(w: World, c: Caller)
    requires Inv(w) && (c in w.callers ==> !Waiting(w.callers[c]))
    ensures Inv(Leave(w, c))
  {
  }

  lemma QueueGrows(queue: seq<Caller>, callers: Callers, up: bool, c: Caller, p: Phase)
    requires QueueInv(queue, callers, up) && up && c !in queue && Waiting(p)
    ensures QueueInv(queue + [c], callers[c := p], up)
  {
  }

  lemma UnsentGrows(h: History, j: State, callers: Callers, c: Caller, p: Phase, memory: Store)
    requires UnsentInv(h, j, callers) && !Unsent(p) && Within(j.memory, memory)
    ensures UnsentInv(h, Save(j, memory, c), callers[c := p])
  {
  }

  /** A caller may change memory, without forgetting a record, and wait for the write. */
  lemma WriteKeepsInv(w: World, c: Caller, p: Phase, memory: Store)
    requires Inv(w) && w.up && (c in w.callers ==> !Waiting(w.callers[c]))
    requires GoodPhase(w.h, p) && Waiting(p) && !Unsent(p) && GoodStore(w.h, memory) && Within(w.j.memory, memory)
    ensures Inv(Write(w, c, p, memory))
  {
    QueueGrows(w.j.queue, w.callers, w.up, c, p);
    UnsentGrows(w.h, w.j, w.callers, c, p, memory);
  }

  /** Patching the status of a known record, soundly, keeps the stores good and forgets nothing. */
  lemma SetStatusIsGood(h: History, s: Store, rec: Record, status: Status)
    requires GoodStore(h, s) && Holds(s, rec) && Sound(h, s.entries[rec.key].(status := status))
    ensures GoodStore(h, SetStatus(s, rec.key, status)) && Within(s, SetStatus(s, rec.key, status))
    ensures GoodRecord(h, s.entries[rec.key].(status := status))
  {
  }

  lemma SameIdSameRecord(h: History, a: Record, b: Record)
    requires Born(h, a) && Born(h, b) && a.operationId == b.operationId
    ensures b.(status := a.status) == a
  {
    assert a.(status := Prepared) == b.(status := Prepared);
  }

  /** journal.update on behalf of a call keeps the invariant when the new status is sound. */
  lemma PatchKeepsInv(w: World, c: Caller, req: Request, rec: Record, status: Status, guarded: bool)
    requires Inv(w) && w.up && (c in w.callers ==> !Waiting(w.callers[c]))
    requires GoodCall(w.h, req, rec) && Sound(w.h, rec.(status := status))
    ensures Inv(Patch(w, c, req, rec, status, guarded))
  {
    if Holds(w.j.memory, rec) {
      SameIdSameRecord(w.h, rec, w.j.memory.entries[rec.key]);
      SetStatusIsGood(w.h, w.j.memory, rec, status);
      WriteKeepsInv(w, c, Settling(req, w.j.memory.entries[rec.key].(status := status), guarded), SetStatus(w.j.memory, rec.key, status));
    } else {
      LeaveKeepsInv(w, c);
    }
  }

  /** journal.updateTask keeps the invariant when the new stage is sound. */
  lemma StampKeepsInv(w: World, c: Caller, task: string, stage: Stage, next: Option<Id>)
    requires Inv(w) && w.up && (c in w.callers ==> !Waiting(w.callers[c]))
    requires SoundStage(w.h, task, stage)
    requires next.Some? ==> CreatedFor(w.h, task, next.value)
    ensures Inv(Stamp(w, c, task, stage, next))
  {
    if task in w.j.memory.tasks {
      WriteKeepsInv(w, c, Staging(task, next), SetStage(w.j.memory, task, stage));
    } else {
      LeaveKeepsInv(w, c);
    }
  }

  /** An accepted record proves that a command begun under its key was applied. */
  lemma AcceptedIsApplied(h: History, r: Record)
    requires BornInv(h) && GoodRecord(h, r) && r.status.Accepted?
    ensures AppliedUnder(h, r.key)
  {
    assert r.operationId in h.born && h.born[r.operationId].key == r.key && r.operationId in h.applied;
  }

  lemma RejectedIsRefused(h: History, r: Record)
    requires BornInv(h) && GoodRecord(h, r) && r.status.Rejected?
    ensures RefusedUnder(h, r.key)
  {
    assert r.operationId in h.born && h.born[r.operationId].key == r.key;
    assert r.operationId in h.refused || r.operationId in h.abandoned;
  }

  /** The decided records of a task's operations make the stage derived from them sound. */
  lemma StageIsSound(h: History, task: string, fallback: Stage, create: Option<Record>, run: Option<Record>)
    requires BornInv(h) && GoodEntry(h, create, ThreadKey(task)) && GoodEntry(h, run, RunKey(task))
    requires SoundStage(h, task, fallback)
    ensures SoundStage(h, task, StageOf(fallback, create, run))
  {
    if run.Some? && run.value.status.Accepted? { AcceptedIsApplied(h, run.value); }
    if run.Some? && run.value.status.Rejected? { RejectedIsRefused(h, run.value); }
    if create.Some? && create.value.status.Accepted? { AcceptedIsApplied(h, create.value); }
  }

  /** What reconcile finds upstream proves that the record's command was applied. */
  lemma FoundIsApplied(h: History, file: Store, r: Record)
    requires BornInv(h) && SentInv(h, file) && Born(h, r) && Found(h, r)
    ensures r.commandId in h.applied
  {
    assert h.born[r.operationId].operationId == r.operationId;
  }

  // ----- One lemma for each kind of step -----

  lemma StartTaskKeepsInv(w: World, c: Caller, task: string, hash: string, ref: Id)
    requires Inv(w) && w.up && c !in w.callers
    ensures Inv(TaskStarted(w, c, task, hash, ref))
  {
    match BeginTask(w.j.memory.tasks, task, hash, ref)
    case TaskConflict =>
    case TaskReused(t) => MoveKeepsInv(w, c, TaskGate(t));
    case TaskFresh(t) => WriteKeepsInv(w, c, TaskSaving(t), w.j.memory.(tasks := w.j.memory.tasks[task := t]));
  }

  lemma GateKeepsInv(w: World, c: Caller, t: Task, hash: string)
    requires Inv(w) && w.up && c in w.callers && w.callers[c] == TaskGate(t)
    ensures Inv(GatePassed(w, c, t, hash))
  {
    var memory := w.j.memory;
    assert GoodPhase(w.h, w.callers[c]);
    if ThreadKey(t.key) !in memory.entries && RunKey(t.key) in memory.entries {
      MoveKeepsInv(w, c, Summary(t, None, Entry(memory, RunKey(t.key))));
    } else {
      MoveKeepsInv(w, c, Lookup(Request(Input(ThreadCreate, ThreadKey(t.key), hash, None), Some(t.key))));
    }
  }

  lemma SendTaskKeepsInv(w: World, c: Caller, task: string, thread: Id, hash: string)
    requires Inv(w) && w.up && c in w.callers && w.callers[c] == TaskCreated(task, thread)
    ensures Inv(Move(w, c, Lookup(Request(Input(TurnStart, RunKey(task), hash, Some(thread)), Some(task)))))
  {
    assert GoodPhase(w.h, w.callers[c]);
    MoveKeepsInv(w, c, Lookup(Request(Input(TurnStart, RunKey(task), hash, Some(thread)), Some(task))));
  }

  lemma LookupKeepsInv(w: World, c: Caller, req: Request)
    requires Inv(w) && w.up && c in w.callers && w.callers[c] == Lookup(req)
    ensures Inv(LookedUp(w, c, req))
  {
    assert GoodPhase(w.h, w.callers[c]);
    if req.input.key !in w.j.memory.entries {
      MoveKeepsInv(w, c, Reading(req));
    } else {
      match Begin(w.j.memory.entries, req.input, 0)
      case Reused(r) => MoveKeepsInv(w, c, Reconciling(req, r));
      case _ => LeaveKeepsInv(w, c);
    }
  }

  /** An id that no record was begun with appears nowhere in the protocol. */
  lemma FreshIdIsUnused(h: History, file: Store, id: Id)
    requires SentInv(h, file) && T3Inv(h) && id !in h.born
    ensures id !in Tokens(h.sent) && id !in h.applied && id !in h.abandoned
  {
  }

  lemma FreshIsUnsent(h: History, j: State, callers: Callers, c: Caller, req: Request, id: Id)
    requires UnsentInv(h, j, callers) && c in callers && !Unsent(callers[c]) && c !in j.queue
    requires (j.writing.Some? ==> j.queue != []) && req.input.key !in j.memory.entries
    requires id !in h.born && id !in Tokens(h.sent) && id !in h.abandoned
    ensures var r := NewRecord(req.input, id);
      UnsentInv(h.(born := h.born[id := r]), Save(j, j.memory.(entries := j.memory.entries[r.key := r]), c), callers[c := Saving(req, r)])
  {
  }

  lemma FreshSentInv(h: History, file: Store, id: Id, r: Record)
    requires SentInv(h, file) && id !in h.born
    ensures SentInv(h.(born := h.born[id := r]), file)
  {
    var g := h.(born := h.born[id := r]);
    forall i | 0 <= i < |g.sent| ensures SentOk(g, file, g.sent[i]) {
      assert SentOk(h, file, h.sent[i]);
    }
  }

  lemma FreshIsGood(h: History, j: State, callers: Callers, c: Caller, req: Request, id: Id)
    requires GoodStores(h, j) && GoodCallers(h, callers) && BornInv(h)
    requires id !in h.born && id !in h.external && c in callers && callers[c] == Reading(req)
    ensures var r := NewRecord(req.input, id);
      var g := h.(born := h.born[id := r]);
      && GoodStores(g, Save(j, j.memory.(entries := j.memory.entries[r.key := r]), c))
      && GoodCallers(g, callers[c := Saving(req, r)]) && BornInv(g)
  {
    var r := NewRecord(req.input, id);
    var g := h.(born := h.born[id := r]);
    assert Grows(h, g);
    GrowthKeepsGood(h, g, j, callers);
    assert GoodPhase(g, Reading(req));
    assert GoodPhase(g, Saving(req, r));
  }

  /** begin with a new key makes the caller the only one that may ever send under the new record. */
  lemma BeginKeepsInv(w: World, c: Caller, req: Request, id: Id)
    requires Inv(w) && w.up && c in w.callers && w.callers[c] == Reading(req) && id !in w.h.born && id !in w.h.external
    ensures Inv(RecordBegun(w, c, req, id))
  {
    PhaseIsGood(w, c);
    match Begin(w.j.memory.entries, req.input, id)
    case Conflict =>
      hide Inv;
      LeaveKeepsInv(w, c);
    case Reused(r) => ReuseKeepsInv(w, c, req, r);
    case Fresh(r) =>
      hide Inv;
      FreshKeepsInv(w, c, req, id);
  }

  lemma ReuseKeepsInv(w: World, c: Caller, req: Request, r: Record)
    requires Inv(w) && w.up && c in w.callers && !Waiting(w.callers[c]) && GoodRequest(w.h, req)
    requires req.input.key in w.j.memory.entries && r == w.j.memory.entries[req.input.key]
    requires r.kind == req.input.kind && r.payloadHash == req.input.payloadHash
    ensures Inv(Move(w, c, Reconciling(req, r)))
  {
    assert GoodCall(w.h, req, r);
    hide Inv, GoodCall;
    MoveKeepsInv(w, c, Reconciling(req, r));
  }

  lemma FreshFileInv(j: State, up: bool, c: Caller, r: Record)
    requires FileInv(j, up) && up && r.key !in j.memory.entries
    ensures FileInv(Save(j, j.memory.(entries := j.memory.entries[r.key := r]), c), up)
  {
  }

  lemma FreshKeepsInv(w: World, c: Caller, req: Request, id: Id)
    requires Inv(w) && w.up && c in w.callers && w.callers[c] == Reading(req) && id !in w.h.born && id !in w.h.external
    requires req.input.key !in w.j.memory.entries && c !in w.j.queue
    ensures Inv(RecordBegun(w, c, req, id))
  {
    var r := NewRecord(req.input, id);
    assert w.j.writing.Some? ==> w.j.queue != [];
    FreshT3Inv(w.h, id, r);
    hide GoodStores, GoodCallers, QueueInv, SentInv, UnsentInv, BornInv, FileInv, T3Inv, GoodPhase, GoodRequest;
    FreshIdIsUnused(w.h, w.j.file, id);
    FreshIsGood(w.h, w.j, w.callers, c, req, id);
    QueueGrows(w.j.queue, w.callers, w.up, c, Saving(req, r));
    FreshSentInv(w.h, w.j.file, id, r);
    FreshFileInv(w.j, w.up, c, r);
    FreshIsUnsent(w.h, w.j, w.callers, c, req, id);
  }

  lemma FreshT3Inv(h: History, id: Id, r: Record)
    requires T3Inv(h)
    ensures T3Inv(h.(born := h.born[id := r]))
  {
  }

  lemma GivingUpKeepsSent(h: History, g: History, file: Store)
    requires SentInv(h, file) && Grows(h, g) && g.sent == h.sent
    ensures SentInv(g, file)
  {
    forall i | 0 <= i < |g.sent| ensures SentOk(g, file, g.sent[i]) {
      assert SentOk(h, file, h.sent[i]);
    }
  }

  /** A command is given up for good: its caller was the only one that could have sent it. */
  lemma GivenUpInv(w: World, c: Caller, req: Request, rec: Record)
    requires Inv(w) && w.up && c in w.callers && w.callers[c] == Ready(req, rec)
    ensures Inv(World(w.j, w.up, w.callers[c := Returned(req, rec)], w.h.(abandoned := w.h.abandoned + {rec.commandId})))
  {
    PhaseIsGood(w, c);
    ReadyMovesOn(w, c, req, rec, Returned(req, rec));
    hide GoodStores, GoodCallers, QueueInv, SentInv, UnsentInv, FileInv, BornInv, GoodPhase;
    var moved := Move(w, c, Returned(req, rec));
    var g := w.h.(abandoned := w.h.abandoned + {rec.commandId});
    GivenUpUnsent(w.h, w.j, w.callers, c);
    GivenUpBorn(w.h, rec.commandId);
    GrowthKeepsGood(w.h, g, w.j, moved.callers);
    GivingUpKeepsSent(w.h, g, w.j.file);
  }

  /** A ready caller goes on without having sent anything. */
  lemma ReadyMovesOn(w: World, c: Caller, req: Request, rec: Record, p: Phase)
    requires Inv(w) && w.up && c in w.callers && w.callers[c] == Ready(req, rec)
    requires p == Returned(req, rec) || p == AwaitingT3(req, rec)
    ensures Inv(Move(w, c, p))
  {
    hide Inv, UnsentOk, GoodCall;
    PhaseIsGood(w, c);
    assert GoodPhase(w.h, p);
    hide GoodPhase;
    MoveKeepsInv(w, c, p);
  }

  lemma GivenUpBorn(h: History, id: Id)
    requires BornInv(h) && T3Inv(h) && id in h.born && id !in Tokens(h.sent)
    ensures BornInv(h.(abandoned := h.abandoned + {id})) && T3Inv(h.(abandoned := h.abandoned + {id}))
  {
  }

  lemma GivenUpUnsent(h: History, j: State, callers: Callers, c: Caller)
    requires UnsentInv(h, j, callers) && c in callers && callers[c].Ready?
    ensures var Ready(req, rec) := callers[c];
      UnsentInv(h.(abandoned := h.abandoned + {rec.operationId}), j, callers[c := Returned(req, rec)])
  {
  }

  lemma AbandonKeepsInv(w: World, c: Caller, req: Request, rec: Record)
    requires Inv(w) && w.up && c in w.callers && w.callers[c] == Ready(req, rec)
    ensures Inv(CommandAbandoned(w, c, req, rec))
  {
    PhaseIsGood(w, c);
    hide Inv;
    GivenUpInv(w, c, req, rec);
    var v := World(w.j, w.up, w.callers[c := Returned(req, rec)], w.h.(abandoned := w.h.abandoned + {rec.commandId}));
    PhaseIsGood(v, c);
    PatchKeepsInv(v, c, req, rec, Rejected, false);
    SamePatch(v, w.(h := v.h), c, req, rec, Rejected, false);
  }

  /** A patch does not depend on the phase its caller was in. */
  lemma SamePatch(v: World, w: World, c: Caller, req: Request, rec: Record, status: Status, guarded: bool)
    requires v.j == w.j && v.up == w.up && v.h == w.h && v.callers - {c} == w.callers - {c} && Holds(w.j.memory, rec)
    ensures Patch(v, c, req, rec, status, guarded) == Patch(w, c, req, rec, status, guarded)
  {
    var p := Settling(req, w.j.memory.entries[rec.key].(status := status), guarded);
    assert v.callers[c := p] == (v.callers - {c})[c := p] == (w.callers - {c})[c := p] == w.callers[c := p];
  }

  /** A ready record's key was never dispatched before. */
  lemma ReadyKeyIsNew(w: World, c: Caller, i: nat)
    requires Inv(w) && c in w.callers && w.callers[c].Ready? && i < |w.h.sent|
    ensures w.h.sent[i].key != w.callers[c].rec.key
  {
    assert SentOk(w.h, w.j.file, w.h.sent[i]);
    assert UnsentOk(w.h, w.j, c, w.callers[c]);
    assert w.h.sent[i].token in Tokens(w.h.sent);
  }

  lemma SendSentInv(w: World, c: Caller, req: Request, rec: Record)
    requires Inv(w) && w.up && c in w.callers && w.callers[c] == Ready(req, rec)
    ensures SentInv(w.h.(sent := w.h.sent + [CommandOf(req, rec)]), w.j.file)
  {
    var g := w.h.(sent := w.h.sent + [CommandOf(req, rec)]);
    PhaseIsGood(w, c);
    assert SentInv(w.h, w.j.file);
    hide Inv;
    forall i | 0 <= i < |g.sent| ensures SentOk(g, w.j.file, g.sent[i]) {
      if i < |w.h.sent| { assert SentOk(w.h, w.j.file, w.h.sent[i]); }
    }
    forall i, j | 0 <= i < j < |g.sent| ensures g.sent[i].key != g.sent[j].key {
      if j == |w.h.sent| { ReadyKeyIsNew(w, c, i); }
    }
  }

  lemma TokensAppend(sent: seq<Sent>, s: Sent)
    ensures Tokens(sent + [s]) == Tokens(sent) + {s.token}
  {
    assert forall i :: 0 <= i < |sent| ==> (sent + [s])[i] == sent[i];
    assert (sent + [s])[|sent|] == s;
  }

  lemma SendUnsent(h: History, j: State, callers: Callers, c: Caller, g: History)
    requires UnsentInv(h, j, callers) && c in callers && callers[c].Ready?
    requires g.born == h.born && g.abandoned == h.abandoned && Tokens(g.sent) == Tokens(h.sent) + {callers[c].rec.operationId}
    ensures UnsentInv(g, j, callers[c := AwaitingT3(callers[c].req, callers[c].rec)])
  {
  }

  lemma SendT3Inv(h: History, g: History, id: Id)
    requires T3Inv(h) && g == h.(sent := g.sent) && Tokens(g.sent) == Tokens(h.sent) + {id} && id !in h.abandoned
    ensures T3Inv(g)
  {
  }

  /** client.dispatch: the one time this key's command goes out. */
  lemma SendKeepsInv(w: World, c: Caller, req: Request, rec: Record)
    requires Inv(w) && w.up && c in w.callers && w.callers[c] == Ready(req, rec)
    ensures Inv(CommandSent(w, c, req, rec))
  {
    var p := AwaitingT3(req, rec);
    var m, g := Move(w, c, p), w.h.(sent := w.h.sent + [CommandOf(req, rec)]);
    PhaseIsGood(w, c);
    ReadyMovesOn(w, c, req, rec, p);
    assert rec.commandId == rec.operationId;
    hide GoodStores, GoodCallers, QueueInv, SentInv, UnsentInv, FileInv, T3Inv, GoodPhase;
    TokensAppend(w.h.sent, CommandOf(req, rec));
    SendT3Inv(w.h, g, rec.commandId);
    GrowthKeepsGood(w.h, g, m.j, m.callers);
    SendSentInv(w, c, req, rec);
    SendUnsent(w.h, w.j, w.callers, c, g);
  }

  lemma AnswerKeepsInv(w: World, c: Caller, req: Request, rec: Record, status: Status)
    requires Inv(w) && w.up && c in w.callers && w.callers[c] == AwaitingT3(req, rec) && Sound(w.h, rec.(status := status))
    ensures Inv(Patch(w, c, req, rec, status, status.Accepted?))
  {
    PhaseIsGood(w, c);
    hide Inv;
    PatchKeepsInv(w, c, req, rec, status, status.Accepted?);
  }

  lemma ReconcileKeepsInv(w: World, c: Caller, req: Request, rec: Record, found: bool)
    requires Inv(w) && w.up && c in w.callers && w.callers[c] == Reconciling(req, rec) && (found ==> Found(w.h, rec))
    ensures Inv(Reconciled(w, c, req, rec, found))
  {
    assert GoodPhase(w.h, w.callers[c]);
    if Undecided(rec) && found {
      FoundIsApplied(w.h, w.j.file, rec);
      PatchKeepsInv(w, c, req, rec, Accepted, false);
    } else {
      MoveKeepsInv(w, c, Returned(req, rec));
    }
  }

  lemma ReturnKeepsInv(w: World, c: Caller, req: Request, rec: Record)
    requires Inv(w) && w.up && c in w.callers && w.callers[c] == Returned(req, rec)
    ensures Inv(CallReturned(w, c, req, rec))
  {
    if req.task.None? {
      LeaveKeepsInv(w, c);
    } else {
      assert GoodPhase(w.h, w.callers[c]);
      if rec.kind.ThreadCreate? {
        StageIsSound(w.h, req.task.value, TaskPrepared, Some(rec), None);
      } else {
        StageIsSound(w.h, req.task.value, TaskPrepared, None, Some(rec));
      }
      StampKeepsInv(w, c, req.task.value, ReturnedStage(rec),
                    if rec.kind.ThreadCreate? && rec.status.Accepted? then rec.threadId else None);
    }
  }

  lemma StartSummaryKeepsInv(w: World, c: Caller, task: string)
    requires Inv(w) && w.up && c !in w.callers && task in w.j.memory.tasks
    ensures var memory := w.j.memory;
      Inv(Move(w, c, Summary(memory.tasks[task], Entry(memory, ThreadKey(task)), Entry(memory, RunKey(task)))))
  {
    var memory := w.j.memory;
    MoveKeepsInv(w, c, Summary(memory.tasks[task], Entry(memory, ThreadKey(task)), Entry(memory, RunKey(task))));
  }

  lemma SummaryReconcilesKeepsInv(w: World, c: Caller, t: Task, cr: Option<Record>, run: Option<Record>, create: bool)
    requires Inv(w) && w.up && c in w.callers && w.callers[c] == Summary(t, cr, run)
    requires (if create then cr else run).Some? && Found(w.h, (if create then cr else run).value)
    ensures Inv(SummaryReconciled(w, c, t, cr, run, create))
  {
    var r := (if create then cr else run).value;
    PhaseIsGood(w, c);
    FoundIsApplied(w.h, w.j.file, r);
    if Holds(w.j.memory, r) {
      SameIdSameRecord(w.h, r, w.j.memory.entries[r.key]);
      SetStatusIsGood(w.h, w.j.memory, r, Accepted);
      hide Inv;
      var updated := Some(w.j.memory.entries[r.key].(status := Accepted));
      WriteKeepsInv(w, c, if create then SummarySaving(t, updated, run) else SummarySaving(t, cr, updated),
                    SetStatus(w.j.memory, r.key, Accepted));
    } else {
      LeaveKeepsInv(w, c);
    }
  }

  lemma SummaryEndsKeepsInv(w: World, c: Caller, t: Task, create: Option<Record>, run: Option<Record>)
    requires Inv(w) && w.up && c in w.callers && w.callers[c] == Summary(t, create, run)
    ensures Inv(Stamp(w, c, t.key, StageOf(t.stage, create, run), None))
  {
    assert GoodPhase(w.h, w.callers[c]);
    StageIsSound(w.h, t.key, t.stage, create, run);
    StampKeepsInv(w, c, t.key, StageOf(t.stage, create, run), None);
  }

  // ----- The write chain -----

  lemma StartWriteKeepsInv(w: World)
    requires Inv(w) && CanStart(w.j)
    ensures Inv(w.(j := Started(w.j)))
  {
    assert w.j.queue[0] in w.j.queue;
  }

  lemma QueueShrinks(queue: seq<Caller>, callers: Callers, after: Callers, up: bool)
    requires QueueInv(queue, callers, up) && queue != []
    requires after == callers - {queue[0]} || (queue[0] in after && !Waiting(after[queue[0]]) && after == callers[queue[0] := after[queue[0]]])
    ensures QueueInv(queue[1..], after, up)
  {
    var c := queue[0];
    assert c in queue;
    assert queue == [c] + queue[1..];
    assert c !in queue[1..];
    forall d ensures d in queue[1..] <==> d in after && Waiting(after[d]) {
      if d != c { assert d in queue[1..] <==> d in queue; }
    }
  }

  lemma WithinHolds(a: Store, b: Store, r: Record)
    requires Within(a, b) && Holds(a, r)
    ensures Holds(b, r)
  {
  }

  lemma SentMovesToFile(h: History, a: Store, b: Store)
    requires SentInv(h, a) && Within(a, b)
    ensures SentInv(h, b)
  {
    forall i | 0 <= i < |h.sent| ensures SentOk(h, b, h.sent[i]) { assert SentOk(h, a, h.sent[i]); }
  }

  /** A write ends, well or badly; its caller is gone from the queue and in a phase that waits for nothing, or gone. */
  lemma UnsentAfterWrite(h: History, j: State, callers: Callers, after: Callers, up: bool, ended: State)
    requires UnsentInv(h, j, callers) && FileInv(j, up) && QueueInv(j.queue, callers, up) && j.writing.Some?
    requires ended == Finished(j) || ended == Broken(j)
    requires var c := j.queue[0];
      || after == callers - {c}
      || (c in callers && ended == Finished(j) && Resumed(callers[c]).Some? && after == callers[c := Resumed(callers[c]).value])
    ensures UnsentInv(h, ended, after)
  {
    var c := j.queue[0];
    assert j.queue == [c] + j.queue[1..];
    assert c in j.queue;
    forall d | d in after && Unsent(after[d]) ensures UnsentOk(h, ended, d, after[d]) {
      assert UnsentOk(h, j, d, callers[d]);
      if d != c && ended == Finished(j) && after[d].Ready? {
        WithinHolds(j.file, j.writing.value, after[d].rec);
      }
    }
  }

  lemma FinishWriteKeepsInv(w: World)
    requires Inv(w) && w.j.writing.Some?
    ensures Inv(WriteFinished(w))
  {
    var c, v := w.j.queue[0], WriteFinished(w);
    assert c in w.j.queue;
    PhaseIsGood(w, c);
    hide GoodStore, GoodRecord, GoodRequest, SentInv, UnsentInv, UnsentOk, T3Inv, BornInv;
    QueueShrinks(w.j.queue, w.callers, v.callers, w.up);
    SentMovesToFile(w.h, w.j.file, w.j.writing.value);
    UnsentAfterWrite(w.h, w.j, w.callers, v.callers, w.up, v.j);
  }

  lemma BrokenWriteInv(w: World)
    requires Inv(w) && w.j.writing.Some?
    ensures Inv(Leave(w.(j := Broken(w.j)), w.j.queue[0]))
  {
    var v := Leave(w.(j := Broken(w.j)), w.j.queue[0]);
    QueueShrinks(w.j.queue, w.callers, v.callers, w.up);
    UnsentAfterWrite(w.h, w.j, w.callers, v.callers, w.up, v.j);
  }

  lemma FailWriteKeepsInv(w: World)
    requires Inv(w) && w.j.writing.Some?
    ensures Inv(WriteFailed(w))
  {
    var c, failed := w.j.queue[0], w.(j := Broken(w.j));
    BrokenWriteInv(w);
    if c in w.callers && w.callers[c].Settling? && w.callers[c].guarded {
      assert GoodPhase(w.h, w.callers[c]);
      PatchKeepsInv(Leave(failed, c), c, w.callers[c].req, w.callers[c].rec, Uncertain, false);
    }
  }

  // ----- T3, other clients, the host -----

  /** T3 and other clients act: the history grows, and nothing of what the journal and its callers rely on goes away. */
  lemma UpstreamKeepsInv(w: World, g: History)
    requires Inv(w) && Grows(w.h, g) && g.born == w.h.born && g.sent == w.h.sent && g.abandoned == w.h.abandoned
    requires T3Inv(g) && BornInv(g)
    ensures Inv(w.(h := g))
  {
    GrowthKeepsGood(w.h, g, w.j, w.callers);
    GivingUpKeepsSent(w.h, g, w.j.file);
    assert UnsentInv(g, w.j, w.callers) by {
      forall c | c in w.callers && Unsent(w.callers[c]) ensures UnsentOk(g, w.j, c, w.callers[c]) {
        assert UnsentOk(w.h, w.j, c, w.callers[c]);
      }
    }
  }

  lemma ApplyKeepsInv(w: World, id: Id)
    requires Inv(w) && id in Tokens(w.h.sent) && id !in w.h.refused
    ensures Inv(w.(h := w.h.(applied := w.h.applied + {id})))
  {
    UpstreamKeepsInv(w, w.h.(applied := w.h.applied + {id}));
  }

  lemma RefuseKeepsInv(w: World, id: Id)
    requires Inv(w) && id in Tokens(w.h.sent) && id !in w.h.applied
    ensures Inv(w.(h := w.h.(refused := w.h.refused + {id})))
  {
    UpstreamKeepsInv(w, w.h.(refused := w.h.refused + {id}));
  }

  lemma OtherClientKeepsInv(w: World, id: Id)
    requires Inv(w) && id !in w.h.born
    ensures Inv(w.(h := w.h.(external := w.h.external + {id})))
  {
    UpstreamKeepsInv(w, w.h.(external := w.h.external + {id}));
  }

  lemma CrashKeepsInv(w: World)
    requires Inv(w)
    ensures Inv(Crashed(w))
  {
  }

  lemma LoadedIsGood(h: History, file: Store)
    requires GoodStore(h, file)
    ensures GoodStore(h, Store(Recovered(file.entries), file.tasks)) && Within(file, Store(Recovered(file.entries), file.tasks))
  {
  }

  lemma InitKeepsInv(w: World, c: Caller)
    requires Inv(w) && !w.up
    ensures Inv(Initialized(w, c))
  {
    hide GoodStore, SentInv, T3Inv, BornInv;
    LoadedIsGood(w.h, w.j.file);
  }

  lemma InitialInv()
    ensures Inv(Initial())
  {
  }

  // ----- All steps -----

  predicate StartStep(step: Step) { step.StartTask? || step.StartCall? || step.StartSummary? }

  predicate JournalStep(step: Step) {
    step.FindRecord? || step.ReadFails? || step.BeginRecord? || step.AbandonCommand? || step.SendCommand?
  }

  predicate AnswerStep(step: Step) {
    step.AnswerAccepted? || step.AnswerRefused? || step.AnswerLost? || step.ReconcileEnds?
  }

  predicate TaskStep(step: Step) {
    step.Gate? || step.SendTask? || step.Return? || step.SummaryReconciles? || step.SummaryEnds?
  }

  predicate HostStep(step: Step) {
    step.StartWrite? || step.FinishWrite? || step.FailWrite? || step.Crash? || step.Init?
  }

  lemma StartStepKeepsInv(w: World, step: Step)
    requires Inv(w) && Enabled(w, step) && StartStep(step)
    ensures Inv(Next(w, step))
  {
    hide Inv;
    match step
    case StartTask(c, task, hash, ref) => StartTaskKeepsInv(w, c, task, hash, ref);
    case StartCall(c, input) => MoveKeepsInv(w, c, Lookup(Request(input, None)));
    case StartSummary(c, task) => if task in w.j.memory.tasks { StartSummaryKeepsInv(w, c, task); }
  }

  /** Only a running gateway has callers. */
  lemma CallersRun(w: World, c: Caller)
    requires Inv(w) && c in w.callers
    ensures w.up
  {
  }

  lemma ReadFailsKeepsInv(w: World, c: Caller, rejectsTask: bool)
    requires Inv(w) && Enabled(w, ReadFails(c, rejectsTask)) && w.up
    ensures Inv(Next(w, ReadFails(c, rejectsTask)))
  {
    if rejectsTask && w.callers[c].req.task.Some? {
      StampKeepsInv(w, c, w.callers[c].req.task.value, TaskRejected, None);
    } else {
      LeaveKeepsInv(w, c);
    }
  }

  lemma JournalStepKeepsInv(w: World, step: Step)
    requires Inv(w) && Enabled(w, step) && JournalStep(step)
    ensures Inv(Next(w, step))
  {
    CallersRun(w, step.c);
    hide Inv;
    match step
    case FindRecord(c) => LookupKeepsInv(w, c, w.callers[c].req);
    case ReadFails(c, rejectsTask) => ReadFailsKeepsInv(w, c, rejectsTask);
    case BeginRecord(c, id) => BeginKeepsInv(w, c, w.callers[c].req, id);
    case AbandonCommand(c) => AbandonKeepsInv(w, c, w.callers[c].req, w.callers[c].rec);
    case SendCommand(c) => SendKeepsInv(w, c, w.callers[c].req, w.callers[c].rec);
  }

  lemma AnswerStepKeepsInv(w: World, step: Step)
    requires Inv(w) && Enabled(w, step) && AnswerStep(step)
    ensures Inv(Next(w, step))
  {
    CallersRun(w, step.c);
    hide Inv, Found;
    match step
    case ReconcileEnds(c, found) => ReconcileKeepsInv(w, c, w.callers[c].req, w.callers[c].rec, found);
    case AnswerAccepted(c) => AnswerKeepsInv(w, c, w.callers[c].req, w.callers[c].rec, Accepted);
    case AnswerRefused(c) => AnswerKeepsInv(w, c, w.callers[c].req, w.callers[c].rec, Rejected);
    case AnswerLost(c) => AnswerKeepsInv(w, c, w.callers[c].req, w.callers[c].rec, Uncertain);
  }

  lemma TaskStepKeepsInv(w: World, step: Step)
    requires Inv(w) && Enabled(w, step) && TaskStep(step)
    ensures Inv(Next(w, step))
  {
    CallersRun(w, step.c);
    hide Inv, Found;
    match step
    case Gate(c, hash) => GateKeepsInv(w, c, w.callers[c].job, hash);
    case SendTask(c, hash) => SendTaskKeepsInv(w, c, w.callers[c].task, w.callers[c].thread, hash);
    case Return(c) => ReturnKeepsInv(w, c, w.callers[c].req, w.callers[c].rec);
    case SummaryReconciles(c, create, found) =>
      var Summary(t, cr, run) := w.callers[c];
      if found { SummaryReconcilesKeepsInv(w, c, t, cr, run, create); }
    case SummaryEnds(c, writes) =>
      var Summary(t, cr, run) := w.callers[c];
      if writes { SummaryEndsKeepsInv(w, c, t, cr, run); } else { LeaveKeepsInv(w, c); }
  }

  lemma HostStepKeepsInv(w: World, step: Step)
    requires Inv(w) && Enabled(w, step) && HostStep(step)
    ensures Inv(Next(w, step))
  {
    hide Inv;
    match step
    case StartWrite => StartWriteKeepsInv(w);
    case FinishWrite => FinishWriteKeepsInv(w);
    case FailWrite => FailWriteKeepsInv(w);
    case Crash => CrashKeepsInv(w);
    case Init(c) => InitKeepsInv(w, c);
  }

  lemma UpstreamStepKeepsInv(w: World, step: Step)
    requires Inv(w) && Enabled(w, step) && (step.Apply? || step.Refuse? || step.OtherClient?)
    ensures Inv(Next(w, step))
  {
    hide Inv, Tokens;
    match step
    case Apply(id) => ApplyKeepsInv(w, id);
    case Refuse(id) => RefuseKeepsInv(w, id);
    case OtherClient(id) => OtherClientKeepsInv(w, id);
  }

  lemma StepKeepsInv(w: World, step: Step)
    requires Inv(w) && Enabled(w, step)
    ensures Inv(Next(w, step))
  {
    hide Inv, Next, Enabled;
    if StartStep(step) {
      StartStepKeepsInv(w, step);
    } else if JournalStep(step) {
      JournalStepKeepsInv(w, step);
    } else if AnswerStep(step) {
      AnswerStepKeepsInv(w, step);
    } else if TaskStep(step) {
      TaskStepKeepsInv(w, step);
    } else if HostStep(step) {
      HostStepKeepsInv(w, step);
    } else {
      UpstreamStepKeepsInv(w, step);
    }
  }

  /** The invariant holds in every reachable world. */
  lemma {:induction false} ReachableInv(steps: seq<Step>)
    requires After(steps).Some?
    ensures Inv(After(steps).value)
  {
    if steps == [] {
      InitialInv();
    } else {
      ReachableInv(steps[..|steps| - 1]);
      StepKeepsInv(After(steps[..|steps| - 1]).value, steps[|steps| - 1]);
    }
  }
}
